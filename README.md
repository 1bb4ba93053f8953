# Campus study-space finder: a verified model

The system helps students find a free seat on campus and helps staff run the spaces. It has two parts:

- **A React Native app.** Students browse study locations, their floors and seats. Lecturers see their teaching rooms. Admins see venue cards and can edit a floor's seat map.
- **A FastAPI backend.** It stores locations, floors, seats, reservations, occupancy history, users and lecture-room bookings. Simulated IoT sensors report seats as occupied or vacated, and the stored counters are recounted from them. A background worker drifts occupancy towards a target and caches a snapshot for an AI demo page. A keyword-driven assistant suggests seats, optionally phrased by a language model.

This project models the logic of both parts in Dafny and proves what the code promises.

**State-changing code is imperative.** The map editor's edit session, the floor-map viewport, the backend handlers, the refresh worker and the snapshot builders are classes whose methods update fields in place. Each method is proved against a function that states the new state. Properties are proved about those functions: invariants kept, round trips, permutations, bounds.

**Pure code is functions and lemmas.** This covers marker styling, threshold badges, parsers, rankers, percentage helpers and the schedule-clash predicate.

**The database is rows in memory.** Every table is a sequence of records in table order. `.filter(...).first()` is the first matching row. `ORDER BY` and Python's `sorted` are a stable insertion sort, proved sorted, a permutation and stable (`Sorting`). An HTTP error is a `Result` carrying the status and the detail.

**Numbers are exact.**
- Floating-point values are Dafny `real`s.
- JavaScript's division by zero and NaN are written out (`JsNumber`).
- Suggestion scores are whole tenths.
- Python's `round(x, 2)` and JavaScript's `Math.round` are modelled as round-half-up of the exact value (`Rounding.RoundTo`). A value exactly halfway between two candidates therefore rounds up. The source rounds the nearest binary double, and Python rounds such ties to even.
- Times are whole seconds, or whole minutes where the source parses `HH:MM` text.

**Outside effects are parameters:**
- clocks;
- random draws, given as the sequence of draws, the random ordering of seats, and the flags `random.random() < p`;
- uuid and `temp_` ids, required to be fresh where the source relies on it;
- password hashing, token signing and decoding;
- the e-mail check of the form schema library;
- language-model replies;
- the device position, and distance computation and formatting;
- CSV timestamp and number parsing.

**Where the code differs from its intent or its documentation, the code is modelled.**
- `get_available_seats` filters on a `has_computer` column that the seat table does not have. Passing that filter is modelled as a failure, `Seats.NoComputerColumn`.
- The lecture-room table stores the lecturer in a column named `email`, and has no `code` column. The model's room record has the same columns and calls the lecturer `lecturerEmail`. `lecturer.py` writes a `lecturer_email` attribute, which sets no column; the model keeps the stored `email` there.
- The frontend uses two reference sizes for drawings: 2292 x 2025 for the legacy chair map and 2400 x 1500 in `MapConfig.ts`. Each component is modelled with its own constants.
- The map editor normalises a tap against the container rectangle, not the letter-boxed viewBox. That is what the model does too.
- The backend mounts `lecturer.py`, not `lecturer_location.py`, under `/api/lecturer-locations`. `lecturer.py` is modelled as written, with the intended version of each handler beside it; the differences are listed under Findings. The unmounted `lecturer_location.py` is modelled as its authors meant it to run, not as it runs; see Left out.

## Model

| member | source | states |
|---|---|---|
| MapEditor.TempId | frontend/src/screens/MapEditor/index.tsx:259 | A seat placed on the canvas gets an id that starts with `temp_`. |
| MapEditor.Lookup | frontend/src/screens/MapEditor/index.tsx:102 | `updatedSeats.get(id)` finds a patch exactly when some patch has that id, and the patch it returns has that id. |
| MapEditor.Upsert | frontend/src/screens/MapEditor/index.tsx:318 | `Map.set` keeps the key order: an existing key stays in its place, and a new key goes last. |
| MapEditor.UpsertLookup | frontend/src/screens/MapEditor/index.tsx:316-324 | After `set`, `get` of that key returns the new patch, and every other key reads as before. |
| MapEditor.UpsertLookupAll | frontend/src/screens/MapEditor/index.tsx:344-349 | The same fact stated for every other key at once, as the edit handlers need it. |
| MapEditor.Delete | frontend/src/screens/MapEditor/index.tsx:235-239 | `Map.delete` removes exactly the entry of that id. Every other entry stays. |
| MapEditor.WithUpdates | frontend/src/screens/MapEditor/index.tsx:101-104 | Every visible seat has its pending patch merged over it, one for one and in order. |
| MapEditor.Merge | frontend/src/screens/MapEditor/index.tsx:103 | The spread `{ ...seat, ...updates }` takes the patch's id and keeps the seat's floor, which a patch never changes. |
| MapEditor.WithUpdate | frontend/src/screens/MapEditor/index.tsx:102-103 | A seat shown with its pending patch keeps its id and floor. A seat without a patch is shown as stored. |
| MapEditor.Kept | frontend/src/screens/MapEditor/index.tsx:99 | The baseline seats shown are exactly those whose id was not removed. |
| MapEditor.Initial | frontend/src/screens/MapEditor/index.tsx:64-89 | The editor opens with the session invariant holding and no pending changes. |
| MapEditor.StartAddMode | frontend/src/screens/MapEditor/index.tsx:224-227 | Add mode flips, the selection is cleared, and nothing else changes. |
| MapEditor.MarkerPress | frontend/src/screens/MapEditor/index.tsx:607 | A tap on a marker selects the seat unless add mode is on. |
| MapEditor.MarkerPressIn | frontend/src/screens/MapEditor/index.tsx:281-292 | Ignored in add mode. Otherwise the seat is selected and becomes the dragged seat. The invariant is kept. |
| MapEditor.ContainerRelease | frontend/src/screens/MapEditor/index.tsx:330-335 | Ends a running drag; without one, nothing changes. |
| MapEditor.Clamp01 | frontend/src/screens/MapEditor/index.tsx:255-256 | The pointer fraction is clamped into [0, 1]; a value already inside is unchanged. |
| MapEditor.Coordinate | frontend/src/screens/MapEditor/index.tsx:268-269 | A stored coordinate always lies in [0, 1]. |
| MapEditor.CanvasPress | frontend/src/screens/MapEditor/index.tsx:245-278 | Does nothing unless add mode is on, no drag is in progress (the press handler at lines 543-544 returns while dragging) and a floor is selected. Otherwise it appends one seat and changes nothing else but the selection and add mode. The seat has a `temp_` id and number `NEW_{k+1}`; it is `individual` and `available`, with capacity 1, no features, the current floor and in-range coordinates. The new seat is selected and add mode is turned off. |
| MapEditor.MoveAdded | frontend/src/screens/MapEditor/index.tsx:309-313 | Only the added seat with that id gets the new coordinates; the ids and the other seats are unchanged. |
| MapEditor.EditAdded | frontend/src/screens/MapEditor/index.tsx:342 | Only the added seat with that id gets the edited field; the ids and the other seats are unchanged. |
| MapEditor.CurrentPatch | frontend/src/screens/MapEditor/index.tsx:317 | `next.get(id) ?? {}`, with `id` set, as the merge writes it. |
| MapEditor.ContainerMove | frontend/src/screens/MapEditor/index.tsx:296-327 | Without a drag, nothing changes. A dragged `temp_` seat moves inside `added`, and `updated` is untouched. For a baseline seat, its patch gains the new coordinates over its earlier fields; every other patch and the rest of the state are kept. |
| MapEditor.UpdateSeatAttribute | frontend/src/screens/MapEditor/index.tsx:338-351 | Without a selection, nothing changes. A `temp_` seat is edited in `added`. For a baseline seat, its patch gains the field over its earlier fields and every other patch is kept. The invariant holds afterwards. |
| MapEditor.UpsertKeeps | frontend/src/screens/MapEditor/index.tsx:315-325 | Writing a patch for a baseline id that was not removed keeps the invariant: no `temp_` or removed id is ever a key of `updated`. |
| MapEditor.DropAdded | frontend/src/screens/MapEditor/index.tsx:232 | The filter keeps exactly the added seats with another id. |
| MapEditor.DropAddedDistinct | frontend/src/screens/MapEditor/index.tsx:232 | Filtering keeps the added ids distinct. |
| MapEditor.AddOnce | frontend/src/screens/MapEditor/index.tsx:234 | `Array.from(new Set([...prev, id]))` appends the id only when it is absent, so the list never holds it twice. |
| MapEditor.RemoveSelectedSeat | frontend/src/screens/MapEditor/index.tsx:229-242 | Without a selection, nothing changes. A `temp_` seat leaves `added`, and `removed` and `updated` are untouched. A baseline id joins `removed` at most once and loses its patch. The selection is always cleared. As corrected, the drag ends too. |
| MapEditor.DeleteDistinct | frontend/src/screens/MapEditor/index.tsx:235-239 | Deleting a key keeps the patch ids distinct. |
| MapEditor.CancelChanges | frontend/src/screens/MapEditor/index.tsx:403-409 | Clears the diff, the selection and add mode, and nothing else. |
| MapEditor.SelectFloor | frontend/src/screens/MapEditor/index.tsx:126-139 | Choosing a floor clears the diff and the selection. Choosing none empties the seat list. |
| MapEditor.SeatsLoaded | frontend/src/screens/MapEditor/index.tsx:170-182 | A successful load replaces the baseline and keeps the invariant. |
| MapEditor.NewSeats | frontend/src/screens/MapEditor/index.tsx:362-368 | Each added seat becomes one payload seat, in order, with its fresh id and the floor. |
| MapEditor.RoundPatches | frontend/src/screens/MapEditor/index.tsx:374-379 | Each patch is sent once, in order, with its coordinates rounded. |
| MapEditor.SavePayload | frontend/src/screens/MapEditor/index.tsx:354-380 | No payload without a floor. Otherwise `added`, `removed` and `updated` each appear exactly when non-empty, and `removed` is sent as it is. |
| MapEditor.SaveSucceeded | frontend/src/screens/MapEditor/index.tsx:384-391 | After a successful save the diff and the selection are cleared and the invariant holds. |
| MapEditor.HasChangesIffPayload | frontend/src/screens/MapEditor/index.tsx:107 | `hasChanges` holds exactly when the save payload would carry something: added seats, removed ids or updates. |
| MapEditor.EditsShowChanges | frontend/src/screens/MapEditor/index.tsx:107 | Every edit that records something shows as a change: placing a seat, removing a selected saved seat, editing its attribute, and dragging it. |
| MapEditor.TempHasNoPatch | frontend/src/screens/MapEditor/index.tsx:308-326 | In a valid session a `temp_` id never has a pending patch. |
| MapEditor.WithUpdateId | frontend/src/screens/MapEditor/index.tsx:101-104 | Merging a pending patch never changes a seat's id. |
| MapEditor.VisibleSeatsView | frontend/src/screens/MapEditor/index.tsx:98-104 | The visible seats are the kept baseline seats followed by the added seats, shown as they are. No removed id is shown. |
| MapEditor.DiffClearedOnCancelSaveAndFloorChange | frontend/src/screens/MapEditor/index.tsx:126-134 | Cancel, a successful save and choosing a floor all leave no pending changes. |
| MapEditor.SavePayloadContents | frontend/src/screens/MapEditor/index.tsx:361-379 | Each added seat is sent with its fresh id, the selected floor, its number, and coordinates rounded to 4 places. The updates are sent for the same ids. |
| MapEditor.CoordinateInRange | frontend/src/screens/MapEditor/index.tsx:255-269 | A tap inside the container keeps its fraction, rounded to 4 places. |
| MapEditor.RemoveDuringDragLeavesUpdate | frontend/src/screens/MapEditor/index.tsx:229-242 | The handlers as written can record an update for a removed seat: press a baseline seat, remove it mid-drag, then move the pointer. |
| MapEditor.RemoveSelectedSeatAsWritten | frontend/src/screens/MapEditor/index.tsx:229-242 | As written: without a selection nothing changes. Otherwise the selection is cleared, but a running drag is left running. |
| MapEditor.ContainerMoveAsWritten | frontend/src/screens/MapEditor/index.tsx:296-327 | As written, on any state: without a drag nothing changes. A move never touches `removed`, the selection or the drag, so it can patch a removed seat. |
| MapEditorSession.EditSession.constructor | frontend/src/screens/MapEditor/index.tsx:64-89 | The component state starts valid, with no floor and no diff. |
| MapEditorSession.EditSession.SelectFloor | frontend/src/screens/MapEditor/index.tsx:126-139 | Updates the fields in place to the floor-change state and keeps the invariant. |
| MapEditorSession.EditSession.SeatsLoaded | frontend/src/screens/MapEditor/index.tsx:170-182 | Replaces the baseline in place. |
| MapEditorSession.EditSession.StartAddMode | frontend/src/screens/MapEditor/index.tsx:224-227 | Flips add mode and clears the selection in place. |
| MapEditorSession.EditSession.MarkerPress | frontend/src/screens/MapEditor/index.tsx:607 | Selects the tapped seat in place unless add mode is on. |
| MapEditorSession.EditSession.MarkerPressIn | frontend/src/screens/MapEditor/index.tsx:281-292 | Starts a drag of the pressed seat in place. |
| MapEditorSession.EditSession.ContainerMove | frontend/src/screens/MapEditor/index.tsx:296-327 | Moves the dragged seat in place, as `MapEditor.ContainerMove` states. |
| MapEditorSession.EditSession.ContainerRelease | frontend/src/screens/MapEditor/index.tsx:330-335 | Ends the drag in place. |
| MapEditorSession.EditSession.CanvasPress | frontend/src/screens/MapEditor/index.tsx:245-278 | Appends the new seat in place, as `MapEditor.CanvasPress` states, and does nothing while a drag is in progress. |
| MapEditorSession.EditSession.UpdateSeatAttribute | frontend/src/screens/MapEditor/index.tsx:338-351 | Applies the edit in place, as `MapEditor.UpdateSeatAttribute` states. |
| MapEditorSession.EditSession.RemoveSelectedSeat | frontend/src/screens/MapEditor/index.tsx:229-242 | Removes the selected seat in place, as `MapEditor.RemoveSelectedSeat` states. |
| MapEditorSession.EditSession.CancelChanges | frontend/src/screens/MapEditor/index.tsx:403-409 | Discards the diff, the selection and add mode in place. |
| MapEditorSession.EditSession.SaveChanges | frontend/src/screens/MapEditor/index.tsx:354-400 | Sends the payload `MapEditor.SavePayload` describes. When the server accepts it, the seats reload and the diff and selection are cleared. When it refuses, or there is no floor, the state is unchanged. |
| Viewport.Aspect | frontend/src/components/map/MapConfig.ts:4 | The aspect ratio of the reference rectangle is positive. |
| Viewport.Initial | frontend/src/components/map/FloorMapContent.tsx:39-47 | The viewport starts at the origin and shows the whole width, a zoom inside the allowed range. |
| Viewport.ViewBoxOf | frontend/src/components/map/FloorMapContent.tsx:77-83 | The SVG `viewBox` (section 7.7 of SVG 1.1) takes x, y and w from the viewport, with height `w·ASPECT_RATIO`. So it always has the map's proportions. |
| Viewport.ViewBoxPositive | frontend/src/components/map/FloorMapContent.tsx:77-83 | At any allowed zoom the viewBox has positive width and height, as section 7.7 of SVG 1.1 requires. |
| Viewport.Clamp | frontend/src/components/map/FloorMapContent.tsx:89-90 | `Math.max(lo, Math.min(v, hi))` lies in [lo, hi] when that range is non-empty and leaves values inside it unchanged. |
| Viewport.ClampPosition | frontend/src/components/map/FloorMapContent.tsx:85-94 | `clampPosition` clamps x into [0, W−w] and y into [0, H−w·aspect] and leaves the width alone. |
| Viewport.HeightFits | frontend/src/components/map/FloorMapContent.tsx:87-90 | A viewport no wider than the map is also no taller than it. |
| Viewport.ClampPositionBounds | frontend/src/components/map/FloorMapContent.tsx:85-94 | For w ≤ W, the clamped position satisfies 0 ≤ x ≤ W−w and 0 ≤ y ≤ H−w·aspect. |
| Viewport.ClampPositionStable | frontend/src/components/map/FloorMapContent.tsx:85-94 | In-range positions are left unchanged, and clamping twice is the same as clamping once. |
| Viewport.PinchStart | frontend/src/components/map/FloorMapContent.tsx:98-102 | Pinch start snapshots x, y and w and changes nothing else. |
| Viewport.PanStart | frontend/src/components/map/FloorMapContent.tsx:134-137 | Pan start snapshots only x and y into the shared `lastX`/`lastY`. The width snapshot is kept. |
| Viewport.PinchUpdate | frontend/src/components/map/FloorMapContent.tsx:103-125 | The width becomes `lastW/scale` clamped into [W/4, W]. The map point under the focal pixel stays fixed on both axes (`lastX + rX·lastW = x + rX·w`, and the same for heights). Only x, y and w change. |
| Viewport.PanUpdate | frontend/src/components/map/FloorMapContent.tsx:138-146 | The origin moves by `translation·(w/svgWidth)` on both axes, with the same ratio, from the snapshot. The width is unchanged. |
| Viewport.GestureEnd | frontend/src/components/map/FloorMapContent.tsx:126-128 | At the end of a gesture the position is clamped once; the zoom stays in range. |
| Viewport.StepsKeepZoom | frontend/src/components/map/FloorMapContent.tsx:96-149 | Every gesture step keeps the width in [W/4, W]. |
| Viewport.PanLeavesMapUntilEnd | frontend/src/components/map/FloorMapContent.tsx:138-149 | During a pan the position is not clamped: it can leave the map, and only the end of the gesture pulls it back. |
| Viewport.PanStartReanchorsPinch | frontend/src/components/map/FloorMapContent.tsx:98-102 | A pan starting during a pinch overwrites `lastX`, so the pinch then anchors on the moved origin with the old width snapshot. |
| Viewport.SvgHeight | frontend/src/components/map/FloorMapContent.tsx:35 | Compact mode gives 250. Otherwise a non-zero `height` is used as given, or else `width·ASPECT_RATIO`. |
| FloorMapContent.FloorViewport.constructor | frontend/src/components/map/FloorMapContent.tsx:34-47 | The component starts with the initial viewport and the drawing surface `svgWidth × svgHeight`. |
| FloorMapContent.FloorViewport.PinchStart | frontend/src/components/map/FloorMapContent.tsx:98-102 | Updates the shared values in place as `Viewport.PinchStart` states. |
| FloorMapContent.FloorViewport.PinchUpdate | frontend/src/components/map/FloorMapContent.tsx:103-125 | Updates the shared values in place as `Viewport.PinchUpdate` states. |
| FloorMapContent.FloorViewport.PinchEnd | frontend/src/components/map/FloorMapContent.tsx:126-128 | Clamps the position in place. |
| FloorMapContent.FloorViewport.PanStart | frontend/src/components/map/FloorMapContent.tsx:134-137 | Snapshots x and y in place. |
| FloorMapContent.FloorViewport.PanUpdate | frontend/src/components/map/FloorMapContent.tsx:138-146 | Moves the origin in place as `Viewport.PanUpdate` states. |
| FloorMapContent.FloorViewport.PanEnd | frontend/src/components/map/FloorMapContent.tsx:147-149 | Clamps the position in place. |
| FloorMapContent.FloorViewport.Clamp | frontend/src/components/map/FloorMapContent.tsx:85-94 | Afterwards 0 ≤ x ≤ 2400−w and 0 ≤ y ≤ 1500−w·aspect. |
| FloorMapContent.ResolveMapUrl | frontend/src/components/map/FloorMapContent.tsx:57-61 | A URL starting with `http` is used unchanged. Any other is `API_BASE_URL + "/"` plus the path with its leading slashes stripped. |
| FloorMapContent.MapFetchUrl | frontend/src/components/map/FloorMapContent.tsx:51-75 | Nothing is fetched without a map URL; otherwise the resolved URL is fetched. |
| FloorMapContent.ResolveRelative | frontend/src/components/map/FloorMapContent.tsx:57-61 | A relative path resolves to a URL under `API_BASE_URL/` with no second slash after it. |
| FloorMapContent.HttpPrefixExtends | frontend/src/components/map/FloorMapContent.tsx:58 | Anything appended to an `http…` base still starts with `http`. |
| FloorMapContent.ResolveIdempotent | frontend/src/components/map/FloorMapContent.tsx:57-61 | With an `http` base, resolving a resolved URL changes nothing. |
| LegacyInteractiveMap.DemoCounts | frontend/src/components/InteractiveMap.tsx:18-24 | Of the five demo chairs, 4 are available and 2 are free with a plug, as the header shows. |
| LegacyInteractiveMap.PressChair | frontend/src/components/InteractiveMap.tsx:45-47 | A press on an occupied chair is ignored. On any other chair the selection toggles. |
| LegacyInteractiveMap.OccupiedNeverSelected | frontend/src/components/InteractiveMap.tsx:508 | Pressing an occupied chair never selects it. |
| LegacyInteractiveMap.StrokeOf | frontend/src/components/InteractiveMap.tsx:506 | The selection stroke is drawn exactly when the chair is selected. The plug stroke is drawn exactly when it is unselected and has a plug. |
| LegacyInteractiveMap.Opacity | frontend/src/components/InteractiveMap.tsx:509 | Opacity is 0.6 exactly when the chair is occupied, and 1 otherwise. |
| LegacyInteractiveMap.OnPinchGesture | frontend/src/components/InteractiveMap.tsx:381-405 | Only an ACTIVE event changes the viewport: a pinch update with the width clamped into [W/4, W] and the focal anchor kept relative to the BEGAN snapshot. |
| LegacyInteractiveMap.OnPinchStateChange | frontend/src/components/InteractiveMap.tsx:407-419 | BEGAN snapshots x, y and w. END or CANCELLED clamps the position. Any other state changes nothing. |
| LegacyInteractiveMap.OnPanGesture | frontend/src/components/InteractiveMap.tsx:421-432 | Only an ACTIVE event moves the origin from the snapshot, by translation·(w/svgWidth). |
| LegacyInteractiveMap.OnPanStateChange | frontend/src/components/InteractiveMap.tsx:434-445 | BEGAN snapshots x and y. END or CANCELLED clamps the position. Any other state changes nothing. |
| LegacyInteractiveMap.EndClampsIntoDrawing | frontend/src/components/InteractiveMap.tsx:367-379 | After a gesture ends, x lies in [0, 2292−w] and y in [0, 2025−w·aspect]. |
| LegacyInteractiveMap.GestureViewport.constructor | frontend/src/components/InteractiveMap.tsx:332-358 | The map starts at the initial viewport. Compact mode has the fixed height 250. |
| LegacyInteractiveMap.GestureViewport.PinchGesture | frontend/src/components/InteractiveMap.tsx:381-405 | Updates the shared values in place as `OnPinchGesture` states. Handlers exist only outside compact mode. |
| LegacyInteractiveMap.GestureViewport.PinchStateChange | frontend/src/components/InteractiveMap.tsx:407-419 | Updates the shared values in place as `OnPinchStateChange` states. |
| LegacyInteractiveMap.GestureViewport.PanGesture | frontend/src/components/InteractiveMap.tsx:421-432 | Updates the shared values in place as `OnPanGesture` states. |
| LegacyInteractiveMap.GestureViewport.PanStateChange | frontend/src/components/InteractiveMap.tsx:434-445 | Updates the shared values in place as `OnPanStateChange` states. |
| SeatMarker.FeatureIcons | frontend/src/components/map/SeatMarker.tsx:26-51 | One icon per true flag, at most four, in the fixed order power, wifi, ac, accessibility. |
| SeatMarker.PlaceIcons | frontend/src/components/map/SeatMarker.tsx:79-86 | Each icon is translated to `iconX − iconSize/2`, with `iconX` centred on cx, and sits at `cy − radius − iconSize − 6`. |
| SeatMarker.MarkerOf | frontend/src/components/map/SeatMarker.tsx:12-90 | The centre is `(x·2400, y·1500)`. An occupied seat gets the occupied fill whatever the selection. Opacity is 0.6 exactly when occupied. A halo of radius+10 appears only when selected. The label appears only for a non-empty seat number, at `cy + radius + 25`. The icons are `FeatureIcons` laid out. |
| SeatMarker.PlaceIconsLayout | frontend/src/components/map/SeatMarker.tsx:24-25 | Icons are 24 apart. The first and last are symmetric about cx. All sit at `cy − radius − 24`. |
| SeatMarker.IconLayout | frontend/src/components/map/SeatMarker.tsx:79-84 | The same layout holds for every marker's icon row. |
| ChairMap.Toggle | frontend/src/components/map/InteractiveMap.tsx:20-22 | Pressing the selected chair clears the selection; pressing any other chair selects it. So at most one chair is selected. |
| ChairMap.ToggleTwice | frontend/src/components/map/InteractiveMap.tsx:20-22 | Pressing the same chair twice restores the selection. |
| ChairMap.Find | frontend/src/components/map/InteractiveMap.tsx:24-27 | With nothing selected the result is undefined. Otherwise it is a chair with the selected id, or undefined when there is none. |
| ChairMap.PlugsAtMostAvailable | frontend/src/components/map/InteractiveMap.tsx:29-30 | `seatsWithPlugs` never exceeds `availableSeats`. |
| ChairMap.FillOf | frontend/src/components/InteractiveMap.tsx:477-481 | The occupied fill appears exactly when the chair is occupied. The selected fill appears exactly when it is free and selected. |
| ChairMap.ChairSelection.constructor | frontend/src/components/map/InteractiveMap.tsx:16-17 | Nothing selected, not fullscreen. |
| ChairMap.ChairSelection.PressChair | frontend/src/components/map/InteractiveMap.tsx:20-22 | The selection toggles in place; the fullscreen flag stays. |
| ChairMap.ChairSelection.OpenFullscreen | frontend/src/components/map/InteractiveMap.tsx:59 | Opens fullscreen and keeps the selection. |
| ChairMap.ChairSelection.CloseFullscreen | frontend/src/components/map/InteractiveMap.tsx:83 | Closes fullscreen and keeps the selection. |
| ChairMap.ChairSelection.Deselect | frontend/src/components/map/InteractiveMap.tsx:87 | Clears the selection and keeps the fullscreen flag. |
| Fetcher.LocParts | frontend/src/api/fetcher.ts:60 | Each `loc` element is rendered once, in order, for the `join(".")`. |
| Fetcher.DetailLines | frontend/src/api/fetcher.ts:60 | Each validation detail becomes one message line, in order. |
| Fetcher.ApiFetch | frontend/src/api/fetcher.ts:25-70 | A successful response with a JSON body gives `ok: true` with exactly that body. Any non-ok response gives `ok: false` carrying the response status. A successful response whose body is not JSON rejects. |
| Fetcher.FailureMessages | frontend/src/api/fetcher.ts:41-65 | The message of a failure, case by case. An error body that is not JSON gives "Invalid error response", because `res.text()` runs on a body `res.json()` has already consumed. A JSON body of the wrong shape gives "Unexpected error shape: …". A valid error body gives its detail message. |
| Fetcher.StringDetail | frontend/src/api/fetcher.ts:19 | `{detail: string}` is a valid error body, and its message is the detail itself. |
| Fetcher.ArrayDetail | frontend/src/api/fetcher.ts:20 | `{detail: [...]}` whose elements all pass `isErrorDetail` is valid. Its message is one line per detail, joined by newlines. |
| Fetcher.EmptyDetailArray | frontend/src/api/fetcher.ts:20 | An empty detail array is valid (`every` on `[]` is true), and its message is empty. |
| Fetcher.DetailLineShape | frontend/src/api/fetcher.ts:60 | Each line reads `msg (type) at loc1.loc2…`. |
| Fetcher.NotErrorShapes | frontend/src/api/fetcher.ts:16-23 | `null`, an object without a string or array `detail`, and a numeric `detail` are all refused. |
| Fetcher.SampleFailures | frontend/src/api/fetcher.ts:41-65 | Three failures: a string detail becomes the message with status 500. `{unexpected: "Oops"}` gives an "Unexpected error shape" message. A plain-text 500 gives "Invalid error response". |
| Fetcher.JsonFailure | frontend/src/api/fetcher.ts:50-65 | A JSON error body of the right shape gives its detail message; any other JSON gives "Unexpected error shape: " and the body. The status is kept. |
| Fetcher.ApiFetchTextOnce | frontend/src/api/fetcher.ts:43-47 | The intended error path: a body that is not JSON gives its own text, or "Invalid error response" when empty. Every other response is handled as `ApiFetch` does. |
| Fetcher.ErrorTextIsLost | frontend/src/api/fetcher.ts:43-47 | For any non-empty plain-text error body, `ApiFetch` reports "Invalid error response" while the intended version reports the text. |
| AssetUrl.ResolveAssetUrl | frontend/src/utils/assetUrl.ts:3-8 | Nothing for a missing or empty path. An `http:`/`https:` URL (any case) is kept as it is. Anything else becomes `API_BASE_URL/` plus the path with its leading slashes stripped. |
| AssetUrl.ToLowerPrefix | frontend/src/utils/assetUrl.ts:5 | Lower-casing commutes with taking a prefix, as the case-insensitive scheme test needs. |
| AssetUrl.HttpUrlExtends | frontend/src/utils/assetUrl.ts:5 | Anything appended to an http URL is still an http URL. |
| AssetUrl.ResolveIdempotent | frontend/src/utils/assetUrl.ts:3-8 | With an http base, resolving a resolved URL returns it unchanged. |
| AssetUrl.RelativeOneSlash | frontend/src/utils/assetUrl.ts:6-7 | A relative path resolves to the base, then exactly one slash. |
| AssetUrl.UpperCaseScheme | frontend/src/utils/assetUrl.ts:5 | The `i` flag makes `HTTPS:` count as absolute too. |
| JsNumber.Divide | frontend/src/screens/DashboardStudents/index.tsx:31 | JavaScript division: the exact quotient for a non-zero divisor. For a zero divisor, NaN when the dividend is 0, otherwise an infinity of the dividend's sign. |
| JsNumber.Times | frontend/src/screens/DashboardStudents/index.tsx:31 | Scaling by a positive factor keeps finiteness and multiplies the value. |
| JsNumber.Minus | frontend/src/screens/DashboardStudents/index.tsx:59 | `100 - x` is exact for a finite `x` and NaN exactly when `x` is NaN. |
| JsNumber.Round | frontend/src/components/cards/LocationCardAdmin.tsx:27 | `Math.round` rounds half up on finite values and leaves NaN and the infinities alone. |
| JsNumber.OrZero | frontend/src/components/cards/LocationCardAdmin.tsx:27 | `x \|\| 0` never yields NaN. It maps NaN and 0 to 0 and keeps every other value. |
| JsNumber.NaNComparesFalse | frontend/src/screens/DashboardStudents/index.tsx:26-28 | NaN fails every `>=` and `>` comparison, so it falls through to the last branch. |
| Json.Get | frontend/src/api/fetcher.ts:16-23 | Only an object has fields to look up. |
| Json.LastValue | frontend/src/api/fetcher.ts:16-23 | A key is found iff some field carries it, and the value found is one of that key's values. |
| LocationCardAdmin.SafeCurrent | frontend/src/components/cards/LocationCardAdmin.tsx:26 | A location under maintenance counts as empty. An active one shows its current count. |
| LocationCardAdmin.OccupancyPercentage | frontend/src/components/cards/LocationCardAdmin.tsx:27 | The percentage is never NaN. With a capacity it is the rounded share of the (safe) current count. 0 / 0 shows 0. |
| LocationCardAdmin.Bar | frontend/src/components/cards/LocationCardAdmin.tsx:29-32 | Red iff above 75. Yellow iff not above 75 but above 50. Green otherwise. |
| LocationCardAdmin.MaintenanceShowsEmpty | frontend/src/components/cards/LocationCardAdmin.tsx:25-32 | A location under maintenance shows 0% and a green bar, whatever its count and capacity. |
| LocationCardAdmin.PercentageInRange | frontend/src/components/cards/LocationCardAdmin.tsx:27 | A count within a positive capacity gives a finite percentage between 0 and 100. |
| LocationCardAdmin.ActionsFollowStatus | frontend/src/components/cards/LocationCardAdmin.tsx:115-137 | When the analytics button is enabled (an active location) the card shows the real count. When it is disabled the card shows 0% and a green bar. The edit button is always enabled. |
| DashboardStudents.FindLocation | frontend/src/screens/DashboardStudents/index.tsx:13 | `find` returns an element with the requested id, and finds nothing iff no element has it. |
| DashboardStudents.StatusOf | frontend/src/screens/DashboardStudents/index.tsx:25-29 | High iff the percentage is at least 80. Medium iff it is below 80 and at least 50. Low otherwise, including NaN. |
| DashboardStudents.OccupancyPercentage | frontend/src/screens/DashboardStudents/index.tsx:31 | With a capacity, the percentage is occupancy / capacity * 100, unrounded. |
| DashboardStudents.Pie | frontend/src/screens/DashboardStudents/index.tsx:49-64 | Two slices, "Occupied" and "Available". The occupied slice is the percentage, and finite slices sum to 100. |
| DashboardStudents.Weekly | frontend/src/screens/DashboardStudents/index.tsx:66-69 | Monday to Saturday labels, with each day's average in the same position. |
| DashboardStudents.Line | frontend/src/screens/DashboardStudents/index.tsx:71-80 | Without chart data: no labels and the data `[0]`. With data: one label and one value per point, in order. |
| DashboardStudents.Render | frontend/src/screens/DashboardStudents/index.tsx:11-104 | "Location not found" iff no location has the id. Otherwise the dashboard of that location, with its status and pie. |
| DashboardStudents.DashboardView.constructor | frontend/src/screens/DashboardStudents/index.tsx:14 | The view starts on the seat map. |
| DashboardStudents.DashboardView.SetView | frontend/src/screens/DashboardStudents/index.tsx:84 | Switching the view changes only the view. |
| DashboardStudents.DashboardView.LocationChanged | frontend/src/screens/DashboardStudents/index.tsx:15 | A different location id resets the view to the seat map. The same id leaves the view alone. |
| DashboardLecturers.Percentage | frontend/src/screens/DashboardLecturers/index.tsx:33 | `liveOccupancy ?? null` is a number exactly when the room has a numeric live occupancy. |
| DashboardLecturers.StatusOf | frontend/src/screens/DashboardLecturers/index.tsx:26-31 | Empty iff there is no percentage. Then High at 80 and above, Medium from 50 to below 80, Low below 50. |
| DashboardLecturers.NoLiveOccupancyIsEmpty | frontend/src/screens/DashboardLecturers/index.tsx:26-33 | A room without a numeric live occupancy is shown as Empty. |
| DashboardLecturers.FindRoom | frontend/src/screens/DashboardLecturers/index.tsx:12 | `find` returns a room with the requested id, and finds nothing iff no room has it. |
| DashboardLecturers.Render | frontend/src/screens/DashboardLecturers/index.tsx:10-55 | "Location not found" iff no room has the id. Otherwise that room's dashboard with its status. |
| DashboardLecturers.DashboardView.constructor | frontend/src/screens/DashboardLecturers/index.tsx:13 | The view starts on the statistics. |
| DashboardLecturers.DashboardView.SetView | frontend/src/screens/DashboardLecturers/index.tsx:37 | Switching the view changes only the view. |
| DashboardLecturers.DashboardView.LocationChanged | frontend/src/screens/DashboardLecturers/index.tsx:16 | A different location id resets the view to the statistics. |
| LectureSchedule.NumberOf | frontend/src/utils/locationDataLecturers.ts:27 | `Number` of a non-empty digit string is its decimal value. |
| LectureSchedule.ToMinutesDigits | frontend/src/utils/locationDataLecturers.ts:26-29 | `"hh:mm"` with digit fields converts to 60·hh + mm minutes. |
| LectureSchedule.IsLectureOngoing | frontend/src/utils/locationDataLecturers.ts:18-33 | A lecture is ongoing only on the schedule's own weekday. |
| LectureSchedule.ErrOnlyWhenMalformed | frontend/src/utils/locationDataLecturers.ts:20-21 | The check throws only for a malformed schedule: one with no space, or whose time range has no en dash. |
| LectureSchedule.OngoingIffInRange | frontend/src/utils/locationDataLecturers.ts:24-32 | On the schedule's weekday, the lecture is ongoing iff the current minute lies in [start, end], both ends included. |
| LectureSchedule.OtherDayNotOngoing | frontend/src/utils/locationDataLecturers.ts:23-24 | On any other weekday the answer is false, whatever the time range says. |
| LectureSchedule.LiveOccupancy | frontend/src/utils/locationDataLecturers.ts:36-38 | A live occupancy (70 to 99) is drawn exactly when the lecture is ongoing, and null otherwise. The errors are those of the schedule check. |
| LectureRoomMap.Rows | frontend/src/screens/DashboardLecturers/components/LectureRoomMap.tsx:15 | `ceil(capacity / columns)`: the fewest rows that hold every seat. |
| LectureRoomMap.EverySeatHasACell | frontend/src/screens/DashboardLecturers/components/LectureRoomMap.tsx:57-62 | Every seat index below the capacity is drawn in exactly one grid cell, and that cell maps back to it. |
| LectureRoomMap.CellsAreDistinct | frontend/src/screens/DashboardLecturers/components/LectureRoomMap.tsx:60 | Two grid cells never share a seat index. |
| LectureRoomMap.RowsApart | frontend/src/screens/DashboardLecturers/components/LectureRoomMap.tsx:60 | Seat indices of a later row start past the end of every earlier row. |
| LectureRoomMap.TakenCount | frontend/src/screens/DashboardLecturers/components/LectureRoomMap.tsx:18-21 | No live occupancy means no taken seats. Otherwise the count is `floor(occupancy / 100 * capacity)`. |
| LectureRoomMap.TakenWithinCapacity | frontend/src/screens/DashboardLecturers/components/LectureRoomMap.tsx:18-21 | The taken count stays within the capacity exactly when occupancy · capacity < 100 · (capacity + 1). A percentage in 0..100 always stays within it. |
| LectureRoomMap.Pick | frontend/src/screens/DashboardLecturers/components/LectureRoomMap.tsx:29 | `floor(random * capacity)` is a valid seat index. |
| LectureRoomMap.PickBounds | frontend/src/screens/DashboardLecturers/components/LectureRoomMap.tsx:29 | A draw in [0, 1) scales into [0, capacity). |
| LectureRoomMap.Picked | frontend/src/screens/DashboardLecturers/components/LectureRoomMap.tsx:27-30 | Every seat picked by the draws is a valid index. |
| LectureRoomMap.Range | frontend/src/screens/DashboardLecturers/components/LectureRoomMap.tsx:25 | The seat indices 0..n-1 are n distinct numbers. |
| LectureRoomMap.PickedAtMostCapacity | frontend/src/screens/DashboardLecturers/components/LectureRoomMap.tsx:27-30 | The random picks can never exceed the capacity, which bounds how many distinct seats the loop can collect. |
| LectureRoomMap.SeatStatus | frontend/src/screens/DashboardLecturers/components/LectureRoomMap.tsx:24-33 | One flag per seat. A zero taken count marks no seat. Otherwise exactly `takenCount` seats are marked, all of them drawn at random. |
| LectureRoomMap.DrawSeats | frontend/src/screens/DashboardLecturers/components/LectureRoomMap.tsx:27-30 | The loop stops with exactly `takenCount` distinct drawn seats. |
| LectureRoomMap.MarkSeats | frontend/src/screens/DashboardLecturers/components/LectureRoomMap.tsx:25-31 | The seats set to true are exactly the drawn indices. |
| LectureRoomMap.PickedGrows | frontend/src/screens/DashboardLecturers/components/LectureRoomMap.tsx:28-30 | More draws never lose a picked seat. |
| LectureRoomMap.SeatColour | frontend/src/screens/DashboardLecturers/components/LectureRoomMap.tsx:68 | Taken seats are red and free seats are green. |
| LectureRoomMap.Summary | frontend/src/screens/DashboardLecturers/components/LectureRoomMap.tsx:40-44 | The text always starts with `Capacity: <capacity> seats`. The occupied part is omitted exactly when there is no live occupancy. Otherwise the text ends `Occupied: <seats drawn as taken> / <capacity>`. |
| HomeStudents.Accessibility | frontend/src/screens/HomeStudents/index.tsx:65-69 | Each feature is listed iff its backend flag is true; a missing `has_wifi` counts as false. The order is always power, cool, wifi. |
| HomeStudents.CardOf | frontend/src/screens/HomeStudents/index.tsx:71-87 | A card copies the location's fields. Its distance is "Unknown" without a user position, and otherwise the formatted distance to the location (missing coordinates count as 0). |
| HomeStudents.MapLocations | frontend/src/screens/HomeStudents/index.tsx:62-89 | One card per backend location, in the same order. |
| HomeStudents.WithUserLocation | frontend/src/screens/HomeStudents/index.tsx:39-60 | A granted permission stores the position. A refusal stops the loading and keeps the position. A failure changes nothing. The list is never touched. |
| HomeStudents.WithFetched | frontend/src/screens/HomeStudents/index.tsx:91-97 | A successful fetch replaces the cards with the mapped locations. A failed one keeps them. Loading ends either way. |
| HomeStudents.Loaded | frontend/src/screens/HomeStudents/index.tsx:99-104 | The intended load sequence. Loading ends, there is one card per fetched location, and with a granted position each card shows the distance from that position. |
| HomeStudents.FirstLoadShowsNoDistance | frontend/src/screens/HomeStudents/index.tsx:99-104 | As written, the fetch still sees the position of the first render, so the first load shows "Unknown" on every card even though the position was granted. The intended sequence shows the distances. |
| HomeStudents.LoadedAsWritten | frontend/src/screens/HomeStudents/index.tsx:99-104 | As written: loading ends, and the fetched locations are mapped with the position of the render that started the sequence. |
| HomeStudents.HomeStudentsScreen.constructor | frontend/src/screens/HomeStudents/index.tsx:30-32 | No position, no cards, loading. |
| HomeStudents.HomeStudentsScreen.GetUserLocation | frontend/src/screens/HomeStudents/index.tsx:39-60 | The screen's new state is that of WithUserLocation. |
| HomeStudents.HomeStudentsScreen.FetchLocations | frontend/src/screens/HomeStudents/index.tsx:91-97 | The fetch maps the locations with the position the handler closed over. |
| HomeStudents.HomeStudentsScreen.Load | frontend/src/screens/HomeStudents/index.tsx:99-111 | The screen's new state is that of the intended load sequence. |
| HomeAdmin.StudentVenue | frontend/src/screens/HomeAdmin/index.tsx:77-85 | A student space is listed with its id, name and kind, its occupancy as text, and the formatted distance from the user's position to its coordinates. |
| HomeAdmin.RoomVenue | frontend/src/screens/HomeAdmin/index.tsx:87-94 | A lecture room is listed with distance "-". Its occupancy text is the live occupancy, or "0" when that is null or 0. |
| HomeAdmin.Combined | frontend/src/screens/HomeAdmin/index.tsx:76-98 | The venue list is the student spaces, then the lecture rooms, each in its own order. |
| HomeAdmin.TotalCapacityAppend | frontend/src/screens/HomeAdmin/index.tsx:107 | The capacity sum distributes over concatenation. |
| HomeAdmin.TotalCapacityBounds | frontend/src/screens/HomeAdmin/index.tsx:107 | With capacities in [0, c], the total lies between 0 and n·c. |
| HomeAdmin.OccupancySumBounds | frontend/src/screens/HomeAdmin/index.tsx:110 | With occupancies in [lo, hi], the sum lies between n·lo and n·hi. |
| HomeAdmin.AvgOccupancy | frontend/src/screens/HomeAdmin/index.tsx:108-111 | No student spaces shows 0 (NaN \|\| 0). Otherwise the average is the mean occupancy, rounded half up. |
| HomeAdmin.AvgBetween | frontend/src/screens/HomeAdmin/index.tsx:108-111 | The shown average lies between the smallest and largest occupancy bounds. |
| HomeAdmin.MeanBetween | frontend/src/screens/HomeAdmin/index.tsx:110 | A mean lies between its bounds. |
| HomeAdmin.FindStudent | frontend/src/screens/HomeAdmin/index.tsx:153 | `find` returns a student space with the id, and finds none iff no space has it. |
| HomeAdmin.FindRoom | frontend/src/screens/HomeAdmin/index.tsx:154 | `find` returns a lecture room with the id, and finds none iff no room has it. |
| HomeAdmin.SourceOf | frontend/src/screens/HomeAdmin/index.tsx:153-155 | `studentData || lecturerData`: a student space with the id wins over a lecture room. There is no source iff neither list has the id. |
| HomeAdmin.Current | frontend/src/screens/HomeAdmin/index.tsx:165 | `parseInt(occupancy) \|\| 0`: the parsed number, or 0 when the text does not parse. |
| HomeAdmin.Card | frontend/src/screens/HomeAdmin/index.tsx:152-170 | No card iff neither list has the venue's id. Otherwise the card has the venue's name and its parsed current count. The block reads "Student Study Area" exactly for student spaces. A student space's card shows its `state`, or "active" when that is empty, and its capacity. A lecture room's card shows "active" and the room's capacity. |
| HomeAdmin.CardCurrentRoundTrip | frontend/src/screens/HomeAdmin/index.tsx:165 | The count a card parses back is the one the venue list wrote. |
| HomeAdmin.RoomCardIsActive | frontend/src/screens/HomeAdmin/index.tsx:164 | A lecture room has no state, so its card says "active". |
| HomeAdmin.HomeAdminScreen.constructor | frontend/src/screens/HomeAdmin/index.tsx:40-44 | No venues, no position, loading. |
| HomeAdmin.HomeAdminScreen.GetUserLocation | frontend/src/screens/HomeAdmin/index.tsx:52-98 | Loading always ends. A refusal or failure keeps the list. A position rebuilds it as Combined. |
| FormIssues.MinLength | frontend/src/screens/Auth/SignupScreen.tsx:14-18 | `z.string().min(n, msg)` gives one issue, on its field and with its message, iff the value is shorter than n. |
| FormIssues.EmailIssue | frontend/src/screens/Auth/SignupScreen.tsx:15 | `z.string().email(msg)` gives one issue iff the value is not an e-mail address. |
| SignupScreen.PayloadOf | frontend/src/screens/Auth/SignupScreen.tsx:36 | The payload carries the form's fields. `student_id` is present iff the role is student. |
| SignupScreen.Validate | frontend/src/screens/Auth/SignupScreen.tsx:13-38 | No issues iff the name has at least 2 characters, the e-mail is valid, the phone number has at least 5 characters and the password at least 10. |
| SignupScreen.ErrorsOf | frontend/src/screens/Auth/SignupScreen.tsx:40-43 | The error map has a key for exactly those fields named by some issue with a non-empty path. |
| SignupScreen.ErrorsOfLastWins | frontend/src/screens/Auth/SignupScreen.tsx:41-43 | A field's message in the map is the message of its last issue. |
| SignupScreen.BuildErrors | frontend/src/screens/Auth/SignupScreen.tsx:40-43 | The `forEach` loop builds exactly ErrorsOf. |
| SignupScreen.ApiErrors | frontend/src/screens/Auth/SignupScreen.tsx:51-57 | A failure leaves only the "api" key. A refused reply shows its error message. A thrown error shows its message, or "Signup failed" when that is empty. |
| SignupScreen.Form.constructor | frontend/src/screens/Auth/SignupScreen.tsx:23-30 | Empty fields, role student, no errors, not loading. |
| SignupScreen.Form.HandleSignup | frontend/src/screens/Auth/SignupScreen.tsx:34-61 | The fields are never changed. Invalid input sends nothing, sets the field errors and leaves loading as it was. Valid input sends the payload, ends loading, and navigates iff the server accepts; otherwise it stores the "api" error. |
| LoginScreen.Validate | frontend/src/screens/Auth/LoginScreen.tsx:11-32 | No issues iff the e-mail is valid and the password has at least 6 characters. Issues only name those two fields. |
| LoginScreen.LastMessage | frontend/src/screens/Auth/LoginScreen.tsx:35-38 | A field gets a message iff some issue names it, and that message comes from such an issue. |
| LoginScreen.LastMessageIsLast | frontend/src/screens/Auth/LoginScreen.tsx:35-38 | Because the loop overwrites, a field ends with the message of its last issue. |
| LoginScreen.FailureMessage | frontend/src/screens/Auth/LoginScreen.tsx:47-49 | A 401 reads "Incorrect username or password". Any other failure shows its message, or "Login failed" when that is empty. |
| LoginScreen.Form.constructor | frontend/src/screens/Auth/LoginScreen.tsx:17-23 | Empty fields, no errors, not loading. |
| LoginScreen.Form.MapIssues | frontend/src/screens/Auth/LoginScreen.tsx:35-38 | Each field error becomes its last message when some issue names it, and is otherwise kept. Nothing else changes. |
| LoginScreen.Form.HandleLogin | frontend/src/screens/Auth/LoginScreen.tsx:26-53 | The fields are kept and loading ends. Invalid input sends nothing and sets only the field errors. Valid input sends the credentials, navigates iff logged in, and otherwise sets the general error. |
| Suggestion.FeatureGain | backend/app/services/suggestion_service.py:71-96 | For one feature: the seat is rejected iff the need is True and the seat lacks the feature. With no need stated, the score and rationale are untouched. Otherwise at most one reason is added, and only when points are. |
| Suggestion.Evaluate | backend/app/services/suggestion_service.py:63-106 | A seat is rejected iff it lacks a feature the request requires. A kept seat scores between the 1.0 baseline and 5.0, and keeps the baseline exactly when no reason was given. At most five reasons. |
| Suggestion.ApplyFeature | backend/app/services/suggestion_service.py:71-96 | One `if/elif` block. It continues iff FeatureGain keeps the seat, and adds that gain's points and reason. |
| Suggestion.EvaluateSeat | backend/app/services/suggestion_service.py:63-106 | `_evaluate` computes exactly Evaluate. |
| Suggestion.UnsetNeedsIgnored | backend/app/services/suggestion_service.py:71-96 | When no need is stated, the seat's power, Wi-Fi and AC change neither its score nor its reasons. |
| Suggestion.NeedPowerBonus | backend/app/services/suggestion_service.py:71-75 | Requiring power adds exactly 2.0 for a seat that has an outlet. |
| Suggestion.PartsLonger | backend/app/services/suggestion_service.py:75-104 | Every reason is longer than "Good match". |
| Suggestion.JoinStartsWithFirst | backend/app/services/suggestion_service.py:47 | A `"; ".join` is at least as long as its first part. |
| Suggestion.GoodMatchIffBaseline | backend/app/services/suggestion_service.py:47-68 | The rationale reads "Good match" exactly when the seat scored only the baseline. |
| Suggestion.ItemOf | backend/app/services/suggestion_service.py:47-59 | An item carries the seat's id and the joined rationale. |
| Suggestion.ScoredOf | backend/app/services/suggestion_service.py:37-41 | Scoring never adds seats. |
| Suggestion.ByScoreTotalPreorder | backend/app/services/suggestion_service.py:43 | Ordering by descending score is a total preorder, as a sort key needs. |
| Suggestion.Ranked | backend/app/services/suggestion_service.py:43-46 | The ranking keeps `min(limit, number of scored seats)` seats. |
| Suggestion.Suggest | backend/app/services/suggestion_service.py:27-61 | At most `limit` items, one per ranked seat, in rank order. |
| Suggestion.ScoredOfMember | backend/app/services/suggestion_service.py:37-41 | Every scored entry belongs to a queried seat and is that seat's evaluation. |
| Suggestion.ScoredOfComplete | backend/app/services/suggestion_service.py:37-41 | Every queried seat that is not rejected is scored. |
| Suggestion.SuggestionsQualify | backend/app/services/suggestion_service.py:28-41 | Every suggested seat is available, passes the floor and type filters, and has every feature the request requires. |
| Suggestion.RankedByScore | backend/app/services/suggestion_service.py:43 | The ranking is by non-increasing score. |
| Suggestion.TiesKeepQueryOrder | backend/app/services/suggestion_service.py:43 | Python's sort is stable, so seats with equal scores keep the query's order. |
| Suggestion.NoBetterSeatLeftOut | backend/app/services/suggestion_service.py:43-46 | A qualifying seat is either suggested or scores no higher than every suggested seat. |
| Suggestion.ScoreAll | backend/app/services/suggestion_service.py:37-41 | The scoring loop builds exactly ScoredOf. |
| Suggestion.ItemsOf | backend/app/services/suggestion_service.py:45-60 | The item loop builds one item per ranked entry, in order. |
| Suggestion.SuggestSeats | backend/app/services/suggestion_service.py:27-61 | `suggest` returns exactly Suggest. |
| Assistant.EntryKind | backend/app/services/ai_assistant_service.py:21-41 | Each keyword-table entry carries the modifier its position promises. |
| Assistant.ScanFixed | backend/app/services/ai_assistant_service.py:81-85 | The keyword loop never touches `limit` (3) or the floor. |
| Assistant.ScanPowerWifi | backend/app/services/ai_assistant_service.py:22-36 | After n entries, power (or Wi-Fi) is needed iff one of its words among those entries occurs in the text. |
| Assistant.ScanAc | backend/app/services/ai_assistant_service.py:37-40 | After n entries, "hot" (last in the table) overrides with `need_ac = False`. Otherwise a cool word needs AC. |
| Assistant.ScanType | backend/app/services/ai_assistant_service.py:26-33 | After n entries, the seat type is that of the latest entry in table order whose word occurs. |
| Assistant.ScanNoMatch | backend/app/services/ai_assistant_service.py:81-85 | A text with none of the keywords yields the default request. |
| Assistant.EntriesAre | backend/app/services/ai_assistant_service.py:21-41 | A run of entries is mentioned iff one of its words occurs. |
| Assistant.Preferences | backend/app/services/ai_assistant_service.py:79-85 | `_extract_preferences`. `limit` is 3 and there is no floor filter. Power and Wi-Fi are needed iff one of their words occurs in the lower-cased text. "hot" sets no-AC above any cool word. The seat type follows precedence: computer words, then "pod", then group words, then quiet words. |
| Assistant.NoKeywordDefault | backend/app/services/ai_assistant_service.py:79-85 | A message without any keyword asks for the default request. |
| Assistant.SpaceMeansAc | backend/app/services/ai_assistant_service.py:39 | Matching is by substring, so "space" contains "ac" and asks for AC (unless "hot" occurs). |
| Assistant.OccursAt | backend/app/services/ai_assistant_service.py:83 | A substring that is contained occurs at some index. |
| Assistant.ExtractPreferences | backend/app/services/ai_assistant_service.py:79-85 | The loop over the keyword table computes exactly Preferences. |
| Assistant.Serialize | backend/app/services/ai_assistant_service.py:87-112 | The detail keeps the suggested seat's id. It has no `floor_name` key exactly when the seat is no longer stored. |
| Assistant.ComposeReply | backend/app/services/ai_assistant_service.py:114-157 | Without a configured model, the reply is the fixed apology iff no seat was found, and otherwise starts "Consider seat N on ". With a model, the reply is the model's result, errors included. |
| Assistant.Suggestions | backend/app/services/ai_assistant_service.py:56-63 | The suggestions for the latest message. If there are none, the suggestions for the default request. |
| Assistant.Chat | backend/app/services/ai_assistant_service.py:53-77 | The chat fails iff the configured model fails. Otherwise one detail per suggestion, in order, and the highlighted ids are those details' ids in the same order. |
| Assistant.DefaultFindsAvailable | backend/app/services/ai_assistant_service.py:60-63 | The relaxed request suggests a seat whenever some seat is available. |
| Assistant.NoSeatsOnlyWhenNoneAvailable | backend/app/services/ai_assistant_service.py:56-66 | The chat shows no seat exactly when no seat is available. |
| Assistant.FallbackReply | backend/app/services/ai_assistant_service.py:121-129 | Without a model the chat always answers. The answer is the apology exactly when no seat is available. |
| Gemini.Resolve | backend/app/services/gemini_client.py:26-28 | `arg or setting`: a non-empty argument wins. Otherwise the setting is used. |
| Gemini.GetOr | backend/app/services/gemini_client.py:93-115 | `.get` only succeeds on an object; on anything else it raises. |
| Gemini.Iterate | backend/app/services/gemini_client.py:92-116 | Lists, strings and objects can be iterated. null, booleans and numbers raise. |
| Gemini.StripJson | backend/app/services/gemini_client.py:95-119 | `.strip()` succeeds exactly on strings. |
| Gemini.PartText | backend/app/services/gemini_client.py:94-119 | A part yields text only when it is an object whose `text` is a non-empty string, and the yield is that string stripped. A typed part must also have `type == "text"`. |
| Gemini.FirstOf | backend/app/services/gemini_client.py:92-119 | The loop finds nothing iff every element yields nothing. Otherwise it returns the outcome of some element. |
| Gemini.OutputSection | backend/app/services/gemini_client.py:90-95 | A missing or non-list `output` yields nothing. Text found there is the outcome of some output item. |
| Gemini.FirstChoice | backend/app/services/gemini_client.py:99-110 | A choice that is not an object raises. A string `message.content` is the answer, stripped, even when empty. |
| Gemini.ExtractText | backend/app/services/gemini_client.py:88-121 | A non-object payload raises. `output` is tried first, then the first choice, then `candidates`. Nothing is found iff all three sections find nothing. |
| Gemini.Search | backend/app/services/gemini_client.py:92-95 | The `for` loop with early return computes exactly FirstOf. |
| Gemini.ExtractReply | backend/app/services/gemini_client.py:88-121 | `_extract_text` computes exactly ExtractText. |
| Gemini.PartTextStripped | backend/app/services/gemini_client.py:95-119 | A part's text is already stripped. |
| Gemini.FirstOfStripped | backend/app/services/gemini_client.py:92-95 | Text found among the parts is stripped. |
| Gemini.FirstPartStripped | backend/app/services/gemini_client.py:93-95 | Text found in an item's content parts is stripped. |
| Gemini.FirstItemStripped | backend/app/services/gemini_client.py:92-119 | If every element yields stripped text, so does the loop. |
| Gemini.FirstChoiceStripped | backend/app/services/gemini_client.py:99-110 | Text from the first choice is stripped. |
| Gemini.ExtractedIsStripped | backend/app/services/gemini_client.py:88-121 | Any extracted text has no surrounding whitespace. |
| Gemini.OnlyFirstChoice | backend/app/services/gemini_client.py:98-110 | Only `choices[0]` is read: the choices after it never change the result. |
| Gemini.LastValueOther | backend/app/services/gemini_client.py:90-112 | Rewriting one key's value leaves the lookup of every other key unchanged. |
| Gemini.StringContentWins | backend/app/services/gemini_client.py:101-103 | When `output` finds nothing, a string `message.content` in the first choice is the reply, stripped. |
| Gemini.GenerateText | backend/app/services/gemini_client.py:39-86 | Unconfigured: an error before any request. A status of 400 or more: an error carrying the status and text. Otherwise the non-empty, stripped text extracted from the body, with "no text content" when extraction finds nothing. |
| VerifyEndpoint.TrimSlashes | backend/scripts/verify_gemini.py:100 | `rstrip("/")` gives a prefix of the endpoint that does not end in a slash. |
| VerifyEndpoint.Variants | backend/scripts/verify_gemini.py:101-112 | The base URL always comes first among the candidates. |
| VerifyEndpoint.Dedupe | backend/scripts/verify_gemini.py:114-117 | Deduplication keeps exactly the same URLs and never makes the list longer. |
| VerifyEndpoint.DedupeDistinct | backend/scripts/verify_gemini.py:114-117 | The deduplicated list has no repeats. |
| VerifyEndpoint.DedupeOfDistinct | backend/scripts/verify_gemini.py:114-117 | A list without repeats is left as it is. |
| VerifyEndpoint.DedupeKeepsFirst | backend/scripts/verify_gemini.py:114-117 | The first URL stays first. |
| VerifyEndpoint.ExpandEndpoints | backend/scripts/verify_gemini.py:99-118 | The trimmed base comes first, no URL repeats, and the deduplication is a no-op on the candidates. |
| VerifyEndpoint.LengthsDiffer | backend/scripts/verify_gemini.py:103-112 | The candidates have pairwise different lengths, so they are distinct. |
| VerifyEndpoint.DedupeLoop | backend/scripts/verify_gemini.py:114-117 | The `for` loop computes exactly Dedupe. |
| VerifyEndpoint.PayloadVariants | backend/scripts/verify_gemini.py:49-96 | Five bodies, each an object naming the model and carrying the prompt. |
| VerifyEndpoint.EveryBody | backend/scripts/verify_gemini.py:49-96 | Each of the five body shapes names the model and carries the prompt. |
| VerifyEndpoint.ModelNamed | backend/scripts/verify_gemini.py:53-93 | A body's `model` key is the requested model. |
| VerifyEndpoint.InList | backend/scripts/verify_gemini.py:54-59 | Wrapping a value that carries the prompt in a list still carries it. |
| VerifyEndpoint.InMember | backend/scripts/verify_gemini.py:54-95 | An object member holding the prompt, or a value carrying it, makes the object carry it. |
| VerifyEndpoint.PromptCarried | backend/scripts/verify_gemini.py:49-96 | Every body shape carries the prompt. |
| VerifyEndpoint.Attempts | backend/scripts/verify_gemini.py:148-149 | Every endpoint is paired with every body: |endpoints| × |bodies| attempts. |
| VerifyEndpoint.Run | backend/scripts/verify_gemini.py:148-182 | The exit code is 0 iff some attempt gets a status below 400. The attempts made are a prefix, ending at the first such success; every earlier attempt failed. Code 1 means every attempt was made. |
| VerifyEndpoint.ConnectivitySpec | backend/scripts/verify_gemini.py:131-182 | Without an API key: code 1 and nothing is sent. Otherwise the run over every endpoint and body pair. |
| VerifyEndpoint.FirstSuccess | backend/scripts/verify_gemini.py:148-171 | The index of the first successful attempt: every attempt before it fails. |
| VerifyEndpoint.CheckConnectivity | backend/scripts/verify_gemini.py:131-182 | `main` computes exactly ConnectivitySpec. |
| VerifyEndpoint.TryAll | backend/scripts/verify_gemini.py:148-182 | The nested loops compute exactly Run over the attempts. |
| VerifyEndpoint.AttemptsAt | backend/scripts/verify_gemini.py:148-149 | Attempt `5·i + v` is endpoint i with body v, which is the nested loops' order. |
| SeatRefresh.Count | backend/app/services/seat_refresh_worker.py:78-79 | A status count never exceeds the number of seats. |
| SeatRefresh.CountUpdate | backend/app/services/seat_refresh_worker.py:78-91 | Changing one seat moves the status counts by at most one, as its old and new status dictate. |
| SeatRefresh.CountNone | backend/app/services/seat_refresh_worker.py:78-79 | No seat with the status means a count of 0. |
| SeatRefresh.TruncBounds | backend/app/services/seat_refresh_worker.py:80-82 | `int()` truncates toward zero, for negative values too. |
| SeatRefresh.Min3 | backend/app/services/seat_refresh_worker.py:85-89 | `min` of three is one of them and no larger than any. |
| SeatRefresh.MaxChanges | backend/app/services/seat_refresh_worker.py:82 | `max(1, int(total * drift_ratio))` is at least 1. |
| SeatRefresh.FlipInOrder | backend/app/services/seat_refresh_worker.py:86-91 | Flipping seats in sample order keeps the number of seats. |
| SeatRefresh.FlipMoves | backend/app/services/seat_refresh_worker.py:86-91 | A flip only moves seats of the source status to the target status. Every other seat is unchanged. |
| SeatRefresh.FlipCounts | backend/app/services/seat_refresh_worker.py:85-91 | For a sample over all seats of the source status, exactly `min(count, |source|)` seats move from source to target. |
| SeatRefresh.PlanOf | backend/app/services/seat_refresh_worker.py:80-91 | The drift goes between two different statuses and never moves more seats than the source status has or than `max_changes`. |
| SeatRefresh.DriftPhase | backend/app/services/seat_refresh_worker.py:78-91 | The drift keeps the number of seats. |
| SeatRefresh.DriftPhaseChange | backend/app/services/seat_refresh_worker.py:80-91 | The occupied count changes by exactly the planned change. |
| SeatRefresh.DriftNeverOvershoots | backend/app/services/seat_refresh_worker.py:80-91 | The occupied count moves toward the desired count and never past it, by at most `max_changes` seats. |
| SeatRefresh.DriftPhaseMoves | backend/app/services/seat_refresh_worker.py:84-91 | The drift only turns available seats occupied or occupied seats available. |
| SeatRefresh.IndicesWith | backend/app/services/seat_refresh_worker.py:94-98 | The candidate list holds exactly the indices of seats with the status. |
| SeatRefresh.ChurnStep | backend/app/services/seat_refresh_worker.py:94-101 | One churn step keeps the number of seats. |
| SeatRefresh.Churn | backend/app/services/seat_refresh_worker.py:93-101 | The churn keeps the number of seats. |
| SeatRefresh.ChurnStepMoves | backend/app/services/seat_refresh_worker.py:95-101 | A step moves at most one seat, and only from its source to its target status. When neither status is occupied, the occupied count is unchanged. |
| SeatRefresh.ChurnMoves | backend/app/services/seat_refresh_worker.py:93-101 | The churn only swaps seats between available and maintenance, at most one each way, and leaves the occupied count alone. |
| SeatRefresh.Drift | backend/app/services/seat_refresh_worker.py:73-101 | `_apply_drift` keeps the number of seats. |
| SeatRefresh.DriftPhaseKeeps | backend/app/services/seat_refresh_worker.py:84-91 | The drift changes only statuses and never touches reserved or blocked seats. |
| SeatRefresh.ChurnKeeps | backend/app/services/seat_refresh_worker.py:93-101 | The churn changes only statuses and never touches reserved or blocked seats. |
| SeatRefresh.KeepsTransitive | backend/app/services/seat_refresh_worker.py:73-101 | Keeping the other fields, and the reserved and blocked seats, composes across the two phases. |
| SeatRefresh.DriftKeepsOthers | backend/app/services/seat_refresh_worker.py:73-101 | `_apply_drift` changes only statuses and never touches reserved or blocked seats. The churn does not alter the occupied count the drift reached. |
| SeatRefresh.FlipSample | backend/app/services/seat_refresh_worker.py:86-91 | The in-place loop over the sample leaves the array equal to FlipInOrder of its old contents. |
| SeatRefresh.ChurnStepInPlace | backend/app/services/seat_refresh_worker.py:95-101 | One churn step in place equals ChurnStep of the old contents. |
| SeatRefresh.ApplyDrift | backend/app/services/seat_refresh_worker.py:73-101 | `_apply_drift` on the seat array leaves it equal to Drift of the old contents, with the desired count and `max_changes` the source computes. |
| SeatRefresh.Named | backend/app/services/seat_refresh_worker.py:121 | `filter(None, ...)` keeps only non-empty names. |
| SeatRefresh.PathOf | backend/app/services/seat_refresh_worker.py:121 | The path joins the non-empty location and floor names with " / ". When both are empty, it is the floor id. |
| SeatRefresh.MinOf | backend/app/services/seat_refresh_worker.py:106-107 | `min` is one of the values and no larger than any. |
| SeatRefresh.MaxOf | backend/app/services/seat_refresh_worker.py:106-107 | `max` is one of the values and no smaller than any. |
| SeatRefresh.Span | backend/app/services/seat_refresh_worker.py:108-109 | `x_max - x_min or 1` is always positive. |
| SeatRefresh.Normalise | backend/app/services/seat_refresh_worker.py:117-118 | The lowest coordinate maps to 5 and, when the range is not flat, the highest maps to 95. |
| SeatRefresh.NormaliseInRange | backend/app/services/seat_refresh_worker.py:117-118 | A coordinate within the bounds normalises into [5, 95]. |
| SeatRefresh.NormaliseFlat | backend/app/services/seat_refresh_worker.py:108-118 | When all seats share a coordinate, it normalises to 5. |
| SeatRefresh.Xs | backend/app/services/seat_refresh_worker.py:104 | One x per seat, in order. |
| SeatRefresh.Ys | backend/app/services/seat_refresh_worker.py:105 | One y per seat, in order. |
| SeatRefresh.BoundsOf | backend/app/services/seat_refresh_worker.py:104-107 | The bounds enclose every seat, and each bound is attained by some seat. |
| SeatRefresh.Lines | backend/app/services/seat_refresh_worker.py:138-140 | One encoded line per seat. |
| SeatRefresh.Entries | backend/app/services/seat_refresh_worker.py:122-137 | One payload entry per seat. |
| SeatRefresh.EntriesStep | backend/app/services/seat_refresh_worker.py:115-137 | Each iteration appends the current seat's entry. |
| SeatRefresh.LinesStep | backend/app/services/seat_refresh_worker.py:115-140 | Each iteration appends the current seat's line. |
| SeatRefresh.GroupsStep | backend/app/services/seat_refresh_worker.py:142-162 | Each iteration adds the current seat to its floor's group, creating the group the first time. |
| SeatRefresh.FloorGroups | backend/app/services/seat_refresh_worker.py:142-151 | The loop makes at most one group per seat. |
| SeatRefresh.Collect | backend/app/services/seat_refresh_worker.py:111-162 | The loop builds exactly the payload, the lines and the floor groups. |
| SeatRefresh.BuildSnapshot | backend/app/services/seat_refresh_worker.py:103-173 | `_build_snapshot` computes exactly SnapshotOf. |
| SeatRefresh.SnapshotOf | backend/app/services/seat_refresh_worker.py:103-173 | A snapshot of a non-empty table has one payload entry per seat and at most one floor group per seat. |
| SeatRefresh.SnapshotEntries | backend/app/services/seat_refresh_worker.py:115-137 | The payload has one entry per seat, in order, with its id, number and floor, and coordinates in [5, 95]. |
| SeatRefresh.SnapshotFlatX | backend/app/services/seat_refresh_worker.py:108-117 | Seats that share one x are all drawn at x = 5. |
| SeatRefresh.EncodedLines | backend/app/services/seat_refresh_worker.py:138-172 | Splitting the encoded map on newlines gives back one line per seat, each starting with its number and path, when no number or path contains a newline. |
| SeatRefresh.LineShape | backend/app/services/seat_refresh_worker.py:139 | A line has no newline and starts with `number|path=path`. |
| SeatRefresh.FlagsShape | backend/app/services/seat_refresh_worker.py:139 | The flag part of a line has no newline. |
| SeatRefresh.BySeatNumberTotal | backend/app/services/seat_refresh_worker.py:165 | Ordering by seat number is a total preorder. |
| SeatRefresh.ByPathTotal | backend/app/services/seat_refresh_worker.py:167-170 | Ordering by path is a total preorder. |
| SeatRefresh.HeaderByFloor | backend/app/services/seat_refresh_worker.py:142-151 | Seats on the same floor produce the same group header, so `setdefault` keeping the first is harmless. |
| SeatRefresh.FloorsOrdered | backend/app/services/seat_refresh_worker.py:167-170 | The floor groups are sorted by path, one group per floor id. |
| SeatRefresh.FloorsCover | backend/app/services/seat_refresh_worker.py:142-151 | Every seat's floor has a group. |
| SeatRefresh.FloorContent | backend/app/services/seat_refresh_worker.py:142-165 | A floor group holds exactly the seats of that floor (as a multiset), sorted by seat number, under that floor's header. |
| SeatRefresh.Worker.constructor | backend/app/services/seat_refresh_worker.py:19-33 | The settings are stored, and the cache starts empty with no timestamp. |
| SeatRefresh.Worker.Refresh | backend/app/services/seat_refresh_worker.py:54-71 | With no seats, nothing changes. Otherwise the seats drift as ApplyDrift says, the cache holds the snapshot of the drifted seats, and the timestamp is the current time. The settings are kept. |
| SeatRefresh.Worker.Rebuild | backend/app/services/seat_refresh_worker.py:64-69 | The cache holds the snapshot of the given non-empty table, stamped with the given time. The settings are kept. |
| SeatRefresh.Worker.Publish | backend/app/services/seat_refresh_worker.py:65-69 | The cache holds exactly the new snapshot and its timestamp. The settings are kept. |
| AiDemo.DemoPlaceOf | backend/app/api/ai_demo.py:47-50 | Without a floor, the floor name is the floor id and there is no location and no map. With one, the floor's own name and map URL. |
| AiDemo.DemoPath | backend/app/api/ai_demo.py:49 | The non-empty names joined by " / ". When there are none, the floor name itself: None or "", both falsy. The path is None exactly when the floor name is None and the location name is empty. |
| AiDemo.DemoEntries | backend/app/api/ai_demo.py:45-67 | One seat entry per seat. |
| AiDemo.DemoSeats | backend/app/api/ai_demo.py:31-97 | A worker snapshot with floors is returned as it is. Otherwise the reply is the fallback built from the database. |
| AiDemo.DemoEntriesStep | backend/app/api/ai_demo.py:45-67 | Each iteration appends the current seat's entry. |
| AiDemo.DemoGroupsStep | backend/app/api/ai_demo.py:68-91 | Each iteration adds the seat to its floor's group, creating the group the first time. |
| AiDemo.CollectDemo | backend/app/api/ai_demo.py:42-91 | The loop builds exactly the seat list and the floor groups. |
| AiDemo.FindPathless | backend/app/api/ai_demo.py:96 | Detects whether some group's sort key is None. |
| AiDemo.ServeDemoSeats | backend/app/api/ai_demo.py:31-97 | `ai_demo_seats` computes exactly DemoSeats. |
| AiDemo.FallbackEntries | backend/app/api/ai_demo.py:42-67 | A fallback reply has no timestamp and one entry per seat, in order, carrying the seat's own fields. |
| AiDemo.FallbackFails | backend/app/api/ai_demo.py:96 | The fallback fails (a 500) exactly when there are at least two floor groups and one of them has a None path, which `sorted` cannot compare. |
| AiDemo.DemoBySeatNumberTotal | backend/app/api/ai_demo.py:94 | Ordering by seat number is a total preorder. |
| AiDemo.DemoByPathTotal | backend/app/api/ai_demo.py:96 | Ordering by path is a total preorder. |
| AiDemo.FallbackOrdered | backend/app/api/ai_demo.py:96 | The fallback floors are sorted by path, one group per floor id. |
| AiDemo.FallbackCovers | backend/app/api/ai_demo.py:68-78 | Every seat's floor has a group. |
| AiDemo.DemoHeaderByFloor | backend/app/api/ai_demo.py:68-78 | Seats of one floor produce the same header. |
| AiDemo.FallbackFloor | backend/app/api/ai_demo.py:68-96 | A fallback floor group holds exactly that floor's seats (as a multiset), sorted by seat number, under the floor's header. |
| Grouping.StrLeTotal | backend/app/services/seat_refresh_worker.py:165-169 | Python string comparison is total. |
| Grouping.StrLeTransitive | backend/app/services/seat_refresh_worker.py:165-169 | Python string comparison is transitive. |
| Grouping.StrLeTotalPreorder | backend/app/services/seat_refresh_worker.py:165-169 | String comparison is a total preorder, as a sort key needs. |
| Grouping.KeyIndex | backend/app/services/seat_refresh_worker.py:142-151 | A dictionary lookup finds a group with the key iff one exists. |
| Grouping.GroupBy | backend/app/services/seat_refresh_worker.py:142-162 | Grouping never makes more groups than items. |
| Grouping.ItemsWithoutKey | backend/app/services/seat_refresh_worker.py:142-162 | A key no item has collects nothing. |
| Grouping.AddItemFacts | backend/app/services/seat_refresh_worker.py:142-162 | `setdefault(...).append` keeps the keys distinct, ensures a group for the key, and leaves the existing groups' keys and headers as they were. |
| Grouping.GroupByDistinct | backend/app/services/seat_refresh_worker.py:142-151 | The groups have pairwise distinct keys. |
| Grouping.GroupByCovers | backend/app/services/seat_refresh_worker.py:142-151 | Every item's key has a group. |
| Grouping.GroupByItems | backend/app/services/seat_refresh_worker.py:152-162 | Each group holds exactly the items with its key, in input order. |
| Grouping.GroupByHeaders | backend/app/services/seat_refresh_worker.py:142-151 | Each group's header is the header of some item with its key. |
| Grouping.TotalItemsAppend | backend/app/services/seat_refresh_worker.py:142-162 | Adding a group adds its items to the total. |
| Grouping.TotalItemsUpdate | backend/app/services/seat_refresh_worker.py:152-162 | Replacing a group changes the total by the difference in items. |
| Grouping.GroupByTotal | backend/app/services/seat_refresh_worker.py:142-162 | Every item lands in exactly one group: the totals match. |
| Grouping.SortByKeepsKeys | backend/app/services/seat_refresh_worker.py:167-170 | Sorting the groups keeps their keys distinct. |
| Grouping.SortItems | backend/app/services/seat_refresh_worker.py:164-165 | Sorting each group's items keeps its key and header, and its items up to order. |
| Grouping.SortEachGroup | backend/app/services/seat_refresh_worker.py:164-165 | The loop over the groups computes exactly SortItems. |
| Grouping.SortItemsSorted | backend/app/services/seat_refresh_worker.py:164-165 | After the loop, every group's items are sorted. |
| SeatingData.DurationMinutes | backend/app/services/seating_data.py:26-28 | The duration in minutes is the time from arrival to leaving (times are whole minutes). |
| SeatingData.Hour | backend/app/services/seating_data.py:93 | `arrival_time.hour` lies in 0..23 and is the hour of the day containing the time. |
| SeatingData.TemperatureOf | backend/app/services/seating_data.py:50 | A missing or empty Temperature is 0.0. Otherwise the row fails iff `float` rejects the text, and the value is what `float` reads. |
| SeatingData.PowerPlugsCaseInsensitive | backend/app/services/seating_data.py:51 | Power Plugs counts as true exactly when the column is present and, stripped, reads TRUE in any case. |
| SeatingData.DateOf | backend/app/services/seating_data.py:48-49 | A date column parses iff it is present and `strptime` accepts its stripped text. |
| SeatingData.ParseRow | backend/app/services/seating_data.py:47-60 | The columns are read in the source's order, and the first one that fails gives the row's error: arrival, then leaving, then temperature, then a missing Location. |
| SeatingData.ParseRowFields | backend/app/services/seating_data.py:47-60 | A row parses iff both dates, the temperature and the Location column do. The record then carries those values, with the location stripped. |
| SeatingData.Parsed | backend/app/services/seating_data.py:47-60 | The records of a fully parsing prefix, one per row. |
| SeatingData.LoadRows | backend/app/services/seating_data.py:45-60 | A load keeps at most all the rows. When it stops with an error, the row after the kept ones is one that does not parse. |
| SeatingData.LoadRowsFacts | backend/app/services/seating_data.py:45-60 | Loading keeps a prefix of rows, each parsed in order. It ends without an error iff every row parses. On an error it stops at the first failing row, with that row's error. |
| SeatingData.LoadRowsStopsAt | backend/app/services/seating_data.py:47-60 | The first row that fails ends the load with the rows before it kept. |
| SeatingData.LoadRowsAll | backend/app/services/seating_data.py:47-60 | When every row parses, all of them are loaded and there is no error. |
| SeatingData.ParsedStep | backend/app/services/seating_data.py:52 | Each loop iteration appends the row's record. |
| SeatingData.LoadOutcome | backend/app/services/seating_data.py:39-60 | With records already held, nothing is read. Without records and without a file, FileNotFoundError. |
| SeatingData.PartialLoadSticks | backend/app/services/seating_data.py:40-60 | A load that fails after some rows keeps those rows. The next call then returns early, so the partial data is served from then on with no error. |
| SeatingData.SliceTo | backend/app/services/seating_data.py:69 | Python slicing `[:limit]` gives a prefix. It holds `limit` items when `limit` is non-negative, and drops `-limit` from the end when it is negative. |
| SeatingData.RecentFromLocation | backend/app/services/seating_data.py:67-69 | Recent records are records of that location. |
| SeatingData.RecentLatest | backend/app/services/seating_data.py:67-69 | Recent records run from the latest arrival down, and number `limit` (or all of them). They are the newest-first order of that location's records, cut at `limit`. |
| SeatingData.TallyIndex | backend/app/services/seating_data.py:93-100 | A counter lookup finds the hour's tally iff one exists. |
| SeatingData.OccurrencesAbsent | backend/app/services/seating_data.py:93 | An hour that never occurs counts 0. |
| SeatingData.OccurrencesLast | backend/app/services/seating_data.py:93 | Counting one more arrival adds 1 to its hour only. |
| SeatingData.BumpDistinct | backend/app/services/seating_data.py:93 | `Counter[h] += 1` keeps one tally per hour. |
| SeatingData.BumpCovers | backend/app/services/seating_data.py:93 | After counting, every hour seen so far has a tally. |
| SeatingData.BumpCounts | backend/app/services/seating_data.py:93 | After counting, every tally equals the number of occurrences of its hour. |
| SeatingData.TalliesCount | backend/app/services/seating_data.py:86-93 | The counter has one tally per distinct hour, and each tally is exactly that hour's number of arrivals. |
| SeatingData.HoursOf | backend/app/services/seating_data.py:100 | The hours of the `most_common` pairs, in order. |
| SeatingData.PeakHours | backend/app/services/seating_data.py:100 | `most_common(3)` yields at most three hours. |
| SeatingData.SortedTallies | backend/app/services/seating_data.py:100 | Sorting the counter by count keeps one tally per hour, each with its true count. |
| SeatingData.PeakHoursDistinct | backend/app/services/seating_data.py:100 | At most three peak hours, all distinct, each an hour that occurs. |
| SeatingData.PeakHoursMostFrequent | backend/app/services/seating_data.py:100 | No hour left out of the peak hours occurs more often than any peak hour. |
| SeatingData.PeakHourBeats | backend/app/services/seating_data.py:100 | A single left-out hour occurs no more often than the k-th peak hour. |
| SeatingData.CountPower | backend/app/services/seating_data.py:94-105 | The number of records with power plugs is at most the number of records. |
| SeatingData.ArrivalHours | backend/app/services/seating_data.py:93 | The arrival hour of each record, in order. |
| SeatingData.FirstArrival | backend/app/services/seating_data.py:82 | `min` of the arrival times: one of them, and no later than any. |
| SeatingData.LastLeaving | backend/app/services/seating_data.py:83 | `max` of the leaving times: one of them, and no earlier than any. |
| SeatingData.AllStats | backend/app/services/seating_data.py:97-112 | One statistics entry per location group. |
| SeatingData.SummaryOf | backend/app/services/seating_data.py:71-125 | No records gives the empty summary. Otherwise the overall total is the number of records. |
| SeatingData.SumEntriesAllStats | backend/app/services/seating_data.py:91-98 | The per-location entry counts add up to the number of grouped records. |
| SeatingData.EntriesSumToTotal | backend/app/services/seating_data.py:80-116 | The per-location entries add up to `total_records`. |
| SeatingData.LocationStatsBounds | backend/app/services/seating_data.py:100-106 | Every location has at most three peak hours and a power ratio between 0 and 1. |
| SeatingData.StatsBounds | backend/app/services/seating_data.py:97-112 | One location's statistics: at most three peak hours and a power ratio in [0, 1]. |
| SeatingData.LocationsFromRecords | backend/app/services/seating_data.py:90-91 | Every location in the summary comes from some record. |
| SeatingData.LocationsDistinct | backend/app/services/seating_data.py:91 | Each location appears once in the summary. |
| SeatingData.LocationsCover | backend/app/services/seating_data.py:90-91 | Every record's location appears in the summary. |
| SeatingData.SeatingDataService.constructor | backend/app/services/seating_data.py:34-37 | No records and no cached summary. |
| SeatingData.SeatingDataService.EnsureLoaded | backend/app/services/seating_data.py:39-60 | The held records and the error are those of LoadOutcome from the old records. The cached summary is untouched. |
| SeatingData.SeatingDataService.GetRecentRecords | backend/app/services/seating_data.py:62-69 | Loads as EnsureLoaded does. A load error is raised; otherwise the recent records of the location. |
| SeatingData.SeatingDataService.GetSummary | backend/app/services/seating_data.py:71-125 | A cached summary is returned without loading. Otherwise the records are loaded: a load error is raised, and otherwise the summary of the records is returned and cached. |
| SeatingData.ByLocationStep | backend/app/services/seating_data.py:90-95 | Each iteration adds the record to its location's group. |
| SeatingData.GroupByLocation | backend/app/services/seating_data.py:90-95 | The loop groups the records by location exactly as ByLocation does. |
| SeatingData.StatsOfGroups | backend/app/services/seating_data.py:97-112 | The loop computes exactly AllStats. |
| SeatingData.AllStatsAt | backend/app/services/seating_data.py:97-112 | Entry g holds the statistics of group g. |
| SeatingData.Summarise | backend/app/services/seating_data.py:80-125 | The summary built for non-empty records is exactly SummaryOf. |
| PredictionService.Lookup | backend/app/services/prediction_service.py:59-70 | A dictionary lookup finds a value iff some entry has the key. |
| PredictionService.LookupAddIf | backend/app/services/prediction_service.py:63-70 | A conditional insertion sets its own key when the condition holds and leaves every other key's value as it was. |
| PredictionService.UserContext | backend/app/services/prediction_service.py:58-62 | The context always starts with the location and the ISO arrival time. |
| PredictionService.AddIfOrdered | backend/app/services/prediction_service.py:63-70 | Each optional key is inserted after all earlier ones, so the insertion order stays that of the source. |
| PredictionService.UserContextOrdered | backend/app/services/prediction_service.py:58-71 | The keys appear in the source's order (location, arrival_time, leaving_time, temperature, needs_power, extra_notes), each at most once. |
| PredictionService.UserContextLookups | backend/app/services/prediction_service.py:63-70 | Each optional key holds its value exactly when the request gives one. |
| PredictionService.LeavingTimeIncluded | backend/app/services/prediction_service.py:63-64 | `leaving_time` is present iff the request has one, as its ISO text. |
| PredictionService.TemperatureIncluded | backend/app/services/prediction_service.py:65-66 | `temperature` is present iff it is given, even when it is 0.0 (the test is `is not None`). |
| PredictionService.NeedsPowerIncluded | backend/app/services/prediction_service.py:67-68 | `needs_power` is present iff it is given, even when it is False. |
| PredictionService.ExtraNotesIncluded | backend/app/services/prediction_service.py:69-70 | `extra_notes` is present iff it is given and non-empty. An empty note is dropped (a truthiness test). |
| PredictionService.BuildUserContext | backend/app/services/prediction_service.py:57-71 | `_build_user_context` builds exactly UserContext. |
| PredictionService.EntryOf | backend/app/services/seating_data.py:134-141 | A recent entry carries the record's ISO times, its temperature and power flag, and its duration rounded to two decimals. |
| PredictionService.Entries | backend/app/services/seating_data.py:134-143 | One entry per recent record, in order. |
| PredictionService.BuildPredictionContext | backend/app/services/seating_data.py:128-144 | Loads as SeatingDataService does. A load error is raised. Otherwise the context holds the (cached or fresh) summary, the location, and the entries of the five most recent records at that location. |
| PredictionService.GeneratePrediction | backend/app/services/prediction_service.py:34-55 | Loads the data as BuildPredictionContext does. A load error fails before the model is asked. Otherwise the client gets the system prompt, the context and the user scenario. A client error is passed on; a reply gives `{model, location, prediction}`. |
| LecturerLocationApi.OverlapsIffSharedInstant | backend/app/api/lecturer_location.py:40 | The overlap test holds exactly when the half-open intervals share an instant. Back-to-back bookings do not clash. |
| LecturerLocationApi.FirstConflict | backend/app/api/lecturer_location.py:31-45 | The first clashing booking is a room of the same lecturer, not the excluded one, whose booked times overlap. None is found iff no such room exists. |
| LecturerLocationApi.CheckConflict | backend/app/api/lecturer_location.py:27-45 | The check raises (a 400) exactly when some booking clashes. |
| LecturerLocationApi.ClashSymmetric | backend/app/api/lecturer_location.py:40 | Whether two bookings clash does not depend on their order. |
| LecturerLocationApi.RoomById | backend/app/api/lecturer_location.py:114 | `.first()` finds a room with the id iff one exists. |
| LecturerLocationApi.BookingKeepsNoDoubleBooking | backend/app/api/lecturer_location.py:118-124 | Booking a room for a lecturer over a period that overlaps none of their other bookings keeps every lecturer free of double bookings. |
| LecturerLocationApi.MyRooms | backend/app/api/lecturer_location.py:49-67 | 403 for anyone but a lecturer. 404 when no room is booked under their email. Otherwise exactly those rooms, in table order. |
| LecturerLocationApi.AllRooms | backend/app/api/lecturer_location.py:70-80 | Only an admin gets the rooms, and gets all of them. Anyone else gets 403. |
| LecturerLocationApi.CreateRoom | backend/app/api/lecturer_location.py:83-97 | Only an admin creates. The new room is the payload under the fresh id, appended to the table. |
| LecturerLocationApi.Assign | backend/app/api/lecturer_location.py:100-128 | 403, then 404, then the clash check. It succeeds iff the caller is an admin, the room exists and nothing clashes; then the room gets the email and both times. A failure changes nothing. |
| LecturerLocationApi.AssignKeepsNoDoubleBooking | backend/app/api/lecturer_location.py:100-128 | Assignment keeps the ids unique and never double-books a lecturer. |
| LecturerLocationApi.AssignIdempotent | backend/app/api/lecturer_location.py:100-128 | Repeating a successful assignment returns the same room and leaves the table as it is. |
| LecturerLocationApi.Apply | backend/app/api/lecturer_location.py:146-157 | Only the fields the request supplies change. The id, code and live occupancy stay. |
| LecturerLocationApi.UpdateCheck | backend/app/api/lecturer_location.py:148-154 | The clash check runs only when the request touches the email or the times. It uses the request's values merged over the stored ones, and only when the merged email and both times are set. |
| LecturerLocationApi.Update | backend/app/api/lecturer_location.py:131-161 | 403, then 404, then the clash check. After a passing check the supplied fields are applied to that room and nothing else changes. |
| LecturerLocationApi.UpdateKeepsNoDoubleBooking | backend/app/api/lecturer_location.py:131-161 | Updates keep the ids unique and never double-book a lecturer. |
| LecturerLocationApi.KeepBookingFields | backend/app/api/lecturer_location.py:156-157 | Fields other than the booking do not affect double booking. |
| LecturerLocationApi.Delete | backend/app/api/lecturer_location.py:164-180 | 403, then 404; otherwise exactly that row is removed. |
| LecturerLocationApi.DeleteKeepsNoDoubleBooking | backend/app/api/lecturer_location.py:164-180 | Removing a room keeps the ids unique and the bookings clash-free. |
| LecturerLocationApi.RoomDesk.constructor | backend/app/api/lecturer_location.py:31-36 | The desk holds the given rooms. |
| LecturerLocationApi.RoomDesk.CheckScheduleConflict | backend/app/api/lecturer_location.py:27-45 | The loop over the rows finds exactly what CheckConflict says. |
| LecturerLocationApi.RoomDesk.AssignRoom | backend/app/api/lecturer_location.py:100-128 | The table and reply are those of Assign. |
| LecturerLocationApi.RoomDesk.UpdateRoom | backend/app/api/lecturer_location.py:131-161 | The table and reply are those of Update. |
| LecturerLocationApi.RoomDesk.DeleteRoom | backend/app/api/lecturer_location.py:164-180 | The table and reply are those of Delete. |
| LecturerApi.HasConflict | backend/app/api/lecturer.py:26-35 | True exactly when some room booked under the email, other than the excluded one, has both times set and overlaps the period. |
| LecturerApi.SameConflictTest | backend/app/api/lecturer.py:33 | The overlap test `start < end' and end > start'` agrees with lecturer_location.py's `not (end <= start' or start >= end')`. Both helpers flag the same rooms. |
| LecturerApi.HasScheduleConflict | backend/app/api/lecturer.py:26-35 | The loop over the rows returns exactly HasConflict. |
| LecturerApi.RequireLecturer | backend/app/api/lecturer.py:37-44 | It passes exactly lecturers, unchanged. Everyone else gets 403 "Lecturer access required". |
| LecturerApi.MyRooms | backend/app/api/lecturer.py:47-55 | Lecturers get exactly the rooms booked under their email, possibly none. Others are refused by RequireLecturer. |
| LecturerApi.Assign | backend/app/api/lecturer.py:70-92 | As written: 403 for anyone but an admin. For an admin the lookup reads `assignment.id`, which the payload lacks, so every request is a 500. Nothing is stored. |
| LecturerApi.AssignById | backend/app/api/lecturer.py:77-92 | The intended assignment: 403, then 404, then the clash check leaving the room itself out. It succeeds iff the caller is an admin, the room exists and nothing clashes. The room's `email` column and both times then take the request's values, and nothing else changes. |
| LecturerApi.AssignAlwaysFails | backend/app/api/lecturer.py:80 | Wherever the intended assignment would book the room, the handler as written answers 500 and books nothing. |
| LecturerApi.AssignByIdKeepsNoDoubleBooking | backend/app/api/lecturer.py:84-89 | The intended assignment keeps the ids unique and never double-books a lecturer. |
| LecturerApi.AssignByIdIdempotent | backend/app/api/lecturer.py:84-89 | Repeating a successful intended assignment returns the same room and leaves the table as it is. |
| LecturerApi.Update | backend/app/api/lecturer.py:95-116 | As written: 403, then 404. Otherwise the supplied fields are applied to that room with no clash check. `lecturer_email` is not a column, so the stored `email` stays. |
| LecturerApi.UpdateChecked | backend/app/api/lecturer.py:106-116 | The intended update: 403, then 404, then the clash check for updates that touch the booking. After a passing check every supplied field, the lecturer's email included, is applied to that room. |
| LecturerApi.UpdateCheckedKeepsNoDoubleBooking | backend/app/api/lecturer.py:106-116 | The intended update keeps the ids unique and never double-books a lecturer. |
| LecturerApi.UpdateKeepsLecturer | backend/app/api/lecturer.py:111-112 | An update naming a new lecturer leaves the old `email` stored as written, and stores the new one as intended. |
| LecturerApi.UpdateCanDoubleBook | backend/app/api/lecturer.py:110-112 | A concrete table without double bookings, and an admin update that moves a second room of the same lecturer onto an overlapping period. As written it succeeds and double-books the lecturer. The intended update refuses it with 400. |
| LecturerApi.DeleteAssignment | backend/app/api/lecturer.py:119-138 | As written: 403, then 404. Otherwise the row stays and only its times are cleared: `lecturer_email` is not a column, so the `email` stays. |
| LecturerApi.DeleteAssignmentKeepsNoDoubleBooking | backend/app/api/lecturer.py:119-138 | Clearing an assignment never introduces a double booking. |
| LecturerApi.ClearAssignment | backend/app/api/lecturer.py:129-137 | The intended clearing: 403, then 404. Otherwise the row stays with its `email` and both times emptied. |
| LecturerApi.DeleteAssignmentKeepsLecturer | backend/app/api/lecturer.py:133 | After the clearing as written, the room's lecturer still gets the room from "my rooms". After the intended clearing, the lecturer does not. |
| LecturerApi.ClearAssignmentKeepsNoDoubleBooking | backend/app/api/lecturer.py:129-137 | The intended clearing never introduces a double booking. |
| LecturerApi.LecturerRooms.constructor | backend/app/api/lecturer.py:27-52 | The service holds the given rooms. |
| LecturerApi.LecturerRooms.AssignRoom | backend/app/api/lecturer.py:70-92 | The table and reply are those of Assign as written: 403 or 500, and nothing stored. |
| LecturerApi.LecturerRooms.UpdateRoom | backend/app/api/lecturer.py:95-116 | The table and reply are those of Update as written. The stored `email` stays. |
| LecturerApi.LecturerRooms.DeleteRoomAssignment | backend/app/api/lecturer.py:119-138 | The table and reply are those of DeleteAssignment as written. Only the times are cleared. |
| Reservations.Owned | backend/app/api/reservations.py:83-118 | Finds a reservation with that id belonging to the caller iff one exists. |
| Reservations.Create | backend/app/api/reservations.py:21-60 | 404 when the seat is missing, 400 when it is not available, and success exactly otherwise. On success a confirmed reservation with no check-in is appended and the seat becomes reserved. A failure changes nothing. |
| Reservations.MyReservations | backend/app/api/reservations.py:63-73 | The result is a permutation of the caller's reservations. |
| Reservations.MyReservationsExact | backend/app/api/reservations.py:69-71 | The listing holds exactly the caller's reservations, each as often as stored, newest start first. |
| Reservations.Checkin | backend/app/api/reservations.py:76-105 | 404 unless the caller owns the reservation. Otherwise it becomes active with the check-in time "now", and its seat, if it still exists, becomes occupied. |
| Reservations.Cancel | backend/app/api/reservations.py:108-135 | 404 unless the caller owns the reservation. Otherwise, whatever its status, it becomes cancelled, its seat (if present) becomes available again, and the fixed message is returned. |
| Reservations.SetIfPresent | backend/app/api/reservations.py:129-131 | When the seat id finds no seat, nothing changes. Otherwise only that seat takes the new status. |
| Reservations.CreateThenCancel | backend/app/api/reservations.py:108-135 | Cancelling a reservation just made restores every seat and keeps the reservation as cancelled. |
| Reservations.CreateThenCheckin | backend/app/api/reservations.py:76-105 | Checking in to a reservation just made succeeds, makes it active at that time and leaves its seat occupied. |
| Reservations.CreateListed | backend/app/api/reservations.py:21-73 | A reservation just made appears in its owner's listing. |
| Reservations.ReservationDesk.constructor | backend/app/api/reservations.py:29-69 | The desk holds the given seats and reservations. |
| Reservations.ReservationDesk.CreateReservation | backend/app/api/reservations.py:21-60 | The tables and reply are those of Create. |
| Reservations.ReservationDesk.CheckinReservation | backend/app/api/reservations.py:76-105 | The tables and reply are those of Checkin. |
| Reservations.ReservationDesk.CancelReservation | backend/app/api/reservations.py:108-135 | The tables and reply are those of Cancel. |
| Occupancy.FloorCount | backend/app/api/occupancy.py:49-52 | The count of occupied seats on a floor never exceeds the number of seats. |
| Occupancy.LocationCountIsFloorSum | backend/app/api/occupancy.py:58-61 | The join count for a location (seats whose floor belongs to it, occupied) equals the sum over its seats of the floor rows they match. |
| Occupancy.LocationCountSameKeys | backend/app/api/occupancy.py:58-61 | The location count depends only on the floors' ids and locations, not on their stored counters. |
| Occupancy.RecountFloors | backend/app/api/occupancy.py:92-98 | Every floor row gets exactly the count of occupied seats on it. Nothing else in the row changes. |
| Occupancy.RecountLocations | backend/app/api/occupancy.py:100-106 | Every location gets exactly the join count of its occupied seats. Nothing else in the row changes. |
| Occupancy.Recount | backend/app/api/occupancy.py:91-106 | After the recount, stored counters agree with the seats. Seats and history stay as they were, and only the counters change. |
| Occupancy.RecountAddsUp | backend/app/api/occupancy.py:91-106 | After a recount, each location's occupancy is the sum of its floors' stored counts. |
| Occupancy.StatusFor | backend/app/api/occupancy.py:41-44 | An occupied signal gives status occupied, and a vacant one gives available. |
| Occupancy.UpdateSeat | backend/app/api/occupancy.py:23-71 | 404 exactly when the seat is missing. Otherwise the seat takes the signalled status and the reply echoes the event, with the event's timestamp or "now". History is untouched and the floor and location rows keep their keys. |
| Occupancy.UpdateSeatRecounts | backend/app/api/occupancy.py:46-62 | After one event, the seat's floor (if present) holds its exact occupied count. That floor's location (if present) holds its exact join count. |
| Occupancy.ApplyEventsKeepsLookup | backend/app/api/occupancy.py:85-89 | Applying events never changes which row a seat id finds. |
| Occupancy.ApplyEventsFrame | backend/app/api/occupancy.py:85-89 | Events keep every seat's id and floor. A seat no event names is untouched. |
| Occupancy.ApplyEvent | backend/app/api/occupancy.py:85-89 | An event for an unknown seat changes nothing. Otherwise only the seat the id finds changes, and only its status: occupied or available as reported. |
| Occupancy.LastEventWins | backend/app/api/occupancy.py:85-89 | In a batch, the last event for a seat decides its status. |
| Occupancy.Batch | backend/app/api/occupancy.py:74-114 | The seats are those after every event in order. The counters are recounted and consistent. The reply counts the events naming existing seats and all events. |
| Occupancy.Toggle | backend/app/api/occupancy.py:160-163 | Available becomes occupied and occupied becomes available. Any other status stays. |
| Occupancy.Toggled | backend/app/api/occupancy.py:156-164 | Exactly the picked seats are toggled; the others stay. |
| Occupancy.CountPicked | backend/app/api/occupancy.py:164-200 | The number of updated seats never exceeds the number of seats. |
| Occupancy.HistoryRows | backend/app/api/occupancy.py:175-194 | One history record per location, in order, built from that location's row. |
| Occupancy.HistoryFor | backend/app/api/occupancy.py:184-193 | A location's history row carries its id, no floor, the time, its recounted occupancy and its capacity. |
| Occupancy.Simulate | backend/app/api/occupancy.py:143-202 | The seats are toggled where picked and the counters recounted. One history record per location is appended, and the reply counts the picked seats and all seats. |
| Occupancy.SimulateProperties | backend/app/api/occupancy.py:143-202 | Seats neither available nor occupied are untouched, but still counted as picked. Counters are consistent. Old history is a prefix. Each new record carries its location's id and its freshly recounted occupancy. |
| Occupancy.CurrentOccupancy | backend/app/api/occupancy.py:117-140 | Without a non-empty id, one entry per location, in order. With one, one entry per location having that id, in order. Each entry carries its location's id, stored count and capacity, the rounded busyness percentage and the time of the request. |
| Occupancy.CurrentOccupancyFiltered | backend/app/api/occupancy.py:124-127 | A query for a non-empty id reports a stored location exactly when the location has that id. |
| Occupancy.HistoryQuery | backend/app/api/occupancy.py:205-219 | Returns min(limit, n) records, where n is the number of records of the location (of all records without a non-empty id). |
| Occupancy.HistoryQueryProperties | backend/app/api/occupancy.py:212-217 | The records are stored ones, of the named location if one is given, newest first. A selected record that is not returned is no newer than any returned one. |
| Occupancy.OccupancyMonitor.constructor | backend/app/api/occupancy.py:33 | The monitor holds the given tables. |
| Occupancy.OccupancyMonitor.UpdateSeatOccupancy | backend/app/api/occupancy.py:23-71 | The tables and reply are those of UpdateSeat. |
| Occupancy.OccupancyMonitor.BatchUpdateOccupancy | backend/app/api/occupancy.py:74-114 | The tables and reply are those of Batch. |
| Occupancy.OccupancyMonitor.ApplyAll | backend/app/api/occupancy.py:83-89 | The loop applies every event in order and counts those naming an existing seat. Nothing but the seats changes. |
| Occupancy.OccupancyMonitor.ApplyOne | backend/app/api/occupancy.py:86-89 | One loop step sets the seats to ApplyEvent of the old seats. It reports whether the seat was found and leaves the other tables alone. |
| Occupancy.OccupancyMonitor.RecountAll | backend/app/api/occupancy.py:91-106 | The tables become their recount. |
| Occupancy.OccupancyMonitor.RecountFloorRows | backend/app/api/occupancy.py:92-98 | The loop sets every floor's counter from the seats. Nothing else changes. |
| Occupancy.OccupancyMonitor.SimulateRandomOccupancy | backend/app/api/occupancy.py:143-202 | The tables and reply are those of Simulate for the given random choices. |
| Admin.RequireAdmin | backend/app/api/admin.py:23-30 | Exactly admins pass, unchanged. Everyone else gets 403 "Admin access required". |
| Admin.GroupsExact | backend/app/api/admin.py:56-66 | The hourly buckets are keyed by exactly the hours that occur. Each bucket holds exactly that hour's records, in order, and is never empty. |
| Admin.GroupByHour | backend/app/api/admin.py:56-66 | The loop builds exactly the hourly buckets. |
| Admin.MeanBetween | backend/app/api/admin.py:71-72 | A mean lies between the smallest and the largest value averaged. |
| Admin.Least | backend/app/api/admin.py:70 | The least key is in the list and below every other key. |
| Admin.SortedDistinct | backend/app/api/admin.py:70 | `sorted(hourly_data.items())` yields every hour key once, strictly increasing. |
| Admin.Hours | backend/app/api/admin.py:70 | The trend hours strictly increase, include every record's hour, and each has at least one record. |
| Admin.OccupancyTrends | backend/app/api/admin.py:69-77 | Each trend entry belongs to an hour with at least one record, and holds the rounded averages of exactly that hour's records. |
| Admin.TrendHoursIncrease | backend/app/api/admin.py:69-77 | Trends come in strictly increasing hour order. |
| Admin.EveryHourHasTrend | backend/app/api/admin.py:57-77 | Every record's hour gets a trend entry. |
| Admin.EveryTrendHasRecords | backend/app/api/admin.py:57-77 | Every trend entry is for an hour that some record has. |
| Admin.PercentageHundredths | backend/app/api/admin.py:65 | A stored occupancy percentage is a whole number of hundredths. |
| Admin.RoundToBetweenHundredths | backend/app/api/admin.py:75-76 | Rounding to two places keeps a value between bounds that are themselves whole hundredths. |
| Admin.TrendBounds | backend/app/api/admin.py:71-76 | Both rounded averages of a bucket lie between the smallest and largest values in it. |
| Admin.TrendWithinRange | backend/app/api/admin.py:69-77 | Each trend is its hour's bucket averaged. Both averages lie between that hour's smallest and largest record. |
| Admin.HourlyGroup | backend/app/api/admin.py:59-66 | An hour with records has a bucket, and the bucket is exactly those records. |
| Admin.TrendsOverGroups | backend/app/api/admin.py:69-77 | Averaging the buckets built by the loop in sorted key order gives the trends defined on the records. |
| Admin.OccupancyAnalytics | backend/app/api/admin.py:33-84 | The window starts "days" days before now. The trends are those of the records in the window for the optional location, in time order. |
| Admin.CountSeats | backend/app/api/admin.py:100-103 | A status count never exceeds the number of seats. |
| Admin.SeatStatusesPartition | backend/app/api/admin.py:100-103 | The five seat status counts add up to the total. |
| Admin.CountReservations | backend/app/api/admin.py:106-109 | A status count never exceeds the number of reservations. |
| Admin.ReservationStatusesPartition | backend/app/api/admin.py:106-109 | The six reservation status counts add up to the total. |
| Admin.UtilizationStats | backend/app/api/admin.py:87-145 | The occupied, available and reserved counts are the seats of each status, and never add up to more than the total. The overall percentage is `round(occupied / total * 100, 2)`, 0 with no seats, and lies in [0, 100]. Active reservations are the confirmed plus the active ones. Active users are the users whose status is active. There is one entry per location, in table order, built from that location. |
| Admin.OverallInRange | backend/app/api/admin.py:134 | The rounded overall percentage lies between 0 and 100. |
| Admin.ActiveCount | backend/app/api/admin.py:107-109 | Filtering on "confirmed or active" counts the confirmed plus the active. |
| Admin.UsersPage | backend/app/api/admin.py:148-172 | The total is every user. The page holds the users from "skip" on, at most "limit" of them, each summarised. |
| Admin.WindowByTime | backend/app/api/admin.py:188-190 | The window holds as many records as lie at or after the start, in time order, all at or after the start. |
| Admin.SummaryOfReservations | backend/app/api/admin.py:214-221 | The total is every reservation, and each status field counts the reservations with that status. The status fields add up to the total less the pending ones. |
| Admin.Report | backend/app/api/admin.py:175-222 | The window starts "days" days before now. The occupancy data are one entry per record of the window, oldest first; entry i is built from the i-th record of the time-ordered window. The record count is their number. The reservation summary counts, by status, the reservations created in the window. |
| Admin.ExportReport | backend/app/api/admin.py:224-233 | Both formats carry the same report. CSV wraps it with the format "csv" and the fixed notice. |
| Auth.CurrentUser | backend/app/api/auth.py:21-44 | 401 "could not validate credentials" when the token does not decode, has no `sub` or names no stored user. Otherwise the stored user with that id. |
| Auth.Register | backend/app/api/auth.py:47-90 | 400 for a stored email. Otherwise 400 for a stored non-empty student id. Otherwise a blank student id that is already stored fails at commit with a 500, because the column is unique and the check at line 59 skips blank ids. Otherwise exactly one user is appended, storing the password only as its hash, and a bearer token for the new id and email is returned. It succeeds iff the email is free and any given student id, blank included, is free. |
| Auth.RegisterKeepsUniqueAccounts | backend/app/api/auth.py:50-79 | Registration keeps emails unique and every present student id unique, blank ones included, as the unique column demands. |
| Auth.StoredStudentId | backend/app/api/auth.py:59 | The student id to store: present exactly when it is non-empty, and then the one given. |
| Auth.RegisterBlankAsNull | backend/app/api/auth.py:59-76 | The intended registration, storing a blank student id as null. It succeeds iff the email is free and any non-empty student id is free. The new user holds the stored id. |
| Auth.RegisterBlankAsNullKeepsUniqueAccounts | backend/app/api/auth.py:59-79 | The intended registration also keeps emails and present student ids unique. |
| Auth.SecondBlankStudentIdFails | backend/app/api/auth.py:59-79 | With a blank student id already stored, a new registration with a free email and a blank id fails at commit as written, and succeeds as intended. |
| Auth.Login | backend/app/api/auth.py:93-117 | An unknown email and a wrong password give the same 401. Otherwise the reply is a bearer token for the user with that email. |
| Auth.RegisterThenLogin | backend/app/api/auth.py:47-117 | With hashes that verify, logging in with the email and password just registered succeeds as the new user. |
| Auth.UserTable.constructor | backend/app/api/auth.py:40-51 | The table holds the given users. |
| Auth.UserTable.GetCurrentUser | backend/app/api/auth.py:21-44 | The lookup loop returns exactly CurrentUser. |
| Auth.UserTable.RegisterUser | backend/app/api/auth.py:47-90 | The table and reply are those of Register, including the 500 when the commit meets a second blank student id. |
| Auth.UserTable.LoginUser | backend/app/api/auth.py:93-117 | The lookup returns exactly Login and changes nothing. |
| Seats.Drop | backend/app/api/seats.py:38 | `.offset(skip)` keeps the rows after the first "skip", in order. |
| Seats.PagesConcatenate | backend/app/api/seats.py:38 | Two consecutive pages together make the page that spans both. |
| Seats.GetSeats | backend/app/api/seats.py:19-39 | At most "limit" seats, each a stored seat passing every filter that is set. They are the matching seats from position "skip" on, in table order, with exactly min(limit, matching - skip) of them. |
| Seats.UnfilteredFirstPage | backend/app/api/seats.py:29-38 | Without filters and from the start, a page is the first "limit" rows. |
| Seats.GetAvailableSeats | backend/app/api/seats.py:42-60 | Asking for `has_computer` fails, because the seat table has no such column. Otherwise the result holds exactly the available seats of the named floor, if any, whose outlet flag matches `has_power`, if given. |
| Seats.GetSeat | backend/app/api/seats.py:63-72 | The stored seat with that id iff one exists, otherwise 404. |
| Locations.AvailableSeatsOf | backend/app/api/locations.py:26-27 | Exactly the available seats that lie on one of the given floors. |
| Locations.AvailableOfLocation | backend/app/api/locations.py:26-51 | The seats the flags range over are exactly the available seats on that location's floors. |
| Locations.AnyFlag | backend/app/api/locations.py:30-32 | An `any` flag holds exactly when some available seat on the location's floors has the feature. |
| Locations.ViewFlags | backend/app/api/locations.py:30-56 | `has_power_outlet` holds iff some available seat on one of the location's floors has an outlet. `has_ac` is the same for air conditioning. Seats that are not available never count. |
| Locations.NoAvailableSeatNoFlags | backend/app/api/locations.py:30-32 | A location without any available seat gets neither flag. |
| Locations.GetLocations | backend/app/api/locations.py:17-36 | One view per location, in table order, each with its aggregated flags. |
| Locations.GetLocation | backend/app/api/locations.py:39-58 | The stored location with that id and its flags iff one exists, otherwise 404 "Location not found". |
| Models.RoundedPercentage | backend/app/models/location.py:60-64 | 0 when the total is 0. Otherwise the ratio times 100, rounded to two places. |
| Models.PercentageInRange | backend/app/models/location.py:60-64 | A count within its total gives a percentage between 0 and 100; the floor record (backend/app/models/floor.py:55-59) computes it the same way. |
| Models.PercentageMonotone | backend/app/models/occupancy_history.py:40-44 | A larger count never gives a smaller percentage for the same total. |
| Models.AvailableSeats | backend/app/models/location.py:67-69 | Never negative, at least total minus occupied, and either 0 or exactly that difference; the floor record (backend/app/models/floor.py:62-64) is the same. |
| Models.AvailablePlusOccupied | backend/app/models/location.py:67-69 | When the occupancy is within capacity, available plus occupied is the total. |
| Models.TruncMinutes | backend/app/models/reservation.py:67 | `int(seconds / 60)` truncates toward zero, for both signs. |
| Models.DurationMinutes | backend/app/models/reservation.py:63-68 | 0 when either time is missing. Otherwise the whole minutes between start and end, truncated toward zero. |
| Models.DurationAntisymmetric | backend/app/models/reservation.py:63-68 | Swapping start and end negates the duration. Equal times give 0. |
| Models.DurationMonotone | backend/app/models/reservation.py:63-68 | A later end never gives a shorter duration. |
| Config.CorsOrigins | backend/app/config.py:64-67 | One origin per comma-separated piece, one more than the commas, each stripped of surrounding whitespace. |
| Config.OriginsClean | backend/app/config.py:67 | No origin contains a comma or surrounding whitespace. |
| Config.EmptySetting | backend/app/config.py:67 | An empty setting gives one empty origin. |
| Config.TwoOrigins | backend/app/config.py:67 | Two clean origins joined by a comma come back as exactly those two. |
| Config.DefaultOrigins | backend/app/config.py:30-67 | The default setting gives the two localhost origins 3000 and 5173. |
| Store.FirstIndex | backend/app/api/seats.py:66 | `.filter(...).first()` finds the first row meeting the condition, if any. Nothing before it meets the condition, and it finds nothing iff no row does. |
| Store.FindFirst | backend/app/api/seats.py:66 | The scanning loop returns exactly the first matching row. |
| Store.FirstIndexAppend | backend/app/api/auth.py:51-78 | Appending rows never changes a match already found. Otherwise the first match lies in the appended part, shifted by the old length. |
| Store.WithStatusKeepsLookup | backend/app/api/occupancy.py:41-44 | Changing a seat's status never changes which row an id finds. |
| Sorting.SortBySorted | backend/app/api/reservations.py:71 | `order_by` yields rows sorted by the key. |
| Sorting.SortBy | backend/app/api/reservations.py:71 | `order_by` yields a permutation of the rows. |
| Sorting.SortByStable | backend/app/api/admin.py:53 | Rows with equal keys keep their table order. |
| Sorting.SortByDistinct | backend/app/services/seating_data.py:100 | Sorting a list whose keys are distinct (a counter's hours) keeps them distinct. |
| Rounding.RoundHalfUp | backend/app/models/location.py:64 | The rounded integer is within half a unit of the value. |
| Rounding.RoundToMonotone | backend/app/models/location.py:64 | Rounding to a number of places never reverses the order of two values. |
| Rounding.RoundToBetween | backend/app/api/admin.py:75-76 | Rounding keeps a value between whole-number bounds. |
| Strings.SplitLength | backend/app/config.py:67 | `split` on one character yields one more piece than there are separators. |
| Strings.JoinSplit | backend/app/config.py:67 | Joining the pieces of a split with the separator gives back the string. |
| Strings.SplitJoin | backend/app/config.py:67 | Splitting a join of separator-free pieces gives back the pieces. |
| Strings.StripIdempotent | backend/app/config.py:67 | Stripping twice is stripping once. |

## Left out

- **HTTP and database plumbing.** FastAPI routing, dependency injection, sessions, `commit`/`refresh` and `joinedload` are left out: a handler is a function of the tables before it to the tables and reply after it. A raised `HTTPException` is an `Err`. Response-schema conversion (`from_orm`) is the identity on the modelled fields.
- **Unmounted lecture-room router.** `lecturer_location.py` is modelled as its authors meant it to run. As written, the room table (backend/app/models/lecturer_location.py:29) has an `email` column and no `lecturer_email` or `code` column. So the filter at lecturer_location.py:31 and :61 raises `AttributeError`, which is a 500, and the constructor at :93 raises `TypeError` for the unknown `code` and `lecturer_email` keywords. The members below carry the intended behaviour, with the lecturer stored in the room's `email`:
- LecturerLocationApi.FirstConflict: the intended clash search. As written, its query on `lecturer_email` fails with a 500.
- LecturerLocationApi.CheckConflict: the intended clash check. As written, it fails with a 500 before any room is compared.
- LecturerLocationApi.MyRooms: the intended "my rooms" reply. As written, every lecturer gets a 500 from the filter at :61.
- LecturerLocationApi.CreateRoom: the intended creation. As written, the constructor at :93 rejects the `code` and `lecturer_email` keywords, so every admin create is a 500.
- LecturerLocationApi.Assign: the intended assignment. As written, the clash check at :119 fails with a 500, and the attribute written at :122 sets no column.
- LecturerLocationApi.AssignKeepsNoDoubleBooking: holds for the intended assignment. As written, no assignment succeeds.
- LecturerLocationApi.AssignIdempotent: holds for the intended assignment. As written, no assignment succeeds.
- LecturerLocationApi.Apply: treats an absent field as unset. Under pydantic v2, an `Optional` field without a default is required, so a request must supply all of them, and `exclude_unset` at :146 drops nothing. Under pydantic v1, which the `from_orm` and `.dict()` calls suggest, the model's reading holds.
- LecturerLocationApi.UpdateCheck: the intended check. As written, its clash query fails with a 500.
- LecturerLocationApi.Update: the intended update. As written, an update touching the booking fails with a 500 in the clash check, and `lecturer_email` sets no column.
- LecturerLocationApi.UpdateKeepsNoDoubleBooking: holds for the intended update only.
- LecturerLocationApi.RoomDesk.CheckScheduleConflict: intended behaviour, as CheckConflict.
- LecturerLocationApi.RoomDesk.AssignRoom: intended behaviour, as Assign.
- LecturerLocationApi.RoomDesk.UpdateRoom: intended behaviour, as Update.
- **Response validation.** `LecturerLocationResponse` requires `code`, `created_at` and `updated_at`. The room row has no `code`, so a non-empty reply would likely fail response validation with a 500. The model returns the rows themselves.
- **Frontend API wrappers.** `seats.ts`, `floors.ts`, `upload.ts`, `forecast.ts`, `auth.ts` and the lecturer wrappers are not part of this model. The `fetch` inside `apiFetch` is a parameter: the status, whether the body parses as JSON, and the body.
- **Rendering and gesture runtimes.** JSX layout, gradients, modals, charts and the SVG drawing are left out, except the numbers and choices they display. Reanimated shared values, worklets, `runOnJS` and the `withTiming` animation are modelled only by their end value. Gesture recognition thresholds are left out: a gesture callback is a method call carrying its event's numbers.
- **Binary floating point.** Values are exact reals. JavaScript float noise, such as `0.29 * 100` not being 29, is not reproduced. Ties in rounding go up, where Python rounds to even.
- **Unicode.** `strip`, `lower` and `upper` act on ASCII whitespace and letters only.
- **Concurrency.** `SeatRefreshWorker.start`, `stop` and `_run`, its lock and the asyncio task loop are left out. So is the order in which the map editor's asynchronous loaders finish. A tick of the worker is one method call.
- **SeatRefresh.Worker.Payload:** returns the cached fields as they are and has no contract of its own. `get_encoded_snapshot` is not modelled; it only reads the cached text under the lock.
- **Foreign services.**
  - The language model's HTTP call and `verify_gemini.send_request` are parameters.
  - `forecast_service.py` (a pickled ARIMA model) is not part of this model.
  - Image upload and `images.py` are not part of this model.
  - `mock_data.py` seeding is not part of this model.
  - CSV file reading is given the file's rows.
- **Auth.get_me and Auth.logout:** not modelled as members of their own. `get_me` returns the user `Auth.CurrentUser` resolves. `logout` returns a fixed message after the same check.
- **AiDemo:** the `/demo` HTML page and the `/demo/chat` endpoint are not modelled. The latter is a 500 wrapper around `Assistant.Chat`.
- **PredictionService and Assistant:** the prompt's JSON text (`json.dumps`) is not built. The language model is a function of what the prompt carries.
- **SeatingData:** ISO date formatting of the summary's timestamps is a parameter.
- **Grouping:** the first-appearance order of the floor groups before the final sort is not proved. Only the partition, the headers and the sorted order are.
- **SeatRefresh.PathOf:** the `or floor_name` fallback can never produce anything, because a non-empty floor name already makes the joined path non-empty. It is modelled but yields nothing new.
- **HomeStudents:** the pull-to-refresh `refreshing` flag and the permission-denied alert are not modelled. The refresh runs the same load sequence.
- **HomeAdmin:** the tab menu and navigation are not modelled.
- **Pure display screens.** Cards, forms, navigation layouts, `Statistics.tsx`, `Settings` and the placeholder `Dashboard` are not part of this model.
- **Models.IsActive** is a predicate with no contract of its own. `Admin.ActiveCount` states what it counts.

## Findings

| source | as written | input that shows it | evidently intended | confidence | as-written member | corrected member |
|---|---|---|---|---|---|---|
| frontend/src/screens/MapEditor/index.tsx:229-242 | `removeSelectedSeat` clears the selection but not the drag, so later pointer moves still patch the removed seat | press a baseline seat (a drag starts), remove it, then move the pointer: its id ends up both in `removedSeatIds` and as a key of `updatedSeats` | removing a seat also ends its drag, so a removed id never carries an update | medium, not executed | MapEditor.RemoveDuringDragLeavesUpdate | MapEditor.RemoveSelectedSeat |
| frontend/src/screens/HomeStudents/index.tsx:99-104 | the mount effect awaits `getUserLocation()` then `fetchLocations()`, but `fetchLocations` maps with the `userLocation` of the first render | first load with the permission granted: every card shows "Unknown" | the cards show the distance from the position just obtained | medium, not executed | HomeStudents.FirstLoadShowsNoDistance | HomeStudents.Loaded |
| backend/app/api/lecturer.py:80 | `assign_room` looks the room up by `assignment.id`, an attribute the request body does not have | any admin assignment, even of a free room to a free lecturer: `AttributeError`, so a 500 | the room named in the path, `room_id`, is looked up and booked | high, not executed | LecturerApi.AssignAlwaysFails | LecturerApi.AssignById |
| backend/app/api/lecturer.py:110-112 | `update_room` applies a new lecturer or new times with no clash check | two rooms, one booked for a lecturer 0-60; an update giving the other room the same lecturer 30-90 succeeds and double-books them | updates that touch the booking are clash-checked, as lecturer_location.py:148-154 does | medium, not executed | LecturerApi.UpdateCanDoubleBook | LecturerApi.UpdateChecked |
| backend/app/api/lecturer.py:111-112 | `setattr(room, "lecturer_email", …)` sets a plain attribute, not the `email` column | an update naming a new lecturer: the reply succeeds and the stored lecturer stays the old one | the new lecturer is stored | medium, not executed | LecturerApi.UpdateKeepsLecturer | LecturerApi.UpdateChecked |
| backend/app/api/lecturer.py:133 | `delete_assignment` clears `lecturer_email`, which is not a column, so the `email` stays | clear a booked room, then that lecturer asks for their rooms: the room is still listed, now without times | the room no longer belongs to the lecturer | medium, not executed | LecturerApi.DeleteAssignmentKeepsLecturer | LecturerApi.ClearAssignment |
| backend/app/api/auth.py:59 | the student-id check skips a blank id, which is then stored as `""` in a unique column | two registrations with different emails and a blank student id: the second fails at commit with a 500 | a blank student id is stored as null, so any number of users may leave it blank | medium, not executed | Auth.SecondBlankStudentIdFails | Auth.RegisterBlankAsNull |
| frontend/src/api/fetcher.ts:43-47 | on an error response whose body is not JSON, `res.text()` runs after `res.json()` has already consumed the body, so it rejects | a 502 with body "Bad Gateway": the message is "Invalid error response", not the body text | the body is read once, and its text becomes the message | medium, not executed | Fetcher.ErrorTextIsLost | Fetcher.ApiFetchTextOnce |
