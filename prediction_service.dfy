/**
 * Seat predictions (backend/app/services/prediction_service.py): the
 * historical context of a location and the user's scenario are put into
 * a prompt, the language model answers, and the answer is returned with
 * the model's name and the location.
 *
 * Timestamps are minutes since a midnight, as in `SeatingData`;
 * `isoformat` is a parameter. The prompt's JSON text is not built: the
 * client is a function of what the prompt carries (the system prompt, the
 * historical context and the user context) to the outcome of
 * `generate_text`, since the network call is outside the model.
 */
module PredictionService {
  import opened Wrappers
  import opened Rounding
  import opened SeatingData
  import Gemini

  /** `SeatingPredictionRequest`. */
  datatype PredictionRequest = PredictionRequest(
    location: string,
    arrivalTime: int,
    leavingTime: Option<int>,
    temperature: Option<real>,
    needsPower: Option<bool>,
    extraNotes: Option<string>)

  /** A value of the user context. */
  datatype Field = StrField(s: string) | NumField(x: real) | BoolField(b: bool)

  /** A JSON object as a Python dict: its entries in insertion order. */
  type Context = seq<(string, Field)>

  /** The value stored under `key`, the last assignment winning as in a dict. */
  function Lookup(c: Context, key: string): (r: Option<Field>)
    ensures r.Some? <==> exists i :: 0 <= i < |c| && c[i].0 == key
  {
    if c == [] then None
    else if c[|c| - 1].0 == key then Some(c[|c| - 1].1)
    else Lookup(c[..|c| - 1], key)
  }

  /** The position of each key of the user context in the order the source adds them. */
  function Rank(key: string): nat {
    if key == "location" then 0
    else if key == "arrival_time" then 1
    else if key == "leaving_time" then 2
    else if key == "temperature" then 3
    else if key == "needs_power" then 4
    else if key == "extra_notes" then 5
    else 6
  }

  /** Keys in the source's order, none twice, none outside the six it writes. */
  ghost predicate Ordered(c: Context) {
    (forall i :: 0 <= i < |c| ==> Rank(c[i].0) < 6)
    && forall i, j :: 0 <= i < j < |c| ==> Rank(c[i].0) < Rank(c[j].0)
  }

  /** `context[key] = value` when `cond` holds. */
  function AddIf(c: Context, cond: bool, key: string, value: Field): Context {
    if cond then c + [(key, value)] else c
  }

  /** Storing under `key` when `cond` holds: only that key's value can change. */
  lemma LookupAddIf(c: Context, cond: bool, key: string, value: Field, k: string)
    ensures Lookup(AddIf(c, cond, key, value), k) == if cond && key == k then Some(value) else Lookup(c, k)
  {
    if cond {
      assert (c + [(key, value)])[..|c|] == c;
    }
  }

  // The statements of `_build_user_context`, one stage each.

  function Base(p: PredictionRequest, isoformat: int -> string): Context {
    [("location", StrField(p.location)), ("arrival_time", StrField(isoformat(p.arrivalTime)))]
  }

  function WithLeaving(p: PredictionRequest, isoformat: int -> string): Context {
    AddIf(Base(p, isoformat), p.leavingTime.Some?, "leaving_time",
      StrField(if p.leavingTime.Some? then isoformat(p.leavingTime.value) else ""))
  }

  function WithTemperature(p: PredictionRequest, isoformat: int -> string): Context {
    AddIf(WithLeaving(p, isoformat), p.temperature.Some?, "temperature",
      NumField(if p.temperature.Some? then p.temperature.value else 0.0))
  }

  function WithPower(p: PredictionRequest, isoformat: int -> string): Context {
    AddIf(WithTemperature(p, isoformat), p.needsPower.Some?, "needs_power",
      BoolField(p.needsPower.Some? && p.needsPower.value))
  }

  /**
   * `_build_user_context`: the location and the arrival time always; the
   * leaving time when set (a `datetime` is always truthy); the temperature
   * and the power need whenever they are not `None`; the notes only when
   * they are a non-empty string.
   */
  function UserContext(p: PredictionRequest, isoformat: int -> string): (r: Context)
    ensures |r| >= 2
    ensures r[0] == ("location", StrField(p.location))
    ensures r[1] == ("arrival_time", StrField(isoformat(p.arrivalTime)))
  {
    AddIf(WithPower(p, isoformat), p.extraNotes.Some? && p.extraNotes.value != "", "extra_notes",
      StrField(if p.extraNotes.Some? then p.extraNotes.value else ""))
  }

  /** Every key of `c` comes before position `n` in the source's order. */
  ghost predicate RanksBelow(c: Context, n: nat) {
    forall i :: 0 <= i < |c| ==> Rank(c[i].0) < n
  }

  lemma AddIfOrdered(c: Context, cond: bool, key: string, value: Field)
    requires Ordered(c) && RanksBelow(c, Rank(key)) && Rank(key) < 6
    ensures Ordered(AddIf(c, cond, key, value)) && RanksBelow(AddIf(c, cond, key, value), Rank(key) + 1)
  {
  }

  /** The user context writes only its six keys, each at most once, in the source's order. */
  lemma UserContextOrdered(p: PredictionRequest, isoformat: int -> string)
    ensures Ordered(UserContext(p, isoformat))
  {
    var c0 := Base(p, isoformat);
    assert Rank(c0[0].0) == 0 && Rank(c0[1].0) == 1;
    assert Ordered(c0) && RanksBelow(c0, 2);
    assert Rank("leaving_time") == 2;
    AddIfOrdered(c0, p.leavingTime.Some?, "leaving_time",
      StrField(if p.leavingTime.Some? then isoformat(p.leavingTime.value) else ""));
    assert Rank("temperature") == 3;
    AddIfOrdered(WithLeaving(p, isoformat), p.temperature.Some?, "temperature",
      NumField(if p.temperature.Some? then p.temperature.value else 0.0));
    assert Rank("needs_power") == 4;
    AddIfOrdered(WithTemperature(p, isoformat), p.needsPower.Some?, "needs_power",
      BoolField(p.needsPower.Some? && p.needsPower.value));
    assert Rank("extra_notes") == 5;
    AddIfOrdered(WithPower(p, isoformat), p.extraNotes.Some? && p.extraNotes.value != "", "extra_notes",
      StrField(if p.extraNotes.Some? then p.extraNotes.value else ""));
  }

  /** What the user context stores under each of the keys it may write after the first two. */
  lemma UserContextLookups(p: PredictionRequest, isoformat: int -> string, k: string)
    requires Rank(k) >= 2
    ensures Lookup(UserContext(p, isoformat), k) ==
      if k == "leaving_time" && p.leavingTime.Some? then Some(StrField(isoformat(p.leavingTime.value)))
      else if k == "temperature" && p.temperature.Some? then Some(NumField(p.temperature.value))
      else if k == "needs_power" && p.needsPower.Some? then Some(BoolField(p.needsPower.value))
      else if k == "extra_notes" && p.extraNotes.Some? && p.extraNotes.value != "" then Some(StrField(p.extraNotes.value))
      else None
  {
    var c0 := Base(p, isoformat);
    LookupAddIf(c0, p.leavingTime.Some?, "leaving_time",
      StrField(if p.leavingTime.Some? then isoformat(p.leavingTime.value) else ""), k);
    LookupAddIf(WithLeaving(p, isoformat), p.temperature.Some?, "temperature",
      NumField(if p.temperature.Some? then p.temperature.value else 0.0), k);
    LookupAddIf(WithTemperature(p, isoformat), p.needsPower.Some?, "needs_power",
      BoolField(p.needsPower.Some? && p.needsPower.value), k);
    LookupAddIf(WithPower(p, isoformat), p.extraNotes.Some? && p.extraNotes.value != "", "extra_notes",
      StrField(if p.extraNotes.Some? then p.extraNotes.value else ""), k);
    assert Lookup(c0, k).None? by {
      assert c0[0].0 != k && c0[1].0 != k;
    }
  }

  /** The leaving time is in the user context exactly when it is set. */
  lemma LeavingTimeIncluded(p: PredictionRequest, isoformat: int -> string)
    ensures Lookup(UserContext(p, isoformat), "leaving_time")
      == if p.leavingTime.Some? then Some(StrField(isoformat(p.leavingTime.value))) else None
  {
    UserContextLookups(p, isoformat, "leaving_time");
  }

  /** The temperature is in the user context whenever it is not `None`, a zero included. */
  lemma TemperatureIncluded(p: PredictionRequest, isoformat: int -> string)
    ensures Lookup(UserContext(p, isoformat), "temperature")
      == if p.temperature.Some? then Some(NumField(p.temperature.value)) else None
    ensures p.temperature == Some(0.0) ==> Lookup(UserContext(p, isoformat), "temperature") == Some(NumField(0.0))
  {
    UserContextLookups(p, isoformat, "temperature");
  }

  /** The power need is in the user context whenever it is not `None`, `False` included. */
  lemma NeedsPowerIncluded(p: PredictionRequest, isoformat: int -> string)
    ensures Lookup(UserContext(p, isoformat), "needs_power")
      == if p.needsPower.Some? then Some(BoolField(p.needsPower.value)) else None
    ensures p.needsPower == Some(false) ==> Lookup(UserContext(p, isoformat), "needs_power") == Some(BoolField(false))
  {
    UserContextLookups(p, isoformat, "needs_power");
  }

  /** The notes are in the user context only when they are a non-empty string. */
  lemma ExtraNotesIncluded(p: PredictionRequest, isoformat: int -> string)
    ensures Lookup(UserContext(p, isoformat), "extra_notes")
      == if p.extraNotes.Some? && p.extraNotes.value != "" then Some(StrField(p.extraNotes.value)) else None
    ensures p.extraNotes == Some("") ==> Lookup(UserContext(p, isoformat), "extra_notes").None?
  {
    UserContextLookups(p, isoformat, "extra_notes");
  }

  /** `_build_user_context`, key by key. */
  method BuildUserContext(p: PredictionRequest, isoformat: int -> string) returns (context: Context)
    ensures context == UserContext(p, isoformat)
  {
    context := [("location", StrField(p.location)), ("arrival_time", StrField(isoformat(p.arrivalTime)))];
    if p.leavingTime.Some? {
      context := context + [("leaving_time", StrField(isoformat(p.leavingTime.value)))];
    }
    if p.temperature.Some? {
      context := context + [("temperature", NumField(p.temperature.value))];
    }
    if p.needsPower.Some? {
      context := context + [("needs_power", BoolField(p.needsPower.value))];
    }
    if p.extraNotes.Some? && p.extraNotes.value != "" {
      context := context + [("extra_notes", StrField(p.extraNotes.value))];
    }
  }

  // ------------------------------------------------------------------
  // The historical context
  // ------------------------------------------------------------------

  /** One entry of `recent_records` in the prompt. */
  datatype RecentEntry = RecentEntry(
    arrivalTime: string, leavingTime: string, temperature: real, powerPlugs: bool, durationMinutes: real)

  /** What `build_prediction_context` returns. */
  datatype PredictionContext = PredictionContext(summary: Summary, location: string, recentRecords: seq<RecentEntry>)

  /** The number of recent records the prompt carries. */
  const RecentLimit := 5

  function EntryOf(r: SeatingRecord, isoformat: int -> string): (e: RecentEntry)
    ensures e.arrivalTime == isoformat(r.arrival) && e.leavingTime == isoformat(r.leaving)
    ensures e.temperature == r.temperature && e.powerPlugs == r.powerPlugs
    ensures e.durationMinutes == RoundTo(DurationMinutes(r), 2)
  {
    RecentEntry(isoformat(r.arrival), isoformat(r.leaving), r.temperature, r.powerPlugs,
      RoundTo(DurationMinutes(r), 2))
  }

  function Entries(rs: seq<SeatingRecord>, isoformat: int -> string): (es: seq<RecentEntry>)
    ensures |es| == |rs| && forall i :: 0 <= i < |rs| ==> es[i] == EntryOf(rs[i], isoformat)
  {
    seq(|rs|, i requires 0 <= i < |rs| => EntryOf(rs[i], isoformat))
  }

  /**
   * `build_prediction_context`: the summary and then the location's five
   * latest records. The load both calls make can fail; the failure
   * propagates. When it succeeds the summary is the cached one, if any,
   * or the summary of the loaded records.
   */
  method BuildPredictionContext(service: SeatingDataService, location: string, isoformat: int -> string)
    returns (r: Result<PredictionContext, LoadError>)
    modifies service
    ensures var l := LoadOutcome(old(service.records), service.file, service.parsers);
      && service.records == l.records
      && (l.error.Some? ==> r == Err(l.error.value))
      && (l.error.None? ==> r == Ok(PredictionContext(
            if old(service.cached).Some? then old(service.cached).value else SummaryOf(l.records),
            location,
            Entries(RecentOf(l.records, location, RecentLimit), isoformat))))
  {
    var summary := service.GetSummary();
    if summary.Err? {
      return Err(summary.error);
    }
    var recent := service.GetRecentRecords(location, RecentLimit);
    if recent.Err? {
      return Err(recent.error);
    }
    r := Ok(PredictionContext(summary.value, location, Entries(recent.value, isoformat)));
  }

  // ------------------------------------------------------------------
  // The prediction
  // ------------------------------------------------------------------

  const SystemPrompt: string :=
    "You are a library analytics assistant helping students find the best study spots. "
    + "Use the provided historical seating data to forecast availability, highlight peak hours, "
    + "and offer concise, actionable suggestions."

  /** What the prompt sent to the model carries. */
  datatype Prompt = Prompt(system: string, history: PredictionContext, scenario: Context)

  /** The response of `generate_prediction`: exactly a model, a location and a prediction. */
  datatype Prediction = Prediction(model: string, location: string, prediction: string)

  datatype PredictionError = DataError(load: LoadError) | ClientFailure(client: Gemini.ClientError)

  /**
   * `generate_prediction`: a failing load or a failing client call
   * propagates; otherwise the client's text is returned under the model's
   * name and the requested location, and the prompt carried the system
   * prompt, the location's history and the user's scenario.
   */
  method GeneratePrediction(service: SeatingDataService, p: PredictionRequest, isoformat: int -> string,
                            model: string, client: Prompt -> Result<string, Gemini.ClientError>)
    returns (r: Result<Prediction, PredictionError>)
    modifies service
    ensures var l := LoadOutcome(old(service.records), service.file, service.parsers);
      && service.records == l.records
      && (l.error.Some? ==> r == Err(DataError(l.error.value)))
      && (l.error.None? ==>
            var history := PredictionContext(
              if old(service.cached).Some? then old(service.cached).value else SummaryOf(l.records),
              p.location,
              Entries(RecentOf(l.records, p.location, RecentLimit), isoformat));
            var reply := client(Prompt(SystemPrompt, history, UserContext(p, isoformat)));
            r == if reply.Ok? then Ok(Prediction(model, p.location, reply.value)) else Err(ClientFailure(reply.error)))
  {
    var context := BuildPredictionContext(service, p.location, isoformat);
    if context.Err? {
      return Err(DataError(context.error));
    }
    var userContext := BuildUserContext(p, isoformat);
    var reply := client(Prompt(SystemPrompt, context.value, userContext));
    if reply.Err? {
      return Err(ClientFailure(reply.error));
    }
    r := Ok(Prediction(model, p.location, reply.value));
  }
}
