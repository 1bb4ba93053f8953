/**
 * The seating dataset behind the prediction prompts
 * (backend/app/services/seating_data.py): a CSV of visits (location,
 * arrival, leaving, temperature, power plugs) loaded once into a list of
 * records, the most recent visits of one location, and a per-location
 * summary that is computed once and cached.
 *
 * Reading the file is I/O: the service is given the rows of the CSV
 * (`None` when the file does not exist), each row a map from column name
 * to its text, a column the row lacks being absent from the map. Parsing
 * a timestamp with the format "%m/%d/%Y %H:%M" and a number with
 * `float()` are library calls and are parameters: a timestamp is the
 * number of minutes since some midnight, `None` when the text does not
 * parse. Parse failures raise in the source; here they are `LoadError`s.
 */
module SeatingData {
  import opened Wrappers
  import opened Strings
  import opened Sorting
  import opened Rounding
  import opened Store
  import opened Grouping

  /** A visit. Times are minutes since a midnight, the resolution of the CSV's format. */
  datatype SeatingRecord = SeatingRecord(
    location: string, arrival: int, leaving: int, temperature: real, powerPlugs: bool)

  /** `duration_minutes`: the seconds between arrival and leaving, over 60. */
  function DurationMinutes(r: SeatingRecord): (d: real)
    ensures d * 60.0 == ((r.leaving - r.arrival) * 60) as real
  {
    ((r.leaving - r.arrival) * 60) as real / 60.0
  }

  /** `arrival_time.hour`. */
  function Hour(t: int): (h: int)
    ensures 0 <= h < 24
    ensures h * 60 <= t % 1440 < h * 60 + 60
  {
    (t % 1440) / 60
  }

  // ------------------------------------------------------------------
  // Rows
  // ------------------------------------------------------------------

  type Row = map<string, string>

  /** The library parsers the loader calls. */
  datatype Parsers = Parsers(date: string -> Option<int>, number: string -> Option<real>)

  /** Why loading stopped: no file, a missing column, or a field that does not parse. */
  datatype LoadError = FileNotFound | MissingField(column: string) | BadDate(text: string) | BadNumber(text: string)

  /** `float(row.get("Temperature", 0) or 0)`: a missing or empty field is 0. */
  function TemperatureOf(row: Row, number: string -> Option<real>): (r: Result<real, LoadError>)
    ensures "Temperature" !in row || row["Temperature"] == "" ==> r == Ok(0.0)
    ensures "Temperature" in row && row["Temperature"] != "" ==>
      (r.Ok? <==> number(row["Temperature"]).Some?)
      && (r.Ok? ==> r.value == number(row["Temperature"]).value)
  {
    if "Temperature" !in row || row["Temperature"] == "" then Ok(0.0)
    else match number(row["Temperature"])
      case None => Err(BadNumber(row["Temperature"]))
      case Some(t) => Ok(t)
  }

  /** `(row.get("Power Plugs") or "").strip().upper() == "TRUE"`. */
  function PowerPlugsOf(row: Row): bool {
    "Power Plugs" in row && ToUpper(Strip(row["Power Plugs"])) == "TRUE"
  }

  /** ASCII case-insensitive equality with "true". */
  predicate SaysTrue(s: string) {
    |s| == 4 && (s[0] == 't' || s[0] == 'T') && (s[1] == 'r' || s[1] == 'R')
    && (s[2] == 'u' || s[2] == 'U') && (s[3] == 'e' || s[3] == 'E')
  }

  /** The plug flag is set exactly when the trimmed field spells "true" in any case. */
  lemma PowerPlugsCaseInsensitive(row: Row)
    ensures PowerPlugsOf(row) <==> "Power Plugs" in row && SaysTrue(Strip(row["Power Plugs"]))
  {
    if "Power Plugs" in row {
      var s := Strip(row["Power Plugs"]);
      var u := ToUpper(s);
      assert "TRUE" == ['T', 'R', 'U', 'E'];
      if |s| == 4 {
        assert u == "TRUE" <==> u[0] == 'T' && u[1] == 'R' && u[2] == 'U' && u[3] == 'E';
      }
    }
  }

  /** A timestamp column: present, and parsing once stripped. */
  function DateOf(row: Row, column: string, date: string -> Option<int>): (r: Result<int, LoadError>)
    ensures r.Ok? <==> column in row && date(Strip(row[column])).Some?
    ensures r.Ok? ==> r.value == date(Strip(row[column])).value
  {
    if column !in row then Err(MissingField(column))
    else match date(Strip(row[column]))
      case None => Err(BadDate(row[column]))
      case Some(t) => Ok(t)
  }

  /**
   * One row of `ensure_loaded`, in the order the source reads it: the
   * arrival, the leaving time, the temperature, the plugs, the location.
   */
  function ParseRow(row: Row, parsers: Parsers): (r: Result<SeatingRecord, LoadError>)
    ensures DateOf(row, "Arrival Time", parsers.date).Err? ==> r == Err(DateOf(row, "Arrival Time", parsers.date).error)
    ensures DateOf(row, "Arrival Time", parsers.date).Ok? && DateOf(row, "Leaving Time", parsers.date).Err? ==>
      r == Err(DateOf(row, "Leaving Time", parsers.date).error)
    ensures (DateOf(row, "Arrival Time", parsers.date).Ok? && DateOf(row, "Leaving Time", parsers.date).Ok?
             && TemperatureOf(row, parsers.number).Err?) ==> r == Err(TemperatureOf(row, parsers.number).error)
    ensures (DateOf(row, "Arrival Time", parsers.date).Ok? && DateOf(row, "Leaving Time", parsers.date).Ok?
             && TemperatureOf(row, parsers.number).Ok? && "Location" !in row) ==> r == Err(MissingField("Location"))
  {
    match DateOf(row, "Arrival Time", parsers.date)
    case Err(e) => Err(e)
    case Ok(arrival) =>
      match DateOf(row, "Leaving Time", parsers.date)
      case Err(e) => Err(e)
      case Ok(leaving) =>
        match TemperatureOf(row, parsers.number)
        case Err(e) => Err(e)
        case Ok(t) =>
          var power := PowerPlugsOf(row);
          if "Location" !in row then Err(MissingField("Location"))
          else Ok(SeatingRecord(Strip(row["Location"]), arrival, leaving, t, power))
  }

  /**
   * A row fails exactly when a timestamp column is missing or does not
   * parse, the temperature does not parse, or the location column is
   * missing; otherwise its record carries the stripped location, both
   * timestamps, the temperature and the plug flag.
   */
  lemma ParseRowFields(row: Row, parsers: Parsers)
    ensures ParseRow(row, parsers).Ok? <==>
      DateOf(row, "Arrival Time", parsers.date).Ok? && DateOf(row, "Leaving Time", parsers.date).Ok?
      && TemperatureOf(row, parsers.number).Ok? && "Location" in row
    ensures ParseRow(row, parsers).Ok? ==>
      var r := ParseRow(row, parsers).value;
      r.location == Strip(row["Location"])
      && r.arrival == parsers.date(Strip(row["Arrival Time"])).value
      && r.leaving == parsers.date(Strip(row["Leaving Time"])).value
      && r.temperature == TemperatureOf(row, parsers.number).value
      && r.powerPlugs == PowerPlugsOf(row)
  {
  }

  // ------------------------------------------------------------------
  // Loading
  // ------------------------------------------------------------------

  /** The records after a load, and the error it stopped with, if any. */
  datatype Load = Load(records: seq<SeatingRecord>, error: Option<LoadError>)

  /** The records of the first `n` rows, which all parse. */
  function Parsed(rows: seq<Row>, parsers: Parsers, n: nat): (r: seq<SeatingRecord>)
    requires n <= |rows| && forall i :: 0 <= i < n ==> ParseRow(rows[i], parsers).Ok?
    ensures |r| == n
  {
    seq(n, i requires 0 <= i < n => ParseRow(rows[i], parsers).value)
  }

  function Fails(parsers: Parsers): Row -> bool {
    (row: Row) => ParseRow(row, parsers).Err?
  }

  /**
   * The loop of `ensure_loaded` over the rows: every row is appended in
   * order until one fails to parse, and the records appended before the
   * failure stay.
   */
  function LoadRows(rows: seq<Row>, parsers: Parsers): (l: Load)
    ensures |l.records| <= |rows|
    ensures l.error.Some? ==> |l.records| < |rows| && ParseRow(rows[|l.records|], parsers).Err?
  {
    match FirstIndex(rows, Fails(parsers))
    case None => Load(Parsed(rows, parsers, |rows|), None)
    case Some(k) => Load(Parsed(rows, parsers, k), Some(ParseRow(rows[k], parsers).error))
  }

  /**
   * The loaded records are the records of the leading rows, in order; the
   * load fails exactly when some row does not parse, and then it stops at
   * the first such row with that row's error.
   */
  lemma LoadRowsFacts(rows: seq<Row>, parsers: Parsers)
    ensures var l := LoadRows(rows, parsers);
      |l.records| <= |rows|
      && (forall i :: 0 <= i < |l.records| ==>
           ParseRow(rows[i], parsers).Ok? && l.records[i] == ParseRow(rows[i], parsers).value)
      && (l.error.None? <==> forall i :: 0 <= i < |rows| ==> ParseRow(rows[i], parsers).Ok?)
      && (l.error.None? ==> |l.records| == |rows|)
      && (l.error.Some? ==> |l.records| < |rows| && ParseRow(rows[|l.records|], parsers) == Err(l.error.value))
  {
    var k := FirstIndex(rows, Fails(parsers));
    if k.Some? {
      assert Fails(parsers)(rows[k.value]);
    } else {
      forall i | 0 <= i < |rows| ensures ParseRow(rows[i], parsers).Ok? {
        assert !Fails(parsers)(rows[i]);
      }
    }
  }

  /** A load meeting its first bad row at `i` keeps the records before it and reports that row's error. */
  lemma LoadRowsStopsAt(rows: seq<Row>, parsers: Parsers, i: nat)
    requires i < |rows| && ParseRow(rows[i], parsers).Err?
    requires forall k :: 0 <= k < i ==> ParseRow(rows[k], parsers).Ok?
    ensures LoadRows(rows, parsers) == Load(Parsed(rows, parsers, i), Some(ParseRow(rows[i], parsers).error))
  {
    var f := FirstIndex(rows, Fails(parsers));
    assert Fails(parsers)(rows[i]);
    assert forall j :: 0 <= j < i ==> !Fails(parsers)(rows[j]);
    assert f == Some(i);
  }

  /** A load whose rows all parse keeps the records of all of them, in order. */
  lemma LoadRowsAll(rows: seq<Row>, parsers: Parsers)
    requires forall k :: 0 <= k < |rows| ==> ParseRow(rows[k], parsers).Ok?
    ensures LoadRows(rows, parsers) == Load(Parsed(rows, parsers, |rows|), None)
  {
    assert forall j :: 0 <= j < |rows| ==> !Fails(parsers)(rows[j]);
  }

  lemma ParsedStep(rows: seq<Row>, parsers: Parsers, i: nat)
    requires i < |rows| && forall k :: 0 <= k <= i ==> ParseRow(rows[k], parsers).Ok?
    ensures Parsed(rows, parsers, i + 1) == Parsed(rows, parsers, i) + [ParseRow(rows[i], parsers).value]
  {
  }

  /**
   * `ensure_loaded` as a value: nothing happens once some record is
   * loaded; otherwise a missing file fails, and the rows are read.
   */
  function LoadOutcome(before: seq<SeatingRecord>, file: Option<seq<Row>>, parsers: Parsers): (l: Load)
    ensures before != [] ==> l == Load(before, None)
    ensures before == [] && file.None? ==> l == Load([], Some(FileNotFound))
  {
    if before != [] then Load(before, None)
    else match file
      case None => Load([], Some(FileNotFound))
      case Some(rows) => LoadRows(rows, parsers)
  }

  /**
   * A load that fails after some rows leaves those records in place, and
   * the next load then returns at once without an error: the partial list
   * is taken for the dataset.
   */
  lemma PartialLoadSticks(rows: seq<Row>, parsers: Parsers)
    requires LoadRows(rows, parsers).error.Some? && LoadRows(rows, parsers).records != []
    ensures var first := LoadOutcome([], Some(rows), parsers);
      LoadOutcome(first.records, Some(rows), parsers) == Load(first.records, None)
      && |first.records| < |rows|
  {
    LoadRowsFacts(rows, parsers);
  }

  // ------------------------------------------------------------------
  // Recent records
  // ------------------------------------------------------------------

  function AtLocation(location: string): SeatingRecord -> bool {
    (r: SeatingRecord) => r.location == location
  }

  /** `key=arrival_time, reverse=True`: the later arrival first; the sort is stable. */
  function LaterFirst(): (SeatingRecord, SeatingRecord) -> bool {
    (a: SeatingRecord, b: SeatingRecord) => a.arrival >= b.arrival
  }

  /** Python's `s[:limit]`, a negative limit counting from the end. */
  function SliceTo<T>(s: seq<T>, limit: int): (r: seq<T>)
    ensures r <= s
    ensures limit >= 0 ==> |r| == if limit < |s| then limit else |s|
    ensures limit < 0 ==> |r| == if |s| + limit > 0 then |s| + limit else 0
  {
    if limit >= 0 then Take(s, limit)
    else if |s| + limit > 0 then s[..|s| + limit] else []
  }

  /** `get_recent_records` over the loaded records. */
  function RecentOf(records: seq<SeatingRecord>, location: string, limit: int): seq<SeatingRecord> {
    SliceTo(SortBy(Filter(records, AtLocation(location)), LaterFirst()), limit)
  }

  /** The recent records are records of that location. */
  lemma RecentFromLocation(records: seq<SeatingRecord>, location: string, limit: int)
    ensures forall x :: x in RecentOf(records, location, limit) ==> x in records && x.location == location
  {
    var mine := Filter(records, AtLocation(location));
    var newest := SortBy(mine, LaterFirst());
    forall x | x in RecentOf(records, location, limit) ensures x in records && x.location == location {
      assert x in newest;
      assert x in multiset(newest);
      FilterMember(records, AtLocation(location), x);
    }
  }

  /**
   * The recent records come latest arrival first, at most `limit` of them
   * (all of the location's when there are fewer), and they are the
   * latest: no record of the location left out arrived later than one
   * kept.
   */
  lemma RecentLatest(records: seq<SeatingRecord>, location: string, limit: int)
    ensures var r := RecentOf(records, location, limit);
      var mine := Filter(records, AtLocation(location));
      var newest := SortBy(mine, LaterFirst());
      && (forall i, j :: 0 <= i < j < |r| ==> r[i].arrival >= r[j].arrival)
      && (limit >= 0 ==> |r| == if limit < |mine| then limit else |mine|)
      && r <= newest && multiset(newest) == multiset(mine)
      && (forall i, j :: 0 <= i < |r| <= j < |newest| ==> r[i].arrival >= newest[j].arrival)
  {
    var mine := Filter(records, AtLocation(location));
    var newest := SortBy(mine, LaterFirst());
    var r := RecentOf(records, location, limit);
    SortBySorted(mine, LaterFirst());
    forall i, j | 0 <= i < |r| <= j < |newest| ensures r[i].arrival >= newest[j].arrival {
      assert r[i] == newest[i];
      assert LaterFirst()(newest[i], newest[j]);
    }
    forall i, j | 0 <= i < j < |r| ensures r[i].arrival >= r[j].arrival {
      assert r[i] == newest[i] && r[j] == newest[j];
      assert LaterFirst()(newest[i], newest[j]);
    }
  }

  // ------------------------------------------------------------------
  // The summary
  // ------------------------------------------------------------------

  /** One entry of a `Counter` of hours: the hour and how often it occurs. */
  datatype Tally = Tally(hour: int, count: nat)

  function Occurrences(hs: seq<int>, h: int): nat {
    if hs == [] then 0 else Occurrences(hs[..|hs| - 1], h) + (if hs[|hs| - 1] == h then 1 else 0)
  }

  function TallyIndex(t: seq<Tally>, h: int): (r: Option<nat>)
    ensures r.Some? ==> r.value < |t| && t[r.value].hour == h
    ensures r.None? <==> forall k :: 0 <= k < |t| ==> t[k].hour != h
  {
    if t == [] then None
    else if t[|t| - 1].hour == h then Some(|t| - 1)
    else TallyIndex(t[..|t| - 1], h)
  }

  /** `counter[h] += 1`. */
  function Bump(t: seq<Tally>, h: int): seq<Tally> {
    match TallyIndex(t, h)
    case Some(k) => t[k := Tally(h, t[k].count + 1)]
    case None => t + [Tally(h, 1)]
  }

  /** A `Counter` filled from `hs`: each hour once, in the order first met. */
  function Tallies(hs: seq<int>): seq<Tally> {
    if hs == [] then [] else Bump(Tallies(hs[..|hs| - 1]), hs[|hs| - 1])
  }

  lemma {:induction false} OccurrencesAbsent(hs: seq<int>, h: int)
    requires h !in hs
    ensures Occurrences(hs, h) == 0
  {
    if hs != [] {
      assert forall x :: x in hs[..|hs| - 1] ==> x in hs;
      OccurrencesAbsent(hs[..|hs| - 1], h);
    }
  }

  ghost predicate DistinctHours(t: seq<Tally>) {
    forall i, j :: 0 <= i < j < |t| ==> t[i].hour != t[j].hour
  }

  /** Every entry of `t` holds an hour of `hs` with its number of occurrences. */
  ghost predicate CountsOf(t: seq<Tally>, hs: seq<int>) {
    forall k :: 0 <= k < |t| ==> t[k].count == Occurrences(hs, t[k].hour) && t[k].hour in hs
  }

  /** Every hour of `hs` has an entry in `t`. */
  ghost predicate Covers(t: seq<Tally>, hs: seq<int>) {
    forall x :: x in hs ==> TallyIndex(t, x).Some?
  }

  lemma OccurrencesLast(init: seq<int>, h: int, x: int)
    ensures Occurrences(init + [h], x) == Occurrences(init, x) + (if h == x then 1 else 0)
  {
    assert (init + [h])[..|init|] == init;
  }

  lemma BumpDistinct(t: seq<Tally>, h: int)
    requires DistinctHours(t)
    ensures DistinctHours(Bump(t, h))
  {
  }

  lemma BumpCovers(t: seq<Tally>, init: seq<int>, h: int)
    requires Covers(t, init)
    ensures Covers(Bump(t, h), init + [h])
  {
    var u := Bump(t, h);
    forall x | x in init + [h] ensures TallyIndex(u, x).Some? {
      if x == h {
        match TallyIndex(t, h)
        case Some(k) => assert u[k].hour == h;
        case None => assert u[|t|].hour == h;
      } else {
        assert x in init;
        var k := TallyIndex(t, x).value;
        assert u[k].hour == x;
      }
    }
  }

  lemma BumpCounts(t: seq<Tally>, init: seq<int>, h: int)
    requires DistinctHours(t) && CountsOf(t, init) && Covers(t, init)
    ensures CountsOf(Bump(t, h), init + [h])
  {
    var u := Bump(t, h);
    var hs := init + [h];
    forall k | 0 <= k < |u| ensures u[k].count == Occurrences(hs, u[k].hour) && u[k].hour in hs {
      OccurrencesLast(init, h, u[k].hour);
      if k < |t| {
        assert u[k].hour == t[k].hour;
        assert t[k].hour in init;
      } else {
        assert TallyIndex(t, h).None?;
        OccurrencesAbsent(init, h);
      }
    }
  }

  /** The counter holds each hour of `hs` once, with its number of occurrences, and nothing else. */
  lemma {:induction false} TalliesCount(hs: seq<int>)
    ensures DistinctHours(Tallies(hs))
    ensures CountsOf(Tallies(hs), hs)
    ensures Covers(Tallies(hs), hs)
  {
    if hs != [] {
      var init, h := hs[..|hs| - 1], hs[|hs| - 1];
      assert hs == init + [h];
      TalliesCount(init);
      BumpDistinct(Tallies(init), h);
      BumpCovers(Tallies(init), init, h);
      BumpCounts(Tallies(init), init, h);
    } else {
      assert Tallies(hs) == [];
    }
  }

  /** `most_common` orders by count, the more frequent first; ties keep the counter's order. */
  predicate MoreFrequent(a: Tally, b: Tally) {
    a.count >= b.count
  }

  function HoursOf(t: seq<Tally>): (r: seq<int>)
    ensures |r| == |t| && forall k :: 0 <= k < |t| ==> r[k] == t[k].hour
  {
    seq(|t|, k requires 0 <= k < |t| => t[k].hour)
  }

  /** `[hour for hour, _ in counter.most_common(3)]`. */
  function PeakHours(hs: seq<int>): (r: seq<int>)
    ensures |r| <= 3
  {
    HoursOf(Take(SortBy(Tallies(hs), MoreFrequent), 3))
  }

  function HourOfTally(t: Tally): int {
    t.hour
  }

  /** The counter sorted by `most_common`: still each hour of `hs` once, with its count. */
  lemma SortedTallies(hs: seq<int>)
    ensures var s := SortBy(Tallies(hs), MoreFrequent);
      && DistinctBy(s, HourOfTally)
      && (forall k :: 0 <= k < |s| ==> s[k].count == Occurrences(hs, s[k].hour) && s[k].hour in hs)
  {
    var t := Tallies(hs);
    var s := SortBy(t, MoreFrequent);
    TalliesCount(hs);
    assert DistinctBy(t, HourOfTally);
    SortByDistinct(t, MoreFrequent, HourOfTally);
    forall k | 0 <= k < |s| ensures s[k].count == Occurrences(hs, s[k].hour) && s[k].hour in hs {
      var j := Found(t, s, k);
    }
  }

  /** At most three peak hours, each an hour of `hs`, none twice. */
  lemma PeakHoursDistinct(hs: seq<int>)
    ensures |PeakHours(hs)| <= 3
    ensures forall k :: 0 <= k < |PeakHours(hs)| ==> PeakHours(hs)[k] in hs
    ensures forall i, j :: 0 <= i < j < |PeakHours(hs)| ==> PeakHours(hs)[i] != PeakHours(hs)[j]
  {
    var s := SortBy(Tallies(hs), MoreFrequent);
    SortedTallies(hs);
    var p := PeakHours(hs);
    forall i, j | 0 <= i < j < |p| ensures p[i] != p[j] {
      assert p[i] == HourOfTally(s[i]) && p[j] == HourOfTally(s[j]);
    }
  }

  /** No hour of `hs` left out of the peak hours occurs more often than one chosen. */
  lemma PeakHoursMostFrequent(hs: seq<int>)
    ensures forall h, k :: h in hs && h !in PeakHours(hs) && 0 <= k < |PeakHours(hs)| ==>
      Occurrences(hs, h) <= Occurrences(hs, PeakHours(hs)[k])
  {
    forall h, k | h in hs && h !in PeakHours(hs) && 0 <= k < |PeakHours(hs)|
      ensures Occurrences(hs, h) <= Occurrences(hs, PeakHours(hs)[k])
    {
      PeakHourBeats(hs, h, k);
    }
  }

  lemma PeakHourBeats(hs: seq<int>, h: int, k: nat)
    requires h in hs && h !in PeakHours(hs) && k < |PeakHours(hs)|
    ensures Occurrences(hs, h) <= Occurrences(hs, PeakHours(hs)[k])
  {
    var t := Tallies(hs);
    var s := SortBy(t, MoreFrequent);
    var p := PeakHours(hs);
    TalliesCount(hs);
    SortedTallies(hs);
    var x := TallyIndex(t, h).value;
    var j := Found(s, t, x);
    assert s[j].hour == h;
    assert k < j;
    assert MoreFrequent(s[k], s[j]) by {
      assert TotalPreorder(MoreFrequent);
      SortBySorted(t, MoreFrequent);
    }
    assert p[k] == s[k].hour;
  }

  /** The date range and the mean stay of the whole dataset. */
  datatype Details = Details(start: int, end: int, averageDurationMinutes: real)

  datatype Overall = Overall(totalRecords: nat, details: Option<Details>)

  /** The statistics of one location. */
  datatype LocationStats = LocationStats(
    location: string, entries: nat, powerAvailableRatio: real, peakHours: seq<int>,
    averageTemperature: Option<real>)

  datatype Summary = Summary(overall: Overall, locations: seq<LocationStats>)

  const EmptySummary := Summary(Overall(0, None), [])

  function CountPower(rs: seq<SeatingRecord>): (n: nat)
    ensures n <= |rs|
  {
    if rs == [] then 0 else CountPower(rs[..|rs| - 1]) + (if rs[|rs| - 1].powerPlugs then 1 else 0)
  }

  function SumTemperatures(rs: seq<SeatingRecord>): real {
    if rs == [] then 0.0 else SumTemperatures(rs[..|rs| - 1]) + rs[|rs| - 1].temperature
  }

  function SumDurations(rs: seq<SeatingRecord>): real {
    if rs == [] then 0.0 else SumDurations(rs[..|rs| - 1]) + DurationMinutes(rs[|rs| - 1])
  }

  function ArrivalHours(rs: seq<SeatingRecord>): (hs: seq<int>)
    ensures |hs| == |rs| && forall i :: 0 <= i < |rs| ==> hs[i] == Hour(rs[i].arrival)
  {
    seq(|rs|, i requires 0 <= i < |rs| => Hour(rs[i].arrival))
  }

  /** `min(r.arrival_time for r in records)`. */
  function FirstArrival(rs: seq<SeatingRecord>): (m: int)
    requires rs != []
    ensures forall i :: 0 <= i < |rs| ==> m <= rs[i].arrival
    ensures exists i :: 0 <= i < |rs| && m == rs[i].arrival
  {
    if |rs| == 1 then rs[0].arrival
    else
      var m := FirstArrival(rs[..|rs| - 1]);
      assert forall i :: 0 <= i < |rs| - 1 ==> rs[..|rs| - 1][i] == rs[i];
      if rs[|rs| - 1].arrival < m then rs[|rs| - 1].arrival else m
  }

  /** `max(r.leaving_time for r in records)`. */
  function LastLeaving(rs: seq<SeatingRecord>): (m: int)
    requires rs != []
    ensures forall i :: 0 <= i < |rs| ==> rs[i].leaving <= m
    ensures exists i :: 0 <= i < |rs| && m == rs[i].leaving
  {
    if |rs| == 1 then rs[0].leaving
    else
      var m := LastLeaving(rs[..|rs| - 1]);
      assert forall i :: 0 <= i < |rs| - 1 ==> rs[..|rs| - 1][i] == rs[i];
      if rs[|rs| - 1].leaving > m then rs[|rs| - 1].leaving else m
  }

  /** The statistics `summary` stores for one location, from that location's records. */
  function StatsOf(location: string, rs: seq<SeatingRecord>): LocationStats {
    var total := |rs|;
    LocationStats(location, total,
      if total != 0 then RoundTo(CountPower(rs) as real / total as real, 3) else 0.0,
      PeakHours(ArrivalHours(rs)),
      if rs != [] then Some(RoundTo(SumTemperatures(rs) / |rs| as real, 2)) else None)
  }

  function LocationOf(r: SeatingRecord): string {
    r.location
  }

  function NoHeader(r: SeatingRecord): () {
    ()
  }

  function Itself(r: SeatingRecord): SeatingRecord {
    r
  }

  /** The records of each location, locations in the order first met. */
  function ByLocation(records: seq<SeatingRecord>): seq<Group<(), SeatingRecord>> {
    GroupBy(records, LocationOf, NoHeader, Itself)
  }

  function AllStats(groups: seq<Group<(), SeatingRecord>>): (r: seq<LocationStats>)
    ensures |r| == |groups|
  {
    seq(|groups|, g requires 0 <= g < |groups| => StatsOf(groups[g].key, groups[g].items))
  }

  /** `summary()` over the loaded records. */
  function SummaryOf(records: seq<SeatingRecord>): (s: Summary)
    ensures records == [] ==> s == EmptySummary
    ensures s.overall.totalRecords == |records|
  {
    if records == [] then EmptySummary
    else
      Summary(
        Overall(|records|, Some(Details(FirstArrival(records), LastLeaving(records),
          RoundTo(SumDurations(records) / |records| as real, 2)))),
        AllStats(ByLocation(records)))
  }

  function SumEntries(stats: seq<LocationStats>): nat {
    if stats == [] then 0 else SumEntries(stats[..|stats| - 1]) + stats[|stats| - 1].entries
  }

  lemma {:induction false} SumEntriesAllStats(groups: seq<Group<(), SeatingRecord>>)
    ensures SumEntries(AllStats(groups)) == TotalItems(groups)
  {
    if groups != [] {
      var n := |groups| - 1;
      assert AllStats(groups)[..n] == AllStats(groups[..n]);
      SumEntriesAllStats(groups[..n]);
    }
  }

  /** The per-location entry counts add up to the number of records. */
  lemma EntriesSumToTotal(records: seq<SeatingRecord>)
    ensures SumEntries(SummaryOf(records).locations) == SummaryOf(records).overall.totalRecords
  {
    if records != [] {
      SumEntriesAllStats(ByLocation(records));
      GroupByTotal(records, LocationOf, NoHeader, Itself);
    }
  }

  /** Each location of the summary has at most three peak hours and a plug ratio in [0, 1]. */
  lemma LocationStatsBounds(records: seq<SeatingRecord>)
    ensures var ls := SummaryOf(records).locations;
      forall g :: 0 <= g < |ls| ==> |ls[g].peakHours| <= 3 && 0.0 <= ls[g].powerAvailableRatio <= 1.0
  {
    if records != [] {
      var groups := ByLocation(records);
      var ls := AllStats(groups);
      forall g | 0 <= g < |ls|
        ensures |ls[g].peakHours| <= 3 && 0.0 <= ls[g].powerAvailableRatio <= 1.0
      {
        StatsBounds(groups[g].key, groups[g].items);
      }
    }
  }

  lemma StatsBounds(location: string, rs: seq<SeatingRecord>)
    ensures |StatsOf(location, rs).peakHours| <= 3
    ensures 0.0 <= StatsOf(location, rs).powerAvailableRatio <= 1.0
  {
    PeakHoursDistinct(ArrivalHours(rs));
    if |rs| != 0 {
      var x := CountPower(rs) as real / |rs| as real;
      assert 0.0 <= x <= 1.0;
      RoundToBetween(x, 3, 0, 1);
    }
  }

  /** Every location of the summary is the location of some record. */
  lemma LocationsFromRecords(records: seq<SeatingRecord>)
    ensures var ls := SummaryOf(records).locations;
      forall g :: 0 <= g < |ls| ==> exists i :: 0 <= i < |records| && records[i].location == ls[g].location
  {
    if records != [] {
      GroupByHeaders(records, LocationOf, NoHeader, Itself);
    }
  }

  /** No location appears twice in the summary. */
  lemma LocationsDistinct(records: seq<SeatingRecord>)
    ensures var ls := SummaryOf(records).locations;
      forall g, h :: 0 <= g < h < |ls| ==> ls[g].location != ls[h].location
  {
    if records != [] {
      GroupByDistinct(records, LocationOf, NoHeader, Itself);
      var groups := ByLocation(records);
      assert DistinctKeys(groups);
    }
  }

  /** Every record's location has its statistics in the summary. */
  lemma LocationsCover(records: seq<SeatingRecord>)
    ensures var ls := SummaryOf(records).locations;
      forall i :: 0 <= i < |records| ==> exists g :: 0 <= g < |ls| && ls[g].location == records[i].location
  {
    if records != [] {
      var groups := ByLocation(records);
      var ls := AllStats(groups);
      GroupByCovers(records, LocationOf, NoHeader, Itself);
      forall i | 0 <= i < |records|
        ensures exists g :: 0 <= g < |ls| && ls[g].location == records[i].location
      {
        var g := KeyIndex(groups, LocationOf(records[i])).value;
        assert ls[g].location == records[i].location;
      }
    }
  }

  // ------------------------------------------------------------------
  // The service
  // ------------------------------------------------------------------

  /** `SeatingDataService`: the loaded records and the cached summary. */
  class SeatingDataService {
    const file: Option<seq<Row>>
    const parsers: Parsers
    var records: seq<SeatingRecord>
    var cached: Option<Summary>

    constructor(file: Option<seq<Row>>, parsers: Parsers)
      ensures this.file == file && this.parsers == parsers
      ensures records == [] && cached == None
    {
      this.file := file;
      this.parsers := parsers;
      records := [];
      cached := None;
    }

    /** `ensure_loaded`. */
    method EnsureLoaded() returns (err: Option<LoadError>)
      modifies this
      ensures Load(records, err) == LoadOutcome(old(records), file, parsers)
      ensures cached == old(cached)
    {
      err := None;
      if records != [] {
        return;
      }
      if file.None? {
        return Some(FileNotFound);
      }
      var rows := file.value;
      var i := 0;
      while i < |rows|
        invariant 0 <= i <= |rows|
        invariant forall k :: 0 <= k < i ==> ParseRow(rows[k], parsers).Ok?
        invariant records == Parsed(rows, parsers, i)
        invariant cached == old(cached)
      {
        var parsed := ParseRow(rows[i], parsers);
        if parsed.Err? {
          LoadRowsStopsAt(rows, parsers, i);
          return Some(parsed.error);
        }
        ParsedStep(rows, parsers, i);
        records := records + [parsed.value];
        i := i + 1;
      }
      LoadRowsAll(rows, parsers);
    }

    /** `get_recent_records`: the `records` property loads first, and its error propagates. */
    method GetRecentRecords(location: string, limit: int) returns (r: Result<seq<SeatingRecord>, LoadError>)
      modifies this
      ensures var l := LoadOutcome(old(records), file, parsers);
        records == l.records
        && r == if l.error.Some? then Err(l.error.value) else Ok(RecentOf(records, location, limit))
      ensures cached == old(cached)
    {
      var err := EnsureLoaded();
      if err.Some? {
        return Err(err.value);
      }
      r := Ok(RecentOf(records, location, limit));
    }

    /**
     * `summary`: a cached summary is returned unchanged; otherwise the
     * records are loaded (an error propagates and nothing is cached) and
     * the summary of the records is computed and cached.
     */
    method GetSummary() returns (r: Result<Summary, LoadError>)
      modifies this
      ensures old(cached).Some? ==> r == Ok(old(cached).value) && records == old(records) && cached == old(cached)
      ensures old(cached).None? ==>
        var l := LoadOutcome(old(records), file, parsers);
        records == l.records
        && (l.error.Some? ==> r == Err(l.error.value) && cached == None)
        && (l.error.None? ==> r == Ok(SummaryOf(records)) && cached == Some(SummaryOf(records)))
    {
      if cached.Some? {
        return Ok(cached.value);
      }
      var err := EnsureLoaded();
      if err.Some? {
        return Err(err.value);
      }
      if records == [] {
        cached := Some(EmptySummary);
        return Ok(EmptySummary);
      }
      var s := Summarise(records);
      cached := Some(s);
      r := Ok(s);
    }
  }

  /** Taking one more record files it under its location. */
  lemma ByLocationStep(records: seq<SeatingRecord>, i: nat)
    requires i < |records|
    ensures ByLocation(records[..i + 1])
      == AddItem(ByLocation(records[..i]), records[i].location, (), records[i])
  {
    assert records[..i + 1][..i] == records[..i];
  }

  /** The first loop of `summary`: each record filed under its location. */
  method GroupByLocation(records: seq<SeatingRecord>) returns (groups: seq<Group<(), SeatingRecord>>)
    ensures groups == ByLocation(records)
  {
    groups := [];
    var i := 0;
    while i < |records|
      invariant 0 <= i <= |records|
      invariant groups == ByLocation(records[..i])
    {
      ByLocationStep(records, i);
      groups := AddItem(groups, records[i].location, (), records[i]);
      i := i + 1;
    }
    assert records[..i] == records;
  }

  /** The second loop of `summary`: the statistics of each location, in order. */
  method StatsOfGroups(groups: seq<Group<(), SeatingRecord>>) returns (stats: seq<LocationStats>)
    ensures stats == AllStats(groups)
  {
    stats := [];
    var g := 0;
    while g < |groups|
      invariant 0 <= g <= |groups|
      invariant stats == AllStats(groups)[..g]
    {
      var st := StatsOf(groups[g].key, groups[g].items);
      AllStatsAt(groups, g);
      PrefixStep(AllStats(groups), g);
      stats := stats + [st];
      g := g + 1;
    }
  }

  lemma AllStatsAt(groups: seq<Group<(), SeatingRecord>>, g: nat)
    requires g < |groups|
    ensures AllStats(groups)[g] == StatsOf(groups[g].key, groups[g].items)
  {
  }

  lemma PrefixStep<T>(s: seq<T>, g: nat)
    requires g < |s|
    ensures s[..g + 1] == s[..g] + [s[g]]
  {
  }

  /** `summary` over loaded records: the overall figures and the statistics of each location. */
  method Summarise(records: seq<SeatingRecord>) returns (s: Summary)
    requires records != []
    ensures s == SummaryOf(records)
  {
    var groups := GroupByLocation(records);
    var stats := StatsOfGroups(groups);
    var overall := Overall(|records|, Some(Details(FirstArrival(records), LastLeaving(records),
      RoundTo(SumDurations(records) / |records| as real, 2))));
    s := Summary(overall, stats);
  }
}
