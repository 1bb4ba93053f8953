/**
 * Whether a lecture is running now, from its schedule text such as
 * "Monday 10:00–12:00", and the simulated live occupancy of its room
 * (frontend/src/utils/locationDataLecturers.ts). The clock and the random
 * draw are parameters.
 */
module LectureSchedule {
  import opened Wrappers
  import opened Strings

  const Days: seq<string> := ["Sunday", "Monday", "Tuesday", "Wednesday", "Thursday", "Friday", "Saturday"]

  /** The en dash between start and end times. */
  const RangeDash: char := '–'

  /** The local time: `getDay()` (Sunday = 0), `getHours()`, `getMinutes()`. */
  datatype Clock = Clock(weekday: nat, hours: nat, minutes: nat)

  predicate ValidClock(c: Clock) {
    c.weekday < 7 && c.hours < 24 && c.minutes < 60
  }

  /**
   * `Number(s)` on the decimal numerals a schedule holds: surrounding
   * whitespace is ignored, the empty string is 0, and `None` stands for NaN.
   * JavaScript's `Number` also reads signs, fractions, exponents and hex
   * prefixes; schedule times are plain digits, so here those give `None`.
   */
  function NumberOf(s: string): (r: Option<int>)
    ensures AllDigits(s) && s != [] ==> r == Some(DigitsValue(s))
  {
    StripKeepsDigits(s);
    NumeralValue(Strip(s))
  }

  lemma StripKeepsDigits(s: string)
    ensures AllDigits(s) && s != [] ==> Strip(s) == s
  {
    if AllDigits(s) && s != [] {
      assert IsDigit(s[0]) && IsDigit(s[|s| - 1]);
    }
  }

  /** The value of an already stripped numeral: empty is 0, non-digits are NaN. */
  function NumeralValue(t: string): Option<int> {
    if t == [] then Some(0)
    else if AllDigits(t) then Some(DigitsValue(t))
    else None
  }

  /** `toMinutes("H:M")` = 60·H + M; NaN (`None`) when either part is not a number. */
  function ToMinutes(t: string): Option<int> {
    var parts := Split(t, ':');
    var h := NumberOf(parts[0]);
    var m := if |parts| >= 2 then NumberOf(parts[1]) else None;
    if h.Some? && m.Some? then Some(h.value * 60 + m.value) else None
  }

  /** A time written as two digit strings around a colon is read as hours and minutes. */
  lemma ToMinutesDigits(hs: string, ms: string)
    requires hs != [] && ms != [] && AllDigits(hs) && AllDigits(ms)
    ensures ToMinutes(hs + ":" + ms).Some?
    ensures ToMinutes(hs + ":" + ms).value == 60 * DigitsValue(hs) + DigitsValue(ms)
  {
    NoColonInDigits(hs);
    NoColonInDigits(ms);
    SplitAround(hs, ':', ms);
    assert hs + ":" + ms == hs + [':'] + ms;
  }

  lemma NoColonInDigits(s: string)
    requires AllDigits(s)
    ensures ':' !in s
  {
  }

  /**
   * `isLectureOngoing`. The schedule is split at spaces into the day name
   * and the range, the range at the dash into start and end. With no space,
   * or no dash when the end is needed, the source throws: `Err`.
   */
  function IsLectureOngoing(schedule: string, now: Clock): (r: Result<bool, string>)
    requires ValidClock(now)
    ensures r.Ok? && r.value ==> Split(schedule, ' ')[0] == Days[now.weekday]
  {
    var parts := Split(schedule, ' ');
    if |parts| < 2 then
      Err("TypeError: timeRange is undefined")
    else
      var ends := Split(parts[1], RangeDash);
      if Days[now.weekday] != parts[0] then Ok(false)
      else
        var current := now.hours * 60 + now.minutes;
        var start := ToMinutes(ends[0]);
        if !(start.Some? && current >= start.value) then Ok(false)
        else if |ends| < 2 then
          Err("TypeError: end is undefined")
        else
          var end := ToMinutes(ends[1]);
          Ok(end.Some? && current <= end.value)
  }

  /**
   * The source throws only on a schedule with no space, or whose second
   * space-separated word has no dash.
   */
  lemma ErrOnlyWhenMalformed(schedule: string, now: Clock)
    requires ValidClock(now) && IsLectureOngoing(schedule, now).Err?
    ensures |Split(schedule, ' ')| < 2 ==> ' ' !in schedule
    ensures |Split(schedule, ' ')| >= 2 ==> RangeDash !in Split(schedule, ' ')[1]
  {
    var parts := Split(schedule, ' ');
    if |parts| < 2 {
      SplitNoSeparatorLength(schedule, ' ');
    } else {
      SplitNoSeparatorLength(parts[1], RangeDash);
    }
  }

  /** A string the separator splits into fewer than two pieces does not contain it. */
  lemma SplitNoSeparatorLength(s: string, c: char)
    requires |Split(s, c)| < 2
    ensures c !in s
  {
    SplitLength(s, c);
    if c in s {
      var i :| 0 <= i < |s| && s[i] == c;
      CountPositive(s, c, i);
    }
  }

  lemma {:induction false} CountPositive(s: string, c: char, i: nat)
    requires i < |s| && s[i] == c
    ensures Count(s, c) >= 1
  {
    if i > 0 {
      CountPositive(s[1..], c, i - 1);
    }
  }

  /** A schedule in the documented form: a day name, a space, and a range of two times. */
  function Schedule(day: string, sh: string, sm: string, eh: string, em: string): string {
    day + " " + (sh + ":" + sm + [RangeDash] + eh + ":" + em)
  }

  /**
   * For a schedule in the documented form, the lecture is on exactly when
   * today is its day and the time is between start and end, both included.
   */
  lemma OngoingIffInRange(day: string, sh: string, sm: string, eh: string, em: string, now: Clock)
    requires ValidClock(now) && ' ' !in day
    requires sh != [] && sm != [] && eh != [] && em != []
    requires AllDigits(sh) && AllDigits(sm) && AllDigits(eh) && AllDigits(em)
    ensures var start := 60 * DigitsValue(sh) + DigitsValue(sm);
      var end := 60 * DigitsValue(eh) + DigitsValue(em);
      var current := now.hours * 60 + now.minutes;
      IsLectureOngoing(Schedule(day, sh, sm, eh, em), now)
        == Ok(Days[now.weekday] == day && start <= current <= end)
  {
    var a, b := sh + ":" + sm, eh + ":" + em;
    var range := a + [RangeDash] + b;
    assert ' ' !in range && RangeDash !in a && RangeDash !in b by {
      assert forall i :: 0 <= i < |range| ==> IsDigit(range[i]) || range[i] == ':' || range[i] == RangeDash;
      assert forall i :: 0 <= i < |a| ==> IsDigit(a[i]) || a[i] == ':';
      assert forall i :: 0 <= i < |b| ==> IsDigit(b[i]) || b[i] == ':';
    }
    SplitAround(day, ' ', range);
    assert Schedule(day, sh, sm, eh, em) == day + [' '] + range;
    SplitAround(a, RangeDash, b);
    ToMinutesDigits(sh, sm);
    ToMinutesDigits(eh, em);
  }

  /** On any other day than the schedule's, the lecture is not on. */
  lemma OtherDayNotOngoing(day: string, range: string, now: Clock)
    requires ValidClock(now) && ' ' !in day && ' ' !in range && Days[now.weekday] != day
    ensures IsLectureOngoing(day + " " + range, now) == Ok(false)
  {
    SplitAround(day, ' ', range);
    assert day + " " + range == day + [' '] + range;
  }

  /**
   * `getLiveOccupancy`: `Math.floor(70 + Math.random() * 30)` while the
   * lecture is on, null otherwise; `draw` is the random number in [0, 1).
   */
  function LiveOccupancy(schedule: string, now: Clock, draw: real): (r: Result<Option<int>, string>)
    requires ValidClock(now) && 0.0 <= draw < 1.0
    ensures r.Ok? && r.value.Some? ==> 70 <= r.value.value <= 99
    ensures r.Ok? <==> IsLectureOngoing(schedule, now).Ok?
    ensures r.Ok? ==> (r.value.Some? <==> IsLectureOngoing(schedule, now).value)
  {
    var on := IsLectureOngoing(schedule, now);
    if on.Err? then Err(on.error)
    else if on.value then
      var v := (70.0 + draw * 30.0).Floor;
      assert 70.0 <= 70.0 + draw * 30.0 < 100.0;
      Ok(Some(v))
    else Ok(None)
  }
}
