/**
 * The admin dashboard (backend/app/api/admin.py): the admin guard, hourly
 * occupancy trends, the utilisation summary, the paged user listing and
 * the exported report. Times are whole seconds since the epoch; `now` is
 * the request's clock reading.
 */
module Admin {
  import opened Wrappers
  import opened Rounding
  import opened Sorting
  import opened Store
  import M = Models

  const AdminRequired := ApiError(Forbidden, "Admin access required")

  /** `require_admin`: 403 for every role but admin. */
  function RequireAdmin(user: User): (r: Result<User, ApiError>)
    ensures r.Ok? <==> user.role == Admin
    ensures r.Ok? ==> r.value == user
    ensures r.Err? ==> r.error == AdminRequired
  {
    if user.role != Admin then Err(AdminRequired) else Ok(user)
  }

  const SecondsPerHour: int := 3600
  const SecondsPerDay: int := 86400

  // ---------------------------------------------------------------
  // Hourly occupancy trends
  // ---------------------------------------------------------------

  /**
   * The hour a timestamp falls in, counted from the epoch. It stands for
   * the key `"%Y-%m-%d %H:00"`: two timestamps share a key exactly when
   * they share an hour, and the keys sort as the hours do.
   */
  function HourKey(timestamp: int): int {
    timestamp / SecondsPerHour
  }

  function InHour(hour: int): HistoryRecord -> bool {
    (h: HistoryRecord) => HourKey(h.timestamp) == hour
  }

  /** The query window: on or after `start`, and of the location when one is named. */
  function InWindow(start: int, locationId: Option<string>): HistoryRecord -> bool {
    (h: HistoryRecord) => h.timestamp >= start
      && (locationId.None? || locationId.value == "" || h.locationId == locationId.value)
  }

  /** `hourly_data` after the loop has seen `history`: the records of each hour, in order. */
  function Groups(history: seq<HistoryRecord>): map<int, seq<HistoryRecord>> {
    if history == [] then map[]
    else
      var g := Groups(history[..|history| - 1]);
      var r := history[|history| - 1];
      var k := HourKey(r.timestamp);
      g[k := (if k in g then g[k] else []) + [r]]
  }

  /** Each key of `hourly_data` is an hour some record falls in, and holds exactly that hour's records. */
  lemma {:induction false} GroupsExact(history: seq<HistoryRecord>)
    ensures forall k :: k in Groups(history) <==>
      exists i :: 0 <= i < |history| && HourKey(history[i].timestamp) == k
    ensures forall k :: k in Groups(history) ==> Groups(history)[k] == Filter(history, InHour(k))
    ensures forall k :: k in Groups(history) ==> |Groups(history)[k]| > 0
  {
    if history != [] {
      var init := history[..|history| - 1];
      var r := history[|history| - 1];
      assert history == init + [r];
      GroupsExact(init);
      var g := Groups(init);
      forall k | k in Groups(history)
        ensures Groups(history)[k] == Filter(history, InHour(k))
      {
        FilterAppend(init, [r], InHour(k));
        if k !in g {
          FilterNone(init, InHour(k));
        }
      }
      forall k
        ensures k in Groups(history) <==> exists i :: 0 <= i < |history| && HourKey(history[i].timestamp) == k
      {
        if k in g {
          var i :| 0 <= i < |init| && HourKey(init[i].timestamp) == k;
          assert history[i] == init[i];
        }
        if k == HourKey(r.timestamp) {
          assert history[|history| - 1] == r;
        }
        if exists i :: 0 <= i < |history| && HourKey(history[i].timestamp) == k {
          var i :| 0 <= i < |history| && HourKey(history[i].timestamp) == k;
          if i < |init| {
            assert init[i] == history[i];
          }
        }
      }
    }
  }

  /** The first loop of `get_occupancy_analytics`, filling `hourly_data` record by record. */
  method GroupByHour(history: seq<HistoryRecord>) returns (hourly: map<int, seq<HistoryRecord>>)
    ensures hourly == Groups(history)
  {
    hourly := map[];
    var i := 0;
    while i < |history|
      invariant 0 <= i <= |history|
      invariant hourly == Groups(history[..i])
    {
      var r := history[i];
      var k := HourKey(r.timestamp);
      assert history[..i + 1][..i] == history[..i];
      if k !in hourly {
        hourly := hourly[k := []];
      }
      hourly := hourly[k := hourly[k] + [r]];
      i := i + 1;
    }
    assert history[..|history|] == history;
  }

  function Sum(xs: seq<real>): real {
    if xs == [] then 0.0 else xs[0] + Sum(xs[1..])
  }

  /** `sum(xs) / len(xs)`. */
  function Mean(xs: seq<real>): real
    requires |xs| > 0
  {
    Sum(xs) / |xs| as real
  }

  lemma {:induction false} SumAbove(xs: seq<real>, c: real)
    requires forall i :: 0 <= i < |xs| ==> xs[i] > c
    requires |xs| > 0
    ensures Sum(xs) > |xs| as real * c
  {
    if |xs| > 1 {
      SumAbove(xs[1..], c);
    }
  }

  lemma {:induction false} SumBelow(xs: seq<real>, c: real)
    requires forall i :: 0 <= i < |xs| ==> xs[i] < c
    requires |xs| > 0
    ensures Sum(xs) < |xs| as real * c
  {
    if |xs| > 1 {
      SumBelow(xs[1..], c);
    }
  }

  /** The mean lies between the smallest and the largest value. */
  lemma MeanBetween(xs: seq<real>)
    requires |xs| > 0
    ensures exists i :: 0 <= i < |xs| && xs[i] <= Mean(xs)
    ensures exists j :: 0 <= j < |xs| && Mean(xs) <= xs[j]
  {
    var n := |xs| as real;
    assert n * Mean(xs) == Sum(xs);
    if forall i :: 0 <= i < |xs| ==> xs[i] > Mean(xs) {
      SumAbove(xs, Mean(xs));
    }
    if forall j :: 0 <= j < |xs| ==> xs[j] < Mean(xs) {
      SumBelow(xs, Mean(xs));
    }
  }

  /** The stored percentage of a history record. */
  function Percentage(h: HistoryRecord): real {
    M.RoundedPercentage(h.occupancyCount, h.totalCapacity)
  }

  function Percentages(g: seq<HistoryRecord>): (ps: seq<real>)
    ensures |ps| == |g|
  {
    seq(|g|, i requires 0 <= i < |g| => Percentage(g[i]))
  }

  function Counts(g: seq<HistoryRecord>): (cs: seq<real>)
    ensures |cs| == |g|
  {
    seq(|g|, i requires 0 <= i < |g| => g[i].occupancyCount as real)
  }

  /** One entry of `trends`. */
  datatype Trend = Trend(hour: int, averagePercentage: real, averageCount: real)

  /** The entry for one hour: both means rounded to 2 places. */
  function TrendOf(hour: int, g: seq<HistoryRecord>): Trend
    requires |g| > 0
  {
    Trend(hour, RoundTo(Mean(Percentages(g)), 2), RoundTo(Mean(Counts(g)), 2))
  }

  /** The least of some hours. */
  function Least(xs: seq<int>): (m: int)
    requires |xs| > 0
    ensures m in xs && forall x :: x in xs ==> m <= x
  {
    if |xs| == 1 then xs[0]
    else
      var m := Least(xs[1..]);
      assert xs == [xs[0]] + xs[1..];
      if xs[0] <= m then xs[0] else m
  }

  function Other(m: int): int -> bool {
    (x: int) => x != m
  }

  /** `sorted(...)` over the keys: each hour once, in increasing order. */
  function SortedDistinct(xs: seq<int>): (r: seq<int>)
    ensures forall k :: k in xs <==> k in r
    ensures forall i, j :: 0 <= i < j < |r| ==> r[i] < r[j]
    decreases |xs|
  {
    if xs == [] then []
    else
      var m := Least(xs);
      var rest := Filter(xs, Other(m));
      FilterShorter(xs, Other(m), m);
      forall k
        ensures k in rest <==> k in xs && k != m
      {
        if k in rest {
          FilterMember(xs, Other(m), k);
        }
        if k in xs && k != m {
          FilterKeeps(xs, Other(m), k);
        }
      }
      var sortedRest := SortedDistinct(rest);
      assert forall j :: 0 <= j < |sortedRest| ==> m < sortedRest[j] by {
        forall j | 0 <= j < |sortedRest|
          ensures m < sortedRest[j]
        {
          assert sortedRest[j] in rest;
        }
      }
      [m] + sortedRest
  }

  /** The hour of each record of the window, in order. */
  function HoursOf(w: seq<HistoryRecord>): (hs: seq<int>)
    ensures |hs| == |w| && forall i :: 0 <= i < |w| ==> hs[i] == HourKey(w[i].timestamp)
  {
    seq(|w|, i requires 0 <= i < |w| => HourKey(w[i].timestamp))
  }

  /** The hours of the window, each once, in increasing order. */
  function Hours(w: seq<HistoryRecord>): (hs: seq<int>)
    ensures forall i, j :: 0 <= i < j < |hs| ==> hs[i] < hs[j]
    ensures forall i :: 0 <= i < |w| ==> HourKey(w[i].timestamp) in hs
    ensures forall j :: 0 <= j < |hs| ==> |Filter(w, InHour(hs[j]))| > 0
  {
    var hs := SortedDistinct(HoursOf(w));
    forall i | 0 <= i < |w|
      ensures HourKey(w[i].timestamp) in hs
    {
      assert HoursOf(w)[i] in HoursOf(w);
    }
    forall j | 0 <= j < |hs|
      ensures |Filter(w, InHour(hs[j]))| > 0
    {
      assert hs[j] in HoursOf(w);
      var i :| 0 <= i < |w| && HoursOf(w)[i] == hs[j];
      FilterKeeps(w, InHour(hs[j]), w[i]);
    }
    hs
  }

  /** The trends of a window of history: the averages of each hour's records, by increasing hour. */
  function OccupancyTrends(w: seq<HistoryRecord>): (r: seq<Trend>)
    ensures forall j :: 0 <= j < |r| ==>
      |Filter(w, InHour(r[j].hour))| > 0 && r[j] == TrendOf(r[j].hour, Filter(w, InHour(r[j].hour)))
  {
    var hs := Hours(w);
    seq(|hs|, j requires 0 <= j < |hs| => TrendOf(hs[j], Filter(w, InHour(hs[j]))))
  }

  /** The trend entries come by strictly increasing hour. */
  lemma TrendHoursIncrease(w: seq<HistoryRecord>)
    ensures var r := OccupancyTrends(w);
      forall i, j :: 0 <= i < j < |r| ==> r[i].hour < r[j].hour
  {
    var hs := Hours(w);
    var r := OccupancyTrends(w);
    assert forall j :: 0 <= j < |r| ==> r[j].hour == hs[j];
  }

  /** Every hour some record of the window falls in has a trend entry. */
  lemma EveryHourHasTrend(w: seq<HistoryRecord>, i: nat)
    requires i < |w|
    ensures var r := OccupancyTrends(w);
      exists j :: 0 <= j < |r| && r[j].hour == HourKey(w[i].timestamp)
  {
    var hs := Hours(w);
    var r := OccupancyTrends(w);
    var j :| 0 <= j < |hs| && hs[j] == HourKey(w[i].timestamp);
    assert r[j].hour == hs[j];
  }

  /** Every trend entry is for an hour some record of the window falls in. */
  lemma EveryTrendHasRecords(w: seq<HistoryRecord>, j: nat)
    requires j < |OccupancyTrends(w)|
    ensures exists i :: 0 <= i < |w| && HourKey(w[i].timestamp) == OccupancyTrends(w)[j].hour
  {
    var hs := Hours(w);
    var g := Filter(w, InHour(hs[j]));
    FilterMember(w, InHour(hs[j]), g[0]);
    var i :| 0 <= i < |w| && w[i] == g[0];
  }

  /** `x` is `n / 100` for an integer `n`: a value already rounded to 2 places. */
  predicate Hundredths(x: real) {
    (x * 100.0).Floor as real == x * 100.0
  }

  lemma PercentageHundredths(h: HistoryRecord)
    ensures Hundredths(Percentage(h))
  {
    if h.totalCapacity != 0 {
      var n := RoundHalfUp(h.occupancyCount as real / h.totalCapacity as real * 100.0 * 100.0);
      assert Percentage(h) == n as real / 100.0;
      assert Percentage(h) * 100.0 == n as real;
    }
  }

  /** Rounding to 2 places a value between two 2-place values stays between them. */
  lemma RoundToBetweenHundredths(x: real, lo: real, hi: real)
    requires lo <= x <= hi && Hundredths(lo) && Hundredths(hi)
    ensures lo <= RoundTo(x, 2) <= hi
  {
    var a := (lo * 100.0).Floor;
    var b := (hi * 100.0).Floor;
    ScaleMonotone(lo, x, 100.0);
    ScaleMonotone(x, hi, 100.0);
    RoundHalfUpBetween(x * 100.0, a, b);
    var n := RoundHalfUp(x * 100.0);
    assert RoundTo(x, 2) == n as real / 100.0;
    DivideMonotone(a as real, n as real, 100.0);
    DivideMonotone(n as real, b as real, 100.0);
  }

  /** Both averages of an hour lie between the smallest and the largest value of its records. */
  lemma TrendBounds(hour: int, g: seq<HistoryRecord>)
    requires |g| > 0
    ensures var t := TrendOf(hour, g);
      (exists a :: a in g && a.occupancyCount as real <= t.averageCount)
      && (exists b :: b in g && t.averageCount <= b.occupancyCount as real)
      && (exists a :: a in g && Percentage(a) <= t.averagePercentage)
      && (exists b :: b in g && t.averagePercentage <= Percentage(b))
  {
    var cs := Counts(g);
    MeanBetween(cs);
    var ca :| 0 <= ca < |cs| && cs[ca] <= Mean(cs);
    var cb :| 0 <= cb < |cs| && Mean(cs) <= cs[cb];
    RoundToBetween(Mean(cs), 2, g[ca].occupancyCount, g[cb].occupancyCount);
    assert g[ca] in g && g[cb] in g;
    var ps := Percentages(g);
    MeanBetween(ps);
    var pa :| 0 <= pa < |ps| && ps[pa] <= Mean(ps);
    var pb :| 0 <= pb < |ps| && Mean(ps) <= ps[pb];
    PercentageHundredths(g[pa]);
    PercentageHundredths(g[pb]);
    RoundToBetweenHundredths(Mean(ps), ps[pa], ps[pb]);
    assert g[pa] in g && g[pb] in g;
  }

  /**
   * Each average of `get_occupancy_analytics` averages exactly the
   * window's records of its hour, and lies between the smallest and the
   * largest value among them.
   */
  lemma TrendWithinRange(w: seq<HistoryRecord>, i: nat)
    requires i < |OccupancyTrends(w)|
    ensures var t := OccupancyTrends(w)[i];
      t == TrendOf(t.hour, Filter(w, InHour(t.hour)))
      && (exists a :: a in w && HourKey(a.timestamp) == t.hour && a.occupancyCount as real <= t.averageCount)
      && (exists b :: b in w && HourKey(b.timestamp) == t.hour && t.averageCount <= b.occupancyCount as real)
      && (exists a :: a in w && HourKey(a.timestamp) == t.hour && Percentage(a) <= t.averagePercentage)
      && (exists b :: b in w && HourKey(b.timestamp) == t.hour && t.averagePercentage <= Percentage(b))
  {
    var t := OccupancyTrends(w)[i];
    var g := Filter(w, InHour(t.hour));
    TrendBounds(t.hour, g);
    forall x | x in g
      ensures x in w && HourKey(x.timestamp) == t.hour
    {
      FilterMember(w, InHour(t.hour), x);
    }
  }

  /** An hour with records in the window has its group in `hourly_data`. */
  lemma HourlyGroup(w: seq<HistoryRecord>, k: int)
    requires |Filter(w, InHour(k))| > 0
    ensures k in Groups(w) && Groups(w)[k] == Filter(w, InHour(k))
  {
    GroupsExact(w);
    var x := Filter(w, InHour(k))[0];
    FilterMember(w, InHour(k), x);
    var i :| 0 <= i < |w| && w[i] == x;
  }

  /** The second loop of `get_occupancy_analytics`: the averages of each group, in the order of `hours`. */
  function TrendsOver(hourly: map<int, seq<HistoryRecord>>, hours: seq<int>): (r: seq<Trend>)
    requires forall i :: 0 <= i < |hours| ==> hours[i] in hourly && |hourly[hours[i]]| > 0
  {
    seq(|hours|, i requires 0 <= i < |hours| => TrendOf(hours[i], hourly[hours[i]]))
  }

  /** Averaging the groups of `hourly_data` by increasing hour gives the trends of the window. */
  lemma TrendsOverGroups(w: seq<HistoryRecord>)
    ensures forall i :: 0 <= i < |Hours(w)| ==> Hours(w)[i] in Groups(w) && |Groups(w)[Hours(w)[i]]| > 0
    ensures TrendsOver(Groups(w), Hours(w)) == OccupancyTrends(w)
  {
    var hs := Hours(w);
    forall i | 0 <= i < |hs|
      ensures hs[i] in Groups(w) && Groups(w)[hs[i]] == Filter(w, InHour(hs[i]))
    {
      HourlyGroup(w, hs[i]);
    }
  }

  /** The reply of `get_occupancy_analytics`. */
  datatype Analytics = Analytics(periodDays: int, startDate: int, endDate: int, trends: seq<Trend>)

  /**
   * `get_occupancy_analytics` for `days` in [1, 90]: the trends over the
   * records of the last `days` days, of one location when one is named.
   * It groups the records by hour in one loop, then averages each group
   * by increasing hour.
   */
  method OccupancyAnalytics(history: seq<HistoryRecord>, locationId: Option<string>, days: int, now: int)
    returns (a: Analytics)
    requires 1 <= days <= 90
    ensures a.periodDays == days && a.startDate == now - days * SecondsPerDay && a.endDate == now
    ensures a.trends == OccupancyTrends(Filter(history, InWindow(a.startDate, locationId)))
  {
    var start := now - days * SecondsPerDay;
    var w := Filter(history, InWindow(start, locationId));
    var hourly := GroupByHour(w);
    TrendsOverGroups(w);
    var trends := TrendsOver(hourly, Hours(w));
    a := Analytics(days, start, now, trends);
  }

  // ---------------------------------------------------------------
  // Utilisation
  // ---------------------------------------------------------------

  function SeatStatusIs(status: SeatStatus): Seat -> bool {
    (s: Seat) => s.status == status
  }

  function CountSeats(seats: seq<Seat>, status: SeatStatus): (n: nat)
    ensures n <= |seats|
  {
    |Filter(seats, SeatStatusIs(status))|
  }

  /** Every seat has exactly one of the five statuses. */
  lemma {:induction false} SeatStatusesPartition(seats: seq<Seat>)
    ensures CountSeats(seats, Occupied) + CountSeats(seats, Available) + CountSeats(seats, Reserved)
      + CountSeats(seats, Maintenance) + CountSeats(seats, Blocked) == |seats|
  {
    if seats != [] {
      SeatStatusesPartition(seats[1..]);
    }
  }

  function ReservationStatusIs(status: M.ReservationStatus): Reservation -> bool {
    (r: Reservation) => r.status == status
  }

  function CountReservations(rs: seq<Reservation>, status: M.ReservationStatus): (n: nat)
    ensures n <= |rs|
  {
    |Filter(rs, ReservationStatusIs(status))|
  }

  /** Every reservation has exactly one of the six statuses. */
  lemma {:induction false} ReservationStatusesPartition(rs: seq<Reservation>)
    ensures CountReservations(rs, M.Pending) + CountReservations(rs, M.Confirmed)
      + CountReservations(rs, M.Active) + CountReservations(rs, M.Completed)
      + CountReservations(rs, M.Cancelled) + CountReservations(rs, M.NoShow) == |rs|
  {
    if rs != [] {
      ReservationStatusesPartition(rs[1..]);
    }
  }

  function ActiveReservation(): Reservation -> bool {
    (r: Reservation) => M.IsActive(r.status)
  }

  function UserStatusIs(status: UserStatus): User -> bool {
    (u: User) => u.status == status
  }

  datatype SeatSummary = SeatSummary(total: nat, occupied: nat, available: nat, reserved: nat, overallPercentage: real)
  datatype LocationStat = LocationStat(locationId: string, name: string, totalCapacity: int, currentOccupancy: int, busyness: real)
  datatype Utilization = Utilization(
    seats: SeatSummary, totalReservations: nat, activeReservations: nat,
    totalUsers: nat, activeUsers: nat, locations: seq<LocationStat>)

  function LocationStatOf(l: Location): LocationStat {
    LocationStat(l.id, l.name, l.totalCapacity, l.currentOccupancy,
                 M.LocationBusyness(M.Location(l.totalCapacity, l.currentOccupancy)))
  }

  /**
   * `get_utilization_stats`: the seat counts by status, which never add up
   * to more than the total; the overall percentage, the occupied share
   * rounded to two places, 0 with no seats and otherwise in [0, 100]; the
   * active reservations (confirmed or active); the users whose status is
   * active; and one entry per location, in table order.
   */
  function UtilizationStats(seats: seq<Seat>, reservations: seq<Reservation>, users: seq<User>, locations: seq<Location>)
    : (u: Utilization)
    ensures u.seats.total == |seats|
    ensures u.seats.occupied + u.seats.available + u.seats.reserved <= u.seats.total
    ensures u.seats.total == 0 ==> u.seats.overallPercentage == 0.0
    ensures 0.0 <= u.seats.overallPercentage <= 100.0
    ensures u.activeReservations == CountReservations(reservations, M.Confirmed) + CountReservations(reservations, M.Active)
    ensures u.activeReservations <= u.totalReservations == |reservations|
    ensures u.activeUsers <= u.totalUsers == |users|
    ensures u.seats.occupied == CountSeats(seats, Occupied)
    ensures u.seats.available == CountSeats(seats, Available)
    ensures u.seats.reserved == CountSeats(seats, Reserved)
    ensures u.seats.overallPercentage == M.RoundedPercentage(CountSeats(seats, Occupied), |seats|)
    ensures u.activeUsers == |Filter(users, UserStatusIs(UserActive))|
    ensures |u.locations| == |locations|
      && forall i :: 0 <= i < |locations| ==> u.locations[i] == LocationStatOf(locations[i])
  {
    var occupied := CountSeats(seats, Occupied);
    var available := CountSeats(seats, Available);
    var reserved := CountSeats(seats, Reserved);
    SeatStatusesPartition(seats);
    OverallInRange(occupied, |seats|);
    ActiveCount(reservations);
    Utilization(
      SeatSummary(|seats|, occupied, available, reserved, M.RoundedPercentage(occupied, |seats|)),
      |reservations|, |Filter(reservations, ActiveReservation())|,
      |users|, |Filter(users, UserStatusIs(UserActive))|,
      seq(|locations|, i requires 0 <= i < |locations| => LocationStatOf(locations[i])))
  }

  lemma OverallInRange(occupied: nat, total: nat)
    requires occupied <= total
    ensures 0.0 <= M.RoundedPercentage(occupied, total) <= 100.0
  {
    if total > 0 {
      M.PercentageInRange(occupied, total);
    }
  }

  /** A reservation counts as active when it is confirmed or active. */
  lemma {:induction false} ActiveCount(rs: seq<Reservation>)
    ensures |Filter(rs, ActiveReservation())| == CountReservations(rs, M.Confirmed) + CountReservations(rs, M.Active)
  {
    if rs != [] {
      ActiveCount(rs[1..]);
    }
  }

  // ---------------------------------------------------------------
  // Users
  // ---------------------------------------------------------------

  /** An entry of the user listing; the password hash is not among its fields. */
  datatype UserSummary = UserSummary(
    id: string, email: string, name: string, studentId: Option<string>, role: UserRole, status: UserStatus)

  function SummaryOf(u: User): UserSummary {
    UserSummary(u.id, u.email, u.name, u.studentId, u.role, u.status)
  }

  datatype UserPage = UserPage(total: nat, users: seq<UserSummary>)

  /**
   * `get_all_users` for `skip` >= 0 and `limit` in [1, 1000]: at most
   * `limit` users starting after the first `skip`, and a total that counts
   * every user whatever the page.
   */
  function UsersPage(users: seq<User>, skip: nat, limit: nat): (p: UserPage)
    requires 1 <= limit <= 1000
    ensures p.total == |users|
    ensures |p.users| == if skip >= |users| then 0 else if |users| - skip < limit then |users| - skip else limit
    ensures forall i :: 0 <= i < |p.users| ==> p.users[i] == SummaryOf(users[skip + i])
  {
    var rest := if skip >= |users| then [] else users[skip..];
    var page := Take(rest, limit);
    UserPage(|users|, seq(|page|, i requires 0 <= i < |page| => SummaryOf(page[i])))
  }

  // ---------------------------------------------------------------
  // Report export
  // ---------------------------------------------------------------

  datatype ReservationSummary = ReservationSummary(
    total: nat, confirmed: nat, active: nat, completed: nat, cancelled: nat, noShow: nat)

  datatype HistoryEntry = HistoryEntry(
    timestamp: int, locationId: string, occupancyCount: int, totalCapacity: int, occupancyPercentage: real)

  datatype ReportData = ReportData(
    generatedAt: int, periodDays: int, startDate: int, endDate: int,
    occupancyRecords: nat, totalReservations: nat,
    occupancyData: seq<HistoryEntry>, reservationSummary: ReservationSummary)

  datatype ReportFormat = Json | Csv

  /** The reply: the report itself, or for CSV the report wrapped with a notice. */
  datatype Export = JsonReport(data: ReportData) | CsvReport(format: string, message: string, data: ReportData)

  const CsvNotice := "CSV export not yet implemented. Use JSON format."

  function Since(start: int): HistoryRecord -> bool {
    (h: HistoryRecord) => h.timestamp >= start
  }

  function CreatedSince(start: int): Reservation -> bool {
    (r: Reservation) => r.createdAt >= start
  }

  /** `order_by(OccupancyHistory.timestamp)`. */
  function NotLater(): (HistoryRecord, HistoryRecord) -> bool {
    (a: HistoryRecord, b: HistoryRecord) => a.timestamp <= b.timestamp
  }

  /** The history of the window, oldest first. */
  function WindowByTime(history: seq<HistoryRecord>, start: int): (w: seq<HistoryRecord>)
    ensures |w| == |Filter(history, Since(start))|
    ensures forall i, j :: 0 <= i < j < |w| ==> w[i].timestamp <= w[j].timestamp
    ensures forall i :: 0 <= i < |w| ==> w[i].timestamp >= start
    ensures multiset(w) == multiset(Filter(history, Since(start)))
  {
    var f := Filter(history, Since(start));
    var w := SortBy(f, NotLater());
    SortBySorted(f, NotLater());
    assert |w| == |f| by {
      assert |multiset(w)| == |multiset(f)|;
    }
    assert forall i :: 0 <= i < |w| ==> w[i] in multiset(f);
    w
  }

  function EntryOf(h: HistoryRecord): HistoryEntry {
    HistoryEntry(h.timestamp, h.locationId, h.occupancyCount, h.totalCapacity, Percentage(h))
  }

  /** One report entry per record, in the same order and with the same timestamps. */
  function EntriesOf(w: seq<HistoryRecord>): (r: seq<HistoryEntry>)
    ensures |r| == |w|
    ensures forall i :: 0 <= i < |w| ==> r[i] == EntryOf(w[i]) && r[i].timestamp == w[i].timestamp
  {
    seq(|w|, i requires 0 <= i < |w| => EntryOf(w[i]))
  }

  function SummaryOfReservations(rs: seq<Reservation>): (s: ReservationSummary)
    ensures s.total == |rs|
    ensures s.confirmed == CountReservations(rs, M.Confirmed) && s.active == CountReservations(rs, M.Active)
    ensures s.completed == CountReservations(rs, M.Completed) && s.cancelled == CountReservations(rs, M.Cancelled)
    ensures s.noShow == CountReservations(rs, M.NoShow)
    ensures s.confirmed + s.active + s.completed + s.cancelled + s.noShow
      == s.total - CountReservations(rs, M.Pending)
  {
    ReservationStatusesPartition(rs);
    ReservationSummary(|rs|, CountReservations(rs, M.Confirmed), CountReservations(rs, M.Active),
                       CountReservations(rs, M.Completed), CountReservations(rs, M.Cancelled),
                       CountReservations(rs, M.NoShow))
  }

  /**
   * The report of `export_analytics_report` for `days` in [1, 365]: the
   * history of the window oldest first, one entry per record, and the
   * reservations created in the window counted by status (pending ones are
   * in the total only).
   */
  function Report(history: seq<HistoryRecord>, reservations: seq<Reservation>, days: int, now: int): (d: ReportData)
    requires 1 <= days <= 365
    ensures d.startDate == now - days * SecondsPerDay && d.endDate == now && d.periodDays == days
    ensures d.occupancyRecords == |d.occupancyData|
      == |Filter(history, Since(now - days * SecondsPerDay))|
    ensures forall i, j :: 0 <= i < j < |d.occupancyData| ==> d.occupancyData[i].timestamp <= d.occupancyData[j].timestamp
    ensures forall i :: 0 <= i < |d.occupancyData| ==> d.occupancyData[i].timestamp >= d.startDate
    ensures d.occupancyData == EntriesOf(WindowByTime(history, d.startDate))
    ensures d.reservationSummary == SummaryOfReservations(Filter(reservations, CreatedSince(d.startDate)))
    ensures d.totalReservations == d.reservationSummary.total
      == |Filter(reservations, CreatedSince(now - days * SecondsPerDay))|
    ensures d.reservationSummary.confirmed + d.reservationSummary.active + d.reservationSummary.completed
      + d.reservationSummary.cancelled + d.reservationSummary.noShow <= d.totalReservations
  {
    var start := now - days * SecondsPerDay;
    var sorted := WindowByTime(history, start);
    var rs := Filter(reservations, CreatedSince(start));
    ReportData(now, days, start, now, |sorted|, |rs|, EntriesOf(sorted), SummaryOfReservations(rs))
  }

  /** `export_analytics_report`: CSV requests get the same report, wrapped. */
  function ExportReport(format: ReportFormat, history: seq<HistoryRecord>, reservations: seq<Reservation>, days: int, now: int)
    : (e: Export)
    requires 1 <= days <= 365
    ensures e.data == Report(history, reservations, days, now)
    ensures e.CsvReport? <==> format == Csv
    ensures e.CsvReport? ==> e.format == "csv" && e.message == CsvNotice
  {
    var data := Report(history, reservations, days, now);
    if format == Csv then CsvReport("csv", CsvNotice, data) else JsonReport(data)
  }
}
