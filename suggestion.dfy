/**
 * Seat suggestions (backend/app/services/suggestion_service.py): the
 * available seats that pass the request's floor and type filters are
 * scored against its needs, ranked by score, highest first, and the best
 * `limit` of them returned with a rationale.
 *
 * Scores are kept in whole tenths (the source's 1.0 is 10, its 0.2 is 2),
 * so they are exact.
 */
module Suggestion {
  import opened Wrappers
  import opened Sorting
  import opened Strings
  import opened Store

  /** A `SeatSuggestionRequest`; pydantic keeps `limit` in [1, 10]. */
  datatype Request = Request(
    floorId: Option<string>, seatType: Option<SeatType>,
    needPower: Option<bool>, needWifi: Option<bool>, needAc: Option<bool>, limit: nat)

  /** The default request (every field left out): `limit` 3 and no filter. */
  const DefaultRequest := Request(None, None, None, None, None, 3)

  /** A `_ScoredSeat`: the seat, its score in tenths and the reasons for it. */
  datatype Scored = Scored(seat: Seat, score: int, parts: seq<string>)

  /** A `SeatSuggestionItem`. */
  datatype Item = Item(
    seatId: string, seatNumber: string, floorId: string, seatType: SeatType,
    hasPowerOutlet: bool, hasWifi: bool, hasAc: bool, accessibility: bool, rationale: string)

  const Baseline := 10
  const NoReason := "Good match"

  /** The query: available seats, of the floor when one is named, of the type when one is given. */
  function Eligible(req: Request): Seat -> bool {
    (s: Seat) => s.status == Available
      && (req.floorId.None? || req.floorId.value == "" || s.floorId == req.floorId.value)
      && (req.seatType.None? || s.seatType == req.seatType.value)
  }

  /**
   * One feature: a need of True rejects a seat without the feature and
   * rewards one with it; a need of False rewards the feature a little; no
   * need leaves the score alone.
   */
  function FeatureGain(need: Option<bool>, has: bool, required: nat, optional: nat,
                       requiredReason: string, optionalReason: string): (g: Option<(nat, seq<string>)>)
    requires required > 0 && optional > 0
    ensures g.None? <==> need == Some(true) && !has
    ensures g.Some? ==> |g.value.1| <= 1 && (g.value.0 == 0 <==> g.value.1 == [])
    ensures need.None? ==> g == Some((0, []))
  {
    if need == Some(true) then
      if !has then None else Some((required, [requiredReason]))
    else if need == Some(false) && has then Some((optional, [optionalReason]))
    else Some((0, []))
  }

  function PowerGain(seat: Seat, req: Request): Option<(nat, seq<string>)> {
    FeatureGain(req.needPower, seat.hasPowerOutlet, 20, 2, "Has power outlet", "Optional power outlet")
  }

  function WifiGain(seat: Seat, req: Request): Option<(nat, seq<string>)> {
    FeatureGain(req.needWifi, seat.hasWifi, 10, 1, "Wi-Fi ready", "Optional Wi-Fi")
  }

  function AcGain(seat: Seat, req: Request): Option<(nat, seq<string>)> {
    FeatureGain(req.needAc, seat.hasAc, 5, 1, "Air-conditioned", "Optional AC")
  }

  /** Room for more than one person: +0.3. */
  function CapacityGain(seat: Seat): (nat, seq<string>) {
    if seat.capacity > 1 then (3, ["Capacity for " + IntToString(seat.capacity)]) else (0, [])
  }

  /** Accessibility: +0.2. */
  function AccessibilityGain(seat: Seat): (nat, seq<string>) {
    if seat.accessibility then (2, ["Accessibility-friendly"]) else (0, [])
  }

  /**
   * `_evaluate`: no score for a seat lacking a feature the request needs;
   * otherwise the baseline plus the gains of the five features, with one
   * reason per gain, in the order power, Wi-Fi, AC, capacity, accessibility.
   */
  function Evaluate(seat: Seat, req: Request): (r: Option<Scored>)
    ensures r.None? <==>
      (req.needPower == Some(true) && !seat.hasPowerOutlet)
      || (req.needWifi == Some(true) && !seat.hasWifi)
      || (req.needAc == Some(true) && !seat.hasAc)
    ensures r.Some? ==> r.value.seat == seat && Baseline <= r.value.score <= 50
    ensures r.Some? ==> (r.value.score == Baseline <==> r.value.parts == [])
    ensures r.Some? ==> |r.value.parts| <= 5
  {
    var p, w, a := PowerGain(seat, req), WifiGain(seat, req), AcGain(seat, req);
    if p.None? || w.None? || a.None? then None
    else
      var c, x := CapacityGain(seat), AccessibilityGain(seat);
      Some(Scored(seat, Baseline + p.value.0 + w.value.0 + a.value.0 + c.0 + x.0,
                  p.value.1 + w.value.1 + a.value.1 + c.1 + x.1))
  }

  /**
   * One `if request.need_… is True: … elif … is False and …:` block of
   * `_evaluate`: `ok` is false when the seat must be rejected; otherwise
   * the gain is added to the score and its reason appended.
   */
  method ApplyFeature(score: int, rationale: seq<string>, need: Option<bool>, has: bool,
                      required: nat, optional: nat, requiredReason: string, optionalReason: string)
    returns (ok: bool, score': int, rationale': seq<string>)
    requires required > 0 && optional > 0
    ensures ok <==> FeatureGain(need, has, required, optional, requiredReason, optionalReason).Some?
    ensures ok ==> var g := FeatureGain(need, has, required, optional, requiredReason, optionalReason).value;
      score' == score + g.0 && rationale' == rationale + g.1
  {
    ok, score', rationale' := true, score, rationale;
    if need == Some(true) {
      if !has {
        return false, score, rationale;
      }
      score' := score + required;
      rationale' := rationale + [requiredReason];
    } else if need == Some(false) && has {
      score' := score + optional;
      rationale' := rationale + [optionalReason];
    }
  }

  /** `_evaluate` as written: the score and the reasons are built up one feature at a time. */
  method EvaluateSeat(seat: Seat, req: Request) returns (r: Option<Scored>)
    ensures r == Evaluate(seat, req)
  {
    var ok, score, rationale := true, Baseline, [];
    ok, score, rationale := ApplyFeature(score, rationale, req.needPower, seat.hasPowerOutlet,
                                         20, 2, "Has power outlet", "Optional power outlet");
    if !ok {
      return None;
    }
    assert rationale == PowerGain(seat, req).value.1;
    ok, score, rationale := ApplyFeature(score, rationale, req.needWifi, seat.hasWifi,
                                         10, 1, "Wi-Fi ready", "Optional Wi-Fi");
    if !ok {
      return None;
    }
    ok, score, rationale := ApplyFeature(score, rationale, req.needAc, seat.hasAc,
                                         5, 1, "Air-conditioned", "Optional AC");
    if !ok {
      return None;
    }
    ghost var before := rationale;
    assert before == PowerGain(seat, req).value.1 + WifiGain(seat, req).value.1 + AcGain(seat, req).value.1;
    if seat.capacity > 1 {
      score := score + 3;
      rationale := rationale + ["Capacity for " + IntToString(seat.capacity)];
    }
    if seat.accessibility {
      score := score + 2;
      rationale := rationale + ["Accessibility-friendly"];
    }
    assert rationale == before + CapacityGain(seat).1 + AccessibilityGain(seat).1;
    r := Some(Scored(seat, score, rationale));
  }

  /** Whether a seat has a feature is irrelevant to its score when the request leaves that need unset. */
  lemma UnsetNeedsIgnored(seat: Seat, req: Request, power: bool, wifi: bool, ac: bool)
    requires req.needPower.None? && req.needWifi.None? && req.needAc.None?
    ensures Evaluate(seat.(hasPowerOutlet := power, hasWifi := wifi, hasAc := ac), req) == Some(Scored(seat.(hasPowerOutlet := power, hasWifi := wifi, hasAc := ac), Evaluate(seat, req).value.score, Evaluate(seat, req).value.parts))
  {
  }

  /** Needing power adds exactly 2.0 over not asking, for a seat that has an outlet. */
  lemma NeedPowerBonus(seat: Seat, req: Request)
    requires req.needPower.None? && seat.hasPowerOutlet && Evaluate(seat, req).Some?
    ensures Evaluate(seat, req.(needPower := Some(true))).Some?
    ensures Evaluate(seat, req.(needPower := Some(true))).value.score == Evaluate(seat, req).value.score + 20
  {
  }

  /** Every reason is longer than "Good match". */
  lemma PartsLonger(seat: Seat, req: Request)
    requires Evaluate(seat, req).Some?
    ensures forall k :: 0 <= k < |Evaluate(seat, req).value.parts| ==> |Evaluate(seat, req).value.parts[k]| > |NoReason|
  {
  }

  lemma JoinStartsWithFirst(parts: seq<string>, sep: string)
    requires parts != []
    ensures |Join(parts, sep)| >= |parts[0]|
  {
  }

  /** The rationale shown for a scored seat. */
  function Rationale(parts: seq<string>): string {
    if parts == [] then NoReason else Join(parts, "; ")
  }

  /** The rationale is "Good match" exactly for a seat that earned nothing above the baseline. */
  lemma GoodMatchIffBaseline(seat: Seat, req: Request)
    requires Evaluate(seat, req).Some?
    ensures Rationale(Evaluate(seat, req).value.parts) == NoReason <==> Evaluate(seat, req).value.score == Baseline
  {
    var parts := Evaluate(seat, req).value.parts;
    if parts != [] {
      PartsLonger(seat, req);
      JoinStartsWithFirst(parts, "; ");
    }
  }

  function ItemOf(s: Scored): (i: Item)
    ensures i.seatId == s.seat.id && i.rationale == Rationale(s.parts)
  {
    Item(s.seat.id, s.seat.seatNumber, s.seat.floorId, s.seat.seatType,
         s.seat.hasPowerOutlet, s.seat.hasWifi, s.seat.hasAc, s.seat.accessibility, Rationale(s.parts))
  }

  /** The scored seats among `seats`, in their order, leaving out the rejected ones. */
  function ScoredOf(seats: seq<Seat>, req: Request): (r: seq<Scored>)
    ensures |r| <= |seats|
  {
    if seats == [] then []
    else
      ScoredOf(seats[..|seats| - 1], req)
        + (match Evaluate(seats[|seats| - 1], req) case Some(x) => [x] case None => [])
  }

  /** A score no smaller may come first: `sort(key=score, reverse=True)`. */
  function ByScore(a: Scored, b: Scored): bool {
    a.score >= b.score
  }

  lemma ByScoreTotalPreorder()
    ensures TotalPreorder(ByScore)
  {
  }

  /** The ranked suggestions before they are turned into items. */
  function Ranked(seats: seq<Seat>, req: Request): (r: seq<Scored>)
    ensures |r| == Min(req.limit, |ScoredOf(Filter(seats, Eligible(req)), req)|)
  {
    Take(SortBy(ScoredOf(Filter(seats, Eligible(req)), req), ByScore), req.limit)
  }

  function Min(a: int, b: int): int {
    if a < b then a else b
  }

  /** `suggest`: the items of the ranked suggestions. */
  function Suggest(seats: seq<Seat>, req: Request): (r: seq<Item>)
    ensures |r| <= req.limit
    ensures |r| == |Ranked(seats, req)|
    ensures forall k :: 0 <= k < |r| ==> r[k] == ItemOf(Ranked(seats, req)[k])
  {
    var ranked := Ranked(seats, req);
    seq(|ranked|, k requires 0 <= k < |ranked| => ItemOf(ranked[k]))
  }

  /** Each scored seat is an evaluation of one of the seats. */
  lemma {:induction false} ScoredOfMember(seats: seq<Seat>, req: Request, x: Scored)
    requires x in ScoredOf(seats, req)
    ensures x.seat in seats && Evaluate(x.seat, req) == Some(x)
  {
    var init := seats[..|seats| - 1];
    if x in ScoredOf(init, req) {
      ScoredOfMember(init, req, x);
    }
  }

  /** Each seat that is not rejected is scored. */
  lemma {:induction false} ScoredOfComplete(seats: seq<Seat>, req: Request, s: Seat)
    requires s in seats && Evaluate(s, req).Some?
    ensures Evaluate(s, req).value in ScoredOf(seats, req)
  {
    var init := seats[..|seats| - 1];
    if s != seats[|seats| - 1] {
      assert s in init by {
        var k :| 0 <= k < |seats| && seats[k] == s;
        assert init[k] == s;
      }
      ScoredOfComplete(init, req, s);
    }
  }

  /**
   * Every suggestion is an available seat from the list that passes the
   * floor and type filters and has every feature the request needs, with
   * the score `_evaluate` gives it.
   */
  lemma SuggestionsQualify(seats: seq<Seat>, req: Request, k: nat)
    requires k < |Ranked(seats, req)|
    ensures var x := Ranked(seats, req)[k];
      x.seat in seats && Eligible(req)(x.seat) && Evaluate(x.seat, req) == Some(x)
      && (req.needPower == Some(true) ==> x.seat.hasPowerOutlet)
      && (req.needWifi == Some(true) ==> x.seat.hasWifi)
      && (req.needAc == Some(true) ==> x.seat.hasAc)
  {
    var cands := Filter(seats, Eligible(req));
    var sorted := SortBy(ScoredOf(cands, req), ByScore);
    var x := sorted[k];
    assert x in multiset(sorted);
    ScoredOfMember(cands, req, x);
    FilterMember(seats, Eligible(req), x.seat);
  }

  /** The suggestions are in non-increasing score order. */
  lemma RankedByScore(seats: seq<Seat>, req: Request)
    ensures forall i, j :: 0 <= i < j < |Ranked(seats, req)| ==> Ranked(seats, req)[i].score >= Ranked(seats, req)[j].score
  {
    ByScoreTotalPreorder();
    SortBySorted(ScoredOf(Filter(seats, Eligible(req)), req), ByScore);
  }

  function HasScore(c: int): Scored -> bool {
    (x: Scored) => x.score == c
  }

  /** Seats with equal scores keep the order of the query. */
  lemma TiesKeepQueryOrder(seats: seq<Seat>, req: Request, c: int)
    ensures Filter(SortBy(ScoredOf(Filter(seats, Eligible(req)), req), ByScore), HasScore(c))
         == Filter(ScoredOf(Filter(seats, Eligible(req)), req), HasScore(c))
  {
    ByScoreTotalPreorder();
    SortByStable(ScoredOf(Filter(seats, Eligible(req)), req), ByScore, HasScore(c));
  }

  /**
   * The suggestions are the best: an eligible seat with every needed
   * feature is suggested or scores no more than every suggestion.
   */
  lemma NoBetterSeatLeftOut(seats: seq<Seat>, req: Request, s: Seat)
    requires s in seats && Eligible(req)(s) && Evaluate(s, req).Some?
    ensures Evaluate(s, req).value in Ranked(seats, req)
         || forall k :: 0 <= k < |Ranked(seats, req)| ==> Evaluate(s, req).value.score <= Ranked(seats, req)[k].score
  {
    var cands := Filter(seats, Eligible(req));
    var scored := ScoredOf(cands, req);
    var sorted := SortBy(scored, ByScore);
    var x := Evaluate(s, req).value;
    FilterKeeps(seats, Eligible(req), s);
    ScoredOfComplete(cands, req, s);
    assert x in multiset(scored);
    assert x in sorted by { assert x in multiset(sorted); }
    var j :| 0 <= j < |sorted| && sorted[j] == x;
    ByScoreTotalPreorder();
    SortBySorted(scored, ByScore);
    var ranked := Take(sorted, req.limit);
    assert ranked == Ranked(seats, req);
    if j < |ranked| {
      assert ranked[j] == x;
    } else {
      forall k | 0 <= k < |ranked| ensures x.score <= ranked[k].score {
        assert ranked[k] == sorted[k];
        assert ByScore(sorted[k], sorted[j]);
      }
    }
  }

  /** The scoring loop of `suggest`: each seat of the query evaluated, the rejected ones dropped. */
  method ScoreAll(query: seq<Seat>, req: Request) returns (scored: seq<Scored>)
    ensures scored == ScoredOf(query, req)
  {
    scored := [];
    var i := 0;
    while i < |query|
      invariant 0 <= i <= |query|
      invariant scored == ScoredOf(query[..i], req)
    {
      var evaluation := EvaluateSeat(query[i], req);
      assert query[..i + 1][..i] == query[..i];
      if evaluation.Some? {
        scored := scored + [evaluation.value];
      }
      i := i + 1;
    }
    assert query[..i] == query;
  }

  /** The loop that turns the first `limit` ranked seats into items. */
  method ItemsOf(top: seq<Scored>) returns (items: seq<Item>)
    ensures |items| == |top|
    ensures forall k :: 0 <= k < |top| ==> items[k] == ItemOf(top[k])
  {
    items := [];
    var j := 0;
    while j < |top|
      invariant 0 <= j <= |top|
      invariant |items| == j
      invariant forall k :: 0 <= k < j ==> items[k] == ItemOf(top[k])
    {
      items := items + [ItemOf(top[j])];
      j := j + 1;
    }
  }

  /** `suggest` as written: score the query's seats, sort them, keep the first `limit`. */
  method SuggestSeats(seats: seq<Seat>, req: Request) returns (items: seq<Item>)
    ensures items == Suggest(seats, req)
  {
    var query := Filter(seats, Eligible(req));
    var scored := ScoreAll(query, req);
    var top := Take(SortBy(scored, ByScore), req.limit);
    items := ItemsOf(top);
  }
}
