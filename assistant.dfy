/**
 * The AI demo chat (backend/app/services/ai_assistant_service.py): the
 * latest message is scanned for keywords that become a seat suggestion
 * request, the suggestions (or, when there are none, those of the default
 * request) are described seat by seat, and the reply is either written by
 * the language model or, when none is configured, a fixed sentence.
 *
 * The language model's answer is a parameter: the outcome of
 * `generate_text`, a text or the error it raises.
 */
module Assistant {
  import opened Wrappers
  import opened Strings
  import opened Store
  import opened Sorting
  import S = Suggestion

  /** What a keyword sets in the request. */
  datatype Modifier = NeedPower(power: bool) | WantType(seatType: SeatType) | NeedWifi(wifi: bool) | NeedAc(ac: bool)

  /** `KEYWORD_MAP`, in its order. */
  const KeywordMap: seq<(string, Modifier)> := [
    ("power", NeedPower(true)), ("charge", NeedPower(true)), ("outlet", NeedPower(true)), ("socket", NeedPower(true)),
    ("quiet", WantType(Quiet)), ("silent", WantType(Quiet)), ("group", WantType(Group)), ("team", WantType(Group)),
    ("pod", WantType(StudyPod)), ("computer", WantType(Computer)), ("desktop", WantType(Computer)), ("pc", WantType(Computer)),
    ("wifi", NeedWifi(true)), ("internet", NeedWifi(true)), ("online", NeedWifi(true)),
    ("cool", NeedAc(true)), ("aircon", NeedAc(true)), ("ac", NeedAc(true)), ("hot", NeedAc(false))]

  const PowerWords: seq<string> := ["power", "charge", "outlet", "socket"]
  const QuietWords: seq<string> := ["quiet", "silent"]
  const GroupWords: seq<string> := ["group", "team"]
  const ComputerWords: seq<string> := ["computer", "desktop", "pc"]
  const WifiWords: seq<string> := ["wifi", "internet", "online"]
  const CoolWords: seq<string> := ["cool", "aircon", "ac"]

  /** `result.update(modifiers)`. */
  function Apply(r: S.Request, m: Modifier): S.Request {
    match m
    case NeedPower(b) => r.(needPower := Some(b))
    case WantType(t) => r.(seatType := Some(t))
    case NeedWifi(b) => r.(needWifi := Some(b))
    case NeedAc(b) => r.(needAc := Some(b))
  }

  /** The request after the first `n` entries of the map were tried against `text`. */
  function Scan(text: string, n: nat): S.Request
    requires n <= |KeywordMap|
  {
    if n == 0 then S.DefaultRequest
    else
      var r := Scan(text, n - 1);
      if Contains(text, KeywordMap[n - 1].0) then Apply(r, KeywordMap[n - 1].1) else r
  }

  /** Some word of the list occurs in `text`. */
  predicate Mentioned(text: string, words: seq<string>) {
    exists k :: 0 <= k < |words| && Contains(text, words[k])
  }

  /** Some keyword among the entries `lo` to `hi` of the map occurs in `text`. */
  predicate MentionsEntry(text: string, lo: nat, hi: nat)
    requires hi <= |KeywordMap|
  {
    exists i :: lo <= i < hi && Contains(text, KeywordMap[i].0)
  }

  /** The map's entries grouped by what they set. */
  function ModifierAt(i: nat): Modifier {
    if i < 4 then NeedPower(true)
    else if i < 6 then WantType(Quiet)
    else if i < 8 then WantType(Group)
    else if i < 9 then WantType(StudyPod)
    else if i < 12 then WantType(Computer)
    else if i < 15 then NeedWifi(true)
    else if i < 18 then NeedAc(true)
    else NeedAc(false)
  }

  lemma EntryKind(i: nat)
    requires i < |KeywordMap|
    ensures KeywordMap[i].1 == ModifierAt(i)
  {
    assert i == 0 || i == 1 || i == 2 || i == 3 || i == 4 || i == 5 || i == 6 || i == 7 || i == 8 || i == 9
        || i == 10 || i == 11 || i == 12 || i == 13 || i == 14 || i == 15 || i == 16 || i == 17 || i == 18;
  }

  function Clamp(n: nat, lo: nat, hi: nat): nat {
    if n < lo then lo else if n > hi then hi else n
  }

  /** The limit stays 3 and no floor is set, whatever the text. */
  lemma {:induction false} ScanFixed(text: string, n: nat)
    requires n <= |KeywordMap|
    ensures Scan(text, n).limit == 3 && Scan(text, n).floorId.None?
  {
    if n > 0 {
      ScanFixed(text, n - 1);
    }
  }

  /**
   * After any prefix of the map, each field holds what the last matching
   * keyword that sets it gave, and is unset when none did: power and Wi-Fi.
   */
  lemma {:induction false} ScanPowerWifi(text: string, n: nat)
    requires n <= |KeywordMap|
    ensures Scan(text, n).needPower == if MentionsEntry(text, 0, Clamp(n, 0, 4)) then Some(true) else None
    ensures Scan(text, n).needWifi == if MentionsEntry(text, 12, Clamp(n, 12, 15)) then Some(true) else None
  {
    if n > 0 {
      ScanPowerWifi(text, n - 1);
      EntryKind(n - 1);
    }
  }

  /** The same for AC: "hot", the last entry, overrides the others. */
  lemma {:induction false} ScanAc(text: string, n: nat)
    requires n <= |KeywordMap|
    ensures Scan(text, n).needAc ==
      if n == 19 && Contains(text, "hot") then Some(false)
      else if MentionsEntry(text, 15, Clamp(n, 15, 18)) then Some(true)
      else None
  {
    if n > 0 {
      ScanAc(text, n - 1);
      EntryKind(n - 1);
    }
  }

  /** The same for the seat type: a later entry overrides an earlier one. */
  lemma {:induction false} ScanType(text: string, n: nat)
    requires n <= |KeywordMap|
    ensures Scan(text, n).seatType ==
      if MentionsEntry(text, 9, Clamp(n, 9, 12)) then Some(Computer)
      else if MentionsEntry(text, 8, Clamp(n, 8, 9)) then Some(StudyPod)
      else if MentionsEntry(text, 6, Clamp(n, 6, 8)) then Some(Group)
      else if MentionsEntry(text, 4, Clamp(n, 4, 6)) then Some(Quiet)
      else None
  {
    if n > 0 {
      ScanType(text, n - 1);
      EntryKind(n - 1);
    }
  }

  /** Without a matching keyword, the scan leaves the default request as it is. */
  lemma {:induction false} ScanNoMatch(text: string, n: nat)
    requires n <= |KeywordMap|
    requires forall i :: 0 <= i < n ==> !Contains(text, KeywordMap[i].0)
    ensures Scan(text, n) == S.DefaultRequest
  {
    if n > 0 {
      ScanNoMatch(text, n - 1);
    }
  }

  /** The keywords of entries `lo` to `lo + |words|` are `words`. */
  lemma EntriesAre(text: string, lo: nat, words: seq<string>)
    requires lo + |words| <= |KeywordMap|
    requires forall k :: 0 <= k < |words| ==> KeywordMap[lo + k].0 == words[k]
    ensures MentionsEntry(text, lo, lo + |words|) <==> Mentioned(text, words)
  {
    if MentionsEntry(text, lo, lo + |words|) {
      var i :| lo <= i < lo + |words| && Contains(text, KeywordMap[i].0);
      assert KeywordMap[lo + (i - lo)].0 == words[i - lo];
    }
    if Mentioned(text, words) {
      var k :| 0 <= k < |words| && Contains(text, words[k]);
      assert KeywordMap[lo + k].0 == words[k];
    }
  }

  /**
   * `_extract_preferences`: `limit` is always 3; power, Wi-Fi and AC are
   * needed when one of their words occurs (a case-insensitive substring
   * test), except that "hot" asks for no AC whatever else is said; a
   * computer word beats "pod", which beats a group word, which beats a
   * quiet word; nothing else is set.
   */
  function Preferences(content: string): (r: S.Request)
    ensures r.limit == 3 && r.floorId.None?
    ensures r.needPower == if Mentioned(ToLower(content), PowerWords) then Some(true) else None
    ensures r.needWifi == if Mentioned(ToLower(content), WifiWords) then Some(true) else None
    ensures r.needAc ==
      if Contains(ToLower(content), "hot") then Some(false)
      else if Mentioned(ToLower(content), CoolWords) then Some(true)
      else None
    ensures r.seatType ==
      if Mentioned(ToLower(content), ComputerWords) then Some(Computer)
      else if Contains(ToLower(content), "pod") then Some(StudyPod)
      else if Mentioned(ToLower(content), GroupWords) then Some(Group)
      else if Mentioned(ToLower(content), QuietWords) then Some(Quiet)
      else None
  {
    var text := ToLower(content);
    ScanFixed(text, |KeywordMap|);
    ScanPowerWifi(text, |KeywordMap|);
    ScanAc(text, |KeywordMap|);
    ScanType(text, |KeywordMap|);
    EntriesAre(text, 0, PowerWords);
    EntriesAre(text, 4, QuietWords);
    EntriesAre(text, 6, GroupWords);
    EntriesAre(text, 8, ["pod"]);
    EntriesAre(text, 9, ComputerWords);
    EntriesAre(text, 12, WifiWords);
    EntriesAre(text, 15, CoolWords);
    assert Mentioned(text, ["pod"]) <==> Contains(text, "pod") by {
      if Contains(text, "pod") {
        assert Contains(text, ["pod"][0]);
      }
    }
    Scan(text, |KeywordMap|)
  }

  /** A message with no keyword in it asks for the default request. */
  lemma NoKeywordDefault(content: string)
    requires forall i :: 0 <= i < |KeywordMap| ==> !Contains(ToLower(content), KeywordMap[i].0)
    ensures Preferences(content) == S.DefaultRequest
  {
    ScanNoMatch(ToLower(content), |KeywordMap|);
  }

  /**
   * "ac" is found inside other words: a message that says "space" asks for
   * air conditioning unless it also says "hot".
   */
  lemma SpaceMeansAc(content: string)
    requires Contains(ToLower(content), "space") && !Contains(ToLower(content), "hot")
    ensures Preferences(content).needAc == Some(true)
  {
    var text := ToLower(content);
    ContainsPart(text, "space", 2, 4);
    assert "space"[2..4] == "ac" == CoolWords[2];
    assert Contains(text, CoolWords[2]);
  }

  /** A text that contains a word contains every piece of it. */
  lemma ContainsPart(s: string, sub: string, a: nat, b: nat)
    requires Contains(s, sub) && a <= b <= |sub|
    ensures Contains(s, sub[a..b])
  {
    var i := OccursAt(s, sub);
    forall k | 0 <= k < b - a ensures s[i + a..i + b][k] == sub[a..b][k] {
      assert s[i + a + k] == s[i..i + |sub|][a + k];
    }
    assert s[i + a..i + b] == sub[a..b];
    ContainsAt(s, sub[a..b], i + a);
  }

  /** A position where `sub` occurs in `s`. */
  lemma {:induction false} OccursAt(s: string, sub: string) returns (i: nat)
    requires Contains(s, sub)
    ensures i + |sub| <= |s| && s[i..i + |sub|] == sub
    decreases |s|
  {
    if sub <= s {
      i := 0;
      assert s[0..|sub|] == sub;
    } else {
      var j := OccursAt(s[1..], sub);
      assert s[j + 1..j + 1 + |sub|] == s[1..][j..j + |sub|];
      i := j + 1;
    }
  }

  /** `_extract_preferences` as written: one pass over the map, updating the result. */
  method ExtractPreferences(content: string) returns (r: S.Request)
    ensures r == Preferences(content)
  {
    var text := ToLower(content);
    r := S.DefaultRequest;
    var i := 0;
    while i < |KeywordMap|
      invariant 0 <= i <= |KeywordMap|
      invariant r == Scan(text, i)
    {
      var (keyword, modifiers) := KeywordMap[i];
      if Contains(text, keyword) {
        r := Apply(r, modifiers);
      }
      i := i + 1;
    }
  }

  datatype Speaker = FromUser | FromAssistant
  datatype ChatMessage = ChatMessage(role: Speaker, content: string)

  /**
   * The `floor_name` key of a seat description: absent when the seat is no
   * longer stored, null for a floor without a name, or the name.
   */
  datatype FloorLabel = NoFloorKey | NullFloorName | FloorName(name: string)

  /** The dictionary `_serialize_seat` builds. */
  datatype SeatDetail = SeatDetail(
    seatId: string, seatNumber: string, floorId: string, floorName: FloorLabel, seatType: SeatType,
    hasPowerOutlet: bool, hasWifi: bool, hasAc: bool, accessibility: bool)

  datatype ChatReply = ChatReply(reply: string, highlightSeats: seq<string>, seatDetails: seq<SeatDetail>)

  /**
   * `_serialize_seat`: the stored seat's own fields with its floor's name
   * ("Unknown Floor" without a floor), or the suggestion's fields when the
   * seat is gone.
   */
  function Serialize(seats: seq<Seat>, floors: seq<Floor>, item: S.Item): (d: SeatDetail)
    ensures d.seatId == item.seatId
    ensures d.floorName == NoFloorKey <==> SeatById(seats, item.seatId).None?
  {
    match SeatById(seats, item.seatId)
    case None =>
      SeatDetail(item.seatId, item.seatNumber, item.floorId, NoFloorKey, item.seatType,
                 item.hasPowerOutlet, item.hasWifi, item.hasAc, item.accessibility)
    case Some(k) =>
      var seat := seats[k];
      var name := FloorLabelOf(floors, seat.floorId);
      SeatDetail(seat.id, seat.seatNumber, seat.floorId, name, seat.seatType,
                 seat.hasPowerOutlet, seat.hasWifi, seat.hasAc, seat.accessibility)
  }

  /** The floor's name, "Unknown Floor" when the seat has no floor. */
  function FloorLabelOf(floors: seq<Floor>, floorId: string): FloorLabel {
    match FloorById(floors, floorId)
    case None => FloorName("Unknown Floor")
    case Some(f) => if floors[f].floorName.None? then NullFloorName else FloorName(floors[f].floorName.value)
  }

  /** How the fallback sentence prints the floor: Python prints a null as "None". */
  function FloorText(floor: FloorLabel): string {
    match floor
    case NoFloorKey => "the selected floor"
    case NullFloorName => "None"
    case FloorName(n) => n
  }

  const NothingFound := "I couldn't find any matching seats " + "right now, please try again later."

  /**
   * `_compose_reply`: without a configured model, a sentence naming the
   * first seat and echoing the request, or the fixed apology when there is
   * no seat; with one, whatever `generate_text` gave.
   */
  function ComposeReply(configured: bool, details: seq<SeatDetail>, latest: string, generated: Result<string, string>)
    : (r: Result<string, string>)
    ensures !configured ==> r.Ok?
    ensures !configured ==> (r.value == NothingFound <==> details == [])
    ensures !configured && details != [] ==> StartsWith(r.value, "Consider seat " + details[0].seatNumber + " on ")
    ensures configured ==> r == generated
  {
    if !configured then
      if details != [] then
        var prefix := "Consider seat " + details[0].seatNumber + " on ";
        var s := prefix + FloorText(details[0].floorName) + " \U{2014}it matches your latest request: " + latest + ".";
        assert s[0] == prefix[0] == 'C' != NothingFound[0];
        Ok(s)
      else Ok(NothingFound)
    else generated
  }

  /** The suggestions for the latest message, or for the default request when there are none. */
  function Suggestions(seats: seq<Seat>, latest: string): (r: seq<S.Item>)
    ensures S.Suggest(seats, Preferences(latest)) != [] ==> r == S.Suggest(seats, Preferences(latest))
    ensures S.Suggest(seats, Preferences(latest)) == [] ==> r == S.Suggest(seats, S.DefaultRequest)
  {
    var first := S.Suggest(seats, Preferences(latest));
    if first == [] then S.Suggest(seats, S.DefaultRequest) else first
  }

  /**
   * `chat`: the seats suggested for the latest message (retried once with
   * the default request), described in order, with their ids highlighted
   * in the same order, and the composed reply; an error of the language
   * model fails the request.
   */
  function Chat(seats: seq<Seat>, floors: seq<Floor>, messages: seq<ChatMessage>, configured: bool,
                generated: Result<string, string>): (r: Result<ChatReply, string>)
    requires |messages| >= 1
    ensures r.Err? <==> configured && generated.Err?
    ensures r.Ok? ==>
      var items := Suggestions(seats, messages[|messages| - 1].content);
      |r.value.seatDetails| == |items| == |r.value.highlightSeats|
      && (forall i :: 0 <= i < |items| ==> r.value.seatDetails[i] == Serialize(seats, floors, items[i]))
      && (forall i :: 0 <= i < |items| ==> r.value.highlightSeats[i] == r.value.seatDetails[i].seatId == items[i].seatId)
  {
    var latest := messages[|messages| - 1].content;
    var items := Suggestions(seats, latest);
    var details := seq(|items|, i requires 0 <= i < |items| => Serialize(seats, floors, items[i]));
    var highlight := seq(|details|, i requires 0 <= i < |details| => details[i].seatId);
    match ComposeReply(configured, details, latest, generated)
    case Ok(reply) => Ok(ChatReply(reply, highlight, details))
    case Err(e) => Err(e)
  }

  /** The default request scores every available seat; it suggests one whenever one is available. */
  lemma DefaultFindsAvailable(seats: seq<Seat>, s: Seat)
    requires s in seats && s.status == Available
    ensures S.Suggest(seats, S.DefaultRequest) != []
  {
    FilterKeeps(seats, S.Eligible(S.DefaultRequest), s);
    S.ScoredOfComplete(Filter(seats, S.Eligible(S.DefaultRequest)), S.DefaultRequest, s);
  }

  /** The chat describes no seat exactly when no seat is available. */
  lemma NoSeatsOnlyWhenNoneAvailable(seats: seq<Seat>, floors: seq<Floor>, messages: seq<ChatMessage>,
                                     configured: bool, generated: Result<string, string>)
    requires |messages| >= 1
    requires Chat(seats, floors, messages, configured, generated).Ok?
    ensures Chat(seats, floors, messages, configured, generated).value.seatDetails == []
        <==> forall k :: 0 <= k < |seats| ==> seats[k].status != Available
  {
    var latest := messages[|messages| - 1].content;
    var items := Suggestions(seats, latest);
    if exists k :: 0 <= k < |seats| && seats[k].status == Available {
      var k :| 0 <= k < |seats| && seats[k].status == Available;
      DefaultFindsAvailable(seats, seats[k]);
      assert items != [];
    } else if items != [] {
      var req := if S.Suggest(seats, Preferences(latest)) != [] then Preferences(latest) else S.DefaultRequest;
      assert items == S.Suggest(seats, req);
      S.SuggestionsQualify(seats, req, 0);
      assert false;
    }
  }

  /** Without a configured model, the reply is the apology exactly when no seat is available. */
  lemma FallbackReply(seats: seq<Seat>, floors: seq<Floor>, messages: seq<ChatMessage>, generated: Result<string, string>)
    requires |messages| >= 1
    ensures Chat(seats, floors, messages, false, generated).Ok?
    ensures Chat(seats, floors, messages, false, generated).value.reply == NothingFound
        <==> forall k :: 0 <= k < |seats| ==> seats[k].status != Available
  {
    NoSeatsOnlyWhenNoneAvailable(seats, floors, messages, false, generated);
  }
}
