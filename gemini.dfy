/**
 * The language-model client (backend/app/services/gemini_client.py): when
 * it counts as configured, how the text of a reply is found in the JSON
 * body the endpoint returns, and which outcomes of `generate_text` are
 * errors. The HTTP exchange itself is a parameter: the status code and
 * the body of the response.
 *
 * Python's dynamic typing is written out: reading a key of something that
 * is not an object, iterating over a number, or stripping a non-string
 * raises, and that is the `Raises` outcome.
 */
module Gemini {
  import opened Wrappers
  import opened Strings
  import opened Json

  /** `bool(x)` for a JSON value. */
  predicate Truthy(j: Json) {
    match j
    case JNull => false
    case JBool(b) => b
    case JNum(n) => n != 0
    case JStr(s) => s != ""
    case JArr(items) => items != []
    case JObj(fields) => fields != []
  }

  /** An optional string setting is truthy when present and non-empty. */
  predicate Set(s: Option<string>) {
    s.Some? && s.value != ""
  }

  /** `arg or setting`: the constructor's argument, or the setting when the argument is falsy. */
  function Resolve(arg: Option<string>, setting: Option<string>): (r: Option<string>)
    ensures Set(arg) ==> r == arg
    ensures !Set(arg) ==> r == setting
  {
    if Set(arg) then arg else setting
  }

  /** `is_configured`. */
  predicate IsConfigured(endpointUrl: Option<string>, apiKey: Option<string>) {
    Set(endpointUrl) && Set(apiKey)
  }

  /** What the search for a reply text found: a text, nothing, or a Python exception. */
  datatype Extracted = Text(text: string) | NoText | Raises

  /** `obj.get(key, default)`: raises when `obj` is not an object. */
  function GetOr(obj: Json, key: string, default: Json): (r: Option<Json>)
    ensures r.None? <==> !obj.JObj?
  {
    if !obj.JObj? then None
    else match Get(obj, key) case Some(v) => Some(v) case None => Some(default)
  }

  /** `for x in j`: the elements of a list, the characters of a string, the keys of an object. */
  function Iterate(j: Json): (r: Option<seq<Json>>)
    ensures r.None? <==> j.JNull? || j.JBool? || j.JNum?
  {
    match j
    case JArr(items) => Some(items)
    case JStr(s) => Some(seq(|s|, i requires 0 <= i < |s| => JStr([s[i]])))
    case JObj(fields) => Some(seq(|fields|, i requires 0 <= i < |fields| => JStr(fields[i].0)))
    case _ => None
  }

  /** `v.strip()`: only a string can be stripped. */
  function StripJson(j: Json): (r: Extracted)
    ensures r != NoText
    ensures r.Text? <==> j.JStr?
  {
    if j.JStr? then Text(Strip(j.s)) else Raises
  }

  /**
   * One content part: its text when `part.get("text")` is truthy (and, for
   * chat-style parts, `part.get("type") == "text"`), stripped.
   */
  function PartText(part: Json, typed: bool): (r: Extracted)
    ensures r.Text? ==>
      part.JObj? && Get(part, "text").Some? && Get(part, "text").value.JStr?
      && Get(part, "text").value.s != "" && r.text == Strip(Get(part, "text").value.s)
    ensures r.Text? && typed ==> Get(part, "type") == Some(JStr("text"))
  {
    if !part.JObj? then Raises
    else if typed && Get(part, "type") != Some(JStr("text")) then NoText
    else match Get(part, "text")
      case Some(t) => if Truthy(t) then StripJson(t) else NoText
      case None => NoText
  }

  /** The first outcome of `f` over `xs` that is not `NoText`: a found text or an exception stops the loop. */
  function FirstOf(xs: seq<Json>, f: Json -> Extracted): (r: Extracted)
    ensures r == NoText <==> forall i :: 0 <= i < |xs| ==> f(xs[i]) == NoText
    ensures r != NoText ==> exists i :: 0 <= i < |xs| && f(xs[i]) == r
  {
    if xs == [] then NoText
    else if f(xs[0]) != NoText then f(xs[0])
    else FirstOf(xs[1..], f)
  }

  /** `for part in parts`: iterating first, which raises for a non-iterable value. */
  function FirstPart(parts: Json, typed: bool): Extracted {
    match Iterate(parts)
    case None => Raises
    case Some(ps) => FirstOf(ps, p => PartText(p, typed))
  }

  /** One `output` item: its `content` parts (none when missing). */
  function OutputItem(item: Json): Extracted {
    match GetOr(item, "content", JArr([]))
    case None => Raises
    case Some(parts) => FirstPart(parts, false)
  }

  /** One candidate: the parts of its `content` (an empty object when missing). */
  function CandidateItem(candidate: Json): Extracted {
    match GetOr(candidate, "content", JObj([]))
    case None => Raises
    case Some(content) =>
      match GetOr(content, "parts", JArr([]))
      case None => Raises
      case Some(parts) => FirstPart(parts, false)
  }

  /** The `output` list of the responses API. */
  function OutputSection(payload: Json): (r: Extracted)
    requires payload.JObj?
    ensures Get(payload, "output").None? || !Get(payload, "output").value.JArr? ==> r == NoText
    ensures r != NoText ==>
      exists i :: 0 <= i < |Get(payload, "output").value.items| && OutputItem(Get(payload, "output").value.items[i]) == r
  {
    match Get(payload, "output")
    case Some(JArr(items)) => FirstOf(items, OutputItem)
    case _ => NoText
  }

  /** `choice.get("message", {}).get("content")`, when the message is an object. */
  function MessageContent(choice: Json): Option<Json> {
    match Get(choice, "message")
    case Some(JObj(m)) => Get(JObj(m), "content")
    case _ => None
  }

  /**
   * The first of the `choices` of the chat API: a string `message.content`
   * (even an empty one), else the first text part of a list content, else
   * the choice's own `text` when truthy.
   */
  function ChoiceSection(payload: Json): Extracted
    requires payload.JObj?
  {
    match Get(payload, "choices")
    case Some(JArr(choices)) =>
      if choices == [] then NoText
      else FirstChoice(choices[0])
    case _ => NoText
  }

  function FirstChoice(choice: Json): (r: Extracted)
    ensures !choice.JObj? ==> r == Raises
    ensures choice.JObj? && MessageContent(choice).Some? && MessageContent(choice).value.JStr? ==>
      r == Text(Strip(MessageContent(choice).value.s))
  {
    if !choice.JObj? then Raises
    else
      var fromMessage :=
        match Get(choice, "message")
        case Some(JObj(m)) =>
          (match Get(JObj(m), "content")
           case Some(JStr(s)) => Text(Strip(s))
           case Some(JArr(parts)) => FirstOf(parts, p => PartText(p, true))
           case _ => NoText)
        case _ => NoText;
      if fromMessage != NoText then fromMessage
      else match Get(choice, "text")
        case Some(t) => if Truthy(t) then StripJson(t) else NoText
        case None => NoText
  }

  /** The `candidates` of the Gemini API. */
  function CandidateSection(payload: Json): Extracted
    requires payload.JObj?
  {
    match Get(payload, "candidates")
    case Some(JArr(candidates)) => FirstOf(candidates, CandidateItem)
    case _ => NoText
  }

  /**
   * `_extract_text`: the `output` list first, then the first choice, then
   * the candidates; the first text found is the answer, and nothing found
   * is None.
   */
  function ExtractText(payload: Json): (r: Extracted)
    ensures !payload.JObj? ==> r == Raises
    ensures payload.JObj? && OutputSection(payload) != NoText ==> r == OutputSection(payload)
    ensures payload.JObj? && OutputSection(payload) == NoText && ChoiceSection(payload) != NoText ==>
      r == ChoiceSection(payload)
    ensures r == NoText <==>
      payload.JObj? && OutputSection(payload) == NoText && ChoiceSection(payload) == NoText
      && CandidateSection(payload) == NoText
  {
    if !payload.JObj? then Raises
    else if OutputSection(payload) != NoText then OutputSection(payload)
    else if ChoiceSection(payload) != NoText then ChoiceSection(payload)
    else CandidateSection(payload)
  }

  /** A `for` loop that returns the first text found, or lets an exception out. */
  method Search(xs: seq<Json>, f: Json -> Extracted) returns (r: Extracted)
    ensures r == FirstOf(xs, f)
  {
    var i := 0;
    while i < |xs|
      invariant 0 <= i <= |xs|
      invariant FirstOf(xs, f) == FirstOf(xs[i..], f)
    {
      assert xs[i..][1..] == xs[i + 1..];
      var outcome := f(xs[i]);
      if outcome != NoText {
        return outcome;
      }
      i := i + 1;
    }
    return NoText;
  }

  /** `_extract_text` as written: the three sections tried in turn, each with its loops. */
  method ExtractReply(payload: Json) returns (r: Extracted)
    ensures r == ExtractText(payload)
  {
    if !payload.JObj? {
      return Raises;
    }
    var output := Get(payload, "output");
    if output.Some? && output.value.JArr? {
      r := Search(output.value.items, OutputItem);
      if r != NoText {
        return r;
      }
    }
    var choices := Get(payload, "choices");
    if choices.Some? && choices.value.JArr? && choices.value.items != [] {
      r := FirstChoice(choices.value.items[0]);
      if r != NoText {
        return r;
      }
    }
    var candidates := Get(payload, "candidates");
    if candidates.Some? && candidates.value.JArr? {
      r := Search(candidates.value.items, CandidateItem);
      return r;
    }
    return NoText;
  }

  /** A part's text, when found, is stripped. */
  lemma PartTextStripped(part: Json, typed: bool)
    requires PartText(part, typed).Text?
    ensures Strip(PartText(part, typed).text) == PartText(part, typed).text
  {
    StripIdempotent(Get(part, "text").value.s);
  }

  lemma {:induction false} FirstOfStripped(xs: seq<Json>, typed: bool)
    requires FirstOf(xs, p => PartText(p, typed)).Text?
    ensures Strip(FirstOf(xs, p => PartText(p, typed)).text) == FirstOf(xs, p => PartText(p, typed)).text
  {
    if PartText(xs[0], typed) != NoText {
      PartTextStripped(xs[0], typed);
    } else {
      FirstOfStripped(xs[1..], typed);
    }
  }

  lemma FirstPartStripped(parts: Json, typed: bool)
    requires FirstPart(parts, typed).Text?
    ensures Strip(FirstPart(parts, typed).text) == FirstPart(parts, typed).text
  {
    FirstOfStripped(Iterate(parts).value, typed);
  }

  lemma {:induction false} FirstItemStripped(xs: seq<Json>, f: Json -> Extracted)
    requires forall x :: f(x).Text? ==> Strip(f(x).text) == f(x).text
    requires FirstOf(xs, f).Text?
    ensures Strip(FirstOf(xs, f).text) == FirstOf(xs, f).text
  {
    if f(xs[0]) == NoText {
      FirstItemStripped(xs[1..], f);
    }
  }

  lemma FirstChoiceStripped(choice: Json)
    requires FirstChoice(choice).Text?
    ensures Strip(FirstChoice(choice).text) == FirstChoice(choice).text
  {
    var message := Get(choice, "message");
    if message.Some? && message.value.JObj? && Get(message.value, "content").Some? {
      var content := Get(message.value, "content").value;
      if content.JStr? {
        StripIdempotent(content.s);
        return;
      } else if content.JArr? && FirstOf(content.items, p => PartText(p, true)) != NoText {
        FirstOfStripped(content.items, true);
        return;
      }
    }
    StripIdempotent(Get(choice, "text").value.s);
  }

  /** Whatever text `_extract_text` returns is already stripped. */
  lemma ExtractedIsStripped(payload: Json)
    requires ExtractText(payload).Text?
    ensures Strip(ExtractText(payload).text) == ExtractText(payload).text
  {
    forall item | OutputItem(item).Text?
      ensures Strip(OutputItem(item).text) == OutputItem(item).text
    {
      FirstPartStripped(GetOr(item, "content", JArr([])).value, false);
    }
    forall c | CandidateItem(c).Text?
      ensures Strip(CandidateItem(c).text) == CandidateItem(c).text
    {
      FirstPartStripped(GetOr(GetOr(c, "content", JObj([])).value, "parts", JArr([])).value, false);
    }
    if OutputSection(payload) != NoText {
      FirstItemStripped(Get(payload, "output").value.items, OutputItem);
    } else if ChoiceSection(payload) != NoText {
      FirstChoiceStripped(Get(payload, "choices").value.items[0]);
    } else {
      FirstItemStripped(Get(payload, "candidates").value.items, CandidateItem);
    }
  }

  /** Only the first choice is read: the others never change the result. */
  lemma OnlyFirstChoice(fields: seq<(string, Json)>, first: Json, rest1: seq<Json>, rest2: seq<Json>)
    ensures ExtractText(JObj(fields + [("choices", JArr([first] + rest1))]))
         == ExtractText(JObj(fields + [("choices", JArr([first] + rest2))]))
  {
    var p1 := JObj(fields + [("choices", JArr([first] + rest1))]);
    var p2 := JObj(fields + [("choices", JArr([first] + rest2))]);
    assert Get(p1, "output") == Get(p2, "output") by { LastValueOther(fields, ("choices", JArr([first] + rest1)), ("choices", JArr([first] + rest2)), "output"); }
    assert Get(p1, "candidates") == Get(p2, "candidates") by { LastValueOther(fields, ("choices", JArr([first] + rest1)), ("choices", JArr([first] + rest2)), "candidates"); }
  }

  lemma LastValueOther(fields: seq<(string, Json)>, a: (string, Json), b: (string, Json), key: string)
    requires a.0 == b.0 != key
    ensures LastValue(fields + [a], key) == LastValue(fields + [b], key)
  {
    assert (fields + [a])[..|fields|] == fields == (fields + [b])[..|fields|];
  }

  /** A string `message.content` is the answer even when it is empty, unless `output` had a text. */
  lemma StringContentWins(fields: seq<(string, Json)>, s: string)
    requires forall i :: 0 <= i < |fields| ==> fields[i].0 != "choices"
    requires OutputSection(JObj(fields + [("choices", JArr([JObj([("message", JObj([("content", JStr(s))]))])]))])) == NoText
    ensures ExtractText(JObj(fields + [("choices", JArr([JObj([("message", JObj([("content", JStr(s))]))])]))])) == Text(Strip(s))
  {
    var choice := JObj([("message", JObj([("content", JStr(s))]))]);
    var payload := JObj(fields + [("choices", JArr([choice]))]);
    assert Get(payload, "choices") == Some(JArr([choice]));
    assert ChoiceSection(payload) == FirstChoice(choice);
    StringContentChoice(s);
  }

  lemma StringContentChoice(s: string)
    ensures FirstChoice(JObj([("message", JObj([("content", JStr(s))]))])) == Text(Strip(s))
  {
    var m := JObj([("content", JStr(s))]);
    var choice := JObj([("message", m)]);
    assert Get(choice, "message") == Some(m);
    assert Get(m, "content") == Some(JStr(s));
  }

  /** The errors `generate_text` raises. */
  datatype ClientError = NotConfigured | HttpError(status: int, body: string) | NoTextContent | BadReply

  /**
   * `generate_text`: refused before any request when not configured; an
   * error status is reported with the response text; otherwise the
   * extracted text, which must not be empty. A body that is not JSON, or
   * whose shape makes the extraction raise, fails too.
   */
  function GenerateText(endpointUrl: Option<string>, apiKey: Option<string>,
                        status: int, responseText: string, body: Option<Json>): (r: Result<string, ClientError>)
    ensures !IsConfigured(endpointUrl, apiKey) ==> r == Err(NotConfigured)
    ensures IsConfigured(endpointUrl, apiKey) && status >= 400 ==> r == Err(HttpError(status, responseText))
    ensures r.Ok? ==> r.value != "" && body.Some? && ExtractText(body.value) == Text(r.value)
    ensures r.Ok? ==> Strip(r.value) == r.value
    ensures IsConfigured(endpointUrl, apiKey) && status < 400 && body.Some? && ExtractText(body.value) == NoText ==>
      r == Err(NoTextContent)
  {
    if !IsConfigured(endpointUrl, apiKey) then Err(NotConfigured)
    else if status >= 400 then Err(HttpError(status, responseText))
    else if body.None? then Err(BadReply)
    else match ExtractText(body.value)
      case Raises => Err(BadReply)
      case NoText => Err(NoTextContent)
      case Text(t) =>
        if t == "" then Err(NoTextContent)
        else
          ExtractedIsStripped(body.value);
          Ok(t)
  }
}
