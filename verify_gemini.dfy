/**
 * The connectivity check for the language-model endpoint
 * (backend/scripts/verify_gemini.py): the endpoint URLs derived from the
 * configured base, the five request bodies tried against each, and the
 * exit code. The network is a parameter: `send` gives the reply a request
 * receives.
 */
module VerifyEndpoint {
  import opened Wrappers
  import opened Strings
  import opened Json

  /** `endpoint.rstrip("/")`. */
  function TrimSlashes(endpoint: string): (r: string)
    ensures r == [] || r[|r| - 1] != '/'
    ensures r <= endpoint
  {
    DropWhileEnd(endpoint, c => c == '/')
  }

  /** The candidate URLs before duplicates are removed. */
  function Variants(base: string): (r: seq<string>)
    ensures |r| >= 1 && r[0] == base
  {
    if EndsWith(base, "/v1") then [base, base + "/responses", base + "/chat/completions", base + "/completions"]
    else if EndsWith(base, "/v1/chat") then [base, base + "/completions"]
    else [base]
  }

  /** `xs` without repetitions, keeping each element's first occurrence. */
  function Dedupe(xs: seq<string>): (r: seq<string>)
    ensures forall x :: x in r <==> x in xs
    ensures |r| <= |xs|
  {
    if xs == [] then []
    else
      var init := Dedupe(xs[..|xs| - 1]);
      assert xs == xs[..|xs| - 1] + [xs[|xs| - 1]];
      if xs[|xs| - 1] in init then init else init + [xs[|xs| - 1]]
  }

  predicate Distinct(xs: seq<string>) {
    forall i, j :: 0 <= i < j < |xs| ==> xs[i] != xs[j]
  }

  /** Removing duplicates leaves a sequence without any. */
  lemma {:induction false} DedupeDistinct(xs: seq<string>)
    ensures Distinct(Dedupe(xs))
  {
    if xs != [] {
      DedupeDistinct(xs[..|xs| - 1]);
    }
  }

  /** A sequence without repetitions is left as it is. */
  lemma {:induction false} DedupeOfDistinct(xs: seq<string>)
    requires Distinct(xs)
    ensures Dedupe(xs) == xs
  {
    if xs != [] {
      DedupeOfDistinct(xs[..|xs| - 1]);
      assert xs[|xs| - 1] !in xs[..|xs| - 1];
      assert xs[..|xs| - 1] + [xs[|xs| - 1]] == xs;
    }
  }

  /** The first element survives deduplication in first place. */
  lemma {:induction false} DedupeKeepsFirst(xs: seq<string>)
    requires xs != []
    ensures Dedupe(xs) != [] && Dedupe(xs)[0] == xs[0]
  {
    if |xs| > 1 {
      DedupeKeepsFirst(xs[..|xs| - 1]);
    }
  }

  /**
   * `expand_endpoints`: the base without trailing slashes first; after a
   * base ending in "/v1" the responses, chat-completions and completions
   * URLs; after one ending in "/v1/chat" the completions URL; each URL
   * once.
   */
  function ExpandEndpoints(endpoint: string): (r: seq<string>)
    ensures |r| >= 1 && r[0] == TrimSlashes(endpoint)
    ensures Distinct(r)
    ensures r == Variants(TrimSlashes(endpoint))
  {
    var base := TrimSlashes(endpoint);
    var variants := Variants(base);
    assert Distinct(variants) by {
      forall i, j | 0 <= i < j < |variants| ensures variants[i] != variants[j] {
        LengthsDiffer(variants, base, i, j);
      }
    }
    DedupeOfDistinct(variants);
    Dedupe(variants)
  }

  /** The candidate URLs are the base with suffixes of different lengths. */
  lemma LengthsDiffer(variants: seq<string>, base: string, i: nat, j: nat)
    requires variants == Variants(base) && i < j < |variants|
    ensures variants[i] != variants[j]
  {
    assert |variants[i]| != |variants[j]|;
  }

  /** The dedupe loop of `expand_endpoints`. */
  method DedupeLoop(variants: seq<string>) returns (deduped: seq<string>)
    ensures deduped == Dedupe(variants)
  {
    deduped := [];
    var i := 0;
    while i < |variants|
      invariant 0 <= i <= |variants|
      invariant deduped == Dedupe(variants[..i])
    {
      assert variants[..i + 1][..i] == variants[..i];
      if variants[i] !in deduped {
        deduped := deduped + [variants[i]];
      }
      i := i + 1;
    }
    assert variants[..i] == variants;
  }

  /** `{"type": "text", "text": prompt}`. */
  function TextPart(prompt: string): Json {
    JObj([("type", JStr("text")), ("text", JStr(prompt))])
  }

  function UserTurn(key: string, content: Json): Json {
    JObj([("role", JStr("user")), (key, content)])
  }

  /** The responses-API body: one user turn whose content is a text part. */
  function ResponsesBody(model: string, prompt: string): Json {
    JObj([("model", JStr(model)), ("input", JArr([UserTurn("content", JArr([TextPart(prompt)]))]))])
  }

  /** The chat body with a plain string content. */
  function ChatBody(model: string, prompt: string): Json {
    JObj([("model", JStr(model)), ("messages", JArr([UserTurn("content", JStr(prompt))]))])
  }

  /** The chat body with a list of text parts as content. */
  function ChatPartsBody(model: string, prompt: string): Json {
    JObj([("model", JStr(model)), ("messages", JArr([UserTurn("content", JArr([TextPart(prompt)]))]))])
  }

  /** The Gemini body: `contents` with `parts`. */
  function ContentsBody(model: string, prompt: string): Json {
    JObj([("model", JStr(model)), ("contents", JArr([UserTurn("parts", JArr([JObj([("text", JStr(prompt))])]))]))])
  }

  /** The completions body. */
  function CompletionBody(model: string, prompt: string): Json {
    JObj([("model", JStr(model)), ("prompt", JStr(prompt))])
  }

  /**
   * `build_payload_variants`: the responses, chat (plain and with parts),
   * Gemini `contents` and completions shapes, in that order, each naming
   * the model and carrying the prompt.
   */
  function PayloadVariants(model: string, prompt: string): (r: seq<Json>)
    ensures |r| == 5
    ensures forall i :: 0 <= i < 5 ==> r[i].JObj? && Get(r[i], "model") == Some(JStr(model))
    ensures forall i :: 0 <= i < 5 ==> CarriesPrompt(r[i], prompt)
  {
    var r := [ResponsesBody(model, prompt), ChatBody(model, prompt), ChatPartsBody(model, prompt),
              ContentsBody(model, prompt), CompletionBody(model, prompt)];
    EveryBody(model, prompt, r);
    r
  }

  lemma EveryBody(model: string, prompt: string, r: seq<Json>)
    requires r == [ResponsesBody(model, prompt), ChatBody(model, prompt), ChatPartsBody(model, prompt),
                   ContentsBody(model, prompt), CompletionBody(model, prompt)]
    ensures forall i :: 0 <= i < 5 ==> r[i].JObj? && Get(r[i], "model") == Some(JStr(model))
    ensures forall i :: 0 <= i < 5 ==> CarriesPrompt(r[i], prompt)
  {
    PromptCarried(model, prompt);
    forall i | 0 <= i < 5
      ensures r[i].JObj? && Get(r[i], "model") == Some(JStr(model))
    {
      assert i == 0 || i == 1 || i == 2 || i == 3 || i == 4;
      ModelNamed(model, r[i].fields[1].0, r[i].fields[1].1);
      assert r[i] == JObj([("model", JStr(model)), r[i].fields[1]]);
    }
    forall i | 0 <= i < 5
      ensures CarriesPrompt(r[i], prompt)
    {
      assert i == 0 || i == 1 || i == 2 || i == 3 || i == 4;
    }
  }

  /** A body whose other member is not `model` names the model. */
  lemma ModelNamed(model: string, key: string, v: Json)
    requires key != "model"
    ensures Get(JObj([("model", JStr(model)), (key, v)]), "model") == Some(JStr(model))
  {
    var fields := [("model", JStr(model)), (key, v)];
    assert fields[..1] == [("model", JStr(model))];
    assert LastValue([("model", JStr(model))], "model") == Some(JStr(model));
  }

  /** Somewhere inside `j` is a member other than `model` whose value is the string `prompt`. */
  predicate CarriesPrompt(j: Json, prompt: string)
    decreases j
  {
    match j
    case JArr(items) => exists i :: 0 <= i < |items| && CarriesPrompt(items[i], prompt)
    case JObj(fields) =>
      exists i :: 0 <= i < |fields| && fields[i].0 != "model"
        && (fields[i].1 == JStr(prompt) || CarriesPrompt(fields[i].1, prompt))
    case _ => false
  }

  lemma InList(j: Json, prompt: string)
    requires CarriesPrompt(j, prompt)
    ensures CarriesPrompt(JArr([j]), prompt)
  {
    assert JArr([j]).items[0] == j;
  }

  lemma InMember(head: (string, Json), key: string, j: Json, prompt: string)
    requires key != "model" && (j == JStr(prompt) || CarriesPrompt(j, prompt))
    ensures CarriesPrompt(JObj([head, (key, j)]), prompt)
  {
    assert JObj([head, (key, j)]).fields[1] == (key, j);
  }

  lemma PromptCarried(model: string, prompt: string)
    ensures CarriesPrompt(ResponsesBody(model, prompt), prompt) && CarriesPrompt(ChatBody(model, prompt), prompt)
    ensures CarriesPrompt(ChatPartsBody(model, prompt), prompt) && CarriesPrompt(ContentsBody(model, prompt), prompt)
    ensures CarriesPrompt(CompletionBody(model, prompt), prompt)
  {
    var m := ("model", JStr(model));
    var role := ("role", JStr("user"));
    InMember(("type", JStr("text")), "text", JStr(prompt), prompt);
    InList(TextPart(prompt), prompt);
    InMember(role, "content", JArr([TextPart(prompt)]), prompt);
    InList(UserTurn("content", JArr([TextPart(prompt)])), prompt);
    InMember(m, "input", JArr([UserTurn("content", JArr([TextPart(prompt)]))]), prompt);
    InMember(m, "messages", JArr([UserTurn("content", JArr([TextPart(prompt)]))]), prompt);
    InMember(role, "content", JStr(prompt), prompt);
    InList(UserTurn("content", JStr(prompt)), prompt);
    InMember(m, "messages", JArr([UserTurn("content", JStr(prompt))]), prompt);
    var gpart := JObj([("text", JStr(prompt))]);
    assert CarriesPrompt(gpart, prompt) by { assert gpart.fields[0] == ("text", JStr(prompt)); }
    InList(gpart, prompt);
    InMember(role, "parts", JArr([gpart]), prompt);
    InList(UserTurn("parts", JArr([gpart])), prompt);
    InMember(m, "contents", JArr([UserTurn("parts", JArr([gpart]))]), prompt);
    InMember(m, "prompt", JStr(prompt), prompt);
  }

  /** What one POST gave: a transport error, or a response with its status. */
  datatype Reply = TransportError | Response(status: int)

  /** The requests `main` may send, endpoint by endpoint, each with the five bodies. */
  function Attempts(endpoints: seq<string>, payloads: seq<Json>): (r: seq<(string, Json)>)
    ensures |r| == |endpoints| * |payloads|
  {
    if endpoints == [] then []
    else seq(|payloads|, k requires 0 <= k < |payloads| => (endpoints[0], payloads[k])) + Attempts(endpoints[1..], payloads)
  }

  predicate Succeeded(reply: Reply) {
    reply.Response? && reply.status < 400
  }

  /**
   * The attempts after the key check: made in order until one gets a
   * status below 400, which gives 0; when none does, 1. `sent` is the
   * requests made.
   */
  function Run(all: seq<(string, Json)>, send: (string, Json) -> Reply): (o: (int, seq<(string, Json)>))
    ensures o.0 == 0 || o.0 == 1
    ensures o.1 <= all
    ensures o.0 == 0 <==> exists k :: 0 <= k < |all| && Succeeded(send(all[k].0, all[k].1))
    ensures o.0 == 0 ==> |o.1| > 0 && Succeeded(send(o.1[|o.1| - 1].0, o.1[|o.1| - 1].1))
    ensures o.0 == 1 ==> o.1 == all
    ensures forall k :: 0 <= k < |o.1| - 1 ==> !Succeeded(send(o.1[k].0, o.1[k].1))
  {
    var n := FirstSuccess(all, send, 0);
    if n < |all| then (0, all[..n + 1]) else (1, all)
  }

  /**
   * `main`: 1 without an API key, before any request; otherwise `Run` over
   * every body against every endpoint.
   */
  function ConnectivitySpec(apiKey: Option<string>, endpoint: string, model: string, prompt: string,
                    send: (string, Json) -> Reply): (o: (int, seq<(string, Json)>))
    ensures apiKey.None? || apiKey.value == "" ==> o == (1, [])
    ensures apiKey.Some? && apiKey.value != "" ==>
      o == Run(Attempts(ExpandEndpoints(endpoint), PayloadVariants(model, prompt)), send)
  {
    if apiKey.None? || apiKey.value == "" then (1, [])
    else Run(Attempts(ExpandEndpoints(endpoint), PayloadVariants(model, prompt)), send)
  }

  /** The index of the first request that succeeds, at or after `from`; `|all|` when none does. */
  function FirstSuccess(all: seq<(string, Json)>, send: (string, Json) -> Reply, from: nat): (n: nat)
    requires from <= |all|
    ensures from <= n <= |all|
    ensures n < |all| ==> Succeeded(send(all[n].0, all[n].1))
    ensures forall k :: from <= k < n ==> !Succeeded(send(all[k].0, all[k].1))
    decreases |all| - from
  {
    if from == |all| then from
    else if Succeeded(send(all[from].0, all[from].1)) then from
    else FirstSuccess(all, send, from + 1)
  }

  /** `main` as written: the key check, then the attempts. */
  method CheckConnectivity(apiKey: Option<string>, endpoint: string, model: string, prompt: string,
              send: (string, Json) -> Reply) returns (code: int, sent: seq<(string, Json)>)
    ensures (code, sent) == ConnectivitySpec(apiKey, endpoint, model, prompt, send)
  {
    if apiKey.None? || apiKey.value == "" {
      return 1, [];
    }
    code, sent := TryAll(ExpandEndpoints(endpoint), PayloadVariants(model, prompt), send);
  }

  /** The loop over the endpoints with the loop over the five bodies inside. */
  method TryAll(endpoints: seq<string>, payloads: seq<Json>, send: (string, Json) -> Reply)
    returns (code: int, sent: seq<(string, Json)>)
    requires |payloads| == 5
    ensures (code, sent) == Run(Attempts(endpoints, payloads), send)
  {
    ghost var all := Attempts(endpoints, payloads);
    sent := [];
    var idx := 0;
    while idx < |endpoints|
      invariant 0 <= idx <= |endpoints|
      invariant sent == all[..idx * 5]
      invariant FirstSuccess(all, send, 0) >= idx * 5
    {
      AttemptsAt(endpoints, payloads, idx);
      var v := 0;
      while v < 5
        invariant 0 <= v <= 5
        invariant sent == all[..idx * 5 + v]
        invariant FirstSuccess(all, send, 0) >= idx * 5 + v
      {
        var reply := send(endpoints[idx], payloads[v]);
        assert all[idx * 5 + v] == (endpoints[idx], payloads[v]);
        FirstSuccessAt(all, send, idx * 5 + v);
        sent := sent + [(endpoints[idx], payloads[v])];
        assert sent == all[..idx * 5 + v + 1];
        if reply.Response? && reply.status < 400 {
          return 0, sent;
        }
        v := v + 1;
      }
      idx := idx + 1;
    }
    assert sent == all;
    code := 1;
  }

  /** Past the failed attempts, attempt `p` is the first success exactly when it succeeds. */
  lemma FirstSuccessAt(all: seq<(string, Json)>, send: (string, Json) -> Reply, p: nat)
    requires p < |all| && FirstSuccess(all, send, 0) >= p
    ensures Succeeded(send(all[p].0, all[p].1)) <==> FirstSuccess(all, send, 0) == p
  {
  }

  /** The request at position `5 * idx + v` is body `v` sent to endpoint `idx`. */
  lemma {:induction false} AttemptsAt(endpoints: seq<string>, payloads: seq<Json>, idx: nat)
    requires |payloads| == 5 && idx < |endpoints|
    ensures forall v :: 0 <= v < 5 ==> Attempts(endpoints, payloads)[idx * 5 + v] == (endpoints[idx], payloads[v])
  {
    if idx > 0 {
      AttemptsAt(endpoints[1..], payloads, idx - 1);
    }
  }
}
