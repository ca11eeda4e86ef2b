/**
 * The provider client of the front end (src/lib/api.ts): nested lookup in a
 * response by a dotted path, the model list of `fetchModels`, and the
 * request and line framing of `streamCompletion`.
 *
 * `fetch`, the response's JSON and text, and `JSON.parse` are not part of
 * the model: what they produce (or the error they throw) is a parameter.
 */
module ProviderApi {
  import opened Wrappers
  import opened Text
  import opened Chunking
  import opened JsValues
  import opened Framing
  import opened StringOrder
  import CommonFunction
  import opened Seqs

  // ---------------------------------------------------------------------
  // getNestedValue

  /** `s.indexOf(c)`: the first position of `c`, or -1. */
  function IndexOf(s: string, c: char): (i: int)
    ensures -1 <= i < |s|
    ensures i >= 0 ==> s[i] == c && c !in s[..i]
    ensures i < 0 ==> c !in s
    decreases |s|
  {
    if s == [] then -1
    else if s[0] == c then 0
    else
      var j := IndexOf(s[1..], c);
      assert s[1..][..j + 1] == s[1..j + 2] by {
        if j >= 0 {
          assert s[1..][..j] == s[1..j + 1];
        }
      }
      if j < 0 then -1 else j + 1
  }

  /** The first occurrence is the one at a position with no earlier occurrence. */
  lemma IndexOfAt(s: string, c: char, i: nat)
    requires i < |s| && s[i] == c && c !in s[..i]
    ensures IndexOf(s, c) == i
  {
    assert s[..i + 1][i] == c;
  }

  /** `s.substring(a, b)`: the bounds are swapped when `a > b`. */
  function Substring(s: string, a: nat, b: nat): (r: string)
    requires a <= |s| && b <= |s|
    ensures |r| == if a <= b then b - a else a - b
  {
    if a <= b then s[a..b] else s[b..a]
  }

  /**
   * One step of the `reduce`: a key holding both brackets reads the field
   * before `[` and then the element whose number `parseInt` finds between
   * `[` and `]`; any other key reads that field. Both steps are optional
   * chains, so an `undefined` or `null` value gives `undefined`.
   */
  function Segment(cur: Option<Json>, key: string): Option<Json> {
    if '[' in key && ']' in key then
      var open := IndexOf(key, '[');
      var close := IndexOf(key, ']');
      ChainNumber(Chain(cur, key[..open]), ParseInt(Substring(key, open + 1, close)))
    else Chain(cur, key)
  }

  /** The `reduce` over the keys, from the first. */
  function Nested(cur: Option<Json>, keys: seq<string>): Option<Json>
    decreases |keys|
  {
    if keys == [] then cur else Nested(Segment(cur, keys[0]), keys[1..])
  }

  /**
   * `getNestedValue(obj, path)`. On a non-empty path without brackets it
   * reads the same value as `getByPath`.
   */
  function GetNestedValue(obj: Json, path: string): (r: Option<Json>)
    ensures path != "" && '[' !in path && ']' !in path ==> r == CommonFunction.GetByPath(obj, path)
  {
    PlainPathAgrees(obj, path);
    Nested(Some(obj), Split(path, '.'))
  }

  /** Once a step is `undefined`, so is the value at the end of the path. */
  lemma {:induction false} NestedUndefined(keys: seq<string>)
    ensures Nested(None, keys) == None
    decreases |keys|
  {
    if keys != [] {
      assert Segment(None, keys[0]) == None;
      NestedUndefined(keys[1..]);
    }
  }

  /** In `name[d]`, with no bracket in `name` or `d`, the brackets are where they were put. */
  lemma BracketPositions(name: string, d: string)
    requires '[' !in name && ']' !in name && AllDigits(d)
    ensures var key := name + "[" + d + "]";
      && IndexOf(key, '[') == |name| && IndexOf(key, ']') == |name| + 1 + |d|
      && key[..|name|] == name && key[|name| + 1..|name| + 1 + |d|] == d
  {
    var key := name + "[" + d + "]";
    assert key[|name|] == '[';
    assert key[..|name|] == name;
    IndexOfAt(key, '[', |name|);
    var close := |name| + 1 + |d|;
    assert key[close] == ']';
    assert ']' !in key[..close] by {
      assert key[..close] == name + "[" + d;
      forall k | 0 <= k < |d| ensures d[k] != ']' {
        assert IsDigit(d[k]);
      }
    }
    IndexOfAt(key, ']', close);
    assert key[|name| + 1..close] == d;
  }

  /**
   * A segment `name[i]` reads field `name` and then element `i`: of an
   * array, the element at that position.
   */
  lemma SegmentElement(cur: Option<Json>, name: string, i: nat)
    requires '[' !in name && ']' !in name
    ensures Segment(cur, name + "[" + Decimal(i) + "]") == ChainNumber(Chain(cur, name), Some(i))
    ensures Chain(cur, name).Some? && Chain(cur, name).value.Arr? && i < |Chain(cur, name).value.items| ==>
      Segment(cur, name + "[" + Decimal(i) + "]") == Some(Chain(cur, name).value.items[i])
  {
    var d := Decimal(i);
    var key := name + "[" + d + "]";
    BracketPositions(name, d);
    assert '[' in key && ']' in key;
    assert Substring(key, |name| + 1, |name| + 1 + |d|) == d;
    ParseDecimal(i);
    assert Segment(cur, key) == ChainNumber(Chain(cur, name), Some(i));
    ElementByNumber(Chain(cur, name), i);
  }

  /** Reading a number key of an array is reading its element at that position. */
  lemma ElementByNumber(o: Option<Json>, i: nat)
    ensures o.Some? && o.value.Arr? && i < |o.value.items| ==> ChainNumber(o, Some(i)) == Some(o.value.items[i])
  {
    DecimalRoundTrip(i);
  }

  /** Without brackets, a step of `getNestedValue` is a step of `getByPath`. */
  lemma PlainSegment(cur: Option<Json>, key: string)
    requires '[' !in key
    ensures Segment(cur, key) == CommonFunction.Step(cur, key)
  {
  }

  lemma {:induction false} NestedIsWalk(cur: Option<Json>, keys: seq<string>)
    requires forall i :: 0 <= i < |keys| ==> '[' !in keys[i]
    ensures Nested(cur, keys) == CommonFunction.Walk(cur, keys)
    decreases |keys|
  {
    if keys != [] {
      PlainSegment(cur, keys[0]);
      NestedIsWalk(Segment(cur, keys[0]), keys[1..]);
    }
  }

  /** On a non-empty path without brackets, the reduce reads what `getByPath` reads. */
  lemma PlainPathAgrees(obj: Json, path: string)
    ensures path != "" && '[' !in path && ']' !in path ==>
      Nested(Some(obj), Split(path, '.')) == CommonFunction.GetByPath(obj, path)
  {
    if path != "" && '[' !in path && ']' !in path {
      var keys := Split(path, '.');
      forall i | 0 <= i < |keys| ensures '[' !in keys[i] {
        CommonFunction.SplitPiecesFrom(path, '.', '[', i);
      }
      NestedIsWalk(Some(obj), keys);
    }
  }

  // ---------------------------------------------------------------------
  // fetchModels

  /** A provider's `models` settings. `verb` is its `method`, `None` when absent. */
  datatype ModelsConfig = ModelsConfig(endpoint: string, verb: Option<string>, responsePath: string, idKey: string)

  /** The fields of a provider the client reads. */
  datatype Provider = Provider(
    id: string,
    baseUrl: string,
    chatEndpoint: string,
    authType: string,
    authParam: Option<string>,
    models: Option<ModelsConfig>)

  /** A request as `fetch` receives it. */
  datatype Endpoint = Endpoint(url: string, verb: string, headers: map<string, string>)

  const JsonContent := map["Content-Type" := "application/json"]
  const NoModels := "Provider does not support model fetching"
  const NotAnArray := "Invalid " + "response format: models data is not an array"

  /** A possibly `undefined` string in a template literal. */
  function Show(s: Option<string>): string {
    if s.Some? then s.value else "undefined"
  }

  /**
   * The request `fetchModels` sends: bearer and x-api-key put the key in a
   * header, and every other auth type appends `?authParam=key` to the URL.
   */
  function ModelsRequest(p: Provider, apiKey: string): (r: Result<Endpoint, string>)
    ensures r.Err? <==> p.models.None?
    ensures r.Err? ==> r.error == NoModels
    ensures r.Ok? ==> "Content-Type" in r.value.headers && r.value.headers["Content-Type"] == "application/json"
    ensures r.Ok? && p.authType == "bearer" ==>
      r.value.headers == JsonContent["Authorization" := "Bearer " + apiKey]
      && r.value.url == p.baseUrl + p.models.value.endpoint
    ensures r.Ok? && p.authType == "x-api-key" ==>
      r.value.headers == JsonContent["x-api-key" := apiKey] && r.value.url == p.baseUrl + p.models.value.endpoint
    ensures r.Ok? && p.authType != "bearer" && p.authType != "x-api-key" ==>
      r.value.headers == JsonContent
      && r.value.url == p.baseUrl + p.models.value.endpoint + "?" + Show(p.authParam) + "=" + apiKey
    ensures r.Ok? ==> r.value.verb == ModelsMethod(p.models.value)
  {
    match p.models
    case None => Err(NoModels)
    case Some(m) =>
      var url := p.baseUrl + m.endpoint;
      if p.authType == "bearer" then
        Ok(Endpoint(url, ModelsMethod(m), JsonContent["Authorization" := "Bearer " + apiKey]))
      else if p.authType == "x-api-key" then
        Ok(Endpoint(url, ModelsMethod(m), JsonContent["x-api-key" := apiKey]))
      else
        Ok(Endpoint(url + "?" + Show(p.authParam) + "=" + apiKey, ModelsMethod(m), JsonContent))
  }

  /** `provider.models.method || "GET"`. */
  function ModelsMethod(m: ModelsConfig): (r: string)
    ensures r != ""
  {
    if m.verb.Some? && m.verb.value != "" then m.verb.value else "GET"
  }

  /** The response `fetch` resolved with; `body` is what `response.json()` gives or throws. */
  datatype HttpResponse = HttpResponse(ok: bool, status: int, statusText: string, body: Result<Json, string>)

  /** The ids kept by the `filter`: `model[idKey]` when it is a non-empty string. */
  function KeptIds(items: seq<Json>, idKey: string): (r: seq<string>)
    ensures forall i :: 0 <= i < |r| ==> r[i] != ""
    decreases |items|
  {
    if items == [] then []
    else
      var rest := KeptIds(items[1..], idKey);
      match Prop(items[0], idKey)
      case Some(Str(s)) => if s != "" then [s] + rest else rest
      case _ => rest
  }

  /** An id is kept exactly when some model carries it as a non-empty string. */
  lemma {:induction false} KeptIdsMembers(items: seq<Json>, idKey: string, s: string)
    ensures s in KeptIds(items, idKey) <==> s != "" && exists i :: 0 <= i < |items| && Prop(items[i], idKey) == Some(Str(s))
    decreases |items|
  {
    if items != [] {
      KeptIdsMembers(items[1..], idKey, s);
      if exists i :: 0 <= i < |items[1..]| && Prop(items[1..][i], idKey) == Some(Str(s)) {
        var i :| 0 <= i < |items[1..]| && Prop(items[1..][i], idKey) == Some(Str(s));
        assert Prop(items[i + 1], idKey) == Some(Str(s));
      }
      if exists i :: 0 <= i < |items| && Prop(items[i], idKey) == Some(Str(s)) {
        var i :| 0 <= i < |items| && Prop(items[i], idKey) == Some(Str(s));
        if i > 0 {
          assert Prop(items[1..][i - 1], idKey) == Some(Str(s));
        }
      }
    }
  }

  /**
   * The post-processing of the response: the array at the response path (an
   * empty one when the value there is falsy), each model's `idKey` read (a
   * `null` model throws), non-empty strings kept, then sorted.
   */
  function ModelIds(data: Json, responsePath: string, idKey: string): (r: Result<seq<string>, string>)
    ensures var found := GetNestedValue(data, responsePath);
      r == Err(NotAnArray) <==> Truthy(found) && !found.value.Arr?
    ensures !Truthy(GetNestedValue(data, responsePath)) ==> r == Ok([])
  {
    var found := GetNestedValue(data, responsePath);
    var models := if Truthy(found) then found.value else Arr([]);
    if !models.Arr? then Err(NotAnArray)
    else if exists i :: 0 <= i < |models.items| && models.items[i].Null? then
      var message := "Cannot " + "read properties of null (reading '" + idKey + "')";
      assert message[0] == 'C' && NotAnArray[0] == 'I';
      Err(message)
    else Ok(Sort(KeptIds(models.items, idKey)))
  }

  /**
   * The ids returned are sorted ascending and are exactly the non-empty
   * string ids of the models, each as often as it occurs.
   */
  lemma ModelIdsSorted(data: Json, responsePath: string, idKey: string)
    requires ModelIds(data, responsePath, idKey).Ok?
    ensures var ids := ModelIds(data, responsePath, idKey).value;
      var found := GetNestedValue(data, responsePath);
      && Sorted(ids)
      && (Truthy(found) ==> multiset(ids) == multiset(KeptIds(found.value.items, idKey)))
      && forall i :: 0 <= i < |ids| ==> ids[i] != ""
  {
    var found := GetNestedValue(data, responsePath);
    var models := if Truthy(found) then found.value else Arr([]);
    var kept := KeptIds(models.items, idKey);
    SortCorrect(kept);
    var ids := Sort(kept);
    forall i | 0 <= i < |ids| ensures ids[i] != "" {
      assert ids[i] in multiset(kept);
    }
  }

  /** `fetchModels(provider, apiKey)`, as the ids it returns or the message it throws. */
  function FetchModels(p: Provider, apiKey: string, reply: Result<HttpResponse, string>): (r: Result<seq<string>, string>)
    ensures p.models.None? ==> r == Err(NoModels)
    ensures p.models.Some? && reply.Err? ==> r == Err(reply.error)
    ensures p.models.Some? && reply.Ok? && !reply.value.ok ==>
      r == Err("Failed to fetch models: " + NumberKey(reply.value.status) + " " + reply.value.statusText)
    ensures p.models.Some? && reply.Ok? && reply.value.ok && reply.value.body.Err? ==>
      r == Err(reply.value.body.error)
    ensures p.models.Some? && reply.Ok? && reply.value.ok && reply.value.body.Ok? ==>
      r == ModelIds(reply.value.body.value, p.models.value.responsePath, p.models.value.idKey)
  {
    ModelsResult(p, reply)
  }

  /** What follows the request: the status check and the id post-processing. */
  function ModelsResult(p: Provider, reply: Result<HttpResponse, string>): Result<seq<string>, string> {
    if p.models.None? then Err(NoModels)
    else if reply.Err? then Err(reply.error)
    else if !reply.value.ok then
      Err("Failed to fetch models: " + NumberKey(reply.value.status) + " " + reply.value.statusText)
    else if reply.value.body.Err? then Err(reply.value.body.error)
    else ModelIds(reply.value.body.value, p.models.value.responsePath, p.models.value.idKey)
  }

  // ---------------------------------------------------------------------
  // streamCompletion: the request

  /** The first position from `i` on where `pat` occurs, if any. */
  function FirstFrom(s: string, pat: string, i: nat): (r: Option<nat>)
    ensures r.Some? ==> i <= r.value && OccursAt(s, pat, r.value)
                        && forall j: nat :: i <= j < r.value ==> !OccursAt(s, pat, j)
    ensures r.None? ==> forall j: nat :: i <= j ==> !OccursAt(s, pat, j)
    decreases |s| - i
  {
    if i > |s| then None
    else if OccursAt(s, pat, i) then Some(i)
    else FirstFrom(s, pat, i + 1)
  }

  /** `s.indexOf(pat)`: the first position where `pat` occurs, if any. */
  function FirstIndex(s: string, pat: string): (r: Option<nat>)
    ensures r.Some? ==> OccursAt(s, pat, r.value) && forall j: nat :: j < r.value ==> !OccursAt(s, pat, j)
    ensures r.None? ==> forall j: nat :: !OccursAt(s, pat, j)
  {
    FirstFrom(s, pat, 0)
  }

  /** `s.replace(pat, rep)` with a string pattern: the first occurrence only. */
  function ReplaceFirst(s: string, pat: string, rep: string): (r: string)
    ensures FirstIndex(s, pat).None? ==> r == s
    ensures FirstIndex(s, pat).Some? ==>
      var i := FirstIndex(s, pat).value;
      && |r| == |s| - |pat| + |rep|
      && r[..i] == s[..i]
      && OccursAt(r, rep, i)
      && r[i + |rep|..] == s[i + |pat|..]
  {
    match FirstIndex(s, pat)
    case None => s
    case Some(i) =>
      var r := s[..i] + rep + s[i + |pat|..];
      assert r[i..i + |rep|] == rep;
      r
  }

  /** A request with a JSON body. */
  datatype Request = Request(url: string, headers: map<string, string>, body: map<string, Json>)

  /** The URL: gemini's endpoint holds the placeholder `${model}`. */
  function ChatUrl(p: Provider, model: string): (url: string)
    ensures p.id != "gemini" ==> url == p.baseUrl + p.chatEndpoint
  {
    var url := p.baseUrl + p.chatEndpoint;
    if p.id == "gemini" then ReplaceFirst(url, "${model}", model) else url
  }

  /** The headers of the chat request: the key in the header the auth type names, if any. */
  function ChatHeaders(authType: string, apiKey: string): (h: map<string, string>)
    ensures "Content-Type" in h && h["Content-Type"] == "application/json"
    ensures authType == "bearer" ==> h == JsonContent["Authorization" := "Bearer " + apiKey]
    ensures authType == "x-api-key" ==> h == JsonContent["x-api-key" := apiKey]
    ensures authType == "x-goog-api-key" ==> h == JsonContent["x-goog-api-key" := apiKey]
    ensures authType !in {"bearer", "x-api-key", "x-goog-api-key"} ==> h == JsonContent
  {
    if authType == "bearer" then JsonContent["Authorization" := "Bearer " + apiKey]
    else if authType == "x-api-key" then JsonContent["x-api-key" := apiKey]
    else if authType == "x-goog-api-key" then JsonContent["x-goog-api-key" := apiKey]
    else JsonContent
  }

  /**
   * The body of the chat request: the model under the payload, then Claude's
   * token limit and version, then `stream` for every provider but Gemini.
   */
  function ChatBody(providerId: string, model: string, payload: map<string, Json>): (b: map<string, Json>)
    ensures "model" in b && b["model"] == if "model" in payload then payload["model"] else Str(model)
    ensures providerId == "claude" ==> "max_tokens" in b && "anthropic-version" in b && b["max_tokens"] == Num(4096) && b["anthropic-version"] == Str("2023-06-01")
    ensures providerId != "gemini" ==> "stream" in b && b["stream"] == Bool(true)
    ensures providerId == "gemini" ==> b == map["model" := Str(model)] + payload
    ensures forall k :: k in payload && k !in {"max_tokens", "anthropic-version", "stream"} ==> k in b && b[k] == payload[k]
    ensures b.Keys == payload.Keys + {"model"}
                      + (if providerId == "claude" then {"max_tokens", "anthropic-version"} else {})
                      + (if providerId != "gemini" then {"stream"} else {})
  {
    var body := map["model" := Str(model)] + payload;
    var body := if providerId == "claude" then body["max_tokens" := Num(4096)]["anthropic-version" := Str("2023-06-01")] else body;
    if providerId != "gemini" then body["stream" := Bool(true)] else body
  }

  /**
   * The request `streamCompletion` sends: one of four ways to pass the key
   * (a query parameter only when `authParam` is set), and a body of the
   * model and the payload, with claude's token limit and API version, and
   * `stream` set for every provider but gemini.
   */
  function ChatRequest(p: Provider, model: string, apiKey: string, payload: map<string, Json>): (r: Request)
    ensures "Content-Type" in r.headers && r.headers["Content-Type"] == "application/json"
    ensures p.authType == "bearer" ==> r.headers == JsonContent["Authorization" := "Bearer " + apiKey]
    ensures p.authType == "x-api-key" ==> r.headers == JsonContent["x-api-key" := apiKey]
    ensures p.authType == "x-goog-api-key" ==> r.headers == JsonContent["x-goog-api-key" := apiKey]
    ensures p.authType == "query" && p.authParam.Some? && p.authParam.value != "" ==>
      r.headers == JsonContent && r.url == ChatUrl(p, model) + "?" + p.authParam.value + "=" + apiKey
    ensures !(p.authType == "query" && p.authParam.Some? && p.authParam.value != "") ==> r.url == ChatUrl(p, model)
    ensures p.authType !in {"bearer", "x-api-key", "x-goog-api-key"} ==> r.headers == JsonContent
    ensures "model" in r.body && r.body["model"] == if "model" in payload then payload["model"] else Str(model)
    ensures p.id == "claude" ==> "max_tokens" in r.body && "anthropic-version" in r.body && r.body["max_tokens"] == Num(4096) && r.body["anthropic-version"] == Str("2023-06-01")
    ensures p.id != "gemini" ==> "stream" in r.body && r.body["stream"] == Bool(true)
    ensures p.id == "gemini" ==> r.body == map["model" := Str(model)] + payload
    ensures forall k :: k in payload && k !in {"max_tokens", "anthropic-version", "stream"} ==> k in r.body && r.body[k] == payload[k]
    ensures r.body.Keys == payload.Keys + {"model"}
                           + (if p.id == "claude" then {"max_tokens", "anthropic-version"} else {})
                           + (if p.id != "gemini" then {"stream"} else {})
  {
    var url := ChatUrl(p, model);
    var queryAuth := p.authType == "query" && p.authParam.Some? && p.authParam.value != "";
    var url := if queryAuth then url + "?" + p.authParam.value + "=" + apiKey else url;
    Request(url, ChatHeaders(p.authType, apiKey), ChatBody(p.id, model, payload))
  }

  // ---------------------------------------------------------------------
  // streamCompletion: the body

  /** `parsed.a?.[0]?.b`-style reads; `parsed.a` itself throws on `null`. */
  function ContentOf(providerId: string, parsed: Json): (r: Option<Json>)
    ensures r.Some? ==> Truthy(r)
    ensures providerId !in {"openai", "grok", "claude", "gemini"} ==> r.None?
    ensures parsed.Null? ==> r.None?
  {
    var content :=
      if parsed.Null? then None
      else if providerId == "openai" || providerId == "grok" then
        Chain(Chain(ChainNumber(Prop(parsed, "choices"), Some(0)), "delta"), "content")
      else if providerId == "claude" then
        if Prop(parsed, "type") == Some(Str("content_block_delta")) then Chain(Prop(parsed, "delta"), "text")
        else None
      else if providerId == "gemini" then
        Chain(ChainNumber(Chain(Chain(ChainNumber(Prop(parsed, "candidates"), Some(0)), "content"), "parts"), Some(0)), "text")
      else None;
    if Truthy(content) then content else None
  }

  /**
   * One complete line: blank lines and lines not starting with `data: ` are
   * skipped, `[DONE]` is skipped, and a payload that does not parse (or
   * whose reading throws) is skipped; otherwise its content, when truthy.
   */
  function LineContent(providerId: string, parse: string -> Option<Json>, line: string): (r: Option<Json>)
    ensures r.Some? ==> StartsWith(line, "data: ") && line[6..] != "[DONE]" && Truthy(r)
  {
    if Trim(line) == "" || !StartsWith(line, "data: ") then None
    else
      var data := line[6..];
      if data == "[DONE]" then None
      else
        match parse(data)
        case None => None
        case Some(parsed) => ContentOf(providerId, parsed)
  }

  /** The contents `onChunk` receives for a run of lines, in order. */
  function Contents(providerId: string, parse: string -> Option<Json>, lines: seq<string>): seq<Json>
    decreases |lines|
  {
    if lines == [] then []
    else
      var c := LineContent(providerId, parse, lines[0]);
      (if c.Some? then [c.value] else []) + Contents(providerId, parse, lines[1..])
  }

  /** No line ends the processing: the contents of two runs of lines are the contents of each. */
  lemma {:induction false} ContentsAppend(providerId: string, parse: string -> Option<Json>, a: seq<string>, b: seq<string>)
    ensures Contents(providerId, parse, a + b) == Contents(providerId, parse, a) + Contents(providerId, parse, b)
    decreases |a|
  {
    if a == [] {
      assert a + b == b;
    } else {
      var c := LineContent(providerId, parse, a[0]);
      var head: seq<Json> := if c.Some? then [c.value] else [];
      AppendTail(a, b);
      assert Contents(providerId, parse, a + b) == head + Contents(providerId, parse, a[1..] + b);
      ContentsAppend(providerId, parse, a[1..], b);
      Assoc(head, Contents(providerId, parse, a[1..]), Contents(providerId, parse, b));
    }
  }

  /** What a rejected promise carries. */
  datatype Thrown = Thrown(isError: bool, name: string, message: string)

  /** One `reader.read()`: the decoded text of a chunk, or the error it threw. */
  datatype Read = Chunk(text: string) | ReadFailed(error: Thrown)

  /** How far the received go before the first failure. */
  function Leading(received: seq<Read>): (n: nat)
    ensures n <= |received| && forall i :: 0 <= i < n ==> received[i].Chunk?
    ensures n < |received| ==> received[n].ReadFailed?
    decreases |received|
  {
    if received == [] || received[0].ReadFailed? then 0 else 1 + Leading(received[1..])
  }

  /** The decoded texts of the first `n` received. */
  function ReadTexts(received: seq<Read>, n: nat): (r: seq<string>)
    requires n <= |received| && forall i :: 0 <= i < n ==> received[i].Chunk?
    ensures |r| == n && forall i :: 0 <= i < n ==> r[i] == received[i].text
  {
    seq(n, i requires 0 <= i < n => received[i].text)
  }

  lemma ReadTextsSnoc(received: seq<Read>, n: nat)
    requires n < |received| && forall i :: 0 <= i <= n ==> received[i].Chunk?
    ensures Concat(ReadTexts(received, n + 1)) == Concat(ReadTexts(received, n)) + received[n].text
  {
    var a := ReadTexts(received, n);
    assert ReadTexts(received, n + 1) == a + [received[n].text];
    ConcatAppend(a, [received[n].text]);
    assert Concat([received[n].text]) == received[n].text + Concat([]);
  }

  /** The chunks of one read: the lines its text completes, and the new buffer. */
  method ReadLines(providerId: string, parse: string -> Option<Json>, buffer: string, text: string)
      returns (contents: seq<Json>, rest: string)
    ensures contents == Contents(providerId, parse, CompleteLines(buffer + text))
    ensures rest == Tail(buffer + text)
  {
    var lines := Split(buffer + text, '\n');
    rest := lines[|lines| - 1];
    lines := lines[..|lines| - 1];
    contents := [];
    var i := 0;
    while i < |lines|
      invariant 0 <= i <= |lines|
      invariant contents == Contents(providerId, parse, lines[..i])
    {
      var c := LineContent(providerId, parse, lines[i]);
      ContentsAppend(providerId, parse, lines[..i], [lines[i]]);
      assert lines[..i + 1] == lines[..i] + [lines[i]];
      if c.Some? {
        contents := contents + [c.value];
      } else {
        assert contents + [] == contents;
      }
      i := i + 1;
    }
    assert lines[..i] == lines;
  }

  /**
   * The read loop: every chunk's text is appended to the buffer, and the
   * content of every complete line is passed on. What is passed on is the
   * content of the complete lines of all text read before the first failed
   * read, however that text was cut into chunks; a last line without a line
   * feed is never processed.
   */
  method ReadStream(providerId: string, parse: string -> Option<Json>, received: seq<Read>)
      returns (chunks: seq<Json>, failure: Option<Thrown>)
    ensures failure.None? <==> forall i :: 0 <= i < |received| ==> received[i].Chunk?
    ensures failure.Some? ==> failure.value == received[Leading(received)].error
    ensures chunks == Contents(providerId, parse, CompleteLines(Concat(ReadTexts(received, Leading(received)))))
  {
    chunks := [];
    var buffer := "";
    var k := 0;
    assert Concat(ReadTexts(received, 0)) == "";
    while k < |received| && received[k].Chunk?
      invariant 0 <= k <= Leading(received)
      invariant chunks == Contents(providerId, parse, CompleteLines(Concat(ReadTexts(received, k))))
      invariant buffer == Tail(Concat(ReadTexts(received, k)))
    {
      var contents, rest := ReadLines(providerId, parse, buffer, received[k].text);
      var before := Concat(ReadTexts(received, k));
      ReadTextsSnoc(received, k);
      Reframe(before, received[k].text);
      ContentsAppend(providerId, parse, CompleteLines(before), CompleteLines(buffer + received[k].text));
      chunks := chunks + contents;
      buffer := rest;
      k := k + 1;
    }
    assert k == Leading(received);
    if k < |received| {
      failure := Some(received[k].error);
    } else {
      failure := None;
    }
  }

  /** What `fetch` did. */
  datatype ChatReply =
    | FetchThrew(error: Thrown)
    | NotOk(status: int, statusText: string, errorText: string)
    | NoReader
    | Streamed(received: seq<Read>)

  /** The `catch`: an `AbortError` is silent, anything else is reported once. */
  function Report(t: Thrown): (r: seq<string>)
    ensures |r| <= 1
    ensures r == [] <==> t.isError && t.name == "AbortError"
  {
    if t.isError && t.name == "AbortError" then []
    else if t.isError then [t.message]
    else ["An error occurred"]
  }

  /**
   * `streamCompletion`: the request it sends, the contents passed to
   * `onChunk` in order, and the messages passed to `onError` (at most one).
   */
  method StreamCompletion(p: Provider, model: string, apiKey: string, payload: map<string, Json>,
                          reply: ChatReply, parse: string -> Option<Json>)
      returns (request: Request, chunks: seq<Json>, errors: seq<string>)
    ensures request == ChatRequest(p, model, apiKey, payload)
    ensures |errors| <= 1
    ensures reply.FetchThrew? ==> chunks == [] && errors == Report(reply.error)
    ensures reply.NotOk? ==>
      && chunks == []
      && errors == ["API Error: " + NumberKey(reply.status) + " " + reply.statusText + "\n" + reply.errorText]
    ensures reply.NoReader? ==> chunks == [] && errors == ["No response body reader available"]
    ensures reply.Streamed? ==>
      && chunks == Contents(p.id, parse, CompleteLines(Concat(ReadTexts(reply.received, Leading(reply.received)))))
      && (errors == [] <==> Leading(reply.received) == |reply.received| || Report(reply.received[Leading(reply.received)].error) == [])
      && (Leading(reply.received) < |reply.received| ==> errors == Report(reply.received[Leading(reply.received)].error))
      && (Leading(reply.received) == |reply.received| ==> errors == [])
  {
    request := ChatRequest(p, model, apiKey, payload);
    chunks := [];
    match reply
    case FetchThrew(e) =>
      errors := Report(e);
    case NotOk(status, statusText, errorText) =>
      errors := ["API Error: " + NumberKey(status) + " " + statusText + "\n" + errorText];
    case NoReader =>
      errors := ["No response body reader available"];
    case Streamed(received) =>
      var failure;
      chunks, failure := ReadStream(p.id, parse, received);
      errors := if failure.Some? then Report(failure.value) else [];
  }
}
