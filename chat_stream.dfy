/**
 * The streaming chat command of the Rust back end (`chat_stream` and
 * `get_stored_credentials` in src-tauri/src/api.rs): credentials from the
 * secure storage, then the response body read chunk by chunk, framed into
 * lines, and the `content` of every `data:` event appended to the full
 * response and emitted to the front end.
 *
 * The environment variables, the HTTP request and the JSON parser are not
 * part of the model: the response status, the body's chunks (each the bytes
 * received or the error the stream reported), the lossy UTF-8 decoder
 * `decode` (`String::from_utf8_lossy`) and the parser `parse` are
 * parameters.
 */
module ChatStream {
  import opened Wrappers
  import opened Text
  import opened Seqs
  import opened Chunking
  import opened JsValues
  import opened Framing
  import opened Activate

  /** One byte of the response body. */
  newtype Byte = x: int | 0 <= x < 256

  type Bytes = seq<Byte>

  const LineFeed: Byte := 10

  /** `get_stored_credentials`: the license key and the instance id. */
  function StoredCredentials(file: StorageFile): (r: Result<(string, string), string>)
    ensures file.Missing? ==> r == Err("No license found. Please activate your license first.")
    ensures file.Unparsable? ==> r == Err("Failed to parse storage file: " + file.reason)
    ensures r.Ok? <==> file.Stored? && file.record.licenseKey.Some? && file.record.instanceId.Some?
    ensures file.Stored? && file.record.licenseKey.None? ==> r == Err("License key not found")
    ensures file.Stored? && file.record.licenseKey.Some? && file.record.instanceId.None? ==>
      r == Err("Instance ID not found")
    ensures r.Ok? ==> r.value == (file.record.licenseKey.value, file.record.instanceId.value)
  {
    match file
    case Missing => Err("No license found. Please activate your license first.")
    case Unparsable(reason) => Err("Failed to parse storage file: " + reason)
    case Stored(record) =>
      if record.licenseKey.None? then Err("License key not found")
      else if record.instanceId.None? then Err("Instance ID not found")
      else Ok((record.licenseKey.value, record.instanceId.value))
  }

  /**
   * A save that names both keys leaves credentials behind: the values of the
   * last items for each key.
   */
  lemma CredentialsAfterSave(file: StorageFile, items: seq<StorageItem>)
    requires LastValue(items, LicenseKeyName).Some? && LastValue(items, InstanceIdName).Some?
    ensures StoredCredentials(Stored(SecureStorage(
      Override(LastValue(items, LicenseKeyName), SaveBase(file).licenseKey),
      Override(LastValue(items, InstanceIdName), SaveBase(file).instanceId))))
      == Ok((LastValue(items, LicenseKeyName).value, LastValue(items, InstanceIdName).value))
  {
  }

  /** What one complete line of the body contributes. */
  datatype LineOutcome = Done | Content(text: string) | Skip

  /** `value.get(key)`: an object's field, nothing for any other value. */
  function Get(v: Json, key: string): Option<Json> {
    if v.Obj? && key in v.fields then Some(v.fields[key]) else None
  }

  /** `choices[0].delta.content` when every step exists and the content is a string. */
  function DeltaContent(parsed: Json): (r: Option<string>)
    ensures r.Some? <==>
      && parsed.Obj? && "choices" in parsed.fields
      && parsed.fields["choices"].Arr? && |parsed.fields["choices"].items| > 0
      && Get(parsed.fields["choices"].items[0], "delta").Some?
      && Get(Get(parsed.fields["choices"].items[0], "delta").value, "content").Some?
      && Get(Get(parsed.fields["choices"].items[0], "delta").value, "content").value.Str?
    ensures r.Some? ==>
      Get(Get(parsed.fields["choices"].items[0], "delta").value, "content") == Some(Str(r.value))
  {
    match Get(parsed, "choices")
    case Some(Arr(choices)) =>
      if choices == [] then None
      else
        (match Get(choices[0], "delta")
         case Some(delta) =>
           (match Get(delta, "content")
            case Some(Str(s)) => Some(s)
            case _ => None)
         case None => None)
    case _ => None
  }

  /**
   * One complete line: trimmed, it must start with `data: `; the payload
   * `[DONE]` ends the chunk, an empty payload or one that does not parse or
   * has no string content is skipped.
   */
  function LineOf(line: string, parse: string -> Option<Json>): (o: LineOutcome)
    ensures !StartsWith(Trim(line), "data: ") ==> o == Skip
    ensures o == Done <==> StartsWith(Trim(line), "data: ") && Trim(line)[6..] == "[DONE]"
  {
    var t := Trim(line);
    if !StartsWith(t, "data: ") then Skip
    else
      var payload := t[6..];
      if payload == "[DONE]" then Done
      else if payload == "" then Skip
      else
        match parse(payload)
        case None => Skip
        case Some(parsed) =>
          match DeltaContent(parsed)
          case Some(s) => Content(s)
          case None => Skip
  }

  /** The contents of `lines`, stopping at the first `[DONE]`. */
  function LinesContents(lines: seq<string>, parse: string -> Option<Json>): seq<string>
    decreases |lines|
  {
    if lines == [] then []
    else
      match LineOf(lines[0], parse)
      case Done => []
      case Content(s) => [s] + LinesContents(lines[1..], parse)
      case Skip => LinesContents(lines[1..], parse)
  }

  /** The inner `for` over the complete lines of one chunk, with its `break`. */
  method ProcessLines(lines: seq<string>, parse: string -> Option<Json>) returns (contents: seq<string>)
    ensures contents == LinesContents(lines, parse)
  {
    contents := [];
    var i := 0;
    while i < |lines|
      invariant 0 <= i <= |lines|
      invariant contents + LinesContents(lines[i..], parse) == LinesContents(lines, parse)
    {
      var outcome := LineOf(lines[i], parse);
      ContentsFrom(lines, i, parse);
      if outcome.Done? {
        assert contents + [] == contents;
        return;
      }
      if outcome.Content? {
        Assoc(contents, [outcome.text], LinesContents(lines[i + 1..], parse));
        contents := contents + [outcome.text];
      }
      i := i + 1;
    }
    assert contents + [] == contents;
  }

  /** The contents from line `i` on: what line `i` gives, then the contents after it. */
  lemma ContentsFrom(lines: seq<string>, i: nat, parse: string -> Option<Json>)
    requires i < |lines|
    ensures LineOf(lines[i], parse).Done? ==> LinesContents(lines[i..], parse) == []
    ensures LineOf(lines[i], parse).Content? ==>
      LinesContents(lines[i..], parse) == [LineOf(lines[i], parse).text] + LinesContents(lines[i + 1..], parse)
    ensures LineOf(lines[i], parse).Skip? ==> LinesContents(lines[i..], parse) == LinesContents(lines[i + 1..], parse)
  {
    assert lines[i..][0] == lines[i] && lines[i..][1..] == lines[i + 1..];
  }

  /** The events of the whole body, chunk by chunk, from a given buffer. */
  function StreamEvents(buffer: string, chunks: seq<string>, parse: string -> Option<Json>): (r: seq<string>)
    ensures |r| <= |StreamLines(buffer, chunks)|
    ensures NoDone(StreamLines(buffer, chunks), parse) ==> r == LinesContents(StreamLines(buffer, chunks), parse)
    decreases |chunks|
  {
    if chunks == [] then []
    else
      var t := buffer + chunks[0];
      SplitLines(CompleteLines(t), StreamLines(Tail(t), chunks[1..]), parse);
      LinesContents(CompleteLines(t), parse) + StreamEvents(Tail(t), chunks[1..], parse)
  }

  /** The facts about two runs of lines that the events of a stream rest on. */
  lemma SplitLines(here: seq<string>, later: seq<string>, parse: string -> Option<Json>)
    ensures |LinesContents(here, parse)| <= |here|
    ensures NoDone(here + later, parse) ==>
              && NoDone(here, parse) && NoDone(later, parse)
              && LinesContents(here + later, parse) == LinesContents(here, parse) + LinesContents(later, parse)
  {
    ContentsShorter(here, parse);
    if NoDone(here + later, parse) {
      assert forall i :: 0 <= i < |here| ==> here[i] == (here + later)[i];
      assert forall i :: 0 <= i < |later| ==> later[i] == (here + later)[|here| + i];
      LinesContentsAppend(here, later, parse);
    }
  }

  /** Each line gives at most one event. */
  lemma {:induction false} ContentsShorter(lines: seq<string>, parse: string -> Option<Json>)
    ensures |LinesContents(lines, parse)| <= |lines|
    decreases |lines|
  {
    if lines != [] {
      ContentsShorter(lines[1..], parse);
    }
  }

  /** The complete lines examined, chunk by chunk, from a given buffer. */
  function StreamLines(buffer: string, chunks: seq<string>): seq<string>
    decreases |chunks|
  {
    if chunks == [] then []
    else
      var t := buffer + chunks[0];
      CompleteLines(t) + StreamLines(Tail(t), chunks[1..])
  }

  /** The buffer after the last chunk. */
  function StreamTail(buffer: string, chunks: seq<string>): string
    decreases |chunks|
  {
    if chunks == [] then buffer else StreamTail(Tail(buffer + chunks[0]), chunks[1..])
  }

  /**
   * Every complete line of the whole body is examined exactly once, in order,
   * however the body is cut into chunks, and the final buffer is the text
   * after the last line feed.
   */
  lemma {:induction false} StreamFraming(text: string, examined: seq<string>, buffer: string, chunks: seq<string>)
    requires Framed(text, examined, buffer)
    ensures examined + StreamLines(buffer, chunks) == CompleteLines(text + Concat(chunks))
    ensures StreamTail(buffer, chunks) == Tail(text + Concat(chunks))
    decreases |chunks|
  {
    if chunks == [] {
      FramedIsSplit(text, examined, buffer);
      assert text + Concat(chunks) == text;
      assert examined + [] == examined;
    } else {
      var t := buffer + chunks[0];
      FrameStep(text, examined, buffer, chunks[0]);
      StreamFraming(text + chunks[0], examined + CompleteLines(t), Tail(t), chunks[1..]);
      Assoc(examined, CompleteLines(t), StreamLines(Tail(t), chunks[1..]));
      assert text + Concat(chunks) == (text + chunks[0]) + Concat(chunks[1..]);
    }
  }

  /** No line ends a chunk early. */
  predicate NoDone(lines: seq<string>, parse: string -> Option<Json>) {
    forall i :: 0 <= i < |lines| ==> LineOf(lines[i], parse) != Done
  }

  lemma {:induction false} LinesContentsAppend(a: seq<string>, b: seq<string>, parse: string -> Option<Json>)
    requires NoDone(a, parse)
    ensures LinesContents(a + b, parse) == LinesContents(a, parse) + LinesContents(b, parse)
    decreases |a|
  {
    if a == [] {
      assert a + b == b;
    } else {
      AppendTail(a, b);
      NoDoneTail(a, parse);
      LinesContentsAppend(a[1..], b, parse);
      ContentsFrom(a, 0, parse);
      ContentsFrom(a + b, 0, parse);
      assert a[0..] == a && (a + b)[0..] == a + b;
      if LineOf(a[0], parse).Content? {
        Assoc([LineOf(a[0], parse).text], LinesContents(a[1..], parse), LinesContents(b, parse));
      }
    }
  }

  lemma NoDoneTail(a: seq<string>, parse: string -> Option<Json>)
    requires a != [] && NoDone(a, parse)
    ensures LineOf(a[0], parse) != Done && NoDone(a[1..], parse)
  {
    forall i | 0 <= i < |a[1..]| ensures LineOf(a[1..][i], parse) != Done {
      assert a[1..][i] == a[i + 1];
    }
  }

  /** The lines examined for a run of decoded chunks are the complete lines of their concatenation. */
  lemma {:induction false} LinesOfTexts(texts: seq<string>)
    ensures StreamLines("", texts) == CompleteLines(Concat(texts))
  {
    FramedStart();
    StreamFraming("", [], "", texts);
    assert "" + Concat(texts) == Concat(texts);
    assert [] + StreamLines("", texts) == StreamLines("", texts);
  }

  /** The events of decoded chunks without `[DONE]` lines are the contents of the lines of their concatenation. */
  lemma {:induction false} TextsEvents(texts: seq<string>, parse: string -> Option<Json>)
    requires NoDone(CompleteLines(Concat(texts)), parse)
    ensures StreamEvents("", texts, parse) == LinesContents(CompleteLines(Concat(texts)), parse)
  {
    LinesOfTexts(texts);
  }

  /**
   * Each chunk is decoded on its own (`String::from_utf8_lossy(&bytes)`).
   * When the chunks are cut on character boundaries, so that decoding them
   * one by one gives the decoding of the whole body, and no complete line is
   * `[DONE]`, the emitted events depend only on the body and not on how it
   * was split into chunks.
   */
  lemma {:induction false} ChunkingIrrelevant(chunks: seq<Bytes>, decode: Bytes -> string, parse: string -> Option<Json>)
    requires Concat(Map(decode, chunks)) == decode(Concat(chunks))
    requires NoDone(CompleteLines(decode(Concat(chunks))), parse)
    ensures StreamEvents("", Map(decode, chunks), parse) == LinesContents(CompleteLines(decode(Concat(chunks))), parse)
  {
    TextsEvents(Map(decode, chunks), parse);
  }

  /** The index of the first chunk the stream failed on, if any. */
  predicate FirstError(chunks: seq<Result<Bytes, string>>, k: nat) {
    k < |chunks| && chunks[k].Err? && forall j :: 0 <= j < k ==> chunks[j].Ok?
  }

  /** The bytes of the chunks before `k`. */
  function Values(chunks: seq<Result<Bytes, string>>, k: nat): (r: seq<Bytes>)
    requires k <= |chunks| && forall j :: 0 <= j < k ==> chunks[j].Ok?
    ensures |r| == k && forall j :: 0 <= j < k ==> r[j] == chunks[j].value
  {
    seq(k, j requires 0 <= j < k => chunks[j].value)
  }

  /** The chunks before `k`, each decoded on its own. */
  function Texts(chunks: seq<Result<Bytes, string>>, k: nat, decode: Bytes -> string): (r: seq<string>)
    requires k <= |chunks| && forall j :: 0 <= j < k ==> chunks[j].Ok?
    ensures |r| == k && forall j :: 0 <= j < k ==> r[j] == decode(chunks[j].value)
  {
    Map(decode, Values(chunks, k))
  }

  lemma StreamEventsSnoc(buffer: string, texts: seq<string>, chunk: string, parse: string -> Option<Json>)
    ensures StreamEvents(buffer, texts + [chunk], parse)
      == StreamEvents(buffer, texts, parse) + LinesContents(CompleteLines(StreamTail(buffer, texts) + chunk), parse)
    ensures StreamTail(buffer, texts + [chunk]) == Tail(StreamTail(buffer, texts) + chunk)
    decreases |texts|
  {
    if texts == [] {
      assert [] + [chunk] == [chunk];
      assert [chunk][1..] == [];
    } else {
      assert (texts + [chunk])[0] == texts[0] && (texts + [chunk])[1..] == texts[1..] + [chunk];
      StreamEventsSnoc(Tail(buffer + texts[0]), texts[1..], chunk, parse);
      var here := LinesContents(CompleteLines(buffer + texts[0]), parse);
      Assoc(here, StreamEvents(Tail(buffer + texts[0]), texts[1..], parse),
        LinesContents(CompleteLines(StreamTail(buffer, texts) + chunk), parse));
    }
  }

  lemma TextsSnoc(chunks: seq<Result<Bytes, string>>, k: nat, decode: Bytes -> string)
    requires k < |chunks| && forall j :: 0 <= j <= k ==> chunks[j].Ok?
    ensures Values(chunks, k + 1) == Values(chunks, k) + [chunks[k].value]
    ensures Texts(chunks, k + 1, decode) == Texts(chunks, k, decode) + [decode(chunks[k].value)]
  {
  }

  /** The events and the buffer after one more successful chunk. */
  lemma ReadStep(chunks: seq<Result<Bytes, string>>, k: nat, decode: Bytes -> string, parse: string -> Option<Json>)
    requires k < |chunks| && forall j :: 0 <= j <= k ==> chunks[j].Ok?
    ensures var before := Texts(chunks, k, decode);
            var tail := StreamTail("", before) + decode(chunks[k].value);
            && StreamEvents("", Texts(chunks, k + 1, decode), parse)
               == StreamEvents("", before, parse) + LinesContents(CompleteLines(tail), parse)
            && StreamTail("", Texts(chunks, k + 1, decode)) == Tail(tail)
  {
    TextsSnoc(chunks, k, decode);
    StreamEventsSnoc("", Texts(chunks, k, decode), decode(chunks[k].value), parse);
  }

  /** One successful chunk: the lines it completes are processed and the rest is kept. */
  method ReadChunk(buffer: string, text: string, parse: string -> Option<Json>)
      returns (contents: seq<string>, rest: string)
    ensures contents == LinesContents(CompleteLines(buffer + text), parse)
    ensures rest == Tail(buffer + text)
  {
    var lines := Split(buffer + text, '\n');
    rest := lines[|lines| - 1];
    contents := ProcessLines(lines[..|lines| - 1], parse);
  }

  /**
   * The stream loop of `chat_stream`: every chunk is decoded on its own,
   * framed, the content of every event is emitted and appended to the full
   * response, and the first failed chunk ends the command with an error.
   * `events` are the `chat_stream_chunk` payloads in order.
   */
  method ReadBody(chunks: seq<Result<Bytes, string>>, decode: Bytes -> string, parse: string -> Option<Json>)
      returns (r: Result<string, string>, events: seq<string>)
    ensures r.Err? <==> exists k :: 0 <= k < |chunks| && chunks[k].Err?
    ensures r.Ok? ==> events == StreamEvents("", Texts(chunks, |chunks|, decode), parse) && r.value == Concat(events)
    ensures r.Err? ==> exists k: nat :: && FirstError(chunks, k)
                                        && r.error == "Stream error: " + chunks[k].error
                                        && events == StreamEvents("", Texts(chunks, k, decode), parse)
  {
    events := [];
    var fullResponse := "";
    var buffer := "";
    var k := 0;
    while k < |chunks|
      invariant 0 <= k <= |chunks|
      invariant forall j :: 0 <= j < k ==> chunks[j].Ok?
      invariant events == StreamEvents("", Texts(chunks, k, decode), parse)
      invariant buffer == StreamTail("", Texts(chunks, k, decode))
      invariant fullResponse == Concat(events)
    {
      if chunks[k].Err? {
        assert FirstError(chunks, k);
        return Err("Stream error: " + chunks[k].error), events;
      }
      var text := decode(chunks[k].value);
      var contents, rest := ReadChunk(buffer, text, parse);
      ReadStep(chunks, k, decode, parse);
      ConcatAppend(events, contents);
      fullResponse := fullResponse + Concat(contents);
      events := events + contents;
      buffer := rest;
      k := k + 1;
    }
    r := Ok(fullResponse);
  }

  // ---------------------------------------------------------------------
  // A character split across chunks

  /**
   * What a lossy UTF-8 decoder does around a line feed: the empty input
   * gives the empty text, a line feed byte is a boundary that decodes to a
   * line feed (it never continues a multi-byte sequence, so it also ends an
   * incomplete one), and nothing else decodes to a line feed.
   */
  ghost predicate SplitsAtFeeds(decode: Bytes -> string) {
    && decode([]) == ""
    && (forall a: Bytes, b: Bytes :: decode(a + [LineFeed] + b) == decode(a) + "\n" + decode(b))
    && (forall a: Bytes :: LineFeed !in a ==> '\n' !in decode(a))
  }

  /**
   * The body "\u00E9" followed by a line feed, sent as one chunk or cut
   * between the two bytes of the "\u00E9" (C3 A9): `from_utf8_lossy` reads
   * each half of the character as a replacement character, so the line
   * handed to the loop depends on where the body was cut.
   */
  lemma {:induction false} SplitCharacterChangesLines(decode: Bytes -> string)
    requires SplitsAtFeeds(decode)
    requires decode([0xC3, 0xA9]) == "\U{E9}"
    requires decode([0xC3]) == "\U{FFFD}" && decode([0xA9]) == "\U{FFFD}"
    ensures Concat([[0xC3, 0xA9, LineFeed]]) == Concat([[0xC3], [0xA9, LineFeed]])
    ensures StreamLines("", Map(decode, [[0xC3, 0xA9, LineFeed]])) == ["\U{E9}"]
    ensures StreamLines("", Map(decode, [[0xC3], [0xA9, LineFeed]])) == ["\U{FFFD}\U{FFFD}"]
  {
    var whole: seq<Bytes> := [[0xC3, 0xA9, LineFeed]];
    var cut: seq<Bytes> := [[0xC3], [0xA9, LineFeed]];
    assert Concat(whole) == [0xC3, 0xA9, LineFeed] by {
      assert whole[1..] == [];
    }
    assert Concat(cut) == [0xC3, 0xA9, LineFeed] by {
      assert cut[1..] == [[0xA9, LineFeed]] && cut[1..][1..] == [];
    }
    assert [0xC3, 0xA9, LineFeed] == [0xC3, 0xA9] + [LineFeed] + [];
    assert [0xA9, LineFeed] == [0xA9] + [LineFeed] + [];
    assert decode([0xC3, 0xA9] + [LineFeed] + []) == decode([0xC3, 0xA9]) + "\n" + decode([]);
    assert decode([0xA9] + [LineFeed] + []) == decode([0xA9]) + "\n" + decode([]);
    assert decode(whole[0]) == "\U{E9}\n";
    assert decode(cut[0]) == "\U{FFFD}" && decode(cut[1]) == "\U{FFFD}\n";
    assert Map(decode, whole) == ["\U{E9}\n"];
    assert Map(decode, cut) == ["\U{FFFD}", "\U{FFFD}\n"];
    LinesOfTexts(Map(decode, whole));
    LinesOfTexts(Map(decode, cut));
    assert Concat(["\U{E9}\n"]) == "\U{E9}\n" by {
      assert ["\U{E9}\n"][1..] == [];
    }
    assert Concat(["\U{FFFD}", "\U{FFFD}\n"]) == "\U{FFFD}\U{FFFD}\n" by {
      var ts := ["\U{FFFD}", "\U{FFFD}\n"];
      assert ts[1..] == ["\U{FFFD}\n"] && ts[1..][1..] == [];
    }
    LineThenNothing("\U{E9}");
    LineThenNothing("\U{FFFD}\U{FFFD}");
    assert "\U{FFFD}\U{FFFD}" + "\n" == "\U{FFFD}\U{FFFD}\n";
    assert CompleteLines(Concat(Map(decode, cut))) == ["\U{FFFD}\U{FFFD}"];
    assert StreamLines("", Map(decode, cut)) == ["\U{FFFD}\U{FFFD}"];
  }

  /** A single terminated line is one complete line. */
  lemma {:induction false} LineThenNothing(line: string)
    requires '\n' !in line
    ensures CompleteLines(line + "\n") == [line]
  {
    assert Terminated([line]) == line + "\n" by {
      assert [line][..0] == [];
    }
    assert Framed(line + "\n", [line], "");
    FramedIsSplit(line + "\n", [line], "");
  }

  /** The position just after the last line feed of `b`, or 0 when it has none. */
  function Cut(b: Bytes): (n: nat)
    ensures n <= |b|
    decreases |b|
  {
    if b == [] then 0
    else if b[|b| - 1] == LineFeed then |b|
    else Cut(b[..|b| - 1])
  }

  /** What comes before the cut ends at a line feed, and what comes after has none. */
  lemma {:induction false} CutAtLastFeed(b: Bytes)
    ensures Cut(b) == 0 || b[Cut(b) - 1] == LineFeed
    ensures LineFeed !in b[Cut(b)..]
    decreases |b|
  {
    if b != [] && b[|b| - 1] != LineFeed {
      var front := b[..|b| - 1];
      CutAtLastFeed(front);
      assert b[Cut(b)..] == front[Cut(front)..] + [b[|b| - 1]];
    }
  }

  /** Bytes that end at a line feed do not move the cut of what follows them. */
  lemma {:induction false} CutAfter(p: Bytes, y: Bytes)
    requires p == [] || p[|p| - 1] == LineFeed
    ensures Cut(p + y) == |p| + Cut(y)
    decreases |y|
  {
    if y == [] {
      assert p + y == p;
    } else {
      assert (p + y)[..|p + y| - 1] == p + y[..|y| - 1];
      if y[|y| - 1] != LineFeed {
        CutAfter(p, y[..|y| - 1]);
      }
    }
  }

  /** Decoding distributes over bytes that end at a line feed. */
  lemma {:induction false} DecodeAfterFeed(decode: Bytes -> string, p: Bytes, y: Bytes)
    requires SplitsAtFeeds(decode)
    requires p == [] || p[|p| - 1] == LineFeed
    ensures decode(p + y) == decode(p) + decode(y)
  {
    if p == [] {
      assert p + y == y;
    } else {
      var a := p[..|p| - 1];
      assert p == a + [LineFeed] + [];
      assert p + y == a + [LineFeed] + y;
    }
  }

  /** A text that ends with a line feed leaves nothing buffered. */
  lemma {:induction false} TailAfterFeed(x: string)
    ensures Tail(x + "\n") == ""
  {
    LinesThenTail(x);
    var lines := CompleteLines(x) + [Tail(x)];
    assert lines[..|lines| - 1] == CompleteLines(x);
    assert Terminated(lines) == Terminated(CompleteLines(x)) + Tail(x) + "\n";
    assert Framed(x + "\n", lines, "");
    FramedIsSplit(x + "\n", lines, "");
  }

  /** The complete lines of a decoded body all end before its last line feed byte. */
  lemma {:induction false} LinesBeforeLastFeed(decode: Bytes -> string, b: Bytes)
    requires SplitsAtFeeds(decode)
    ensures CompleteLines(decode(b)) == CompleteLines(decode(b[..Cut(b)]))
  {
    var p, rest := b[..Cut(b)], b[Cut(b)..];
    assert b == p + rest;
    CutAtLastFeed(b);
    DecodeAfterFeed(decode, p, rest);
    assert '\n' !in decode(rest);
    Reframe(decode(p), decode(rest));
    if p == [] {
      SplitNoSep(decode(p), '\n');
    } else {
      var a := p[..|p| - 1];
      assert p == a + [LineFeed] + [];
      assert decode(a + [LineFeed] + []) == decode(a) + "\n" + decode([]);
      assert decode(a) + "\n" + "" == decode(a) + "\n";
      TailAfterFeed(decode(a));
    }
    assert Tail(decode(p)) + decode(rest) == decode(rest);
    SplitNoSep(decode(rest), '\n');
  }

  /** The bytes received before chunk `k` that come after their last line feed. */
  function Pending(chunks: seq<Result<Bytes, string>>, k: nat): Bytes
    requires k <= |chunks| && forall j :: 0 <= j < k ==> chunks[j].Ok?
  {
    var received := Concat(Values(chunks, k));
    received[Cut(received)..]
  }

  /**
   * The texts the buffered read frames for the chunks before `k`: for each
   * chunk, the bytes pending before it and the chunk itself, decoded up to
   * their last line feed.
   */
  function BufferedTexts(chunks: seq<Result<Bytes, string>>, k: nat, decode: Bytes -> string): (r: seq<string>)
    requires k <= |chunks| && forall j :: 0 <= j < k ==> chunks[j].Ok?
    ensures |r| == k
    decreases k
  {
    if k == 0 then []
    else
      var all := Pending(chunks, k - 1) + chunks[k - 1].value;
      BufferedTexts(chunks, k - 1, decode) + [decode(all[..Cut(all)])]
  }

  /**
   * Joined, the texts framed by the buffered read are the decoding of every
   * byte received up to the last line feed: no byte is decoded twice or
   * lost, and no character is cut.
   */
  lemma {:induction false} BufferedTextsJoin(chunks: seq<Result<Bytes, string>>, k: nat, decode: Bytes -> string)
    requires SplitsAtFeeds(decode)
    requires k <= |chunks| && forall j :: 0 <= j < k ==> chunks[j].Ok?
    ensures var received := Concat(Values(chunks, k));
            Concat(BufferedTexts(chunks, k, decode)) == decode(received[..Cut(received)])
    decreases k
  {
    if k == 0 {
      assert Values(chunks, 0) == [];
    } else {
      BufferedTextsJoin(chunks, k - 1, decode);
      BufferedStep(chunks, k - 1, decode, Pending(chunks, k - 1), BufferedTexts(chunks, k - 1, decode));
    }
  }

  /**
   * When every chunk ends at a line feed, nothing is ever left pending and
   * the buffered read frames exactly the texts the per-chunk decoding of
   * `ReadBody` frames, so the two readers emit the same events, `[DONE]`
   * lines included.
   */
  lemma {:induction false} BufferedOnLineChunks(chunks: seq<Result<Bytes, string>>, k: nat, decode: Bytes -> string)
    requires k <= |chunks| && forall j :: 0 <= j < k ==> chunks[j].Ok?
    requires forall j :: 0 <= j < k ==> EndsAtFeed(chunks[j].value)
    ensures Pending(chunks, k) == []
    ensures BufferedTexts(chunks, k, decode) == Texts(chunks, k, decode)
    decreases k
  {
    if k == 0 {
      assert Values(chunks, 0) == [];
    } else {
      BufferedOnLineChunks(chunks, k - 1, decode);
      var c := chunks[k - 1].value;
      var before := Concat(Values(chunks, k - 1));
      CutWhole(c);
      assert Pending(chunks, k - 1) + c == c;
      assert c[..Cut(c)] == c;
      TextsSnoc(chunks, k - 1, decode);
      ReceivedSnoc(chunks, k - 1);
      assert before[Cut(before)..] == [];
      CutWhole(before);
      EndsAtFeedAppend(before, c);
      CutWhole(before + c);
    }
  }

  /** Empty, or ending with a line feed byte. */
  predicate EndsAtFeed(b: Bytes) {
    b == [] || b[|b| - 1] == LineFeed
  }

  lemma {:induction false} CutWhole(b: Bytes)
    ensures EndsAtFeed(b) <==> Cut(b) == |b|
  {
    if b != [] && b[|b| - 1] != LineFeed {
      assert Cut(b) == Cut(b[..|b| - 1]) <= |b| - 1;
    }
  }

  lemma {:induction false} EndsAtFeedAppend(a: Bytes, b: Bytes)
    requires EndsAtFeed(a) && EndsAtFeed(b)
    ensures EndsAtFeed(a + b)
  {
    if b == [] {
      assert a + b == a;
    }
  }

  /** The bytes received after one more chunk. */
  lemma {:induction false} ReceivedSnoc(chunks: seq<Result<Bytes, string>>, k: nat)
    requires k < |chunks| && forall j :: 0 <= j <= k ==> chunks[j].Ok?
    ensures Concat(Values(chunks, k + 1)) == Concat(Values(chunks, k)) + chunks[k].value
  {
    assert Values(chunks, k + 1) == Values(chunks, k) + [chunks[k].value];
    ConcatAppend(Values(chunks, k), [chunks[k].value]);
    assert Concat([chunks[k].value]) == chunks[k].value;
  }

  /**
   * The body read with its bytes buffered: each chunk is appended to the
   * bytes left over, only the bytes up to the last line feed are decoded
   * and framed, and the rest waits for the next chunk. For a decoder that
   * splits at line feeds, the events of a body without `[DONE]` lines are
   * the contents of the complete lines of the whole decoded body, however
   * it was cut into chunks.
   */
  method ReadBodyBuffered(chunks: seq<Result<Bytes, string>>, decode: Bytes -> string, parse: string -> Option<Json>)
      returns (r: Result<string, string>, events: seq<string>)
    requires SplitsAtFeeds(decode)
    ensures r.Err? <==> exists k :: 0 <= k < |chunks| && chunks[k].Err?
    ensures r.Ok? ==> events == StreamEvents("", BufferedTexts(chunks, |chunks|, decode), parse) && r.value == Concat(events)
    ensures r.Err? ==> exists k: nat :: && FirstError(chunks, k)
                                        && r.error == "Stream error: " + chunks[k].error
                                        && events == StreamEvents("", BufferedTexts(chunks, k, decode), parse)
    ensures r.Ok? && NoDone(CompleteLines(decode(Concat(Values(chunks, |chunks|)))), parse) ==>
      events == LinesContents(CompleteLines(decode(Concat(Values(chunks, |chunks|)))), parse)
  {
    events := [];
    var fullResponse := "";
    var buffer := "";
    var pending: Bytes := [];
    ghost var texts: seq<string> := [];
    var k := 0;
    while k < |chunks|
      invariant 0 <= k <= |chunks|
      invariant forall j :: 0 <= j < k ==> chunks[j].Ok?
      invariant Buffered(chunks, k, decode, pending, texts)
      invariant events == StreamEvents("", texts, parse)
      invariant buffer == StreamTail("", texts)
      invariant fullResponse == Concat(events)
    {
      if chunks[k].Err? {
        assert FirstError(chunks, k);
        return Err("Stream error: " + chunks[k].error), events;
      }
      var all := pending + chunks[k].value;
      var cut := Cut(all);
      var text := decode(all[..cut]);
      BufferedStep(chunks, k, decode, pending, texts);
      var contents, rest := ReadChunk(buffer, text, parse);
      StreamEventsSnoc("", texts, text, parse);
      ConcatAppend(events, contents);
      fullResponse := fullResponse + Concat(contents);
      events := events + contents;
      buffer := rest;
      pending := all[cut..];
      texts := texts + [text];
      k := k + 1;
    }
    r := Ok(fullResponse);
    BufferedEnd(chunks, decode, pending, texts, parse);
  }

  /**
   * The invariant of the buffered read after `k` chunks: the pending bytes
   * are those after the last line feed received, and the texts framed so
   * far are `BufferedTexts`, which join to the decoding of everything
   * before it.
   */
  ghost predicate Buffered(chunks: seq<Result<Bytes, string>>, k: nat, decode: Bytes -> string,
                           pending: Bytes, texts: seq<string>)
    requires k <= |chunks| && forall j :: 0 <= j < k ==> chunks[j].Ok?
  {
    var received := Concat(Values(chunks, k));
    && pending == received[Cut(received)..]
    && texts == BufferedTexts(chunks, k, decode)
    && Concat(texts) == decode(received[..Cut(received)])
  }

  /** One more chunk keeps the invariant of the buffered read. */
  lemma BufferedStep(chunks: seq<Result<Bytes, string>>, k: nat, decode: Bytes -> string,
                     pending: Bytes, texts: seq<string>)
    requires SplitsAtFeeds(decode)
    requires k < |chunks| && forall j :: 0 <= j <= k ==> chunks[j].Ok?
    requires Buffered(chunks, k, decode, pending, texts)
    ensures var all := pending + chunks[k].value;
            Buffered(chunks, k + 1, decode, all[Cut(all)..], texts + [decode(all[..Cut(all)])])
  {
    var received := Concat(Values(chunks, k));
    var chunk := chunks[k].value;
    var all := pending + chunk;
    var text := decode(all[..Cut(all)]);
    PendingStep(received, chunk);
    CutAtLastFeed(received);
    DecodeAfterFeed(decode, received[..Cut(received)], all[..Cut(all)]);
    TextsSnoc(chunks, k, decode);
    ConcatAppend(Values(chunks, k), [chunk]);
    ConcatAppend(texts, [text]);
    assert Concat([chunk]) == chunk;
    assert Concat([text]) == text;
  }

  /** The bytes received so far and one more chunk: what is cut off and what stays pending. */
  lemma {:induction false} PendingStep(received: Bytes, chunk: Bytes)
    ensures var all := received[Cut(received)..] + chunk;
            && (received + chunk)[..Cut(received + chunk)] == received[..Cut(received)] + all[..Cut(all)]
            && (received + chunk)[Cut(received + chunk)..] == all[Cut(all)..]
  {
    var n := Cut(received);
    CutAtLastFeed(received);
    Assoc(received[..n], received[n..], chunk);
    PrefixSuffix(received, n);
    CutStep(received[..n], received[n..] + chunk);
  }

  /** After the last chunk, the events are those of the whole decoded body. */
  lemma BufferedEnd(chunks: seq<Result<Bytes, string>>, decode: Bytes -> string,
                    pending: Bytes, texts: seq<string>, parse: string -> Option<Json>)
    requires SplitsAtFeeds(decode)
    requires forall j :: 0 <= j < |chunks| ==> chunks[j].Ok?
    requires Buffered(chunks, |chunks|, decode, pending, texts)
    ensures NoDone(CompleteLines(decode(Concat(Values(chunks, |chunks|)))), parse) ==>
      StreamEvents("", texts, parse) == LinesContents(CompleteLines(decode(Concat(Values(chunks, |chunks|)))), parse)
  {
    var body := Concat(Values(chunks, |chunks|));
    LinesBeforeLastFeed(decode, body);
    if NoDone(CompleteLines(decode(body)), parse) {
      TextsEvents(texts, parse);
    }
  }

  /** After bytes that end at a line feed, the cut falls where it falls in what follows. */
  lemma {:induction false} CutStep(p: Bytes, y: Bytes)
    requires p == [] || p[|p| - 1] == LineFeed
    ensures (p + y)[..Cut(p + y)] == p + y[..Cut(y)]
    ensures (p + y)[Cut(p + y)..] == y[Cut(y)..]
  {
    CutAfter(p, y);
  }

  /** What the chat endpoint did with the request. */
  datatype Reply =
    | SendFailed(error: string)
    | Unsuccessful(body: Option<string>)
    | Streamed(chunks: seq<Result<Bytes, string>>)

  const EndpointMissing := "APP_ENDPOINT environment variable not set. Please add APP_ENDPOINT=your_app_endpoint to your .env file"
  const AccessKeyMissing := "API_ACCESS_KEY environment variable not set. Please add API_ACCESS_KEY=your_access_key to your .env file"

  /**
   * `chat_stream`: the two environment variables, the credentials, the
   * request, then a non-success status fails with the body text ("Unknown
   * error" when the body cannot be read), and otherwise the body is read.
   * The body is read by `ReadBodyBuffered`, which decodes whole lines, not by
   * the per-chunk decoding of `ReadBody`. Nothing is emitted before the
   * stream.
   */
  method Chat(endpoint: Option<string>, accessKey: Option<string>, file: StorageFile, reply: Reply,
              decode: Bytes -> string, parse: string -> Option<Json>)
      returns (r: Result<string, string>, events: seq<string>)
    requires SplitsAtFeeds(decode)
    ensures endpoint.None? ==> r == Err(EndpointMissing) && events == []
    ensures endpoint.Some? && accessKey.None? ==> r == Err(AccessKeyMissing) && events == []
    ensures endpoint.Some? && accessKey.Some? && StoredCredentials(file).Err? ==>
      r == Err(StoredCredentials(file).error) && events == []
    ensures endpoint.Some? && accessKey.Some? && StoredCredentials(file).Ok? ==>
      && (reply.SendFailed? ==> r == Err("Failed to make chat request: " + reply.error) && events == [])
      && (reply.Unsuccessful? ==>
            r == Err("Chat API error: " + (if reply.body.Some? then reply.body.value else "Unknown error"))
            && events == [])
      && (reply.Streamed? ==>
            && (r.Err? <==> exists k :: 0 <= k < |reply.chunks| && reply.chunks[k].Err?)
            && (r.Ok? ==> events == StreamEvents("", BufferedTexts(reply.chunks, |reply.chunks|, decode), parse)
                          && r.value == Concat(events))
            && (r.Err? ==> exists k: nat :: && FirstError(reply.chunks, k)
                                            && r.error == "Stream error: " + reply.chunks[k].error
                                            && events == StreamEvents("", BufferedTexts(reply.chunks, k, decode), parse))
            && (r.Ok? && NoDone(CompleteLines(decode(Concat(Values(reply.chunks, |reply.chunks|)))), parse) ==>
                  events == LinesContents(CompleteLines(decode(Concat(Values(reply.chunks, |reply.chunks|)))), parse)))
  {
    if endpoint.None? {
      return Err(EndpointMissing), [];
    }
    if accessKey.None? {
      return Err(AccessKeyMissing), [];
    }
    var creds := StoredCredentials(file);
    if creds.Err? {
      return Err(creds.error), [];
    }
    match reply
    case SendFailed(e) =>
      r, events := Err("Failed to make chat request: " + e), [];
    case Unsuccessful(body) =>
      var text := if body.Some? then body.value else "Unknown error";
      r, events := Err("Chat API error: " + text), [];
    case Streamed(chunks) =>
      r, events := ReadBodyBuffered(chunks, decode, parse);
  }

  /** `check_license_status`: whether the credentials can be read. */
  function LicenseStatus(file: StorageFile): (r: bool)
    ensures r <==> file.Stored? && file.record.licenseKey.Some? && file.record.instanceId.Some?
  {
    StoredCredentials(file).Ok?
  }
}
