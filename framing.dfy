/**
 * Line framing of a text stream that arrives in chunks, as both chat clients
 * do it for `data:` event streams (the server-sent events format of the
 * WHATWG HTML standard, section 9.2): the chunk is appended to a buffer, the
 * buffer is split on line feeds, every piece but the last is a complete line,
 * and the last piece is kept as the new buffer.
 */
module Framing {
  import opened Text
  import opened Seqs

  /** The lines, each followed by its line feed. */
  function Terminated(lines: seq<string>): string
    decreases |lines|
  {
    if lines == [] then "" else Terminated(lines[..|lines| - 1]) + lines[|lines| - 1] + "\n"
  }

  lemma {:induction false} TerminatedAppend(a: seq<string>, b: seq<string>)
    ensures Terminated(a + b) == Terminated(a) + Terminated(b)
    decreases |b|
  {
    if b != [] {
      var front := b[..|b| - 1];
      TerminatedAppend(a, front);
      assert (a + b)[..|a + b| - 1] == a + front;
      assert (a + b)[|a + b| - 1] == b[|b| - 1];
    } else {
      assert a + b == a;
    }
  }

  predicate NoFeed(lines: seq<string>) {
    forall i :: 0 <= i < |lines| ==> '\n' !in lines[i]
  }

  /** The complete lines of `text`: every piece of its split but the last. */
  function CompleteLines(text: string): (r: seq<string>)
    ensures NoFeed(r)
  {
    var ps := Split(text, '\n');
    ps[..|ps| - 1]
  }

  /** The text after the last line feed: what stays buffered. */
  function Tail(text: string): (t: string)
    ensures '\n' !in t
  {
    var ps := Split(text, '\n');
    ps[|ps| - 1]
  }

  /** A text is its complete lines, each terminated, followed by its tail. */
  lemma LinesThenTail(text: string)
    ensures text == Terminated(CompleteLines(text)) + Tail(text)
  {
    var ps := Split(text, '\n');
    assert CompleteLines(text) == ps[..|ps| - 1] && Tail(text) == ps[|ps| - 1];
    JoinSplit(text, '\n');
    JoinAsTerminated(ps);
  }

  lemma {:induction false} JoinAsTerminated(ps: seq<string>)
    requires |ps| >= 1
    ensures Join(ps, '\n') == Terminated(ps[..|ps| - 1]) + ps[|ps| - 1]
    decreases |ps|
  {
    if |ps| >= 2 {
      JoinLast(ps, '\n');
      var front := ps[..|ps| - 1];
      JoinAsTerminated(front);
      assert front[..|front| - 1] == ps[..|ps| - 2];
      assert Terminated(front) == Terminated(ps[..|ps| - 2]) + ps[|ps| - 2] + "\n";
    }
  }

  /** Splitting terminated lines followed by a tail gives the lines and the tail back. */
  lemma {:induction false} SplitTerminated(lines: seq<string>, t: string)
    requires NoFeed(lines) && '\n' !in t
    ensures Split(Terminated(lines) + t, '\n') == lines + [t]
    decreases |lines|
  {
    if lines == [] {
      SplitNoSep(t, '\n');
      assert Terminated(lines) + t == t;
    } else {
      var first := lines[0];
      var rest := lines[1..];
      SplitTerminated(rest, t);
      TerminatedAppend([first], rest);
      assert [first] + rest == lines;
      assert Terminated([first]) == first + "\n" by {
        assert [first][..0] == [];
      }
      assert Terminated(lines) + t == first + ['\n'] + (Terminated(rest) + t);
      SplitPrefix(first, Terminated(rest) + t, '\n');
    }
  }

  /**
   * The framing invariant: the lines examined so far followed by the buffer
   * are exactly the split of all text received so far.
   */
  ghost predicate Framed(text: string, examined: seq<string>, buffer: string) {
    NoFeed(examined) && '\n' !in buffer && text == Terminated(examined) + buffer
  }

  lemma FramedIsSplit(text: string, examined: seq<string>, buffer: string)
    requires Framed(text, examined, buffer)
    ensures Split(text, '\n') == examined + [buffer]
    ensures examined == CompleteLines(text) && buffer == Tail(text)
  {
    SplitTerminated(examined, buffer);
    var ps := examined + [buffer];
    assert ps[..|ps| - 1] == examined;
  }

  /**
   * One chunk: appending it to the buffer and splitting yields the complete
   * lines it finishes, and the tail is the new buffer; the invariant holds
   * for the longer text.
   */
  lemma FrameStep(text: string, examined: seq<string>, buffer: string, chunk: string)
    requires Framed(text, examined, buffer)
    ensures Framed(text + chunk, examined + CompleteLines(buffer + chunk), Tail(buffer + chunk))
  {
    var lines := CompleteLines(buffer + chunk);
    LinesThenTail(buffer + chunk);
    TerminatedAppend(examined, lines);
    var tail := Tail(buffer + chunk);
    Assoc(Terminated(examined), buffer, chunk);
    Assoc(Terminated(examined), Terminated(lines), tail);
    assert text + chunk == Terminated(examined + lines) + tail;
    assert forall i :: 0 <= i < |examined + lines| ==> '\n' !in (examined + lines)[i] by {
      forall i | 0 <= i < |examined + lines| ensures '\n' !in (examined + lines)[i] {
        if i >= |examined| {
          assert (examined + lines)[i] == lines[i - |examined|];
        }
      }
    }
  }

  /** The framing of the empty stream. */
  lemma FramedStart()
    ensures Framed("", [], "")
  {
  }

  /**
   * Re-framing after a chunk: the complete lines of the longer text are those
   * of the old text followed by those the chunk completes on the old tail.
   */
  lemma Reframe(text: string, chunk: string)
    ensures CompleteLines(text + chunk) == CompleteLines(text) + CompleteLines(Tail(text) + chunk)
    ensures Tail(text + chunk) == Tail(Tail(text) + chunk)
  {
    LinesThenTail(text);
    FrameStep(text, CompleteLines(text), Tail(text), chunk);
    FramedIsSplit(text + chunk, CompleteLines(text) + CompleteLines(Tail(text) + chunk), Tail(Tail(text) + chunk));
  }
}
