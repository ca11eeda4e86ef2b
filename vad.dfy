/**
 * The voice-activity segmentation engine shared by the speaker capture task
 * (src-tauri/src/speaker/commands.rs) and the device capture thread
 * (src-tauri/src/audio.rs).
 *
 * The sample stream is cut into windows of HOP samples. Per window the engine
 * decides "speech" or "quiet" from its RMS and peak level; outside an utterance
 * quiet windows fill a bounded pre-speech buffer, a speech window opens an
 * utterance (emitting `speech-start`), and the utterance grows until enough
 * quiet windows close it (emitting `speech-detected` with the segment) or a
 * speech window pushes it past the safety cap.
 *
 * Samples are of an abstract type `S`. The floating-point level computation is
 * the abstract function `levels` (RMS, peak) and the WAV/Base64 encoding is
 * the abstract `encodes`, which says whether encoding the segment succeeded.
 */
module Vad {
  import opened Chunking
  import opened Seqs

  /** HOP_SIZE in commands.rs, ANALYSIS_CHUNK in audio.rs. */
  const HOP: nat := 1024

  /** The constants that drive one capture session. */
  datatype Config = Config(
    rmsThreshold: real,      // VAD_SENSITIVITY_RMS / vad_sensitivity_rms
    peakThreshold: real,     // SPEECH_PEAK_THRESHOLD / speech_peak_threshold
    silenceChunks: nat,      // quiet windows that close an utterance
    minSpeechChunks: nat,    // speech windows an utterance needs to be emitted
    preSpeechChunks: nat,    // windows kept before speech starts
    maxSamples: nat          // safety cap: sample rate * 30
  )

  /** The constants of the speaker capture task, commands.rs lines 13-18 and 41. */
  function SpeakerConfig(sampleRate: nat): Config {
    Config(0.004, 0.01, 47, 15, 15, sampleRate * 30)
  }

  /** A session's detector: its constants, the level meter and the encoder. */
  datatype Engine<!S> = Engine(
    cfg: Config,
    levels: seq<S> -> (real, real),   // (rms, peak) of a window
    encodes: seq<S> -> bool           // samples_to_wav_b64 returned Ok
  ) {
    /** `rms > rms threshold || peak > peak threshold`. */
    predicate IsSpeech(w: seq<S>) {
      levels(w).0 > cfg.rmsThreshold || levels(w).1 > cfg.peakThreshold
    }
  }

  /** Events sent to the window. */
  datatype Event<S> = SpeechStart | SpeechDetected(segment: seq<S>)

  /** The capture loop's local variables between two windows. */
  datatype State<S> = State(
    preSpeech: seq<S>,
    speech: seq<S>,
    inSpeech: bool,
    silenceChunks: nat,
    speechChunks: nat
  )

  function Idle<S>(): State<S> {
    State([], [], false, 0, 0)
  }

  /** The last `n` elements of `s` (all of `s` when it is shorter). */
  function KeepLast<S>(s: seq<S>, n: nat): (r: seq<S>)
    ensures |r| == if |s| > n then n else |s|
    ensures r == s[|s| - |r|..]
  {
    if |s| > n then s[|s| - n..] else s
  }

  /** `truncate(len - trim)` when the buffer is longer than `trim`. */
  function DropLast<S>(s: seq<S>, trim: nat): (r: seq<S>)
    ensures |s| > trim ==> |r| == |s| - trim
    ensures |s| <= trim ==> r == s
    ensures r == s[..|r|]
  {
    if |s| > trim then s[..|s| - trim] else s
  }

  /** `speech-detected` is emitted only when the encoding succeeded. */
  function Emit<S>(e: Engine<S>, segment: seq<S>): seq<Event<S>> {
    if e.encodes(segment) then [SpeechDetected(segment)] else []
  }

  /** The samples dropped from the tail of a closed utterance. */
  function TrimLength(c: Config): nat {
    (c.silenceChunks / 2) * HOP
  }

  /** One analysis window through the state machine: the new state and the events. */
  function Step<S>(e: Engine<S>, st: State<S>, w: seq<S>): (r: (State<S>, seq<Event<S>>))
    ensures |r.1| <= 2
    ensures SpeechStart in r.1 <==> e.IsSpeech(w) && !st.inSpeech
    ensures forall ev :: ev in r.1 && ev.SpeechDetected? ==> e.encodes(ev.segment) && !r.0.inSpeech
    ensures r.0.inSpeech ==> e.IsSpeech(w) || st.inSpeech
  {
    var c := e.cfg;
    if e.IsSpeech(w) then
      var started := !st.inSpeech;
      var st1 := if started then State([], st.speech + st.preSpeech, true, 0, 0) else st;
      var ev1: seq<Event<S>> := if started then [SpeechStart] else [];
      var buf := st1.speech + w;
      if |buf| > c.maxSamples then
        (State(st1.preSpeech, [], false, st1.silenceChunks, st1.speechChunks + 1), ev1 + Emit(e, buf))
      else
        (State(st1.preSpeech, buf, true, st1.silenceChunks, st1.speechChunks + 1), ev1)
    else if st.inSpeech then
      var buf := st.speech + w;
      if st.silenceChunks + 1 >= c.silenceChunks then
        var ev := if st.speechChunks >= c.minSpeechChunks && |buf| > 0
                  then Emit(e, DropLast(buf, TrimLength(c))) else [];
        (State(st.preSpeech, [], false, 0, 0), ev)
      else
        (State(st.preSpeech, buf, true, st.silenceChunks + 1, st.speechChunks), [])
    else
      (st.(preSpeech := KeepLast(st.preSpeech + w, c.preSpeechChunks * HOP)), [])
  }

  /** A sequence of windows through the state machine, events in order. */
  function Run<S>(e: Engine<S>, st: State<S>, ws: seq<seq<S>>): (r: (State<S>, seq<Event<S>>))
    ensures ws == [] ==> r == (st, [])
    ensures |r.1| <= 2 * |ws|
    ensures forall ev :: ev in r.1 && ev.SpeechDetected? ==> e.encodes(ev.segment)
    decreases |ws|
  {
    if ws == [] then (st, [])
    else
      var first := Step(e, st, ws[0]);
      var rest := Run(e, first.0, ws[1..]);
      (rest.0, first.1 + rest.1)
  }

  /**
   * What holds between any two windows: both buffers hold whole windows, the
   * pre-speech buffer stays within its cap and is empty during an utterance,
   * the speech buffer is empty outside one, and during an utterance the
   * buffer exceeds the safety cap by at most the quiet windows counted so far.
   */
  ghost predicate Inv<S>(c: Config, st: State<S>) {
    && |st.preSpeech| % HOP == 0
    && |st.speech| % HOP == 0
    && |st.preSpeech| <= c.preSpeechChunks * HOP
    && (!st.inSpeech ==> st.speech == [])
    && (st.inSpeech ==> st.preSpeech == [] && st.speechChunks >= 1
                        && |st.speech| <= c.maxSamples + HOP * st.silenceChunks)
  }

  lemma ModHop(a: nat, b: nat)
    requires a % HOP == 0 && b % HOP == 0
    ensures (a + b) % HOP == 0
    ensures b <= a ==> (a - b) % HOP == 0
  {
  }

  lemma KeepLastHop(len: nat, n: nat)
    requires len % HOP == 0
    ensures (if len > n * HOP then n * HOP else len) % HOP == 0
  {
    assert (n * HOP) % HOP == 0;
  }

  /** Every window keeps the invariant. */
  lemma StepKeepsInv<S>(e: Engine<S>, st: State<S>, w: seq<S>)
    requires Inv(e.cfg, st) && |w| == HOP
    ensures Inv(e.cfg, Step(e, st, w).0)
  {
    var c := e.cfg;
    ModHop(|st.speech|, |st.preSpeech|);
    ModHop(|st.speech| + |st.preSpeech|, HOP);
    ModHop(|st.speech|, HOP);
    ModHop(|st.preSpeech|, HOP);
    KeepLastHop(|st.preSpeech| + HOP, c.preSpeechChunks);
  }

  /** Every emitted segment is non-empty and made of whole windows. */
  lemma StepEmitsWholeWindows<S>(e: Engine<S>, st: State<S>, w: seq<S>)
    requires Inv(e.cfg, st) && |w| == HOP
    ensures forall ev :: ev in Step(e, st, w).1 && ev.SpeechDetected? ==>
              |ev.segment| > 0 && |ev.segment| % HOP == 0
  {
    var c := e.cfg;
    ModHop(|st.speech| + |st.preSpeech|, HOP);
    ModHop(|st.speech|, HOP);
    var buf := st.speech + w;
    if !e.IsSpeech(w) && st.inSpeech && st.silenceChunks + 1 >= c.silenceChunks {
      assert TrimLength(c) % HOP == 0;
      ModHop(|buf|, TrimLength(c));
    }
  }

  /** The first speech window of an utterance. */
  lemma SpeechStarts<S>(e: Engine<S>, st: State<S>, w: seq<S>)
    requires !st.inSpeech && e.IsSpeech(w)
    requires |st.speech| + |st.preSpeech| + |w| <= e.cfg.maxSamples
    ensures Step(e, st, w).0 == State([], st.speech + st.preSpeech + w, true, 0, 1)
    ensures Step(e, st, w).1 == [SpeechStart]
  {
  }

  /** A quiet window outside an utterance only feeds the pre-speech buffer. */
  lemma QuietWhileIdle<S>(e: Engine<S>, st: State<S>, w: seq<S>)
    requires !st.inSpeech && !e.IsSpeech(w)
    ensures var r := Step(e, st, w);
      && r.1 == []
      && r.0 == st.(preSpeech := r.0.preSpeech)
      && r.0.preSpeech == (st.preSpeech + w)[|st.preSpeech + w| - |r.0.preSpeech|..]
      && |r.0.preSpeech| == if |st.preSpeech| + |w| > e.cfg.preSpeechChunks * HOP
                             then e.cfg.preSpeechChunks * HOP else |st.preSpeech| + |w|
  {
  }

  /**
   * A speech window inside an utterance does not reset the quiet-window count:
   * an utterance ends after `silenceChunks` quiet windows in total.
   */
  lemma SpeechKeepsSilenceCount<S>(e: Engine<S>, st: State<S>, w: seq<S>)
    requires st.inSpeech && e.IsSpeech(w)
    ensures Step(e, st, w).0.silenceChunks == st.silenceChunks
    ensures Step(e, st, w).0.speechChunks == st.speechChunks + 1
    ensures Step(e, st, w).1 == (if |st.speech| + |w| > e.cfg.maxSamples then Emit(e, st.speech + w) else [])
  {
  }

  /**
   * The window that closes an utterance: the segment minus its trimmed tail is
   * emitted when it has enough speech windows (and encodes); the buffer is
   * cleared and both counters reset either way.
   */
  lemma QuietCloses<S>(e: Engine<S>, st: State<S>, w: seq<S>)
    requires st.inSpeech && !e.IsSpeech(w) && st.silenceChunks + 1 >= e.cfg.silenceChunks
    ensures var r := Step(e, st, w);
      && r.0 == State(st.preSpeech, [], false, 0, 0)
      && (st.speechChunks >= e.cfg.minSpeechChunks && |st.speech + w| > 0 ==>
            r.1 == Emit(e, DropLast(st.speech + w, TrimLength(e.cfg))))
      && (st.speechChunks < e.cfg.minSpeechChunks ==> r.1 == [])
  {
  }

  /** The safety cap: the buffer is emitted and cleared, the counters are kept. */
  lemma SafetyCap<S>(e: Engine<S>, st: State<S>, w: seq<S>)
    requires st.inSpeech && e.IsSpeech(w) && |st.speech| + |w| > e.cfg.maxSamples
    ensures Step(e, st, w).0 == State(st.preSpeech, [], false, st.silenceChunks, st.speechChunks + 1)
    ensures Step(e, st, w).1 == Emit(e, st.speech + w)
  {
  }

  // ---------------------------------------------------------------------
  // Runs of several windows

  lemma {:induction false} RunAppend<S>(e: Engine<S>, st: State<S>, a: seq<seq<S>>, b: seq<seq<S>>)
    decreases |a|
    ensures Run(e, st, a + b).0 == Run(e, Run(e, st, a).0, b).0
    ensures Run(e, st, a + b).1 == Run(e, st, a).1 + Run(e, Run(e, st, a).0, b).1
  {
    if a != [] {
      var first := Step(e, st, a[0]);
      RunAppend(e, first.0, a[1..], b);
      AppendTail(a, b);
      var ra := Run(e, first.0, a[1..]);
      var rb := Run(e, ra.0, b);
      assert Run(e, st, a) == (ra.0, first.1 + ra.1);
      assert Run(e, st, a + b).1 == first.1 + (ra.1 + rb.1);
      Assoc(first.1, ra.1, rb.1);
    } else {
      Assoc(b, [], []);
    }
  }

  /** Running one more window continues a run. */
  lemma RunAppendOne<S>(e: Engine<S>, st: State<S>, ws: seq<seq<S>>, w: seq<S>)
    ensures Run(e, st, ws + [w]).0 == Step(e, Run(e, st, ws).0, w).0
    ensures Run(e, st, ws + [w]).1 == Run(e, st, ws).1 + Step(e, Run(e, st, ws).0, w).1
  {
    RunAppend(e, st, ws, [w]);
    var last := Run(e, Run(e, st, ws).0, [w]);
    ConsTail(w, []);
    Assoc(Step(e, Run(e, st, ws).0, w).1, [], []);
  }

  lemma {:induction false} RunKeepsInv<S>(e: Engine<S>, st: State<S>, ws: seq<seq<S>>)
    decreases |ws|
    requires Inv(e.cfg, st)
    requires forall i :: 0 <= i < |ws| ==> |ws[i]| == HOP
    ensures Inv(e.cfg, Run(e, st, ws).0)
  {
    if ws != [] {
      StepKeepsInv(e, st, ws[0]);
      RunKeepsInv(e, Step(e, st, ws[0]).0, ws[1..]);
    }
  }

  /**
   * Quiet windows outside an utterance emit nothing, never start one, and the
   * pre-speech buffer never holds more than `preSpeechChunks` windows.
   */
  lemma {:induction false} AllQuietIsSilent<S>(e: Engine<S>, st: State<S>, ws: seq<seq<S>>)
    decreases |ws|
    requires !st.inSpeech
    requires forall i :: 0 <= i < |ws| ==> !e.IsSpeech(ws[i])
    ensures Run(e, st, ws).1 == []
    ensures !Run(e, st, ws).0.inSpeech
    ensures Run(e, st, ws).0.speech == st.speech
    ensures ws != [] ==> |Run(e, st, ws).0.preSpeech| <= e.cfg.preSpeechChunks * HOP
  {
    if ws != [] {
      AllQuietIsSilent(e, Step(e, st, ws[0]).0, ws[1..]);
    }
  }

  /** Quiet windows outside an utterance leave the last windows, up to the cap, in the pre-speech buffer. */
  lemma {:induction false} QuietFillsPreSpeech<S>(e: Engine<S>, st: State<S>, ws: seq<seq<S>>)
    decreases |ws|
    requires !st.inSpeech
    requires forall i :: 0 <= i < |ws| ==> !e.IsSpeech(ws[i])
    ensures Run(e, st, ws).0.preSpeech ==
              KeepLastIter(st.preSpeech, ws, e.cfg.preSpeechChunks * HOP)
  {
    if ws != [] {
      QuietFillsPreSpeech(e, Step(e, st, ws[0]).0, ws[1..]);
    }
  }

  /** The pre-speech buffer after several quiet windows, window by window. */
  function KeepLastIter<S>(pre: seq<S>, ws: seq<seq<S>>, cap: nat): seq<S>
    decreases |ws|
  {
    if ws == [] then pre else KeepLastIter(KeepLast(pre + ws[0], cap), ws[1..], cap)
  }

  /** Speech windows inside an utterance below the cap: the buffer grows by each, no event. */
  lemma {:induction false} SpeechRun<S>(e: Engine<S>, st: State<S>, ws: seq<seq<S>>)
    decreases |ws|
    requires st.inSpeech
    requires forall i :: 0 <= i < |ws| ==> e.IsSpeech(ws[i])
    requires |st.speech| + |Concat(ws)| <= e.cfg.maxSamples
    ensures Run(e, st, ws).0 ==
      State(st.preSpeech, st.speech + Concat(ws), true, st.silenceChunks, st.speechChunks + |ws|)
    ensures Run(e, st, ws).1 == []
  {
    if ws != [] {
      assert Concat(ws) == ws[0] + Concat(ws[1..]);
      assert st.speech + ws[0] + Concat(ws[1..]) == st.speech + Concat(ws);
      SpeechRun(e, Step(e, st, ws[0]).0, ws[1..]);
    }
  }

  /** Quiet windows inside an utterance that do not yet close it: the buffer grows, no event. */
  lemma {:induction false} QuietRun<S>(e: Engine<S>, st: State<S>, ws: seq<seq<S>>)
    decreases |ws|
    requires st.inSpeech
    requires forall i :: 0 <= i < |ws| ==> !e.IsSpeech(ws[i])
    requires st.silenceChunks + |ws| < e.cfg.silenceChunks
    ensures Run(e, st, ws).0 ==
      State(st.preSpeech, st.speech + Concat(ws), true, st.silenceChunks + |ws|, st.speechChunks)
    ensures Run(e, st, ws).1 == []
  {
    if ws != [] {
      assert Concat(ws) == ws[0] + Concat(ws[1..]);
      assert st.speech + ws[0] + Concat(ws[1..]) == st.speech + Concat(ws);
      QuietRun(e, Step(e, st, ws[0]).0, ws[1..]);
    }
  }

  /**
   * Speech windows from an idle state, within the safety cap: `speech-start`
   * once, and the utterance holds the pre-speech buffer and every window.
   */
  lemma {:induction false} Opens<S>(e: Engine<S>, st: State<S>, speech: seq<seq<S>>)
    requires !st.inSpeech && st.speech == [] && 1 <= |speech|
    requires forall i :: 0 <= i < |speech| ==> e.IsSpeech(speech[i])
    requires |st.preSpeech| + |Concat(speech)| <= e.cfg.maxSamples
    ensures Run(e, st, speech).0 == State([], st.preSpeech + Concat(speech), true, 0, |speech|)
    ensures Run(e, st, speech).1 == [SpeechStart]
  {
    var s1 := Step(e, st, speech[0]);
    assert Concat(speech) == speech[0] + Concat(speech[1..]);
    assert s1.0 == State([], st.preSpeech + speech[0], true, 0, 1);
    assert s1.1 == [SpeechStart];
    SpeechRun(e, s1.0, speech[1..]);
    assert st.preSpeech + speech[0] + Concat(speech[1..]) == st.preSpeech + Concat(speech);
  }

  /**
   * `silenceChunks` quiet windows after the last speech window of an utterance
   * opened with no quiet window yet: the utterance closes, and its segment,
   * minus the trimmed tail, is emitted exactly when it had enough speech
   * windows and encodes.
   */
  lemma {:induction false} Closes<S>(e: Engine<S>, st: State<S>, quiet: seq<seq<S>>)
    requires st.inSpeech && st.silenceChunks == 0
    requires |quiet| == e.cfg.silenceChunks >= 1
    requires forall i :: 0 <= i < |quiet| ==> !e.IsSpeech(quiet[i])
    ensures Run(e, st, quiet).0 == State(st.preSpeech, [], false, 0, 0)
    ensures Run(e, st, quiet).1 ==
      if st.speechChunks >= e.cfg.minSpeechChunks && |st.speech + Concat(quiet)| > 0
      then Emit(e, DropLast(st.speech + Concat(quiet), TrimLength(e.cfg))) else []
  {
    var last := quiet[|quiet| - 1];
    var q := quiet[..|quiet| - 1];
    DropLastElem(quiet);
    QuietRun(e, st, q);
    var s3 := Run(e, st, q).0;
    RunAppend(e, st, q, [last]);
    ConcatAppend(q, [last]);
    assert Concat([last]) == last;
    assert s3.speech + last == st.speech + Concat(quiet);
    QuietCloses(e, s3, last);
  }

  /**
   * One utterance from an idle state: `speech` windows (at least one and at
   * least `minSpeechChunks`, within the safety cap) followed by `silenceChunks`
   * quiet windows produce exactly `speech-start` and one `speech-detected`
   * (when the encoding succeeds) whose segment is the pre-speech buffer, the
   * speech and the quiet windows minus the trimmed tail; the engine is idle
   * again with both counters reset.
   */
  lemma Utterance<S>(e: Engine<S>, st: State<S>, speech: seq<seq<S>>, quiet: seq<seq<S>>)
    requires !st.inSpeech && st.speech == []
    requires 1 <= |speech| && e.cfg.minSpeechChunks <= |speech|
    requires |quiet| == e.cfg.silenceChunks >= 1
    requires forall i :: 0 <= i < |speech| ==> e.IsSpeech(speech[i]) && |speech[i]| == HOP
    requires forall i :: 0 <= i < |quiet| ==> !e.IsSpeech(quiet[i]) && |quiet[i]| == HOP
    requires |st.preSpeech| + |speech| * HOP <= e.cfg.maxSamples
    ensures var segment := DropLast(st.preSpeech + Concat(speech) + Concat(quiet), TrimLength(e.cfg));
      && Run(e, st, speech + quiet).0 == Idle()
      && Run(e, st, speech + quiet).1 == [SpeechStart] + Emit(e, segment)
      && |segment| == |st.preSpeech| + (|speech| + |quiet| - |quiet| / 2) * HOP
  {
    ConcatLength(speech, HOP);
    ConcatLength(quiet, HOP);
    Opens(e, st, speech);
    var s2 := Run(e, st, speech).0;
    Closes(e, s2, quiet);
    RunAppend(e, st, speech, quiet);
    var buf := st.preSpeech + Concat(speech) + Concat(quiet);
    assert |buf| > TrimLength(e.cfg) by {
      assert |quiet| * HOP > (|quiet| / 2) * HOP;
    }
    assert (|speech| + |quiet|) * HOP - (|quiet| / 2) * HOP == (|speech| + |quiet| - |quiet| / 2) * HOP;
  }

  /**
   * An utterance with fewer than `minSpeechChunks` speech windows is
   * discarded: `speech-start` is the only event.
   */
  lemma ShortUtteranceDiscarded<S>(e: Engine<S>, st: State<S>, speech: seq<seq<S>>, quiet: seq<seq<S>>)
    requires !st.inSpeech && st.speech == []
    requires 1 <= |speech| < e.cfg.minSpeechChunks
    requires |quiet| == e.cfg.silenceChunks >= 1
    requires forall i :: 0 <= i < |speech| ==> e.IsSpeech(speech[i]) && |speech[i]| == HOP
    requires forall i :: 0 <= i < |quiet| ==> !e.IsSpeech(quiet[i])
    requires |st.preSpeech| + |speech| * HOP <= e.cfg.maxSamples
    ensures Run(e, st, speech + quiet).0 == Idle()
    ensures Run(e, st, speech + quiet).1 == [SpeechStart]
  {
    ConcatLength(speech, HOP);
    Opens(e, st, speech);
    Closes(e, Run(e, st, speech).0, quiet);
    RunAppend(e, st, speech, quiet);
  }

  // ---------------------------------------------------------------------
  // The capture loop's variables, updated window by window

  /**
   * The variables of the capture loop. `ProcessWindow` is the body of the
   * inner `while buffer.len() >= HOP_SIZE` loop after the window is cut.
   */
  class Segmenter<S> {
    const engine: Engine<S>
    var preSpeech: seq<S>
    var speechBuffer: seq<S>
    var inSpeech: bool
    var silenceChunks: nat
    var speechChunks: nat
    /** Events emitted so far, oldest first. */
    var events: seq<Event<S>>
    /** The windows processed so far, oldest first. */
    ghost var windows: seq<seq<S>>

    function Current(): State<S>
      reads this
    {
      State(preSpeech, speechBuffer, inSpeech, silenceChunks, speechChunks)
    }

    /**
     * The variables are those of the state machine run from the idle state
     * over the windows processed so far, and its events are the ones emitted.
     */
    ghost predicate Valid()
      reads this
    {
      && Inv(engine.cfg, Current())
      && Current() == Run(engine, Idle(), windows).0
      && events == Run(engine, Idle(), windows).1
    }

    constructor (engine: Engine<S>)
      ensures this.engine == engine
      ensures Current() == Idle() && events == [] && windows == []
      ensures Valid()
    {
      this.engine := engine;
      preSpeech, speechBuffer, inSpeech := [], [], false;
      silenceChunks, speechChunks := 0, 0;
      events := [];
      windows := [];
    }

    /** Processes one window of HOP samples. */
    method ProcessWindow(mono: seq<S>)
      requires Valid() && |mono| == HOP
      modifies this
      ensures Valid()
      ensures windows == old(windows) + [mono]
      ensures Current() == Step(engine, old(Current()), mono).0
      ensures events == old(events) + Step(engine, old(Current()), mono).1
    {
      StepKeepsInv(engine, Current(), mono);
      ghost var before := Run(engine, Idle(), windows);
      ghost var step := Step(engine, before.0, mono);
      RunAppendOne(engine, Idle(), windows, mono);
      if engine.IsSpeech(mono) {
        SpeechWindow(mono);
      } else if inSpeech {
        QuietInSpeech(mono);
      } else {
        QuietWhileIdle(mono);
      }
      windows := windows + [mono];
      assert events == before.1 + step.1;
    }

    /** The speech branch: open the utterance if needed, extend it, apply the safety cap. */
    method SpeechWindow(mono: seq<S>)
      requires engine.IsSpeech(mono)
      modifies this
      ensures Current() == Step(engine, old(Current()), mono).0
      ensures events == old(events) + Step(engine, old(Current()), mono).1
      ensures windows == old(windows)
    {
      if !inSpeech {
        inSpeech := true;
        speechChunks := 0;
        silenceChunks := 0;
        speechBuffer := speechBuffer + preSpeech;
        preSpeech := [];
        events := events + [SpeechStart];
      }
      speechChunks := speechChunks + 1;
      speechBuffer := speechBuffer + mono;
      if |speechBuffer| > engine.cfg.maxSamples {
        if engine.encodes(speechBuffer) {
          events := events + [SpeechDetected(speechBuffer)];
        }
        speechBuffer := [];
        inSpeech := false;
      }
    }

    /** A quiet window inside an utterance: count it, and close the utterance after enough of them. */
    method QuietInSpeech(mono: seq<S>)
      requires !engine.IsSpeech(mono) && inSpeech
      modifies this
      ensures Current() == Step(engine, old(Current()), mono).0
      ensures events == old(events) + Step(engine, old(Current()), mono).1
      ensures windows == old(windows)
    {
      var c := engine.cfg;
      silenceChunks := silenceChunks + 1;
      speechBuffer := speechBuffer + mono;
      if silenceChunks >= c.silenceChunks {
        if speechChunks >= c.minSpeechChunks && speechBuffer != [] {
          var trim := (c.silenceChunks / 2) * HOP;
          if |speechBuffer| > trim {
            speechBuffer := speechBuffer[..|speechBuffer| - trim];
          }
          if engine.encodes(speechBuffer) {
            events := events + [SpeechDetected(speechBuffer)];
          }
        }
        speechBuffer := [];
        inSpeech := false;
        silenceChunks := 0;
        speechChunks := 0;
      }
    }

    /** A quiet window outside an utterance: append it and drop the oldest samples beyond the cap. */
    method QuietWhileIdle(mono: seq<S>)
      requires !engine.IsSpeech(mono) && !inSpeech
      modifies this
      ensures Current() == Step(engine, old(Current()), mono).0
      ensures events == old(events) + Step(engine, old(Current()), mono).1
      ensures windows == old(windows)
    {
      var pre := preSpeech + mono;
      var cap := engine.cfg.preSpeechChunks * HOP;
      ghost var extended := pre;
      while |pre| > cap
        invariant pre == extended[|extended| - |pre|..]
        invariant |pre| >= (if |extended| > cap then cap else |extended|)
      {
        pre := pre[1..];
      }
      assert pre == KeepLast(extended, cap);
      preSpeech := pre;
    }
  }
}
