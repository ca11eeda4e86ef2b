/**
 * The speaker capture commands (src-tauri/src/speaker/commands.rs): the
 * single-task guard of `start_system_audio_capture` /
 * `stop_system_audio_capture`, and the spawned task that cuts the speaker
 * sample stream into HOP-sample windows and feeds them to the segmentation
 * engine with the constants 0.004 / 0.01 / 47 / 15 / 15.
 */
module SpeakerCommands {
  import opened Wrappers
  import opened Chunking
  import opened Vad
  import opened Seqs

  /** The variables of the spawned capture task. */
  class CaptureTask<S> {
    /** Samples received but not yet cut into a window (`buffer`). */
    var buffer: seq<S>
    /** `pre_speech`, `speech_buffer`, `in_speech` and the two counters. */
    const vad: Segmenter<S>

    ghost predicate Valid()
      reads this, vad
    {
      vad.Valid() && |buffer| < HOP
    }

    constructor (sampleRate: nat, levels: seq<S> -> (real, real), encodes: seq<S> -> bool)
      ensures fresh(vad)
      ensures vad.engine == Engine(SpeakerConfig(sampleRate), levels, encodes)
      ensures buffer == [] && vad.Current() == Idle() && vad.events == [] && vad.windows == []
      ensures Valid()
    {
      buffer := [];
      vad := new Segmenter(Engine(SpeakerConfig(sampleRate), levels, encodes));
    }

    /**
     * One sample from the stream: it is queued, and every complete window at
     * the front of the queue is cut off, in arrival order, and processed.
     */
    method OnSample(x: S)
      requires Valid()
      modifies this, vad
      ensures Valid()
      ensures buffer == Rest(old(buffer) + [x], HOP)
      ensures vad.windows == old(vad.windows) + Chunks(old(buffer) + [x], HOP)
    {
      buffer := buffer + [x];
      ghost var all := buffer;
      ghost var w0 := vad.windows;
      Assoc(w0, [], []);
      ghost var done: seq<seq<S>> := [];
      while |buffer| >= HOP
        invariant vad.Valid()
        invariant Queued(all, w0, done)
        decreases |buffer|
      {
        done := ProcessFront(all, w0, done);
      }
      assert Chunks(buffer, HOP) == [] && Rest(buffer, HOP) == buffer;
      Assoc(done, [], []);
    }

    /**
     * The windows processed since `w0` are `done`; followed by the windows
     * still queued they are the windows of `all`, and the queue keeps the
     * same tail.
     */
    ghost predicate Queued(all: seq<S>, w0: seq<seq<S>>, done: seq<seq<S>>)
      reads this, vad
    {
      && vad.windows == w0 + done
      && Chunks(all, HOP) == done + Chunks(buffer, HOP)
      && Rest(all, HOP) == Rest(buffer, HOP)
    }

    /** One pass of the inner `while buffer.len() >= HOP_SIZE` loop. */
    method ProcessFront(ghost all: seq<S>, ghost w0: seq<seq<S>>, ghost done: seq<seq<S>>)
      returns (ghost done': seq<seq<S>>)
      requires vad.Valid() && Queued(all, w0, done) && |buffer| >= HOP
      modifies this, vad
      ensures vad.Valid() && Queued(all, w0, done') && |buffer| < old(|buffer|)
    {
      ghost var before := buffer;
      var mono := CutWindow();
      CutKeepsOrder(all, done, before);
      vad.ProcessWindow(mono);
      Assoc(w0, done, [mono]);
      done' := done + [mono];
    }

    /** `for _ in 0..HOP_SIZE { mono.push(buffer.pop_front()) }`: the first HOP queued samples. */
    method CutWindow() returns (mono: seq<S>)
      requires |buffer| >= HOP
      modifies this
      ensures mono == old(buffer)[..HOP] && buffer == old(buffer)[HOP..]
    {
      ghost var before := buffer;
      mono := [];
      var i := 0;
      while i < HOP
        invariant 0 <= i <= HOP && |mono| == i
        invariant mono + buffer == before
      {
        if buffer != [] {
          mono := mono + [buffer[0]];
          buffer := buffer[1..];
        }
        i := i + 1;
      }
      assert before[..HOP] == mono;
    }

    /**
     * The `while let Some(sample) = stream.next()` loop over a finite part of
     * the stream: the windows processed are exactly the complete windows of
     * the queued samples followed by the new ones, and the incomplete tail
     * stays queued.
     */
    method Consume(samples: seq<S>)
      requires Valid()
      modifies this, vad
      ensures Valid()
      ensures buffer == Rest(old(buffer) + samples, HOP)
      ensures vad.windows == old(vad.windows) + Chunks(old(buffer) + samples, HOP)
    {
      ghost var b0 := buffer;
      ghost var w0 := vad.windows;
      var k := 0;
      ghost var fed: seq<S> := [];
      NothingConsumed(b0, w0);
      while k < |samples|
        invariant 0 <= k <= |samples| && fed == samples[..k]
        invariant Valid()
        invariant Consumed(b0, w0, fed)
      {
        Feed(b0, w0, fed, samples[k]);
        fed := fed + [samples[k]];
        k := k + 1;
      }
      assert fed == samples;
    }

    /** The queue and the processed windows after `stream` followed `b0` in the queue. */
    ghost predicate Consumed(b0: seq<S>, w0: seq<seq<S>>, stream: seq<S>)
      reads this, vad
    {
      buffer == Rest(b0 + stream, HOP) && vad.windows == w0 + Chunks(b0 + stream, HOP)
    }

    /** One turn of the `while let Some(sample)` loop. */
    method Feed(ghost b0: seq<S>, ghost w0: seq<seq<S>>, ghost stream: seq<S>, x: S)
      requires Valid() && Consumed(b0, w0, stream)
      modifies this, vad
      ensures Valid() && Consumed(b0, w0, stream + [x])
    {
      ghost var prefix := b0 + stream;
      assert b0 + (stream + [x]) == prefix + [x];
      ChunksAppend(prefix, [x], HOP);
      ghost var queued := buffer;
      ghost var earlier := vad.windows;
      assert queued == Rest(prefix, HOP) && earlier == w0 + Chunks(prefix, HOP);
      OnSample(x);
      assert buffer == Rest(queued + [x], HOP) == Rest(prefix + [x], HOP);
      Assoc(w0, Chunks(prefix, HOP), Chunks(queued + [x], HOP));
    }
  }

  /** Before the first sample, the queue is as it was and no window was added. */
  lemma NothingConsumed<S>(b0: seq<S>, w0: seq<seq<S>>)
    requires |b0| < HOP
    ensures Rest(b0 + [], HOP) == b0
    ensures w0 + Chunks(b0 + [], HOP) == w0
  {
    Assoc(b0, [], []);
    assert Chunks(b0, HOP) == [];
    Assoc(w0, [], []);
  }

  /** Cutting the first window off the queue moves it to the processed windows. */
  lemma CutKeepsOrder<S>(all: seq<S>, done: seq<seq<S>>, before: seq<S>)
    requires |before| >= HOP
    requires Chunks(all, HOP) == done + Chunks(before, HOP)
    requires Rest(all, HOP) == Rest(before, HOP)
    ensures Chunks(all, HOP) == (done + [before[..HOP]]) + Chunks(before[HOP..], HOP)
    ensures Rest(all, HOP) == Rest(before[HOP..], HOP)
  {
    Assoc(done, [before[..HOP]], Chunks(before[HOP..], HOP));
  }

  /**
   * Every window a capture task processes is HOP consecutive samples of the
   * stream, in arrival order, and fewer than HOP samples stay queued.
   */
  lemma WindowsAreConsecutive<S>(stream: seq<S>, i: nat)
    requires i < |Chunks(stream, HOP)|
    ensures |Chunks(stream, HOP)[i]| == HOP
    ensures (i + 1) * HOP <= |stream| && Chunks(stream, HOP)[i] == stream[i * HOP..(i + 1) * HOP]
    ensures Concat(Chunks(stream, HOP)) + Rest(stream, HOP) == stream
    ensures |Rest(stream, HOP)| < HOP
  {
    ChunkAt(stream, HOP, i);
    ChunksThenRest(stream, HOP);
  }

  /** `AudioState.stream_task`: at most one capture task at a time. */
  class AudioState<S> {
    var streamTask: Option<CaptureTask<S>>

    constructor ()
      ensures streamTask == None
    {
      streamTask := None;
    }

    /**
     * `start_system_audio_capture`. `input` is the outcome of opening the
     * speaker input: its sample rate, or the error text.
     */
    method Start(input: Result<nat, string>, levels: seq<S> -> (real, real), encodes: seq<S> -> bool)
      returns (r: Result<(), string>)
      modifies this
      ensures old(streamTask).Some? ==> r == Err("Capture already running") && streamTask == old(streamTask)
      ensures old(streamTask).None? && input.Err? ==> r == Err(input.error) && streamTask == None
      ensures old(streamTask).None? && input.Ok? ==>
        && r == Ok(())
        && streamTask.Some? && fresh(streamTask.value)
        && streamTask.value.vad.engine == Engine(SpeakerConfig(input.value), levels, encodes)
        && streamTask.value.buffer == [] && streamTask.value.vad.Current() == Idle()
        && streamTask.value.Valid()
    {
      if streamTask.Some? {
        return Err("Capture already running");
      }
      if input.Err? {
        return Err(input.error);
      }
      var task := new CaptureTask(input.value, levels, encodes);
      streamTask := Some(task);
      r := Ok(());
    }

    /** `stop_system_audio_capture`: aborts the capture task if there is one; never fails. */
    method Stop() returns (r: Result<(), string>)
      modifies this
      ensures r == Ok(()) && streamTask == None
    {
      if streamTask.Some? {
        streamTask := None;
      }
      r := Ok(());
    }
  }
}
