/**
 * The device capture of src-tauri/src/audio.rs: the adjustable detector
 * settings, the global `CaptureState` with its start/stop commands, and the
 * capture thread that folds interleaved multi-channel data into mono windows
 * of ANALYSIS_CHUNK samples and feeds them to the segmentation engine with a
 * copy of the settings taken at start.
 */
module Audio {
  import opened Wrappers
  import opened Seqs
  import opened Chunking
  import opened Vad
  import opened DeviceSelect

  /** The adjustable detector settings (`Settings`). */
  datatype Settings = Settings(
    vadSensitivityRms: real,
    speechPeakThreshold: real,
    silenceChunksToEnd: nat,
    minSpeechChunks: nat,
    preSpeechChunks: nat
  )

  /** `Settings::default()`. */
  function DefaultSettings(): Settings {
    Settings(0.004, 0.01, 150, 20, 20)
  }

  /**
   * The constants of a capture session run with `s` at `sampleRate`: it
   * trims, caps pre-speech and caps an utterance as the settings say.
   */
  function SessionConfig(s: Settings, sampleRate: nat): (c: Config)
    ensures TrimLength(c) == (s.silenceChunksToEnd / 2) * 1024
    ensures c.preSpeechChunks * HOP == s.preSpeechChunks * 1024
    ensures c.maxSamples == sampleRate * 30
    ensures c.silenceChunks == s.silenceChunksToEnd && c.minSpeechChunks == s.minSpeechChunks
    ensures c.rmsThreshold == s.vadSensitivityRms && c.peakThreshold == s.speechPeakThreshold
  {
    Config(s.vadSensitivityRms, s.speechPeakThreshold, s.silenceChunksToEnd,
           s.minSpeechChunks, s.preSpeechChunks, sampleRate * 30)
  }

  // Range checks of the setters

  /** `(0.0001..=0.1).contains(&value)`: the range of both thresholds. */
  predicate ThresholdInRange(v: real) {
    0.0001 <= v <= 0.1
  }

  /** `(1..=2000).contains(&chunks)`. */
  predicate SilenceInRange(n: nat) {
    1 <= n <= 2000
  }

  /** `(1..=1000).contains(&chunks)`: minimum speech and pre-speech. */
  predicate ChunkCountInRange(n: nat) {
    1 <= n <= 1000
  }

  /** Downmixing: the mono window of a block of HOP frames of `channels` values each. */
  function Mono<S>(downmix: seq<S> -> S, channels: nat, block: seq<S>): (r: seq<S>)
    requires channels >= 1
  {
    Map(downmix, Chunks(block, channels))
  }

  /** The mono windows of consecutive blocks. */
  function MonoWindows<S>(downmix: seq<S> -> S, channels: nat, blocks: seq<seq<S>>): (r: seq<seq<S>>)
    requires channels >= 1
    ensures |r| == |blocks|
  {
    seq(|blocks|, i requires 0 <= i < |blocks| => Mono(downmix, channels, blocks[i]))
  }

  /**
   * One window consumes ANALYSIS_CHUNK * channels interleaved values and
   * yields ANALYSIS_CHUNK mono values; mono value `j` is the downmix of frame
   * `j`, the `channels` values from position `j * channels`.
   */
  lemma MonoWindowShape<S>(downmix: seq<S> -> S, channels: nat, block: seq<S>)
    requires channels >= 1 && |block| == HOP * channels
    ensures |Mono(downmix, channels, block)| == HOP
    ensures forall j: nat :: j < HOP ==>
      j * channels + channels <= |block| &&
      Mono(downmix, channels, block)[j] == downmix(block[j * channels..j * channels + channels])
  {
    MapChunksShape(downmix, block, channels, HOP);
  }

  /** `cfg.channels` is at least one. */
  type Channels = c: nat | c >= 1 witness 1

  /** The part of the device's `SupportedStreamConfig` the capture uses. */
  datatype StreamConfig = StreamConfig(sampleRate: nat, channels: Channels)

  /** The receiving end of the thread's stop channel: whether `()` was sent. */
  class StopSignal {
    var sent: bool

    constructor ()
      ensures !sent
    {
      sent := false;
    }
  }

  /** The local state of the capture thread's stream callback. */
  class CaptureThread<S> {
    const channels: Channels
    /** `sum / channels as f32` over one frame. */
    const downmix: seq<S> -> S
    /** The receiver the thread blocks on until `stop` is requested. */
    const stop: StopSignal
    /** Values received and not yet folded into a window (`interleaved`). */
    var interleaved: seq<S>
    /** `pre_speech`, `speech_buffer`, `in_speech` and the two counters, over the settings snapshot. */
    const vad: Segmenter<S>

    ghost predicate Valid()
      reads this, vad
    {
      vad.Valid() && |interleaved| < HOP * channels
    }

    constructor (settings: Settings, cfg: StreamConfig, stop: StopSignal,
                 levels: seq<S> -> (real, real), encodes: seq<S> -> bool, downmix: seq<S> -> S)
      ensures fresh(vad) && this.stop == stop
      ensures vad.engine == Engine(SessionConfig(settings, cfg.sampleRate), levels, encodes)
      ensures channels == cfg.channels && this.downmix == downmix
      ensures interleaved == [] && vad.Current() == Idle() && vad.events == [] && vad.windows == []
      ensures Valid()
    {
      channels := cfg.channels;
      this.downmix := downmix;
      this.stop := stop;
      interleaved := [];
      vad := new Segmenter(Engine(SessionConfig(settings, cfg.sampleRate), levels, encodes));
    }

    /**
     * The F32 data callback: the data is queued, and every complete block of
     * ANALYSIS_CHUNK * channels values at the front of the queue is folded
     * into a mono window, in arrival order, and processed.
     */
    method OnData(data: seq<S>)
      requires Valid()
      modifies this, vad
      ensures Valid()
      ensures interleaved == Rest(old(interleaved) + data, HOP * channels)
      ensures vad.windows == old(vad.windows) + MonoWindows(downmix, channels, Chunks(old(interleaved) + data, HOP * channels))
    {
      interleaved := interleaved + data;
      ghost var all := interleaved;
      ghost var w0 := vad.windows;
      ghost var done: seq<seq<S>> := [];
      Assoc(w0, [], []);
      assert MonoWindows(downmix, channels, done) == [];
      while |interleaved| >= HOP * channels
        invariant vad.Valid()
        invariant Queued(all, w0, done)
        decreases |interleaved|
      {
        done := ProcessFront(all, w0, done);
      }
      assert Chunks(interleaved, HOP * channels) == [] && Rest(interleaved, HOP * channels) == interleaved;
      Assoc(done, [], []);
    }

    /**
     * The blocks folded since `w0` are `done`; followed by the blocks still
     * queued they are the blocks of `all`, and the queue keeps the same tail.
     */
    ghost predicate Queued(all: seq<S>, w0: seq<seq<S>>, done: seq<seq<S>>)
      reads this, vad
    {
      && vad.windows == w0 + MonoWindows(downmix, channels, done)
      && Chunks(all, HOP * channels) == done + Chunks(interleaved, HOP * channels)
      && Rest(all, HOP * channels) == Rest(interleaved, HOP * channels)
    }

    /** One pass of `while interleaved.len() >= needed`. */
    method ProcessFront(ghost all: seq<S>, ghost w0: seq<seq<S>>, ghost done: seq<seq<S>>)
      returns (ghost done': seq<seq<S>>)
      requires vad.Valid() && Queued(all, w0, done) && |interleaved| >= HOP * channels
      modifies this, vad
      ensures vad.Valid() && Queued(all, w0, done') && |interleaved| < old(|interleaved|)
    {
      ghost var before := interleaved;
      var mono;
      ghost var block;
      mono, block := CutMonoWindow();
      BlockKeepsOrder(all, done, before, HOP * channels);
      vad.ProcessWindow(mono);
      MonoWindowsSnoc(downmix, channels, done, block);
      Assoc(w0, MonoWindows(downmix, channels, done), [mono]);
      done' := done + [block];
    }

    /**
     * `for _ in 0..ANALYSIS_CHUNK { ...; mono.push(sum / channels) }`: the
     * first HOP frames of the queue, each downmixed to one value.
     */
    method CutMonoWindow() returns (mono: seq<S>, ghost block: seq<S>)
      requires |interleaved| >= HOP * channels
      modifies this
      ensures block == old(interleaved)[..HOP * channels] && interleaved == old(interleaved)[HOP * channels..]
      ensures mono == Mono(downmix, channels, block) && |mono| == HOP
    {
      ghost var before := interleaved;
      mono := [];
      block := [];
      var i := 0;
      while i < HOP
        invariant 0 <= i <= HOP
        invariant |block| == i * channels && block + interleaved == before
        invariant |interleaved| >= (HOP - i) * channels
        invariant Folded(downmix, channels, block, mono, i)
      {
        FrameArith(i, channels, |interleaved|);
        var frame := CutFrame();
        FrameAppend(downmix, channels, block, frame);
        mono := mono + [downmix(frame)];
        block := block + frame;
        i := i + 1;
      }
      assert before[..HOP * channels] == block;
    }

    /** `for _c in 0..channels { if let Some(v) = interleaved.pop_front() { sum += v } }`. */
    method CutFrame() returns (frame: seq<S>)
      requires |interleaved| >= channels
      modifies this
      ensures frame == old(interleaved)[..channels] && interleaved == old(interleaved)[channels..]
    {
      ghost var before := interleaved;
      frame := [];
      var c := 0;
      while c < channels
        invariant 0 <= c <= channels && |frame| == c
        invariant frame + interleaved == before
      {
        if interleaved != [] {
          frame := frame + [interleaved[0]];
          interleaved := interleaved[1..];
        }
        c := c + 1;
      }
      assert before[..channels] == frame;
    }
  }

  /** After `i` frames: the block holds whole frames only and `mono` is their downmix. */
  ghost predicate Folded<S>(downmix: seq<S> -> S, channels: nat, block: seq<S>, mono: seq<S>, i: nat)
    requires channels >= 1
  {
    |Chunks(block, channels)| == i && Rest(block, channels) == [] && mono == Mono(downmix, channels, block)
  }

  lemma FrameArith(i: nat, c: nat, len: nat)
    requires i < HOP && c >= 1 && len >= (HOP - i) * c
    ensures len >= c && len - c >= (HOP - (i + 1)) * c && (i + 1) * c == i * c + c
  {
    var k: nat := HOP - (i + 1);
    MulSucc(k, c);
    MulSucc(i, c);
    assert HOP - i == k + 1;
  }

  /** Appending one frame to a block of whole frames appends one mono value. */
  lemma FrameAppend<S>(downmix: seq<S> -> S, channels: nat, block: seq<S>, frame: seq<S>)
    requires channels >= 1 && |frame| == channels && Rest(block, channels) == []
    ensures Chunks(block + frame, channels) == Chunks(block, channels) + [frame]
    ensures Rest(block + frame, channels) == []
    ensures Mono(downmix, channels, block + frame) == Mono(downmix, channels, block) + [downmix(frame)]
  {
    ChunksSnoc(block, frame, channels);
    MonoSnoc(downmix, channels, block, frame);
  }

  lemma MonoSnoc<S>(downmix: seq<S> -> S, channels: nat, block: seq<S>, frame: seq<S>)
    requires channels >= 1
    requires Chunks(block + frame, channels) == Chunks(block, channels) + [frame]
    ensures Mono(downmix, channels, block + frame) == Mono(downmix, channels, block) + [downmix(frame)]
  {
    MapSnoc(downmix, Chunks(block, channels), frame);
  }

  lemma MonoWindowsSnoc<S>(downmix: seq<S> -> S, channels: nat, blocks: seq<seq<S>>, b: seq<S>)
    requires channels >= 1
    ensures MonoWindows(downmix, channels, blocks + [b]) == MonoWindows(downmix, channels, blocks) + [Mono(downmix, channels, b)]
  {
  }

  /** Cutting the first block off the queue moves it to the folded blocks. */
  lemma BlockKeepsOrder<S>(all: seq<S>, done: seq<seq<S>>, before: seq<S>, n: nat)
    requires n > 0 && |before| >= n
    requires Chunks(all, n) == done + Chunks(before, n)
    requires Rest(all, n) == Rest(before, n)
    ensures Chunks(all, n) == (done + [before[..n]]) + Chunks(before[n..], n)
    ensures Rest(all, n) == Rest(before[n..], n)
  {
    Assoc(done, [before[..n]], Chunks(before[n..], n));
  }

  /** The global `STATE`. */
  class CaptureState<S> {
    var isCapturing: bool
    var settings: Settings
    var stopSender: Option<StopSignal>
    var threadHandle: Option<CaptureThread<S>>

    /** `CaptureState::default()`. */
    constructor ()
      ensures !isCapturing && settings == DefaultSettings()
      ensures stopSender == None && threadHandle == None
    {
      isCapturing := false;
      settings := DefaultSettings();
      stopSender := None;
      threadHandle := None;
    }

    /**
     * `start_system_audio_capture`. The device is chosen by `SelectDevice`
     * from the enumeration `devices`; `inputConfig` is the chosen device's
     * default input configuration or its error. The running thread gets a
     * copy of the settings.
     */
    method Start(p: Platform, devices: Result<seq<Option<string>>, string>, hasDefaultInput: bool,
                 inputConfig: DeviceChoice -> Result<StreamConfig, string>,
                 levels: seq<S> -> (real, real), encodes: seq<S> -> bool, downmix: seq<S> -> S)
      returns (r: Result<string, string>)
      modifies this
      ensures old(isCapturing) ==> r == Err("already capturing") && unchanged(this)
      ensures settings == old(settings)
      ensures !old(isCapturing) && SelectDevice(p, devices, hasDefaultInput).Err? ==>
        && r == Err("device select: " + SelectDevice(p, devices, hasDefaultInput).error)
        && !isCapturing && stopSender == None && threadHandle == None
      ensures !old(isCapturing) && SelectDevice(p, devices, hasDefaultInput).Ok? &&
              inputConfig(SelectDevice(p, devices, hasDefaultInput).value).Err? ==>
        && r == Err("default_input_config: " + inputConfig(SelectDevice(p, devices, hasDefaultInput).value).error)
        && !isCapturing && stopSender == None && threadHandle == None
      ensures !old(isCapturing) && SelectDevice(p, devices, hasDefaultInput).Ok? &&
              inputConfig(SelectDevice(p, devices, hasDefaultInput).value).Ok? ==>
        var cfg := inputConfig(SelectDevice(p, devices, hasDefaultInput).value).value;
        && r == Ok("capture started") && isCapturing
        && stopSender.Some? && threadHandle.Some? && fresh(stopSender.value) && fresh(threadHandle.value)
        && !stopSender.value.sent && threadHandle.value.stop == stopSender.value
        && fresh(threadHandle.value.vad)
        && threadHandle.value.vad.engine == Engine(SessionConfig(old(settings), cfg.sampleRate), levels, encodes)
        && threadHandle.value.channels == cfg.channels
        && threadHandle.value.interleaved == [] && threadHandle.value.vad.Current() == Idle()
        && threadHandle.value.Valid()
    {
      if isCapturing {
        return Err("already capturing");
      }
      stopSender := None;
      threadHandle := None;
      var device := SelectDevice(p, devices, hasDefaultInput);
      if device.Err? {
        return Err("device select: " + device.error);
      }
      var supported := inputConfig(device.value);
      if supported.Err? {
        return Err("default_input_config: " + supported.error);
      }
      var snapshot := settings;
      var tx := new StopSignal();
      var thread := new CaptureThread(snapshot, supported.value, tx, levels, encodes, downmix);
      stopSender := Some(tx);
      threadHandle := Some(thread);
      isCapturing := true;
      r := Ok("capture started");
    }

    /** The stop sender, as a frame. */
    function Sender(): set<StopSignal>
      reads this
    {
      if stopSender.Some? then {stopSender.value} else {}
    }

    /** `stop_system_audio_capture`: signals the thread and forgets both handles. */
    method Stop() returns (r: Result<string, string>)
      modifies this, Sender()
      ensures !old(isCapturing) ==> r == Err("no active capture") && unchanged(this)
      ensures old(isCapturing) ==>
        && r == Ok("capture stopped") && !isCapturing
        && stopSender == None && threadHandle == None
        && (old(stopSender).Some? ==> old(stopSender).value.sent)
      ensures settings == old(settings)
    {
      if !isCapturing {
        return Err("no active capture");
      }
      if stopSender.Some? {
        var tx := stopSender.value;
        stopSender := None;
        tx.sent := true;
      }
      isCapturing := false;
      threadHandle := None;
      stopSender := None;
      r := Ok("capture stopped");
    }

    /** `reset_audio_settings`. */
    method ResetAudioSettings() returns (r: Result<string, string>)
      modifies this
      ensures r == Ok("Audio settings reset to defaults")
      ensures settings == DefaultSettings()
      ensures isCapturing == old(isCapturing) && stopSender == old(stopSender) && threadHandle == old(threadHandle)
    {
      settings := DefaultSettings();
      r := Ok("Audio settings reset to defaults");
    }

    /** `set_vad_sensitivity`. */
    method SetVadSensitivity(value: real) returns (r: Result<(), string>)
      modifies this
      ensures r.Ok? <==> ThresholdInRange(value)
      ensures r.Err? ==> r.error == "vad_sensitivity must be between 0.0001 and 0.1" && unchanged(this)
      ensures r.Ok? ==> settings == old(settings).(vadSensitivityRms := value)
      ensures isCapturing == old(isCapturing) && stopSender == old(stopSender) && threadHandle == old(threadHandle)
    {
      if !ThresholdInRange(value) {
        return Err("vad_sensitivity must be between 0.0001 and 0.1");
      }
      settings := settings.(vadSensitivityRms := value);
      r := Ok(());
    }

    /** `set_speech_threshold`. */
    method SetSpeechThreshold(value: real) returns (r: Result<(), string>)
      modifies this
      ensures r.Ok? <==> ThresholdInRange(value)
      ensures r.Err? ==> r.error == "speech_threshold must be between 0.0001 and 0.1" && unchanged(this)
      ensures r.Ok? ==> settings == old(settings).(speechPeakThreshold := value)
      ensures isCapturing == old(isCapturing) && stopSender == old(stopSender) && threadHandle == old(threadHandle)
    {
      if !ThresholdInRange(value) {
        return Err("speech_threshold must be between 0.0001 and 0.1");
      }
      settings := settings.(speechPeakThreshold := value);
      r := Ok(());
    }

    /** `set_silence_threshold`. */
    method SetSilenceThreshold(chunks: nat) returns (r: Result<(), string>)
      modifies this
      ensures r.Ok? <==> SilenceInRange(chunks)
      ensures r.Err? ==> r.error == "silence_chunks must be in [1, 2000]" && unchanged(this)
      ensures r.Ok? ==> settings == old(settings).(silenceChunksToEnd := chunks)
      ensures isCapturing == old(isCapturing) && stopSender == old(stopSender) && threadHandle == old(threadHandle)
    {
      if !SilenceInRange(chunks) {
        return Err("silence_chunks must be in [1, 2000]");
      }
      settings := settings.(silenceChunksToEnd := chunks);
      r := Ok(());
    }

    /** `set_min_speech_duration`. */
    method SetMinSpeechDuration(chunks: nat) returns (r: Result<(), string>)
      modifies this
      ensures r.Ok? <==> ChunkCountInRange(chunks)
      ensures r.Err? ==> r.error == "min_speech_chunks must be in [1, 1000]" && unchanged(this)
      ensures r.Ok? ==> settings == old(settings).(minSpeechChunks := chunks)
      ensures isCapturing == old(isCapturing) && stopSender == old(stopSender) && threadHandle == old(threadHandle)
    {
      if !ChunkCountInRange(chunks) {
        return Err("min_speech_chunks must be in [1, 1000]");
      }
      settings := settings.(minSpeechChunks := chunks);
      r := Ok(());
    }

    /** `set_pre_speech_buffer_size`. */
    method SetPreSpeechBufferSize(chunks: nat) returns (r: Result<(), string>)
      modifies this
      ensures r.Ok? <==> ChunkCountInRange(chunks)
      ensures r.Err? ==> r.error == "pre_speech_chunks must be in [1, 1000]" && unchanged(this)
      ensures r.Ok? ==> settings == old(settings).(preSpeechChunks := chunks)
      ensures isCapturing == old(isCapturing) && stopSender == old(stopSender) && threadHandle == old(threadHandle)
    {
      if !ChunkCountInRange(chunks) {
        return Err("pre_speech_chunks must be in [1, 1000]");
      }
      settings := settings.(preSpeechChunks := chunks);
      r := Ok(());
    }
  }

  /**
   * Settings changed while a capture runs do not reach it: the running
   * thread's detector keeps the constants of the settings it was started with.
   */
  method SnapshotIsolated<S>(st: CaptureState<S>, p: Platform, devices: seq<Option<string>>,
                             cfg: StreamConfig, levels: seq<S> -> (real, real), encodes: seq<S> -> bool,
                             downmix: seq<S> -> S, v: real)
    requires !st.isCapturing && |devices| > 0
    modifies st
    ensures st.isCapturing && st.threadHandle.Some?
    ensures st.threadHandle.value.vad.engine.cfg == SessionConfig(old(st.settings), cfg.sampleRate)
    ensures ThresholdInRange(v) ==> st.settings.vadSensitivityRms == v
  {
    var r := st.Start(p, Ok(devices), false, _ => Ok(cfg), levels, encodes, downmix);
    var thread := st.threadHandle.value;
    var started := st.settings;
    var s := st.SetVadSensitivity(v);
    assert thread.vad.engine.cfg == SessionConfig(started, cfg.sampleRate);
  }
}
