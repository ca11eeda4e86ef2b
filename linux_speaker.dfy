/**
 * The Linux speaker bridge (src-tauri/src/speaker/linux.rs): a PulseAudio
 * record stream on the monitor of the default sink, read in blocks whose
 * bytes are decoded four at a time into samples and queued, and a `Stream`
 * whose `poll_next` hands the queued samples out in order.
 *
 * Bytes are of an abstract type `B` and samples of an abstract type `S`;
 * decoding four little-endian bytes into an `f32` is the abstract function
 * `decode`. A waker is named by the number of the consumer task that registered it;
 * `woken` records the wake-ups, oldest first.
 */
module LinuxSpeaker {
  import opened Wrappers
  import opened Seqs
  import opened Chunking

  /** PulseAudio sample formats; the bridge records `F32le`. */
  datatype Format = F32le | S16le | U8

  /** The record spec, `Spec { format, rate, channels }`. */
  datatype Spec = Spec(format: Format, rate: nat, channels: nat)

  /** The fixed capture spec: 32-bit float, 16000 Hz, one channel. */
  function CaptureSpec(): (s: Spec)
    ensures s.format == F32le && s.rate == 16000 && s.channels == 1
  {
    Spec(F32le, 16000, 1)
  }

  /**
   * The source to record from: the default sink's monitor, or the error when
   * the server reports no default sink.
   */
  function MonitorSource(defaultSink: Option<string>): (r: Result<string, string>)
    ensures defaultSink.None? <==> r.Err?
    ensures r.Err? ==> r.error == "Could not get default sink name"
    ensures r.Ok? ==>
      && |r.value| == |defaultSink.value| + 8
      && r.value[..|defaultSink.value|] == defaultSink.value
      && r.value[|defaultSink.value|..] == ".monitor"
  {
    match defaultSink
    case Some(sink) => Ok(sink + ".monitor")
    case None => Err("Could not get default sink name")
  }

  /**
   * The set-up of the capture thread: the server to connect to (the one named
   * by `SpeakerInput::new`, else "localhost"), the monitor source, and the
   * rate reported back. `server` is the outcome of connecting to the server,
   * which comes first; `stream` that of opening and connecting the record
   * stream, which comes after the sink lookup.
   */
  function Init(server: Result<(), string>, defaultSink: Option<string>, stream: Result<(), string>)
    : (r: Result<nat, string>)
    ensures r.Ok? <==> server.Ok? && defaultSink.Some? && stream.Ok?
    ensures r.Ok? ==> r.value == CaptureSpec().rate
    ensures server.Err? ==> r == Err(server.error)
    ensures server.Ok? && defaultSink.None? ==> r == Err("Could not get default sink name")
    ensures server.Ok? && defaultSink.Some? && stream.Err? ==> r == Err(stream.error)
  {
    match server
    case Err(e) => Err(e)
    case Ok(_) =>
      match MonitorSource(defaultSink)
      case Err(e) => Err(e)
      case Ok(_) =>
        match stream
        case Err(e) => Err(e)
        case Ok(_) => Ok(CaptureSpec().rate)
  }

  /** `data.chunks_exact(4).map(f32::from_le_bytes).collect()`. */
  function Decode<B, S>(data: seq<B>, decode: seq<B> -> S): seq<S> {
    Map(decode, Chunks(data, 4))
  }

  /**
   * A read of `n` bytes yields `n / 4` samples, sample `j` decoded from bytes
   * `4j` to `4j + 3`, and the trailing `n % 4` bytes are dropped.
   */
  lemma DecodeCount<B, S>(data: seq<B>, decode: seq<B> -> S)
    ensures |Decode(data, decode)| == |data| / 4
    ensures forall j: nat :: j < |data| / 4 ==>
      j * 4 + 4 <= |data| && Decode(data, decode)[j] == decode(data[j * 4..j * 4 + 4])
    ensures |Rest(data, 4)| == |data| % 4
  {
    ChunksCountDiv(data, 4);
    forall j: nat | j < |data| / 4 {
      MapChunkAt(decode, data, 4, j);
    }
  }

  /** The samples of consecutive successful reads. */
  function ReadSamples<B, S>(batches: seq<seq<B>>, decode: seq<B> -> S): seq<S>
    decreases |batches|
  {
    if batches == [] then []
    else ReadSamples(batches[..|batches| - 1], decode) + Decode(batches[|batches| - 1], decode)
  }

  /** The state shared by the capture thread and the stream. */
  class SpeakerStream<S> {
    var queue: seq<S>
    var waker: Option<nat>
    var shutdown: bool
    /** The consumer tasks woken so far, oldest first. */
    var woken: seq<nat>
    /** The sample rate reported by the capture thread, 0 when its set-up failed. */
    const sampleRate: nat
    /** Every sample the read loop queued, and every sample `poll_next` handed out. */
    ghost var produced: seq<S>
    ghost var delivered: seq<S>

    /** Nothing is lost or reordered: what was handed out followed by the queue is what was produced. */
    ghost predicate Valid()
      reads this
    {
      produced == delivered + queue
    }

    /** `SpeakerInput::stream`: `init` is the outcome of the capture thread's set-up. */
    constructor (init: Result<nat, string>)
      ensures sampleRate == (if init.Ok? then init.value else 0)
      ensures queue == [] && waker == None && !shutdown && woken == []
      ensures produced == [] && delivered == []
      ensures Valid()
    {
      sampleRate := if init.Ok? then init.value else 0;
      queue := [];
      waker := None;
      shutdown := false;
      woken := [];
      produced := [];
      delivered := [];
    }

    /** `poll_next` from the consumer task numbered `task`. */
    method PollNext(task: nat) returns (r: Poll<S>)
      requires Valid()
      modifies this
      ensures Valid()
      ensures produced == old(produced) && shutdown == old(shutdown) && woken == old(woken)
      ensures old(queue) != [] ==>
        && r == Ready(Some(old(queue)[0])) && queue == old(queue)[1..]
        && delivered == old(delivered) + [old(queue)[0]] && waker == old(waker)
      ensures old(queue) == [] && old(shutdown) ==> r == Ready(None) && unchanged(this)
      ensures old(queue) == [] && !old(shutdown) ==>
        r == Pending && queue == [] && delivered == old(delivered) && waker == Some(task)
    {
      if queue != [] {
        var sample := queue[0];
        queue := queue[1..];
        delivered := delivered + [sample];
        return Ready(Some(sample));
      }
      if shutdown {
        return Ready(None);
      }
      waker := Some(task);
      r := Pending;
    }

    /** `Drop`: request shutdown and wake a pending consumer once. */
    method Drop()
      modifies this
      ensures shutdown && waker == None
      ensures woken == old(woken) + (if old(waker).Some? then [old(waker).value] else [])
      ensures queue == old(queue) && produced == old(produced) && delivered == old(delivered)
    {
      shutdown := true;
      if waker.Some? {
        var w := waker.value;
        waker := None;
        woken := woken + [w];
      }
    }

    /**
     * One successful `stream.read(8192)`: a non-empty batch is queued and a
     * registered waker is taken and woken (there is no `has_data` gate); an
     * empty batch changes nothing.
     */
    method OnRead<B>(data: seq<B>, decode: seq<B> -> S)
      requires Valid()
      modifies this
      ensures Valid()
      ensures queue == old(queue) + Decode(data, decode)
      ensures produced == old(produced) + Decode(data, decode)
      ensures delivered == old(delivered) && shutdown == old(shutdown)
      ensures Decode(data, decode) == [] ==> waker == old(waker) && woken == old(woken)
      ensures Decode(data, decode) != [] ==>
        waker == None && woken == old(woken) + (if old(waker).Some? then [old(waker).value] else [])
    {
      var samples := Map(decode, Chunks(data, 4));
      if samples != [] {
        queue := queue + samples;
        produced := produced + samples;
        if waker.Some? {
          var w := waker.value;
          waker := None;
          woken := woken + [w];
        }
      } else {
        Assoc(queue, [], []);
        Assoc(produced, [], []);
      }
    }

    /**
     * The read loop over the batches of consecutive successful reads; it
     * leaves when a read fails, which is when the batches run out, and does
     * not set `shutdown` then. It does not start when shutdown was requested.
     */
    method ReadLoop<B>(batches: seq<seq<B>>, decode: seq<B> -> S)
      requires Valid()
      modifies this
      ensures Valid()
      ensures old(shutdown) ==> queue == old(queue) && produced == old(produced)
      ensures !old(shutdown) ==>
        queue == old(queue) + ReadSamples(batches, decode) && produced == old(produced) + ReadSamples(batches, decode)
      ensures delivered == old(delivered) && shutdown == old(shutdown)
    {
      var k := 0;
      Assoc(queue, [], []);
      Assoc(produced, [], []);
      while k < |batches| && !shutdown
        invariant 0 <= k <= |batches|
        invariant Valid() && delivered == old(delivered) && shutdown == old(shutdown)
        invariant old(shutdown) ==> k == 0
        invariant queue == old(queue) + ReadSamples(batches[..k], decode)
        invariant produced == old(produced) + ReadSamples(batches[..k], decode)
      {
        ghost var before := ReadSamples(batches[..k], decode);
        assert batches[..k + 1][..k] == batches[..k];
        OnRead(batches[k], decode);
        Assoc(old(queue), before, Decode(batches[k], decode));
        Assoc(old(produced), before, Decode(batches[k], decode));
        k := k + 1;
      }
      assert batches[..k] == batches || shutdown;
    }
  }

  /**
   * After a read error the loop is gone but `shutdown` is still false, so a
   * consumer that has drained the queue is told to wait rather than that the
   * stream ended.
   */
  method ReadErrorLeavesPending<S, B>(st: SpeakerStream<S>, decode: seq<B> -> S, task: nat)
      returns (r: Poll<S>)
    requires st.Valid() && !st.shutdown && st.queue == []
    modifies st
    ensures r == Pending && st.waker == Some(task) && !st.shutdown
  {
    st.ReadLoop([], decode);
    r := st.PollNext(task);
  }
}
