/**
 * The Windows speaker bridge (src-tauri/src/speaker/windows.rs): a capture
 * loop that turns loopback packets into mono samples and queues them, and a
 * `Stream` whose `poll_next` hands the queued samples out in order. The
 * queue and the `WakerState` (`waker`, `has_data`, `shutdown`) are shared
 * between the two sides; every block that holds the lock is one method here.
 *
 * Bytes are of an abstract type `B` and samples of an abstract type `S`:
 * decoding a frame's little-endian `f32` values and averaging them over the
 * channels is the abstract function `mix` from the frame's bytes to a sample.
 * A waker is named by the number of the consumer task that registered it; `woken`
 * records the wake-ups, oldest first.
 */
module WindowsSpeaker {
  import opened Wrappers
  import opened Seqs
  import opened Chunking

  /** The fields of a WASAPI `WaveFormat` the bridge reads and writes. */
  datatype WaveFormat = WaveFormat(
    channels: nat,
    sampleRate: nat,
    avgBytesPerSec: nat,
    blockAlign: nat,
    bitsPerSample: nat
  )

  /** The one-channel capture format built from the device's mix format. */
  function MonoFormat(mix: WaveFormat): (r: WaveFormat)
    requires mix.channels >= 1
  {
    WaveFormat(1, mix.sampleRate, mix.avgBytesPerSec / mix.channels * 1,
               mix.blockAlign / mix.channels * 1, mix.bitsPerSample)
  }

  /**
   * For a consistent interleaved mix format (a block is one sample per
   * channel, a second is `sampleRate` blocks) the one-channel format is
   * consistent too: a block is one sample.
   */
  lemma MonoFormatConsistent(mix: WaveFormat, bytesPerSample: nat)
    requires mix.channels >= 1
    requires mix.blockAlign == mix.channels * bytesPerSample
    requires mix.avgBytesPerSec == mix.sampleRate * mix.blockAlign
    ensures MonoFormat(mix).channels == 1 && MonoFormat(mix).sampleRate == mix.sampleRate
    ensures MonoFormat(mix).blockAlign == bytesPerSample
    ensures MonoFormat(mix).avgBytesPerSec == MonoFormat(mix).sampleRate * MonoFormat(mix).blockAlign
  {
    var n := mix.channels;
    DivUnique(mix.blockAlign, n, bytesPerSample, 0);
    assert mix.avgBytesPerSec == (mix.sampleRate * bytesPerSample) * n;
    DivUnique(mix.avgBytesPerSec, n, mix.sampleRate * bytesPerSample, 0);
  }

  /**
   * One turn of the capture loop: a packet of `frames` frames, flagged
   * SILENT or carrying `frames * channels * 4` bytes, or a WASAPI error.
   */
  datatype Packet<B> = Packet(frames: nat, silent: bool, data: seq<B>) | Failure

  predicate WellFormed<B>(p: Packet<B>, channels: nat) {
    p.Packet? ==> (p.silent || |p.data| == p.frames * channels * 4)
  }

  /** The samples a packet adds to the queue. */
  function PacketSamples<B, S>(p: Packet<B>, channels: nat, zero: S, mix: seq<B> -> S): seq<S>
    requires channels >= 1
  {
    if p.Failure? || p.frames == 0 then []
    else if p.silent then seq(p.frames, _ => zero)
    else Map(mix, Chunks(p.data, 4 * channels))
  }

  /**
   * A packet of `frames` frames adds exactly `frames` samples: zeros when it
   * is SILENT, otherwise sample `j` is the mix of frame `j`, the
   * `4 * channels` bytes from position `j * 4 * channels`.
   */
  lemma PacketSampleCount<B, S>(p: Packet<B>, channels: nat, zero: S, mix: seq<B> -> S)
    requires channels >= 1 && p.Packet? && WellFormed(p, channels)
    ensures |PacketSamples(p, channels, zero, mix)| == p.frames
    ensures p.silent ==> forall j :: 0 <= j < p.frames ==> PacketSamples(p, channels, zero, mix)[j] == zero
    ensures !p.silent ==> forall j: nat :: j < p.frames ==>
      j * (4 * channels) + 4 * channels <= |p.data| &&
      PacketSamples(p, channels, zero, mix)[j] == mix(p.data[j * (4 * channels)..j * (4 * channels) + 4 * channels])
  {
    if !p.silent && p.frames > 0 {
      MapChunksShape(mix, p.data, 4 * channels, p.frames);
    }
  }

  /** The samples of consecutive packets. */
  function AllSamples<B, S>(ps: seq<Packet<B>>, channels: nat, zero: S, mix: seq<B> -> S): seq<S>
    requires channels >= 1
    decreases |ps|
  {
    if ps == [] then []
    else AllSamples(ps[..|ps| - 1], channels, zero, mix) + PacketSamples(ps[|ps| - 1], channels, zero, mix)
  }

  /** The state shared by the capture thread and the stream. */
  class SpeakerStream<S> {
    var queue: seq<S>
    var waker: Option<nat>
    var hasData: bool
    var shutdown: bool
    /** The consumer tasks woken so far, oldest first. */
    var woken: seq<nat>
    /** The sample rate reported by the capture thread, 0 when its set-up failed. */
    const sampleRate: nat
    /** Every sample the capture loop queued, and every sample `poll_next` handed out. */
    ghost var produced: seq<S>
    ghost var delivered: seq<S>

    /** Nothing is lost or reordered: what was handed out followed by the queue is what was produced. */
    ghost predicate Valid()
      reads this
    {
      produced == delivered + queue
    }

    /** `SpeakerInput::stream`: `init` is the outcome of the capture thread's set-up. */
    constructor (init: Result<nat, string>)
      ensures sampleRate == (if init.Ok? then init.value else 0)
      ensures queue == [] && waker == None && !hasData && !shutdown && woken == []
      ensures produced == [] && delivered == []
      ensures Valid()
    {
      sampleRate := if init.Ok? then init.value else 0;
      queue := [];
      waker := None;
      hasData := false;
      shutdown := false;
      woken := [];
      produced := [];
      delivered := [];
    }

    /** `poll_next` from the consumer task numbered `task`. */
    method PollNext(task: nat) returns (r: Poll<S>)
      requires Valid()
      modifies this
      ensures Valid()
      ensures produced == old(produced) && shutdown == old(shutdown) && woken == old(woken)
      ensures old(queue) != [] ==>
        && r == Ready(Some(old(queue)[0])) && queue == old(queue)[1..]
        && delivered == old(delivered) + [old(queue)[0]]
        && waker == old(waker) && hasData == old(hasData)
      ensures old(queue) == [] && old(shutdown) ==> r == Ready(None) && unchanged(this)
      ensures old(queue) == [] && !old(shutdown) ==>
        && r == Pending && queue == [] && delivered == old(delivered)
        && waker == Some(task) && !hasData
    {
      if queue != [] {
        var sample := queue[0];
        queue := queue[1..];
        delivered := delivered + [sample];
        return Ready(Some(sample));
      }
      if shutdown {
        return Ready(None);
      }
      hasData := false;
      waker := Some(task);
      r := Pending;
    }

    /** `Drop`: request shutdown and wake a pending consumer once. */
    method Drop()
      modifies this
      ensures shutdown && waker == None
      ensures woken == old(woken) + (if old(waker).Some? then [old(waker).value] else [])
      ensures queue == old(queue) && hasData == old(hasData)
      ensures produced == old(produced) && delivered == old(delivered)
    {
      shutdown := true;
      if waker.Some? {
        var w := waker.value;
        waker := None;
        woken := woken + [w];
      }
    }

    /**
     * One turn of the capture loop after the shutdown test: a packet with
     * frames is queued and the consumer is woken if it was told there was no
     * data; an empty packet or an error adds nothing.
     */
    method OnPacket<B>(p: Packet<B>, channels: nat, zero: S, mix: seq<B> -> S)
      requires Valid() && channels >= 1 && WellFormed(p, channels)
      modifies this
      ensures Valid()
      ensures queue == old(queue) + PacketSamples(p, channels, zero, mix)
      ensures produced == old(produced) + PacketSamples(p, channels, zero, mix)
      ensures delivered == old(delivered) && shutdown == old(shutdown)
      ensures (p.Failure? || p.frames == 0 || old(hasData)) ==>
        waker == old(waker) && hasData == old(hasData) && woken == old(woken)
      ensures p.Packet? && p.frames > 0 && !old(hasData) ==>
        && hasData && waker == None
        && woken == old(woken) + (if old(waker).Some? then [old(waker).value] else [])
    {
      if p.Failure? || p.frames == 0 {
        return;
      }
      if p.silent {
        QueueZeros(p.frames, zero);
      } else {
        var samples := MixFrames(p.data, channels, mix);
        if samples != [] {
          queue := queue + samples;
          produced := produced + samples;
        } else {
          Assoc(queue, [], []);
          Assoc(produced, [], []);
        }
      }
      if !hasData {
        hasData := true;
        if waker.Some? {
          var w := waker.value;
          waker := None;
          woken := woken + [w];
        }
      }
    }

    /** `for _ in 0..available_frames { queue.push_back(0.0) }`. */
    method QueueZeros(frames: nat, zero: S)
      requires Valid()
      modifies this
      ensures Valid()
      ensures queue == old(queue) + seq(frames, _ => zero)
      ensures produced == old(produced) + seq(frames, _ => zero)
      ensures delivered == old(delivered) && shutdown == old(shutdown)
      ensures waker == old(waker) && hasData == old(hasData) && woken == old(woken)
    {
      var k := 0;
      while k < frames
        invariant 0 <= k <= frames
        invariant queue == old(queue) + seq(k, _ => zero)
        invariant produced == old(produced) + seq(k, _ => zero)
        invariant Valid()
        invariant delivered == old(delivered) && shutdown == old(shutdown)
        invariant waker == old(waker) && hasData == old(hasData) && woken == old(woken)
      {
        assert seq(k + 1, _ => zero) == seq(k, _ => zero) + [zero];
        queue := queue + [zero];
        produced := produced + [zero];
        k := k + 1;
      }
    }

    /**
     * The capture loop over the packets the device delivers: it stops at the
     * first error, and does not start when shutdown was requested. Returns
     * how many packets it took.
     */
    method CaptureLoop<B>(packets: seq<Packet<B>>, channels: nat, zero: S, mix: seq<B> -> S)
      returns (taken: nat)
      requires Valid() && channels >= 1
      requires forall i :: 0 <= i < |packets| ==> WellFormed(packets[i], channels)
      modifies this
      ensures Valid()
      ensures taken <= |packets|
      ensures old(shutdown) ==> taken == 0 && queue == old(queue)
      ensures !old(shutdown) ==> taken == |packets| || (taken > 0 && packets[taken - 1].Failure?)
      ensures queue == old(queue) + AllSamples(packets[..taken], channels, zero, mix)
      ensures produced == old(produced) + AllSamples(packets[..taken], channels, zero, mix)
      ensures delivered == old(delivered) && shutdown == old(shutdown)
    {
      taken := 0;
      Assoc(queue, [], []);
      Assoc(produced, [], []);
      while taken < |packets| && !shutdown
        invariant 0 <= taken <= |packets|
        invariant Valid() && delivered == old(delivered) && shutdown == old(shutdown)
        invariant old(shutdown) ==> taken == 0
        invariant queue == old(queue) + AllSamples(packets[..taken], channels, zero, mix)
        invariant produced == old(produced) + AllSamples(packets[..taken], channels, zero, mix)
        invariant taken > 0 ==> !packets[taken - 1].Failure?
      {
        var p := packets[taken];
        ghost var before := AllSamples(packets[..taken], channels, zero, mix);
        OnPacket(p, channels, zero, mix);
        assert packets[..taken + 1][..taken] == packets[..taken];
        Assoc(old(queue), before, PacketSamples(p, channels, zero, mix));
        Assoc(old(produced), before, PacketSamples(p, channels, zero, mix));
        taken := taken + 1;
        if p.Failure? {
          return;
        }
      }
    }
  }

  /**
   * `for chunk in buffer_slice.chunks_exact(4 * n_channels) { samples.push(mix) }`:
   * one sample per whole frame, in frame order.
   */
  method MixFrames<B, S>(data: seq<B>, channels: nat, mix: seq<B> -> S) returns (samples: seq<S>)
    requires channels >= 1
    ensures samples == Map(mix, Chunks(data, 4 * channels))
  {
    var w := 4 * channels;
    var rest := data;
    samples := [];
    Assoc(Map(mix, Chunks(data, w)), [], []);
    while |rest| >= w
      invariant Map(mix, Chunks(data, w)) == samples + Map(mix, Chunks(rest, w))
      decreases |rest|
    {
      MapCons(mix, rest[..w], Chunks(rest[w..], w));
      Assoc(samples, [mix(rest[..w])], Map(mix, Chunks(rest[w..], w)));
      samples := samples + [mix(rest[..w])];
      rest := rest[w..];
    }
    Assoc(samples, [], []);
  }

  lemma MapCons<A, B>(f: A -> B, x: A, s: seq<A>)
    ensures Map(f, [x] + s) == [f(x)] + Map(f, s)
  {
  }
}
