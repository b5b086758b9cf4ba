/**
 * 20 ms framing of 16-bit mono PCM at 24 kHz, and the audio source the frames
 * are captured into.  A buffer is walked with a stride of 960 bytes; every full
 * 960-byte chunk becomes one frame and a trailing partial chunk is dropped.
 */
module Audio {

  newtype Byte = b: int | 0 <= b < 0x100

  const SampleRate: nat := 24000
  const NumChannels: nat := 1
  /** Bytes per sample: 16-bit PCM. */
  const SampleWidth: nat := 2
  /** 20 ms at 24 kHz. */
  const SamplesPerFrame: nat := 480
  /** The stride of the framing loop, `samples_per_frame * 2`. */
  const FrameBytes: nat := 960

  datatype AudioFrame = AudioFrame(data: seq<Byte>, sampleRate: nat, numChannels: nat, samplesPerChannel: nat)

  /** A frame as the agent builds it: 960 bytes tagged 24000 Hz, one channel, 480 samples. */
  predicate IsAgentFrame(f: AudioFrame) {
    && |f.data| == FrameBytes
    && f.sampleRate == SampleRate
    && f.numChannels == NumChannels
    && f.samplesPerChannel == SamplesPerFrame
  }

  /** The frame built from one full chunk. */
  function MakeFrame(chunk: seq<Byte>): (f: AudioFrame)
    requires |chunk| == FrameBytes
    ensures IsAgentFrame(f) && f.data == chunk
    ensures |f.data| == f.samplesPerChannel * f.numChannels * SampleWidth
  {
    AudioFrame(chunk, SampleRate, NumChannels, SamplesPerFrame)
  }

  /** The frames that the framing loop sends for `raw`, in order. */
  function Frames(raw: seq<Byte>): (frames: seq<AudioFrame>)
    ensures forall k :: 0 <= k < |frames| ==> IsAgentFrame(frames[k])
    decreases |raw|
  {
    if |raw| < FrameBytes then [] else [MakeFrame(raw[..FrameBytes])] + Frames(raw[FrameBytes..])
  }

  /** The bytes of a sequence of frames laid end to end. */
  function Concat(frames: seq<AudioFrame>): seq<Byte> {
    if frames == [] then [] else frames[0].data + Concat(frames[1..])
  }

  /** A buffer of L bytes gives floor(L / 960) frames. */
  lemma {:induction false} FramesCount(raw: seq<Byte>)
    ensures |Frames(raw)| == |raw| / FrameBytes
    decreases |raw|
  {
    if |raw| >= FrameBytes {
      FramesCount(raw[FrameBytes..]);
    }
  }

  /** Frame k holds exactly bytes [960k, 960(k+1)) of the buffer. */
  lemma {:induction false} FrameAt(raw: seq<Byte>, k: nat)
    requires k < |raw| / FrameBytes
    ensures |Frames(raw)| == |raw| / FrameBytes
    ensures (k + 1) * FrameBytes <= |raw|
    ensures Frames(raw)[k] == MakeFrame(raw[k * FrameBytes..(k + 1) * FrameBytes])
    decreases k
  {
    FramesCount(raw);
    if k > 0 {
      var rest := raw[FrameBytes..];
      FrameAt(rest, k - 1);
      assert rest[(k - 1) * FrameBytes..k * FrameBytes] == raw[k * FrameBytes..(k + 1) * FrameBytes];
    }
  }

  /**
   * The frames, laid end to end, are the first 960 * floor(L / 960) bytes of the
   * buffer: nothing is reordered, repeated or padded; only the last L mod 960 bytes
   * are left out.
   */
  lemma {:induction false} FramesConcat(raw: seq<Byte>)
    ensures Concat(Frames(raw)) == raw[..|raw| / FrameBytes * FrameBytes]
    ensures |raw| - |Concat(Frames(raw))| == |raw| % FrameBytes
    decreases |raw|
  {
    if |raw| >= FrameBytes {
      var rest := raw[FrameBytes..];
      FramesConcat(rest);
      assert |rest| / FrameBytes * FrameBytes + FrameBytes == |raw| / FrameBytes * FrameBytes;
      assert raw[..FrameBytes] + rest[..|rest| / FrameBytes * FrameBytes]
          == raw[..|raw| / FrameBytes * FrameBytes];
    }
  }

  /** The transport's audio input: every captured frame, in capture order. */
  class AudioSource {
    const sampleRate: nat
    const numChannels: nat
    var captured: seq<AudioFrame>

    constructor (sampleRate: nat, numChannels: nat)
      ensures this.sampleRate == sampleRate && this.numChannels == numChannels
      ensures captured == []
    {
      this.sampleRate := sampleRate;
      this.numChannels := numChannels;
      captured := [];
    }

    method CaptureFrame(frame: AudioFrame)
      modifies this
      ensures captured == old(captured) + [frame]
    {
      captured := captured + [frame];
    }
  }

  function Min(a: int, b: int): int {
    if a <= b then a else b
  }

  /**
   * The framing loop: step through `raw` 960 bytes at a time, slice (clamped to the
   * end, as Python slicing is), and capture the slice only when it is a full chunk.
   */
  method StreamFrames(source: AudioSource, raw: seq<Byte>)
    modifies source
    ensures source.captured == old(source.captured) + Frames(raw)
  {
    FramesCount(raw);
    var i := 0;
    ghost var k: nat := 0;
    while i < |raw|
      invariant i == k * FrameBytes
      invariant source.captured == old(source.captured) + Frames(raw)[..Min(k, |raw| / FrameBytes)]
    {
      var chunk := raw[i..Min(i + FrameBytes, |raw|)];
      if |chunk| == FrameBytes {
        FrameAt(raw, k);
        assert Frames(raw)[..k + 1] == Frames(raw)[..k] + [MakeFrame(chunk)];
        source.CaptureFrame(MakeFrame(chunk));
      }
      i := i + FrameBytes;
      k := k + 1;
    }
  }
}
