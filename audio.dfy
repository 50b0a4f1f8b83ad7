/** The audio data the chain works on: a block of channels by samples, and
    the host's buffer object that holds one in place (`juce::AudioBuffer`). */
module Audio {

  /** One sample. The core never computes with samples; it only forwards them
      to the effect modules and overwrites some with silence. */
  type Sample = real

  const Silence: Sample := 0.0

  /** Channels by samples. */
  type Block = seq<seq<Sample>>

  function Zeros(n: nat): (z: seq<Sample>)
    ensures |z| == n && forall i :: 0 <= i < n ==> z[i] == Silence
  {
    seq(n, _ => Silence)
  }

  /** Every channel of `b` holds exactly `size` samples. */
  ghost predicate Rectangular(b: Block, size: nat)
  {
    forall c :: 0 <= c < |b| ==> |b[c]| == size
  }

  /** Same number of channels, and each channel of the same length. */
  ghost predicate SameShape(a: Block, b: Block)
  {
    |a| == |b| && forall c :: 0 <= c < |a| ==> |a[c]| == |b[c]|
  }

  /** The block after silencing every channel `c` with `from <= c < to`;
      `from >= to` silences nothing. */
  function ClearChannels(b: Block, from: nat, to: nat): (r: Block)
    ensures SameShape(r, b)
    ensures forall c :: 0 <= c < |b| && from <= c < to ==>
      forall s :: 0 <= s < |r[c]| ==> r[c][s] == Silence
    ensures forall c :: 0 <= c < |b| && !(from <= c < to) ==> r[c] == b[c]
    ensures from >= to ==> r == b
  {
    seq(|b|, c requires 0 <= c < |b| => if from <= c < to then Zeros(|b[c]|) else b[c])
  }

  /** The host's audio buffer: a rectangular block that operations update in
      place. */
  class AudioBuffer {
    var channels: Block
    var size: nat

    ghost predicate Valid()
      reads this
    {
      Rectangular(channels, size)
    }

    constructor (channels: Block, size: nat)
      requires Rectangular(channels, size)
      ensures Valid() && this.channels == channels && this.size == size
    {
      this.channels := channels;
      this.size := size;
    }

    function NumChannels(): nat
      reads this
    {
      |channels|
    }

    function NumSamples(): nat
      reads this
    {
      size
    }

    /** `clear(channel, startSample, numSamples)`: silences one run of one
        channel and leaves every other sample alone. */
    method Clear(channel: nat, startSample: nat, numSamples: nat)
      requires Valid()
      requires channel < |channels| && startSample + numSamples <= size
      modifies this
      ensures Valid() && size == old(size) && |channels| == old(|channels|)
      ensures forall c :: 0 <= c < |channels| && c != channel ==> channels[c] == old(channels[c])
      ensures forall s :: 0 <= s < size ==>
        channels[channel][s] == if startSample <= s < startSample + numSamples then Silence else old(channels[channel][s])
    {
      var row := channels[channel];
      channels := channels[channel := row[..startSample] + Zeros(numSamples) + row[startSample + numSamples..]];
    }
  }
}
