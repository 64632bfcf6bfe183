/**
 * `AudioSmoother`: a noise gate, a running average over the last
 * `bufferSize` readings, and an interpolation toward that average.
 */
module Smoothing {
  import opened Mathf

  /** The sum of the values, as the `foreach` of `SmoothVolume` adds them up. */
  function Sum(s: seq<real>): real
  {
    if s == [] then 0.0 else Sum(s[..|s| - 1]) + s[|s| - 1]
  }

  /** Values in [lo, hi] sum to between `lo` and `hi` times their count. */
  lemma {:induction false} SumBounds(s: seq<real>, lo: real, hi: real)
    requires forall i :: 0 <= i < |s| ==> lo <= s[i] <= hi
    ensures lo * |s| as real <= Sum(s) <= hi * |s| as real
  {
    if s != [] {
      SumBounds(s[..|s| - 1], lo, hi);
      assert lo * |s| as real == lo * (|s| - 1) as real + lo;
      assert hi * |s| as real == hi * (|s| - 1) as real + hi;
    }
  }

  /** The mean of values in [lo, hi] lies in [lo, hi]. */
  lemma MeanBounds(s: seq<real>, lo: real, hi: real)
    requires s != []
    requires forall i :: 0 <= i < |s| ==> lo <= s[i] <= hi
    ensures lo <= Sum(s) / |s| as real <= hi
  {
    SumBounds(s, lo, hi);
    var n := |s| as real;
    assert Sum(s) / n * n == Sum(s);
  }

  /**
   * The buffer after one reading: appended, and the oldest dropped once it is
   * over capacity, so it holds the most recent readings in order.
   */
  function Buffered(buffer: seq<real>, v: real, capacity: int): (r: seq<real>)
    requires 1 <= capacity && |buffer| <= capacity
    ensures |r| <= capacity && r != [] && r[|r| - 1] == v
    ensures |r| == if |buffer| < capacity then |buffer| + 1 else capacity
    ensures forall i :: 0 <= i < |r| - 1 ==> r[i] == buffer[|buffer| + 1 - |r| + i]
  {
    if |buffer| + 1 > capacity then buffer[1..] + [v] else buffer + [v]
  }

  /** The noise gate: readings below the threshold count as silence. */
  function Gate(raw: real, noiseThreshold: real): (r: real)
    ensures raw < noiseThreshold ==> r == 0.0
    ensures raw >= noiseThreshold ==> r == raw
  {
    if raw < noiseThreshold then 0.0 else raw
  }

  class AudioSmoother {
    const bufferSize: int
    const lerpSpeed: real
    var noiseThreshold: real
    var volumeBuffer: seq<real>
    var smoothedValue: real
    var targetValue: real

    /** The buffer never holds more than `bufferSize` readings. */
    predicate Valid()
      reads this
    {
      1 <= bufferSize && |volumeBuffer| <= bufferSize
    }

    /** `Awake`, with the inspector's settings; `bufferSize` lies in [2, 20] as its range attribute says. */
    constructor (bufferSize: int, lerpSpeed: real, noiseThreshold: real)
      requires 2 <= bufferSize <= 20
      ensures Valid()
      ensures this.bufferSize == bufferSize && this.lerpSpeed == lerpSpeed
      ensures this.noiseThreshold == noiseThreshold
      ensures volumeBuffer == [] && smoothedValue == 0.0 && targetValue == 0.0
    {
      this.bufferSize := bufferSize;
      this.lerpSpeed := lerpSpeed;
      this.noiseThreshold := noiseThreshold;
      volumeBuffer := [];
      smoothedValue := 0.0;
      targetValue := 0.0;
    }

    /**
     * `SmoothVolume`: the gated reading joins the buffer, the target becomes
     * the buffer's mean, and the smoothed value moves toward it by
     * `lerpSpeed`; the smoothed value is returned.
     */
    method SmoothVolume(rawVolume: real) returns (r: real)
      requires Valid()
      modifies this`volumeBuffer, this`targetValue, this`smoothedValue
      ensures Valid()
      ensures volumeBuffer == Buffered(old(volumeBuffer), Gate(rawVolume, noiseThreshold), bufferSize)
      ensures targetValue == Sum(volumeBuffer) / |volumeBuffer| as real
      ensures smoothedValue == Lerp(old(smoothedValue), targetValue, lerpSpeed)
      ensures r == smoothedValue
    {
      var v := rawVolume;
      if v < noiseThreshold {
        v := 0.0;
      }
      volumeBuffer := volumeBuffer + [v];
      if |volumeBuffer| > bufferSize {
        volumeBuffer := volumeBuffer[1..];
      }
      var sum := 0.0;
      var i := 0;
      while i < |volumeBuffer|
        invariant 0 <= i <= |volumeBuffer|
        invariant sum == Sum(volumeBuffer[..i])
      {
        assert volumeBuffer[..i + 1][..i] == volumeBuffer[..i];
        sum := sum + volumeBuffer[i];
        i := i + 1;
      }
      assert volumeBuffer[..i] == volumeBuffer;
      targetValue := sum / |volumeBuffer| as real;
      smoothedValue := Lerp(smoothedValue, targetValue, lerpSpeed);
      r := smoothedValue;
    }

    /** `GetSmoothedValue`: the current smoothed value; a function, so it changes nothing. */
    function GetSmoothedValue(): real
      reads this
    {
      smoothedValue
    }

    /** `Reset`: the buffer is emptied and both values are zero. */
    method Reset()
      modifies this`volumeBuffer, this`smoothedValue, this`targetValue
      ensures volumeBuffer == [] && smoothedValue == 0.0 && targetValue == 0.0
    {
      volumeBuffer := [];
      smoothedValue := 0.0;
      targetValue := 0.0;
    }

    /** `SetNoiseThreshold`: the new threshold, clamped to [0, 1]. */
    method SetNoiseThreshold(threshold: real)
      modifies this`noiseThreshold
      ensures noiseThreshold == Clamp01(threshold)
      ensures 0.0 <= noiseThreshold <= 1.0
    {
      noiseThreshold := Clamp01(threshold);
    }
  }

  /**
   * The running average keeps to the range of the readings: when every
   * buffered reading lies in [0, 1], so do the target and (from a smoothed
   * value in [0, 1]) the next smoothed value.
   */
  lemma SmoothingStaysInUnitRange(buffer: seq<real>, smoothed: real, lerpSpeed: real)
    requires buffer != []
    requires forall i :: 0 <= i < |buffer| ==> 0.0 <= buffer[i] <= 1.0
    requires 0.0 <= smoothed <= 1.0
    ensures 0.0 <= Sum(buffer) / |buffer| as real <= 1.0
    ensures 0.0 <= Lerp(smoothed, Sum(buffer) / |buffer| as real, lerpSpeed) <= 1.0
  {
    MeanBounds(buffer, 0.0, 1.0);
  }

  /** Gating a reading in [0, 1] keeps it in [0, 1]. */
  lemma GateKeepsUnitRange(raw: real, noiseThreshold: real)
    requires 0.0 <= raw <= 1.0
    ensures 0.0 <= Gate(raw, noiseThreshold) <= 1.0
  {
  }
}
