/**
 * `VoiceLevelDetector`: the microphone level in decibels, the noise floor it
 * is measured against, and the per-mode limits (whisper, normal, shout) that
 * a speaker must keep to.
 */
module VoiceLevel {

  /** Number of samples read per measurement (`_sampleBuffer`). */
  const SampleBufferLength := 1024

  /** The quietest reading, also returned when nothing can be measured. */
  const FloorDb := -80.0

  /** The loudest reading. */
  const CeilingDb := 10.0

  /** The noise floor is never taken below this. */
  const BaselineFloorDb := -50.0

  function Clamp(x: real, lo: real, hi: real): (r: real)
    requires lo <= hi
    ensures lo <= r <= hi
    ensures lo <= x <= hi ==> r == x
  {
    if x < lo then lo else if x > hi then hi else x
  }

  /** The square sum of the samples, as the loop of `CalculateRMS` adds it up. */
  function SumOfSquares(samples: seq<real>): (r: real)
    ensures r >= 0.0
  {
    if samples == [] then 0.0
    else SumOfSquares(samples[..|samples| - 1]) + samples[|samples| - 1] * samples[|samples| - 1]
  }

  class VoiceLevelDetector {
    var currentDb: real
    var baselineNoiseDb: real
    const whisperMinOffset: real
    const whisperMaxOffset: real
    const normalMinOffset: real
    const normalMaxOffset: real
    const shoutMinOffset: real
    var targetWhisperMax: real
    var targetNormalMin: real
    var targetShoutMin: real

    /** The inspector defaults. */
    constructor ()
      ensures currentDb == 0.0 && baselineNoiseDb == -60.0
      ensures whisperMinOffset == 5.0 && whisperMaxOffset == 25.0
      ensures normalMinOffset == 15.0 && normalMaxOffset == 45.0 && shoutMinOffset == 40.0
    {
      currentDb := 0.0;
      baselineNoiseDb := -60.0;
      whisperMinOffset := 5.0;
      whisperMaxOffset := 25.0;
      normalMinOffset := 15.0;
      normalMaxOffset := 45.0;
      shoutMinOffset := 40.0;
      targetWhisperMax := 0.0;
      targetNormalMin := 0.0;
      targetShoutMin := 0.0;
    }

    /** `GetEffectiveBaseline`: the recorded noise floor, but never below -50 dB. */
    function GetEffectiveBaseline(): (r: real)
      reads this
      ensures r >= BaselineFloorDb && r >= baselineNoiseDb
      ensures r == baselineNoiseDb || r == BaselineFloorDb
    {
      if baselineNoiseDb < BaselineFloorDb then BaselineFloorDb else baselineNoiseDb
    }

    /** `IsAboveNoiseFloor`: more than 3 dB over the effective baseline. */
    predicate IsAboveNoiseFloor()
      reads this
      ensures IsAboveNoiseFloor() ==> currentDb > BaselineFloorDb + 3.0 && currentDb > baselineNoiseDb + 3.0
    {
      currentDb > GetEffectiveBaseline() + 3.0
    }

    /** The minimum offset of a known mode. */
    function MinOffset(mode: string): real
      reads this
      requires mode in {"Whisper", "Normal", "Shout"}
    {
      if mode == "Whisper" then whisperMinOffset
      else if mode == "Normal" then normalMinOffset
      else shoutMinOffset
    }

    /**
     * `HasViolatedLowerLimit`: too quiet for the mode, that is below the
     * effective baseline plus the mode's minimum offset; an unknown mode is
     * always too quiet.
     */
    predicate HasViolatedLowerLimit(mode: string)
      reads this
      ensures mode !in {"Whisper", "Normal", "Shout"} ==> HasViolatedLowerLimit(mode)
      ensures mode in {"Whisper", "Normal", "Shout"} ==>
        (HasViolatedLowerLimit(mode) <==> currentDb < GetEffectiveBaseline() + MinOffset(mode))
    {
      match mode
      case "Whisper" => currentDb < GetEffectiveBaseline() + whisperMinOffset
      case "Normal" => currentDb < GetEffectiveBaseline() + normalMinOffset
      case "Shout" => currentDb < GetEffectiveBaseline() + shoutMinOffset
      case _ => true
    }

    /**
     * `HasViolatedUpperLimit`: too loud for whisper or normal speech; a shout
     * or an unknown mode has no upper limit.
     */
    predicate HasViolatedUpperLimit(mode: string)
      reads this
      ensures mode !in {"Whisper", "Normal"} ==> !HasViolatedUpperLimit(mode)
      ensures mode == "Whisper" ==> (HasViolatedUpperLimit(mode) <==> currentDb > GetEffectiveBaseline() + whisperMaxOffset)
      ensures mode == "Normal" ==> (HasViolatedUpperLimit(mode) <==> currentDb > GetEffectiveBaseline() + normalMaxOffset)
    {
      match mode
      case "Whisper" => currentDb > GetEffectiveBaseline() + whisperMaxOffset
      case "Normal" => currentDb > GetEffectiveBaseline() + normalMaxOffset
      case "Shout" => false
      case _ => false
    }

    /**
     * `SetBaseline`: the current reading becomes the noise floor, so right
     * afterwards the reading is not above it.
     */
    method SetBaseline()
      modifies this`baselineNoiseDb
      ensures baselineNoiseDb == currentDb
      ensures !IsAboveNoiseFloor()
    {
      baselineNoiseDb := currentDb;
    }

    /**
     * `CalculateRMS`: -80 dB without a clip or before the microphone has
     * recorded a full buffer; otherwise the level of the last 1024 samples,
     * clamped to [-80, 10].  `toDb` stands for `20 log10(sqrt(mean) / 0.1)`.
     */
    method CalculateRMS(hasClip: bool, micPosition: int, samples: seq<real>, toDb: real -> real)
      returns (db: real)
      requires |samples| == SampleBufferLength
      ensures FloorDb <= db <= CeilingDb
      ensures !hasClip || micPosition < SampleBufferLength ==> db == FloorDb
      ensures hasClip && micPosition >= SampleBufferLength ==>
        db == Clamp(toDb(SumOfSquares(samples) / SampleBufferLength as real), FloorDb, CeilingDb)
    {
      if !hasClip {
        return FloorDb;
      }
      if micPosition < SampleBufferLength {
        return FloorDb;
      }
      var sum := 0.0;
      var i := 0;
      while i < |samples|
        invariant 0 <= i <= |samples|
        invariant sum == SumOfSquares(samples[..i])
      {
        assert samples[..i + 1][..i] == samples[..i];
        sum := sum + samples[i] * samples[i];
        i := i + 1;
      }
      assert samples[..i] == samples;
      db := Clamp(toDb(sum / SampleBufferLength as real), FloorDb, CeilingDb);
    }

    /**
     * `Update`: the debug targets follow the effective baseline, and while
     * recording the reading is refreshed.
     */
    method Update(isRecording: bool, hasClip: bool, micPosition: int, samples: seq<real>, toDb: real -> real)
      requires |samples| == SampleBufferLength
      modifies this`currentDb, this`targetWhisperMax, this`targetNormalMin, this`targetShoutMin
      ensures targetWhisperMax == GetEffectiveBaseline() + whisperMaxOffset
      ensures targetNormalMin == GetEffectiveBaseline() + normalMinOffset
      ensures targetShoutMin == GetEffectiveBaseline() + shoutMinOffset
      ensures !isRecording ==> currentDb == old(currentDb)
      ensures isRecording ==> FloorDb <= currentDb <= CeilingDb
      ensures isRecording && (!hasClip || micPosition < SampleBufferLength) ==> currentDb == FloorDb
    {
      var effectiveBase := GetEffectiveBaseline();
      targetWhisperMax := effectiveBase + whisperMaxOffset;
      targetNormalMin := effectiveBase + normalMinOffset;
      targetShoutMin := effectiveBase + shoutMinOffset;
      if isRecording {
        currentDb := CalculateRMS(hasClip, micPosition, samples, toDb);
      }
    }
  }

  /**
   * Right after `SetBaseline` the reading is the noise floor, so with positive
   * minimum offsets it is too quiet in every mode.
   */
  lemma SilenceIsTooQuiet(d: VoiceLevelDetector, mode: string)
    requires d.currentDb == d.baselineNoiseDb
    requires d.whisperMinOffset > 0.0 && d.normalMinOffset > 0.0 && d.shoutMinOffset > 0.0
    ensures d.HasViolatedLowerLimit(mode)
  {
  }

  /** Of two readings against the same floor, the louder is too quiet only if the quieter is too. */
  lemma LouderIsNeverTooQuiet(d: VoiceLevelDetector, e: VoiceLevelDetector, mode: string)
    requires d.baselineNoiseDb == e.baselineNoiseDb
    requires d.whisperMinOffset == e.whisperMinOffset && d.normalMinOffset == e.normalMinOffset
    requires d.shoutMinOffset == e.shoutMinOffset
    requires d.currentDb <= e.currentDb
    ensures e.HasViolatedLowerLimit(mode) ==> d.HasViolatedLowerLimit(mode)
  {
  }

  /** Of two readings against the same floor, the quieter is too loud only if the louder is too. */
  lemma QuieterIsNeverTooLoud(d: VoiceLevelDetector, e: VoiceLevelDetector, mode: string)
    requires d.baselineNoiseDb == e.baselineNoiseDb
    requires d.whisperMaxOffset == e.whisperMaxOffset && d.normalMaxOffset == e.normalMaxOffset
    requires d.currentDb <= e.currentDb
    ensures d.HasViolatedUpperLimit(mode) ==> e.HasViolatedUpperLimit(mode)
  {
  }

  /**
   * With the default offsets, a whisper has a non-empty window: 10 dB over the
   * floor is neither too quiet nor too loud.
   */
  lemma WhisperWindow(d: VoiceLevelDetector)
    requires d.whisperMinOffset == 5.0 && d.whisperMaxOffset == 25.0
    requires d.currentDb == d.GetEffectiveBaseline() + 10.0
    ensures !d.HasViolatedLowerLimit("Whisper") && !d.HasViolatedUpperLimit("Whisper")
  {
  }
}
