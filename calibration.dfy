/**
 * `CalibrationManager`: measures the silence baseline and the loudest
 * comfortable volume, then maps raw microphone levels into [0, 1].
 *
 * The calibration coroutine runs over many frames.  It is modelled as a
 * state machine: `StartCalibration` enters the silence phase, each frame of
 * a phase is one call of `SilenceFrame` or `LoudFrame`, and `CompleteWait`
 * is the end of the final wait.  The loops' exit test (`timer < duration`)
 * is made on entering a phase and after every frame, as the coroutine does
 * when it resumes.
 */
module Calibration {
  import opened Mathf
  import opened Smoothing

  /** Where the calibration coroutine stands. */
  datatype Phase =
    | Idle
    | Silence(silenceSum: real, silenceSamples: nat, timer: real)
    | Loud(maxDetected: real, timer: real)
    | Completing

  /** The running maximum of the loud phase, starting from 0. */
  function Peak(s: seq<real>): (r: real)
    ensures r >= 0.0
  {
    if s == [] then 0.0
    else
      var m := Peak(s[..|s| - 1]);
      if s[|s| - 1] > m then s[|s| - 1] else m
  }

  /** The running maximum bounds every reading, and is one of them unless they are all silent. */
  lemma {:induction false} PeakIsMaximum(s: seq<real>)
    ensures forall i :: 0 <= i < |s| ==> s[i] <= Peak(s)
    ensures Peak(s) == 0.0 || Peak(s) in s
  {
    if s != [] {
      var init := s[..|s| - 1];
      PeakIsMaximum(init);
      assert forall i :: 0 <= i < |init| ==> s[i] == init[i];
      assert forall x :: x in init ==> x in s;
    }
  }

  /** The calibrated maximum: the loudest reading with the buffer added, never above 1. */
  function CappedVolume(peak: real, bufferMultiplier: real): (r: real)
    ensures r <= 1.0
    ensures r == 1.0 || r == peak * bufferMultiplier
    ensures r <= peak * bufferMultiplier
  {
    MinReal(peak * bufferMultiplier, 1.0)
  }

  class CalibrationManager {
    const audioSmoother: AudioSmoother
    const silenceDuration: real
    const loudDuration: real
    const bufferMultiplier: real

    var silenceBaseline: real
    var maxVolume: real
    var isCalibrated: bool
    var isCalibrating: bool
    var phase: Phase
    /** The readings taken so far in the silence phase and in the loud phase. */
    ghost var silenceReadings: seq<real>
    ghost var loudReadings: seq<real>

    /** The coroutine's accumulators agree with the readings taken. */
    ghost predicate Valid()
      reads this
    {
      silenceDuration > 0.0
      && (isCalibrating <==> !phase.Idle?)
      && (phase.Silence? ==>
            phase.silenceSum == Sum(silenceReadings) && phase.silenceSamples == |silenceReadings|)
      && (phase.Loud? ==> phase.maxDetected == Peak(loudReadings))
    }

    /** The component before `Start`; a positive silence duration keeps the mean defined. */
    constructor (audioSmoother: AudioSmoother, silenceDuration: real, loudDuration: real, bufferMultiplier: real)
      requires silenceDuration > 0.0
      ensures Valid()
      ensures this.audioSmoother == audioSmoother && this.silenceDuration == silenceDuration
      ensures this.loudDuration == loudDuration && this.bufferMultiplier == bufferMultiplier
      ensures !isCalibrated && !isCalibrating && phase == Idle
    {
      this.audioSmoother := audioSmoother;
      this.silenceDuration := silenceDuration;
      this.loudDuration := loudDuration;
      this.bufferMultiplier := bufferMultiplier;
      silenceBaseline := 0.0;
      maxVolume := 0.0;
      isCalibrated := false;
      isCalibrating := false;
      phase := Idle;
      silenceReadings := [];
      loudReadings := [];
    }

    /** `Start`: the default calibration, not yet confirmed. */
    method Start()
      modifies this`silenceBaseline, this`maxVolume, this`isCalibrated
      ensures silenceBaseline == 0.05 && maxVolume == 0.8 && !isCalibrated
    {
      silenceBaseline := 0.05;
      maxVolume := 0.8;
      isCalibrated := false;
    }

    /** `StartCalibration`: ignored while a calibration runs; otherwise the silence phase begins. */
    method StartCalibration()
      requires Valid()
      modifies this`isCalibrating, this`phase, this`silenceReadings
      ensures Valid()
      ensures old(isCalibrating) ==> isCalibrating && phase == old(phase) && silenceReadings == old(silenceReadings)
      ensures !old(isCalibrating) ==> isCalibrating && phase == Silence(0.0, 0, 0.0) && silenceReadings == []
    {
      if isCalibrating {
        return;
      }
      isCalibrating := true;
      phase := Silence(0.0, 0, 0.0);
      silenceReadings := [];
    }

    /** `SkipCalibration`: the current (default) values are taken as the calibration. */
    method SkipCalibration()
      modifies this`isCalibrated
      ensures isCalibrated
    {
      isCalibrated := true;
    }

    /**
     * One frame of the silence loop: the reading is added up and the timer
     * advanced.  When the timer reaches the duration, the baseline becomes
     * 1.1 times the mean reading, the smoother's noise gate is set to it, and
     * the loud phase begins.
     */
    method SilenceFrame(rawVolume: real, deltaTime: real)
      requires Valid() && phase.Silence?
      modifies this`phase, this`silenceReadings, this`silenceBaseline, this`loudReadings, this`maxVolume,
        this`isCalibrated, audioSmoother`noiseThreshold
      ensures Valid()
      ensures silenceReadings == old(silenceReadings) + [rawVolume]
      ensures old(phase.timer) + deltaTime < silenceDuration ==>
        phase == Silence(old(phase.silenceSum) + rawVolume, old(phase.silenceSamples) + 1, old(phase.timer) + deltaTime)
        && silenceBaseline == old(silenceBaseline) && audioSmoother.noiseThreshold == old(audioSmoother.noiseThreshold)
      ensures old(phase.timer) + deltaTime >= silenceDuration ==>
        silenceBaseline == Sum(silenceReadings) / |silenceReadings| as real * 1.1
        && audioSmoother.noiseThreshold == Clamp01(silenceBaseline)
        && (phase.Loud? || phase.Completing?)
    {
      var sum := phase.silenceSum + rawVolume;
      var samples := phase.silenceSamples + 1;
      var timer := phase.timer + deltaTime;
      silenceReadings := silenceReadings + [rawVolume];
      assert silenceReadings[..|silenceReadings| - 1] == old(silenceReadings);
      phase := Silence(sum, samples, timer);
      if timer >= silenceDuration {
        silenceBaseline := sum / samples as real * 1.1;
        audioSmoother.SetNoiseThreshold(silenceBaseline);
        EnterLoud();
      }
    }

    /** The start of the loud phase, and its exit test before the first frame. */
    method EnterLoud()
      requires silenceDuration > 0.0 && isCalibrating
      modifies this`phase, this`loudReadings, this`maxVolume, this`isCalibrated
      ensures Valid()
      ensures loudReadings == []
      ensures loudDuration <= 0.0 ==> phase == Completing && maxVolume == 0.0 && isCalibrated
      ensures loudDuration > 0.0 ==>
        phase == Loud(0.0, 0.0) && maxVolume == old(maxVolume) && isCalibrated == old(isCalibrated)
    {
      phase := Loud(0.0, 0.0);
      loudReadings := [];
      if 0.0 >= loudDuration {
        FinishLoud();
      }
    }

    /**
     * One frame of the loud loop: the running maximum and the timer are
     * updated; when the timer reaches the duration the maximum volume is set.
     */
    method LoudFrame(rawVolume: real, deltaTime: real)
      requires Valid() && phase.Loud?
      modifies this`phase, this`loudReadings, this`maxVolume, this`isCalibrated
      ensures Valid()
      ensures loudReadings == old(loudReadings) + [rawVolume]
      ensures old(phase.timer) + deltaTime < loudDuration ==>
        phase == Loud(Peak(loudReadings), old(phase.timer) + deltaTime)
        && maxVolume == old(maxVolume) && isCalibrated == old(isCalibrated)
      ensures old(phase.timer) + deltaTime >= loudDuration ==>
        phase == Completing && isCalibrated && maxVolume == CappedVolume(Peak(loudReadings), bufferMultiplier)
    {
      var maxDetected := phase.maxDetected;
      if rawVolume > maxDetected {
        maxDetected := rawVolume;
      }
      var timer := phase.timer + deltaTime;
      loudReadings := loudReadings + [rawVolume];
      assert loudReadings[..|loudReadings| - 1] == old(loudReadings);
      assert maxDetected == Peak(loudReadings);
      phase := Loud(maxDetected, timer);
      if timer >= loudDuration {
        FinishLoud();
      }
    }

    /** The end of the loud loop: the maximum, with the buffer added, capped at 1. */
    method FinishLoud()
      requires Valid() && phase.Loud?
      modifies this`maxVolume, this`isCalibrated, this`phase
      ensures Valid()
      ensures maxVolume == CappedVolume(Peak(loudReadings), bufferMultiplier)
      ensures maxVolume <= 1.0
      ensures isCalibrated && phase == Completing
    {
      maxVolume := CappedVolume(phase.maxDetected, bufferMultiplier);
      isCalibrated := true;
      phase := Completing;
    }

    /** The final wait is over: the coroutine ends. */
    method CompleteWait()
      requires Valid() && phase.Completing?
      modifies this`isCalibrating, this`phase
      ensures Valid()
      ensures !isCalibrating && phase == Idle
    {
      isCalibrating := false;
      phase := Idle;
    }

    /**
     * `GetNormalizedVolume`: before calibration the raw value clamped to
     * [0, 1]; afterwards the part above the baseline as a share of the range
     * between baseline and maximum, clamped to [0, 1].  Equal baseline and
     * maximum would divide by zero.
     */
    function GetNormalizedVolume(rawVolume: real): (r: real)
      reads this
      requires !isCalibrated || maxVolume != silenceBaseline
      ensures 0.0 <= r <= 1.0
      ensures !isCalibrated ==> r == Clamp01(rawVolume)
      ensures isCalibrated && rawVolume <= silenceBaseline ==> r == 0.0
      ensures isCalibrated ==>
        r == Clamp01(MaxReal(rawVolume - silenceBaseline, 0.0) / (maxVolume - silenceBaseline))
    {
      if !isCalibrated then Clamp01(rawVolume)
      else
        var adjusted := if rawVolume - silenceBaseline < 0.0 then 0.0 else rawVolume - silenceBaseline;
        var range := maxVolume - silenceBaseline;
        Clamp01(adjusted / range)
    }

    /** `GetGameplayVolume`: the reading is smoothed, then normalised. */
    method GetGameplayVolume(rawVolume: real) returns (r: real)
      requires audioSmoother.Valid()
      requires !isCalibrated || maxVolume != silenceBaseline
      modifies audioSmoother`volumeBuffer, audioSmoother`targetValue, audioSmoother`smoothedValue
      ensures audioSmoother.Valid()
      ensures r == GetNormalizedVolume(audioSmoother.smoothedValue)
      ensures 0.0 <= r <= 1.0
    {
      var smoothed := audioSmoother.SmoothVolume(rawVolume);
      r := GetNormalizedVolume(smoothed);
    }
  }

  /** With a maximum above the baseline, a louder reading never normalises lower. */
  lemma NormalizedMonotone(m: CalibrationManager, u: real, v: real)
    requires m.isCalibrated && m.maxVolume > m.silenceBaseline
    requires u <= v
    ensures m.GetNormalizedVolume(u) <= m.GetNormalizedVolume(v)
  {
    var range := m.maxVolume - m.silenceBaseline;
    var a := MaxReal(u - m.silenceBaseline, 0.0);
    var b := MaxReal(v - m.silenceBaseline, 0.0);
    assert a <= b;
    DivideMonotone(a, b, range);
  }

  /** A reading at or above the calibrated maximum is full scale. */
  lemma MaximumIsFullScale(m: CalibrationManager, v: real)
    requires m.isCalibrated && m.maxVolume > m.silenceBaseline
    requires v >= m.maxVolume
    ensures m.GetNormalizedVolume(v) == 1.0
  {
    var range := m.maxVolume - m.silenceBaseline;
    var adjusted := v - m.silenceBaseline;
    assert MaxReal(adjusted, 0.0) == adjusted;
    assert adjusted / range >= 1.0 by {
      DivideMonotone(range, adjusted, range);
      assert range / range == 1.0;
    }
  }
}
