/**
 * `GapGenerator`: the size and vertical centre of the gap in each new wall.
 * The size shrinks with the number of walls; the centre follows one of four
 * placement modes.  Unity's `Random` is a nondeterministic choice within the
 * documented range.
 */
module Gaps {
  import opened Mathf
  import opened Smoothing

  datatype GenerationMode = Random | Smart | Alternating | Progressive

  /** `Random.value`: any value in [0, 1]. */
  method RandomValue() returns (v: real)
    ensures 0.0 <= v <= 1.0
  {
    v :| 0.0 <= v <= 1.0;
  }

  /**
   * `Random.Range(a, b)` on floats: a random fraction of the way from `a`
   * to `b`, so any value between the two bounds, inclusive, whichever of
   * them is the smaller.
   */
  method RandomRange(a: real, b: real) returns (x: real)
    ensures MinReal(a, b) <= x <= MaxReal(a, b)
  {
    var u := RandomValue();
    x := Lerp(a, b, u);
  }

  /** `Random.Range(lo, hi)` on integers: any value from `lo` up to but excluding `hi`. */
  method RandomInt(lo: int, hi: int) returns (k: int)
    requires lo < hi
    ensures lo <= k < hi
  {
    k :| lo <= k < hi;
  }

  class GapGenerator {
    const minY: real
    const maxY: real
    const gapMargin: real
    const baseGapSize: real
    const minGapSize: real
    const maxGapSize: real
    const enableDifficultyScaling: bool
    const obstaclesUntilMinGap: int
    const mode: GenerationMode
    const extremePositionChance: real
    const minGapsBetweenExtremes: int
    const maxRecentGaps: int

    var obstaclesSpawned: int
    var lastGapY: real
    var gapsSinceExtreme: int
    var recentGapPositions: seq<real>
    var alternatingIndex: int
    var progressiveTarget: real
    var stepsAtTarget: int

    /** The counters only grow from their reset values, and the history has at most `maxRecentGaps` entries. */
    predicate Valid()
      reads this
    {
      obstaclesUntilMinGap != 0 && maxRecentGaps == 5
      && obstaclesSpawned >= 0 && gapsSinceExtreme >= 0 && alternatingIndex >= 0 && stepsAtTarget >= 0
      && |recentGapPositions| <= maxRecentGaps
    }

    /** The inspector's settings and the initial counters; a zero `obstaclesUntilMinGap` would divide by zero. */
    constructor (minY: real, maxY: real, gapMargin: real, baseGapSize: real, minGapSize: real, maxGapSize: real,
                 enableDifficultyScaling: bool, obstaclesUntilMinGap: int, mode: GenerationMode,
                 extremePositionChance: real, minGapsBetweenExtremes: int)
      requires obstaclesUntilMinGap != 0
      ensures Valid()
      ensures this.minY == minY && this.maxY == maxY && this.gapMargin == gapMargin
      ensures this.baseGapSize == baseGapSize && this.minGapSize == minGapSize && this.maxGapSize == maxGapSize
      ensures this.enableDifficultyScaling == enableDifficultyScaling
      ensures this.obstaclesUntilMinGap == obstaclesUntilMinGap && this.mode == mode
      ensures this.extremePositionChance == extremePositionChance
      ensures this.minGapsBetweenExtremes == minGapsBetweenExtremes
      ensures obstaclesSpawned == 0 && lastGapY == 0.0 && gapsSinceExtreme == 999 && recentGapPositions == []
      ensures alternatingIndex == 0 && progressiveTarget == 0.0 && stepsAtTarget == 0
    {
      this.minY := minY;
      this.maxY := maxY;
      this.gapMargin := gapMargin;
      this.baseGapSize := baseGapSize;
      this.minGapSize := minGapSize;
      this.maxGapSize := maxGapSize;
      this.enableDifficultyScaling := enableDifficultyScaling;
      this.obstaclesUntilMinGap := obstaclesUntilMinGap;
      this.mode := mode;
      this.extremePositionChance := extremePositionChance;
      this.minGapsBetweenExtremes := minGapsBetweenExtremes;
      maxRecentGaps := 5;
      obstaclesSpawned := 0;
      lastGapY := 0.0;
      gapsSinceExtreme := 999;
      recentGapPositions := [];
      alternatingIndex := 0;
      progressiveTarget := 0.0;
      stepsAtTarget := 0;
    }

    /** The share of the way to the minimum gap after `spawned` walls, in [0, 1]. */
    function Progress(spawned: int): (r: real)
      reads this
      requires obstaclesUntilMinGap != 0
      ensures 0.0 <= r <= 1.0
    {
      Clamp01(spawned as real / obstaclesUntilMinGap as real)
    }

    /**
     * `CalculateGapSize` once `spawned` walls have been counted: the base size
     * without scaling; with scaling the interpolation from the base size to
     * the minimum size, clamped to [minimum, maximum].
     */
    function GapSizeAt(spawned: int): (r: real)
      reads this
      requires obstaclesUntilMinGap != 0
      ensures !enableDifficultyScaling ==> r == baseGapSize
      ensures enableDifficultyScaling && minGapSize <= maxGapSize ==> minGapSize <= r <= maxGapSize
    {
      if !enableDifficultyScaling then baseGapSize
      else Clamp(Lerp(baseGapSize, minGapSize, Progress(spawned)), minGapSize, maxGapSize)
    }

    /** `GetDifficultyMultiplier`: 0 without scaling, otherwise the progress toward the minimum gap. */
    function GetDifficultyMultiplier(): (r: real)
      reads this
      requires obstaclesUntilMinGap != 0
      ensures 0.0 <= r <= 1.0
      ensures !enableDifficultyScaling ==> r == 0.0
      ensures enableDifficultyScaling ==> r == Progress(obstaclesSpawned)
    {
      if !enableDifficultyScaling then 0.0 else Progress(obstaclesSpawned)
    }

    /** The lowest centre that keeps a gap of this size inside the margins. */
    function SafeMin(gapSize: real): real
      reads this
    {
      minY + gapMargin + gapSize / 2.0
    }

    /** The highest centre that keeps a gap of this size inside the margins. */
    function SafeMax(gapSize: real): real
      reads this
    {
      maxY - gapMargin - gapSize / 2.0
    }

    /** A centre that keeps the gap inside the margins. */
    predicate InSafeBand(y: real, gapSize: real)
      reads this
    {
      SafeMin(gapSize) <= y <= SafeMax(gapSize)
    }

    /** `GenerateRandomPosition`: any centre between the safe bounds. */
    method GenerateRandomPosition(gapSize: real) returns (position: real)
      ensures MinReal(SafeMin(gapSize), SafeMax(gapSize)) <= position <= MaxReal(SafeMin(gapSize), SafeMax(gapSize))
      ensures SafeMin(gapSize) <= SafeMax(gapSize) ==> InSafeBand(position, gapSize)
    {
      position := RandomRange(SafeMin(gapSize), SafeMax(gapSize));
    }

    /**
     * `GenerateSmartPosition`: an extreme centre (top or bottom quarter) is
     * allowed only once `minGapsBetweenExtremes` gaps have passed since the
     * last, and resets that count; otherwise the centre lies in the middle
     * 60%.  A centre within half a gap of the previous one is pushed three
     * quarters of a gap away and clamped.
     */
    method GenerateSmartPosition(gapSize: real) returns (position: real)
      requires gapsSinceExtreme >= 0
      modifies this`gapsSinceExtreme
      ensures gapsSinceExtreme >= 0
      ensures gapsSinceExtreme == 0 || gapsSinceExtreme == old(gapsSinceExtreme) + 1
      ensures gapsSinceExtreme == 0 ==> old(gapsSinceExtreme) + 1 >= minGapsBetweenExtremes
      ensures SafeMin(gapSize) <= SafeMax(gapSize) ==> InSafeBand(position, gapSize)
    {
      var safeMin := SafeMin(gapSize);
      var safeMax := SafeMax(gapSize);
      var safeMiddle := (safeMin + safeMax) / 2.0;
      var range := safeMax - safeMin;
      gapsSinceExtreme := gapsSinceExtreme + 1;
      var roll := RandomValue();
      var shouldBeExtreme := gapsSinceExtreme >= minGapsBetweenExtremes && roll < extremePositionChance;
      if shouldBeExtreme {
        var extremeRange := range * 0.25;
        var side := RandomValue();
        if side > 0.5 {
          position := RandomRange(safeMax - extremeRange, safeMax);
        } else {
          position := RandomRange(safeMin, safeMin + extremeRange);
        }
        gapsSinceExtreme := 0;
      } else {
        var moderateRange := range * 0.6;
        position := RandomRange(safeMiddle - moderateRange / 2.0, safeMiddle + moderateRange / 2.0);
      }
      if Abs(position - lastGapY) < gapSize * 0.5 {
        var direction := RandomValue();
        position := position + (if direction > 0.5 then 1.0 else -1.0) * gapSize * 0.75;
        position := Clamp(position, safeMin, safeMax);
      }
    }

    /** The anchor of the alternating pattern for `phase` 0 (low), 1 (middle) or 2 (high). */
    function AlternatingAnchor(phase: int, gapSize: real): real
      reads this
    {
      var safeMiddle := (SafeMin(gapSize) + SafeMax(gapSize)) / 2.0;
      if phase == 0 then Lerp(SafeMin(gapSize), safeMiddle, 0.3)
      else if phase == 1 then safeMiddle
      else if phase == 2 then Lerp(safeMiddle, SafeMax(gapSize), 0.7)
      else safeMiddle
    }

    /**
     * `GenerateAlternatingPosition`: the anchor of `alternatingIndex % 3`,
     * jittered by at most 0.3 and clamped to the safe bounds; the index then
     * advances.
     */
    method GenerateAlternatingPosition(gapSize: real) returns (position: real)
      requires alternatingIndex >= 0
      modifies this`alternatingIndex
      ensures alternatingIndex == old(alternatingIndex) + 1
      ensures SafeMin(gapSize) <= SafeMax(gapSize) ==>
        InSafeBand(position, gapSize)
        && Clamp(AlternatingAnchor(old(alternatingIndex) % 3, gapSize) - 0.3, SafeMin(gapSize), SafeMax(gapSize))
           <= position
           <= Clamp(AlternatingAnchor(old(alternatingIndex) % 3, gapSize) + 0.3, SafeMin(gapSize), SafeMax(gapSize))
    {
      var safeMin := SafeMin(gapSize);
      var safeMax := SafeMax(gapSize);
      var anchor := AlternatingAnchor(alternatingIndex % 3, gapSize);
      var jitter := RandomRange(-0.3, 0.3);
      position := Clamp(anchor + jitter, safeMin, safeMax);
      if safeMin <= safeMax {
        ClampMonotone(anchor - 0.3, anchor + jitter, safeMin, safeMax);
        ClampMonotone(anchor + jitter, anchor + 0.3, safeMin, safeMax);
      }
      alternatingIndex := alternatingIndex + 1;
    }

    /**
     * `GenerateProgressivePosition`: after 3 to 5 gaps at one target a new
     * target is drawn between the safe bounds; the centre moves 40% of the way
     * from the last centre toward the target, clamped to the safe bounds.
     */
    method GenerateProgressivePosition(gapSize: real) returns (position: real)
      requires stepsAtTarget >= 0
      modifies this`stepsAtTarget, this`progressiveTarget
      ensures stepsAtTarget >= 0
      ensures stepsAtTarget == 0 || (stepsAtTarget == old(stepsAtTarget) + 1 && progressiveTarget == old(progressiveTarget))
      ensures old(stepsAtTarget) + 1 < 3 ==> stepsAtTarget == old(stepsAtTarget) + 1
      ensures old(stepsAtTarget) + 1 >= 5 ==> stepsAtTarget == 0
      ensures stepsAtTarget == 0 ==>
        MinReal(SafeMin(gapSize), SafeMax(gapSize)) <= progressiveTarget <= MaxReal(SafeMin(gapSize), SafeMax(gapSize))
      ensures position == Clamp(Lerp(lastGapY, progressiveTarget, 0.4), SafeMin(gapSize), SafeMax(gapSize))
      ensures SafeMin(gapSize) <= SafeMax(gapSize) ==> InSafeBand(position, gapSize)
    {
      var safeMin := SafeMin(gapSize);
      var safeMax := SafeMax(gapSize);
      stepsAtTarget := stepsAtTarget + 1;
      var limit := RandomInt(3, 6);
      if stepsAtTarget >= limit {
        progressiveTarget := RandomRange(safeMin, safeMax);
        stepsAtTarget := 0;
      }
      position := Clamp(Lerp(lastGapY, progressiveTarget, 0.4), safeMin, safeMax);
    }

    /**
     * `GenerateGap`: one more wall is counted, the size follows the new count,
     * and the centre comes from the configured mode, inside the safe band
     * whenever that band is not empty.  The centre becomes the last one and
     * joins the history, which keeps the five most recent.  Only the chosen
     * mode's counters move.
     */
    method GenerateGap() returns (centerY: real, size: real)
      requires Valid()
      modifies this`obstaclesSpawned, this`lastGapY, this`recentGapPositions, this`gapsSinceExtreme,
        this`alternatingIndex, this`stepsAtTarget, this`progressiveTarget
      ensures Valid()
      ensures obstaclesSpawned == old(obstaclesSpawned) + 1
      ensures size == GapSizeAt(obstaclesSpawned)
      ensures SafeMin(size) <= SafeMax(size) ==> InSafeBand(centerY, size)
      ensures lastGapY == centerY
      ensures recentGapPositions == Buffered(old(recentGapPositions), centerY, maxRecentGaps)
      ensures mode != Smart ==> gapsSinceExtreme == old(gapsSinceExtreme)
      ensures mode != Alternating ==> alternatingIndex == old(alternatingIndex)
      ensures mode == Alternating ==> alternatingIndex == old(alternatingIndex) + 1
      ensures mode != Progressive ==> stepsAtTarget == old(stepsAtTarget) && progressiveTarget == old(progressiveTarget)
      ensures mode == Smart ==>
        (gapsSinceExtreme == 0 || gapsSinceExtreme == old(gapsSinceExtreme) + 1)
        && (gapsSinceExtreme == 0 ==> old(gapsSinceExtreme) + 1 >= minGapsBetweenExtremes)
    {
      obstaclesSpawned := obstaclesSpawned + 1;
      size := GapSizeAt(obstaclesSpawned);
      match mode {
        case Random => centerY := GenerateRandomPosition(size);
        case Smart => centerY := GenerateSmartPosition(size);
        case Alternating => centerY := GenerateAlternatingPosition(size);
        case Progressive => centerY := GenerateProgressivePosition(size);
      }
      Remember(centerY);
    }

    /** The bookkeeping of `GenerateGap`: the centre becomes the last one and joins the bounded history. */
    method Remember(centerY: real)
      requires 1 <= maxRecentGaps && |recentGapPositions| <= maxRecentGaps
      modifies this`lastGapY, this`recentGapPositions
      ensures lastGapY == centerY
      ensures recentGapPositions == Buffered(old(recentGapPositions), centerY, maxRecentGaps)
    {
      lastGapY := centerY;
      recentGapPositions := recentGapPositions + [centerY];
      if |recentGapPositions| > maxRecentGaps {
        recentGapPositions := recentGapPositions[1..];
      }
    }

    /** `Reset`: every counter and the history back to their initial values. */
    method Reset()
      modifies this`obstaclesSpawned, this`lastGapY, this`gapsSinceExtreme, this`recentGapPositions,
        this`alternatingIndex, this`progressiveTarget, this`stepsAtTarget
      ensures obstaclesSpawned == 0 && lastGapY == 0.0 && gapsSinceExtreme == 999 && recentGapPositions == []
      ensures alternatingIndex == 0 && progressiveTarget == 0.0 && stepsAtTarget == 0
    {
      obstaclesSpawned := 0;
      lastGapY := 0.0;
      gapsSinceExtreme := 999;
      recentGapPositions := [];
      alternatingIndex := 0;
      progressiveTarget := 0.0;
      stepsAtTarget := 0;
    }
  }

  /**
   * With scaling on and the minimum below the base size, the gap never
   * widens as walls are added.
   */
  lemma GapNeverWidens(g: GapGenerator, m: int, n: int)
    requires g.obstaclesUntilMinGap > 0 && g.enableDifficultyScaling
    requires g.minGapSize <= g.baseGapSize && g.minGapSize <= g.maxGapSize
    requires m <= n
    ensures g.GapSizeAt(n) <= g.GapSizeAt(m)
  {
    DivideMonotone(m as real, n as real, g.obstaclesUntilMinGap as real);
    assert g.Progress(m) <= g.Progress(n);
    LerpDownwardMonotone(g.baseGapSize, g.minGapSize, g.Progress(m), g.Progress(n));
    ClampMonotone(Lerp(g.baseGapSize, g.minGapSize, g.Progress(n)), Lerp(g.baseGapSize, g.minGapSize, g.Progress(m)),
      g.minGapSize, g.maxGapSize);
  }

  /** Once `obstaclesUntilMinGap` walls have been counted, the gap has its minimum size. */
  lemma MinimumGapReached(g: GapGenerator, n: int)
    requires g.obstaclesUntilMinGap > 0 && g.enableDifficultyScaling && g.minGapSize <= g.maxGapSize
    requires n >= g.obstaclesUntilMinGap
    ensures g.GapSizeAt(n) == g.minGapSize
  {
    var u := g.obstaclesUntilMinGap as real;
    DivideMonotone(u, n as real, u);
    assert u / u == 1.0;
  }

  /**
   * A negative `obstaclesUntilMinGap` makes the share of the way to the
   * minimum gap negative, which the clamp turns into 0: the gap keeps its
   * (clamped) base size however many walls are counted.
   */
  lemma NegativeGoalKeepsBaseGap(g: GapGenerator, n: int)
    requires g.obstaclesUntilMinGap < 0 && n >= 0
    ensures g.Progress(n) == 0.0
    ensures g.enableDifficultyScaling ==>
      g.GapSizeAt(n) == Clamp(g.baseGapSize, g.minGapSize, g.maxGapSize)
  {
  }

  /** The three alternating anchors are low, middle and high, in that order. */
  lemma AnchorsAscend(g: GapGenerator, gapSize: real)
    requires g.SafeMin(gapSize) <= g.SafeMax(gapSize)
    ensures g.SafeMin(gapSize) <= g.AlternatingAnchor(0, gapSize)
    ensures g.AlternatingAnchor(0, gapSize) <= g.AlternatingAnchor(1, gapSize)
    ensures g.AlternatingAnchor(1, gapSize) <= g.AlternatingAnchor(2, gapSize)
    ensures g.AlternatingAnchor(2, gapSize) <= g.SafeMax(gapSize)
  {
  }
}
