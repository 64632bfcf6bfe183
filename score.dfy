/**
 * `ScoreManager`: points for gaps passed, an optional combo multiplier, a
 * bonus every so many gaps, and the high score.
 */
module Score {

  /** The notifications the manager raises. */
  datatype ScoreEvent = ScoreChanged(score: int) | HighScoreBeaten(highScore: int) | ComboChanged(combo: int)

  function Min(a: int, b: int): int { if a < b then a else b }

  class ScoreManager {
    const pointsPerGap: int
    const bonusPointsThreshold: int
    const bonusPoints: int
    const enableComboSystem: bool
    const comboTimeWindow: real
    const comboMultiplierMax: int

    var currentScore: int
    var highScore: int
    var gapsPassedInSession: int
    var currentCombo: int
    var lastScoreTime: real
    /** The events raised so far, in order. */
    var events: seq<ScoreEvent>

    constructor (pointsPerGap: int, bonusPointsThreshold: int, bonusPoints: int,
                 enableComboSystem: bool, comboTimeWindow: real, comboMultiplierMax: int)
      ensures this.pointsPerGap == pointsPerGap && this.bonusPointsThreshold == bonusPointsThreshold
      ensures this.bonusPoints == bonusPoints && this.enableComboSystem == enableComboSystem
      ensures this.comboTimeWindow == comboTimeWindow && this.comboMultiplierMax == comboMultiplierMax
      ensures currentScore == 0 && highScore == 0 && gapsPassedInSession == 0
      ensures currentCombo == 0 && lastScoreTime == 0.0 && events == []
    {
      this.pointsPerGap := pointsPerGap;
      this.bonusPointsThreshold := bonusPointsThreshold;
      this.bonusPoints := bonusPoints;
      this.enableComboSystem := enableComboSystem;
      this.comboTimeWindow := comboTimeWindow;
      this.comboMultiplierMax := comboMultiplierMax;
      currentScore := 0;
      highScore := 0;
      gapsPassedInSession := 0;
      currentCombo := 0;
      lastScoreTime := 0.0;
      events := [];
    }

    /** The combo multiplier for a combo count: the count, capped at `comboMultiplierMax`. */
    function Multiplier(combo: int): (m: int)
      reads this
      ensures m <= comboMultiplierMax && m <= combo
      ensures m == combo || m == comboMultiplierMax
    {
      Min(combo, comboMultiplierMax)
    }

    /**
     * The points one `AddScore(gaps)` awards, given the combo count and the
     * gap total after the call: the base points, multiplied in combo mode,
     * plus the bonus when the total is a multiple of the threshold.
     */
    function Award(gaps: int, combo: int, total: int): int
      reads this
      requires bonusPointsThreshold != 0
    {
      pointsPerGap * gaps * (if enableComboSystem then Multiplier(combo) else 1)
      + (if total % bonusPointsThreshold == 0 then bonusPoints else 0)
    }

    /** Without combo mode, one gap at a time, the bonus falls on every threshold-th gap. */
    lemma BonusOnThreshold(total: int)
      requires bonusPointsThreshold > 0 && !enableComboSystem
      ensures Award(1, 0, total) == pointsPerGap + (if total % bonusPointsThreshold == 0 then bonusPoints else 0)
      ensures Award(1, 0, bonusPointsThreshold) == pointsPerGap + bonusPoints
    {
    }

    /** `Start`: the high score is loaded from storage (`stored` stands for the saved value or 0). */
    method Start(stored: int)
      modifies this`highScore
      ensures highScore == stored
    {
      highScore := stored;
    }

    /** `Update`: in combo mode, a combo older than the time window is lost. */
    method Update(now: real)
      modifies this`currentCombo, this`events
      ensures enableComboSystem && old(currentCombo) > 0 && now - lastScoreTime > comboTimeWindow ==>
        currentCombo == 0 && events == old(events) + [ComboChanged(0)]
      ensures !(enableComboSystem && old(currentCombo) > 0 && now - lastScoreTime > comboTimeWindow) ==>
        currentCombo == old(currentCombo) && events == old(events)
    {
      if enableComboSystem && currentCombo > 0 {
        if now - lastScoreTime > comboTimeWindow {
          ResetCombo();
        }
      }
    }

    /**
     * The whole state after `AddScore(gaps)` at time `now`, against the state
     * before: the gaps are counted, the combo (if on) grows and restarts its
     * window, the award for the new combo and total is added, the high score
     * follows the score up, and the events are raised in that order.
     */
    twostate predicate Scored(gaps: int, now: real)
      requires bonusPointsThreshold != 0
      reads this
    {
      && gapsPassedInSession == old(gapsPassedInSession) + gaps
      && (enableComboSystem ==> currentCombo == old(currentCombo) + 1 && lastScoreTime == now)
      && (!enableComboSystem ==> currentCombo == old(currentCombo) && lastScoreTime == old(lastScoreTime))
      && currentScore == old(currentScore) + Award(gaps, currentCombo, gapsPassedInSession)
      && highScore == (if currentScore > old(highScore) then currentScore else old(highScore))
      && events == old(events)
        + (if enableComboSystem then [ComboChanged(currentCombo)] else [])
        + [ScoreChanged(currentScore)]
        + (if currentScore > old(highScore) then [HighScoreBeaten(currentScore)] else [])
    }

    /**
     * `AddScore(gaps)` at time `now`: the gaps are counted, the combo (if on)
     * grows, the award is added, and the high score follows the score up.
     * Afterwards the high score is at least the score and never lower than
     * before.  A zero bonus threshold would divide by zero.
     */
    method AddScore(gaps: int, now: real)
      requires bonusPointsThreshold != 0
      modifies this`gapsPassedInSession, this`currentCombo, this`lastScoreTime, this`currentScore,
        this`highScore, this`events
      ensures Scored(gaps, now)
      ensures highScore >= currentScore && highScore >= old(highScore)
    {
      gapsPassedInSession := gapsPassedInSession + gaps;
      var points := pointsPerGap * gaps;
      if enableComboSystem {
        currentCombo := currentCombo + 1;
        var multiplier := Min(currentCombo, comboMultiplierMax);
        points := points * multiplier;
        lastScoreTime := now;
        events := events + [ComboChanged(currentCombo)];
      }
      if gapsPassedInSession % bonusPointsThreshold == 0 {
        points := points + bonusPoints;
      }
      currentScore := currentScore + points;
      events := events + [ScoreChanged(currentScore)];
      if currentScore > highScore {
        highScore := currentScore;
        events := events + [HighScoreBeaten(highScore)];
      }
    }

    /** `ResetCombo`: only a running combo is reset and announced. */
    method ResetCombo()
      modifies this`currentCombo, this`events
      ensures old(currentCombo) > 0 ==> currentCombo == 0 && events == old(events) + [ComboChanged(0)]
      ensures old(currentCombo) <= 0 ==> currentCombo == old(currentCombo) && events == old(events)
    {
      if currentCombo > 0 {
        currentCombo := 0;
        events := events + [ComboChanged(currentCombo)];
      }
    }

    /** `ResetScore`: a new session; the high score is kept. */
    method ResetScore()
      modifies this`currentScore, this`gapsPassedInSession, this`currentCombo, this`lastScoreTime, this`events
      ensures currentScore == 0 && gapsPassedInSession == 0 && currentCombo == 0 && lastScoreTime == 0.0
      ensures events == old(events) + [ScoreChanged(0), ComboChanged(0)]
    {
      currentScore := 0;
      gapsPassedInSession := 0;
      currentCombo := 0;
      lastScoreTime := 0.0;
      events := events + [ScoreChanged(currentScore), ComboChanged(currentCombo)];
    }

    /**
     * `GetAccuracy`: the share of attempts that went through a gap, in
     * percent; 100 with no collision handler (`wallsHit` is `None`) or no
     * attempts.  With non-negative counts it lies in [0, 100].
     */
    method GetAccuracy(wallsHit: Option<int>) returns (r: real)
      ensures wallsHit.None? ==> r == 100.0
      ensures wallsHit.Some? && gapsPassedInSession + wallsHit.value <= 0 ==> r == 100.0
      ensures wallsHit.Some? && gapsPassedInSession + wallsHit.value > 0 ==>
        r == (gapsPassedInSession as real) / ((gapsPassedInSession + wallsHit.value) as real) * 100.0
      ensures gapsPassedInSession >= 0 && (wallsHit.Some? ==> wallsHit.value >= 0) ==> 0.0 <= r <= 100.0
    {
      if wallsHit.Some? {
        var totalAttempts := gapsPassedInSession + wallsHit.value;
        if totalAttempts > 0 {
          r := (gapsPassedInSession as real) / (totalAttempts as real) * 100.0;
          if gapsPassedInSession >= 0 && wallsHit.value >= 0 {
            ShareAtMostOne(gapsPassedInSession, totalAttempts);
          }
          return;
        }
      }
      r := 100.0;
    }
  }

  datatype Option<T> = None | Some(value: T)

  lemma ShareAtMostOne(part: int, whole: int)
    requires 0 <= part <= whole && whole > 0
    ensures 0.0 <= (part as real) / (whole as real) <= 1.0
  {
  }
}
