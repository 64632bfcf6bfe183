/**
 * `CollisionHandler`: recognises walls (solid collisions) and gap triggers
 * (trigger zones), counts wall hits and gap passes, and keeps a single gap
 * from counting twice within a cooldown.
 */
module Collision {
  import opened Score

  /**
   * What the handler looks at in a collider's game object: its layer, tag
   * and name, and (for a trigger inside a wall) the number of the wall whose
   * `WallObstacle` is found among its parents.
   */
  datatype GameObjectInfo = GameObjectInfo(layer: int, tag: string, name: string, parentWall: Option<nat>)

  /**
   * `((1 << layer) & mask) != 0`: C# masks the shift count of a 32-bit shift
   * to its low five bits, which for any layer is its residue modulo 32.
   */
  function InLayerMask(layer: int, mask: bv32): (r: bool)
    ensures mask == 0 ==> !r
    ensures mask == 0xFFFF_FFFF ==> r
  {
    (1 as bv32 << (layer % 32) as nat) & mask != 0
  }

  /** The wall test of `OnCollisionEnter2D`: by layer, or by the tag "Wall" or "Obstacle". */
  predicate IsWall(o: GameObjectInfo, wallLayer: bv32)
  {
    InLayerMask(o.layer, wallLayer) || o.tag == "Wall" || o.tag == "Obstacle"
  }

  /** The gap test of `OnTriggerEnter2D`: by layer, by the tag "Gap" or "GapTrigger", or by the name "GapTrigger". */
  predicate IsGapTrigger(o: GameObjectInfo, gapTriggerLayer: bv32)
  {
    InLayerMask(o.layer, gapTriggerLayer) || o.tag == "Gap" || o.tag == "GapTrigger" || o.name == "GapTrigger"
  }

  /** Nothing is ever both a wall by tag and a gap trigger by tag: the tag sets are disjoint. */
  lemma TagsAreDisjoint(o: GameObjectInfo)
    requires o.tag == "Wall" || o.tag == "Obstacle"
    ensures IsWall(o, 0)
    ensures o.name != "GapTrigger" ==> !IsGapTrigger(o, 0)
  {
    assert "Wall" != "Gap" && "Wall" != "GapTrigger" by {
      assert "Wall"[0] != "Gap"[1];
      assert |"Wall"| != |"GapTrigger"|;
    }
    assert "Obstacle" != "Gap" && "Obstacle" != "GapTrigger" by {
      assert |"Obstacle"| != |"Gap"|;
      assert "Obstacle"[0] != "GapTrigger"[0];
    }
  }

  class CollisionHandler {
    const wallLayer: bv32
    const gapTriggerLayer: bv32
    const gapPassCooldown: real

    var lastGapPassTime: real
    var wallsHit: int
    var gapsPassed: int
    /** The walls whose `WallObstacle.OnPlayerPassed` was called, in order. */
    var passedWalls: seq<nat>

    constructor (wallLayer: bv32, gapTriggerLayer: bv32, gapPassCooldown: real)
      ensures this.wallLayer == wallLayer && this.gapTriggerLayer == gapTriggerLayer
      ensures this.gapPassCooldown == gapPassCooldown
      ensures lastGapPassTime == -999.0 && wallsHit == 0 && gapsPassed == 0 && passedWalls == []
    {
      this.wallLayer := wallLayer;
      this.gapTriggerLayer := gapTriggerLayer;
      this.gapPassCooldown := gapPassCooldown;
      lastGapPassTime := -999.0;
      wallsHit := 0;
      gapsPassed := 0;
      passedWalls := [];
    }

    /** Whether a gap pass at time `now` is outside the cooldown of the last counted one. */
    predicate CooldownOver(now: real)
      reads this
    {
      !(now - lastGapPassTime < gapPassCooldown)
    }

    /** `OnCollisionEnter2D`: a collision counts as a wall hit exactly when the object is a wall. */
    method OnCollisionEnter2D(o: GameObjectInfo)
      modifies this`wallsHit
      ensures wallsHit == old(wallsHit) + (if IsWall(o, wallLayer) then 1 else 0)
    {
      if IsWall(o, wallLayer) {
        HandleWallCollision();
      }
    }

    /** `HandleWallCollision`: one more wall hit. */
    method HandleWallCollision()
      modifies this`wallsHit
      ensures wallsHit == old(wallsHit) + 1
    {
      wallsHit := wallsHit + 1;
    }

    /**
     * `OnTriggerEnter2D` at time `now`, with the score manager if there is
     * one: a gap trigger outside the cooldown is counted once, its wall is
     * told, and one gap is added to the score; anything else changes nothing.
     */
    method OnTriggerEnter2D(o: GameObjectInfo, now: real, scoreManager: ScoreManager?)
      requires scoreManager != null ==> scoreManager.bonusPointsThreshold != 0
      modifies this`lastGapPassTime, this`gapsPassed, this`passedWalls, scoreManager
      ensures wallsHit == old(wallsHit)
      ensures !(IsGapTrigger(o, gapTriggerLayer) && old(CooldownOver(now))) ==>
        lastGapPassTime == old(lastGapPassTime) && gapsPassed == old(gapsPassed) && passedWalls == old(passedWalls)
        && (scoreManager != null ==> unchanged(scoreManager))
      ensures IsGapTrigger(o, gapTriggerLayer) && old(CooldownOver(now)) ==>
        lastGapPassTime == now && gapsPassed == old(gapsPassed) + 1
        && passedWalls == old(passedWalls) + (if o.parentWall.Some? then [o.parentWall.value] else [])
        && (scoreManager != null ==> scoreManager.Scored(1, now))
    {
      if IsGapTrigger(o, gapTriggerLayer) {
        HandleGapPass(o, now, scoreManager);
      }
    }

    /** `HandleGapPass`: the cooldown check, then the count, the wall's notice and the score. */
    method HandleGapPass(o: GameObjectInfo, now: real, scoreManager: ScoreManager?)
      requires scoreManager != null ==> scoreManager.bonusPointsThreshold != 0
      modifies this`lastGapPassTime, this`gapsPassed, this`passedWalls, scoreManager
      ensures !old(CooldownOver(now)) ==>
        lastGapPassTime == old(lastGapPassTime) && gapsPassed == old(gapsPassed) && passedWalls == old(passedWalls)
        && (scoreManager != null ==> unchanged(scoreManager))
      ensures old(CooldownOver(now)) ==>
        lastGapPassTime == now && gapsPassed == old(gapsPassed) + 1
        && passedWalls == old(passedWalls) + (if o.parentWall.Some? then [o.parentWall.value] else [])
        && (scoreManager != null ==> scoreManager.Scored(1, now))
    {
      if now - lastGapPassTime < gapPassCooldown {
        return;
      }
      lastGapPassTime := now;
      gapsPassed := gapsPassed + 1;
      if o.parentWall.Some? {
        passedWalls := passedWalls + [o.parentWall.value];
      }
      if scoreManager != null {
        scoreManager.AddScore(1, now);
      }
    }

    /** `GetWallsHit`. */
    function GetWallsHit(): int
      reads this
    {
      wallsHit
    }

    /** `GetGapsPassed`. */
    function GetGapsPassed(): int
      reads this
    {
      gapsPassed
    }

    /** `Reset`: both counters are zero and the next gap pass is outside any cooldown. */
    method Reset()
      modifies this`wallsHit, this`gapsPassed, this`lastGapPassTime
      ensures wallsHit == 0 && gapsPassed == 0 && lastGapPassTime == -999.0
      ensures forall now :: now >= gapPassCooldown - 999.0 ==> CooldownOver(now)
    {
      wallsHit := 0;
      gapsPassed := 0;
      lastGapPassTime := -999.0;
    }
  }

  /**
   * The gap passes that count, from trigger times `times` in the order they
   * arrive, with the last counted pass at `last`: each step is the cooldown
   * test of `HandleGapPass`.
   */
  function CountedPasses(times: seq<real>, last: real, cooldown: real): seq<real>
    decreases |times|
  {
    if times == [] then []
    else if times[0] - last < cooldown then CountedPasses(times[1..], last, cooldown)
    else [times[0]] + CountedPasses(times[1..], times[0], cooldown)
  }

  /**
   * No gap counts twice within the cooldown: the counted passes are drawn
   * from the triggers, the first lies a full cooldown after the last counted
   * one, and consecutive counted passes lie at least a cooldown apart.
   */
  lemma {:induction false} CountedPassesSpaced(times: seq<real>, last: real, cooldown: real)
    ensures |CountedPasses(times, last, cooldown)| <= |times|
    ensures forall t :: t in CountedPasses(times, last, cooldown) ==> t in times
    ensures CountedPasses(times, last, cooldown) != [] ==> CountedPasses(times, last, cooldown)[0] - last >= cooldown
    ensures var r := CountedPasses(times, last, cooldown);
      forall i :: 0 <= i < |r| - 1 ==> r[i + 1] - r[i] >= cooldown
  {
    if times != [] {
      if times[0] - last < cooldown {
        CountedPassesSpaced(times[1..], last, cooldown);
      } else {
        var rest := CountedPasses(times[1..], times[0], cooldown);
        CountedPassesSpaced(times[1..], times[0], cooldown);
        var r := [times[0]] + rest;
        forall i | 0 <= i < |r| - 1
          ensures r[i + 1] - r[i] >= cooldown
        {
          if i > 0 {
            assert r[i] == rest[i - 1] && r[i + 1] == rest[i];
          }
        }
      }
    }
  }

  /** Triggers that all arrive within the cooldown of the last counted pass count not at all. */
  lemma {:induction false} WithinCooldownIgnored(times: seq<real>, last: real, cooldown: real)
    requires forall i :: 0 <= i < |times| ==> times[i] - last < cooldown
    ensures CountedPasses(times, last, cooldown) == []
  {
    if times != [] {
      WithinCooldownIgnored(times[1..], last, cooldown);
    }
  }

  /** With a positive cooldown, triggers arriving all at once count at most once. */
  lemma {:induction false} SimultaneousTriggersCountOnce(times: seq<real>, last: real, cooldown: real)
    requires cooldown > 0.0
    requires forall i :: 0 <= i < |times| ==> times[i] == times[0]
    ensures |CountedPasses(times, last, cooldown)| <= 1
  {
    if times != [] {
      if times[0] - last < cooldown {
        SimultaneousTriggersCountOnce(times[1..], last, cooldown);
      } else {
        WithinCooldownIgnored(times[1..], times[0], cooldown);
      }
    }
  }
}
