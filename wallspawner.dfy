/**
 * `WallSpawner`: after a start delay, keeps walls spawned ahead of the
 * camera, each a fixed distance past the previous one, each with a gap drawn
 * from the `GapGenerator`.
 */
module Walls {
  import opened Strings
  import opened Gaps

  /**
   * A spawned wall as the spawner sees it: its number and name, its x
   * position, and the arguments its `WallObstacle.SetupGap` received.
   */
  datatype WallRecord = WallRecord(number: nat, name: string, x: real, gapCenterY: real, gapSize: real, moveSpeed: real)

  /** The name given to the `n`-th wall. */
  function WallName(n: nat): string
  {
    "Wall_" + NatToString(n)
  }

  /**
   * `activeWalls.RemoveAll(w => w == null)`: the walls whose game objects
   * have not been destroyed (`destroyed` holds the numbers of those that
   * have), in their order.
   */
  function Surviving(ws: seq<WallRecord>, destroyed: set<nat>): (r: seq<WallRecord>)
    ensures |r| <= |ws|
    ensures forall w :: w in r <==> w in ws && w.number !in destroyed
  {
    if ws == [] then []
    else if ws[0].number in destroyed then Surviving(ws[1..], destroyed)
    else [ws[0]] + Surviving(ws[1..], destroyed)
  }

  /**
   * `ws` are the walls spawned one after another from furthest position `x0`
   * and count `n0`: numbered on from `n0`, each `d` past the one before, and
   * set up with speed 0.
   */
  predicate SpawnedInSequence(ws: seq<WallRecord>, x0: real, n0: nat, d: real)
    decreases |ws|
  {
    ws == [] ||
    (ws[0].number == n0 + 1 && ws[0].name == WallName(n0 + 1) && ws[0].moveSpeed == 0.0 && ws[0].x == x0 + d
     && SpawnedInSequence(ws[1..], ws[0].x, n0 + 1, d))
  }

  /** One more wall, numbered and placed after the last, continues the sequence. */
  lemma {:induction false} ExtendSpawned(ws: seq<WallRecord>, w: WallRecord, x0: real, n0: nat, d: real)
    requires SpawnedInSequence(ws, x0, n0, d)
    requires w.number == n0 + |ws| + 1 && w.name == WallName(n0 + |ws| + 1) && w.moveSpeed == 0.0
    requires w.x == (if ws == [] then x0 else ws[|ws| - 1].x) + d
    ensures SpawnedInSequence(ws + [w], x0, n0, d)
  {
    if ws == [] {
      assert [w][1..] == [];
    } else {
      assert (ws + [w])[1..] == ws[1..] + [w];
      ExtendSpawned(ws[1..], w, ws[0].x, n0 + 1, d);
    }
  }

  /**
   * `after` is `before` followed by walls spawned in sequence from `x0`,
   * which leave the furthest wall at `finalX`: at or past `targetX`, and
   * with no wall spawned that was not needed to get there.
   */
  predicate GrownBySpawning(before: seq<WallRecord>, after: seq<WallRecord>, x0: real, n0: nat, d: real,
                            finalX: real, targetX: real)
  {
    |after| >= |before| && after[..|before|] == before
    && var spawned := after[|before|..];
       SpawnedInSequence(spawned, x0, n0, d)
       && finalX >= targetX
       && (spawned == [] <==> x0 >= targetX)
       && (spawned == [] ==> finalX == x0)
       && (spawned != [] ==> finalX == spawned[|spawned| - 1].x && finalX - d < targetX)
  }

  lemma SplitGrown(kept: seq<WallRecord>, spawned: seq<WallRecord>)
    ensures (kept + spawned)[..|kept|] == kept && (kept + spawned)[|kept|..] == spawned
  {
  }

  /** Subtracting the divisor from the dividend lowers the quotient by one. */
  lemma QuotientStep(a: real, d: real)
    requires d > 0.0
    ensures (a - d) / d == a / d - 1.0
  {
    assert (a - d) / d == a / d - d / d;
    assert d / d == 1.0;
  }

  /**
   * Moving `x` one step `d` toward a target still beyond it lowers the
   * whole number of steps left, which stays non-negative.
   */
  lemma StepsLeftDecrease(target: real, x: real, d: real)
    requires d > 0.0 && x < target
    ensures 0 <= ((target - x) / d).Floor
    ensures ((target - (x + d)) / d).Floor < ((target - x) / d).Floor
  {
    QuotientStep(target - x, d);
    assert target - (x + d) == (target - x) - d;
    assert (target - x) / d > 0.0;
  }

  class WallSpawner {
    const spawnAheadDistance: real
    const minDistanceBetweenWalls: real
    const startDelay: real
    /** Whether a wall prefab is assigned. */
    const hasWallPrefab: bool
    const gapGenerator: GapGenerator?

    var isSpawning: bool
    var wallsSpawned: nat
    var furthestWallX: real
    var activeWalls: seq<WallRecord>
    var startTime: real
    var initialized: bool

    constructor (spawnAheadDistance: real, minDistanceBetweenWalls: real, startDelay: real, hasWallPrefab: bool,
                 gapGenerator: GapGenerator?)
      ensures this.spawnAheadDistance == spawnAheadDistance
      ensures this.minDistanceBetweenWalls == minDistanceBetweenWalls && this.startDelay == startDelay
      ensures this.hasWallPrefab == hasWallPrefab && this.gapGenerator == gapGenerator
      ensures !isSpawning && wallsSpawned == 0 && furthestWallX == -999.0 && activeWalls == [] && !initialized
    {
      this.spawnAheadDistance := spawnAheadDistance;
      this.minDistanceBetweenWalls := minDistanceBetweenWalls;
      this.startDelay := startDelay;
      this.hasWallPrefab := hasWallPrefab;
      this.gapGenerator := gapGenerator;
      isSpawning := false;
      wallsSpawned := 0;
      furthestWallX := -999.0;
      activeWalls := [];
      startTime := 0.0;
      initialized := false;
    }

    /** `Start`: the start delay is counted from now. */
    method Start(now: real)
      modifies this`startTime
      ensures startTime == now
    {
      startTime := now;
    }

    /**
     * `Update` at time `now` with the camera at `cameraX`.  Before the start
     * delay has passed nothing spawns; when it has, spawning begins 5 units
     * past the camera.  Afterwards, while spawning (and with a prefab and a
     * generator), destroyed walls are dropped and walls are spawned until the
     * furthest lies at least `spawnAheadDistance` ahead of the camera.  The
     * loop ends only for a positive distance between walls.
     */
    method Update(now: real, cameraX: real, destroyed: set<nat>)
      requires minDistanceBetweenWalls > 0.0
      requires gapGenerator != null ==> gapGenerator.Valid()
      modifies this, gapGenerator
      ensures gapGenerator != null ==> gapGenerator.Valid()
      ensures startTime == old(startTime)
      ensures !old(initialized) && now - startTime >= startDelay ==>
        initialized && isSpawning && furthestWallX == cameraX + 5.0
        && wallsSpawned == old(wallsSpawned) && activeWalls == old(activeWalls)
      ensures !old(initialized) && now - startTime < startDelay ==>
        !initialized && isSpawning == old(isSpawning) && furthestWallX == old(furthestWallX)
        && wallsSpawned == old(wallsSpawned) && activeWalls == old(activeWalls)
      ensures old(initialized) && (!old(isSpawning) || !hasWallPrefab || gapGenerator == null) ==>
        initialized && isSpawning == old(isSpawning) && furthestWallX == old(furthestWallX)
        && wallsSpawned == old(wallsSpawned) && activeWalls == old(activeWalls)
      ensures (!old(initialized) || !old(isSpawning) || !hasWallPrefab) && gapGenerator != null ==>
        unchanged(gapGenerator)
      ensures old(initialized) && old(isSpawning) && hasWallPrefab && gapGenerator != null ==>
        var kept := Surviving(old(activeWalls), destroyed);
        initialized && isSpawning
        && GrownBySpawning(kept, activeWalls, old(furthestWallX), old(wallsSpawned), minDistanceBetweenWalls,
                           furthestWallX, cameraX + spawnAheadDistance)
        && wallsSpawned == old(wallsSpawned) + |activeWalls| - |kept|
        && gapGenerator.obstaclesSpawned == old(gapGenerator.obstaclesSpawned) + |activeWalls| - |kept|
    {
      if !initialized {
        if now - startTime >= startDelay {
          initialized := true;
          isSpawning := true;
          furthestWallX := cameraX + 5.0;
        }
        return;
      }
      if !isSpawning {
        return;
      }
      if !hasWallPrefab || gapGenerator == null {
        return;
      }
      activeWalls := Surviving(activeWalls, destroyed);
      SpawnAhead(cameraX + spawnAheadDistance);
    }

    /** The `while` loop of `Update`: walls are spawned until the furthest reaches `targetX`. */
    method SpawnAhead(targetX: real)
      requires minDistanceBetweenWalls > 0.0
      requires gapGenerator != null && gapGenerator.Valid()
      modifies this`wallsSpawned, this`furthestWallX, this`activeWalls, gapGenerator
      ensures gapGenerator.Valid()
      ensures GrownBySpawning(old(activeWalls), activeWalls, old(furthestWallX), old(wallsSpawned),
                              minDistanceBetweenWalls, furthestWallX, targetX)
      ensures wallsSpawned == old(wallsSpawned) + |activeWalls| - |old(activeWalls)|
      ensures gapGenerator.obstaclesSpawned == old(gapGenerator.obstaclesSpawned) + |activeWalls| - |old(activeWalls)|
    {
      ghost var kept := activeWalls;
      ghost var x0 := furthestWallX;
      ghost var n0 := wallsSpawned;
      ghost var spawned: seq<WallRecord> := [];
      while furthestWallX < targetX
        invariant gapGenerator.Valid()
        invariant activeWalls == kept + spawned
        invariant SpawnedInSequence(spawned, x0, n0, minDistanceBetweenWalls)
        invariant wallsSpawned == n0 + |spawned|
        invariant gapGenerator.obstaclesSpawned == old(gapGenerator.obstaclesSpawned) + |spawned|
        invariant spawned == [] ==> furthestWallX == x0
        invariant spawned != [] ==>
          furthestWallX == spawned[|spawned| - 1].x && furthestWallX - minDistanceBetweenWalls < targetX
          && x0 < targetX
        decreases ((targetX - furthestWallX) / minDistanceBetweenWalls).Floor
      {
        StepsLeftDecrease(targetX, furthestWallX, minDistanceBetweenWalls);
        var w := SpawnWall();
        ExtendSpawned(spawned, w, x0, n0, minDistanceBetweenWalls);
        spawned := spawned + [w];
      }
      SplitGrown(kept, spawned);
    }

    /**
     * `SpawnWall`: the next wall, `minDistanceBetweenWalls` past the
     * furthest, named after the new count, with exactly one gap drawn from
     * the generator and handed over with speed 0.
     */
    method SpawnWall() returns (w: WallRecord)
      requires gapGenerator != null && gapGenerator.Valid()
      modifies this`wallsSpawned, this`furthestWallX, this`activeWalls, gapGenerator
      ensures gapGenerator.Valid()
      ensures wallsSpawned == old(wallsSpawned) + 1
      ensures furthestWallX == old(furthestWallX) + minDistanceBetweenWalls
      ensures gapGenerator.obstaclesSpawned == old(gapGenerator.obstaclesSpawned) + 1
      ensures activeWalls == old(activeWalls) + [w]
      ensures w.number == wallsSpawned && w.name == WallName(wallsSpawned) && w.x == furthestWallX && w.moveSpeed == 0.0
        && w.gapCenterY == gapGenerator.lastGapY
        && w.gapSize == gapGenerator.GapSizeAt(gapGenerator.obstaclesSpawned)
        && (gapGenerator.SafeMin(w.gapSize) <= gapGenerator.SafeMax(w.gapSize) ==>
              gapGenerator.InSafeBand(w.gapCenterY, w.gapSize))
    {
      wallsSpawned := wallsSpawned + 1;
      var spawnX := furthestWallX + minDistanceBetweenWalls;
      var gapCenterY, gapSize := gapGenerator.GenerateGap();
      w := WallRecord(wallsSpawned, WallName(wallsSpawned), spawnX, gapCenterY, gapSize, 0.0);
      activeWalls := activeWalls + [w];
      furthestWallX := spawnX;
    }

    /** `StartSpawning`: ignored, since spawning starts by itself after the delay. */
    method StartSpawning(delay: real)
      ensures unchanged(this)
    {
    }

    /** `StopSpawning`: no further walls spawn. */
    method StopSpawning()
      modifies this`isSpawning
      ensures !isSpawning
    {
      isSpawning := false;
    }

    /**
     * The state `Reset` leaves at time `now`: not spawning and not started,
     * no walls, the start clock at `now`, and every generator counter and
     * the gap history back to their initial values.
     */
    predicate ResetAt(now: real)
      reads this, gapGenerator
    {
      && !isSpawning && !initialized && wallsSpawned == 0 && furthestWallX == -999.0
      && activeWalls == [] && startTime == now
      && (gapGenerator != null ==>
            gapGenerator.obstaclesSpawned == 0 && gapGenerator.lastGapY == 0.0
            && gapGenerator.gapsSinceExtreme == 999 && gapGenerator.recentGapPositions == []
            && gapGenerator.alternatingIndex == 0 && gapGenerator.progressiveTarget == 0.0
            && gapGenerator.stepsAtTarget == 0)
    }

    /**
     * `Reset` at time `now`: the spawner waits for its start delay again,
     * with no walls and the generator reset.
     */
    method Reset(now: real)
      requires gapGenerator != null ==> gapGenerator.Valid()
      modifies this`isSpawning, this`initialized, this`wallsSpawned, this`furthestWallX, this`activeWalls,
        this`startTime, gapGenerator
      ensures gapGenerator != null ==> gapGenerator.Valid()
      ensures ResetAt(now)
    {
      isSpawning := false;
      initialized := false;
      wallsSpawned := 0;
      furthestWallX := -999.0;
      activeWalls := [];
      startTime := now;
      if gapGenerator != null {
        gapGenerator.Reset();
      }
    }
  }

  /** A wall's name tells its number: distinct numbers give distinct names. */
  lemma WallNamesDistinct(m: nat, n: nat)
    requires m != n
    ensures WallName(m) != WallName(n)
  {
    NatToStringInjective(m, n);
    assert WallName(m)[5..] == NatToString(m);
    assert WallName(n)[5..] == NatToString(n);
  }

  /**
   * Walls spawned in sequence with a positive spacing are numbered on from
   * the count they started at, and lie strictly beyond the furthest position
   * they started from, in increasing order.
   */
  lemma {:induction false} SpawnedAscending(ws: seq<WallRecord>, x0: real, n0: nat, d: real)
    requires d > 0.0 && SpawnedInSequence(ws, x0, n0, d)
    ensures forall i :: 0 <= i < |ws| ==> ws[i].number == n0 + i + 1 && x0 < ws[i].x
    ensures forall i, j :: 0 <= i < j < |ws| ==> ws[i].x < ws[j].x
  {
    if ws != [] {
      var tail := ws[1..];
      SpawnedAscending(tail, ws[0].x, n0 + 1, d);
      forall i | 1 <= i < |ws|
        ensures ws[i] == tail[i - 1]
      {
      }
    }
  }

  /** The walls of one spawning run carry distinct names. */
  lemma SpawnedNamesDistinct(ws: seq<WallRecord>, x0: real, n0: nat, d: real)
    requires d > 0.0 && SpawnedInSequence(ws, x0, n0, d)
    ensures forall i, j :: 0 <= i < j < |ws| ==> ws[i].name != ws[j].name
  {
    SpawnedAscending(ws, x0, n0, d);
    SpawnedNamed(ws, x0, n0, d);
    forall i, j | 0 <= i < j < |ws|
      ensures ws[i].name != ws[j].name
    {
      WallNamesDistinct(n0 + i + 1, n0 + j + 1);
    }
  }

  /** Every wall of a spawning run is named after its number. */
  lemma {:induction false} SpawnedNamed(ws: seq<WallRecord>, x0: real, n0: nat, d: real)
    requires SpawnedInSequence(ws, x0, n0, d)
    ensures forall i :: 0 <= i < |ws| ==> ws[i].name == WallName(ws[i].number) && ws[i].moveSpeed == 0.0
  {
    if ws != [] {
      SpawnedNamed(ws[1..], ws[0].x, n0 + 1, d);
      forall i | 1 <= i < |ws|
        ensures ws[i] == ws[1..][i - 1]
      {
      }
    }
  }
}
