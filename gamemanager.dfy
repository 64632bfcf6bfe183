/**
 * `GameManager`: the five game states of the mini-game and the transitions
 * between them, with what each transition does to time, the UI panels, the
 * player, the spawner, the score and the collision statistics.
 */
module Game {
  import opened Score
  import opened Collision
  import opened Walls

  datatype GameState = Calibration | Ready | Playing | Paused | GameOver

  /** The requests that move the state. */
  datatype Command = Start | Pause | Resume | Toggle | End | CalibrationDone

  /**
   * The state after a request: starting is refused during a scene
   * transition, pausing only acts while playing, resuming only while
   * paused, and ending always ends.
   */
  function StateAfter(s: GameState, c: Command, transitioning: bool): GameState
  {
    match c
    case Start => if transitioning then s else Playing
    case Pause => if s == Playing then Paused else s
    case Resume => if s == Paused then Playing else s
    case Toggle => if s == Playing then Paused else if s == Paused then Playing else s
    case End => GameOver
    case CalibrationDone => Ready
  }

  /** Toggling is pausing while playing and resuming while paused, and does nothing otherwise. */
  lemma ToggleIsPauseOrResume(s: GameState, t: bool)
    ensures s == Playing ==> StateAfter(s, Toggle, t) == StateAfter(s, Pause, t) == Paused
    ensures s == Paused ==> StateAfter(s, Toggle, t) == StateAfter(s, Resume, t) == Playing
    ensures s != Playing && s != Paused ==> StateAfter(s, Toggle, t) == s
  {
  }

  /** Toggling twice from playing or paused comes back to where it started. */
  lemma ToggleTwiceRestores(s: GameState, t: bool)
    requires s == Playing || s == Paused
    ensures StateAfter(StateAfter(s, Toggle, t), Toggle, t) == s
  {
  }

  /**
   * Game over is left only by starting gameplay again (outside a scene
   * transition) or by a completed calibration; pausing and resuming cannot
   * reach or leave it.
   */
  lemma GameOverIsSticky(c: Command, t: bool)
    ensures StateAfter(GameOver, c, t) != GameOver <==> (c == Start && !t) || c == CalibrationDone
    ensures forall s :: s != GameOver && c in {Pause, Resume, Toggle} ==> StateAfter(s, c, t) != GameOver
  {
  }

  class GameManager {
    const calibrationSceneName: string
    const gameplaySceneName: string
    const allowPause: bool
    const autoStartAfterCalibration: bool
    const startDelay: real
    /** The scene references found at start; a missing one is `null` (or, for the player and the UI panels, false). */
    const hasPlayer: bool
    const wallSpawner: WallSpawner?
    const scoreManager: ScoreManager?
    const collisionHandler: CollisionHandler?
    const hasGameplayUI: bool
    const hasGameOverUI: bool
    const hasPauseUI: bool

    var currentState: GameState
    var sessionStartTime: real
    var isTransitioning: bool
    /** `Time.timeScale`. */
    var timeScale: real
    var playerActive: bool
    var gameplayUIActive: bool
    var gameOverUIActive: bool
    var pauseUIActive: bool
    /** The scenes handed to `SceneManager.LoadScene`, in order. */
    var sceneLoads: seq<string>
    /** `StartGameplayDelayed` coroutines waiting out their delay. */
    var pendingStarts: nat

    /** Time is either running or frozen, and it is never frozen without the pause panel showing. */
    predicate Valid()
      reads this
    {
      (timeScale == 0.0 || timeScale == 1.0) && (timeScale == 0.0 && hasPauseUI ==> pauseUIActive)
    }

    constructor (calibrationSceneName: string, gameplaySceneName: string, allowPause: bool,
                 autoStartAfterCalibration: bool, startDelay: real, hasPlayer: bool,
                 wallSpawner: WallSpawner?, scoreManager: ScoreManager?, collisionHandler: CollisionHandler?,
                 hasGameplayUI: bool, hasGameOverUI: bool, hasPauseUI: bool)
      ensures Valid()
      ensures this.calibrationSceneName == calibrationSceneName && this.gameplaySceneName == gameplaySceneName
      ensures this.allowPause == allowPause && this.autoStartAfterCalibration == autoStartAfterCalibration
      ensures this.startDelay == startDelay && this.hasPlayer == hasPlayer
      ensures this.wallSpawner == wallSpawner && this.scoreManager == scoreManager
      ensures this.collisionHandler == collisionHandler
      ensures this.hasGameplayUI == hasGameplayUI && this.hasGameOverUI == hasGameOverUI
      ensures this.hasPauseUI == hasPauseUI
      ensures currentState == Calibration && !isTransitioning && timeScale == 1.0 && sceneLoads == []
      ensures pendingStarts == 0
    {
      this.calibrationSceneName := calibrationSceneName;
      this.gameplaySceneName := gameplaySceneName;
      this.allowPause := allowPause;
      this.autoStartAfterCalibration := autoStartAfterCalibration;
      this.startDelay := startDelay;
      this.hasPlayer := hasPlayer;
      this.wallSpawner := wallSpawner;
      this.scoreManager := scoreManager;
      this.collisionHandler := collisionHandler;
      this.hasGameplayUI := hasGameplayUI;
      this.hasGameOverUI := hasGameOverUI;
      this.hasPauseUI := hasPauseUI;
      currentState := Calibration;
      sessionStartTime := 0.0;
      isTransitioning := false;
      timeScale := 1.0;
      playerActive := false;
      gameplayUIActive := false;
      gameOverUIActive := false;
      pauseUIActive := false;
      sceneLoads := [];
      pendingStarts := 0;
    }

    /** `SetState`: the new state (setting the current one again changes nothing). */
    method SetState(newState: GameState)
      modifies this`currentState
      ensures currentState == newState
    {
      if currentState == newState {
        return;
      }
      currentState := newState;
    }

    /** `GetState`. */
    function GetState(): GameState
      reads this
    {
      currentState
    }

    /** `IsPlaying`. */
    function IsPlaying(): (r: bool)
      reads this
      ensures r <==> currentState == Playing
    {
      currentState == Playing
    }

    /** `GetSessionTime` at time `now`: the time since gameplay started while playing, otherwise zero. */
    function GetSessionTime(now: real): (r: real)
      reads this
      ensures currentState == Playing ==> r == now - sessionStartTime
      ensures currentState != Playing ==> r == 0.0
    {
      if currentState == Playing then now - sessionStartTime else 0.0
    }

    /**
     * `InitializeGame` in the scene named `sceneName`; `calibrated` says that
     * a calibration manager was found and has completed its calibration.
     */
    method InitializeGame(sceneName: string, calibrated: bool)
      requires Valid()
      modifies this`currentState, this`pendingStarts
      ensures Valid()
      ensures sceneName == calibrationSceneName ==> currentState == Calibration && pendingStarts == old(pendingStarts)
      ensures sceneName != calibrationSceneName && sceneName == gameplaySceneName ==>
        currentState == Ready
        && pendingStarts == old(pendingStarts) + (if calibrated && autoStartAfterCalibration then 1 else 0)
      ensures sceneName != calibrationSceneName && sceneName != gameplaySceneName ==>
        currentState == old(currentState) && pendingStarts == old(pendingStarts)
    {
      if sceneName == calibrationSceneName {
        SetState(Calibration);
      } else if sceneName == gameplaySceneName {
        if calibrated {
          if autoStartAfterCalibration {
            StartGameplayDelayed();
          } else {
            SetState(Ready);
          }
        } else {
          SetState(Ready);
        }
      }
    }

    /** The first part of the `StartGameplayDelayed` coroutine: ready, and a start is pending. */
    method StartGameplayDelayed()
      modifies this`currentState, this`pendingStarts
      ensures currentState == Ready && pendingStarts == old(pendingStarts) + 1
    {
      SetState(Ready);
      pendingStarts := pendingStarts + 1;
    }

    /** The rest of a pending `StartGameplayDelayed` coroutine, once its delay has passed at time `now`. */
    method DelayedStartElapsed(now: real)
      requires Valid() && pendingStarts > 0
      modifies this`pendingStarts, this`currentState, this`sessionStartTime, this`playerActive, this`gameplayUIActive,
        scoreManager, collisionHandler
      ensures Valid()
      ensures pendingStarts == old(pendingStarts) - 1
      ensures currentState == StateAfter(old(currentState), Start, isTransitioning)
      ensures isTransitioning ==>
        currentState == old(currentState) && sessionStartTime == old(sessionStartTime)
        && playerActive == old(playerActive) && gameplayUIActive == old(gameplayUIActive)
        && (scoreManager != null ==> unchanged(scoreManager))
        && (collisionHandler != null ==> unchanged(collisionHandler))
      ensures !isTransitioning ==> GameplayStarted(now)
    {
      pendingStarts := pendingStarts - 1;
      StartGameplay(now);
    }

    /**
     * What a `StartGameplay` at time `now` that is not refused leaves:
     * playing, the session clock at `now`, the player and the gameplay panel
     * switched on where present, a new score session announced with the
     * high score kept, and the collision statistics and gap cooldown reset
     * with the record of walls passed kept.
     */
    twostate predicate GameplayStarted(now: real)
      reads this, scoreManager, collisionHandler
    {
      && currentState == Playing && sessionStartTime == now
      && playerActive == (hasPlayer || old(playerActive))
      && gameplayUIActive == (hasGameplayUI || old(gameplayUIActive))
      && (scoreManager != null ==>
            scoreManager.currentScore == 0 && scoreManager.gapsPassedInSession == 0
            && scoreManager.currentCombo == 0 && scoreManager.lastScoreTime == 0.0
            && scoreManager.highScore == old(scoreManager.highScore)
            && scoreManager.events == old(scoreManager.events) + [ScoreChanged(0), ComboChanged(0)])
      && (collisionHandler != null ==>
            collisionHandler.wallsHit == 0 && collisionHandler.gapsPassed == 0
            && collisionHandler.lastGapPassTime == -999.0
            && collisionHandler.passedWalls == old(collisionHandler.passedWalls))
    }

    /**
     * `StartGameplay` at time `now`: refused during a scene transition;
     * otherwise playing, with the session clock started, the player active,
     * the score and the collision statistics reset and the gameplay panel
     * shown.
     */
    method StartGameplay(now: real)
      requires Valid()
      modifies this`currentState, this`sessionStartTime, this`playerActive, this`gameplayUIActive,
        scoreManager, collisionHandler
      ensures Valid()
      ensures currentState == StateAfter(old(currentState), Start, isTransitioning)
      ensures isTransitioning ==>
        unchanged(this) && (scoreManager != null ==> unchanged(scoreManager))
        && (collisionHandler != null ==> unchanged(collisionHandler))
      ensures !isTransitioning ==> GameplayStarted(now)
    {
      if isTransitioning {
        return;
      }
      SetState(Playing);
      sessionStartTime := now;
      if hasPlayer {
        playerActive := true;
      }
      if wallSpawner != null {
        wallSpawner.StartSpawning(0.0);
      }
      if scoreManager != null {
        scoreManager.ResetScore();
      }
      if collisionHandler != null {
        collisionHandler.Reset();
      }
      if hasGameplayUI {
        gameplayUIActive := true;
      }
    }

    /** `PauseGame`: only while playing; time freezes and the pause panel shows. */
    method PauseGame()
      requires Valid()
      modifies this`currentState, this`timeScale, this`pauseUIActive
      ensures Valid()
      ensures currentState == StateAfter(old(currentState), Pause, isTransitioning)
      ensures old(currentState) == Playing ==> timeScale == 0.0 && pauseUIActive == (hasPauseUI || old(pauseUIActive))
      ensures old(currentState) != Playing ==> timeScale == old(timeScale) && pauseUIActive == old(pauseUIActive)
    {
      if currentState != Playing {
        return;
      }
      SetState(Paused);
      timeScale := 0.0;
      if hasPauseUI {
        pauseUIActive := true;
      }
    }

    /** `ResumeGame`: only while paused; time runs again and the pause panel hides. */
    method ResumeGame()
      requires Valid()
      modifies this`currentState, this`timeScale, this`pauseUIActive
      ensures Valid()
      ensures currentState == StateAfter(old(currentState), Resume, isTransitioning)
      ensures old(currentState) == Paused ==> timeScale == 1.0 && pauseUIActive == (!hasPauseUI && old(pauseUIActive))
      ensures old(currentState) != Paused ==> timeScale == old(timeScale) && pauseUIActive == old(pauseUIActive)
    {
      if currentState != Paused {
        return;
      }
      SetState(Playing);
      timeScale := 1.0;
      if hasPauseUI {
        pauseUIActive := false;
      }
    }

    /** `TogglePause`: pauses while playing, resumes while paused. */
    method TogglePause()
      requires Valid()
      modifies this`currentState, this`timeScale, this`pauseUIActive
      ensures Valid()
      ensures currentState == StateAfter(old(currentState), Toggle, isTransitioning)
      ensures old(currentState) == Playing ==> timeScale == 0.0 && pauseUIActive == (hasPauseUI || old(pauseUIActive))
      ensures old(currentState) == Paused ==> timeScale == 1.0 && pauseUIActive == (!hasPauseUI && old(pauseUIActive))
      ensures old(currentState) != Playing && old(currentState) != Paused ==> unchanged(this)
    {
      if currentState == Playing {
        PauseGame();
      } else if currentState == Paused {
        ResumeGame();
      }
    }

    /**
     * `EndGame`: once only; the player is deactivated, spawning stops, and
     * the game-over panel replaces the gameplay panel.
     */
    method EndGame()
      requires Valid()
      modifies this`currentState, this`playerActive, this`gameOverUIActive, this`gameplayUIActive, wallSpawner
      ensures Valid()
      ensures currentState == StateAfter(old(currentState), End, isTransitioning)
      ensures old(currentState) == GameOver ==> unchanged(this) && (wallSpawner != null ==> unchanged(wallSpawner))
      ensures old(currentState) != GameOver ==>
        playerActive == (!hasPlayer && old(playerActive))
        && gameOverUIActive == (hasGameOverUI || old(gameOverUIActive))
        && gameplayUIActive == (!hasGameplayUI && old(gameplayUIActive))
        && (wallSpawner != null ==>
              !wallSpawner.isSpawning && wallSpawner.initialized == old(wallSpawner.initialized)
              && wallSpawner.wallsSpawned == old(wallSpawner.wallsSpawned)
              && wallSpawner.furthestWallX == old(wallSpawner.furthestWallX)
              && wallSpawner.activeWalls == old(wallSpawner.activeWalls)
              && wallSpawner.startTime == old(wallSpawner.startTime))
    {
      if currentState == GameOver {
        return;
      }
      SetState(GameOver);
      if hasPlayer {
        playerActive := false;
      }
      if wallSpawner != null {
        wallSpawner.StopSpawning();
      }
      if hasGameOverUI {
        gameOverUIActive := true;
      }
      if hasGameplayUI {
        gameplayUIActive := false;
      }
    }

    /**
     * `RestartGame` at time `now` in the scene named `activeScene`, with its
     * coroutine run to its end: refused during a scene transition; otherwise
     * time runs, the game-over and pause panels hide and the spawner is
     * reset.  With a player the scene is reloaded and the transition flag is
     * left set; without one the flag is cleared again.  The state itself is
     * not changed.
     */
    method RestartGame(activeScene: string, now: real)
      requires Valid()
      requires wallSpawner != null && wallSpawner.gapGenerator != null ==> wallSpawner.gapGenerator.Valid()
      modifies this`isTransitioning, this`timeScale, this`gameOverUIActive, this`pauseUIActive, this`sceneLoads,
        wallSpawner, if wallSpawner != null then {wallSpawner.gapGenerator} else {}
      ensures Valid()
      ensures currentState == old(currentState)
      ensures old(isTransitioning) ==>
        unchanged(this)
        && (wallSpawner != null ==>
              unchanged(wallSpawner) && (wallSpawner.gapGenerator != null ==> unchanged(wallSpawner.gapGenerator)))
      ensures !old(isTransitioning) ==>
        timeScale == 1.0
        && gameOverUIActive == (!hasGameOverUI && old(gameOverUIActive))
        && pauseUIActive == (!hasPauseUI && old(pauseUIActive))
        && (wallSpawner != null ==> wallSpawner.ResetAt(now))
        && isTransitioning == hasPlayer
        && sceneLoads == old(sceneLoads) + (if hasPlayer then [activeScene] else [])
    {
      if isTransitioning {
        return;
      }
      RestartGameCoroutine(activeScene, now);
    }

    method RestartGameCoroutine(activeScene: string, now: real)
      requires Valid()
      requires wallSpawner != null && wallSpawner.gapGenerator != null ==> wallSpawner.gapGenerator.Valid()
      modifies this`isTransitioning, this`timeScale, this`gameOverUIActive, this`pauseUIActive, this`sceneLoads,
        wallSpawner, if wallSpawner != null then {wallSpawner.gapGenerator} else {}
      ensures Valid()
      ensures timeScale == 1.0
      ensures gameOverUIActive == (!hasGameOverUI && old(gameOverUIActive))
      ensures pauseUIActive == (!hasPauseUI && old(pauseUIActive))
      ensures wallSpawner != null ==> wallSpawner.ResetAt(now)
      ensures isTransitioning == hasPlayer
      ensures sceneLoads == old(sceneLoads) + (if hasPlayer then [activeScene] else [])
    {
      isTransitioning := true;
      timeScale := 1.0;
      if hasGameOverUI {
        gameOverUIActive := false;
      }
      if hasPauseUI {
        pauseUIActive := false;
      }
      if wallSpawner != null {
        wallSpawner.Reset(now);
      }
      if hasPlayer {
        sceneLoads := sceneLoads + [activeScene];
        return;
      }
      isTransitioning := false;
    }

    /** `LoadCalibrationScene`: refused during a scene transition; otherwise time runs and the scene loads. */
    method LoadCalibrationScene()
      requires Valid()
      modifies this`timeScale, this`sceneLoads
      ensures Valid()
      ensures isTransitioning ==> timeScale == old(timeScale) && sceneLoads == old(sceneLoads)
      ensures !isTransitioning ==> timeScale == 1.0 && sceneLoads == old(sceneLoads) + [calibrationSceneName]
    {
      if isTransitioning {
        return;
      }
      timeScale := 1.0;
      sceneLoads := sceneLoads + [calibrationSceneName];
    }

    /** `LoadGameplayScene`: as `LoadCalibrationScene`, for the gameplay scene. */
    method LoadGameplayScene()
      requires Valid()
      modifies this`timeScale, this`sceneLoads
      ensures Valid()
      ensures isTransitioning ==> timeScale == old(timeScale) && sceneLoads == old(sceneLoads)
      ensures !isTransitioning ==> timeScale == 1.0 && sceneLoads == old(sceneLoads) + [gameplaySceneName]
    {
      if isTransitioning {
        return;
      }
      timeScale := 1.0;
      sceneLoads := sceneLoads + [gameplaySceneName];
    }

    /** `OnCalibrationComplete`: ready, with a delayed start pending when gameplay starts by itself. */
    method OnCalibrationComplete()
      modifies this`currentState, this`pendingStarts
      ensures currentState == StateAfter(old(currentState), CalibrationDone, isTransitioning)
      ensures pendingStarts == old(pendingStarts) + (if autoStartAfterCalibration then 1 else 0)
    {
      SetState(Ready);
      if autoStartAfterCalibration {
        StartGameplayDelayed();
      }
    }

    /**
     * `Update` with this frame's key presses (`pausePressed` for Escape or P,
     * `restartPressed` for R or Space): a pause toggle while playing, if
     * pausing is allowed; a restart at game over.
     */
    method Update(pausePressed: bool, restartPressed: bool, activeScene: string, now: real)
      requires Valid()
      requires wallSpawner != null && wallSpawner.gapGenerator != null ==> wallSpawner.gapGenerator.Valid()
      modifies this`currentState, this`timeScale, this`pauseUIActive, this`isTransitioning, this`gameOverUIActive,
        this`sceneLoads, wallSpawner, if wallSpawner != null then {wallSpawner.gapGenerator} else {}
      ensures Valid()
      ensures allowPause && pausePressed && old(currentState) == Playing ==>
        currentState == Paused && timeScale == 0.0 && pauseUIActive == (hasPauseUI || old(pauseUIActive))
        && isTransitioning == old(isTransitioning) && gameOverUIActive == old(gameOverUIActive)
        && sceneLoads == old(sceneLoads)
      ensures old(currentState) == GameOver && restartPressed && !old(isTransitioning) ==>
        currentState == GameOver && timeScale == 1.0
        && gameOverUIActive == (!hasGameOverUI && old(gameOverUIActive))
        && pauseUIActive == (!hasPauseUI && old(pauseUIActive))
        && (wallSpawner != null ==> wallSpawner.ResetAt(now))
        && isTransitioning == hasPlayer
        && sceneLoads == old(sceneLoads) + (if hasPlayer then [activeScene] else [])
      ensures !(old(currentState) == GameOver && restartPressed && !old(isTransitioning)) ==>
        (wallSpawner != null ==>
           unchanged(wallSpawner) && (wallSpawner.gapGenerator != null ==> unchanged(wallSpawner.gapGenerator)))
      ensures !(allowPause && pausePressed && old(currentState) == Playing)
              && !(old(currentState) == GameOver && restartPressed && !old(isTransitioning)) ==>
        unchanged(this)
    {
      if allowPause && currentState == Playing {
        if pausePressed {
          TogglePause();
        }
      }
      if currentState == GameOver {
        if restartPressed {
          RestartGame(activeScene, now);
        }
      }
    }
  }
}
