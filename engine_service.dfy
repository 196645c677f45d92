/**
 * The engine object. Its fields are updated step by step, as the service does;
 * each method is proved to leave the object in the world that the matching
 * step function of Engine computes from the old one, and states what it
 * published to the state cell's observers.
 */
module EngineService {
  import opened GameModel
  import opened Options
  import opened Engine
  import EngineProperties

  /** `n` copies of `s`. */
  function Repeat(s: GameState, n: nat): (r: seq<GameState>)
    ensures |r| == n && forall i :: 0 <= i < n ==> r[i] == s
  {
    if n == 0 then [] else Repeat(s, n - 1) + [s]
  }

  class GameEngineService {
    /** The current value of the state cell. */
    var state: GameState
    /** The current value of the settings cell. */
    var settings: GameSettings
    var balls: seq<Ball>
    /** The paddle's centre; its width and height are the constants of Engine. */
    var playerX: real
    var hasGameStarted: bool
    /** Whether the spawn timer is producing ticks. */
    var spawnArmed: bool
    /** Every value the state cell has held, oldest first. */
    ghost var published: seq<GameState>

    function View(): World
      reads this
    {
      World(state, balls, playerX, hasGameStarted, settings, spawnArmed)
    }

    ghost predicate Valid()
      reads this
    {
      Inv(View()) && |published| > 0 && published[|published| - 1] == state
    }

    constructor ()
      ensures Valid()
      ensures View() == InitialWorld() && published == [InitialState()]
    {
      state := InitialState();
      settings := DefaultSettings;
      balls := [];
      playerX := PlayerStartX;
      hasGameStarted := false;
      spawnArmed := false;
      published := [InitialState()];
    }

    /** Put `s` in the state cell; a state that is not running stops the spawn timer. */
    method Publish(s: GameState)
      modifies this
      ensures View() == Engine.Publish(old(View()), s)
      ensures published == old(published) + [s]
    {
      state := s;
      if !s.running {
        spawnArmed := false;
      }
      published := published + [s];
    }

    method StartGame(s: GameSettings)
      requires Valid()
      modifies this
      ensures Valid()
      ensures View() == StartGameStep(old(View()), s)
      ensures published == old(published) + [RoundStart(s)]
    {
      if !hasGameStarted {
        hasGameStarted := true;
      }
      Publish(GameState(0, s.gameTime, true));
    }

    method UpdateSettings(s: GameSettings)
      requires Valid()
      modifies this
      ensures Valid()
      ensures View() == UpdateSettingsStep(old(View()), s)
      ensures published == old(published)
    {
      settings := s;
      spawnArmed := state.running;
    }

    method RestartGameWithSettings(s: GameSettings)
      requires Valid()
      modifies this
      ensures Valid()
      ensures View() == RestartStep(old(View()), s)
      ensures published == old(published) + [RoundStart(s)]
    {
      balls := [];
      playerX := CanvasWidth / 2.0;
      StartGame(s);
      UpdateSettings(s);
    }

    /** Issue one command of the engine's command surface. */
    method Execute(c: Command)
      requires Valid()
      modifies this
      ensures Valid()
      ensures View() == Engine.Execute(old(View()), c)
      ensures published == old(published) + (if c.UpdateSettings? then [] else [RoundStart(c.settings)])
    {
      match c
      case StartGame(s) => StartGame(s);
      case UpdateSettings(s) => UpdateSettings(s);
      case RestartGameWithSettings(s) => RestartGameWithSettings(s);
    }

    /** The handler of the one-second countdown timer. */
    method CountdownTick()
      requires Valid()
      modifies this
      ensures Valid()
      ensures View() == CountdownStep(old(View()))
      ensures published == old(published) + (match Countdown(old(state)) case None => [] case Some(s) => [s])
    {
      if !state.running {
        return;
      }
      var timeRemaining := state.timeRemaining - 1;
      var current := state;
      if timeRemaining <= 0 {
        Publish(current.(timeRemaining := 0, running := false));
      } else {
        Publish(current.(timeRemaining := timeRemaining));
      }
    }

    method OnPlayerMove(d: Direction)
      requires Valid()
      modifies this
      ensures Valid()
      ensures View() == PlayerMoveStep(old(View()), d)
      ensures published == old(published)
    {
      if !state.running {
        return;
      }
      var moveAmount := if d == Left then -settings.playerSpeed else settings.playerSpeed;
      var newX := playerX + moveAmount as real;
      if newX >= PlayerWidth / 2.0 && newX <= CanvasWidth - PlayerWidth / 2.0 {
        playerX := newX;
      }
    }

    /**
     * Append a ball at the x that the random draw `rand` in [0, 1) selects.
     * Only the spawn timer calls it, and only while that timer is armed.
     */
    method SpawnBall(rand: real)
      requires Valid() && spawnArmed && 0.0 <= rand < 1.0
      modifies this
      ensures Valid()
      ensures View() == SpawnBallStep(old(View()), rand)
      ensures published == old(published)
    {
      var ball := Ball(rand * (CanvasWidth - 20.0) + 10.0, 0.0, 10.0);
      ghost var before := balls;
      balls := balls + [ball];
      assert forall i :: 0 <= i < |before| ==> balls[i] == before[i];
    }

    /** A tick of the spawn timer, which only ticks while armed. */
    method SpawnTick(rand: real)
      requires Valid() && 0.0 <= rand < 1.0
      modifies this
      ensures Valid()
      ensures View() == SpawnTickStep(old(View()), rand)
      ensures published == old(published)
    {
      if spawnArmed {
        SpawnBall(rand);
      }
    }

    /**
     * Move every ball down, drop the caught ones and those below the canvas.
     * Each catch publishes the snapshot read before the pass with one more
     * caught object.
     */
    method CheckCollisions()
      requires Valid() && state.running
      modifies this
      ensures Valid()
      ensures View() == CollisionStep(old(View()))
      ensures published == old(published)
               + Repeat(Scored(old(state)), Catches(old(balls), old(settings).fallingSpeed, old(playerX)))
    {
      var speed := settings.fallingSpeed;
      var currentState := state;
      var kept: seq<Ball> := [];
      var i := 0;
      while i < |balls|
        invariant 0 <= i <= |balls|
        invariant balls == old(balls) && playerX == old(playerX) && settings == old(settings)
        invariant hasGameStarted == old(hasGameStarted) && spawnArmed == old(spawnArmed)
        invariant kept == Survivors(balls[..i], speed, playerX)
        invariant Catches(balls[..i], speed, playerX) == 0 ==> state == currentState
        invariant Catches(balls[..i], speed, playerX) > 0 ==> state == Scored(currentState)
        invariant published == old(published) + Repeat(Scored(currentState), Catches(balls[..i], speed, playerX))
      {
        assert balls[..i + 1][..i] == balls[..i];
        var ball := balls[i];
        ball := ball.(y := ball.y + speed as real);
        if ball.y + ball.radius >= CanvasHeight - PlayerHeight
           && ball.x >= playerX - PlayerWidth / 2.0
           && ball.x <= playerX + PlayerWidth / 2.0
        {
          Publish(currentState.(caughtObjects := currentState.caughtObjects + 1));
        } else if ball.y - ball.radius <= CanvasHeight {
          kept := kept + [ball];
        }
        i := i + 1;
      }
      assert balls[..i] == balls;
      EngineProperties.SurvivorsOk(balls, speed, playerX);
      balls := kept;
    }

    /**
     * One animation frame: collisions first while running, then the game
     * board's paddle moves for the held keys, left before right.
     */
    method AnimationFrame(leftPressed: bool, rightPressed: bool)
      requires Valid()
      modifies this
      ensures Valid()
      ensures View() == FrameStep(old(View()), leftPressed, rightPressed)
      ensures published == old(published)
               + (if old(state).running
                  then Repeat(Scored(old(state)), Catches(old(balls), old(settings).fallingSpeed, old(playerX)))
                  else [])
    {
      if state.running {
        CheckCollisions();
      }
      if !state.running {
        return;
      }
      if leftPressed {
        OnPlayerMove(Left);
      }
      if rightPressed {
        OnPlayerMove(Right);
      }
    }
  }
}
