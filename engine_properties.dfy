/**
 * Properties of the engine's step functions: what each command does to the
 * world, the countdown, the paddle bounds, the collision pass, the spawn timer,
 * and the invariant kept by every interleaving of inputs.
 */
module EngineProperties {
  import opened Options
  import opened GameModel
  import opened Engine

  // ---------------------------------------------------------------------------
  // Round lifecycle

  /**
   * Starting a round publishes exactly (0, gameTime, running) and latches the
   * start flag; balls, paddle, settings and spawn timer are left as they were.
   */
  lemma StartGameEffect(w: World, s: GameSettings)
    ensures var r := StartGameStep(w, s);
      && r.state == GameState(0, s.gameTime, true)
      && r.hasGameStarted
      && r.balls == w.balls && r.playerX == w.playerX
      && r.settings == w.settings && r.spawnArmed == w.spawnArmed
  {
  }

  /**
   * Restarting clears every ball and recentres the paddle whatever was in
   * flight, starts the round, takes the new settings and leaves spawning on.
   */
  lemma RestartEffect(w: World, s: GameSettings)
    ensures var r := RestartStep(w, s);
      && r == World(GameState(0, s.gameTime, true), [], PlayerStartX, true, s, true)
  {
  }

  /** A second restart with the same settings changes nothing. */
  lemma RestartIdempotent(w: World, s: GameSettings)
    ensures RestartStep(RestartStep(w, s), s) == RestartStep(w, s)
  {
    RestartEffect(w, s);
    RestartEffect(RestartStep(w, s), s);
  }

  /** A settings emission changes only the settings and re-arms spawning iff running. */
  lemma UpdateSettingsEffect(w: World, s: GameSettings)
    ensures var r := UpdateSettingsStep(w, s);
      && r.settings == s
      && (r.spawnArmed <==> w.state.running)
      && r.(settings := w.settings, spawnArmed := w.spawnArmed) == w
  {
  }

  // ---------------------------------------------------------------------------
  // Countdown

  /**
   * The three cases of the countdown handler. Nothing but the state changes,
   * and the state changes in one of three ways.
   */
  lemma CountdownCases(w: World)
    ensures var r := CountdownStep(w);
      && r.(state := w.state, spawnArmed := w.spawnArmed) == w
      && (!w.state.running ==> r == w)
      && (w.state.running && w.state.timeRemaining - 1 > 0 ==>
            r.state == GameState(w.state.caughtObjects, w.state.timeRemaining - 1, true)
            && r.spawnArmed == w.spawnArmed)
      && (w.state.running && w.state.timeRemaining - 1 <= 0 ==>
            r.state == GameState(w.state.caughtObjects, 0, false) && !r.spawnArmed)
  {
  }

  /** `n` countdown ticks in a row. */
  function Ticks(w: World, n: nat): World {
    if n == 0 then w else CountdownStep(Ticks(w, n - 1))
  }

  /** While time is left, each tick takes exactly one second off and nothing else. */
  lemma {:induction false} CountdownCountsDown(w: World, n: nat)
    requires w.state.running && n < w.state.timeRemaining
    ensures Ticks(w, n) == w.(state := w.state.(timeRemaining := w.state.timeRemaining - n))
  {
    if n > 0 {
      CountdownCountsDown(w, n - 1);
    }
  }

  /**
   * After as many ticks as there are seconds left the round has ended, with the
   * score kept, no time left and the spawn timer stopped, and further ticks
   * change nothing.
   */
  lemma {:induction false} CountdownExpires(w: World, k: nat)
    requires w.state.running && w.state.timeRemaining >= 1
    ensures var t := w.state.timeRemaining;
      && Ticks(w, t) == w.(state := GameState(w.state.caughtObjects, 0, false), spawnArmed := false)
      && Ticks(w, t + k) == Ticks(w, t)
  {
    var t := w.state.timeRemaining;
    CountdownCountsDown(w, t - 1);
    if k > 0 {
      CountdownExpires(w, k - 1);
    }
  }

  /**
   * With fallingSpeed 5, fallingFrequency 1000, playerSpeed 10 and gameTime
   * 10, ten ticks after the start the state is (0, 0, stopped).
   */
  lemma TenSecondRound(w: World)
    ensures Ticks(StartGameStep(w, GameSettings(5, 1000, 10, 10)), 10).state
            == GameState(0, 0, false)
  {
    CountdownExpires(StartGameStep(w, GameSettings(5, 1000, 10, 10)), 0);
  }

  // ---------------------------------------------------------------------------
  // Paddle

  /** A move is applied iff its target lies in the allowed band; a crossing move is rejected. */
  lemma MoveRejectsCrossing(x: real, speed: int, d: Direction)
    ensures var target := x + (if d == Left then -speed else speed) as real;
      && (MinPlayerX <= target <= MaxPlayerX ==> MovedX(x, speed, d) == target)
      && (!(MinPlayerX <= target <= MaxPlayerX) ==> MovedX(x, speed, d) == x)
  {
  }

  /** A paddle in the band stays in the band, whatever the speed. */
  lemma MoveStaysInBand(x: real, speed: int, d: Direction)
    requires MinPlayerX <= x <= MaxPlayerX
    ensures MinPlayerX <= MovedX(x, speed, d) <= MaxPlayerX
  {
  }

  /** `n` left moves in a row. */
  function LeftMoves(x: real, speed: int, n: nat): real {
    if n == 0 then x else MovedX(LeftMoves(x, speed, n - 1), speed, Left)
  }

  /**
   * Repeated left moves either have all been applied, or have reached a
   * position from which the next move would cross the left bound.
   */
  lemma {:induction false} LeftMovesProgress(x: real, speed: int, n: nat)
    requires MinPlayerX <= x <= MaxPlayerX && speed >= 1
    ensures var p := LeftMoves(x, speed, n);
      && MinPlayerX <= p <= x
      && (p == x - (n * speed) as real || MovedX(p, speed, Left) == p)
  {
    if n > 0 {
      LeftMovesProgress(x, speed, n - 1);
      var q := LeftMoves(x, speed, n - 1);
      if q == x - ((n - 1) * speed) as real {
        assert (n * speed) as real == ((n - 1) * speed) as real + speed as real;
      }
    }
  }

  /** From anywhere in the band, 751 left moves always end at a position that no longer changes. */
  lemma LeftMovesStop(x: real, speed: int, n: nat)
    requires MinPlayerX <= x <= MaxPlayerX && speed >= 1 && n >= 751
    ensures var p := LeftMoves(x, speed, n); MovedX(p, speed, Left) == p
  {
    LeftMovesProgress(x, speed, n);
    assert n * speed >= n * 1;
  }

  /**
   * Held left and right keys are applied one after the other within a frame,
   * each checked on its own: at the left edge the left move is rejected and
   * the right move still goes through.
   */
  lemma BothKeysAtLeftEdge(w: World)
    requires w.state.running && w.playerX == MinPlayerX
    requires 1 <= w.settings.playerSpeed <= 750
    ensures FrameStep(w, true, true).playerX == MinPlayerX + w.settings.playerSpeed as real
  {
    CollisionScore(w);
  }

  // ---------------------------------------------------------------------------
  // Collision pass

  /** A pass treats balls independently: it distributes over concatenation, so order is kept. */
  lemma {:induction false} SurvivorsAppend(a: seq<Ball>, b: seq<Ball>, speed: int, px: real)
    ensures Survivors(a + b, speed, px) == Survivors(a, speed, px) + Survivors(b, speed, px)
    decreases |b|
  {
    if b == [] {
      assert a + b == a;
    } else {
      var ab, init := a + b, b[..|b| - 1];
      assert ab[..|ab| - 1] == a + init;
      var f := Fall(b[|b| - 1], speed);
      var k := if Kept(f, px) then [f] else [];
      assert Survivors(ab, speed, px) == Survivors(a + init, speed, px) + k;
      assert Survivors(b, speed, px) == Survivors(init, speed, px) + k;
      SurvivorsAppend(a, init, speed, px);
    }
  }

  /** The same for the number of catches. */
  lemma {:induction false} CatchesAppend(a: seq<Ball>, b: seq<Ball>, speed: int, px: real)
    ensures Catches(a + b, speed, px) == Catches(a, speed, px) + Catches(b, speed, px)
    decreases |b|
  {
    if b == [] {
      assert a + b == a;
    } else {
      var ab, init := a + b, b[..|b| - 1];
      assert ab[..|ab| - 1] == a + init;
      var k := if Caught(Fall(b[|b| - 1], speed), px) then 1 else 0;
      assert Catches(ab, speed, px) == Catches(a + init, speed, px) + k;
      CatchesAppend(a, init, speed, px);
    }
  }

  /** A ball survives iff it is some ball moved down, neither caught nor below the canvas. */
  lemma {:induction false} SurvivorsMembers(bs: seq<Ball>, speed: int, px: real, b: Ball)
    ensures b in Survivors(bs, speed, px) <==>
            exists i :: 0 <= i < |bs| && b == Fall(bs[i], speed) && Kept(b, px)
    decreases |bs|
  {
    if bs != [] {
      var init := bs[..|bs| - 1];
      SurvivorsMembers(init, speed, px, b);
      if exists i :: 0 <= i < |bs| && b == Fall(bs[i], speed) && Kept(b, px) {
        var i :| 0 <= i < |bs| && b == Fall(bs[i], speed) && Kept(b, px);
        if i < |bs| - 1 {
          assert init[i] == bs[i];
        }
      }
      if exists i :: 0 <= i < |init| && b == Fall(init[i], speed) && Kept(b, px) {
        var i :| 0 <= i < |init| && b == Fall(init[i], speed) && Kept(b, px);
        assert bs[i] == init[i];
      }
    }
  }

  /** A pass catches nothing iff no moved ball is caught. */
  lemma {:induction false} NoCatchIff(bs: seq<Ball>, speed: int, px: real)
    ensures Catches(bs, speed, px) == 0 <==>
            forall i :: 0 <= i < |bs| ==> !Caught(Fall(bs[i], speed), px)
    decreases |bs|
  {
    if bs != [] {
      var init := bs[..|bs| - 1];
      NoCatchIff(init, speed, px);
      assert forall i :: 0 <= i < |init| ==> init[i] == bs[i];
    }
  }

  /** Every ball is either caught, kept, or dropped below the canvas: catches and survivors never exceed the balls. */
  lemma {:induction false} CatchesPlusSurvivors(bs: seq<Ball>, speed: int, px: real)
    ensures Catches(bs, speed, px) + |Survivors(bs, speed, px)| <= |bs|
    decreases |bs|
  {
    if bs != [] {
      CatchesPlusSurvivors(bs[..|bs| - 1], speed, px);
    }
  }

  /** Surviving balls keep the radius and x they were spawned with. */
  lemma {:induction false} SurvivorsOk(bs: seq<Ball>, speed: int, px: real)
    requires AllBallsOk(bs)
    ensures AllBallsOk(Survivors(bs, speed, px))
    decreases |bs|
  {
    if bs != [] {
      var init := bs[..|bs| - 1];
      assert forall i :: 0 <= i < |init| ==> init[i] == bs[i];
      SurvivorsOk(init, speed, px);
      var f := Fall(bs[|bs| - 1], speed);
      assert BallOk(f);
      var r0 := Survivors(init, speed, px);
      assert forall i :: 0 <= i < |r0| ==> BallOk(r0[i]);
      var r := Survivors(bs, speed, px);
      assert r == r0 + (if Kept(f, px) then [f] else []);
      forall i | 0 <= i < |r|
        ensures BallOk(r[i])
      {
        if i < |r0| {
          assert r[i] == r0[i];
        } else {
          assert r[i] == f;
        }
      }
    }
  }

  /**
   * One collision pass raises the score by one if at least one ball is caught
   * and by nothing otherwise, and leaves the time, the running flag, the
   * paddle, the settings and the spawn timer alone.
   */
  lemma CollisionScore(w: World)
    requires w.state.running
    ensures var r := CollisionStep(w);
      && r.state.caughtObjects == w.state.caughtObjects +
           (if exists i :: 0 <= i < |w.balls| && Caught(Fall(w.balls[i], w.settings.fallingSpeed), w.playerX)
            then 1 else 0)
      && r.state.timeRemaining == w.state.timeRemaining
      && r.state.running
      && r.balls == Survivors(w.balls, w.settings.fallingSpeed, w.playerX)
      && r.(state := w.state, balls := w.balls) == w
  {
    NoCatchIff(w.balls, w.settings.fallingSpeed, w.playerX);
  }

  /**
   * A whole frame raises the score by one exactly when the round is running
   * and some ball is caught, and by nothing otherwise; it never changes the
   * time remaining or whether the round runs.
   */
  lemma FrameScore(w: World, left: bool, right: bool)
    ensures var r := FrameStep(w, left, right);
      && (r.state.caughtObjects == w.state.caughtObjects
          || r.state.caughtObjects == w.state.caughtObjects + 1)
      && (r.state.caughtObjects == w.state.caughtObjects + 1 <==>
            w.state.running && Catches(w.balls, w.settings.fallingSpeed, w.playerX) > 0)
      && r.state.timeRemaining == w.state.timeRemaining
      && r.state.running == w.state.running
  {
    if w.state.running {
      CollisionScore(w);
      NoCatchIff(w.balls, w.settings.fallingSpeed, w.playerX);
    }
  }

  /** Two balls caught in the same frame raise the score by one, not two. */
  lemma TwoCatchesOnePoint()
    ensures var w := World(GameState(3, 30, true), [Ball(390.0, 570.0, 10.0), Ball(410.0, 575.0, 10.0)],
                           400.0, true, GameSettings(5, 100, 10, 30), true);
      && Catches(w.balls, 5, 400.0) == 2
      && FrameStep(w, false, false).state == GameState(4, 30, true)
      && FrameStep(w, false, false).balls == []
  {
    var w := World(GameState(3, 30, true), [Ball(390.0, 570.0, 10.0), Ball(410.0, 575.0, 10.0)],
                   400.0, true, GameSettings(5, 100, 10, 30), true);
    assert w.balls[..1] == [Ball(390.0, 570.0, 10.0)];
  }

  /**
   * A ball spawned above the paddle is caught once: the frame that catches it
   * removes it, so later frames do not count it again.
   */
  lemma CaughtOnce()
    ensures var w := World(GameState(0, 10, true), [Ball(400.0, 555.0, 10.0)],
                           400.0, true, GameSettings(20, 1000, 10, 10), true);
      && FrameStep(w, false, false).state.caughtObjects == 1
      && FrameStep(w, false, false).balls == []
      && FrameStep(FrameStep(w, false, false), false, false).state.caughtObjects == 1
  {
  }

  /**
   * Collisions are checked against the paddle before it moves: a ball that the
   * moved paddle would have caught falls past it.
   */
  lemma CollisionsBeforeMove()
    ensures var w := World(GameState(0, 10, true), [Ball(430.0, 565.0, 10.0)],
                           400.0, true, GameSettings(10, 1000, 10, 10), true);
      && var r := FrameStep(w, false, true);
      && r.playerX == 410.0
      && r.state.caughtObjects == 0
      && r.balls == [Ball(430.0, 575.0, 10.0)]
      && Caught(r.balls[0], r.playerX)
  {
  }

  /** A frame while the round is stopped changes nothing. */
  lemma StoppedFrameIsIdle(w: World, left: bool, right: bool)
    requires !w.state.running
    ensures FrameStep(w, left, right) == w
  {
  }

  // ---------------------------------------------------------------------------
  // Spawning

  /**
   * Publishing a stopped state cuts the spawn timer off, so the next spawn
   * tick adds no ball; publishing a running state leaves an armed timer
   * armed, so the next tick adds one.
   */
  lemma PublishGatesSpawning(w: World, s: GameState, rand: real)
    requires 0.0 <= rand < 1.0
    ensures !s.running ==> SpawnTickStep(Publish(w, s), rand) == Publish(w, s)
    ensures s.running && w.spawnArmed ==>
              SpawnTickStep(Publish(w, s), rand).balls == w.balls + [NewBall(rand)]
    ensures Publish(w, s).state == s
  {
  }

  /**
   * An armed spawn tick appends exactly one ball at the end, at the top of the
   * canvas with radius 10 and x in [10, 790); an unarmed tick does nothing.
   */
  lemma SpawnAppends(w: World, rand: real)
    requires 0.0 <= rand < 1.0
    ensures var r := SpawnTickStep(w, rand);
      && r.(balls := w.balls) == w
      && (!w.spawnArmed ==> r.balls == w.balls)
      && (w.spawnArmed ==>
            && |r.balls| == |w.balls| + 1
            && r.balls[..|w.balls|] == w.balls
            && var b := r.balls[|w.balls|];
               b.y == 0.0 && b.radius == 10.0 && 10.0 <= b.x < 790.0)
  {
  }

  /** Only a settings emission made while the round runs arms the spawn timer. */
  lemma OnlySettingsEmissionArms(w: World, e: Event)
    requires WellFormed(e) && !w.spawnArmed
    ensures Step(w, e).spawnArmed ==>
            e.Issue? && !e.cmd.StartGame? && Execute(w, e.cmd).state.running
  {
  }

  /** Starting a round from a stopped timer does not arm it; a restart does. */
  lemma StartDoesNotArmRestartDoes(w: World, s: GameSettings)
    ensures !w.spawnArmed ==> !StartGameStep(w, s).spawnArmed
    ensures RestartStep(w, s).spawnArmed
  {
  }

  // ---------------------------------------------------------------------------
  // The invariant over every interleaving

  lemma InitialInv()
    ensures Inv(InitialWorld())
  {
  }

  lemma {:induction false} StepInv(w: World, e: Event)
    requires Inv(w) && WellFormed(e)
    ensures Inv(Step(w, e))
  {
    match e
    case AnimationFrame(l, r) =>
      if w.state.running {
        SurvivorsOk(w.balls, w.settings.fallingSpeed, w.playerX);
        var c := CollisionStep(w);
        assert c.balls == Survivors(w.balls, w.settings.fallingSpeed, w.playerX);
        assert Inv(c);
      }
    case SpawnTick(rand) =>
      var r := SpawnTickStep(w, rand);
      if w.spawnArmed {
        assert forall i :: 0 <= i < |w.balls| ==> r.balls[i] == w.balls[i];
      }
    case _ =>
  }

  /** Every world reached from a world satisfying the invariant satisfies it. */
  lemma {:induction false} RunInv(w: World, es: seq<Event>)
    requires Inv(w) && forall i :: 0 <= i < |es| ==> WellFormed(es[i])
    ensures Inv(Run(w, es))
    decreases |es|
  {
    if es != [] {
      StepInv(w, es[0]);
      RunInv(Step(w, es[0]), es[1..]);
    }
  }

  /**
   * Along any run from the engine's creation the paddle stays within the
   * canvas and spawning happens only while a round runs.
   */
  lemma ReachableBounds(es: seq<Event>)
    requires forall i :: 0 <= i < |es| ==> WellFormed(es[i])
    ensures var w := Run(InitialWorld(), es);
      && 0.0 <= w.playerX - PlayerWidth / 2.0 && w.playerX + PlayerWidth / 2.0 <= CanvasWidth
      && (w.spawnArmed ==> w.state.running)
  {
    RunInv(InitialWorld(), es);
  }

  /** Once the game has started, it stays started: the latch is never reset. */
  lemma {:induction false} LatchNeverResets(w: World, es: seq<Event>)
    requires w.hasGameStarted && forall i :: 0 <= i < |es| ==> WellFormed(es[i])
    ensures Run(w, es).hasGameStarted
    decreases |es|
  {
    if es != [] {
      LatchNeverResets(Step(w, es[0]), es[1..]);
    }
  }

  /** Within a round the score never decreases and the time never increases. */
  lemma WithinRoundMonotone(w: World, e: Event)
    requires WellFormed(e)
    requires !e.Issue? || e.cmd.UpdateSettings?
    requires w.state.timeRemaining >= 0
    ensures Step(w, e).state.caughtObjects >= w.state.caughtObjects
    ensures w.state.running ==> Step(w, e).state.timeRemaining <= w.state.timeRemaining
  {
  }
}
