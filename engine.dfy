/**
 * The game engine as a state machine over values. `World` is everything the
 * engine owns; each command, timer tick and animation frame is a function from
 * one world to the next. The class in EngineService performs the same steps in
 * place and is proved to agree with these functions.
 */
module Engine {
  import opened Options
  import opened GameModel

  const CanvasWidth: real := 800.0
  const CanvasHeight: real := 600.0
  const PlayerWidth: real := 50.0
  const PlayerHeight: real := 20.0
  const BallRadius: real := 10.0
  /** Where the paddle's centre starts. */
  const PlayerStartX: real := 400.0

  /** Leftmost and rightmost paddle centres a move may reach. */
  const MinPlayerX: real := PlayerWidth / 2.0
  const MaxPlayerX: real := CanvasWidth - PlayerWidth / 2.0

  /** The engine's command surface, as the settings form invokes it. */
  datatype Command =
    | StartGame(settings: GameSettings)
    | UpdateSettings(settings: GameSettings)
    | RestartGameWithSettings(settings: GameSettings)

  /**
   * Everything the engine owns. `spawnArmed` says whether the spawn timer is
   * currently producing ticks.
   */
  datatype World = World(
    state: GameState,
    balls: seq<Ball>,
    playerX: real,
    hasGameStarted: bool,
    settings: GameSettings,
    spawnArmed: bool)

  /**
   * The engine right after construction: the initial state, no balls, the
   * paddle in the middle, default settings, and a spawn timer that stopped at
   * once because the current state is not running.
   */
  function InitialWorld(): World {
    World(InitialState(), [], PlayerStartX, false, DefaultSettings, false)
  }

  // ---------------------------------------------------------------------------
  // The state cell and the spawn timer

  /**
   * Put `s` in the state cell. A published state that is not running stops the
   * spawn timer; a running one leaves the timer as it is.
   */
  function Publish(w: World, s: GameState): World {
    w.(state := s, spawnArmed := w.spawnArmed && s.running)
  }

  /** The state a round starts with. */
  function RoundStart(s: GameSettings): GameState {
    GameState(0, s.gameTime, true)
  }

  function StartGameStep(w: World, s: GameSettings): World {
    Publish(w.(hasGameStarted := true), RoundStart(s))
  }

  /**
   * A settings emission replaces the settings and restarts the spawn timer,
   * which keeps running only if the current state is running.
   */
  function UpdateSettingsStep(w: World, s: GameSettings): World {
    w.(settings := s, spawnArmed := w.state.running)
  }

  /** Clear the balls, recentre the paddle, start the round, then emit the settings. */
  function RestartStep(w: World, s: GameSettings): World {
    UpdateSettingsStep(StartGameStep(w.(balls := [], playerX := CanvasWidth / 2.0), s), s)
  }

  function Execute(w: World, c: Command): World {
    match c
    case StartGame(s) => StartGameStep(w, s)
    case UpdateSettings(s) => UpdateSettingsStep(w, s)
    case RestartGameWithSettings(s) => RestartStep(w, s)
  }

  /** The commands, in order. */
  function ExecuteAll(w: World, cs: seq<Command>): World
    decreases |cs|
  {
    if cs == [] then w else ExecuteAll(Execute(w, cs[0]), cs[1..])
  }

  // ---------------------------------------------------------------------------
  // The countdown timer

  /** What one countdown tick publishes, or None when it publishes nothing. */
  function Countdown(st: GameState): Option<GameState> {
    if !st.running then None
    else
      var t := st.timeRemaining - 1;
      if t <= 0 then Some(st.(timeRemaining := 0, running := false))
      else Some(st.(timeRemaining := t))
  }

  function CountdownStep(w: World): World {
    match Countdown(w.state)
    case None => w
    case Some(s) => Publish(w, s)
  }

  // ---------------------------------------------------------------------------
  // The paddle

  function MoveAmount(speed: int, d: Direction): int {
    if d == Left then -speed else speed
  }

  /** A move whose target leaves [MinPlayerX, MaxPlayerX] is rejected, not clamped. */
  function MovedX(x: real, speed: int, d: Direction): real {
    var target := x + MoveAmount(speed, d) as real;
    if MinPlayerX <= target <= MaxPlayerX then target else x
  }

  function PlayerMoveStep(w: World, d: Direction): World {
    if !w.state.running then w
    else w.(playerX := MovedX(w.playerX, w.settings.playerSpeed, d))
  }

  // ---------------------------------------------------------------------------
  // Spawning

  /** The x of a new ball for a random draw `rand` in [0, 1). */
  function SpawnX(rand: real): (x: real)
    requires 0.0 <= rand < 1.0
    ensures BallRadius <= x < CanvasWidth - BallRadius
  {
    rand * (CanvasWidth - 20.0) + 10.0
  }

  function NewBall(rand: real): Ball
    requires 0.0 <= rand < 1.0
  {
    Ball(SpawnX(rand), 0.0, BallRadius)
  }

  function SpawnBallStep(w: World, rand: real): World
    requires 0.0 <= rand < 1.0
  {
    w.(balls := w.balls + [NewBall(rand)])
  }

  /** A spawn-timer tick; the timer only ticks while it is armed. */
  function SpawnTickStep(w: World, rand: real): World
    requires 0.0 <= rand < 1.0
  {
    if w.spawnArmed then SpawnBallStep(w, rand) else w
  }

  // ---------------------------------------------------------------------------
  // Collisions

  function Fall(b: Ball, speed: int): Ball {
    b.(y := b.y + speed as real)
  }

  /** The ball's bottom reaches the paddle's top and its centre is over the paddle. */
  predicate Caught(b: Ball, playerX: real) {
    && b.y + b.radius >= CanvasHeight - PlayerHeight
    && b.x >= playerX - PlayerWidth / 2.0
    && b.x <= playerX + PlayerWidth / 2.0
  }

  /** The ball's top has not passed the bottom of the canvas. */
  predicate OnBoard(b: Ball) {
    b.y - b.radius <= CanvasHeight
  }

  predicate Kept(b: Ball, playerX: real) {
    !Caught(b, playerX) && OnBoard(b)
  }

  /** The balls left after one collision pass, each moved down by `speed`, in order. */
  function Survivors(bs: seq<Ball>, speed: int, playerX: real): (r: seq<Ball>)
    ensures |r| <= |bs|
    decreases |bs|
  {
    if bs == [] then []
    else
      var f := Fall(bs[|bs| - 1], speed);
      Survivors(bs[..|bs| - 1], speed, playerX) + (if Kept(f, playerX) then [f] else [])
  }

  /** How many balls one collision pass catches. */
  function Catches(bs: seq<Ball>, speed: int, playerX: real): (n: nat)
    ensures n <= |bs|
    decreases |bs|
  {
    if bs == [] then 0
    else
      Catches(bs[..|bs| - 1], speed, playerX)
      + (if Caught(Fall(bs[|bs| - 1], speed), playerX) then 1 else 0)
  }

  /** The state every catch of a pass publishes: the pass's snapshot plus one. */
  function Scored(st: GameState): GameState {
    st.(caughtObjects := st.caughtObjects + 1)
  }

  /**
   * One collision pass. Every catch republishes the snapshot taken before the
   * pass with one more caught object, so however many balls are caught the
   * state ends one above the snapshot.
   */
  function CollisionStep(w: World): World {
    var speed := w.settings.fallingSpeed;
    var next := w.(balls := Survivors(w.balls, speed, w.playerX));
    if Catches(w.balls, speed, w.playerX) == 0 then next else Publish(next, Scored(w.state))
  }

  /**
   * One animation frame: collisions first (only while running), then the game
   * board moves the paddle for each held key, left before right.
   */
  function FrameStep(w: World, left: bool, right: bool): World {
    var w1 := if w.state.running then CollisionStep(w) else w;
    if !w1.state.running then w1
    else
      var w2 := if left then PlayerMoveStep(w1, Left) else w1;
      if right then PlayerMoveStep(w2, Right) else w2
  }

  // ---------------------------------------------------------------------------
  // Any interleaving of the engine's inputs

  datatype Event =
    | CountdownTick
    | AnimationFrame(left: bool, right: bool)
    | SpawnTick(rand: real)
    | PlayerMove(dir: Direction)
    | Issue(cmd: Command)

  predicate WellFormed(e: Event) {
    e.SpawnTick? ==> 0.0 <= e.rand < 1.0
  }

  function Step(w: World, e: Event): World
    requires WellFormed(e)
  {
    match e
    case CountdownTick => CountdownStep(w)
    case AnimationFrame(l, r) => FrameStep(w, l, r)
    case SpawnTick(rand) => SpawnTickStep(w, rand)
    case PlayerMove(d) => PlayerMoveStep(w, d)
    case Issue(c) => Execute(w, c)
  }

  function Run(w: World, es: seq<Event>): World
    requires forall i :: 0 <= i < |es| ==> WellFormed(es[i])
    decreases |es|
  {
    if es == [] then w else Run(Step(w, es[0]), es[1..])
  }

  // ---------------------------------------------------------------------------
  // The engine's invariant

  predicate BallOk(b: Ball) {
    b.radius == BallRadius && BallRadius <= b.x < CanvasWidth - BallRadius
  }

  predicate AllBallsOk(bs: seq<Ball>) {
    forall i :: 0 <= i < |bs| ==> BallOk(bs[i])
  }

  /**
   * What holds of every world the engine can reach: the paddle lies within the
   * canvas, every ball has radius 10 and an x where it can be drawn whole, the
   * score is non-negative, the spawn timer runs only while the round runs, a
   * round runs only once the game has started, a stopped state shows no time
   * left, and before the first start nothing has happened at all.
   */
  ghost predicate Inv(w: World) {
    && MinPlayerX <= w.playerX <= MaxPlayerX
    && AllBallsOk(w.balls)
    && w.state.caughtObjects >= 0
    && (w.spawnArmed ==> w.state.running)
    && (w.state.running ==> w.hasGameStarted)
    && (!w.state.running ==> w.state.timeRemaining == 0)
    && (!w.hasGameStarted ==> w.state == InitialState() && w.balls == [] && w.playerX == PlayerStartX)
  }
}
