/*
 * The simulation core of a single-screen arcade avoidance game: a player
 * square steered by four keys evades a roster of enemy squares that chase it
 * with one of four motion rules. The roster doubles every fifteen seconds of
 * play, the first touch ends the session, and the restart key begins a new one.
 *
 * Rendering, audio, event polling and frame pacing are left to the caller:
 * one call of GameState.Tick is one pass of the frame loop, with the keys
 * held during that frame, the millisecond clock and the floating-point
 * primitives passed in as parameters.
 */
module Game {

  // ---------------------------------------------------------------------------
  // Constants of the game
  // ---------------------------------------------------------------------------

  const Width: int := 800
  const Height: int := 600
  /** Target frame rate; one tick is one frame. */
  const Fps: int := 60

  const PlayerSize: int := 40
  /** Pixels the player moves per frame along an axis whose key is held. */
  const PlayerSpeed: int := 5
  const EnemySize: int := 50

  /** Enemy speed at the start of a session, and its increase per level. */
  const BaseSpeed: real := 2.0
  const SpeedStep: real := 0.3
  /** Phase advance of an orbiting enemy per move. */
  const AngleStep: real := 0.05

  /** A level lasts fifteen seconds of frames. */
  const LevelFrames: int := 15 * Fps
  /** The hit test compares positions against the player's size less ten, on each axis. */
  const HitMargin: int := PlayerSize - 10

  /** Largest player coordinates that keep the player's square on screen. */
  const MaxPlayerX: nat := Width - PlayerSize
  const MaxPlayerY: nat := Height - PlayerSize
  /** Largest coordinates drawn for a freshly spawned enemy. */
  const MaxEnemyX: nat := Width - EnemySize
  const MaxEnemyY: nat := Height - EnemySize

  // ---------------------------------------------------------------------------
  // Data model
  // ---------------------------------------------------------------------------

  /** The four motion rules an enemy can follow. */
  datatype EnemyType = Chaser | Zigzag | Circle | Predict

  /** The set a spawned enemy's type is drawn from. */
  const EnemyTypes: seq<EnemyType> := [Chaser, Zigzag, Circle, Predict]

  /** An enemy record: its position, its motion rule and its orbit phase. */
  datatype Enemy = Enemy(x: real, y: real, kind: EnemyType, angle: real)

  /** The keys sampled in one frame. */
  datatype Keys = Keys(left: bool, right: bool, up: bool, down: bool, restart: bool)

  /**
   * The floating-point primitives an enemy move uses: the Euclidean length of
   * a vector, sine and cosine. The model does not compute them; lemmas that
   * need a law of theirs say so in their preconditions.
   */
  datatype Numerics = Numerics(hypot: (real, real) -> real, sin: real -> real, cos: real -> real)

  /** The one law of the Euclidean length a move relies on: it is zero exactly for the zero vector. */
  ghost predicate IsEuclidean(num: Numerics)
  {
    forall dx: real, dy: real :: num.hypot(dx, dy) == 0.0 <==> dx == 0.0 && dy == 0.0
  }

  function Min(a: int, b: int): int { if a < b then a else b }
  function Max(a: int, b: int): int { if a < b then b else a }
  function Abs(r: real): real { if r < 0.0 then -r else r }

  // ---------------------------------------------------------------------------
  // Spawning
  // ---------------------------------------------------------------------------

  /**
   * What a freshly spawned enemy looks like: whole-numbered coordinates that
   * keep its square on screen and a zero phase. Its type is one of the four
   * by the datatype itself.
   */
  predicate Spawned(e: Enemy)
  {
    && e.x == e.x.Floor as real && e.y == e.y.Floor as real
    && 0.0 <= e.x <= MaxEnemyX as real
    && 0.0 <= e.y <= MaxEnemyY as real
    && e.angle == 0.0
  }

  /**
   * Builds a batch of `count` new enemies. Each coordinate and type is an
   * arbitrary choice within the range the game draws its random values from.
   */
  method SpawnEnemies(count: nat) returns (batch: seq<Enemy>)
    ensures |batch| == count
    ensures forall e <- batch :: Spawned(e)
  {
    batch := [];
    for i := 0 to count
      invariant |batch| == i
      invariant forall e <- batch :: Spawned(e)
    {
      var x: int :| 0 <= x <= MaxEnemyX;
      var y: int :| 0 <= y <= MaxEnemyY;
      var kind :| kind in EnemyTypes;
      batch := batch + [Enemy(x as real, y as real, kind, 0.0)];
    }
  }

  // ---------------------------------------------------------------------------
  // Player movement
  // ---------------------------------------------------------------------------

  /**
   * One axis of the player's move: back by PlayerSpeed when `back` is held,
   * forward by PlayerSpeed when `forward` is held, then clamped to [0, hi].
   */
  function Steer(pos: int, back: bool, forward: bool, hi: nat): (r: int)
    ensures 0 <= r <= hi
    ensures 0 <= pos <= hi ==> -PlayerSpeed <= r - pos <= PlayerSpeed
    ensures 0 <= pos <= hi && back == forward ==> r == pos
    ensures 0 <= pos <= hi && back && !forward ==> r == Max(0, pos - PlayerSpeed)
    ensures 0 <= pos <= hi && forward && !back ==> r == Min(hi, pos + PlayerSpeed)
  {
    var moved := pos - (if back then PlayerSpeed else 0) + (if forward then PlayerSpeed else 0);
    Max(0, Min(hi, moved))
  }

  // ---------------------------------------------------------------------------
  // Enemy movement
  // ---------------------------------------------------------------------------

  /**
   * One move of an enemy towards the player at (px, py). An enemy exactly on
   * the player does not move; otherwise it takes a step of length `speed`
   * along the unit direction to the player, plus a wobble that depends on its
   * type: a clock-driven one for Zigzag, an orbit for Circle (whose phase
   * advances first), and a 1.1 overshoot for Predict. Only Circle's phase
   * ever changes and the type never does.
   */
  function MoveEnemy(e: Enemy, px: int, py: int, speed: real, clock: int, num: Numerics): (r: Enemy)
    ensures r.kind == e.kind
    ensures num.hypot(px as real - e.x, py as real - e.y) == 0.0 ==> r == e
    ensures e.kind != Circle ==> r.angle == e.angle
    ensures e.kind == Circle ==>
      r.angle == if num.hypot(px as real - e.x, py as real - e.y) == 0.0 then e.angle else e.angle + AngleStep
  {
    var dx := px as real - e.x;
    var dy := py as real - e.y;
    var distance := num.hypot(dx, dy);
    if distance == 0.0 then e
    else
      var nx, ny := dx / distance, dy / distance;
      match e.kind
      case Chaser =>
        e.(x := e.x + speed * nx, y := e.y + speed * ny)
      case Zigzag =>
        var phase := clock as real * 0.005;
        e.(x := e.x + speed * nx + num.sin(phase) * 3.0, y := e.y + speed * ny + num.cos(phase) * 3.0)
      case Circle =>
        var angle := e.angle + AngleStep;
        e.(angle := angle, x := e.x + speed * nx + num.cos(angle) * 2.0, y := e.y + speed * ny + num.sin(angle) * 2.0)
      case Predict =>
        e.(x := e.x + speed * nx * 1.1, y := e.y + speed * ny * 1.1)
  }

  /** An enemy that sits exactly on the player stays exactly as it is, phase included. */
  lemma CoincidentEnemyStays(e: Enemy, px: int, py: int, speed: real, clock: int, num: Numerics)
    requires IsEuclidean(num)
    requires e.x == px as real && e.y == py as real
    ensures MoveEnemy(e, px, py, speed, clock, num) == e
  {
  }

  /** An orbiting enemy anywhere but on the player advances its phase by exactly AngleStep. */
  lemma OrbitPhaseAdvances(e: Enemy, px: int, py: int, speed: real, clock: int, num: Numerics)
    requires IsEuclidean(num)
    requires e.kind == Circle
    requires e.x != px as real || e.y != py as real
    ensures MoveEnemy(e, px, py, speed, clock, num).angle == e.angle + AngleStep
  {
  }

  /** The displacement of one move along each axis. */
  function Shift(e: Enemy, px: int, py: int, speed: real, clock: int, num: Numerics): (real, real)
  {
    var r := MoveEnemy(e, px, py, speed, clock, num);
    (r.x - e.x, r.y - e.y)
  }

  /** A Predict enemy's step is the step a Chaser would take from the same place, times 1.1. */
  lemma PredictOvershootsChaser(e: Enemy, px: int, py: int, speed: real, clock: int, num: Numerics)
    requires e.kind == Predict
    ensures var p, c := Shift(e, px, py, speed, clock, num), Shift(e.(kind := Chaser), px, py, speed, clock, num);
      p.0 == c.0 * 1.1 && p.1 == c.1 * 1.1
  {
    var dx, dy := px as real - e.x, py as real - e.y;
    var d := num.hypot(dx, dy);
    if d != 0.0 {
      var sx, sy := speed * (dx / d), speed * (dy / d);
      assert MoveEnemy(e, px, py, speed, clock, num) == e.(x := e.x + sx * 1.1, y := e.y + sy * 1.1);
      assert MoveEnemy(e.(kind := Chaser), px, py, speed, clock, num) == e.(kind := Chaser, x := e.x + sx, y := e.y + sy);
    }
  }

  /**
   * A Circle enemy's step differs from the step a Chaser would take from the
   * same place by at most 2 on each axis, given sine and cosine in [-1, 1].
   */
  lemma OrbitStaysNearChaser(e: Enemy, px: int, py: int, speed: real, clock: int, num: Numerics)
    requires e.kind == Circle
    requires -1.0 <= num.sin(e.angle + AngleStep) <= 1.0 && -1.0 <= num.cos(e.angle + AngleStep) <= 1.0
    ensures var o, c := Shift(e, px, py, speed, clock, num), Shift(e.(kind := Chaser), px, py, speed, clock, num);
      Abs(o.0 - c.0) <= 2.0 && Abs(o.1 - c.1) <= 2.0
  {
    var dx, dy := px as real - e.x, py as real - e.y;
    var d := num.hypot(dx, dy);
    if d != 0.0 {
      var a := e.angle + AngleStep;
      var sx, sy := speed * (dx / d), speed * (dy / d);
      assert MoveEnemy(e, px, py, speed, clock, num) == e.(angle := a, x := e.x + sx + num.cos(a) * 2.0, y := e.y + sy + num.sin(a) * 2.0);
      assert MoveEnemy(e.(kind := Chaser), px, py, speed, clock, num) == e.(kind := Chaser, x := e.x + sx, y := e.y + sy);
    }
  }

  /**
   * A Zigzag enemy's step differs from the step a Chaser would take from the
   * same place by at most 3 on each axis, given sine and cosine in [-1, 1].
   */
  lemma ZigzagStaysNearChaser(e: Enemy, px: int, py: int, speed: real, clock: int, num: Numerics)
    requires e.kind == Zigzag
    requires -1.0 <= num.sin(clock as real * 0.005) <= 1.0 && -1.0 <= num.cos(clock as real * 0.005) <= 1.0
    ensures var z, c := Shift(e, px, py, speed, clock, num), Shift(e.(kind := Chaser), px, py, speed, clock, num);
      Abs(z.0 - c.0) <= 3.0 && Abs(z.1 - c.1) <= 3.0
  {
    var dx, dy := px as real - e.x, py as real - e.y;
    var d := num.hypot(dx, dy);
    if d != 0.0 {
      var phase := clock as real * 0.005;
      var sx, sy := speed * (dx / d), speed * (dy / d);
      assert MoveEnemy(e, px, py, speed, clock, num) == e.(x := e.x + sx + num.sin(phase) * 3.0, y := e.y + sy + num.cos(phase) * 3.0);
      assert MoveEnemy(e.(kind := Chaser), px, py, speed, clock, num) == e.(kind := Chaser, x := e.x + sx, y := e.y + sy);
    }
  }

  /** Every enemy of the roster moved once, in order, against the same player position. */
  function AdvanceAll(es: seq<Enemy>, px: int, py: int, speed: real, clock: int, num: Numerics): (r: seq<Enemy>)
    ensures |r| == |es|
    ensures forall i :: 0 <= i < |es| ==> r[i] == MoveEnemy(es[i], px, py, speed, clock, num)
  {
    if es == [] then []
    else [MoveEnemy(es[0], px, py, speed, clock, num)] + AdvanceAll(es[1..], px, py, speed, clock, num)
  }

  // ---------------------------------------------------------------------------
  // Collision
  // ---------------------------------------------------------------------------

  /**
   * The hit test: the enemy's corner lies strictly within HitMargin of the
   * player's corner on both axes. The enemy's own size plays no part.
   */
  predicate Collides(px: int, py: int, e: Enemy): (hit: bool)
    ensures hit <==>
      && (px - HitMargin) as real < e.x < (px + HitMargin) as real
      && (py - HitMargin) as real < e.y < (py + HitMargin) as real
  {
    Abs(px as real - e.x) < HitMargin as real && Abs(py as real - e.y) < HitMargin as real
  }

  predicate AnyCollision(px: int, py: int, es: seq<Enemy>)
  {
    exists e <- es :: Collides(px, py, e)
  }

  /** With the player at (100, 100), an enemy at (125, 125) hits and one at (135, 135) does not. */
  lemma HitMarginExamples()
    ensures Collides(100, 100, Enemy(125.0, 125.0, Chaser, 0.0))
    ensures !Collides(100, 100, Enemy(135.0, 135.0, Chaser, 0.0))
  {
  }

  /** An enemy whose square overlaps the player's square can still miss, as size is ignored. */
  lemma OverlapWithoutHit()
    ensures var e := Enemy(55.0, 100.0, Chaser, 0.0);
      e.x < 100.0 < e.x + EnemySize as real && !Collides(100, 100, e)
  {
  }

  // ---------------------------------------------------------------------------
  // Progression
  // ---------------------------------------------------------------------------

  /** A level-up is due on a frame count that is a multiple of LevelFrames. */
  predicate LevelUpDue(frames: int)
  {
    frames % LevelFrames == 0
  }

  /** The level reached after `frames` frames of play. */
  function LevelAt(frames: nat): int
  {
    1 + frames / LevelFrames
  }

  /** The enemy speed at a level. */
  function SpeedAt(level: int): real
  {
    BaseSpeed + SpeedStep * (level - 1) as real
  }

  function Pow2(n: nat): nat
  {
    if n == 0 then 1 else 2 * Pow2(n - 1)
  }

  /** One more frame raises the level by one exactly when that frame is due for a level-up. */
  lemma LevelStep(frames: nat)
    ensures LevelAt(frames + 1) == if LevelUpDue(frames + 1) then LevelAt(frames) + 1 else LevelAt(frames)
  {
  }

  /** Level-ups fall on the frames k * LevelFrames, and frame k * LevelFrames is on level k + 1. */
  lemma LevelUpBoundary(k: nat)
    ensures LevelUpDue(k * LevelFrames)
    ensures LevelAt(k * LevelFrames) == k + 1
  {
  }

  /** No frame strictly between two boundaries is due, and all of them share a level. */
  lemma NoLevelUpBetween(k: nat, r: int)
    requires 0 < r < LevelFrames
    ensures !LevelUpDue(k * LevelFrames + r)
    ensures LevelAt(k * LevelFrames + r) == k + 1
  {
  }

  lemma {:induction false} Pow2Monotone(m: nat, n: nat)
    requires m <= n
    ensures Pow2(m) <= Pow2(n)
  {
    if m < n {
      Pow2Monotone(m, n - 1);
    }
  }

  /**
   * Within a session the roster size 2^(level - 1) and the enemy speed never
   * decrease as frames go by.
   */
  lemma DifficultyNeverDrops(f1: nat, f2: nat)
    requires f1 <= f2
    ensures LevelAt(f1) <= LevelAt(f2)
    ensures Pow2(LevelAt(f1) - 1) <= Pow2(LevelAt(f2) - 1)
    ensures SpeedAt(LevelAt(f1)) <= SpeedAt(LevelAt(f2))
  {
    var q1, q2 := f1 / LevelFrames, f2 / LevelFrames;
    assert q1 * LevelFrames <= f1 <= f2 < (q2 + 1) * LevelFrames;
    Pow2Monotone(q1, q2);
  }

  // ---------------------------------------------------------------------------
  // Session state
  // ---------------------------------------------------------------------------

  /** The session variables of the game and the two things that change them. */
  class GameState {
    var playerX: int
    var playerY: int
    var enemies: seq<Enemy>
    var enemySpeed: real
    var frameCount: nat
    var level: int
    var score: int
    var gameOver: bool

    /**
     * The session invariant: the player is on screen, and score, level,
     * speed and roster size are all determined by the frame count.
     */
    ghost predicate Valid()
      reads this
    {
      && 0 <= playerX <= MaxPlayerX
      && 0 <= playerY <= MaxPlayerY
      && score == frameCount / Fps
      && level == LevelAt(frameCount)
      && enemySpeed == SpeedAt(level)
      && |enemies| == Pow2(level - 1)
    }

    /** The state at the start of a session. */
    ghost predicate IsNewSession()
      reads this
    {
      && playerX == Width / 2 && playerY == Height / 2
      && |enemies| == 1 && Spawned(enemies[0])
      && enemySpeed == BaseSpeed
      && frameCount == 0 && level == 1 && score == 0
      && !gameOver
    }

    /** The first session, as the game sets it up at start. */
    constructor ()
      ensures Valid() && IsNewSession()
    {
      new;
      Restart();
    }

    /** Resets every session variable: the player to the centre, a single new enemy, base speed, level 1. */
    method Restart()
      modifies this
      ensures Valid() && IsNewSession()
    {
      playerX, playerY := Width / 2, Height / 2;
      enemies := SpawnEnemies(1);
      enemySpeed := BaseSpeed;
      frameCount := 0;
      level := 1;
      score := 0;
      gameOver := false;
    }

    /**
     * Moves every enemy of the roster, in order, towards the player, and ends
     * the game if a moved enemy hits the player.
     */
    method MoveEnemies(clock: int, num: Numerics)
      modifies this`enemies, this`gameOver
      ensures enemies == AdvanceAll(old(enemies), playerX, playerY, enemySpeed, clock, num)
      ensures gameOver <==> old(gameOver) || AnyCollision(playerX, playerY, enemies)
    {
      var i := 0;
      while i < |enemies|
        invariant 0 <= i <= |enemies| == |old(enemies)|
        invariant forall k :: 0 <= k < i ==>
          enemies[k] == MoveEnemy(old(enemies)[k], playerX, playerY, enemySpeed, clock, num)
        invariant forall k :: i <= k < |enemies| ==> enemies[k] == old(enemies)[k]
        invariant gameOver <==> old(gameOver) || AnyCollision(playerX, playerY, enemies[..i])
      {
        var moved := MoveEnemy(enemies[i], playerX, playerY, enemySpeed, clock, num);
        enemies := enemies[i := moved];
        assert enemies[..i + 1] == enemies[..i] + [moved];
        if Collides(playerX, playerY, moved) {
          gameOver := true;
        }
        i := i + 1;
      }
      assert enemies[..i] == enemies;
    }

    /**
     * What one playing frame does to the session: the player steered by the
     * keys, every enemy moved once against the new player position at the
     * speed of the frame's start, the game over exactly when a moved enemy
     * hits, the frame counted, and on a frame due for a level-up the level and
     * the speed raised and the roster doubled by a batch of new enemies
     * appended after the old ones.
     */
    twostate predicate Played(keys: Keys, clock: int, num: Numerics)
      reads this
    {
      && playerX == Steer(old(playerX), keys.left, keys.right, MaxPlayerX)
      && playerY == Steer(old(playerY), keys.up, keys.down, MaxPlayerY)
      && frameCount == old(frameCount) + 1
      && |old(enemies)| <= |enemies|
      && enemies[..|old(enemies)|] == AdvanceAll(old(enemies), playerX, playerY, old(enemySpeed), clock, num)
      && (gameOver <==> AnyCollision(playerX, playerY, enemies[..|old(enemies)|]))
      && if LevelUpDue(frameCount) then
           && level == old(level) + 1
           && enemySpeed == old(enemySpeed) + SpeedStep
           && |enemies| == 2 * |old(enemies)|
           && forall e <- enemies[|old(enemies)|..] :: Spawned(e)
         else
           && level == old(level)
           && enemySpeed == old(enemySpeed)
           && |enemies| == |old(enemies)|
    }

    /** One frame while the game is not over. */
    method Play(keys: Keys, clock: int, num: Numerics)
      requires Valid() && !gameOver
      modifies this
      ensures Valid() && Played(keys, clock, num)
    {
      playerX := Steer(playerX, keys.left, keys.right, MaxPlayerX);
      playerY := Steer(playerY, keys.up, keys.down, MaxPlayerY);

      MoveEnemies(clock, num);
      CountFrame();
    }

    /**
     * Counts a frame, rederives the score and, on a frame due for a level-up,
     * raises the level and the speed and appends as many new enemies as the
     * roster already holds.
     */
    method CountFrame()
      requires level == LevelAt(frameCount) && enemySpeed == SpeedAt(level) && |enemies| == Pow2(level - 1)
      modifies this`frameCount, this`score, this`level, this`enemySpeed, this`enemies
      ensures score == frameCount / Fps
      ensures level == LevelAt(frameCount) && enemySpeed == SpeedAt(level) && |enemies| == Pow2(level - 1)
      ensures frameCount == old(frameCount) + 1
      ensures |old(enemies)| <= |enemies| && enemies[..|old(enemies)|] == old(enemies)
      ensures if LevelUpDue(frameCount) then
          && level == old(level) + 1
          && enemySpeed == old(enemySpeed) + SpeedStep
          && |enemies| == 2 * |old(enemies)|
          && forall e <- enemies[|old(enemies)|..] :: Spawned(e)
        else
          && level == old(level)
          && enemySpeed == old(enemySpeed)
          && |enemies| == |old(enemies)|
    {
      LevelStep(frameCount);
      frameCount := frameCount + 1;
      score := frameCount / Fps;
      if frameCount % LevelFrames == 0 {
        level := level + 1;
        enemySpeed := enemySpeed + SpeedStep;
        var batch := SpawnEnemies(|enemies|);
        enemies := enemies + batch;
        assert enemies[|old(enemies)|..] == batch;
      }
      assert enemies[..|old(enemies)|] == old(enemies);
    }

    /**
     * One frame. While playing, the frame described by Played. Once the game
     * is over nothing changes until the restart key is held, which starts a
     * new session.
     */
    method Tick(keys: Keys, clock: int, num: Numerics)
      requires Valid()
      modifies this
      ensures Valid()
      ensures !old(gameOver) ==> Played(keys, clock, num)
      ensures old(gameOver) && !keys.restart ==> unchanged(this)
      ensures old(gameOver) && keys.restart ==> IsNewSession()
    {
      if !gameOver {
        Play(keys, clock, num);
      } else if keys.restart {
        Restart();
      }
    }
  }
}
