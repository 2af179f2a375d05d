/** The simulation step of the two-paddle ball game (Chapter01/Game.cpp).
  *
  * Positions, velocities and the frame time are C++ `float`s; here they are
  * `real`s, so IEEE-754 rounding is not modelled. Ticks are milliseconds. */
module PaddleGame {

  // Playfield constants (Game.cpp:11-13 and the literals of the window size)
  const Thickness: real := 15.0
  const EdgeBuffer: real := 10.0
  const PaddleH: real := 100.0
  const FieldWidth: real := 1024.0
  const FieldHeight: real := 768.0

  /** Paddle speed in units per second. */
  const PaddleSpeed: real := 300.0
  /** Upper bound on one step's delta time, in seconds. */
  const MaxDeltaTime: real := 0.05
  /** Minimum number of milliseconds between two simulation steps. */
  const FrameMs: nat := 16

  /** Range the centre of a paddle is kept in: [65, 703]. */
  const PaddleMinY: real := PaddleH / 2.0 + Thickness
  const PaddleMaxY: real := FieldHeight - PaddleH / 2.0 - Thickness

  const LeftPaddleX: real := 10.0
  /** x of the right paddle, and the left edge of its collision band: 999. */
  const RightPaddleX: real := FieldWidth - Thickness - EdgeBuffer

  datatype Vec2 = Vec2(x: real, y: real)

  /** A paddle: its centre and its direction (-1 up, 0 still, +1 down). */
  datatype Paddle = Paddle(pos: Vec2, dir: int)

  datatype Ball = Ball(pos: Vec2, vel: Vec2)

  function Abs(d: real): (r: real)
    ensures r >= 0.0
    ensures r == d || r == -d
  {
    if d > 0.0 then d else -d
  }

  /** Distance between two points of the vertical axis. */
  function Dist(a: real, b: real): (r: real)
    ensures r >= 0.0
    ensures r == 0.0 <==> a == b
  {
    Abs(a - b)
  }

  // ---------------------------------------------------------------------
  // Input

  /** Direction produced by an "up" key and a "down" key, each adding -1 or
    * +1 to a direction that starts at 0: holding both cancels out. */
  function Axis(up: bool, down: bool): (d: int)
    ensures -1 <= d <= 1
    ensures d == -1 <==> up && !down
    ensures d == 1 <==> down && !up
    ensures d == 0 <==> up == down
  {
    (if down then 1 else 0) - (if up then 1 else 0)
  }

  // ---------------------------------------------------------------------
  // Timing

  /** Seconds elapsed since the previous step, capped at MaxDeltaTime. */
  function DeltaTime(elapsedMs: nat): (dt: real)
    ensures 0.0 <= dt <= MaxDeltaTime
    ensures dt <= elapsedMs as real / 1000.0
    ensures dt == elapsedMs as real / 1000.0 || dt == MaxDeltaTime
  {
    var dt := elapsedMs as real / 1000.0;
    if dt > MaxDeltaTime then MaxDeltaTime else dt
  }

  // ---------------------------------------------------------------------
  // Paddles

  /** Keeps a paddle's centre inside the playfield. */
  function ClampToField(y: real): (r: real)
    ensures PaddleMinY <= r <= PaddleMaxY
    ensures PaddleMinY <= y <= PaddleMaxY ==> r == y
    ensures forall z :: PaddleMinY <= z <= PaddleMaxY ==> Dist(r, y) <= Dist(z, y)
  {
    if y < PaddleMinY then PaddleMinY
    else if y > PaddleMaxY then PaddleMaxY
    else y
  }

  predicate PaddleInField(p: Paddle) {
    PaddleMinY <= p.pos.y <= PaddleMaxY && -1 <= p.dir <= 1
  }

  /** Paddle::UpdatePaddlePos: a moving paddle goes dir * speed * dt
    * vertically and is then clamped to the field; a still one is untouched. */
  function UpdatePaddlePos(p: Paddle, dt: real): (r: Paddle)
    ensures r.pos.x == p.pos.x && r.dir == p.dir
    ensures p.dir == 0 ==> r == p
    ensures p.dir != 0 ==> PaddleMinY <= r.pos.y <= PaddleMaxY
    ensures p.dir != 0 ==>
      r.pos.y == ClampToField(p.pos.y + p.dir as real * PaddleSpeed * dt)
  {
    if p.dir != 0 then
      p.(pos := p.pos.(y := ClampToField(p.pos.y + p.dir as real * PaddleSpeed * dt)))
    else
      p
  }

  /** A paddle in the field stays in the field, and never moves against its
    * direction. */
  lemma {:induction false} PaddleMovesWithDirection(p: Paddle, dt: real)
    requires PaddleInField(p) && dt >= 0.0
    ensures PaddleInField(UpdatePaddlePos(p, dt))
    ensures p.dir == 1 ==> UpdatePaddlePos(p, dt).pos.y >= p.pos.y
    ensures p.dir == -1 ==> UpdatePaddlePos(p, dt).pos.y <= p.pos.y
  {
    if p.dir != 0 {
      assert p.dir as real * PaddleSpeed * dt == p.dir as real * (PaddleSpeed * dt);
      assert PaddleSpeed * dt >= 0.0;
    }
  }

  // ---------------------------------------------------------------------
  // Balls

  /** The ball after moving by velocity * dt, before any bounce. */
  function MoveBall(b: Ball, dt: real): (r: Ball)
    ensures r.vel == b.vel
    ensures r.pos.x - b.pos.x == b.vel.x * dt && r.pos.y - b.pos.y == b.vel.y * dt
  {
    Ball(Vec2(b.pos.x + b.vel.x * dt, b.pos.y + b.vel.y * dt), b.vel)
  }

  /** Moving left inside the left paddle's band, vertically within half a
    * paddle of its centre. */
  predicate HitsLeftPaddle(b: Ball, paddleY: real) {
    Dist(paddleY, b.pos.y) <= PaddleH / 2.0 && 20.0 <= b.pos.x <= 25.0 && b.vel.x < 0.0
  }

  /** Moving right (or still) at or beyond the right paddle's x, vertically
    * within half a paddle of its centre. */
  predicate HitsRightPaddle(b: Ball, paddleY: real) {
    Dist(paddleY, b.pos.y) <= PaddleH / 2.0 && b.pos.x >= RightPaddleX && b.vel.x >= 0.0
  }

  /** At or beyond the left or right edge: the game is over. */
  predicate OffScreen(b: Ball) {
    b.pos.x <= 0.0 || b.pos.x >= FieldWidth
  }

  /** No ball of `bs` is off screen. */
  predicate AllOnScreen(bs: seq<Ball>) {
    forall j :: 0 <= j < |bs| ==> !OffScreen(bs[j])
  }

  predicate HitsTopWall(b: Ball) {
    b.pos.y <= Thickness && b.vel.y < 0.0
  }

  predicate HitsBottomWall(b: Ball) {
    b.pos.y >= FieldHeight - Thickness && b.vel.y > 0.0
  }

  /** One ball's step, stated declaratively: it moves, then its horizontal
    * velocity is negated exactly when the moved ball hits a paddle and its
    * vertical velocity exactly when it hits a wall. */
  function StepBall(b: Ball, leftY: real, rightY: real, dt: real): (r: Ball)
    ensures r.pos == MoveBall(b, dt).pos
    ensures Abs(r.vel.x) == Abs(b.vel.x) && Abs(r.vel.y) == Abs(b.vel.y)
  {
    var m := MoveBall(b, dt);
    var vx := if HitsLeftPaddle(m, leftY) || HitsRightPaddle(m, rightY) then -m.vel.x else m.vel.x;
    var vy := if HitsTopWall(m) || HitsBottomWall(m) then -m.vel.y else m.vel.y;
    Ball(m.pos, Vec2(vx, vy))
  }

  /** The two paddle bands are disjoint, and a ball cannot move into both
    * walls: at most one horizontal and one vertical bounce per step. */
  lemma AtMostOneBouncePerAxis(b: Ball, leftY: real, rightY: real)
    ensures !(HitsLeftPaddle(b, leftY) && HitsRightPaddle(b, rightY))
    ensures !(HitsTopWall(b) && HitsBottomWall(b))
  {
  }

  /** After a bounce the ball moves away from what it hit; a ball moving away
    * from a wall or paddle is not turned back. */
  lemma BounceTurnsAway(b: Ball, leftY: real, rightY: real, dt: real)
    ensures HitsLeftPaddle(MoveBall(b, dt), leftY) ==> StepBall(b, leftY, rightY, dt).vel.x > 0.0
    ensures HitsRightPaddle(MoveBall(b, dt), rightY) ==> StepBall(b, leftY, rightY, dt).vel.x <= 0.0
    ensures HitsTopWall(MoveBall(b, dt)) ==> StepBall(b, leftY, rightY, dt).vel.y > 0.0
    ensures HitsBottomWall(MoveBall(b, dt)) ==> StepBall(b, leftY, rightY, dt).vel.y < 0.0
    ensures b.vel.y > 0.0 && MoveBall(b, dt).pos.y <= Thickness ==>
      StepBall(b, leftY, rightY, dt).vel.y == b.vel.y
    ensures b.vel.y < 0.0 && MoveBall(b, dt).pos.y >= FieldHeight - Thickness ==>
      StepBall(b, leftY, rightY, dt).vel.y == b.vel.y
  {
  }

  /** The body of the per-ball loop of Game::UpdateGame, in the source's
    * order: move, left paddle, right paddle (which sees the velocity the left
    * test may have flipped), edge test, top wall, else bottom wall. */
  method BallStep(b: Ball, leftY: real, rightY: real, dt: real) returns (r: Ball, offScreen: bool)
    ensures r == StepBall(b, leftY, rightY, dt)
    ensures offScreen == OffScreen(r)
  {
    ghost var moved := MoveBall(b, dt);

    var pos := b.pos;
    var vel := b.vel;
    pos := pos.(y := pos.y + vel.y * dt);
    pos := pos.(x := pos.x + vel.x * dt);
    assert pos == moved.pos;

    var diff := leftY - pos.y;
    diff := if diff > 0.0 then diff else -diff;
    if diff <= PaddleH / 2.0 && pos.x <= 25.0 && pos.x >= 20.0 && vel.x < 0.0 {
      vel := vel.(x := vel.x * -1.0);
    }
    assert vel.x == if HitsLeftPaddle(moved, leftY) then -b.vel.x else b.vel.x;

    var diff2 := rightY - pos.y;
    diff2 := if diff2 > 0.0 then diff2 else -diff2;
    if diff2 <= PaddleH / 2.0 && pos.x >= RightPaddleX && vel.x >= 0.0 {
      vel := vel.(x := vel.x * -1.0);
    }

    offScreen := false;
    if pos.x <= 0.0 || pos.x >= FieldWidth {
      offScreen := true;
    }

    if pos.y <= Thickness && vel.y < 0.0 {
      vel := vel.(y := vel.y * -1.0);
    } else if pos.y >= FieldHeight - Thickness && vel.y > 0.0 {
      vel := vel.(y := vel.y * -1.0);
    }
    r := Ball(pos, vel);
  }

  // ---------------------------------------------------------------------
  // The game

  class Game {
    var isRunning: bool
    var ticksCount: nat
    var paddle1: Paddle
    var paddle2: Paddle
    /** The balls; the vector of ball pointers is fixed after initialisation,
      * the balls themselves are updated in place. */
    const balls: array<Ball>

    /** Both paddles sit at their own x, inside the field, with a direction
      * in {-1, 0, 1}. */
    ghost predicate Valid()
      reads this
    {
      PaddleInField(paddle1) && PaddleInField(paddle2) &&
      paddle1.pos.x == LeftPaddleX && paddle2.pos.x == RightPaddleX
    }

    /** Game::Game together with the entity set-up of a successful
      * Game::Initialize. */
    constructor ()
      ensures Valid()
      ensures isRunning && ticksCount == 0
      ensures paddle1 == Paddle(Vec2(10.0, 384.0), 0)
      ensures paddle2 == Paddle(Vec2(999.0, 384.0), 0)
      ensures fresh(balls)
      ensures balls[..] == [Ball(Vec2(512.0, 384.0), Vec2(-200.0, 235.0)),
                            Ball(Vec2(384.0, 512.0), Vec2(-200.0, 235.0))]
    {
      ticksCount := 0;
      isRunning := true;
      // paddle2's direction comes from value-initialisation: the source sets
      // paddle1's direction a second time instead
      paddle1 := Paddle(Vec2(LeftPaddleX, FieldHeight / 2.0), 0);
      paddle2 := Paddle(Vec2(RightPaddleX, FieldHeight / 2.0), 0);
      var ball1 := Ball(Vec2(FieldWidth / 2.0, FieldHeight / 2.0), Vec2(-200.0, 235.0));
      var ball2 := Ball(Vec2(FieldHeight / 2.0, FieldWidth / 2.0), Vec2(-200.0, 235.0));
      balls := new Ball[] [ball1, ball2];
    }

    /** Game::ProcessInput. `quit` says whether a quit event was pending,
      * the other flags whether a key is held. */
    method ProcessInput(quit: bool, esc: bool, w: bool, s: bool, r: bool, f: bool)
      requires Valid()
      modifies this`isRunning, this`paddle1, this`paddle2
      ensures Valid()
      ensures isRunning ==> old(isRunning)
      ensures isRunning == (old(isRunning) && !quit && !esc)
      ensures paddle1 == old(paddle1).(dir := Axis(w, s))
      ensures paddle2 == old(paddle2).(dir := Axis(r, f))
    {
      if quit {
        isRunning := false;
      }
      if esc {
        isRunning := false;
      }
      paddle1 := paddle1.(dir := 0);
      paddle2 := paddle2.(dir := 0);
      if w {
        paddle1 := paddle1.(dir := paddle1.dir - 1);
      }
      if s {
        paddle1 := paddle1.(dir := paddle1.dir + 1);
      }
      if r {
        paddle2 := paddle2.(dir := paddle2.dir - 1);
      }
      if f {
        paddle2 := paddle2.(dir := paddle2.dir + 1);
      }
    }

    /** Game::UpdateGame, called at tick `now`, once the frame pacing wait is
      * over. Nothing but the paddles, the balls, the tick count and the
      * running flag changes. */
    method UpdateGame(now: nat)
      requires Valid()
      requires now >= ticksCount + FrameMs
      modifies this`ticksCount, this`paddle1, this`paddle2, this`isRunning, balls
      ensures Valid()
      ensures ticksCount == now
      ensures paddle1 == UpdatePaddlePos(old(paddle1), DeltaTime(now - old(ticksCount)))
      ensures paddle2 == UpdatePaddlePos(old(paddle2), DeltaTime(now - old(ticksCount)))
      ensures forall j :: 0 <= j < balls.Length ==>
        balls[j] == StepBall(old(balls[j]), paddle1.pos.y, paddle2.pos.y, DeltaTime(now - old(ticksCount)))
      ensures isRunning == (old(isRunning) && AllOnScreen(balls[..]))
      ensures isRunning ==> old(isRunning)
      ensures isRunning ==> forall j :: 0 <= j < balls.Length ==> 0.0 < balls[j].pos.x < FieldWidth
    {
      var deltaTime := (now - ticksCount) as real / 1000.0;
      if deltaTime > MaxDeltaTime {
        deltaTime := MaxDeltaTime;
      }
      assert deltaTime == DeltaTime(now - old(ticksCount));
      ticksCount := now;

      paddle1 := UpdatePaddlePos(paddle1, deltaTime);
      paddle2 := UpdatePaddlePos(paddle2, deltaTime);

      var leftY, rightY := paddle1.pos.y, paddle2.pos.y;
      var i := 0;
      while i < balls.Length
        modifies this`isRunning, balls
        invariant 0 <= i <= balls.Length
        invariant forall j :: 0 <= j < i ==>
          balls[j] == StepBall(old(balls[j]), leftY, rightY, deltaTime)
        invariant forall j :: i <= j < balls.Length ==> balls[j] == old(balls[j])
        invariant isRunning == (old(isRunning) && AllOnScreen(balls[..i]))
      {
        var ball, offScreen := BallStep(balls[i], leftY, rightY, deltaTime);
        if offScreen {
          isRunning := false;
        }
        balls[i] := ball;
        assert balls[..i + 1] == balls[..i] + [ball];
        i := i + 1;
      }
      assert balls[..i] == balls[..];
    }
  }
}
