/** The rules of the Pong game in src/game.cpp, as functions of the GameState
    record: one stage function per block of updateGame, resetBall, and the
    particles the game spawns and ages. The class that updates the globals in
    place is in module PongGame. rand() reaches these functions as the value it
    returned, and sqrt as a parameter. */
module PongRules {
  import opened RealMath

  const Width: real := 1280.0
  const Height: real := 720.0
  const PaddleSpeed: real := 800.0
  const InitialBallSpeed: real := 400.0
  const BallAcceleration: real := 1.05
  const MaxBallSpeed: real := 1200.0

  /** struct GameState. */
  datatype State = State(
    leftPaddleY: real, rightPaddleY: real,
    ballX: real, ballY: real, ballVelX: real, ballVelY: real,
    leftScore: int, rightScore: int,
    paused: bool, timeSinceHit: real)

  /** The field initialisers of GameState. */
  const Initial := State(Height / 2.0, Height / 2.0, Width / 2.0, Height / 2.0, InitialBallSpeed, 0.0, 0, 0, true, 0.0)

  datatype Rgb = Rgb(r: real, g: real, b: real)

  /** struct ColorTheme. */
  datatype Theme = Theme(bg: Rgb, paddle: Rgb, ball: Rgb, particle1: Rgb, particle2: Rgb)

  /** The three themes the T key cycles through. */
  const Themes: seq<Theme> := [
    Theme(Rgb(0.1, 0.1, 0.2), Rgb(0.8, 0.2, 0.2), Rgb(0.9, 0.9, 0.2), Rgb(0.9, 0.5, 0.1), Rgb(0.9, 0.9, 0.1)),
    Theme(Rgb(0.2, 0.1, 0.1), Rgb(0.2, 0.8, 0.2), Rgb(0.2, 0.9, 0.9), Rgb(0.1, 0.9, 0.5), Rgb(0.1, 0.9, 0.9)),
    Theme(Rgb(0.1, 0.2, 0.1), Rgb(0.2, 0.2, 0.8), Rgb(0.9, 0.2, 0.9), Rgb(0.5, 0.1, 0.9), Rgb(0.9, 0.1, 0.9))
  ]

  /** struct Particle. */
  datatype Particle = Particle(x: real, y: real, velX: real, velY: real, life: real, r: real, g: real, b: real)

  datatype Sound = WallSound | PaddleSound | ScoreSound

  /** A playSound call followed by a createParticles(x, y, count, ...) call:
      the game always does the two together. */
  datatype Event = Event(sound: Sound, x: real, y: real, count: nat)

  datatype Option<T> = None | Some(value: T)

  /** What the three blocks of one updateGame play and spawn: each fires at most
      once per call. */
  datatype Effects = Effects(wall: Option<Event>, paddle: Option<Event>, score: Option<Event>)

  function Abs(x: real): (r: real)
    ensures r >= 0.0 && (r == x || r == -x)
  {
    if x < 0.0 then -x else x
  }

  // ---------------------------------------------------------------------
  // resetBall

  /** resetBall(serveToRight), where roll is the value rand() returns: the ball
      goes back to the centre with a random vertical speed, and the game pauses
      until the next serve. */
  function Reset(s: State, serveToRight: bool, roll: nat): (r: State)
    ensures r.ballX == Width / 2.0 && r.ballY == Height / 2.0
    ensures r.ballVelX == InitialBallSpeed <==> serveToRight
    ensures r.ballVelX == -InitialBallSpeed <==> !serveToRight
    ensures -InitialBallSpeed * 0.5 <= r.ballVelY <= InitialBallSpeed * 0.5
    ensures r.paused && r.timeSinceHit == 0.0
    ensures r.leftPaddleY == s.leftPaddleY && r.rightPaddleY == s.rightPaddleY
    ensures r.leftScore == s.leftScore && r.rightScore == s.rightScore
  {
    s.(ballX := Width / 2.0, ballY := Height / 2.0,
       ballVelX := if serveToRight then InitialBallSpeed else -InitialBallSpeed,
       ballVelY := ((roll % 200) as int - 100) as real / 100.0 * InitialBallSpeed * 0.5,
       paused := true, timeSinceHit := 0.0)
  }

  // ---------------------------------------------------------------------
  // updateGame, stage by stage

  /** The clock and the ball advance by deltaTime. */
  function Integrate(s: State, dt: real): State
  {
    s.(timeSinceHit := s.timeSinceHit + dt,
       ballX := s.ballX + s.ballVelX * dt,
       ballY := s.ballY + s.ballVelY * dt)
  }

  predicate AtWall(s: State) {
    s.ballY <= 0.0 || s.ballY >= Height
  }

  /** Top and bottom walls: the ball is put back on the wall it crossed and its
      vertical speed is reversed. */
  function Bounce(s: State): (r: State)
    ensures 0.0 <= r.ballY <= Height
    ensures AtWall(s) ==> r.ballVelY == -s.ballVelY
    ensures s.ballY <= 0.0 ==> r.ballY == 0.0
    ensures s.ballY > 0.0 && AtWall(s) ==> r.ballY == Height
    ensures !AtWall(s) ==> r == s
    ensures r == s.(ballY := r.ballY, ballVelY := r.ballVelY)
  {
    if AtWall(s) then
      s.(ballVelY := -s.ballVelY, ballY := if s.ballY <= 0.0 then 0.0 else Height)
    else s
  }

  /** The wall sound and 20 particles where the ball meets the wall. */
  function WallEvent(s: State): Option<Event> {
    if AtWall(s) then Some(Event(WallSound, s.ballX, Bounce(s).ballY, 20)) else None
  }

  /** The ball is on the face of the left paddle (x in [20, 30], within 60 of its centre). */
  predicate HitsLeft(s: State) {
    s.ballX <= 30.0 && s.ballX >= 20.0 && s.ballY >= s.leftPaddleY - 60.0 && s.ballY <= s.leftPaddleY + 60.0
  }

  predicate HitsRight(s: State) {
    s.ballX >= Width - 30.0 && s.ballX <= Width - 20.0 && s.ballY >= s.rightPaddleY - 60.0 && s.ballY <= s.rightPaddleY + 60.0
  }

  predicate Hit(s: State) {
    HitsLeft(s) || HitsRight(s)
  }

  /** The ball leaves the left paddle 5% faster, moving right, with a vertical
      speed set by where it struck the paddle. */
  function LeftReturn(s: State): (r: State)
    requires HitsLeft(s)
    ensures r.ballX == 30.0 && r.ballVelX >= 0.0 && r.ballVelX == Abs(s.ballVelX) * BallAcceleration
    ensures -PaddleSpeed * 0.8 <= r.ballVelY <= PaddleSpeed * 0.8
  {
    var hitPos := (s.ballY - s.leftPaddleY) / 60.0;
    s.(ballVelX := Abs(s.ballVelX) * BallAcceleration, ballVelY := hitPos * PaddleSpeed * 0.8, ballX := 30.0)
  }

  function RightReturn(s: State): (r: State)
    requires HitsRight(s)
    ensures r.ballX == Width - 30.0 && r.ballVelX <= 0.0 && r.ballVelX == -Abs(s.ballVelX) * BallAcceleration
    ensures -PaddleSpeed * 0.8 <= r.ballVelY <= PaddleSpeed * 0.8
  {
    var hitPos := (s.ballY - s.rightPaddleY) / 60.0;
    s.(ballVelX := -Abs(s.ballVelX) * BallAcceleration, ballVelY := hitPos * PaddleSpeed * 0.8, ballX := Width - 30.0)
  }

  /** After a hit: timeSinceHit restarts, and a ball faster than MAX_BALL_SPEED
      is scaled back to exactly that speed in the same direction. */
  function LimitSpeed(s: State, sqrt: real -> real): (r: State)
  {
    Rescaled(s.(timeSinceHit := 0.0), sqrt(SpeedSquared(s)))
  }

  /** vx * vx + vy * vy, the argument of the sqrt call. */
  function SpeedSquared(s: State): real {
    s.ballVelX * s.ballVelX + s.ballVelY * s.ballVelY
  }

  /** Restarting the clock leaves the speed alone. */
  lemma SpeedIgnoresClock(s: State, t: real)
    ensures SpeedSquared(s.(timeSinceHit := t)) == SpeedSquared(s)
  {
    var r := s.(timeSinceHit := t);
    assert r.ballVelX == s.ballVelX && r.ballVelY == s.ballVelY;
  }

  /** The velocity scaled down to MAX_BALL_SPEED when speed exceeds it. */
  function Rescaled(s: State, speed: real): (r: State)
  {
    if speed > MaxBallSpeed then
      s.(ballVelX := s.ballVelX / speed * MaxBallSpeed, ballVelY := s.ballVelY / speed * MaxBallSpeed)
    else s
  }

  /** The ball is no faster than MAX_BALL_SPEED (compared squared). */
  predicate WithinSpeedLimit(s: State) {
    SpeedSquared(s) <= MaxBallSpeed * MaxBallSpeed
  }

  /** The speed limit holds after it is applied, and the ball keeps its
      horizontal direction. */
  lemma SpeedLimited(s: State, sqrt: real -> real)
    requires IsSqrt(sqrt)
    ensures var r := LimitSpeed(s, sqrt);
            WithinSpeedLimit(r) &&
            (s.ballVelX >= 0.0 ==> r.ballVelX >= 0.0) && (s.ballVelX <= 0.0 ==> r.ballVelX <= 0.0)
  {
    var d := SpeedSquared(s);
    SquareNonNegative(s.ballVelX);
    SquareNonNegative(s.ballVelY);
    SqrtSquared(sqrt, d);
    RescaledBound(s.(timeSinceHit := 0.0), sqrt(d));
    SameVelocity(Rescaled(s.(timeSinceHit := 0.0), sqrt(d)), LimitSpeed(s, sqrt));
  }

  lemma SameVelocity(q: State, r: State)
    requires WithinSpeedLimit(q) && r.ballVelX == q.ballVelX && r.ballVelY == q.ballVelY
    ensures WithinSpeedLimit(r)
  {
  }

  /** Rescaling by the true speed bounds the speed and keeps the direction. */
  lemma RescaledBound(s: State, speed: real)
    requires speed >= 0.0 && speed * speed == SpeedSquared(s)
    ensures var r := Rescaled(s, speed);
            WithinSpeedLimit(r) &&
            (s.ballVelX >= 0.0 ==> r.ballVelX >= 0.0) && (s.ballVelX <= 0.0 ==> r.ballVelX <= 0.0)
  {
    var vx, vy := s.ballVelX, s.ballVelY;
    if speed > MaxBallSpeed {
      var k := MaxBallSpeed / speed;
      ScaleByRatio(vx, speed, MaxBallSpeed);
      ScaleByRatio(vy, speed, MaxBallSpeed);
      Rescale(vx, vy, speed, MaxBallSpeed);
      SignOfScaled(vx, k);
    } else {
      MonotoneSquare(speed, MaxBallSpeed);
    }
  }

  lemma ScaleByRatio(v: real, d: real, m: real)
    requires d != 0.0
    ensures v / d * m == v * (m / d)
  {
  }

  /** speed is the length of (vx, vy); scaling by m / speed gives length m. */
  lemma Rescale(vx: real, vy: real, speed: real, m: real)
    requires speed > m > 0.0 && speed * speed == vx * vx + vy * vy
    ensures var k := m / speed;
            (vx * k) * (vx * k) + (vy * k) * (vy * k) == m * m && k > 0.0
  {
    var k := m / speed;
    assert speed * k == m;
    calc {
      (vx * k) * (vx * k) + (vy * k) * (vy * k);
      (vx * vx + vy * vy) * (k * k);
      (speed * speed) * (k * k);
      (speed * k) * (speed * k);
      m * m;
    }
  }

  lemma SignOfScaled(a: real, k: real)
    requires k > 0.0
    ensures a >= 0.0 ==> a * k >= 0.0
    ensures a <= 0.0 ==> a * k <= 0.0
  {
  }

  lemma MonotoneSquare(u: real, v: real)
    requires 0.0 <= u <= v
    ensures u * u <= v * v
  {
    if u < v {
      SquareGrows(v, u);
    }
  }

  /** Both paddle checks of updateGame and, on a hit, the speed limit. The
      right-paddle check runs after a left hit has moved the ball to x = 30,
      where it cannot succeed, so at most one paddle returns the ball. */
  function Deflect(s: State, sqrt: real -> real): (r: State)
    ensures !Hit(s) ==> r == s
    ensures HitsLeft(s) ==> r.ballX == 30.0
    ensures HitsRight(s) ==> r.ballX == Width - 30.0
    ensures Hit(s) ==> r.timeSinceHit == 0.0
    ensures r == s.(ballX := r.ballX, ballVelX := r.ballVelX, ballVelY := r.ballVelY, timeSinceHit := r.timeSinceHit)
  {
    if HitsLeft(s) then LimitSpeed(LeftReturn(s), sqrt)
    else if HitsRight(s) then LimitSpeed(RightReturn(s), sqrt)
    else s
  }

  /** A returned ball travels away from the paddle that returned it, no faster
      than MAX_BALL_SPEED. */
  lemma {:induction false} ReturnedBall(s: State, sqrt: real -> real)
    requires IsSqrt(sqrt) && Hit(s)
    ensures var r := Deflect(s, sqrt);
            (HitsLeft(s) ==> r.ballVelX >= 0.0) && (!HitsLeft(s) ==> r.ballVelX <= 0.0) &&
            WithinSpeedLimit(r)
  {
    if HitsLeft(s) {
      SpeedLimited(LeftReturn(s), sqrt);
    } else {
      SpeedLimited(RightReturn(s), sqrt);
    }
  }

  /** The paddle sound and 30 particles at the ball, which has been moved onto
      the paddle face by then. */
  function PaddleEvent(s: State): Option<Event> {
    if HitsLeft(s) then Some(Event(PaddleSound, 30.0, s.ballY, 30))
    else if HitsRight(s) then Some(Event(PaddleSound, Width - 30.0, s.ballY, 30))
    else None
  }

  predicate OutLeft(s: State) {
    s.ballX < 0.0
  }

  predicate OutRight(s: State) {
    !OutLeft(s) && s.ballX > Width
  }

  /** The ball past the left edge scores for the right player and is served to
      the right; past the right edge, the other way round. */
  function Score(s: State, roll: nat): (r: State)
    ensures OutLeft(s) ==> r.rightScore == s.rightScore + 1 && r.leftScore == s.leftScore
                           && r.paused && r.ballVelX == InitialBallSpeed
    ensures OutRight(s) ==> r.leftScore == s.leftScore + 1 && r.rightScore == s.rightScore
                            && r.paused && r.ballVelX == -InitialBallSpeed
    ensures !OutLeft(s) && !OutRight(s) ==> r == s
    ensures r.leftPaddleY == s.leftPaddleY && r.rightPaddleY == s.rightPaddleY
  {
    if OutLeft(s) then Reset(s.(rightScore := s.rightScore + 1), true, roll)
    else if OutRight(s) then Reset(s.(leftScore := s.leftScore + 1), false, roll)
    else s
  }

  /** The score sound and 100 particles at a quarter of the width from the
      scoring side's goal (WIDTH / 4 and 3 * WIDTH / 4 in integer arithmetic). */
  function ScoreEvent(s: State): Option<Event> {
    if OutLeft(s) then Some(Event(ScoreSound, 320.0, 360.0, 100))
    else if OutRight(s) then Some(Event(ScoreSound, 960.0, 360.0, 100))
    else None
  }

  /** updateGame(deltaTime), with clock the value glfwGetTime() returns and
      serveRoll the value rand() returns if the ball is served again. A paused
      game only waits for the clock to pass one second. */
  function Tick(s: State, dt: real, clock: real, sqrt: real -> real, serveRoll: nat): (r: State)
    ensures s.paused ==> r == s.(paused := !(clock > 1.0))
    ensures r.leftPaddleY == s.leftPaddleY && r.rightPaddleY == s.rightPaddleY
  {
    if s.paused then
      if clock > 1.0 then s.(paused := false) else s
    else
      var moved := Integrate(s, dt);
      var bounced := Bounce(moved);
      var deflected := Deflect(bounced, sqrt);
      Score(deflected, serveRoll)
  }

  /** r is the state one updateGame leaves when it starts from s, with
      drawn values of rand() already used up before it. */
  predicate Advanced(s: State, dt: real, clock: real, sqrt: real -> real, rolls: nat -> nat, drawn: nat, r: State) {
    r == Tick(s, dt, clock, sqrt, rolls(drawn + 4 * TickCount(TickEffects(s, dt, sqrt))))
  }

  /** The sounds played and particle bursts made by one updateGame. */
  function TickEffects(s: State, dt: real, sqrt: real -> real): Effects {
    if s.paused then Effects(None, None, None)
    else
      var moved := Integrate(s, dt);
      var bounced := Bounce(moved);
      Effects(WallEvent(moved), PaddleEvent(bounced), ScoreEvent(Deflect(bounced, sqrt)))
  }

  /** The rand() calls one updateGame makes: four per particle, and one more
      when a point is scored and the ball is served again. */
  function Draws(s: State, dt: real, sqrt: real -> real): nat {
    var fx := TickEffects(s, dt, sqrt);
    4 * TickCount(fx) + (if fx.score.Some? then 1 else 0)
  }

  /** Each block fires exactly when its condition holds: the wall block when
      the moved ball is at a wall, the paddle block when the bounced ball
      meets a paddle, and the scoring block exactly when the tick ends paused
      for a new serve. */
  lemma {:induction false} EffectsFollowState(s: State, dt: real, clock: real, sqrt: real -> real, serveRoll: nat)
    requires !s.paused
    ensures var fx, moved := TickEffects(s, dt, sqrt), Integrate(s, dt);
            (fx.wall.Some? <==> AtWall(moved)) &&
            (fx.paddle.Some? <==> Hit(Bounce(moved))) &&
            (fx.score.Some? <==> Tick(s, dt, clock, sqrt, serveRoll).paused)
  {
    var deflected := Deflect(Bounce(Integrate(s, dt)), sqrt);
    assert !deflected.paused;
  }

  /** A tick scores at most one point, by one, for the player the ball passed;
      scores never go down. */
  lemma {:induction false} ScoresInOneTick(s: State, dt: real, clock: real, sqrt: real -> real, serveRoll: nat)
    ensures var r := Tick(s, dt, clock, sqrt, serveRoll);
            s.leftScore <= r.leftScore <= s.leftScore + 1 &&
            s.rightScore <= r.rightScore <= s.rightScore + 1 &&
            r.leftScore + r.rightScore <= s.leftScore + s.rightScore + 1
  {
    if !s.paused {
      var deflected := Deflect(Bounce(Integrate(s, dt)), sqrt);
      assert deflected.leftScore == s.leftScore && deflected.rightScore == s.rightScore;
    }
  }

  /** A tick on which a paddle returns the ball never scores: the return puts
      the ball on the paddle face, inside the court. */
  lemma {:induction false} HitNeverScores(s: State, dt: real, clock: real, sqrt: real -> real, serveRoll: nat)
    requires !s.paused && Hit(Bounce(Integrate(s, dt)))
    ensures var r := Tick(s, dt, clock, sqrt, serveRoll);
            r.leftScore == s.leftScore && r.rightScore == s.rightScore && !r.paused
  {
    var bounced := Bounce(Integrate(s, dt));
    var deflected := Deflect(bounced, sqrt);
    assert deflected.ballX == 30.0 || deflected.ballX == Width - 30.0;
    assert !OutLeft(deflected) && !OutRight(deflected);
  }

  /** A running tick keeps the ball between the walls; a scoring tick puts it
      back in the middle. */
  lemma {:induction false} BallStaysInCourt(s: State, dt: real, clock: real, sqrt: real -> real, serveRoll: nat)
    requires !s.paused
    ensures 0.0 <= Tick(s, dt, clock, sqrt, serveRoll).ballY <= Height
  {
    var bounced := Bounce(Integrate(s, dt));
    assert Deflect(bounced, sqrt).ballY == bounced.ballY;
  }

  /** The game is paused only right after a serve: a paused state has
      timeSinceHit == 0, and a tick keeps it so. This is why the space key's
      guard (paused and more than 0.5 s since the last hit) can never hold. */
  ghost predicate Serving(s: State) {
    s.paused ==> s.timeSinceHit == 0.0
  }

  lemma {:induction false} TickKeepsServing(s: State, dt: real, clock: real, sqrt: real -> real, serveRoll: nat)
    requires Serving(s)
    ensures Serving(Tick(s, dt, clock, sqrt, serveRoll))
  {
    if !s.paused {
      var deflected := Deflect(Bounce(Integrate(s, dt)), sqrt);
      assert !deflected.paused;
    }
  }

  // ---------------------------------------------------------------------
  // Particles

  /** The particle createParticles makes from four successive rand() values
      rolls(at) .. rolls(at + 3): velocity, velocity, life, colour mix. */
  function NewParticle(x: real, y: real, c1: Rgb, c2: Rgb, rolls: nat -> nat, at: nat): Particle
  {
    Particle(x, y, Velocity(rolls(at)), Velocity(rolls(at + 1)), Life(rolls(at + 2)),
             Blend(c1.r, c2.r, Weight(rolls(at + 3))), Blend(c1.g, c2.g, Weight(rolls(at + 3))),
             Blend(c1.b, c2.b, Weight(rolls(at + 3))))
  }

  /** (rand() % 200 - 100) / 10.0f: a velocity component. */
  function Velocity(roll: nat): real {
    ((roll % 200) as int - 100) as real / 10.0
  }

  /** 0.5f + (rand() % 100) / 100.0f: the initial life. */
  function Life(roll: nat): real {
    0.5 + (roll % 100) as real / 100.0
  }

  /** (rand() % 100) / 100.0f: the weight of the first theme colour. */
  function Weight(roll: nat): real {
    (roll % 100) as real / 100.0
  }

  /** The colour channel a * t + b * (1 - t). */
  function Blend(a: real, b: real, t: real): real {
    a * t + b * (1.0 - t)
  }

  /** A new particle starts at (x, y) with life in [0.5, 1.49], velocity
      components in [-10, 9.9] and each colour channel between the two theme
      colours. */
  lemma NewParticleInRange(x: real, y: real, c1: Rgb, c2: Rgb, rolls: nat -> nat, at: nat)
    ensures var p := NewParticle(x, y, c1, c2, rolls, at);
            p.x == x && p.y == y &&
            -10.0 <= p.velX <= 9.9 && -10.0 <= p.velY <= 9.9 &&
            0.5 <= p.life <= 1.49 &&
            Between(p.r, c1.r, c2.r) && Between(p.g, c1.g, c2.g) && Between(p.b, c1.b, c2.b)
  {
    var t := Weight(rolls(at + 3));
    Mix(c1.r, c2.r, t);
    Mix(c1.g, c2.g, t);
    Mix(c1.b, c2.b, t);
  }

  /** v lies between a and b, in either order. */
  predicate Between(v: real, a: real, b: real) {
    (a <= v <= b) || (b <= v <= a)
  }

  lemma Mix(a: real, b: real, t: real)
    requires 0.0 <= t <= 1.0
    ensures Between(Blend(a, b, t), a, b)
  {
    var m := a - b;
    var w := t * m;
    assert a * t + b * (1.0 - t) == b + w;
    if m >= 0.0 {
      Fraction(t, m);
    } else {
      Fraction(t, -m);
      assert t * -m == -w;
    }
  }

  /** A fraction t of a non-negative m lies between 0 and m. */
  lemma Fraction(t: real, m: real)
    requires 0.0 <= t <= 1.0 && m >= 0.0
    ensures 0.0 <= t * m <= m
  {
    assert m - t * m == (1.0 - t) * m;
  }

  /** The count particles createParticles appends, particle i made from the
      four rand() values rolls(from + 4 * i) .. rolls(from + 4 * i + 3). */
  function Spawned(x: real, y: real, c1: Rgb, c2: Rgb, rolls: nat -> nat, from: nat, count: nat): (ps: seq<Particle>)
    ensures |ps| == count
  {
    seq(count, i requires 0 <= i => NewParticle(x, y, c1, c2, rolls, from + 4 * i))
  }

  /** One more pass of the loop appends one particle, made from the next four
      rand() values, to whatever the vector held before. */
  lemma SpawnedStep(before: seq<Particle>, x: real, y: real, c1: Rgb, c2: Rgb, rolls: nat -> nat, from: nat, count: nat)
    ensures before + Spawned(x, y, c1, c2, rolls, from, count) + [NewParticle(x, y, c1, c2, rolls, from + 4 * count)] ==
            before + Spawned(x, y, c1, c2, rolls, from, count + 1)
  {
    var longer, shorter := Spawned(x, y, c1, c2, rolls, from, count + 1), Spawned(x, y, c1, c2, rolls, from, count);
    assert forall i :: 0 <= i < count ==> longer[i] == shorter[i];
    assert longer == shorter + [NewParticle(x, y, c1, c2, rolls, from + 4 * count)];
  }

  /** Every spawned particle starts at (x, y), alive, slow, and coloured between
      the two theme colours. */
  lemma SpawnedInRange(x: real, y: real, c1: Rgb, c2: Rgb, rolls: nat -> nat, from: nat, count: nat)
    ensures forall p :: p in Spawned(x, y, c1, c2, rolls, from, count) ==>
              p.x == x && p.y == y && 0.5 <= p.life <= 1.49 &&
              -10.0 <= p.velX <= 9.9 && -10.0 <= p.velY <= 9.9 &&
              Between(p.r, c1.r, c2.r) && Between(p.g, c1.g, c2.g) && Between(p.b, c1.b, c2.b)
  {
    forall i | 0 <= i < count {
      NewParticleInRange(x, y, c1, c2, rolls, from + 4 * i);
    }
  }

  /** The particles an event spawns. */
  function Count(o: Option<Event>): nat {
    if o.Some? then o.value.count else 0
  }

  /** The burst an event spawns, drawing rand() from rolls(from) on. */
  function Burst(o: Option<Event>, c1: Rgb, c2: Rgb, rolls: nat -> nat, from: nat): (ps: seq<Particle>)
    ensures |ps| == Count(o)
  {
    if o.Some? then Spawned(o.value.x, o.value.y, c1, c2, rolls, from, o.value.count) else []
  }

  function Played(o: Option<Event>): seq<Sound> {
    if o.Some? then [o.value.sound] else []
  }

  function TickCount(fx: Effects): nat {
    Count(fx.wall) + Count(fx.paddle) + Count(fx.score)
  }

  /** The sounds of one updateGame, in the order its blocks run. */
  function TickSounds(fx: Effects): seq<Sound> {
    Played(fx.wall) + Played(fx.paddle) + Played(fx.score)
  }

  /** The particles of one updateGame: the three bursts in the order its blocks
      run, each drawing rand() where the previous one stopped. */
  function TickParticles(fx: Effects, c1: Rgb, c2: Rgb, rolls: nat -> nat, from: nat): seq<Particle> {
    Burst(fx.wall, c1, c2, rolls, from) +
    Burst(fx.paddle, c1, c2, rolls, from + 4 * Count(fx.wall)) +
    Burst(fx.score, c1, c2, rolls, from + 4 * Count(fx.wall) + 4 * Count(fx.paddle))
  }

  /** From particles ps and sounds ss, the block that fires o leaves the
      particles qs and the sounds ts: its burst and its sound appended. */
  predicate Appended(ps: seq<Particle>, qs: seq<Particle>, ss: seq<Sound>, ts: seq<Sound>,
                     o: Option<Event>, c1: Rgb, c2: Rgb, rolls: nat -> nat, from: nat)
  {
    qs == ps + Burst(o, c1, c2, rolls, from) && ts == ss + Played(o)
  }

  /** The three blocks, each appending where the previous one left the
      particles, the sounds and the rand() stream, together append the sounds
      and the bursts of the whole call. */
  lemma {:induction false} StagesInOrder(fx: Effects, c1: Rgb, c2: Rgb, rolls: nat -> nat, from: nat,
                                         p0: seq<Particle>, p1: seq<Particle>, p2: seq<Particle>, p3: seq<Particle>,
                                         s0: seq<Sound>, s1: seq<Sound>, s2: seq<Sound>, s3: seq<Sound>)
    requires Appended(p0, p1, s0, s1, fx.wall, c1, c2, rolls, from)
    requires Appended(p1, p2, s1, s2, fx.paddle, c1, c2, rolls, from + 4 * Count(fx.wall))
    requires Appended(p2, p3, s2, s3, fx.score, c1, c2, rolls, from + 4 * Count(fx.wall) + 4 * Count(fx.paddle))
    ensures p3 == p0 + TickParticles(fx, c1, c2, rolls, from)
    ensures s3 == s0 + TickSounds(fx)
  {
    var b1 := Burst(fx.wall, c1, c2, rolls, from);
    var b2 := Burst(fx.paddle, c1, c2, rolls, from + 4 * Count(fx.wall));
    var b3 := Burst(fx.score, c1, c2, rolls, from + 4 * Count(fx.wall) + 4 * Count(fx.paddle));
    AppendThree(p0, p1, p2, p3, b1, b2, b3);
    AppendThree(s0, s1, s2, s3, Played(fx.wall), Played(fx.paddle), Played(fx.score));
  }

  /** Three appends in a row append the three pieces in order. */
  lemma AppendThree<T>(x0: seq<T>, x1: seq<T>, x2: seq<T>, x3: seq<T>, a: seq<T>, b: seq<T>, c: seq<T>)
    requires x1 == x0 + a && x2 == x1 + b && x3 == x2 + c
    ensures x3 == x0 + (a + b + c)
  {
    assert x0 + a + b + c == x0 + (a + b + c);
  }

  /** One updateGame spawns at most 150 particles, plays at most three sounds,
      and every particle it spawns starts alive and coloured between the two
      particle colours of the theme. */
  lemma {:induction false} TickParticlesInRange(s: State, dt: real, sqrt: real -> real, c1: Rgb, c2: Rgb, rolls: nat -> nat, from: nat)
    ensures var fx := TickEffects(s, dt, sqrt);
            |TickParticles(fx, c1, c2, rolls, from)| == TickCount(fx) <= 150 && |TickSounds(fx)| <= 3
    ensures forall p :: p in TickParticles(TickEffects(s, dt, sqrt), c1, c2, rolls, from) ==>
              0.5 <= p.life <= 1.49 && Between(p.r, c1.r, c2.r) && Between(p.g, c1.g, c2.g) && Between(p.b, c1.b, c2.b)
  {
    var fx := TickEffects(s, dt, sqrt);
    BurstInRange(fx.wall, c1, c2, rolls, from);
    BurstInRange(fx.paddle, c1, c2, rolls, from + 4 * Count(fx.wall));
    BurstInRange(fx.score, c1, c2, rolls, from + 4 * Count(fx.wall) + 4 * Count(fx.paddle));
  }

  lemma BurstInRange(o: Option<Event>, c1: Rgb, c2: Rgb, rolls: nat -> nat, from: nat)
    ensures forall p :: p in Burst(o, c1, c2, rolls, from) ==>
              0.5 <= p.life <= 1.49 && Between(p.r, c1.r, c2.r) && Between(p.g, c1.g, c2.g) && Between(p.b, c1.b, c2.b)
  {
    if o.Some? {
      SpawnedInRange(o.value.x, o.value.y, c1, c2, rolls, from, o.value.count);
    }
  }

  /** One particle after deltaTime: moved by its velocity, one deltaTime older. */
  function Move(p: Particle, dt: real): Particle {
    p.(x := p.x + p.velX * dt, y := p.y + p.velY * dt, life := p.life - dt)
  }

  /** Every particle moved and aged by deltaTime, in place. */
  function Aged(ps: seq<Particle>, dt: real): (r: seq<Particle>)
    ensures |r| == |ps|
  {
    seq(|ps|, i requires 0 <= i < |ps| => Move(ps[i], dt))
  }

  /** The particles remove_if keeps: those whose life is still above zero, in
      their original order. */
  function Survivors(ps: seq<Particle>): (kept: seq<Particle>)
    ensures forall p :: p in kept <==> p in ps && p.life > 0.0
    ensures |kept| <= |ps|
  {
    if |ps| == 0 then []
    else
      var last := ps[|ps| - 1];
      Survivors(ps[..|ps| - 1]) + (if last.life > 0.0 then [last] else [])
  }

  /** Filtering two runs of particles is filtering each: no survivor changes
      place relative to another. */
  lemma {:induction false} SurvivorsKeepOrder(a: seq<Particle>, b: seq<Particle>)
    ensures Survivors(a + b) == Survivors(a) + Survivors(b)
    decreases |b|
  {
    if |b| == 0 {
      assert a + b == a;
    } else {
      var n := |b|;
      assert (a + b)[..|a + b| - 1] == a + b[..n - 1];
      assert (a + b)[|a + b| - 1] == b[n - 1];
      SurvivorsKeepOrder(a, b[..n - 1]);
    }
  }

  /** Removal leaves a run of live particles as it is. */
  lemma {:induction false} AllAlive(ps: seq<Particle>)
    requires forall i :: 0 <= i < |ps| ==> ps[i].life > 0.0
    ensures Survivors(ps) == ps
    decreases |ps|
  {
    if |ps| > 0 {
      AllAlive(ps[..|ps| - 1]);
      assert ps[..|ps| - 1] + [ps[|ps| - 1]] == ps;
    }
  }

  /** A second removal finds nothing left to remove. */
  lemma SurvivorsIdempotent(ps: seq<Particle>)
    ensures Survivors(Survivors(ps)) == Survivors(ps)
  {
    var kept := Survivors(ps);
    assert forall i :: 0 <= i < |kept| ==> kept[i] in kept;
    AllAlive(kept);
  }

  // ---------------------------------------------------------------------
  // Paddles and themes

  /** std::max(60, std::min(HEIGHT - 60, y)): the paddle centre kept inside the court. */
  function ClampPaddle(y: real): (r: real)
    ensures 60.0 <= r <= Height - 60.0
    ensures 60.0 <= y <= Height - 60.0 ==> r == y
    ensures y < 60.0 ==> r == 60.0
    ensures y > Height - 60.0 ==> r == Height - 60.0
  {
    var capped := if Height - 60.0 < y then Height - 60.0 else y;
    if 60.0 < capped then capped else 60.0
  }

  /** A paddle centre after one frame of input: up by PADDLE_SPEED * deltaTime
      while the up key is held, down by as much while the down key is held. */
  function Steer(y: real, dt: real, up: bool, down: bool): (r: real)
    ensures up == down ==> r == y
    ensures up && !down ==> r == y - PaddleSpeed * dt
    ensures down && !up ==> r == y + PaddleSpeed * dt
  {
    var raised := if up then y - PaddleSpeed * dt else y;
    if down then raised + PaddleSpeed * dt else raised
  }

  /** The input block and the bounds block of main's loop: W and S steer the
      left paddle, the arrow keys the right one, and both are then clamped.
      Nothing else in the state moves, and the paddles end inside the court. */
  function Steered(s: State, dt: real, w: bool, sKey: bool, up: bool, down: bool): (r: State)
    ensures r.(leftPaddleY := s.leftPaddleY, rightPaddleY := s.rightPaddleY) == s
    ensures 60.0 <= r.leftPaddleY <= Height - 60.0 && 60.0 <= r.rightPaddleY <= Height - 60.0
    ensures !w && !sKey && 60.0 <= s.leftPaddleY <= Height - 60.0 ==> r.leftPaddleY == s.leftPaddleY
    ensures !up && !down && 60.0 <= s.rightPaddleY <= Height - 60.0 ==> r.rightPaddleY == s.rightPaddleY
  {
    s.(leftPaddleY := ClampPaddle(Steer(s.leftPaddleY, dt, w, sKey)),
       rightPaddleY := ClampPaddle(Steer(s.rightPaddleY, dt, up, down)))
  }

  /** The space key's block of keyCallback: a paused game resumes once more
      than half a second has passed since the last hit. While a serve is
      pending that clock stands at 0, so the key changes nothing. */
  function Serve(s: State): (r: State)
    ensures Serving(s) ==> r == s
    ensures r.(paused := s.paused) == s
    ensures r != s <==> s.paused && s.timeSinceHit > 0.5
  {
    if s.paused && s.timeSinceHit > 0.5 then s.(paused := false) else s
  }

  /** (currentThemeIndex + 1) % themes.size(). */
  function NextTheme(i: int): (r: int)
    requires 0 <= i < |Themes|
    ensures 0 <= r < |Themes| && r != i
  {
    (i + 1) % |Themes|
  }

  /** Three presses of T come back to the theme they started from, having shown
      each of the three. */
  lemma ThemesCycle(i: int)
    requires 0 <= i < |Themes|
    ensures NextTheme(NextTheme(NextTheme(i))) == i
    ensures {i, NextTheme(i), NextTheme(NextTheme(i))} == {0, 1, 2}
  {
  }
}
