/** The globals of src/game.cpp and the functions that update them in place:
    gameState, the particles vector, the current theme, the window's close flag,
    the sounds played and the position in the rand() stream. The rules these
    methods follow are the functions of module PongRules; each method is proved
    to leave the globals as those functions say. */
module PongGame {
  import opened PongRules

  datatype Key = Escape | Space | KeyT | OtherKey
  datatype Action = Press | Release | Repeat

  class Game {
    var state: State
    var particles: seq<Particle>
    var theme: Theme
    var themeIndex: int
    var shouldClose: bool
    /** The buffers handed to playSound, in order. */
    var sounds: seq<Sound>
    /** How many values rand() has returned so far. */
    var drawn: nat
    /** The clock reading of the previous frame. */
    var lastTime: real
    /** The values rand() returns, in order, after srand. */
    const rolls: nat -> nat
    /** The sqrt of the C library. */
    const sqrt: real -> real

    /** The current theme is the one currentThemeIndex selects, the paddles
        are inside the court, and the game pauses only when a ball is served. */
    ghost predicate Valid()
      reads this
    {
      0 <= themeIndex < |Themes| && theme == Themes[themeIndex] &&
      60.0 <= state.leftPaddleY <= Height - 60.0 && 60.0 <= state.rightPaddleY <= Height - 60.0 &&
      Serving(state)
    }

    /** The sounds played and the particles created since the old state are
        those of the event, drawing rand() from where the old state stood. */
    twostate predicate Emitted(o: Option<Event>)
      reads this
    {
      Appended(old(particles), particles, old(sounds), sounds, o, theme.particle1, theme.particle2, rolls, old(drawn))
    }

    /** The start of main: the first theme, then resetBall(true), then the
        first clock reading. */
    constructor(rolls: nat -> nat, sqrt: real -> real, startTime: real)
      ensures Valid()
      ensures state == Reset(Initial, true, rolls(0)) && drawn == 1
      ensures particles == [] && sounds == [] && themeIndex == 0 && !shouldClose && lastTime == startTime
      ensures this.rolls == rolls && this.sqrt == sqrt
    {
      this.rolls := rolls;
      this.sqrt := sqrt;
      state := Initial;
      particles := [];
      themeIndex := 0;
      theme := Themes[0];
      shouldClose := false;
      sounds := [];
      drawn := 0;
      lastTime := startTime;
      new;
      ResetBall(true);
    }

    /** rand(): the next value of the stream. */
    method Rand() returns (v: nat)
      modifies this`drawn
      ensures v == rolls(old(drawn)) && drawn == old(drawn) + 1
    {
      v := rolls(drawn);
      drawn := drawn + 1;
    }

    method PlaySound(sound: Sound)
      modifies this`sounds
      ensures sounds == old(sounds) + [sound]
    {
      sounds := sounds + [sound];
    }

    /** createParticles: count particles pushed onto the vector, each made from
        four rand() values. */
    method CreateParticles(x: real, y: real, count: nat, c1: Rgb, c2: Rgb)
      modifies this`particles, this`drawn
      ensures particles == old(particles) + Spawned(x, y, c1, c2, rolls, old(drawn), count)
      ensures drawn == old(drawn) + 4 * count
    {
      var i := 0;
      while i < count
        invariant 0 <= i <= count
        invariant particles == old(particles) + Spawned(x, y, c1, c2, rolls, old(drawn), i)
        invariant drawn == old(drawn) + 4 * i
      {
        var p := MakeParticle(x, y, c1, c2);
        SpawnedStep(old(particles), x, y, c1, c2, rolls, old(drawn), i);
        particles := particles + [p];
        i := i + 1;
      }
    }

    /** The body of the loop of createParticles: one particle at (x, y) from
        the next four rand() values. */
    method MakeParticle(x: real, y: real, c1: Rgb, c2: Rgb) returns (p: Particle)
      modifies this`drawn
      ensures p == NewParticle(x, y, c1, c2, rolls, old(drawn)) && drawn == old(drawn) + 4
    {
      var velX := Rand();
      var velY := Rand();
      var life := Rand();
      var mix := Rand();
      var t := Weight(mix);
      p := Particle(x, y, Velocity(velX), Velocity(velY), Life(life),
                    Blend(c1.r, c2.r, t), Blend(c1.g, c2.g, t), Blend(c1.b, c2.b, t));
    }

    /** updateParticles: every particle moves and ages in place, then the dead
        ones are erased, the others keeping their order. */
    method UpdateParticles(dt: real)
      modifies this`particles
      ensures particles == Survivors(Aged(old(particles), dt))
    {
      MoveParticles(dt);
      EraseDead();
    }

    /** The for loop of updateParticles. */
    method MoveParticles(dt: real)
      modifies this`particles
      ensures particles == Aged(old(particles), dt)
    {
      var i := 0;
      while i < |particles|
        invariant 0 <= i <= |particles| == |old(particles)|
        invariant forall j :: 0 <= j < i ==> particles[j] == Move(old(particles)[j], dt)
        invariant forall j :: i <= j < |particles| ==> particles[j] == old(particles)[j]
      {
        particles := particles[i := Move(particles[i], dt)];
        i := i + 1;
      }
    }

    /** The erase-remove_if of updateParticles. */
    method EraseDead()
      modifies this`particles
      ensures particles == Survivors(old(particles))
    {
      var kept := [];
      var i := 0;
      while i < |particles|
        invariant 0 <= i <= |particles|
        invariant kept == Survivors(particles[..i])
      {
        assert particles[..i + 1][..i] == particles[..i];
        if particles[i].life > 0.0 {
          kept := kept + [particles[i]];
        }
        i := i + 1;
      }
      assert particles[..i] == particles;
      particles := kept;
    }

    /** resetBall(serveToRight). */
    method ResetBall(serveToRight: bool)
      modifies this`state, this`drawn
      ensures state == Reset(old(state), serveToRight, rolls(old(drawn))) && drawn == old(drawn) + 1
    {
      state := state.(ballX := Width / 2.0, ballY := Height / 2.0);
      state := state.(ballVelX := if serveToRight then InitialBallSpeed else -InitialBallSpeed);
      var roll := Rand();
      state := state.(ballVelY := ((roll % 200) as int - 100) as real / 100.0 * InitialBallSpeed * 0.5);
      state := state.(paused := true);
      state := state.(timeSinceHit := 0.0);
    }

    /** The wall block of updateGame. */
    method WallCollision() returns (ghost fired: Option<Event>)
      modifies this`state, this`particles, this`sounds, this`drawn
      ensures state == Bounce(old(state)) && fired == WallEvent(old(state))
      ensures Emitted(fired) && drawn == old(drawn) + 4 * Count(fired)
    {
      fired := WallEvent(state);
      if state.ballY <= 0.0 || state.ballY >= Height {
        state := state.(ballVelY := -state.ballVelY);
        state := state.(ballY := if state.ballY <= 0.0 then 0.0 else Height);
        PlaySound(WallSound);
        CreateParticles(state.ballX, state.ballY, 20, theme.particle1, theme.particle2);
      }
    }

    /** The paddle blocks of updateGame: both checks, then the sound, the
        particles and the speed limit when either hit. */
    method PaddleCollision() returns (ghost fired: Option<Event>)
      modifies this`state, this`particles, this`sounds, this`drawn
      ensures state == Deflect(old(state), sqrt) && fired == PaddleEvent(old(state))
      ensures Emitted(fired) && drawn == old(drawn) + 4 * Count(fired)
    {
      fired := PaddleEvent(state);
      var hit := CheckPaddles();
      if hit {
        assert PaddleEvent(old(state)) == Some(Event(PaddleSound, state.ballX, state.ballY, 30));
        PaddleHit();
      }
    }

    /** The left check, then the right check on the possibly updated ball. */
    method CheckPaddles() returns (hit: bool)
      modifies this`state
      ensures hit == Hit(old(state))
      ensures state == if HitsLeft(old(state)) then LeftReturn(old(state))
                       else if HitsRight(old(state)) then RightReturn(old(state)) else old(state)
    {
      hit := false;
      if state.ballX <= 30.0 && state.ballX >= 20.0 &&
         state.ballY >= state.leftPaddleY - 60.0 && state.ballY <= state.leftPaddleY + 60.0 {
        var hitPos := (state.ballY - state.leftPaddleY) / 60.0;
        state := state.(ballVelX := Abs(state.ballVelX) * BallAcceleration);
        state := state.(ballVelY := hitPos * PaddleSpeed * 0.8);
        state := state.(ballX := 30.0);
        hit := true;
      }
      if state.ballX >= Width - 30.0 && state.ballX <= Width - 20.0 &&
         state.ballY >= state.rightPaddleY - 60.0 && state.ballY <= state.rightPaddleY + 60.0 {
        var hitPos := (state.ballY - state.rightPaddleY) / 60.0;
        state := state.(ballVelX := -Abs(state.ballVelX) * BallAcceleration);
        state := state.(ballVelY := hitPos * PaddleSpeed * 0.8);
        state := state.(ballX := Width - 30.0);
        hit := true;
      }
    }

    /** The if (hit) block: the paddle sound, 30 particles at the ball, the
        restart of timeSinceHit and the speed limit. */
    method PaddleHit()
      modifies this`state, this`particles, this`sounds, this`drawn
      ensures state == LimitSpeed(old(state), sqrt)
      ensures sounds == old(sounds) + [PaddleSound] && drawn == old(drawn) + 4 * 30
      ensures particles == old(particles) +
                           Spawned(old(state).ballX, old(state).ballY, theme.particle1, theme.particle2, rolls, old(drawn), 30)
    {
      PlaySound(PaddleSound);
      CreateParticles(state.ballX, state.ballY, 30, theme.particle1, theme.particle2);
      state := state.(timeSinceHit := 0.0);
      SpeedIgnoresClock(old(state), 0.0);
      LimitBallSpeed();
    }

    /** Limit ball speed: a ball faster than MAX_BALL_SPEED has both velocity
        components scaled by MAX_BALL_SPEED / speed. */
    method LimitBallSpeed()
      modifies this`state
      ensures state == Rescaled(old(state), sqrt(SpeedSquared(old(state))))
    {
      var speed := sqrt(SpeedSquared(state));
      if speed > MaxBallSpeed {
        state := state.(ballVelX := state.ballVelX / speed * MaxBallSpeed);
        state := state.(ballVelY := state.ballVelY / speed * MaxBallSpeed);
      }
    }

    /** The scoring blocks of updateGame: past the left edge the right player
        scores, past the right edge the left player. */
    method OutOfBounds() returns (ghost fired: Option<Event>)
      modifies this`state, this`particles, this`sounds, this`drawn
      ensures state == Score(old(state), rolls(old(drawn) + 4 * Count(fired))) && fired == ScoreEvent(old(state))
      ensures Emitted(fired) && drawn == old(drawn) + 4 * Count(fired) + (if fired.Some? then 1 else 0)
    {
      fired := ScoreEvent(state);
      if state.ballX < 0.0 {
        ScorePoint(true);
      } else if state.ballX > Width {
        ScorePoint(false);
      }
    }

    /** One scoring block: the point, the score sound, 100 particles a quarter
        of the court from the goal of the player who scored, and a serve
        towards that player (resetBall(true) when the right player scored). */
    method ScorePoint(rightPlayer: bool)
      requires if rightPlayer then OutLeft(state) else OutRight(state)
      modifies this`state, this`particles, this`sounds, this`drawn
      ensures state == Score(old(state), rolls(old(drawn) + 4 * 100))
      ensures Emitted(ScoreEvent(old(state))) && drawn == old(drawn) + 4 * 100 + 1
    {
      var x: real;
      if rightPlayer {
        state := state.(rightScore := state.rightScore + 1);
        x := Width / 4.0;
      } else {
        state := state.(leftScore := state.leftScore + 1);
        x := 3.0 * Width / 4.0;
      }
      assert ScoreEvent(old(state)) == Some(Event(ScoreSound, x, Height / 2.0, 100));
      PlaySound(ScoreSound);
      CreateParticles(x, Height / 2.0, 100, theme.particle1, theme.particle2);
      ResetBall(rightPlayer);
    }

    /** updateGame(deltaTime), with clock the value glfwGetTime() returns. */
    method UpdateGame(dt: real, clock: real) returns (ghost fx: Effects)
      requires Valid()
      modifies this`state, this`particles, this`sounds, this`drawn
      ensures Valid()
      ensures fx == TickEffects(old(state), dt, sqrt)
      ensures Advanced(old(state), dt, clock, sqrt, rolls, old(drawn), state)
      ensures sounds == old(sounds) + TickSounds(fx)
      ensures particles == old(particles) + TickParticles(fx, theme.particle1, theme.particle2, rolls, old(drawn))
      ensures drawn == old(drawn) + Draws(old(state), dt, sqrt)
    {
      fx := TickEffects(state, dt, sqrt);
      if state.paused {
        if clock > 1.0 {
          state := state.(paused := false);
        }
        return;
      }
      fx := Run(dt);
      TickKeepsServing(old(state), dt, clock, sqrt, rolls(old(drawn) + 4 * TickCount(fx)));
    }

    /** The part of updateGame after the pause check: the clock and the ball
        advance, then the wall, paddle and scoring blocks run in turn. */
    method Run(dt: real) returns (ghost fx: Effects)
      requires !state.paused
      modifies this`state, this`particles, this`sounds, this`drawn
      ensures fx == TickEffects(old(state), dt, sqrt)
      ensures state == Score(Deflect(Bounce(Integrate(old(state), dt)), sqrt), rolls(old(drawn) + 4 * TickCount(fx)))
      ensures sounds == old(sounds) + TickSounds(fx)
      ensures particles == old(particles) + TickParticles(fx, theme.particle1, theme.particle2, rolls, old(drawn))
      ensures drawn == old(drawn) + 4 * TickCount(fx) + (if fx.score.Some? then 1 else 0)
    {
      state := state.(timeSinceHit := state.timeSinceHit + dt);
      state := state.(ballX := state.ballX + state.ballVelX * dt);
      state := state.(ballY := state.ballY + state.ballVelY * dt);
      assert state == Integrate(old(state), dt);
      ghost var c1, c2, p0, s0, d0 := theme.particle1, theme.particle2, particles, sounds, drawn;
      var wall := WallCollision();
      ghost var p1, s1 := particles, sounds;
      var paddle := PaddleCollision();
      ghost var p2, s2 := particles, sounds;
      var score := OutOfBounds();
      fx := Effects(wall, paddle, score);
      StagesInOrder(fx, c1, c2, rolls, d0, p0, p1, p2, particles, s0, s1, s2, sounds);
    }

    /** keyCallback for one key event: Escape closes the window, Space may end
        a pause, T moves to the next theme. */
    method KeyCallback(key: Key, action: Action)
      requires 0 <= themeIndex < |Themes|
      modifies this`shouldClose, this`state, this`themeIndex, this`theme
      ensures shouldClose == (old(shouldClose) || (key == Escape && action == Press))
      ensures state == (if key == Space && action == Press then Serve(old(state)) else old(state))
      ensures themeIndex == (if key == KeyT && action == Press then NextTheme(old(themeIndex)) else old(themeIndex))
      ensures theme == (if key == KeyT && action == Press then Themes[themeIndex] else old(theme))
      ensures old(Valid()) ==> Valid() && state == old(state)
    {
      if key == Escape && action == Press {
        shouldClose := true;
      }
      if key == Space && action == Press {
        if state.paused && state.timeSinceHit > 0.5 {
          state := state.(paused := false);
        }
      }
      if key == KeyT && action == Press {
        themeIndex := (themeIndex + 1) % |Themes|;
        theme := Themes[themeIndex];
      }
    }

    /** The input and bounds blocks of main's loop, with the state of the W,
        S, Up and Down keys. */
    method MovePaddles(dt: real, w: bool, s: bool, up: bool, down: bool)
      modifies this`state
      ensures state == Steered(old(state), dt, w, s, up, down)
      ensures old(Valid()) ==> Valid()
    {
      var left, right := state.leftPaddleY, state.rightPaddleY;
      if w {
        left := left - PaddleSpeed * dt;
      }
      if s {
        left := left + PaddleSpeed * dt;
      }
      if up {
        right := right - PaddleSpeed * dt;
      }
      if down {
        right := right + PaddleSpeed * dt;
      }
      state := state.(leftPaddleY := ClampPaddle(left), rightPaddleY := ClampPaddle(right));
    }

    /** One pass of main's loop before render(): deltaTime from the clock
        reading now, the paddles, updateGame(deltaTime), then
        updateParticles(deltaTime). clock is what glfwGetTime() returns inside
        updateGame. */
    method Frame(now: real, clock: real, w: bool, s: bool, up: bool, down: bool)
      returns (dt: real, ghost moved: State, ghost fx: Effects)
      requires Valid()
      modifies this`state, this`particles, this`sounds, this`drawn, this`lastTime
      ensures Valid()
      ensures dt == now - old(lastTime) && lastTime == now
      ensures moved == Steered(old(state), dt, w, s, up, down)
      ensures fx == TickEffects(moved, dt, sqrt)
      ensures Advanced(moved, dt, clock, sqrt, rolls, old(drawn), state)
      ensures sounds == old(sounds) + TickSounds(fx)
      ensures particles == Survivors(Aged(old(particles) + TickParticles(fx, theme.particle1, theme.particle2, rolls, old(drawn)), dt))
      ensures drawn == old(drawn) + Draws(moved, dt, sqrt)
    {
      dt := now - lastTime;
      lastTime := now;
      MovePaddles(dt, w, s, up, down);
      moved := state;
      fx := Update(dt, clock);
    }

    /** updateGame(deltaTime) followed by updateParticles(deltaTime). */
    method Update(dt: real, clock: real) returns (ghost fx: Effects)
      requires Valid()
      modifies this`state, this`particles, this`sounds, this`drawn
      ensures Valid()
      ensures fx == TickEffects(old(state), dt, sqrt)
      ensures Advanced(old(state), dt, clock, sqrt, rolls, old(drawn), state)
      ensures sounds == old(sounds) + TickSounds(fx)
      ensures particles == Survivors(Aged(old(particles) + TickParticles(fx, theme.particle1, theme.particle2, rolls, old(drawn)), dt))
      ensures drawn == old(drawn) + Draws(old(state), dt, sqrt)
    {
      fx := UpdateGame(dt, clock);
      UpdateParticles(dt);
    }
  }
}
