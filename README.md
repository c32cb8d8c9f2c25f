# OpenGL demos: verified model of the game and matrix code

This project models the parts of a collection of small OpenGL demos that
compute something, rather than draw it:

- **Ultra Pong** (`src/game.cpp`). `PongRules` models the rules of one
  `updateGame` call as functions on the `GameState` record:
  - integration, the wall bounce, the paddle returns, the speed limit and
    scoring;
  - `resetBall`;
  - the particle bursts of `createParticles` and the filtering of
    `updateParticles`;
  - the paddle input and clamping of the main loop;
  - the Space and T keys.

  `PongGame.Game` is a class holding the globals (`gameState`, `particles`,
  the current theme, the close flag, the sounds played and the position in
  the `rand()` stream). Its methods update those globals in place and are
  proved to leave them exactly as the `PongRules` functions say. It also
  keeps invariants: the current theme matches its index, the paddles stay
  inside the court, and the game pauses only right after a serve.
- **4x4 matrix helpers**, which appear in five copies:
  - `include/math_3d.c` (`Math3D`, together with the 3-vector functions);
  - `theme_launcher/src/mat4.h` (`ThemeMat4`);
  - `template/land.cpp` (`LandMatrix`);
  - `src/k/cube.cpp` (`KCube`);
  - `template/main.cpp` (`TemplateMain`).

  Each copy is an imperative method over the array the C code writes
  through. It is proved against one value-level specification, `Mat4Spec`,
  whose algebra is proved once: identity, associativity, transpose of a
  product, and composition of translations, scalings and Y rotations.
- **The cube geometry** of `src/k/cube.cpp` (36 triangle indices) and
  `template/main.cpp` (24 line indices). The model proves that every index
  is in range and that the draw count matches the buffer. It also proves
  that every triangle is a proper triangle lying in one face of the cube,
  and that every line is an edge of the cube.
- **The mouse-drag rotation** shared by `src/render_model.cpp` and
  `src/cube.cpp` (`MouseDrag`). The first cursor event latches the position;
  later events accumulate 0.3 times the deltas. A telescoping lemma shows
  that the accumulated rotation is 0.3 times the distance from the first
  position.
- **The macros of `include/dev_utils.h`** (`DevUtils`): `MAX`, `MIN`,
  `CLAMP`, the array-size macros, `ZERO_MEM` and `SAFE_DELETE`.

Floats are modelled as reals. `sqrt` is a parameter, and the lemmas that
need it require it to be a square root (`RealMath.IsSqrt`). The values of
`sin`, `cos` and `tan` are parameters too (`c`, `s`, `tanHalf`). The values
that `rand()` and `glfwGetTime()` return are inputs: `rand()` is the stream
`rolls`, consumed in order, and the clock is `now` and `clock`.

Matrices are stored row by row, so entry (r, c) is at `r * 4 + c`. OpenGL
reads a buffer uploaded with `GL_FALSE` column by column, which is the
transpose (`Mat4Spec.Flat`).

## Model

| member | source | states |
|---|---|---|
| PongRules.Abs | src/game.cpp:297 | `fabs` is non-negative and equals x or -x |
| PongRules.Reset | src/game.cpp:259-266 | resetBall centres the ball; the horizontal speed is +400 exactly when serving to the right and -400 otherwise; the vertical speed is within ±200; the game pauses with timeSinceHit 0; paddles and scores are untouched |
| PongRules.Bounce | src/game.cpp:283-285 | after the wall check the ball is inside [0, HEIGHT]; at a wall its vertical speed is reversed; a ball at or below 0 is put on 0 and a ball at or above HEIGHT on HEIGHT, so it sits on the wall it crossed; otherwise nothing changes; only ballY and ballVelY can change |
| PongRules.LeftReturn | src/game.cpp:294-300 | a left-paddle hit puts the ball at x = 30 moving right at 1.05 times its old horizontal speed, with a vertical speed within ±640 |
| PongRules.RightReturn | src/game.cpp:304-310 | a right-paddle hit puts the ball at x = WIDTH - 30 moving left at 1.05 times its old horizontal speed, with a vertical speed within ±640 |
| PongRules.SpeedIgnoresClock | src/game.cpp:316-319 | resetting timeSinceHit before measuring the speed does not change the speed |
| PongRules.SpeedLimited | src/game.cpp:318-323 | after the speed limit the ball is no faster than MAX_BALL_SPEED and keeps its horizontal direction |
| PongRules.RescaledBound | src/game.cpp:320-323 | scaling by MAX_BALL_SPEED / speed brings a too-fast ball to the limit |
| PongRules.Deflect | src/game.cpp:291-324 | the two paddle checks change nothing when no paddle is hit; a hit puts the ball on that paddle's face and restarts timeSinceHit; only the ball's x, velocity and timeSinceHit can change |
| PongRules.ReturnedBall | src/game.cpp:294-324 | a returned ball travels away from the paddle that returned it, no faster than MAX_BALL_SPEED |
| PongRules.Score | src/game.cpp:326-337 | past the left edge the right score goes up by one and the ball is served to the right; past the right edge, the mirror case; otherwise nothing changes; the paddles never move |
| PongRules.Tick | src/game.cpp:268-338 | a paused game only unpauses once the clock passes one second; no tick moves the paddles |
| PongRules.EffectsFollowState | src/game.cpp:283-337 | the wall sound and burst happen exactly when the ball reached a wall, the paddle ones exactly when a paddle hits it, and the score ones exactly when the tick ends paused for a new serve |
| PongRules.ScoresInOneTick | src/game.cpp:326-337 | a tick raises each score by at most one and the total by at most one; scores never go down |
| PongRules.HitNeverScores | src/game.cpp:294-337 | on a tick where a paddle returns the ball no point is scored and the game keeps running |
| PongRules.BallStaysInCourt | src/game.cpp:276-337 | after a running tick the ball is vertically inside the court |
| PongRules.TickKeepsServing | src/game.cpp:259-274 | the invariant "paused implies timeSinceHit == 0" survives every tick |
| PongRules.NewParticleInRange | src/game.cpp:229-243 | a new particle starts at (x, y), with each velocity component in [-10, 9.9], life in [0.5, 1.49] and each colour channel between the two theme colours |
| PongRules.Mix | src/game.cpp:239-242 | the blend color1 * t + color2 * (1 - t) with t in [0, 1] lies between the two colours |
| PongRules.Spawned | src/game.cpp:229-246 | createParticles appends exactly count particles |
| PongRules.SpawnedStep | src/game.cpp:230-245 | one more pass of the loop appends one particle made from the next four rand() values |
| PongRules.SpawnedInRange | src/game.cpp:229-246 | every particle of a burst starts at the burst point, alive, slow and coloured between the theme colours |
| PongRules.Burst | src/game.cpp:287 | an event's burst holds exactly its particle count |
| PongRules.StagesInOrder | src/game.cpp:283-337 | the wall, paddle and score blocks, run one after another, append the whole tick's sounds and particles in block order, each burst drawing rand() where the previous one stopped |
| PongRules.TickParticlesInRange | src/game.cpp:283-337 | one updateGame spawns at most 150 particles and plays at most three sounds, and every spawned particle starts alive and coloured between the theme colours |
| PongRules.BurstInRange | src/game.cpp:287 | every particle of one event's burst starts alive and coloured between the theme colours |
| PongRules.Aged | src/game.cpp:249-253 | the for loop keeps the number of particles |
| PongRules.Survivors | src/game.cpp:255-256 | remove_if keeps exactly the particles whose life is above zero, and never adds any |
| PongRules.SurvivorsKeepOrder | src/game.cpp:255-256 | the removal preserves order: filtering a concatenation is concatenating the filtered parts |
| PongRules.AllAlive | src/game.cpp:255-256 | removal leaves a vector of live particles unchanged |
| PongRules.SurvivorsIdempotent | src/game.cpp:255-256 | a second removal removes nothing |
| PongRules.ClampPaddle | src/game.cpp:524-525 | the clamped paddle centre lies in [60, HEIGHT - 60], equals the input when the input is already there, and otherwise equals the bound the input crossed |
| PongRules.Steer | src/game.cpp:510-521 | holding the up key moves the paddle up by PADDLE_SPEED * deltaTime, holding the down key moves it down by the same, and holding both or neither leaves it in place |
| PongRules.Steered | src/game.cpp:510-525 | the input and bounds blocks change only the paddles, leave both inside the court, and leave an in-court paddle alone when its keys are released |
| PongRules.Serve | src/game.cpp:462-466 | Space changes the state exactly when the game is paused with timeSinceHit > 0.5, and then only unpauses; in a serving state it changes nothing |
| PongRules.NextTheme | src/game.cpp:468 | the next theme index is a valid index different from the current one |
| PongRules.ThemesCycle | src/game.cpp:62-67 | three presses of T return to the starting theme after showing all three |
| PongGame.Game.constructor | src/game.cpp:499-502 | the start of main: the first theme, a ball served to the right with one rand() value used, no particles or sounds, and the invariant established |
| PongGame.Game.Rand | src/game.cpp:234-239 | rand() returns the next value of the stream and advances it by one |
| PongGame.Game.PlaySound | src/game.cpp:214-227 | playSound appends its buffer to the sounds played |
| PongGame.Game.CreateParticles | src/game.cpp:229-246 | the loop appends exactly the count particles Spawned describes and uses 4 * count rand() values |
| PongGame.Game.MakeParticle | src/game.cpp:231-243 | one loop body builds the particle NewParticle describes from the next four rand() values |
| PongGame.Game.UpdateParticles | src/game.cpp:248-257 | the particles become the survivors of the aged particles |
| PongGame.Game.MoveParticles | src/game.cpp:249-253 | the in-place loop moves and ages every particle by deltaTime |
| PongGame.Game.EraseDead | src/game.cpp:255-256 | erase/remove_if leaves exactly the survivors, in order |
| PongGame.Game.ResetBall | src/game.cpp:259-266 | resetBall leaves the state Reset describes and uses one rand() value |
| PongGame.Game.WallCollision | src/game.cpp:283-288 | the wall block leaves the bounced state and appends that block's sound and burst |
| PongGame.Game.PaddleCollision | src/game.cpp:291-324 | the paddle blocks leave the deflected state and append that block's sound and burst |
| PongGame.Game.CheckPaddles | src/game.cpp:291-311 | hit is set exactly when a paddle returns the ball, and the ball leaves the paddle that hit it |
| PongGame.Game.PaddleHit | src/game.cpp:313-324 | the hit block plays the paddle sound, spawns 30 particles at the ball and applies the speed limit |
| PongGame.Game.LimitBallSpeed | src/game.cpp:318-323 | a ball faster than MAX_BALL_SPEED is rescaled to that speed |
| PongGame.Game.OutOfBounds | src/game.cpp:326-337 | the scoring blocks leave the scored state and append that block's sound and burst, using one more rand() value for the serve |
| PongGame.Game.ScorePoint | src/game.cpp:327-336 | one scoring branch credits the point, plays the score sound, spawns 100 particles and serves again |
| PongGame.Game.UpdateGame | src/game.cpp:268-338 | updateGame moves the state as Tick says, appends exactly the tick's sounds and particles, uses exactly Draws rand() values and keeps the invariant |
| PongGame.Game.Run | src/game.cpp:276-337 | an unpaused updateGame integrates, bounces, deflects and scores, appending each block's sounds and particles in order |
| PongGame.Game.KeyCallback | src/game.cpp:458-471 | Escape sets the close flag, Space serves, and T advances to the next theme and selects it; in a valid game Space changes nothing and the invariant holds |
| PongGame.Game.MovePaddles | src/game.cpp:510-525 | the input and bounds blocks leave the state Steered describes and keep the invariant |
| PongGame.Game.Frame | src/game.cpp:504-528 | one pass of main's loop computes deltaTime from the clock, steers the paddles, runs updateGame and updateParticles with exactly the tick's sounds, particles and rand() use, and keeps the invariant |
| PongGame.Game.Update | src/game.cpp:527-528 | updateGame then updateParticles: the new particles are appended, then all are aged and filtered |
| Mat4Spec.FromSeqToSeq | theme_launcher/src/mat4.h:6-8 | reading back a flattened matrix gives the matrix |
| Mat4Spec.ToSeqFromSeq | theme_launcher/src/mat4.h:6-8 | flattening the matrix a buffer holds gives the buffer |
| Mat4Spec.ProductOfCells | template/land.cpp:54-65 | a flat buffer whose every cell holds its row-by-column sum is the product of the two input buffers |
| Mat4Spec.IdentityEntries | theme_launcher/src/mat4.h:11-14 | the identity has 1 on the diagonal and 0 elsewhere, that is 1 at flat positions 0, 5, 10 and 15 |
| Mat4Spec.MulIdentityRight | include/math_3d.c:49-56 | the identity is a right unit of the product |
| Mat4Spec.MulIdentityLeft | include/math_3d.c:49-56 | the identity is a left unit of the product |
| Mat4Spec.TransposeInvolution | include/math_3d.c:67-71 | transposing twice gives the original matrix back |
| Mat4Spec.TransposeOfProduct | include/math_3d.c:67-71 | the transpose of a product is the product of the transposes in reverse order |
| Mat4Spec.TransposeOfTriple | src/k/cube.cpp:166-167 | the transpose of proj * view * rot is rot^T * view^T * proj^T |
| Mat4Spec.ApplyMul | include/math_3d.c:58-65 | transforming by a product is transforming by its factors one after the other |
| Mat4Spec.ApplyIdentity | include/math_3d.c:58-65 | the identity fixes every vector |
| Mat4Spec.MulAssociative | src/k/cube.cpp:166-167 | the product is associative, so proj * (view * rot) can be grouped either way |
| Mat4Spec.TranslationCompose | theme_launcher/src/mat4.h:28-33 | two translations compose to the translation by the summed offsets |
| Mat4Spec.ScalingCompose | theme_launcher/src/mat4.h:36-41 | two scalings compose to the scaling by the componentwise products |
| Mat4Spec.RotationYCompose | template/land.cpp:43-53 | two Y rotations compose by the angle-sum formulas |
| Mat4Spec.RotationYTranspose | template/land.cpp:43-53 | transposing a Y rotation negates its sine, which is rotating back |
| Mat4Spec.RotationYOrthogonal | template/land.cpp:43-53 | when c² + s² = 1 the transpose of a Y rotation is its inverse |
| Mat4Spec.TranslationMovesPoints | template/land.cpp:67-77 | read column by column, the translation moves every point by its offsets |
| Mat4Spec.ProjectionDepth | template/land.cpp:31-41 | read column by column, the perspective matrix maps the near plane to depth -1 and the far plane to depth 1, and puts -z into w |
| Math3D.SubAdd | include/math_3d.c:3-9 | subtracting what was added gives back the first vector |
| Math3D.AddSub | include/math_3d.c:3-9 | adding back what was subtracted gives back the first vector |
| Math3D.AddCommutes | include/math_3d.c:3-5 | vector addition is commutative |
| Math3D.DotCommutes | include/math_3d.c:15-17 | the dot product is symmetric |
| Math3D.CrossAnticommutes | include/math_3d.c:19-25 | swapping the operands of the cross product negates it |
| Math3D.CrossPerpendicular | include/math_3d.c:15-25 | the cross product is perpendicular to both operands |
| Math3D.CrossSelf | include/math_3d.c:19-25 | a vector crossed with itself is zero |
| Math3D.DotOfScale | include/math_3d.c:11-17 | scaling by s multiplies the squared length by s² |
| Math3D.LengthZero | include/math_3d.c:27-29 | the length is zero exactly for the zero vector |
| Math3D.NormalizeOfZeroLength | include/math_3d.c:31-37 | a zero-length vector is returned unchanged |
| Math3D.NormalizeUnit | include/math_3d.c:31-37 | a vector of non-zero length normalizes to unit length |
| Math3D.NormalizeIdempotent | include/math_3d.c:31-37 | normalizing twice is normalizing once |
| Math3D.Identity | include/math_3d.c:43-47 | the loop writes the identity |
| Math3D.Mul | include/math_3d.c:49-56 | the returned matrix is the row-by-column product of the two operands |
| Math3D.ProductOfArrays | include/math_3d.c:49-56 | a matrix whose every entry holds its complete sum is the product |
| Math3D.MulVector | include/math_3d.c:58-65 | the written-out rows apply the matrix to the vector, and an identity matrix returns the vector unchanged; composition is stated by MulVectorOfProduct |
| Math3D.MulVectorOfProduct | include/math_3d.c:49-65 | transforming by Matrix4f_Mul(a, b) is transforming by b and then by a |
| Math3D.MulVectorIdentity | include/math_3d.c:43-65 | the identity matrix maps every vector to itself |
| Math3D.LowerMirrorIsTranspose | include/math_3d.c:67-71 | transposing a matrix in place gives the transpose exactly when the matrix is symmetric |
| Math3D.Transpose | include/math_3d.c:67-71 | into a separate matrix the loop writes the transpose; in place it leaves the lower triangle mirrored onto the upper one |
| ThemeMat4.Identity | theme_launcher/src/mat4.h:11-14 | mat4_identity writes the identity |
| ThemeMat4.Orthographic | theme_launcher/src/mat4.h:17-25 | mat4_orthographic writes the orthographic projection of the given box |
| ThemeMat4.OrthographicCorners | theme_launcher/src/mat4.h:17-25 | read column by column as the header documents, the matrix maps the box's near-bottom-left corner to (-1, -1, -1) and its far-top-right corner to (1, 1, 1) |
| ThemeMat4.Translate | theme_launcher/src/mat4.h:28-33 | mat4_translate writes the identity with the offsets at positions 12 to 14 |
| ThemeMat4.Scale | theme_launcher/src/mat4.h:36-41 | mat4_scale writes the diagonal (sx, sy, sz, 1) |
| ThemeMat4.Multiply | theme_launcher/src/mat4.h:44-53 | into a result distinct from both operands, mat4_multiply writes their product |
| ThemeMat4.MultiplyColumnMajor | theme_launcher/src/mat4.h:7 | read column by column, as the header says the data is laid out, the result is b * a |
| LandMatrix.LoadIdentity | template/land.cpp:25-29 | load_identity writes the identity |
| LandMatrix.Perspective | template/land.cpp:31-41 | perspective writes the projection with f = 1 / tan(fovy / 2), f / aspect, the depth terms, and -1 at position 11 |
| LandMatrix.RotateY | template/land.cpp:43-53 | rotate_Y writes the rotation about the Y axis |
| LandMatrix.MultiplyMatrices | template/land.cpp:54-65 | into a result distinct from both operands, multiply_matrices writes their product |
| LandMatrix.Translate | template/land.cpp:67-77 | translate writes the identity with the offsets at positions 12 to 14 |
| KCube.Identity | src/k/cube.cpp:11-14 | identity writes the identity |
| KCube.Perspective | src/k/cube.cpp:16-25 | perspective writes the projection with 1 / (aspect * tan), 1 / tan and the depth terms |
| KCube.PerspectiveAsInTemplates | src/k/cube.cpp:16-25 | this projection equals the one the template files build with (1 / tan) / aspect |
| KCube.Translate | src/k/cube.cpp:27-32 | translate writes the identity with the offsets at positions 12 to 14 |
| KCube.RotateY | src/k/cube.cpp:34-42 | rotateY writes the full Y rotation, even though it never writes entries 5 and 15 itself |
| KCube.Multiply | src/k/cube.cpp:44-53 | multiply writes the product, even when res is one of the operands, because it accumulates into a local buffer first |
| KCube.IndicesInRange | src/k/cube.cpp:70-92 | the index buffer holds 36 indices, the draw count, forming twelve triangles, each naming one of the 8 vertices |
| KCube.FrontCorners | src/k/cube.cpp:70-82 | the first four vertices are the front corners (z = 0.5) |
| KCube.BackCorners | src/k/cube.cpp:70-82 | the last four vertices are the back corners (z = -0.5) |
| KCube.FrontFace | src/k/cube.cpp:86 | the first two triangles are proper triangles lying in the front face |
| KCube.BackFace | src/k/cube.cpp:87 | triangles 2 and 3 are proper triangles lying in the back face |
| KCube.LeftFace | src/k/cube.cpp:88 | triangles 4 and 5 are proper triangles lying in the left face |
| KCube.RightFace | src/k/cube.cpp:89 | triangles 6 and 7 are proper triangles lying in the right face |
| KCube.TopFace | src/k/cube.cpp:90 | triangles 8 and 9 are proper triangles lying in the top face |
| KCube.BottomFace | src/k/cube.cpp:91 | triangles 10 and 11 are proper triangles lying in the bottom face |
| KCube.Frame | src/k/cube.cpp:164-167 | one frame as written leaves mvp = proj * (view * rot) in row-by-row order |
| KCube.FrameOrderReversed | src/k/cube.cpp:164-176 | uploaded with GL_FALSE, the frame as written gives the cube's centre clip w = 0, while the intended proj * view * rot gives w = 3 |
| KCube.FrameColumnMajor | src/k/cube.cpp:164-173 | with the products reversed, the matrix OpenGL reads is proj * view * rot |
| TemplateMain.LoadIdentity | template/main.cpp:10-13 | LoadIdentity writes the identity |
| TemplateMain.Perspective | template/main.cpp:15-24 | Perspective writes the projection with f / aspect, f and the depth terms |
| TemplateMain.RotateY | template/main.cpp:26-35 | RotateY writes the rotation about the Y axis |
| TemplateMain.MultiplyInline | template/main.cpp:338-345 | the inline triple loop writes proj * rot |
| TemplateMain.BuildBuffers | template/main.cpp:332-334 | Update's two fresh local buffers hold the 640x480, 0.1 to 100 projection and the Y rotation |
| TemplateMain.UpdateMvp | template/main.cpp:332-348 | the buffer uploaded to u_MVP holds, row by row, the projection times the Y rotation; OpenGL reads its transpose, rot * proj in its own reading (see Findings) |
| TemplateMain.UpdateOrderReversed | template/main.cpp:146-148 | with the buffer as uploaded, a vertex (x, y, z) gets clip w = -z for every angle; the intended proj * rot gives w = -(s x + c z) |
| TemplateMain.UpdateMvpColumnMajor | template/main.cpp:336-348 | with the operands of the inline product swapped, the matrix OpenGL reads is proj * rot, each factor read column by column as the builders lay it out |
| TemplateMain.ReadColumnMajor | template/main.cpp:348 | a buffer holding r * p row by row is read by OpenGL as p * r of the column-major factors |
| TemplateMain.IndicesInRange | template/main.cpp:43-79 | the 24 indices (the sizeof count given to glDrawElements) form twelve lines, each naming one of the 24 vertices |
| TemplateMain.FrontCorners | template/main.cpp:43-73 | the first four vertices are the front corners (z = 0.5) |
| TemplateMain.BackCorners | template/main.cpp:43-73 | the next four vertices are the back corners (z = -0.5) |
| TemplateMain.FrontSquareEdges | template/main.cpp:76 | the first four lines are unit edges of the front square |
| TemplateMain.BackSquareEdges | template/main.cpp:77 | the next four lines are unit edges of the back square |
| TemplateMain.JoiningEdges | template/main.cpp:78 | the last four lines are unit edges joining each front corner to the back corner behind it |
| MouseDrag.Step | src/render_model.cpp:99-110 | each call records the position and clears firstMouse; the first call leaves the rotation alone, and later calls add 0.3 times the deltas |
| MouseDrag.Telescopes | src/render_model.cpp:99-110 | after any run of calls from the start, the rotation is 0.3 times the distance from the first position to the last |
| MouseDrag.LatchIsPermanent | src/render_model.cpp:100-105 | once cleared, firstMouse stays cleared |
| MouseDrag.Cursor.constructor | src/render_model.cpp:95-97 | the globals start at zero with firstMouse set |
| MouseDrag.Cursor.CursorPos | src/cube.cpp:54-59 | each callback updates the globals as Step says, and rotY/rotX are 0.3 times the offset from the first position |
| DevUtils.Max | include/dev_utils.h:43 | MAX returns an upper bound that is one of its operands |
| DevUtils.Min | include/dev_utils.h:47 | MIN returns a lower bound that is one of its operands |
| DevUtils.Clamp | include/dev_utils.h:122 | CLAMP never exceeds End, is at least Start when Start <= End, leaves an in-range value alone, and returns End whenever the bounds cross |
| DevUtils.ClampIdempotent | include/dev_utils.h:122 | clamping twice is clamping once |
| DevUtils.ClampMonotone | include/dev_utils.h:122 | clamping preserves order |
| DevUtils.ArraySizeInBytes | include/dev_utils.h:40 | dividing the byte size by the element size gives the element count back |
| DevUtils.ArraySizeInElements | include/dev_utils.h:39 | the element count is the number of whole elements in the byte size |
| DevUtils.ArraySizeRoundTrip | include/dev_utils.h:39-40 | the two array-size macros undo each other |
| DevUtils.ZeroMem | include/dev_utils.h:37-38 | every byte of the object is zero afterwards |
| DevUtils.Pointer.constructor | include/dev_utils.h:67 | a pointer variable holds its address and nothing has been freed |
| DevUtils.Pointer.SafeDelete | include/dev_utils.h:67 | SAFE_DELETE frees a non-null pointer once and sets it to null; on null it does nothing |
| DevUtils.Pointer.SafeDeleteTwice | include/dev_utils.h:67 | applying SAFE_DELETE twice frees the allocation only once |

## Left out

- Floating point: every `float` and `double` is a real, so IEEE rounding is not modelled. This covers the 0.3f and 1.05f constants, the narrowing of deltaTime from double to float, and the rounding of the speed limit.
- `sqrt`, `sqrtf`, `sin`, `cos` and `tan` are parameters. Lemmas about lengths and speeds require `sqrt` to be the real square root. The matrix builders take cos, sin and tan(fovy / 2) as values, so the degree-to-radian conversions and the angle increments are not modelled.
- The perspective and orthographic builders require their divisors to be non-zero (tan(fovy / 2), aspect, near - far, right - left, top - bottom). The C code would divide by zero there.
- ThemeMat4.Multiply: the result is unspecified when result aliases an operand, because the loop then reads entries it has already overwritten.
- LandMatrix.MultiplyMatrices: the same as ThemeMat4.Multiply, for the same reason.
- Audio (OpenAL), rendering, shaders, window and context setup, and all other OpenGL, SDL and GLFW calls. `playSound` is modelled only as appending its buffer to `sounds`. `render()` and the buffer swap are left out.
- `rand()`, `srand(time(NULL))` and `glfwGetTime()` are inputs: `rolls` is the stream rand() returns after seeding, and `clock`/`now` are the clock readings.
- PongRules.Tick: the one-second wait compares the absolute clock with 1.0, as the code does. It is modelled as an input, so the model does not say when the clock passes one second.
- PongGame.Game.KeyCallback: the Space branch is modelled as written. Its ensures only says the branch changes nothing in a valid game, because that guard can never hold there (paused implies timeSinceHit == 0).
- The `while (!glfwWindowShouldClose(window))` loop is modelled one pass at a time (PongGame.Game.Frame), not as a loop over many frames.
- `createParticles` takes an `int` count. The model uses a natural number, because every call passes 20, 30 or 100.
- The scoring coordinates `WIDTH / 4` and `3 * WIDTH / 4` are integer divisions. They are exact for WIDTH = 1280, so they appear as 320 and 960.
- `MAX`, `MIN` and `CLAMP` are modelled on `int`. They double-evaluate their arguments, which matters only for side effects, and there are none here.
- DevUtils.ZeroMem covers both `ZERO_MEM` and `ZERO_MEM_VAR`. Both set every byte of one object to zero.
- The error, logging, assimp and GL-error macros of `dev_utils.h` are left out. They only report or expand to library flags.
- One `MouseDrag.Cursor` class models the globals and `cursor_pos` of both `src/render_model.cpp` and `src/cube.cpp`. The two callbacks are the same code.
- Several source functions are split into helper methods so that each proof stays small. Each helper's ensures composes into the whole:
  - `updateGame` into Run, WallCollision, PaddleCollision, CheckPaddles, PaddleHit, LimitBallSpeed, OutOfBounds and ScorePoint;
  - `updateParticles` into MoveParticles and EraseDead;
  - main's loop into Frame, MovePaddles and Update;
  - the inline product of template/main.cpp into TemplateMain.MultiplyInline.
- `Vector3f_Print`, the shader sources, texture loading and the remaining demos of the repository are not part of this model.

## Findings

| source | as written | input that shows it | evidently intended | confidence | as-written member | corrected member |
|---|---|---|---|---|---|---|
| src/k/cube.cpp:164-176 | `multiply(mv, view, rot); multiply(mvp, proj, mv);` computes proj * view * rot row by row, but the buffer is uploaded with `GL_FALSE`. OpenGL therefore applies the transpose, rot^T * view^T * proj^T. | any angle, with main's view `translate(view, 0, 0, -3)`: the cube's centre gets clip w = 0 instead of 3 | multiply in the reverse order (`multiply(mv, rot, view); multiply(mvp, mv, proj);`), so that OpenGL reads proj * view * rot | not executed | KCube.FrameOrderReversed | KCube.FrameColumnMajor |
| template/main.cpp:336-348 | the inline loop `mvp[row*4+col] += proj[row*4+k]*rot[k*4+col]` computes proj * rot row by row. The builders lay both buffers out column by column (`m[11] = -1`, `m[8] = -s`), and the buffer is uploaded with `GL_FALSE`, so the shader applies rot * proj: the rotation after the projection. | angle π/2 (c = 0, s = 1), vertex (0.5, 0.5, -0.5): clip w = 0.5 as written, -0.5 as intended; as written w = -z for every angle | swap the operands of the inline product, so that OpenGL reads proj * rot | not executed | TemplateMain.UpdateOrderReversed | TemplateMain.UpdateMvpColumnMajor |
