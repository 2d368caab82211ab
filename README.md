# Asteroids: ship motion, screen wrapping and vertex transforms

This project models the simulation core of the two Asteroids prototypes in the repository:

- **C variant** (`asteroids_c/main.c`, module `AsteroidsC`). One ship steers with Left and
  Right. Up and Down add or subtract thrust along the heading. With neither held, the ship
  coasts under per-axis friction that has a dead zone of ±0.75. It then moves by
  `velocity·delta` and wraps around the 800×600 screen (`wrapScreen`). Finally its
  triangle is transformed into screen space (`transformVertices`).
- **Rust variant** (`asteroids_rust/src/main.rs`, module `AsteroidsRust`). A triangle on a
  160×144 canvas turns and moves directly under the arrow keys. It has no velocity. X fires
  a bullet on a rising edge of the key. Bullets fly at 45 units per second and are dropped
  once they leave the canvas. Key events update a 256-entry key array. A tick runs only
  when more than 17000 whole microseconds have passed since the last processed tick.
- **Rust math API** (`asteroids_rust/src/math.rs`, module `Math`). `Vec2` with scaling,
  rotation and normalisation, both by value and in place (`rotate_mut`, `normalise_mut`).
  `Transform<N>::apply` fills a cache with the world-space image of a local polygon.

Where the source updates state in place the model does too:

- `Math.MutVec2` is a `&mut Vec2`.
- `Math.Transform` owns its two arrays.
- `AsteroidsC.Ship` holds the ship's fields, and `TransformVertices` writes into an array.
- `AsteroidsRust.Game` holds the event-loop state, with the two key arrays as `array<bool>`.

Each such method is proved against a pure specification function:

- `Rotated`, `Normalised` and `WorldVertices` for the math API;
- `Steer`, `Drive`, `WrapScreen` and `TransformedVertex` for the C variant;
- `Steer`, `Move`, `Retained` and `Step` for the Rust variant.

The properties are proved as lemmas about those functions.

`f32`/`float` is modelled as `real`. The floating-point library (`sin_cos`, `sqrt`,
`sinf`, `cosf`, `sqrtf`) is a parameter `m: Libm.Ops` whose functions are left
uninterpreted. A lemma that needs a fact about them states it as a precondition at the one
argument it uses:

- `Pythagorean`: sin² + cos² = 1;
- `Symmetric`: sin is odd and cos is even;
- `SqrtAt`: the positive square root.

The clock is a parameter. A Rust tick receives the clock reading `now` in nanoseconds, and
a C frame receives its `delta`. winit's `VirtualKeyCode` values are the indices of the
variants in declaration order: X = 33, Left = 70, Up = 71, Right = 72, Down = 73. The
proofs use only the facts that these are distinct and below 256.

Behaviour at the edges of the play field:

- `wrapScreen` keeps coordinates on the closed range [0, 800] × [0, 600]. A coordinate
  below 0 becomes exactly 800 (or 600), and one beyond it becomes exactly 0.
- Rust bullets are dropped as soon as their advanced position leaves the half-open
  canvas [0, 160) × [0, 144).
- The Rust triangle has no velocity: Up and Down move it by 25·dt.

One more observation, from the C friction rule. At raylib's target frame time of 1/60 s,
one frame's friction is 94.25/60 ≈ 1.571. That is wider than the dead zone (1.5). So a
coasting component of 0.76 alternates forever between 0.76 and 0.76 − 94.25/60 and is never
set to 0 (`FrictionOscillatesAt60Fps`). When one frame's friction is smaller than 1.5,
every coasting component comes to rest exactly (`FrictionSettles`).

## Model

| member | source | states |
|---|---|---|
| Math.Mul | asteroids_rust/src/math.rs:17-25 | scaling by a nonzero k is undone by dividing each component by k |
| Math.MulCompose | asteroids_rust/src/math.rs:17-25 | scaling twice is scaling by the product, and scaling by k multiplies the squared length by k² |
| Math.MutVec2.constructor | asteroids_rust/src/math.rs:32-35 | the by-value copy that `rotate` and `normalise` take of `self`: the new place holds exactly the given vector |
| Math.MutVec2.RotateMut | asteroids_rust/src/math.rs:37-43 | the vector left in place is the rotation of the old one, with both components computed from the old components |
| Math.Rotate | asteroids_rust/src/math.rs:32-35 | rotating a copy returns the rotation of the argument |
| Math.RotatePreservesLength | asteroids_rust/src/math.rs:37-43 | where sin² + cos² = 1, a rotation keeps the squared length |
| Math.RotateInverse | asteroids_rust/src/math.rs:37-43 | rotating by rot and then by −rot gives back the original vector |
| Math.MutVec2.NormaliseMut | asteroids_rust/src/math.rs:50-55 | the vector left in place is the old one divided by its length, with the length taken before either component changes |
| Math.Normalise | asteroids_rust/src/math.rs:45-48 | normalising a copy returns the normalised argument |
| Math.NormaliseUnit | asteroids_rust/src/math.rs:50-55 | when sqrt is the positive square root, the normalised vector has length 1 |
| Math.NormalisedRescales | asteroids_rust/src/math.rs:50-55 | scaling the normalised vector back by the length gives the original: the direction is kept |
| Math.RotateCommutesWithMul | asteroids_rust/src/math.rs:69 | rotating then scaling equals scaling then rotating |
| Math.WorldVertices | asteroids_rust/src/math.rs:66-74 | the world image has one vertex per local vertex |
| Math.WorldVertexDistance | asteroids_rust/src/math.rs:66-74 | each world vertex lies at scale × (the local vertex's distance) from pos: a rotation about pos and a uniform scaling |
| Math.Transform.constructor | asteroids_rust/src/math.rs:58-64 | a transform with the given fields owns two fresh, distinct arrays of equal length |
| Math.Transform.Apply | asteroids_rust/src/math.rs:66-74 | the cache holds the world image of every local vertex; the local vertices are untouched; a cache that is already current is left as it was |
| AsteroidsC.WrapScreen | asteroids_c/main.c:55-67 | the wrapped point is always on the closed screen [0, 800] × [0, 600] |
| AsteroidsC.WrapScreenFixesScreen | asteroids_c/main.c:55-67 | a point is left unchanged if and only if it is on the closed screen |
| AsteroidsC.WrapScreenEdges | asteroids_c/main.c:55-67 | below 0 lands on the far edge; beyond the far edge lands on 0; inside is kept; for each axis |
| AsteroidsC.WrapScreenAxesIndependent | asteroids_c/main.c:55-67 | each output coordinate depends only on the same input coordinate |
| AsteroidsC.WrapScreenIdempotent | asteroids_c/main.c:55-67 | wrapping twice equals wrapping once |
| AsteroidsC.TransformVertices | asteroids_c/main.c:36-45 | the first vertexCount cells receive the rotated, scaled, translated vertices; later cells are unchanged |
| AsteroidsC.TransformedVertexAgreesWithApply | asteroids_c/main.c:36-45 | the C per-vertex transform computes what the Rust `Transform::apply` computes |
| AsteroidsC.TransformedVertexDistance | asteroids_c/main.c:36-45 | every transformed vertex lies at scale × (the local vertex's distance) from pos |
| AsteroidsC.Steer | asteroids_c/main.c:92-97 | holding both turn keys, or neither, leaves the rotation as it was |
| AsteroidsC.SteerKeys | asteroids_c/main.c:92-97 | both turn keys cancel; Right alone adds 2.5·delta; Left alone subtracts it |
| AsteroidsC.ForwardLength | asteroids_c/main.c:99 | the thrust of one frame has length 65·delta |
| AsteroidsC.Drive | asteroids_c/main.c:98-127 | Up and Down together cancel exactly; a coasting ship at rest stays at rest |
| AsteroidsC.ThrustWithoutFriction | asteroids_c/main.c:99-109 | while Up or Down is held, the velocity changes by exactly ± the thrust (by nothing when both are held), with no friction |
| AsteroidsC.Friction | asteroids_c/main.c:110-126 | a component inside the dead zone becomes 0, and for delta ≥ 0 friction never pushes a component further from 0 in its direction |
| AsteroidsC.CoastingFriction | asteroids_c/main.c:110-126 | when coasting, a component inside the dead zone becomes 0, and one outside it moves towards 0 by 94.25·delta, on each axis |
| AsteroidsC.FrictionIterAtRest | asteroids_c/main.c:110-126 | a coasting component at rest stays at rest |
| AsteroidsC.FrictionSettles | asteroids_c/main.c:110-126 | when 0 < 94.25·delta < 1.5, a component with abs(v) < 0.75 + n·94.25·delta is exactly 0 after n + 1 frames |
| AsteroidsC.FrictionOscillatesAt60Fps | asteroids_c/main.c:110-126 | at delta = 1/60, a component of 0.76 alternates with 0.76 − 94.25/60 and is never 0 |
| AsteroidsC.Ship.constructor | asteroids_c/main.c:75-85 | the initial ship: the three local vertices, centred on the screen, rot = π/2, scale 30, at rest, zero cache |
| AsteroidsC.Ship.SteerShip | asteroids_c/main.c:92-97 | the rotation becomes Steer of the old rotation and the held Right/Left keys |
| AsteroidsC.Ship.DriveShip | asteroids_c/main.c:98-127 | the velocity becomes Drive of the old velocity at the current heading: thrust while Up or Down is held, per-axis friction otherwise |
| AsteroidsC.Ship.Update | asteroids_c/main.c:92-131 | the new rotation, velocity and wrapped position are Steer, Drive and WrapScreen of the old state; the position is on the screen; the cache is the transformed triangle; the local vertices and the scale are unchanged |
| AsteroidsRust.Rotate | asteroids_rust/src/main.rs:22-25 | where sin² + cos² = 1, the rotated pair has the same squared length as (x, y) |
| AsteroidsRust.Normalise | asteroids_rust/src/main.rs:27-31 | when sqrt is the positive square root, the normalised pair has length 1 |
| AsteroidsRust.RotateAgreesWithVec2 | asteroids_rust/src/main.rs:22-25 | the tuple `rotate` computes what `Vec2::rotate` computes, so it inherits its length and inverse properties |
| AsteroidsRust.NormaliseAgreesWithVec2 | asteroids_rust/src/main.rs:27-31 | the tuple `normalise` computes what `Vec2::normalise` computes, so it inherits unit length |
| AsteroidsRust.Game.constructor | asteroids_rust/src/main.rs:33-53 | the initial state: rot 0, the triangle at the canvas centre (80, 72), no bullets, no keys held, clock at `now` |
| AsteroidsRust.Game.KeyEvent | asteroids_rust/src/main.rs:74-76 | exactly the event's key entry changes, to true on Pressed and false on Released |
| AsteroidsRust.Game.Turn | asteroids_rust/src/main.rs:87-92 | the rotation becomes Steer of the old rotation and the held Left/Right keys |
| AsteroidsRust.SteerAndMoveKeys | asteroids_rust/src/main.rs:87-102 | opposite keys cancel exactly; a single key turns by ±2.5·dt or moves by ±25·dt along the heading |
| AsteroidsRust.Game.Thrust | asteroids_rust/src/main.rs:93-102 | the triangle's position becomes Move of the old position and the held Up/Down keys |
| AsteroidsRust.MoveBySteps | asteroids_rust/src/main.rs:93-102 | Down's step starts from wherever Up's step left the triangle |
| AsteroidsRust.MoveDistance | asteroids_rust/src/main.rs:93-97 | where sin² + cos² = 1 at the heading, Up alone moves the triangle exactly 25·dt |
| AsteroidsRust.Game.Fire | asteroids_rust/src/main.rs:104-113 | a bullet is appended at the muzzle exactly when X is held now and was not held at the last tick |
| AsteroidsRust.FireOnRisingEdge | asteroids_rust/src/main.rs:104-123 | after a processed tick, the bullets are the survivors of the old ones, followed by the new bullet only on a rising edge of X and only if it is still on the canvas |
| AsteroidsRust.HeldFireFiresOnce | asteroids_rust/src/main.rs:104-113 | holding X across two processed ticks fires only once |
| AsteroidsRust.BulletSpeedExact | asteroids_rust/src/main.rs:104-118 | where sin² + cos² = 1 at the heading, a fired bullet moves exactly 45·dt per tick |
| AsteroidsRust.Retained | asteroids_rust/src/main.rs:115-123 | retaining never adds a bullet, and every retained bullet is on the canvas |
| AsteroidsRust.RetainedIsFilter | asteroids_rust/src/main.rs:115-123 | the retained bullets are the advanced images of the inputs, in order, with their directions unchanged; a bullet is kept if and only if its advanced position is on the half-open canvas |
| AsteroidsRust.RetainedAppend | asteroids_rust/src/main.rs:115-123 | retaining a list with one more bullet at the end keeps what the shorter list keeps, then that bullet if it stays on the canvas |
| AsteroidsRust.Game.RetainBullets | asteroids_rust/src/main.rs:115-123 | the bullet list becomes the retained bullets of the old list |
| AsteroidsRust.Step | asteroids_rust/src/main.rs:79-128 | a tick either leaves the state unchanged or snapshots the held keys, restarts the clock at `now` and leaves only on-canvas bullets; the clock never goes back |
| AsteroidsRust.StepWaits | asteroids_rust/src/main.rs:79-84 | a frame of at most 17000 whole microseconds changes nothing |
| AsteroidsRust.StepSnapshotsKeys | asteroids_rust/src/main.rs:84-128 | a processed tick takes the held keys as the new snapshot, restarts the frame clock, and leaves only on-canvas bullets |
| AsteroidsRust.Game.Tick | asteroids_rust/src/main.rs:79-128 | the state after the event is Step of the old state, the held keys and the clock reading; the held keys themselves are unchanged |

## Left out

- Window, drawing and input polling: raylib and winit/softbuffer/framebrush calls. The held keys of a C frame are a parameter (`Keys`).
- Clocks: `GetFrameTime` and `Instant::now` are parameters (`delta`, `now`).
- IEEE `f32`/`float` rounding, NaN and infinities: arithmetic is exact over `real`; `sin`, `cos` and `sqrt` are uninterpreted.
- Math.Normalised: requires a nonzero length, because `normalise_mut` divides by 0 there and produces NaN or infinity, which `real` cannot express. The same holds for `Math.Normalise`, `Math.MutVec2.NormaliseMut` and `AsteroidsRust.Normalise`.
- `vec2` (C), `vec2` and `Vec2::new` (Rust) are the datatype constructors `Vector2` and `Math.Vec2`.
- AsteroidsC.TransformVertices: requires the vertex and transform arrays to be distinct. The C code never aliases them (both are fields of the same `Ship`), and the model does not cover aliasing.
- The `Asteroid` struct of the C variant and the commented-out collision helpers: no code uses them.
- The `window_id == window.id()` filter on key events: the model takes every key event as belonging to the window. The `keycode as usize` conversion is modelled as a key index below 256.
- `bullets.retain_mut` is modelled as a loop that builds a new `seq`, not as in-place compaction of a `Vec`.
- The bullet and triangle drawing, with its `as usize` casts, is part of `RedrawRequested` and is not modelled.
- The Rust `main` computes the triangle's local vertices with `normalise`, but uses them only for drawing.
- Math.Transform.Apply: the arrays of `[Vec2; N]` are modelled as two distinct `array<Vec2>` of equal length, rather than inline arrays of a const-generic size.
