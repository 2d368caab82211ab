/** The game step of the Rust variant (asteroids_rust/src/main.rs): a triangle that turns
    and moves directly under the arrow keys, and bullets fired with X that fly until they
    leave the 160×144 canvas. Key events and frame ticks arrive from the window's event
    loop; here a key event and a tick are methods on the state the loop's closure owns,
    and the clock reading of a tick is a parameter. `f32` is `real`. */
module AsteroidsRust {
  import opened Libm
  import Math

  /** `CANVAS_WIDTH` and `CANVAS_HEIGHT`, `usize` constants */
  const CanvasWidth: nat := 160
  const CanvasHeight: nat := 144
  /** `std::f32::consts::FRAC_PI_2` */
  const FracPi2: real := 1.57079632679489661923132169163975144
  /** `min_frame_time`, in microseconds */
  const MinFrameTime: nat := 17000
  const TriTransformScale: real := 10.0
  /** Radians per second turned by Left or Right */
  const SteerSpeed: real := 2.5
  /** Canvas units per second moved by Up or Down */
  const MoveSpeed: real := 25.0
  /** Canvas units per second a bullet flies */
  const BulletSpeed: real := 45.0

  /** Length of the key-state arrays `[bool; 256]` */
  const KeyCount: nat := 256
  /** Indices of winit's `VirtualKeyCode` variants in declaration order. */
  const KeyX: nat := 33
  const KeyLeft: nat := 70
  const KeyUp: nat := 71
  const KeyRight: nat := 72
  const KeyDown: nat := 73

  // ---------------------------------------------------------------------------
  // The free vector functions

  /** `rotate(x, y, rot)` */
  function Rotate(m: Ops, x: real, y: real, rot: real): (r: (real, real))
    ensures Pythagorean(m, rot) ==> r.0 * r.0 + r.1 * r.1 == x * x + y * y
  {
    var s, c := m.sin(rot), m.cos(rot);
    assert Pythagorean(m, rot) ==> (x * c - y * s) * (x * c - y * s) + (y * c + x * s) * (y * c + x * s) == x * x + y * y by {
      if Pythagorean(m, rot) {
        Math.RotatePreservesLength(m, Math.Vec2(x, y), rot);
      }
    }
    (x * c - y * s, y * c + x * s)
  }

  /** `normalise(x, y)`; a zero length is outside its domain. */
  function Normalise(m: Ops, x: real, y: real): (r: (real, real))
    requires m.sqrt(x * x + y * y) != 0.0
    ensures SqrtAt(m, x * x + y * y) ==> r.0 * r.0 + r.1 * r.1 == 1.0
  {
    var len := m.sqrt(x * x + y * y);
    assert SqrtAt(m, x * x + y * y) ==> (x / len) * (x / len) + (y / len) * (y / len) == 1.0 by {
      if SqrtAt(m, x * x + y * y) {
        assert Math.LengthSq(Math.Vec2(x, y)) == x * x + y * y;
        Math.NormaliseUnit(m, Math.Vec2(x, y));
      }
    }
    (x / len, y / len)
  }

  /** The tuple `rotate` of main.rs computes what `Vec2::rotate` of math.rs computes. */
  lemma RotateAgreesWithVec2(m: Ops, x: real, y: real, rot: real)
    ensures var r := Math.Rotated(m, Math.Vec2(x, y), rot); Rotate(m, x, y, rot) == (r.x, r.y)
  {
    var r := Math.Rotated(m, Math.Vec2(x, y), rot);
    assert r.x == x * m.cos(rot) - y * m.sin(rot);
    assert Rotate(m, x, y, rot).0 == r.x;
    assert Rotate(m, x, y, rot).1 == r.y;
    assert Rotate(m, x, y, rot) == (r.x, r.y);
  }

  /** The tuple `normalise` of main.rs computes what `Vec2::normalise` of math.rs computes,
      so it inherits its unit length (Math.NormaliseUnit). */
  lemma NormaliseAgreesWithVec2(m: Ops, x: real, y: real)
    requires m.sqrt(x * x + y * y) != 0.0
    ensures Math.LengthSq(Math.Vec2(x, y)) == x * x + y * y
    ensures var r := Math.Normalised(m, Math.Vec2(x, y)); Normalise(m, x, y) == (r.x, r.y)
  {
  }

  // ---------------------------------------------------------------------------
  // Bullets

  /** `f32::sin_cos`: the pair (sin a, cos a) */
  function SinCos(m: Ops, a: real): (real, real)
  {
    (m.sin(a), m.cos(a))
  }

  /** `(x, y, dir)`, where `dir` is the `sin_cos` of the heading it was fired along. */
  datatype Bullet = Bullet(x: real, y: real, dir: (real, real))

  /** The update `retain_mut`'s closure makes to one bullet. */
  function Advance(b: Bullet, dt: real): Bullet
  {
    Bullet(b.x + b.dir.1 * BulletSpeed * dt, b.y + b.dir.0 * BulletSpeed * dt, b.dir)
  }

  /** The closure's verdict: the half-open canvas [0, 160) × [0, 144). */
  predicate OnCanvas(b: Bullet)
  {
    b.x >= 0.0 && b.x < CanvasWidth as real && b.y >= 0.0 && b.y < CanvasHeight as real
  }

  predicate AllOnCanvas(bs: seq<Bullet>)
  {
    forall i :: 0 <= i < |bs| ==> OnCanvas(bs[i])
  }

  /** The bullets `retain_mut` keeps: each one advanced, the ones left on the canvas kept in
      order. It never adds a bullet, and every bullet it keeps is on the canvas. */
  function Retained(bs: seq<Bullet>, dt: real): (kept: seq<Bullet>)
    ensures |kept| <= |bs|
    ensures AllOnCanvas(kept)
  {
    if bs == [] then []
    else
      var b := Advance(bs[|bs| - 1], dt);
      Retained(bs[..|bs| - 1], dt) + if OnCanvas(b) then [b] else []
  }

  /** The positions in `bs` of the bullets `Retained` keeps. */
  function KeptIndices(bs: seq<Bullet>, dt: real): seq<nat>
  {
    if bs == [] then []
    else KeptIndices(bs[..|bs| - 1], dt) + if OnCanvas(Advance(bs[|bs| - 1], dt)) then [|bs| - 1] else []
  }

  /** `Retained` is exactly a filter: the kept bullets are the advanced images of the
      bullets at strictly increasing positions (their relative order is preserved), with the
      direction of each unchanged, and a position is kept if and only if its advanced bullet
      is on the canvas. */
  lemma {:induction false} RetainedIsFilter(bs: seq<Bullet>, dt: real)
    ensures |KeptIndices(bs, dt)| == |Retained(bs, dt)|
    ensures forall k :: 0 <= k < |KeptIndices(bs, dt)| ==>
      && KeptIndices(bs, dt)[k] < |bs|
      && Retained(bs, dt)[k] == Advance(bs[KeptIndices(bs, dt)[k]], dt)
      && Retained(bs, dt)[k].dir == bs[KeptIndices(bs, dt)[k]].dir
    ensures forall k, l :: 0 <= k < l < |KeptIndices(bs, dt)| ==> KeptIndices(bs, dt)[k] < KeptIndices(bs, dt)[l]
    ensures forall i :: 0 <= i < |bs| ==> (i in KeptIndices(bs, dt) <==> OnCanvas(Advance(bs[i], dt)))
  {
    if bs != [] {
      var n := |bs| - 1;
      var front := bs[..n];
      RetainedIsFilter(front, dt);
      assert forall i :: 0 <= i < n ==> front[i] == bs[i];
    }
  }

  /** Retaining a list with one more bullet at its end keeps what the shorter list keeps,
      then that bullet if it stays on the canvas. */
  lemma RetainedAppend(bs: seq<Bullet>, b: Bullet, dt: real)
    ensures Retained(bs + [b], dt) == Retained(bs, dt) + if OnCanvas(Advance(b, dt)) then [Advance(b, dt)] else []
  {
    assert (bs + [b])[..|bs|] == bs;
  }

  // ---------------------------------------------------------------------------
  // One tick

  /** Left turns by −2.5·dt, then Right by +2.5·dt. */
  function Steer(rot: real, left: bool, right: bool, dt: real): real
  {
    var r := if left then rot - SteerSpeed * dt else rot;
    if right then r + SteerSpeed * dt else r
  }

  /** Up moves the triangle 25·dt along the heading (cos, sin)(rot + π/2), Down moves it back. */
  function Move(m: Ops, rot: real, x: real, y: real, up: bool, down: bool, dt: real): (real, real)
  {
    var sc := SinCos(m, rot + FracPi2);
    var x1 := if up then x + sc.1 * MoveSpeed * dt else x;
    var y1 := if up then y + sc.0 * MoveSpeed * dt else y;
    (if down then x1 - sc.1 * MoveSpeed * dt else x1, if down then y1 - sc.0 * MoveSpeed * dt else y1)
  }

  /** Down's step is taken from wherever Up's step left the triangle. */
  lemma MoveBySteps(m: Ops, rot: real, x: real, y: real, up: bool, down: bool, dt: real)
    ensures Move(m, rot, x, y, up, down, dt).0
      == if down then Move(m, rot, x, y, up, false, dt).0 - m.cos(rot + FracPi2) * MoveSpeed * dt else Move(m, rot, x, y, up, false, dt).0
    ensures Move(m, rot, x, y, up, down, dt).1
      == if down then Move(m, rot, x, y, up, false, dt).1 - m.sin(rot + FracPi2) * MoveSpeed * dt else Move(m, rot, x, y, up, false, dt).1
  {
  }

  /** An offset of `k` times a unit vector has squared length k². */
  lemma UnitOffset(dx: real, dy: real, u: Math.Vec2, k: real)
    requires Math.LengthSq(u) == 1.0 && dx == u.x * k && dy == u.y * k
    ensures dx * dx + dy * dy == k * k
  {
    Math.MulCompose(u, k, 1.0);
    assert Math.Mul(u, k) == Math.Vec2(dx, dy);
  }

  /** Up alone moves the triangle exactly 25·dt, when sin² + cos² = 1 at its heading. */
  lemma MoveDistance(m: Ops, rot: real, x: real, y: real, dt: real)
    requires Pythagorean(m, rot + FracPi2)
    ensures var p := Move(m, rot, x, y, true, false, dt);
      (p.0 - x) * (p.0 - x) + (p.1 - y) * (p.1 - y) == (MoveSpeed * dt) * (MoveSpeed * dt)
  {
    var u := Math.Vec2(m.cos(rot + FracPi2), m.sin(rot + FracPi2));
    var p := Move(m, rot, x, y, true, false, dt);
    assert p.0 - x == u.x * (MoveSpeed * dt) && p.1 - y == u.y * (MoveSpeed * dt);
    UnitOffset(p.0 - x, p.1 - y, u, MoveSpeed * dt);
  }

  /** A bullet fired along a heading where sin² + cos² = 1 flies exactly 45·dt per tick. */
  lemma BulletSpeedExact(m: Ops, rot: real, x: real, y: real, dt: real)
    requires Pythagorean(m, rot + FracPi2)
    ensures var b := Muzzle(m, rot, x, y); var a := Advance(b, dt);
      (a.x - b.x) * (a.x - b.x) + (a.y - b.y) * (a.y - b.y) == (BulletSpeed * dt) * (BulletSpeed * dt)
  {
    var u := Math.Vec2(m.cos(rot + FracPi2), m.sin(rot + FracPi2));
    var b := Muzzle(m, rot, x, y);
    var a := Advance(b, dt);
    assert b.dir == (u.y, u.x);
    assert a.x - b.x == u.x * BulletSpeed * dt && a.y - b.y == u.y * BulletSpeed * dt;
    assert a.x - b.x == u.x * (BulletSpeed * dt) && a.y - b.y == u.y * (BulletSpeed * dt);
    UnitOffset(a.x - b.x, a.y - b.y, u, BulletSpeed * dt);
  }

  /** The bullet fired from (x, y): 10 units ahead along the heading, flying along it. */
  function Muzzle(m: Ops, rot: real, x: real, y: real): Bullet
  {
    var dir := SinCos(m, rot + FracPi2);
    Bullet(x + dir.1 * TriTransformScale, y + dir.0 * TriTransformScale, dir)
  }

  /** X is down now and was up at the previous processed tick. */
  predicate Fires(keys: seq<bool>, prev: seq<bool>)
    requires |keys| == KeyCount && |prev| == KeyCount
  {
    keys[KeyX] && !prev[KeyX]
  }

  /** The whole microseconds of the frame time exceed `min_frame_time`. */
  predicate Due(frameNanos: nat)
  {
    frameNanos / 1000 > MinFrameTime
  }

  /** `Duration::as_secs_f32` */
  function DeltaTime(frameNanos: nat): real
  {
    frameNanos as real / 1000000000.0
  }

  /** The state the event loop's closure owns, as a value; clock readings are nanoseconds. */
  datatype State = State(rot: real, triX: real, triY: real, bullets: seq<Bullet>,
                         prevKeys: seq<bool>, lastRedraw: nat)

  /** What a `MainEventsCleared` event does to the state, with the keys held and the clock
      reading `now`. */
  function Step(m: Ops, s: State, keys: seq<bool>, now: nat): (t: State)
    requires |keys| == KeyCount && |s.prevKeys| == KeyCount && s.lastRedraw <= now
    ensures |t.prevKeys| == KeyCount && s.lastRedraw <= t.lastRedraw <= now
    ensures t == s || (t.prevKeys == keys && t.lastRedraw == now && AllOnCanvas(t.bullets))
  {
    var frame := now - s.lastRedraw;
    if !Due(frame) then s
    else
      var dt := DeltaTime(frame);
      var rot := Steer(s.rot, keys[KeyLeft], keys[KeyRight], dt);
      var p := Move(m, rot, s.triX, s.triY, keys[KeyUp], keys[KeyDown], dt);
      var fired := if Fires(keys, s.prevKeys) then s.bullets + [Muzzle(m, rot, p.0, p.1)] else s.bullets;
      State(rot, p.0, p.1, Retained(fired, dt), keys, now)
  }

  /** A frame of at most 17000 whole microseconds changes nothing. */
  lemma StepWaits(m: Ops, s: State, keys: seq<bool>, now: nat)
    requires |keys| == KeyCount && |s.prevKeys| == KeyCount && s.lastRedraw <= now
    requires (now - s.lastRedraw) / 1000 <= MinFrameTime
    ensures Step(m, s, keys, now) == s
  {
  }

  /** A processed tick takes the held keys as the new snapshot, restarts the frame clock,
      and leaves only on-canvas bullets behind. */
  lemma StepSnapshotsKeys(m: Ops, s: State, keys: seq<bool>, now: nat)
    requires |keys| == KeyCount && |s.prevKeys| == KeyCount && s.lastRedraw <= now
    requires Due(now - s.lastRedraw)
    ensures Step(m, s, keys, now).prevKeys == keys
    ensures Step(m, s, keys, now).lastRedraw == now
    ensures AllOnCanvas(Step(m, s, keys, now).bullets)
  {
  }

  /** Opposite keys cancel exactly, and a single key turns or moves by its full amount. */
  lemma SteerAndMoveKeys(m: Ops, rot: real, x: real, y: real, dt: real)
    ensures Steer(rot, true, true, dt) == rot
    ensures Steer(rot, true, false, dt) == rot - SteerSpeed * dt
    ensures Steer(rot, false, true, dt) == rot + SteerSpeed * dt
    ensures Move(m, rot, x, y, true, true, dt) == (x, y)
    ensures Move(m, rot, x, y, true, false, dt)
      == (x + m.cos(rot + FracPi2) * MoveSpeed * dt, y + m.sin(rot + FracPi2) * MoveSpeed * dt)
    ensures Move(m, rot, x, y, false, true, dt)
      == (x - m.cos(rot + FracPi2) * MoveSpeed * dt, y - m.sin(rot + FracPi2) * MoveSpeed * dt)
  {
    assert Steer(rot, true, true, dt) == rot;
    assert Steer(rot, true, false, dt) == rot - SteerSpeed * dt;
    assert Steer(rot, false, true, dt) == rot + SteerSpeed * dt;
    assert Move(m, rot, x, y, true, true, dt) == (x, y);
    var up := Move(m, rot, x, y, true, false, dt);
    assert up.0 == x + m.cos(rot + FracPi2) * MoveSpeed * dt;
    assert up.1 == y + m.sin(rot + FracPi2) * MoveSpeed * dt;
  }

  /** A processed tick adds a bullet exactly on a rising edge of X: the bullets are the
      survivors of the old ones, followed, when X has just been pressed and the new bullet
      is still on the canvas after its first move, by that bullet. */
  lemma FireOnRisingEdge(m: Ops, s: State, keys: seq<bool>, now: nat)
    requires |keys| == KeyCount && |s.prevKeys| == KeyCount && s.lastRedraw <= now
    requires Due(now - s.lastRedraw)
    ensures var t, dt := Step(m, s, keys, now), DeltaTime(now - s.lastRedraw);
      var shot := Advance(Muzzle(m, t.rot, t.triX, t.triY), dt);
      t.bullets == Retained(s.bullets, dt) + if Fires(keys, s.prevKeys) && OnCanvas(shot) then [shot] else []
  {
    var dt := DeltaTime(now - s.lastRedraw);
    var t := Step(m, s, keys, now);
    RetainedAppend(s.bullets, Muzzle(m, t.rot, t.triX, t.triY), dt);
  }

  /** Holding X across two processed ticks fires once: the second tick adds no bullet. */
  lemma HeldFireFiresOnce(m: Ops, s: State, keys: seq<bool>, now1: nat, now2: nat)
    requires |keys| == KeyCount && |s.prevKeys| == KeyCount && s.lastRedraw <= now1 <= now2
    requires Due(now1 - s.lastRedraw) && Due(now2 - now1)
    ensures var t := Step(m, s, keys, now1);
      Step(m, t, keys, now2).bullets == Retained(t.bullets, DeltaTime(now2 - now1))
  {
    var t := Step(m, s, keys, now1);
    FireOnRisingEdge(m, t, keys, now2);
  }

  /** The event-loop state: the triangle's pose, the bullets, both key snapshots and the time
      of the last processed tick. */
  class Game {
    var rot: real
    var triX: real
    var triY: real
    var bullets: seq<Bullet>
    var pressedKeys: array<bool>
    var prevPressedKeys: array<bool>
    var lastRedraw: nat

    ghost predicate Valid()
      reads this
    {
      pressedKeys.Length == KeyCount && prevPressedKeys.Length == KeyCount && pressedKeys != prevPressedKeys
    }

    /** The state `Step` acts on; `pressedKeys` is the tick's input. */
    function Snapshot(): State
      reads this, prevPressedKeys
    {
      State(rot, triX, triY, bullets, prevPressedKeys[..], lastRedraw)
    }

    /** The state `main` sets up before the loop starts at clock reading `now`. */
    constructor (now: nat)
      ensures Valid() && fresh(pressedKeys) && fresh(prevPressedKeys)
      ensures rot == 0.0 && triX == 80.0 && triY == 72.0 && bullets == [] && lastRedraw == now
      ensures forall k :: 0 <= k < KeyCount ==> !pressedKeys[k] && !prevPressedKeys[k]
    {
      rot := 0.0;
      triX, triY := (CanvasWidth / 2) as real, (CanvasHeight / 2) as real;
      bullets := [];
      pressedKeys := new bool[KeyCount](_ => false);
      prevPressedKeys := new bool[KeyCount](_ => false);
      lastRedraw := now;
    }

    /** A keyboard event: sets the one key's entry, true on Pressed, false on Released. */
    method KeyEvent(keycode: nat, state: ElementState)
      requires Valid() && keycode < KeyCount
      modifies pressedKeys
      ensures pressedKeys[..] == old(pressedKeys[..])[keycode := state == Pressed]
    {
      match state
      case Pressed => pressedKeys[keycode] := true;
      case Released => pressedKeys[keycode] := false;
    }

    /** `bullets.retain_mut(...)`: advance every bullet, drop those off the canvas. */
    method RetainBullets(dt: real)
      modifies this`bullets
      ensures bullets == Retained(old(bullets), dt)
    {
      var kept: seq<Bullet> := [];
      var i := 0;
      while i < |bullets|
        invariant 0 <= i <= |bullets|
        invariant kept == Retained(bullets[..i], dt)
      {
        var b := Advance(bullets[i], dt);
        if OnCanvas(b) {
          kept := kept + [b];
        }
        assert bullets[..i + 1][..i] == bullets[..i];
        i := i + 1;
      }
      assert bullets[..i] == bullets;
      bullets := kept;
    }

    /** The turning part of a tick: Left, then Right. */
    method Turn(dt: real)
      requires Valid()
      modifies this`rot
      ensures rot == Steer(old(rot), pressedKeys[KeyLeft], pressedKeys[KeyRight], dt)
    {
      if pressedKeys[KeyLeft] {
        rot := rot - SteerSpeed * dt;
      }
      if pressedKeys[KeyRight] {
        rot := rot + SteerSpeed * dt;
      }
    }

    /** The moving part of a tick: Up, then Down, along the current heading. */
    method Thrust(m: Ops, dt: real)
      requires Valid()
      modifies this`triX, this`triY
      ensures triX == Move(m, rot, old(triX), old(triY), pressedKeys[KeyUp], pressedKeys[KeyDown], dt).0
      ensures triY == Move(m, rot, old(triX), old(triY), pressedKeys[KeyUp], pressedKeys[KeyDown], dt).1
    {
      ghost var up, down := pressedKeys[KeyUp], pressedKeys[KeyDown];
      if pressedKeys[KeyUp] {
        var sc := SinCos(m, rot + FracPi2);
        triX := triX + sc.1 * MoveSpeed * dt;
        triY := triY + sc.0 * MoveSpeed * dt;
      }
      assert triX == Move(m, rot, old(triX), old(triY), up, false, dt).0;
      assert triY == Move(m, rot, old(triX), old(triY), up, false, dt).1;
      if pressedKeys[KeyDown] {
        var sc := SinCos(m, rot + FracPi2);
        triX := triX - sc.1 * MoveSpeed * dt;
        triY := triY - sc.0 * MoveSpeed * dt;
      }
      MoveBySteps(m, rot, old(triX), old(triY), up, down, dt);
    }

    /** The firing part of a tick: push a bullet on a rising edge of X. */
    method Fire(m: Ops)
      requires Valid()
      modifies this`bullets
      ensures bullets == old(bullets) + if Fires(pressedKeys[..], prevPressedKeys[..]) then [Muzzle(m, rot, triX, triY)] else []
    {
      if pressedKeys[KeyX] && !prevPressedKeys[KeyX] {
        var dir := SinCos(m, rot + FracPi2);
        bullets := bullets + [Bullet(triX + dir.1 * TriTransformScale, triY + dir.0 * TriTransformScale, dir)];
      }
    }

    /** A `MainEventsCleared` event at clock reading `now`. */
    method Tick(m: Ops, now: nat)
      requires Valid() && lastRedraw <= now
      modifies this, prevPressedKeys
      ensures Valid() && pressedKeys == old(pressedKeys) && prevPressedKeys == old(prevPressedKeys)
      ensures pressedKeys[..] == old(pressedKeys[..])
      ensures Snapshot() == Step(m, old(Snapshot()), pressedKeys[..], now)
    {
      ghost var s0, keys := Snapshot(), pressedKeys[..];
      var frameTime := now - lastRedraw;
      if frameTime / 1000 > MinFrameTime {
        var dt := frameTime as real / 1000000000.0;
        Turn(dt);
        Thrust(m, dt);
        ghost var p := Move(m, rot, s0.triX, s0.triY, keys[KeyUp], keys[KeyDown], dt);
        assert triX == p.0 && triY == p.1;
        Fire(m);
        ghost var fired := bullets;
        assert fired == if Fires(keys, s0.prevKeys) then s0.bullets + [Muzzle(m, rot, p.0, p.1)] else s0.bullets;
        RetainBullets(dt);
        lastRedraw := now;
        forall k | 0 <= k < KeyCount {
          prevPressedKeys[k] := pressedKeys[k];
        }
        assert prevPressedKeys[..] == keys;
        assert Snapshot() == State(rot, p.0, p.1, Retained(fired, dt), keys, now);
      }
    }
  }

  /** winit's `ElementState` */
  datatype ElementState = Pressed | Released
}
