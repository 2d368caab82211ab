/** The ship simulation of the C variant (asteroids_c/main.c): one ship that steers,
    thrusts, coasts under per-axis friction with a dead zone, moves and wraps around the
    800×600 screen, and whose triangle is transformed to screen space every frame.
    raylib's vector helpers are modelled by what they compute; `float` is `real`. */
module AsteroidsC {
  import opened Libm
  import Math

  const Width: real := 800.0
  const Height: real := 600.0
  const ShipAcc: real := 65.0
  const ShipSteerSpeed: real := 2.5
  const ShipMinVelocity: real := 0.75
  const ShipFrictionAccMultiplier: real := 1.45
  /** raylib's PI */
  const Pi: real := 3.14159265358979323846
  const PiHalf: real := Pi * 0.5

  /** How much a coasting velocity component loses per second. */
  const FrictionRate: real := ShipAcc * ShipFrictionAccMultiplier

  /** raylib's `Vector2` */
  datatype Vector2 = Vector2(x: real, y: real)

  /** raylib's `Vector2Add` */
  function Add(a: Vector2, b: Vector2): Vector2
  {
    Vector2(a.x + b.x, a.y + b.y)
  }

  /** raylib's `Vector2Subtract` */
  function Subtract(a: Vector2, b: Vector2): Vector2
  {
    Vector2(a.x - b.x, a.y - b.y)
  }

  /** raylib's `Vector2Scale` */
  function Scale(v: Vector2, k: real): Vector2
  {
    Vector2(v.x * k, v.y * k)
  }

  /** raylib's `Vector2Normalize`, which returns (0, 0) for a vector of length 0. */
  function Normalize(m: Ops, v: Vector2): Vector2
  {
    var len := m.sqrt(v.x * v.x + v.y * v.y);
    if len > 0.0 then Vector2(v.x * (1.0 / len), v.y * (1.0 / len)) else Vector2(0.0, 0.0)
  }

  // ---------------------------------------------------------------------------
  // wrapScreen

  /** `wrapScreen`: each axis on its own, a coordinate below 0 jumps to the far edge and one
      beyond the far edge jumps to 0; the screen is the closed range [0, Width] × [0, Height]. */
  function WrapScreen(v: Vector2): (r: Vector2)
    ensures 0.0 <= r.x <= Width && 0.0 <= r.y <= Height
  {
    var x := if v.x < 0.0 then Width else if v.x > Width then 0.0 else v.x;
    var y := if v.y < 0.0 then Height else if v.y > Height then 0.0 else v.y;
    Vector2(x, y)
  }

  /** A point is left where it is exactly when it is on the closed screen. */
  lemma WrapScreenFixesScreen(v: Vector2)
    ensures WrapScreen(v) == v <==> (0.0 <= v.x <= Width && 0.0 <= v.y <= Height)
  {
  }

  /** Leaving over an edge lands on the opposite edge; a coordinate inside its range is kept. */
  lemma WrapScreenEdges(v: Vector2)
    ensures v.x < 0.0 ==> WrapScreen(v).x == Width
    ensures v.x > Width ==> WrapScreen(v).x == 0.0
    ensures 0.0 <= v.x <= Width ==> WrapScreen(v).x == v.x
    ensures v.y < 0.0 ==> WrapScreen(v).y == Height
    ensures v.y > Height ==> WrapScreen(v).y == 0.0
    ensures 0.0 <= v.y <= Height ==> WrapScreen(v).y == v.y
  {
  }

  /** The two axes wrap independently: each output coordinate depends on its own input only. */
  lemma WrapScreenAxesIndependent(v: Vector2, w: Vector2)
    ensures v.x == w.x ==> WrapScreen(v).x == WrapScreen(w).x
    ensures v.y == w.y ==> WrapScreen(v).y == WrapScreen(w).y
  {
  }

  /** Wrapping twice is wrapping once. */
  lemma WrapScreenIdempotent(v: Vector2)
    ensures WrapScreen(WrapScreen(v)) == WrapScreen(v)
  {
    WrapScreenFixesScreen(WrapScreen(v));
  }

  // ---------------------------------------------------------------------------
  // transformVertices

  /** One vertex of `transformVertices`: rotated by `rot`, scaled, translated by `pos`. */
  function TransformedVertex(m: Ops, rot: real, scale: real, pos: Vector2, v: Vector2): Vector2
  {
    var s, c := m.sin(rot), m.cos(rot);
    Vector2((v.x * c - v.y * s) * scale + pos.x, (v.y * c + v.x * s) * scale + pos.y)
  }

  /** The C vertex transform and the Rust `Transform::apply` compute the same vertex. */
  lemma TransformedVertexAgreesWithApply(m: Ops, rot: real, scale: real, pos: Vector2, v: Vector2)
    ensures var w := Math.WorldVertex(m, Math.Vec2(v.x, v.y), rot, scale, Math.Vec2(pos.x, pos.y));
      TransformedVertex(m, rot, scale, pos, v) == Vector2(w.x, w.y)
  {
    var s, c := m.sin(rot), m.cos(rot);
    var r := Math.Rotated(m, Math.Vec2(v.x, v.y), rot);
    assert r == Math.Vec2(v.x * c - v.y * s, v.y * c + v.x * s);
  }

  /** Every transformed vertex lies at `scale` times the local vertex's distance from `pos`. */
  lemma TransformedVertexDistance(m: Ops, rot: real, scale: real, pos: Vector2, v: Vector2)
    requires Pythagorean(m, rot)
    ensures var t := Subtract(TransformedVertex(m, rot, scale, pos, v), pos);
      t.x * t.x + t.y * t.y == scale * scale * (v.x * v.x + v.y * v.y)
  {
    var mv, mp := Math.Vec2(v.x, v.y), Math.Vec2(pos.x, pos.y);
    TransformedVertexAgreesWithApply(m, rot, scale, pos, v);
    Math.WorldVertexDistance(m, mv, rot, scale, mp);
  }

  /** `transformVertices`: writes the first `vertexCount` cells of `transform` and nothing
      else; `vertices` is only read. */
  method TransformVertices(m: Ops, rot: real, scale: real, pos: Vector2,
                           vertices: array<Vector2>, transform: array<Vector2>, vertexCount: nat)
    requires vertexCount <= vertices.Length && vertexCount <= transform.Length
    requires vertices != transform
    modifies transform
    ensures forall i :: 0 <= i < vertexCount ==> transform[i] == TransformedVertex(m, rot, scale, pos, vertices[i])
    ensures forall i :: vertexCount <= i < transform.Length ==> transform[i] == old(transform[i])
  {
    var i: nat := 0;
    while i < vertexCount
      invariant i <= vertexCount
      invariant forall k :: 0 <= k < i ==> transform[k] == TransformedVertex(m, rot, scale, pos, vertices[k])
      invariant forall k :: i <= k < transform.Length ==> transform[k] == old(transform[k])
    {
      var s := m.sin(rot);
      var c := m.cos(rot);
      var v := vertices[i];
      ghost var t := TransformedVertex(m, rot, scale, pos, v);
      transform[i] := transform[i].(x := (v.x * c - v.y * s) * scale + pos.x);
      assert transform[i].x == t.x;
      transform[i] := transform[i].(y := (v.y * c + v.x * s) * scale + pos.y);
      assert transform[i] == t;
      i := i + 1;
    }
  }

  // ---------------------------------------------------------------------------
  // The ship update of one frame

  /** The arrow keys held during the frame. */
  datatype Keys = Keys(right: bool, left: bool, up: bool, down: bool)

  /** Right turns by +2.5·delta, then Left by −2.5·delta. */
  function Steer(rot: real, keys: Keys, delta: real): (r: real)
    ensures keys.right == keys.left ==> r == rot
  {
    var r := if keys.right then rot + ShipSteerSpeed * delta else rot;
    if keys.left then r - ShipSteerSpeed * delta else r
  }

  /** The thrust of one frame: the heading (rot + π/2) scaled by ShipAcc·delta. */
  function Forward(m: Ops, rot: real, delta: real): Vector2
  {
    Scale(Vector2(m.cos(rot + PiHalf), m.sin(rot + PiHalf)), ShipAcc * delta)
  }

  /** The thrust of one frame has length ShipAcc·delta: it is the unit heading, scaled. */
  lemma ForwardLength(m: Ops, rot: real, delta: real)
    requires Pythagorean(m, rot + PiHalf)
    ensures var f := Forward(m, rot, delta);
      f.x * f.x + f.y * f.y == (ShipAcc * delta) * (ShipAcc * delta)
  {
    var u := Math.Vec2(m.cos(rot + PiHalf), m.sin(rot + PiHalf));
    Math.MulCompose(u, ShipAcc * delta, 1.0);
    assert Math.LengthSq(u) == 1.0;
  }

  /** Friction on one velocity component of a coasting ship. */
  function Friction(v: real, delta: real): (r: real)
    ensures -ShipMinVelocity < v < ShipMinVelocity ==> r == 0.0
    ensures 0.0 <= delta ==> (v >= 0.0 ==> r <= v) && (v <= 0.0 ==> r >= v)
  {
    if v >= ShipMinVelocity then v - FrictionRate * delta
    else if v <= -ShipMinVelocity then v + FrictionRate * delta
    else 0.0
  }

  /** The new velocity: Up adds the thrust, Down subtracts it, and only when neither is
      held does friction act, on each axis separately. */
  function Drive(m: Ops, rot: real, velocity: Vector2, keys: Keys, delta: real): (r: Vector2)
    ensures keys.up && keys.down ==> r == velocity
    ensures !keys.up && !keys.down && velocity == Vector2(0.0, 0.0) ==> r == velocity
  {
    var forward := Forward(m, rot, delta);
    var v1 := if keys.up then Add(velocity, forward) else velocity;
    var v2 := if keys.down then Subtract(v1, forward) else v1;
    if keys.up || keys.down then v2 else Vector2(Friction(v2.x, delta), Friction(v2.y, delta))
  }

  /** Holding both turn keys leaves the rotation as it was; one key turns by ±2.5·delta. */
  lemma SteerKeys(rot: real, keys: Keys, delta: real)
    ensures keys.right == keys.left ==> Steer(rot, keys, delta) == rot
    ensures keys.right && !keys.left ==> Steer(rot, keys, delta) == rot + ShipSteerSpeed * delta
    ensures keys.left && !keys.right ==> Steer(rot, keys, delta) == rot - ShipSteerSpeed * delta
  {
  }

  /** While Up or Down is held there is no friction: the velocity moves by exactly the
      thrust, and holding both leaves it unchanged. */
  lemma ThrustWithoutFriction(m: Ops, rot: real, velocity: Vector2, keys: Keys, delta: real)
    requires keys.up || keys.down
    ensures keys.up && keys.down ==> Drive(m, rot, velocity, keys, delta) == velocity
    ensures keys.up && !keys.down ==> Drive(m, rot, velocity, keys, delta) == Add(velocity, Forward(m, rot, delta))
    ensures keys.down && !keys.up ==> Drive(m, rot, velocity, keys, delta) == Subtract(velocity, Forward(m, rot, delta))
  {
  }

  /** With neither Up nor Down held, a component inside the dead zone (|v| < 0.75) becomes
      exactly 0, and one outside it moves towards 0 by exactly FrictionRate·delta. */
  lemma CoastingFriction(m: Ops, rot: real, velocity: Vector2, keys: Keys, delta: real)
    requires !keys.up && !keys.down
    ensures var v := Drive(m, rot, velocity, keys, delta);
      && (-ShipMinVelocity < velocity.x < ShipMinVelocity ==> v.x == 0.0)
      && (-ShipMinVelocity < velocity.y < ShipMinVelocity ==> v.y == 0.0)
      && (velocity.x >= ShipMinVelocity ==> v.x == velocity.x - FrictionRate * delta)
      && (velocity.x <= -ShipMinVelocity ==> v.x == velocity.x + FrictionRate * delta)
      && (velocity.y >= ShipMinVelocity ==> v.y == velocity.y - FrictionRate * delta)
      && (velocity.y <= -ShipMinVelocity ==> v.y == velocity.y + FrictionRate * delta)
  {
  }

  /** A coasting component after `n` frames of the same length `delta`. */
  function FrictionIter(v: real, delta: real, n: nat): real
    decreases n
  {
    if n == 0 then v else FrictionIter(Friction(v, delta), delta, n - 1)
  }

  lemma {:induction false} FrictionIterAtRest(delta: real, n: nat)
    ensures FrictionIter(0.0, delta, n) == 0.0
  {
    if n > 0 {
      FrictionIterAtRest(delta, n - 1);
    }
  }

  /** When one frame's friction is smaller than the width of the dead zone (2·0.75), a
      coasting component comes to rest: one with |v| < 0.75 + n·FrictionRate·delta is
      exactly 0 after n + 1 frames. */
  lemma {:induction false} FrictionSettles(v: real, delta: real, n: nat)
    requires 0.0 < FrictionRate * delta < 2.0 * ShipMinVelocity
    requires -(ShipMinVelocity + n as real * FrictionRate * delta) < v < ShipMinVelocity + n as real * FrictionRate * delta
    ensures FrictionIter(v, delta, n + 1) == 0.0
    decreases n
  {
    var w := Friction(v, delta);
    if -ShipMinVelocity < v < ShipMinVelocity {
      assert w == 0.0;
      FrictionIterAtRest(delta, n);
    } else {
      assert n > 0;
      FrictionSettles(w, delta, n - 1);
    }
  }

  /** At raylib's target of 60 frames per second one frame's friction (94.25/60 ≈ 1.571) is
      wider than the dead zone, so a coasting component of 0.76 alternates between 0.76 and
      0.76 − 94.25/60 and is never set to 0. */
  lemma {:induction false} FrictionOscillatesAt60Fps(n: nat)
    ensures FrictionIter(0.76, 1.0 / 60.0, n) == if n % 2 == 0 then 0.76 else 0.76 - FrictionRate / 60.0
    ensures FrictionIter(0.76 - FrictionRate / 60.0, 1.0 / 60.0, n) == if n % 2 == 0 then 0.76 - FrictionRate / 60.0 else 0.76
    ensures FrictionIter(0.76, 1.0 / 60.0, n) != 0.0
  {
    var d := 1.0 / 60.0;
    var a, b := 0.76, 0.76 - FrictionRate / 60.0;
    assert Friction(a, d) == b;
    assert Friction(b, d) == a;
    if n > 0 {
      FrictionOscillatesAt60Fps(n - 1);
    }
  }

  /** `Ship`: the triangle, its pose, its velocity and the cached screen-space triangle. */
  class Ship {
    var vertices: array<Vector2>
    var pos: Vector2
    var rot: real
    var scale: real
    var velocity: Vector2
    var transform: array<Vector2>

    ghost predicate Valid()
      reads this
    {
      vertices.Length == 3 && transform.Length == 3 && vertices != transform
    }

    /** The ship `main` sets up: centred, pointing at π/2, scale 30, at rest. */
    constructor (m: Ops)
      ensures Valid() && fresh(vertices) && fresh(transform)
      ensures vertices[..] == [Vector2(0.0, 1.0), Normalize(m, Vector2(-1.0, -1.0)), Normalize(m, Vector2(1.0, -1.0))]
      ensures pos == Vector2(Width / 2.0, Height / 2.0) && rot == Pi * 0.5 && scale == 30.0
      ensures velocity == Vector2(0.0, 0.0)
      ensures transform[..] == [Vector2(0.0, 0.0), Vector2(0.0, 0.0), Vector2(0.0, 0.0)]
    {
      var vs := new Vector2[3];
      vs[0] := Vector2(0.0, 1.0);
      vs[1] := Normalize(m, Vector2(-1.0, -1.0));
      vs[2] := Normalize(m, Vector2(1.0, -1.0));
      vertices := vs;
      pos := Vector2(Width / 2.0, Height / 2.0);
      rot := Pi * 0.5;
      scale := 30.0;
      velocity := Vector2(0.0, 0.0);
      transform := new Vector2[3](_ => Vector2(0.0, 0.0));
    }

    /** The steering block of a frame: Right, then Left. */
    method SteerShip(keys: Keys, delta: real)
      modifies this`rot
      ensures rot == Steer(old(rot), keys, delta)
    {
      if keys.right {
        rot := rot + ShipSteerSpeed * delta;
      }
      if keys.left {
        rot := rot - ShipSteerSpeed * delta;
      }
    }

    /** The thrust and friction block of a frame, at the already updated rotation. */
    method DriveShip(m: Ops, keys: Keys, delta: real)
      modifies this`velocity
      ensures velocity == Drive(m, rot, old(velocity), keys, delta)
    {
      var forward := Scale(Vector2(m.cos(rot + PiHalf), m.sin(rot + PiHalf)), ShipAcc * delta);
      assert forward == Forward(m, rot, delta);
      var moving := false;
      if keys.up {
        moving := true;
        velocity := Add(velocity, forward);
      }
      if keys.down {
        moving := true;
        velocity := Subtract(velocity, forward);
      }
      if !moving {
        ghost var v := velocity;
        if velocity.x >= ShipMinVelocity {
          velocity := velocity.(x := velocity.x - ShipAcc * ShipFrictionAccMultiplier * delta);
        } else if velocity.x <= -ShipMinVelocity {
          velocity := velocity.(x := velocity.x + ShipAcc * ShipFrictionAccMultiplier * delta);
        } else {
          velocity := velocity.(x := 0.0);
        }
        assert velocity == Vector2(Friction(v.x, delta), v.y);
        if velocity.y >= ShipMinVelocity {
          velocity := velocity.(y := velocity.y - ShipAcc * ShipFrictionAccMultiplier * delta);
        } else if velocity.y <= -ShipMinVelocity {
          velocity := velocity.(y := velocity.y + ShipAcc * ShipFrictionAccMultiplier * delta);
        } else {
          velocity := velocity.(y := 0.0);
        }
        assert velocity == Vector2(Friction(v.x, delta), Friction(v.y, delta));
      }
    }

    /** One pass of the frame loop, without the drawing: steer, thrust or coast, move,
        wrap, and refresh the screen-space triangle. */
    method Update(m: Ops, keys: Keys, delta: real)
      requires Valid()
      modifies this, transform
      ensures Valid() && vertices == old(vertices) && transform == old(transform)
      ensures vertices[..] == old(vertices[..]) && scale == old(scale)
      ensures rot == Steer(old(rot), keys, delta)
      ensures velocity == Drive(m, rot, old(velocity), keys, delta)
      ensures pos == WrapScreen(Add(old(pos), Scale(velocity, delta)))
      ensures 0.0 <= pos.x <= Width && 0.0 <= pos.y <= Height
      ensures forall i :: 0 <= i < 3 ==> transform[i] == TransformedVertex(m, rot, scale, pos, vertices[i])
    {
      SteerShip(keys, delta);
      DriveShip(m, keys, delta);
      pos := Add(pos, Scale(velocity, delta));
      pos := WrapScreen(pos);
      TransformVertices(m, rot, scale, pos, vertices, transform, 3);
    }
  }
}
