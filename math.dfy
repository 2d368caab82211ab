/** The vector and transform API of the Rust variant (asteroids_rust/src/math.rs):
    `Vec2` with scaling, rotation and normalisation, and `Transform<N>`, which caches the
    world-space image of a local polygon. `f32` is modelled as `real`. */
module Math {
  import opened Libm

  /** `Vec2 { x, y }`; the constructor doubles as `Vec2::new` and `vec2`. */
  datatype Vec2 = Vec2(x: real, y: real)

  /** `v * k`, the `Mul<f32>` implementation */
  function Mul(v: Vec2, k: real): (r: Vec2)
    ensures k != 0.0 ==> r.x / k == v.x && r.y / k == v.y
  {
    Vec2(v.x * k, v.y * k)
  }

  function LengthSq(v: Vec2): real
  {
    v.x * v.x + v.y * v.y
  }

  function Sub(a: Vec2, b: Vec2): Vec2
  {
    Vec2(a.x - b.x, a.y - b.y)
  }

  /** The value `rotate_mut` leaves behind: rotation by `rot` radians, with both new
      components computed from the old ones. */
  function Rotated(m: Ops, v: Vec2, rot: real): Vec2
  {
    var s, c := m.sin(rot), m.cos(rot);
    Vec2(v.x * c - v.y * s, v.y * c + v.x * s)
  }

  /** The value `normalise_mut` leaves behind: both components divided by the length. */
  function Normalised(m: Ops, v: Vec2): Vec2
    requires m.sqrt(LengthSq(v)) != 0.0
  {
    var len := m.sqrt(LengthSq(v));
    Vec2(v.x / len, v.y / len)
  }

  /** Scaling commutes with every product in it, so `v * a * b` is `v * (a * b)`. */
  lemma MulCompose(v: Vec2, a: real, b: real)
    ensures Mul(Mul(v, a), b) == Mul(v, a * b)
    ensures LengthSq(Mul(v, a)) == a * a * LengthSq(v)
  {
    assert v.x * a * (v.x * a) == a * a * (v.x * v.x);
    assert v.y * a * (v.y * a) == a * a * (v.y * v.y);
  }

  /** A rotation keeps the length of the vector when sin² + cos² = 1 at its angle. */
  lemma RotatePreservesLength(m: Ops, v: Vec2, rot: real)
    requires Pythagorean(m, rot)
    ensures LengthSq(Rotated(m, v, rot)) == LengthSq(v)
  {
    var s, c := m.sin(rot), m.cos(rot);
    var r := Rotated(m, v, rot);
    calc {
      LengthSq(r);
      (v.x * c - v.y * s) * (v.x * c - v.y * s) + (v.y * c + v.x * s) * (v.y * c + v.x * s);
      v.x * v.x * (c * c + s * s) + v.y * v.y * (c * c + s * s);
      { assert c * c + s * s == 1.0; }
      LengthSq(v);
    }
  }

  /** Rotating by `rot` and then by `-rot` gives back the original vector. */
  lemma RotateInverse(m: Ops, v: Vec2, rot: real)
    requires Pythagorean(m, rot) && Symmetric(m, rot)
    ensures Rotated(m, Rotated(m, v, rot), -rot) == v
  {
    var s, c := m.sin(rot), m.cos(rot);
    var r := Rotated(m, v, rot);
    var b := Rotated(m, r, -rot);
    assert b.x == r.x * c + r.y * s;
    assert b.y == r.y * c - r.x * s;
    calc {
      r.x * c + r.y * s;
      (v.x * c - v.y * s) * c + (v.y * c + v.x * s) * s;
      v.x * (c * c + s * s);
      v.x;
    }
    calc {
      r.y * c - r.x * s;
      (v.y * c + v.x * s) * c - (v.x * c - v.y * s) * s;
      v.y * (c * c + s * s);
      v.y;
    }
  }

  /** `Transform::apply` rotates before it scales; the opposite order gives the same vector. */
  lemma RotateCommutesWithMul(m: Ops, v: Vec2, rot: real, k: real)
    ensures Rotated(m, Mul(v, k), rot) == Mul(Rotated(m, v, rot), k)
  {
    var s, c := m.sin(rot), m.cos(rot);
    assert v.x * k * c - v.y * k * s == (v.x * c - v.y * s) * k;
    assert v.y * k * c + v.x * k * s == (v.y * c + v.x * s) * k;
  }

  lemma SquareBoth(p: real, q: real)
    requires p == q
    ensures p * p == q * q
  {
  }

  lemma NonZeroProduct(p: real, q: real)
    requires p != 0.0 && q != 0.0
    ensures p * q != 0.0
  {
  }

  lemma ZeroFactor(t: real, len: real)
    requires len != 0.0 && t * len * len == 0.0
    ensures t == 0.0
  {
    if t != 0.0 {
      NonZeroProduct(t, len);
      NonZeroProduct(t * len, len);
      assert false;
    }
  }

  /** If (a, b) scaled by a nonzero `len` is (x, y) and len² = x² + y², then a² + b² = 1. */
  lemma UnitComponents(a: real, b: real, x: real, y: real, len: real)
    requires len != 0.0 && a * len == x && b * len == y && len * len == x * x + y * y
    ensures a * a + b * b == 1.0
  {
    SquareBoth(a * len, x);
    SquareBoth(b * len, y);
    assert (a * a + b * b - 1.0) * len * len == 0.0;
    ZeroFactor(a * a + b * b - 1.0, len);
  }

  /** When the library's sqrt is the positive square root, a normalised vector has length 1. */
  lemma NormaliseUnit(m: Ops, v: Vec2)
    requires SqrtAt(m, LengthSq(v))
    ensures LengthSq(Normalised(m, v)) == 1.0
  {
    var len := m.sqrt(LengthSq(v));
    assert (v.x / len) * len == v.x && (v.y / len) * len == v.y;
    UnitComponents(v.x / len, v.y / len, v.x, v.y, len);
  }

  /** A normalised vector scaled back by the length is the original vector: normalising
      keeps the direction. */
  lemma NormalisedRescales(m: Ops, v: Vec2)
    requires m.sqrt(LengthSq(v)) != 0.0
    ensures Mul(Normalised(m, v), m.sqrt(LengthSq(v))) == v
  {
  }

  /** A `Vec2` place that `&mut self` methods update field by field. */
  class MutVec2 {
    var x: real
    var y: real

    function Get(): Vec2
      reads this
    {
      Vec2(x, y)
    }

    /** The copy of `self` that the by-value `rotate` and `normalise` work on. */
    constructor (v: Vec2)
      ensures Get() == v
    {
      x, y := v.x, v.y;
    }

    /** `rotate_mut`: both new components are computed before either field is written. */
    method RotateMut(m: Ops, rot: real)
      modifies this
      ensures Get() == Rotated(m, old(Get()), rot)
    {
      var s, c := m.sin(rot), m.cos(rot);
      var nx := x * c - y * s;
      var ny := y * c + x * s;
      x := nx;
      y := ny;
    }

    /** `normalise_mut`: the length is taken once, before `x` changes. */
    method NormaliseMut(m: Ops)
      requires m.sqrt(LengthSq(Get())) != 0.0
      modifies this
      ensures Get() == Normalised(m, old(Get()))
    {
      assert x * x + y * y == LengthSq(Get());
      var len := m.sqrt(x * x + y * y);
      x := x / len;
      y := y / len;
    }
  }

  /** `Vec2::rotate`: `rotate_mut` applied to a copy of `v`. */
  method Rotate(m: Ops, v: Vec2, rot: real) returns (r: Vec2)
    ensures r == Rotated(m, v, rot)
  {
    var place := new MutVec2(v);
    place.RotateMut(m, rot);
    r := place.Get();
  }

  /** `Vec2::normalise`: `normalise_mut` applied to a copy of `v`. */
  method Normalise(m: Ops, v: Vec2) returns (r: Vec2)
    requires m.sqrt(LengthSq(v)) != 0.0
    ensures r == Normalised(m, v)
  {
    var place := new MutVec2(v);
    place.NormaliseMut(m);
    r := place.Get();
  }

  /** One vertex of `Transform::apply`: rotate, then scale, then translate by `pos`. */
  function WorldVertex(m: Ops, v: Vec2, rot: real, scale: real, pos: Vec2): Vec2
  {
    var r := Mul(Rotated(m, v, rot), scale);
    Vec2(r.x + pos.x, r.y + pos.y)
  }

  function WorldVertices(m: Ops, vs: seq<Vec2>, rot: real, scale: real, pos: Vec2): (ws: seq<Vec2>)
    ensures |ws| == |vs|
  {
    seq(|vs|, i requires 0 <= i < |vs| => WorldVertex(m, vs[i], rot, scale, pos))
  }

  /** Every world vertex lies at `scale` times the local vertex's distance from `pos`:
      the transform is a rotation about `pos` followed by a uniform scaling. */
  lemma WorldVertexDistance(m: Ops, v: Vec2, rot: real, scale: real, pos: Vec2)
    requires Pythagorean(m, rot)
    ensures LengthSq(Sub(WorldVertex(m, v, rot, scale, pos), pos)) == scale * scale * LengthSq(v)
  {
    var r := Rotated(m, v, rot);
    assert Sub(WorldVertex(m, v, rot, scale, pos), pos) == Mul(r, scale);
    MulCompose(r, scale, 1.0);
    RotatePreservesLength(m, v, rot);
  }

  /** `Transform<N>`: a polygon of N local vertices and its cached world-space image. */
  class Transform {
    var pos: Vec2
    var vertices: array<Vec2>
    var transform: array<Vec2>
    var scale: real
    var rot: real

    /** Both arrays have length N, and the struct owns them separately. */
    ghost predicate Valid()
      reads this
    {
      vertices.Length == transform.Length && vertices != transform
    }

    /** The world-space image the cache should hold for the current fields. */
    function World(m: Ops): seq<Vec2>
      reads this, vertices
    {
      WorldVertices(m, vertices[..], rot, scale, pos)
    }

    constructor (pos: Vec2, vertices: seq<Vec2>, transform: seq<Vec2>, scale: real, rot: real)
      requires |vertices| == |transform|
      ensures Valid() && fresh(this.vertices) && fresh(this.transform)
      ensures this.pos == pos && this.vertices[..] == vertices && this.transform[..] == transform
      ensures this.scale == scale && this.rot == rot
    {
      this.pos, this.scale, this.rot := pos, scale, rot;
      this.vertices := new Vec2[|vertices|](i requires 0 <= i < |vertices| => vertices[i]);
      this.transform := new Vec2[|transform|](i requires 0 <= i < |transform| => transform[i]);
    }

    /** `apply`: fills the cache from the local vertices; only the cache is written, and a
        cache that is already up to date is left as it was. */
    method Apply(m: Ops)
      requires Valid()
      modifies transform
      ensures transform[..] == WorldVertices(m, vertices[..], rot, scale, pos)
      ensures vertices[..] == old(vertices[..])
      ensures old(transform[..]) == old(World(m)) ==> transform[..] == old(transform[..])
    {
      var i := 0;
      while i < vertices.Length
        invariant 0 <= i <= vertices.Length
        invariant forall k :: 0 <= k < i ==> transform[k] == WorldVertex(m, vertices[k], rot, scale, pos)
      {
        var v := vertices[i];
        var r := Rotate(m, v, rot);
        transform[i] := Mul(r, scale);
        transform[i] := transform[i].(x := transform[i].x + pos.x);
        transform[i] := transform[i].(y := transform[i].y + pos.y);
        i := i + 1;
      }
    }
  }
}
