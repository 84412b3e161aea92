/** `Point3<int>` (src/point3.h): an affine position. A point moved by a
    vector is a point, the difference of two points is a vector, and the
    sum of two points is, by the source's own shortcut, a vector too. The
    mutable object `Point3Var` models the members that assign in place. */
module Points {
  import opened Failures
  import opened Scalars
  import opened Tuples
  import Vector3

  /** `Point3()`: the origin. */
  function Default(): Point3 { Point3(0, 0, 0) }

  /** `Point3(const Vec4&)`: copies `x`, `y`, `z`; `w` is dropped. */
  function FromVec4(v: Vec4): Point3 { Point3(v.x, v.y, v.z) }

  /** `Point3(const Vec3&)`. */
  function FromVec3(v: Vec3): Point3 { Point3(v.x, v.y, v.z) }

  /** `Point3(const Normal3&)`. */
  function FromNormal3(n: Normal3): Point3 { Point3(n.x, n.y, n.z) }

  /** The members in declaration order. */
  function Components(p: Point3): (s: seq<int>)
    ensures |s| == 3
  {
    [p.x, p.y, p.z]
  }

  /** `p[i]`: indices 0, 1, 2 are `x`, `y`, `z`; any other index throws
      `std::out_of_range`. */
  function At(p: Point3, i: int): (r: Result<int>)
    ensures r.Ok? <==> 0 <= i < 3
    ensures r.Err? ==> r.error == OutOfRange
    ensures r.Ok? ==> r.value == Components(p)[i]
  {
    if i < 0 || i > 2 then Err(OutOfRange)
    else if i == 0 then Ok(p.x)
    else if i == 1 then Ok(p.y)
    else Ok(p.z)
  }

  /** `a <=> b`, defaulted: lexicographic on `(x, y, z)`. */
  function Compare(a: Point3, b: Point3): (r: Ordering)
    ensures r == Equal <==> a == b
    ensures r == Less <==>
      a.x < b.x || (a.x == b.x && (a.y < b.y || (a.y == b.y && a.z < b.z)))
  {
    Then(Cmp(a.x, b.x), Then(Cmp(a.y, b.y), Cmp(a.z, b.z)))
  }

  /** `p.is_zero()`: equality with the origin. */
  predicate IsZero(p: Point3) { p == Point3(0, 0, 0) }

  /** `p + v`, a member: the point moved by `v`. */
  function AddVec(p: Point3, v: Vec3): Point3 { Point3(p.x + v.x, p.y + v.y, p.z + v.z) }

  /** `p + q`, a member: the sum of the two position vectors. */
  function AddPoint(p: Point3, q: Point3): Vec3 { Vec3(p.x + q.x, p.y + q.y, p.z + q.z) }

  /** `p - v`, a member: the point moved by `-v`. */
  function SubVec(p: Point3, v: Vec3): Point3 { Point3(p.x - v.x, p.y - v.y, p.z - v.z) }

  /** `p - q`, a member: the displacement from `q` to `p`. */
  function SubPoint(p: Point3, q: Point3): Vec3 { Vec3(p.x - q.x, p.y - q.y, p.z - q.z) }

  /** `v - p`, a free operator. */
  function VecSubPoint(v: Vec3, p: Point3): Vec3 { Vec3(v.x - p.x, v.y - p.y, v.z - p.z) }

  /** `v + p`, a free operator. */
  function VecAddPoint(v: Vec3, p: Point3): Vec3 { Vec3(v.x + p.x, v.y + p.y, v.z + p.z) }

  /** `p + num`. */
  function AddScalar(p: Point3, num: int): Point3 { Point3(p.x + num, p.y + num, p.z + num) }

  /** `p * num`. */
  function MulScalar(p: Point3, num: int): Point3 { Point3(p.x * num, p.y * num, p.z * num) }

  /** `num * p`, written in the source as `p * num`. */
  function ScalarMul(num: int, p: Point3): Point3 { MulScalar(p, num) }

  /** Moving a point by a vector and back returns it; adding the
      displacement from `q` to `p` to `q` gives `p`. */
  lemma Cancellation(p: Point3, q: Point3, v: Vec3)
    ensures SubVec(AddVec(p, v), v) == p
    ensures AddVec(SubVec(p, v), v) == p
    ensures AddVec(q, SubPoint(p, q)) == p
    ensures SubVec(p, SubPoint(p, q)) == q
  {
  }

  /** Displacements compose and reverse. */
  lemma DisplacementLaws(p: Point3, q: Point3, s: Point3)
    ensures Vector3.Add(SubPoint(p, q), SubPoint(q, s)) == SubPoint(p, s)
    ensures SubPoint(q, p) == Vector3.Neg(SubPoint(p, q))
    ensures Vector3.IsZero(SubPoint(p, p))
  {
  }

  /** Every vector is a displacement: from any base point `q` the point
      `q + v` lies at displacement `v`, and two points with the same displacement
      from `q` are the same point. */
  lemma DisplacementsRealised(q: Point3, v: Vec3, p1: Point3, p2: Point3)
    ensures SubPoint(AddVec(q, v), q) == v
    ensures exists p :: SubPoint(p, q) == v
    ensures SubPoint(p1, q) == SubPoint(p2, q) ==> p1 == p2
  {
    assert SubPoint(AddVec(q, v), q) == v;
  }

  /** Every Vec3-valued operator agrees with the vector arithmetic on the
      position vectors of its point operands. */
  lemma VectorValuedForms(p: Point3, q: Point3, v: Vec3)
    ensures SubPoint(p, q) == Vector3.Sub(Vector3.FromPoint3(p), Vector3.FromPoint3(q))
    ensures AddPoint(p, q) == Vector3.Add(Vector3.FromPoint3(p), Vector3.FromPoint3(q))
    ensures VecAddPoint(v, p) == Vector3.Add(v, Vector3.FromPoint3(p))
    ensures VecSubPoint(v, p) == Vector3.Sub(v, Vector3.FromPoint3(p))
    ensures AddPoint(p, q) == AddPoint(q, p)
  {
  }

  /** Point translation agrees with vector addition on the position vector. */
  lemma TranslationForms(p: Point3, v: Vec3)
    ensures Vector3.FromPoint3(AddVec(p, v)) == Vector3.Add(Vector3.FromPoint3(p), v)
    ensures Vector3.FromPoint3(SubVec(p, v)) == Vector3.Sub(Vector3.FromPoint3(p), v)
  {
  }

  /** The scalar operators act on every component, and `num * p` is `p * num`. */
  lemma ScalarForms(p: Point3, num: int, i: int)
    requires 0 <= i < 3
    ensures ScalarMul(num, p) == MulScalar(p, num)
    ensures Components(MulScalar(p, num))[i] == Components(p)[i] * num
    ensures Components(AddScalar(p, num))[i] == Components(p)[i] + num
  {
  }

  /** The default point is the origin, and `is_zero()` holds exactly there. */
  lemma OriginIsZero(p: Point3)
    ensures IsZero(p) <==> p.x == 0 && p.y == 0 && p.z == 0
    ensures IsZero(p) <==> p == Default()
  {
  }

  /** The conversions copy `x`, `y`, `z` and ignore `w`, and a point
      converted to a vector and back is unchanged. */
  lemma ConversionsCopy(v: Vec4, t: int, u: Vec3, n: Normal3, p: Point3)
    ensures Components(FromVec4(v)) == [v.x, v.y, v.z]
    ensures FromVec4(v.(w := t)) == FromVec4(v)
    ensures Components(FromVec3(u)) == Vector3.Components(u)
    ensures Components(FromNormal3(n)) == [n.x, n.y, n.z]
    ensures FromVec3(Vector3.FromPoint3(p)) == p
    ensures Vector3.FromPoint3(FromVec3(u)) == u
  {
  }

  /** The point arithmetic the test suite states. */
  lemma Examples()
    ensures SubPoint(Point3(0, 2, 4), Point3(1, 0, 4)) == Vec3(-1, 2, 0)
    ensures IsZero(SubVec(Point3(3, 4, 5), Vec3(3, 4, 5)))
    ensures AddVec(Point3(0, -1, -8), Vec3(-4, 5, 9)) == Point3(-4, 4, 1)
  {
  }

  /** The defaulted `<=>` is antisymmetric and its `<` is transitive. */
  lemma CompareOrder(a: Point3, b: Point3, c: Point3)
    ensures Compare(b, a) == Compare(a, b).Flip()
    ensures Compare(a, b) == Less && Compare(b, c) == Less ==> Compare(a, c) == Less
  {
  }

  /** A `Point3<int>` object: the members that the setters, `set`,
      `operator=(const Vec4&)` and the reference form of `operator[]`
      assign in place. */
  class Point3Var {
    var x: int
    var y: int
    var z: int

    /** The value the object holds. */
    function Value(): Point3
      reads this
    {
      Point3(x, y, z)
    }

    /** `Point3()`. */
    constructor ()
      ensures Value() == Default()
    {
      x, y, z := 0, 0, 0;
    }

    /** `Point3(x, y, z)`. */
    constructor Make(px: int, py: int, pz: int)
      ensures Value() == Point3(px, py, pz)
    {
      x, y, z := px, py, pz;
    }

    /** `x(x)`: only `x` changes. */
    method SetX(num: int)
      modifies this
      ensures Value() == old(Value()).(x := num)
    {
      x := num;
    }

    /** `y(y)`: only `y` changes. */
    method SetY(num: int)
      modifies this
      ensures Value() == old(Value()).(y := num)
    {
      y := num;
    }

    /** `z(z)`: only `z` changes. */
    method SetZ(num: int)
      modifies this
      ensures Value() == old(Value()).(z := num)
    {
      z := num;
    }

    /** `set(n)`: every component becomes `n`. */
    method SetAll(n: int)
      modifies this
      ensures Value() == Point3(n, n, n)
    {
      x, y, z := n, n, n;
    }

    /** `operator=(const Vec4&)`: copies `x`, `y`, `z`, dropping `w`. */
    method AssignVec4(v: Vec4)
      modifies this
      ensures Value() == FromVec4(v)
    {
      x, y, z := v.x, v.y, v.z;
    }

    /** `p[i] = num` through the reference form of `operator[]`: throws
        `std::out_of_range` for an index outside 0..2 and changes nothing;
        otherwise component `i` alone becomes `num`. */
    method AssignAt(i: int, num: int) returns (r: Outcome)
      modifies this
      ensures r.Pass? <==> 0 <= i < 3
      ensures r.Fail? ==> r.error == OutOfRange && Value() == old(Value())
      ensures r.Pass? ==> At(Value(), i) == Ok(num)
      ensures forall j :: j != i ==> At(Value(), j) == At(old(Value()), j)
    {
      if i < 0 || i > 2 {
        return Fail(OutOfRange);
      }
      if i == 0 {
        x := num;
      } else if i == 1 {
        y := num;
      } else {
        z := num;
      }
      r := Pass;
    }
  }
}
