/** `Vec4<int>` (src/vec4.h): a homogeneous 4-tuple. Converting a `Vec3` or
    a `Normal3` tags it with `w = 0`, converting a `Point3` with `w = 1`,
    and converting back drops `w`. Indexing, comparison, unary operators,
    the free arithmetic operators and `dot` act on all four components. The
    mutable object `Vec4Var` models the members that assign in place. */
module Vector4 {
  import opened Failures
  import opened Scalars
  import opened Tuples
  import Vector3
  import Points
  import Normals

  /** `Vec4()`: every member is initialised to zero. */
  function Default(): Vec4 { Vec4(0, 0, 0, 0) }

  /** `Vec4::create_unit_vec()`: all four components one, `w` included. */
  function UnitVec(): Vec4 { Vec4(1, 1, 1, 1) }

  /** `Vec4(const Vec3&)`: a direction, `w = 0`. */
  function FromVec3(v: Vec3): Vec4 { Vec4(v.x, v.y, v.z, 0) }

  /** `Vec4(const Point3&)`: a point, `w = 1`. */
  function FromPoint3(p: Point3): Vec4 { Vec4(p.x, p.y, p.z, 1) }

  /** `Vec4(const Normal3&)`: a direction, `w = 0`. */
  function FromNormal3(n: Normal3): Vec4 { Vec4(n.x, n.y, n.z, 0) }

  /** The members in declaration order. */
  function Components(v: Vec4): (s: seq<int>)
    ensures |s| == 4
  {
    [v.x, v.y, v.z, v.w]
  }

  /** `v[i]`: indices 0..3 are `x`, `y`, `z`, `w`; any other index throws
      `std::out_of_range`. */
  function At(v: Vec4, i: int): (r: Result<int>)
    ensures r.Ok? <==> 0 <= i < 4
    ensures r.Err? ==> r.error == OutOfRange
    ensures r.Ok? ==> r.value == Components(v)[i]
  {
    if i < 0 || i > 3 then Err(OutOfRange)
    else if i == 0 then Ok(v.x)
    else if i == 1 then Ok(v.y)
    else if i == 2 then Ok(v.z)
    else Ok(v.w)
  }

  /** `a <=> b`, defaulted: lexicographic on `(x, y, z, w)`. */
  function Compare(a: Vec4, b: Vec4): (r: Ordering)
    ensures r == Equal <==> a == b
    ensures r == Less <==>
      || a.x < b.x
      || (a.x == b.x && a.y < b.y)
      || (a.x == b.x && a.y == b.y && a.z < b.z)
      || (a.x == b.x && a.y == b.y && a.z == b.z && a.w < b.w)
  {
    Then(Cmp(a.x, b.x), Then(Cmp(a.y, b.y), Then(Cmp(a.z, b.z), Cmp(a.w, b.w))))
  }

  /** Unary `+v`: a copy. */
  function Pos(v: Vec4): Vec4 { Vec4(v.x, v.y, v.z, v.w) }

  /** Unary `-v`: all four components negated, `w` included. */
  function Neg(v: Vec4): Vec4 { Vec4(-v.x, -v.y, -v.z, -v.w) }

  /** `v.is_zero()`: equality with `Vec4(0, 0, 0, 0)`. */
  predicate IsZero(v: Vec4) { v == Vec4(0, 0, 0, 0) }

  function Add(a: Vec4, b: Vec4): Vec4 { Vec4(a.x + b.x, a.y + b.y, a.z + b.z, a.w + b.w) }

  /** `v + num`. */
  function AddScalar(v: Vec4, num: int): Vec4 { Vec4(v.x + num, v.y + num, v.z + num, v.w + num) }

  /** `num + v`, written in the source as `v + num`. */
  function ScalarAdd(num: int, v: Vec4): Vec4 { AddScalar(v, num) }

  function Sub(a: Vec4, b: Vec4): Vec4 { Vec4(a.x - b.x, a.y - b.y, a.z - b.z, a.w - b.w) }

  /** `v - num`. */
  function SubScalar(v: Vec4, num: int): Vec4 { Vec4(v.x - num, v.y - num, v.z - num, v.w - num) }

  /** `num - v` as the source writes it: `v - num`. */
  function ScalarSub(num: int, v: Vec4): Vec4 { SubScalar(v, num) }

  /** `num - v` as evidently intended: each component subtracted from `num`. */
  function ScalarSubCorrected(num: int, v: Vec4): (r: Vec4)
    ensures Add(r, v) == Vec4(num, num, num, num)
  {
    Vec4(num - v.x, num - v.y, num - v.z, num - v.w)
  }

  function Mul(a: Vec4, b: Vec4): Vec4 { Vec4(a.x * b.x, a.y * b.y, a.z * b.z, a.w * b.w) }

  /** `v * num`. */
  function MulScalar(v: Vec4, num: int): Vec4 { Vec4(v.x * num, v.y * num, v.z * num, v.w * num) }

  /** `num * v`, written in the source as `v * num`. */
  function ScalarMul(num: int, v: Vec4): Vec4 { MulScalar(v, num) }

  /** `v1 / v2` as the source writes it: it throws only when the divisor is
      the zero vector (see `DivGuardGap`). */
  function Div(a: Vec4, b: Vec4): (r: Result<Vec4>)
    ensures r.Err? <==> IsZero(b)
    ensures r.Err? ==> r.error == DivideByZero
    ensures r.Ok? && b.x != 0 ==> IsTruncQuotient(a.x, b.x, r.value.x)
    ensures r.Ok? && b.y != 0 ==> IsTruncQuotient(a.y, b.y, r.value.y)
    ensures r.Ok? && b.z != 0 ==> IsTruncQuotient(a.z, b.z, r.value.z)
    ensures r.Ok? && b.w != 0 ==> IsTruncQuotient(a.w, b.w, r.value.w)
  {
    if IsZero(b) then Err(DivideByZero)
    else Ok(Vec4(UncheckedDiv(a.x, b.x), UncheckedDiv(a.y, b.y),
                 UncheckedDiv(a.z, b.z), UncheckedDiv(a.w, b.w)))
  }

  /** `v1 / v2` as evidently intended: it throws whenever a component of
      the divisor is zero. */
  function DivCorrected(a: Vec4, b: Vec4): (r: Result<Vec4>)
    ensures r.Err? <==> b.x == 0 || b.y == 0 || b.z == 0 || b.w == 0
    ensures r.Err? ==> r.error == DivideByZero
    ensures r.Ok? ==>
      && IsTruncQuotient(a.x, b.x, r.value.x)
      && IsTruncQuotient(a.y, b.y, r.value.y)
      && IsTruncQuotient(a.z, b.z, r.value.z)
      && IsTruncQuotient(a.w, b.w, r.value.w)
  {
    if b.x == 0 || b.y == 0 || b.z == 0 || b.w == 0 then Err(DivideByZero)
    else Ok(Vec4(TruncDiv(a.x, b.x), TruncDiv(a.y, b.y), TruncDiv(a.z, b.z), TruncDiv(a.w, b.w)))
  }

  /** `v / num`: throws for a zero divisor, otherwise divides every
      component by `num`, truncating. */
  function DivScalar(v: Vec4, num: int): (r: Result<Vec4>)
    ensures r.Err? <==> num == 0
    ensures r.Err? ==> r.error == DivideByZero
    ensures r.Ok? ==>
      && IsTruncQuotient(v.x, num, r.value.x)
      && IsTruncQuotient(v.y, num, r.value.y)
      && IsTruncQuotient(v.z, num, r.value.z)
      && IsTruncQuotient(v.w, num, r.value.w)
  {
    if num == 0 then Err(DivideByZero)
    else Ok(Vec4(TruncDiv(v.x, num), TruncDiv(v.y, num), TruncDiv(v.z, num), TruncDiv(v.w, num)))
  }

  /** `dot(v1, v2)`: the sum of the four components of `v1 * v2`. */
  function Dot(a: Vec4, b: Vec4): (r: int)
    ensures r == a.x * b.x + a.y * b.y + a.z * b.z + a.w * b.w
  {
    var p := Mul(a, b);
    p.x + p.y + p.z + p.w
  }

  /** The conversions tag directions with `w = 0` and points with `w = 1`,
      so no point converts to the same `Vec4` as any vector or normal. */
  lemma HomogeneousTag(v: Vec3, p: Point3, n: Normal3)
    ensures FromVec3(v).w == 0 && FromNormal3(n).w == 0 && FromPoint3(p).w == 1
    ensures FromPoint3(p) != FromVec3(v) && FromPoint3(p) != FromNormal3(n)
    ensures Components(FromVec3(v))[..3] == Vector3.Components(v)
    ensures Components(FromPoint3(p))[..3] == Points.Components(p)
    ensures Components(FromNormal3(n))[..3] == Normals.Components(n)
  {
  }

  /** The tag classifies `Vec4` values exactly: those with `w = 1` are
      the homogeneous forms of points, and those with `w = 0` the forms of
      directions and of normals. */
  lemma TagClassifies(v: Vec4)
    ensures v.w == 1 <==> exists p :: FromPoint3(p) == v
    ensures v.w == 0 <==> exists u :: FromVec3(u) == v
    ensures v.w == 0 <==> exists n :: FromNormal3(n) == v
  {
    if v.w == 1 {
      assert FromPoint3(Points.FromVec4(v)) == v;
    }
    if v.w == 0 {
      assert FromVec3(Vector3.FromVec4(v)) == v;
      assert FromNormal3(Normals.FromVec4(v)) == v;
    }
  }

  /** Converting to `Vec4` and back gives the original value; converting
      back and forth from a `Vec4` resets `w` to the tag. */
  lemma RoundTrips(v: Vec3, p: Point3, n: Normal3, u: Vec4)
    ensures Vector3.FromVec4(FromVec3(v)) == v
    ensures Points.FromVec4(FromPoint3(p)) == p
    ensures Normals.FromVec4(FromNormal3(n)) == n
    ensures FromVec3(Vector3.FromVec4(u)) == u.(w := 0)
    ensures FromPoint3(Points.FromVec4(u)) == u.(w := 1)
  {
  }

  /** The tags follow the affine algebra of `Point3`: a point plus or minus
      a direction is a point, the difference of two points is a direction. */
  lemma AffineTags(p: Point3, q: Point3, v: Vec3)
    ensures Add(FromPoint3(p), FromVec3(v)) == FromPoint3(Points.AddVec(p, v))
    ensures Sub(FromPoint3(p), FromVec3(v)) == FromPoint3(Points.SubVec(p, v))
    ensures Sub(FromPoint3(p), FromPoint3(q)) == FromVec3(Points.SubPoint(p, q))
  {
  }

  /** Componentwise arithmetic does not keep the tag for every operation:
      the sum of two points has `w = 2` although `Point3`'s `p + q` is a
      vector, and negating a point gives `w = -1`. */
  lemma TagNotPreserved(p: Point3, q: Point3)
    ensures Add(FromPoint3(p), FromPoint3(q)).w == 2
    ensures Add(FromPoint3(p), FromPoint3(q)) != FromVec3(Points.AddPoint(p, q))
    ensures Neg(FromPoint3(p)).w == -1
  {
  }

  /** The binary operators act on all four components. */
  lemma Componentwise(a: Vec4, b: Vec4, num: int, i: int)
    requires 0 <= i < 4
    ensures Components(Add(a, b))[i] == Components(a)[i] + Components(b)[i]
    ensures Components(Sub(a, b))[i] == Components(a)[i] - Components(b)[i]
    ensures Components(Mul(a, b))[i] == Components(a)[i] * Components(b)[i]
    ensures Components(AddScalar(a, num))[i] == Components(a)[i] + num
    ensures Components(SubScalar(a, num))[i] == Components(a)[i] - num
    ensures Components(MulScalar(a, num))[i] == Components(a)[i] * num
    ensures Components(Neg(a))[i] == -Components(a)[i]
  {
  }

  /** The scalar-first operators delegate to the vector-first ones:
      `num + v` and `num * v` add and multiply every component by `num`,
      while `num - v` gives `v - num`, each component less `num`. */
  lemma ScalarFirstForms(num: int, v: Vec4)
    ensures ScalarAdd(num, v) == AddScalar(v, num)
    ensures ScalarMul(num, v) == MulScalar(v, num)
    ensures ScalarSub(num, v) == SubScalar(v, num)
    ensures ScalarAdd(num, v) == Vec4(num + v.x, num + v.y, num + v.z, num + v.w)
    ensures ScalarMul(num, v) == Vec4(num * v.x, num * v.y, num * v.z, num * v.w)
    ensures ScalarSub(num, v) == Vec4(v.x - num, v.y - num, v.z - num, v.w - num)
  {
  }

  /** The source's `num - v` agrees with the subtraction from `num` only
      when `v` is `(num, num, num, num)`. */
  lemma ScalarSubReversed(num: int, v: Vec4)
    ensures ScalarSub(num, v) == ScalarSubCorrected(num, v) <==> v == Vec4(num, num, num, num)
    ensures ScalarSub(1, Default()) == Vec4(-1, -1, -1, -1)
    ensures ScalarSubCorrected(1, Default()) == Vec4(1, 1, 1, 1)
  {
  }

  /** The guard of `v1 / v2` lets a divisor with a zero component through,
      which the corrected division rejects; the homogeneous form of every
      non-zero direction is such a divisor. */
  lemma DivGuardGap(a: Vec4, b: Vec4, v: Vec3)
    requires !IsZero(b) && (b.x == 0 || b.y == 0 || b.z == 0 || b.w == 0)
    ensures Div(a, b).Ok? && DivCorrected(a, b) == Err(DivideByZero)
    ensures !Vector3.IsZero(v) ==> Div(a, FromVec3(v)).Ok?
  {
  }

  /** The additive laws, exact over `int`. */
  lemma AdditiveLaws(a: Vec4, b: Vec4)
    ensures Add(a, Default()) == a
    ensures IsZero(Sub(a, a))
    ensures Sub(Add(a, b), b) == a
    ensures Add(a, b) == Add(b, a)
    ensures Add(a, Neg(a)) == Default()
  {
  }

  /** Unary `+` is the identity and unary `-` an involution. */
  lemma UnaryLaws(v: Vec4)
    ensures Pos(v) == v
    ensures Neg(Neg(v)) == v
  {
  }

  /** `is_zero()` holds exactly for the default-constructed vector. */
  lemma DefaultAndUnit(v: Vec4)
    ensures IsZero(v) <==> v == Default()
    ensures !IsZero(UnitVec()) && UnitVec().w == 1
  {
  }

  /** The componentwise product `a * b` commutes, has the unit vector as
      identity and the zero vector as absorber, and `dot` is the sum of its
      components. */
  lemma ProductLaws(a: Vec4, b: Vec4)
    ensures Mul(a, b) == Mul(b, a)
    ensures Mul(a, UnitVec()) == a
    ensures IsZero(Mul(a, Default()))
    ensures Dot(a, b) == Components(Mul(a, b))[0] + Components(Mul(a, b))[1] + Components(Mul(a, b))[2] + Components(Mul(a, b))[3]
  {
  }

  /** `dot` is symmetric, and on two directions it is `dot` on `Vec3`. */
  lemma DotLaws(a: Vec4, b: Vec4, u: Vec3, v: Vec3)
    ensures Dot(a, b) == Dot(b, a)
    ensures Dot(FromVec3(u), FromVec3(v)) == Vector3.Dot(u, v)
  {
  }

  /** The dot products the test suite states. */
  lemma DotExamples()
    ensures Dot(Vec4(3, 3, 4, 1), Vec4(3, 3, 9, -10)) == 44
    ensures Dot(Vec4(-1, 5, 9, -3), Vec4(-3, 3, 6, 0)) == 72
  {
  }

  /** The defaulted `<=>` is antisymmetric and its `<` is transitive. */
  lemma CompareOrder(a: Vec4, b: Vec4, c: Vec4)
    ensures Compare(b, a) == Compare(a, b).Flip()
    ensures Compare(a, b) == Less && Compare(b, c) == Less ==> Compare(a, c) == Less
  {
  }

  /** A `Vec4<int>` object: the members that the setters, `set`, `zero()`,
      `operator=` from `Vec3` and `Point3` and the reference form of
      `operator[]` assign in place. */
  class Vec4Var {
    var x: int
    var y: int
    var z: int
    var w: int

    /** The value the object holds. */
    function Value(): Vec4
      reads this
    {
      Vec4(x, y, z, w)
    }

    /** `Vec4()`. */
    constructor ()
      ensures Value() == Default()
    {
      x, y, z, w := 0, 0, 0, 0;
    }

    /** `Vec4(p1, p2, p3, p4)`. */
    constructor Make(p1: int, p2: int, p3: int, p4: int)
      ensures Value() == Vec4(p1, p2, p3, p4)
    {
      x, y, z, w := p1, p2, p3, p4;
    }

    /** `x(x)`: only `x` changes. */
    method SetX(num: int)
      modifies this
      ensures Value() == old(Value()).(x := num)
    {
      x := num;
    }

    /** `y(y)`: only `y` changes. */
    method SetY(num: int)
      modifies this
      ensures Value() == old(Value()).(y := num)
    {
      y := num;
    }

    /** `z(z)`: only `z` changes. */
    method SetZ(num: int)
      modifies this
      ensures Value() == old(Value()).(z := num)
    {
      z := num;
    }

    /** `w(w)`: only `w` changes. */
    method SetW(num: int)
      modifies this
      ensures Value() == old(Value()).(w := num)
    {
      w := num;
    }

    /** `set(n)`: every component becomes `n`, `w` included. */
    method SetAll(n: int)
      modifies this
      ensures Value() == Vec4(n, n, n, n)
    {
      x, y, z, w := n, n, n, n;
    }

    /** `set(x, y, z, w)`. */
    method Set(px: int, py: int, pz: int, pw: int)
      modifies this
      ensures Value() == Vec4(px, py, pz, pw)
    {
      x, y, z, w := px, py, pz, pw;
    }

    /** `zero()`: afterwards `is_zero()` holds. */
    method Zero()
      modifies this
      ensures IsZero(Value()) && Value() == Default()
    {
      x, y, z, w := 0, 0, 0, 0;
    }

    /** `operator=(const Vec3&)`: a direction, `w = 0`. */
    method AssignVec3(v: Vec3)
      modifies this
      ensures Value() == FromVec3(v)
    {
      x, y, z, w := v.x, v.y, v.z, 0;
    }

    /** `operator=(const Point3&)`: a point, `w = 1`. */
    method AssignPoint3(p: Point3)
      modifies this
      ensures Value() == FromPoint3(p)
    {
      x, y, z, w := p.x, p.y, p.z, 1;
    }

    /** `v[i] = num` through the reference form of `operator[]`: throws
        `std::out_of_range` for an index outside 0..3 and changes nothing;
        otherwise component `i` alone becomes `num`. */
    method AssignAt(i: int, num: int) returns (r: Outcome)
      modifies this
      ensures r.Pass? <==> 0 <= i < 4
      ensures r.Fail? ==> r.error == OutOfRange && Value() == old(Value())
      ensures r.Pass? ==> At(Value(), i) == Ok(num)
      ensures forall j :: j != i ==> At(Value(), j) == At(old(Value()), j)
    {
      if i < 0 || i > 3 {
        return Fail(OutOfRange);
      }
      if i == 0 {
        x := num;
      } else if i == 1 {
        y := num;
      } else if i == 2 {
        z := num;
      } else {
        w := num;
      }
      r := Pass;
    }
  }
}
