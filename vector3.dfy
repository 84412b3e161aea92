/** `Vec3<int>` (src/vec3.h): construction and the explicit conversions from
    `Vec4`, `Point3` and `Normal3`, indexing, comparison, unary operators,
    the free arithmetic operators, `dot`, `cross` and `reflect`, with the
    mutable object `Vec3Var` for the members that assign in place. */
module Vector3 {
  import opened Failures
  import opened Scalars
  import opened Tuples

  /** `Vec3()`: every member is initialised to zero. */
  function Default(): Vec3 { Vec3(0, 0, 0) }

  /** `Vec3::create_unit_vec()`. */
  function UnitVec(): Vec3 { Vec3(1, 1, 1) }

  /** `Vec3(const Vec4&)`: copies `x`, `y`, `z`; `w` is dropped. */
  function FromVec4(v: Vec4): Vec3 { Vec3(v.x, v.y, v.z) }

  /** `Vec3(const Point3&)`. */
  function FromPoint3(p: Point3): Vec3 { Vec3(p.x, p.y, p.z) }

  /** `Vec3(const Normal3&)`. */
  function FromNormal3(n: Normal3): Vec3 { Vec3(n.x, n.y, n.z) }

  /** The members in declaration order. */
  function Components(v: Vec3): (s: seq<int>)
    ensures |s| == 3
  {
    [v.x, v.y, v.z]
  }

  /** `v[i]`: indices 0, 1, 2 are `x`, `y`, `z`; any other index throws
      `std::out_of_range`. */
  function At(v: Vec3, i: int): (r: Result<int>)
    ensures r.Ok? <==> 0 <= i < 3
    ensures r.Err? ==> r.error == OutOfRange
    ensures r.Ok? ==> r.value == Components(v)[i]
  {
    if i < 0 || i > 2 then Err(OutOfRange)
    else if i == 0 then Ok(v.x)
    else if i == 1 then Ok(v.y)
    else Ok(v.z)
  }

  /** `a <=> b`, defaulted: lexicographic on `(x, y, z)`. */
  function Compare(a: Vec3, b: Vec3): (r: Ordering)
    ensures r == Equal <==> a == b
    ensures r == Less <==>
      a.x < b.x || (a.x == b.x && (a.y < b.y || (a.y == b.y && a.z < b.z)))
  {
    Then(Cmp(a.x, b.x), Then(Cmp(a.y, b.y), Cmp(a.z, b.z)))
  }

  /** Unary `+v`: a copy. */
  function Pos(v: Vec3): Vec3 { Vec3(v.x, v.y, v.z) }

  /** Unary `-v`. */
  function Neg(v: Vec3): Vec3 { Vec3(-v.x, -v.y, -v.z) }

  /** `v.is_zero()`: equality with `Vec3(0, 0, 0)`. */
  predicate IsZero(v: Vec3) { v == Vec3(0, 0, 0) }

  function Add(a: Vec3, b: Vec3): Vec3 { Vec3(a.x + b.x, a.y + b.y, a.z + b.z) }

  /** `v + num`. */
  function AddScalar(v: Vec3, num: int): Vec3 { Vec3(v.x + num, v.y + num, v.z + num) }

  /** `num + v`, written in the source as `v + num`. */
  function ScalarAdd(num: int, v: Vec3): Vec3 { AddScalar(v, num) }

  function Sub(a: Vec3, b: Vec3): Vec3 { Vec3(a.x - b.x, a.y - b.y, a.z - b.z) }

  /** `v - num`. */
  function SubScalar(v: Vec3, num: int): Vec3 { Vec3(v.x - num, v.y - num, v.z - num) }

  /** `num - v` as the source writes it: `v - num`. */
  function ScalarSub(num: int, v: Vec3): Vec3 { SubScalar(v, num) }

  /** `num - v` as evidently intended: each component subtracted from `num`. */
  function ScalarSubCorrected(num: int, v: Vec3): (r: Vec3)
    ensures Add(r, v) == Vec3(num, num, num)
  {
    Vec3(num - v.x, num - v.y, num - v.z)
  }

  function Mul(a: Vec3, b: Vec3): Vec3 { Vec3(a.x * b.x, a.y * b.y, a.z * b.z) }

  /** `v * num`. */
  function MulScalar(v: Vec3, num: int): Vec3 { Vec3(v.x * num, v.y * num, v.z * num) }

  /** `num * v`, written in the source as `v * num`. */
  function ScalarMul(num: int, v: Vec3): Vec3 { MulScalar(v, num) }

  /** `v1 / v2` as the source writes it: it throws only when the divisor is
      the zero vector (see `DivGuardGap`). */
  function Div(a: Vec3, b: Vec3): (r: Result<Vec3>)
    ensures r.Err? <==> IsZero(b)
    ensures r.Err? ==> r.error == DivideByZero
    ensures r.Ok? && b.x != 0 ==> IsTruncQuotient(a.x, b.x, r.value.x)
    ensures r.Ok? && b.y != 0 ==> IsTruncQuotient(a.y, b.y, r.value.y)
    ensures r.Ok? && b.z != 0 ==> IsTruncQuotient(a.z, b.z, r.value.z)
  {
    if IsZero(b) then Err(DivideByZero)
    else Ok(Vec3(UncheckedDiv(a.x, b.x), UncheckedDiv(a.y, b.y), UncheckedDiv(a.z, b.z)))
  }

  /** `v1 / v2` as evidently intended: it throws whenever a component of
      the divisor is zero. */
  function DivCorrected(a: Vec3, b: Vec3): (r: Result<Vec3>)
    ensures r.Err? <==> b.x == 0 || b.y == 0 || b.z == 0
    ensures r.Err? ==> r.error == DivideByZero
    ensures r.Ok? ==>
      && IsTruncQuotient(a.x, b.x, r.value.x)
      && IsTruncQuotient(a.y, b.y, r.value.y)
      && IsTruncQuotient(a.z, b.z, r.value.z)
  {
    if b.x == 0 || b.y == 0 || b.z == 0 then Err(DivideByZero)
    else Ok(Vec3(TruncDiv(a.x, b.x), TruncDiv(a.y, b.y), TruncDiv(a.z, b.z)))
  }

  /** `v / num`: throws for a zero divisor, otherwise divides every
      component by `num`, truncating. */
  function DivScalar(v: Vec3, num: int): (r: Result<Vec3>)
    ensures r.Err? <==> num == 0
    ensures r.Err? ==> r.error == DivideByZero
    ensures r.Ok? ==>
      && IsTruncQuotient(v.x, num, r.value.x)
      && IsTruncQuotient(v.y, num, r.value.y)
      && IsTruncQuotient(v.z, num, r.value.z)
  {
    if num == 0 then Err(DivideByZero)
    else Ok(Vec3(TruncDiv(v.x, num), TruncDiv(v.y, num), TruncDiv(v.z, num)))
  }

  /** `dot(v1, v2)`: the sum of the components of `v1 * v2`. */
  function Dot(a: Vec3, b: Vec3): (r: int)
    ensures r == a.x * b.x + a.y * b.y + a.z * b.z
  {
    var p := Mul(a, b);
    p.x + p.y + p.z
  }

  /** `cross(v1, v2)`: orthogonal to both operands, exactly over `int`. */
  function Cross(a: Vec3, b: Vec3): (r: Vec3)
    ensures Dot(a, r) == 0 && Dot(b, r) == 0
  {
    Vec3(a.y * b.z - a.z * b.y, a.z * b.x - a.x * b.z, a.x * b.y - a.y * b.x)
  }

  /** `reflect(in, normal)`: `in - normal * 2 * dot(in, normal)`. */
  function Reflect(v: Vec3, n: Vec3): Vec3 {
    Sub(v, MulScalar(MulScalar(n, 2), Dot(v, n)))
  }

  /** The binary operators act component by component, as seen through
      `operator[]`. */
  lemma Componentwise(a: Vec3, b: Vec3, num: int, i: int)
    requires 0 <= i < 3
    ensures Components(Add(a, b))[i] == Components(a)[i] + Components(b)[i]
    ensures Components(Sub(a, b))[i] == Components(a)[i] - Components(b)[i]
    ensures Components(Mul(a, b))[i] == Components(a)[i] * Components(b)[i]
    ensures Components(AddScalar(a, num))[i] == Components(a)[i] + num
    ensures Components(SubScalar(a, num))[i] == Components(a)[i] - num
    ensures Components(MulScalar(a, num))[i] == Components(a)[i] * num
  {
  }

  /** The scalar-first operators delegate to the vector-first ones:
      `num + v` and `num * v` add and multiply every component by `num`,
      while `num - v` gives `v - num`, each component less `num`. */
  lemma ScalarFirstForms(num: int, v: Vec3)
    ensures ScalarAdd(num, v) == AddScalar(v, num)
    ensures ScalarMul(num, v) == MulScalar(v, num)
    ensures ScalarSub(num, v) == SubScalar(v, num)
    ensures ScalarAdd(num, v) == Vec3(num + v.x, num + v.y, num + v.z)
    ensures ScalarMul(num, v) == Vec3(num * v.x, num * v.y, num * v.z)
    ensures ScalarSub(num, v) == Vec3(v.x - num, v.y - num, v.z - num)
  {
  }

  /** The source's `num - v` agrees with the subtraction from `num` only
      when `v` is `(num, num, num)`. */
  lemma ScalarSubReversed(num: int, v: Vec3)
    ensures ScalarSub(num, v) == ScalarSubCorrected(num, v) <==> v == Vec3(num, num, num)
    ensures ScalarSub(1, Default()) == Vec3(-1, -1, -1)
    ensures ScalarSubCorrected(1, Default()) == Vec3(1, 1, 1)
  {
  }

  /** The guard of `v1 / v2` lets a divisor with a zero component through,
      which the corrected division rejects. */
  lemma DivGuardGap(a: Vec3, b: Vec3)
    requires !IsZero(b) && (b.x == 0 || b.y == 0 || b.z == 0)
    ensures Div(a, b).Ok? && DivCorrected(a, b) == Err(DivideByZero)
  {
  }

  /** The additive laws, exact over `int`. */
  lemma AdditiveLaws(a: Vec3, b: Vec3)
    ensures Add(a, Default()) == a
    ensures IsZero(Sub(a, a))
    ensures Sub(Add(a, b), b) == a
    ensures Add(a, b) == Add(b, a)
    ensures Add(a, Neg(a)) == Default()
  {
  }

  /** Unary `+` is the identity and unary `-` an involution. */
  lemma UnaryLaws(v: Vec3)
    ensures Pos(v) == v
    ensures Neg(Neg(v)) == v
    ensures Neg(v) == MulScalar(v, -1)
  {
  }

  /** `is_zero()` holds exactly for the default-constructed vector; the
      unit vector is all ones. */
  lemma DefaultAndUnit(v: Vec3)
    ensures IsZero(v) <==> v.x == 0 && v.y == 0 && v.z == 0
    ensures IsZero(v) <==> v == Default()
    ensures UnitVec() == Vec3(1, 1, 1) && !IsZero(UnitVec())
  {
  }

  /** The conversions copy `x`, `y`, `z` and ignore `w`. */
  lemma ConversionsCopy(v: Vec4, t: int, p: Point3, n: Normal3)
    ensures Components(FromVec4(v)) == [v.x, v.y, v.z]
    ensures FromVec4(v.(w := t)) == FromVec4(v)
    ensures Components(FromPoint3(p)) == [p.x, p.y, p.z]
    ensures Components(FromNormal3(n)) == [n.x, n.y, n.z]
  {
  }

  /** The componentwise product `a * b` commutes, has the unit vector as
      identity and the zero vector as absorber, and `dot` is the sum of its
      components. */
  lemma ProductLaws(a: Vec3, b: Vec3)
    ensures Mul(a, b) == Mul(b, a)
    ensures Mul(a, UnitVec()) == a
    ensures IsZero(Mul(a, Default()))
    ensures Dot(a, b) == Components(Mul(a, b))[0] + Components(Mul(a, b))[1] + Components(Mul(a, b))[2]
  {
  }

  /** `dot` is symmetric and bilinear. */
  lemma DotLaws(a: Vec3, b: Vec3, c: Vec3, k: int)
    ensures Dot(a, b) == Dot(b, a)
    ensures Dot(Add(a, b), c) == Dot(a, c) + Dot(b, c)
    ensures Dot(Sub(a, b), c) == Dot(a, c) - Dot(b, c)
    ensures Dot(MulScalar(a, k), b) == k * Dot(a, b)
  {
  }

  /** `cross` is anticommutative, and a vector crossed with itself is zero. */
  lemma CrossLaws(a: Vec3, b: Vec3)
    ensures Cross(a, b) == Neg(Cross(b, a))
    ensures IsZero(Cross(a, a))
  {
  }

  /** Removing a multiple of `n` from `v` changes `dot(., n)` accordingly. */
  lemma DotSubScaled(v: Vec3, n: Vec3, k: int)
    ensures Dot(Sub(v, MulScalar(n, k)), n) == Dot(v, n) - k * Dot(n, n)
  {
    assert (v.x - n.x * k) * n.x == v.x * n.x - k * (n.x * n.x);
    assert (v.y - n.y * k) * n.y == v.y * n.y - k * (n.y * n.y);
    assert (v.z - n.z * k) * n.z == v.z * n.z - k * (n.z * n.z);
  }

  /** `reflect` multiplies `n` by `2 * dot(v, n)` before subtracting. */
  lemma ReflectIsSubScaled(v: Vec3, n: Vec3)
    ensures Reflect(v, n) == Sub(v, MulScalar(n, 2 * Dot(v, n)))
  {
    var d := Dot(v, n);
    assert n.x * 2 * d == n.x * (2 * d);
    assert n.y * 2 * d == n.y * (2 * d);
    assert n.z * 2 * d == n.z * (2 * d);
  }

  /** For a normal of unit square length, reflection negates the component
      along the normal. */
  lemma ReflectFlipsNormalPart(v: Vec3, n: Vec3)
    requires Dot(n, n) == 1
    ensures Dot(Reflect(v, n), n) == -Dot(v, n)
  {
    ReflectIsSubScaled(v, n);
    DotSubScaled(v, n, 2 * Dot(v, n));
  }

  /** For a normal of unit square length, reflecting twice gives back the
      incident vector. */
  lemma ReflectInvolution(v: Vec3, n: Vec3)
    requires Dot(n, n) == 1
    ensures Reflect(Reflect(v, n), n) == v
  {
    var d := Dot(v, n);
    var r := Reflect(v, n);
    ReflectIsSubScaled(v, n);
    ReflectFlipsNormalPart(v, n);
    ReflectIsSubScaled(r, n);
    assert r == Sub(v, MulScalar(n, 2 * d));
    assert Reflect(r, n) == Sub(r, MulScalar(n, -2 * d));
  }

  /** The square of one component of `v - n * k`. */
  lemma SquareOfDifference(a: int, b: int, k: int)
    ensures (a - b * k) * (a - b * k) == a * a - 2 * k * (a * b) + k * k * (b * b)
  {
  }

  /** The squared length of `v - n * k`, expanded. */
  lemma DotSelfSubScaled(v: Vec3, n: Vec3, k: int)
    ensures var r := Sub(v, MulScalar(n, k));
      Dot(r, r) == Dot(v, v) - 2 * k * Dot(v, n) + k * k * Dot(n, n)
  {
    SquareOfDifference(v.x, n.x, k);
    SquareOfDifference(v.y, n.y, k);
    SquareOfDifference(v.z, n.z, k);
  }

  /** For a normal of unit square length, reflection keeps the squared length. */
  lemma ReflectKeepsLength(v: Vec3, n: Vec3)
    requires Dot(n, n) == 1
    ensures Dot(Reflect(v, n), Reflect(v, n)) == Dot(v, v)
  {
    var d := Dot(v, n);
    ReflectIsSubScaled(v, n);
    DotSelfSubScaled(v, n, 2 * d);
  }

  /** The dot products and the reflection the test suite states. */
  lemma Examples()
    ensures Dot(Vec3(3, 3, 4), Vec3(3, 3, 9)) == 54
    ensures Dot(Vec3(-1, 5, 9), Vec3(-3, 3, 6)) == 72
    ensures Reflect(Vec3(1, -1, 0), Vec3(0, 1, 0)) == Vec3(1, 1, 0)
  {
    assert Dot(Vec3(1, -1, 0), Vec3(0, 1, 0)) == -1;
  }

  /** The defaulted `<=>` is antisymmetric and its `<` is transitive. */
  lemma CompareOrder(a: Vec3, b: Vec3, c: Vec3)
    ensures Compare(b, a) == Compare(a, b).Flip()
    ensures Compare(a, b) == Less && Compare(b, c) == Less ==> Compare(a, c) == Less
  {
  }

  /** A `Vec3<int>` object: the members `m_x`, `m_y`, `m_z` that the
      setters, `set`, `zero()`, `operator=(const Vec4&)` and the reference
      form of `operator[]` assign in place. */
  class Vec3Var {
    var x: int
    var y: int
    var z: int

    /** The value the object holds. */
    function Value(): Vec3
      reads this
    {
      Vec3(x, y, z)
    }

    /** `Vec3()`. */
    constructor ()
      ensures Value() == Default()
    {
      x, y, z := 0, 0, 0;
    }

    /** `Vec3(p1, p2, p3)`. */
    constructor Make(p1: int, p2: int, p3: int)
      ensures Value() == Vec3(p1, p2, p3)
    {
      x, y, z := p1, p2, p3;
    }

    /** `x(x)`: only `x` changes. */
    method SetX(num: int)
      modifies this
      ensures Value() == old(Value()).(x := num)
    {
      x := num;
    }

    /** `y(y)`: only `y` changes. */
    method SetY(num: int)
      modifies this
      ensures Value() == old(Value()).(y := num)
    {
      y := num;
    }

    /** `z(z)`: only `z` changes. */
    method SetZ(num: int)
      modifies this
      ensures Value() == old(Value()).(z := num)
    {
      z := num;
    }

    /** `set(n)`: every component becomes `n`. */
    method SetAll(n: int)
      modifies this
      ensures Value() == Vec3(n, n, n)
    {
      x, y, z := n, n, n;
    }

    /** `set(x, y, z)`. */
    method Set(px: int, py: int, pz: int)
      modifies this
      ensures Value() == Vec3(px, py, pz)
    {
      x, y, z := px, py, pz;
    }

    /** `zero()`: afterwards `is_zero()` holds. */
    method Zero()
      modifies this
      ensures IsZero(Value()) && Value() == Default()
    {
      x, y, z := 0, 0, 0;
    }

    /** `operator=(const Vec4&)`: copies `x`, `y`, `z`, dropping `w`. */
    method AssignVec4(v: Vec4)
      modifies this
      ensures Value() == FromVec4(v)
    {
      x, y, z := v.x, v.y, v.z;
    }

    /** `v[i] = num` through the reference form of `operator[]`: throws
        `std::out_of_range` for an index outside 0..2 and changes nothing;
        otherwise component `i` alone becomes `num`. */
    method AssignAt(i: int, num: int) returns (r: Outcome)
      modifies this
      ensures r.Pass? <==> 0 <= i < 3
      ensures r.Fail? ==> r.error == OutOfRange && Value() == old(Value())
      ensures r.Pass? ==> At(Value(), i) == Ok(num)
      ensures forall j :: j != i ==> At(Value(), j) == At(old(Value()), j)
    {
      if i < 0 || i > 2 {
        return Fail(OutOfRange);
      }
      if i == 0 {
        x := num;
      } else if i == 1 {
        y := num;
      } else {
        z := num;
      }
      r := Pass;
    }
  }
}
