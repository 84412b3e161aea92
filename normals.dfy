/** `Normal3<int>` (src/normal3.h): a surface normal. It has the arithmetic
    of `Vec3` under its own type, defaults to all ones, and checks its index
    with an `assert` rather than an exception. The mutable object
    `Normal3Var` models the members that assign in place. */
module Normals {
  import opened Scalars
  import opened Tuples
  import Vector3

  /** `Normal3()`: every member is initialised to one, unlike the other
      tuple types. */
  function Default(): Normal3 { Normal3(1, 1, 1) }

  /** `Normal3(const Vec4&)`: copies `x`, `y`, `z`; `w` is dropped. */
  function FromVec4(v: Vec4): Normal3 { Normal3(v.x, v.y, v.z) }

  /** `Normal3(const Point3&)`. */
  function FromPoint3(p: Point3): Normal3 { Normal3(p.x, p.y, p.z) }

  /** `Normal3(const Vec3&)`. */
  function FromVec3(v: Vec3): Normal3 { Normal3(v.x, v.y, v.z) }

  /** The members in declaration order. */
  function Components(n: Normal3): (s: seq<int>)
    ensures |s| == 3
  {
    [n.x, n.y, n.z]
  }

  /** `n[i]`: the source asserts `0 <= i <= 2`, a check on its callers and
      not an error it reports, so here it is a precondition. */
  function At(n: Normal3, i: int): (r: int)
    requires 0 <= i <= 2
    ensures r == Components(n)[i]
  {
    if i == 0 then n.x else if i == 1 then n.y else n.z
  }

  /** `a <=> b`, defaulted: lexicographic on `(x, y, z)`. */
  function Compare(a: Normal3, b: Normal3): (r: Ordering)
    ensures r == Equal <==> a == b
    ensures r == Less <==>
      a.x < b.x || (a.x == b.x && (a.y < b.y || (a.y == b.y && a.z < b.z)))
  {
    Then(Cmp(a.x, b.x), Then(Cmp(a.y, b.y), Cmp(a.z, b.z)))
  }

  /** Unary `+n`: a copy. */
  function Pos(n: Normal3): Normal3 { Normal3(n.x, n.y, n.z) }

  /** Unary `-n`. */
  function Neg(n: Normal3): Normal3 { Normal3(-n.x, -n.y, -n.z) }

  function Add(a: Normal3, b: Normal3): Normal3 { Normal3(a.x + b.x, a.y + b.y, a.z + b.z) }

  /** `n + v` with a `Vec3` operand: the componentwise sum, typed `Normal3`
      (the source's body builds a `Vec3` here, which the explicit
      conversion constructor does not turn into the declared result). */
  function AddVec3(n: Normal3, v: Vec3): Normal3 { Normal3(n.x + v.x, n.y + v.y, n.z + v.z) }

  /** `v + n`, written in the source as `n + v`. */
  function Vec3Add(v: Vec3, n: Normal3): Normal3 { AddVec3(n, v) }

  /** `n + num`. */
  function AddScalar(n: Normal3, num: int): Normal3 { Normal3(n.x + num, n.y + num, n.z + num) }

  /** `num + n`, written in the source as `n + num`. */
  function ScalarAdd(num: int, n: Normal3): Normal3 { AddScalar(n, num) }

  function Sub(a: Normal3, b: Normal3): Normal3 { Normal3(a.x - b.x, a.y - b.y, a.z - b.z) }

  /** `n - num`. */
  function SubScalar(n: Normal3, num: int): Normal3 { Normal3(n.x - num, n.y - num, n.z - num) }

  /** `num - n` as the source writes it: `n - num`. */
  function ScalarSub(num: int, n: Normal3): Normal3 { SubScalar(n, num) }

  /** `num - n` as evidently intended: each component subtracted from `num`. */
  function ScalarSubCorrected(num: int, n: Normal3): (r: Normal3)
    ensures Add(r, n) == Normal3(num, num, num)
  {
    Normal3(num - n.x, num - n.y, num - n.z)
  }

  function Mul(a: Normal3, b: Normal3): Normal3 { Normal3(a.x * b.x, a.y * b.y, a.z * b.z) }

  /** `n * v` with a `Vec3` operand, typed `Normal3`. */
  function MulVec3(n: Normal3, v: Vec3): Normal3 { Normal3(n.x * v.x, n.y * v.y, n.z * v.z) }

  /** `v * n`, written in the source as `n * v`. */
  function Vec3Mul(v: Vec3, n: Normal3): Normal3 { MulVec3(n, v) }

  /** `n * num`. */
  function MulScalar(n: Normal3, num: int): Normal3 { Normal3(n.x * num, n.y * num, n.z * num) }

  /** `num * n`, written in the source as `n * num`. */
  function ScalarMul(num: int, n: Normal3): Normal3 { MulScalar(n, num) }

  /** `dot(n1, n2)`: the sum of the components of `n1 * n2`. */
  function Dot(a: Normal3, b: Normal3): (r: int)
    ensures r == a.x * b.x + a.y * b.y + a.z * b.z
  {
    var p := Mul(a, b);
    p.x + p.y + p.z
  }

  /** `dot(n, v)` with a `Vec3` operand: the sum of the components of `n * v`. */
  function DotVec3(n: Normal3, v: Vec3): (r: int)
    ensures r == n.x * v.x + n.y * v.y + n.z * v.z
  {
    var p := MulVec3(n, v);
    p.x + p.y + p.z
  }

  /** `dot(v, n)`, written in the source as `dot(n, v)`. */
  function Vec3Dot(v: Vec3, n: Normal3): int { DotVec3(n, v) }

  /** The binary operators act component by component. */
  lemma Componentwise(a: Normal3, b: Normal3, v: Vec3, num: int, i: int)
    requires 0 <= i < 3
    ensures At(Add(a, b), i) == At(a, i) + At(b, i)
    ensures At(Sub(a, b), i) == At(a, i) - At(b, i)
    ensures At(Mul(a, b), i) == At(a, i) * At(b, i)
    ensures At(AddVec3(a, v), i) == At(a, i) + Vector3.Components(v)[i]
    ensures At(MulVec3(a, v), i) == At(a, i) * Vector3.Components(v)[i]
    ensures At(AddScalar(a, num), i) == At(a, i) + num
    ensures At(SubScalar(a, num), i) == At(a, i) - num
    ensures At(MulScalar(a, num), i) == At(a, i) * num
  {
  }

  /** The operand-swapped forms delegate, so they agree with the forms they
      call and act on every component; `num - n` is `n - num`. */
  lemma SwappedForms(num: int, n: Normal3, v: Vec3)
    ensures ScalarAdd(num, n) == AddScalar(n, num)
    ensures ScalarMul(num, n) == MulScalar(n, num)
    ensures ScalarSub(num, n) == SubScalar(n, num)
    ensures Vec3Mul(v, n) == MulVec3(n, v)
    ensures Vec3Add(v, n) == AddVec3(n, v)
    ensures ScalarAdd(num, n) == Normal3(num + n.x, num + n.y, num + n.z)
    ensures ScalarMul(num, n) == Normal3(num * n.x, num * n.y, num * n.z)
    ensures ScalarSub(num, n) == Normal3(n.x - num, n.y - num, n.z - num)
    ensures Vec3Mul(v, n) == Normal3(v.x * n.x, v.y * n.y, v.z * n.z)
    ensures Vec3Add(v, n) == Normal3(v.x + n.x, v.y + n.y, v.z + n.z)
  {
  }

  /** The source's `num - n` agrees with the subtraction from `num` only
      when `n` is `(num, num, num)`; `2 - Normal3()` yields `(-1, -1, -1)`
      where `(1, 1, 1)` is meant. */
  lemma ScalarSubReversed(num: int, n: Normal3)
    ensures ScalarSub(num, n) == ScalarSubCorrected(num, n) <==> n == Normal3(num, num, num)
    ensures ScalarSub(2, Default()) == Normal3(-1, -1, -1)
    ensures ScalarSubCorrected(2, Default()) == Normal3(1, 1, 1)
  {
  }

  /** The mixed products with a `Vec3` agree with the `Normal3` product
      of the converted operand. */
  lemma MixedProducts(n: Normal3, v: Vec3)
    ensures MulVec3(n, v) == Mul(n, FromVec3(v))
    ensures AddVec3(n, v) == Add(n, FromVec3(v))
  {
  }

  /** The three `dot` overloads agree with one another and with `dot` on
      `Vec3`, and each is symmetric. */
  lemma DotsAgree(n: Normal3, m: Normal3, v: Vec3)
    ensures Vec3Dot(v, n) == DotVec3(n, v)
    ensures DotVec3(n, v) == Dot(n, FromVec3(v))
    ensures DotVec3(n, v) == Vector3.Dot(Vector3.FromNormal3(n), v)
    ensures Dot(n, m) == Dot(m, n)
  {
  }

  /** Unary `+` is the identity and unary `-` an involution. */
  lemma UnaryLaws(n: Normal3)
    ensures Pos(n) == n
    ensures Neg(Neg(n)) == n
    ensures Add(n, Neg(n)) == Normal3(0, 0, 0)
  {
  }

  /** The default normal is all ones, where the default `Vec3` is all
      zeros. */
  lemma DefaultIsOnes()
    ensures Components(Default()) == [1, 1, 1]
    ensures Vector3.FromNormal3(Default()) != Vector3.Default()
    ensures Vector3.FromNormal3(Default()) == Vector3.UnitVec()
  {
  }

  /** The conversions copy `x`, `y`, `z` and ignore `w`, and a normal
      converted to a vector and back is unchanged. */
  lemma ConversionsCopy(v: Vec4, t: int, u: Vec3, p: Point3, n: Normal3)
    ensures Components(FromVec4(v)) == [v.x, v.y, v.z]
    ensures FromVec4(v.(w := t)) == FromVec4(v)
    ensures Components(FromVec3(u)) == Vector3.Components(u)
    ensures Components(FromPoint3(p)) == [p.x, p.y, p.z]
    ensures FromVec3(Vector3.FromNormal3(n)) == n
  {
  }

  /** The defaulted `<=>` is antisymmetric and its `<` is transitive. */
  lemma CompareOrder(a: Normal3, b: Normal3, c: Normal3)
    ensures Compare(b, a) == Compare(a, b).Flip()
    ensures Compare(a, b) == Less && Compare(b, c) == Less ==> Compare(a, c) == Less
  {
  }

  /** A `Normal3<int>` object: the members that the setters, `set`,
      `operator=(const Vec4&)` and the reference form of `operator[]`
      assign in place. */
  class Normal3Var {
    var x: int
    var y: int
    var z: int

    /** The value the object holds. */
    function Value(): Normal3
      reads this
    {
      Normal3(x, y, z)
    }

    /** `Normal3()`: all ones. */
    constructor ()
      ensures Value() == Default()
    {
      x, y, z := 1, 1, 1;
    }

    /** `Normal3(p1, p2, p3)`. */
    constructor Make(p1: int, p2: int, p3: int)
      ensures Value() == Normal3(p1, p2, p3)
    {
      x, y, z := p1, p2, p3;
    }

    /** `x(x)`: only `x` changes. */
    method SetX(num: int)
      modifies this
      ensures Value() == old(Value()).(x := num)
    {
      x := num;
    }

    /** `y(y)`: only `y` changes. */
    method SetY(num: int)
      modifies this
      ensures Value() == old(Value()).(y := num)
    {
      y := num;
    }

    /** `z(z)`: only `z` changes. */
    method SetZ(num: int)
      modifies this
      ensures Value() == old(Value()).(z := num)
    {
      z := num;
    }

    /** `set(n)`: every component becomes `n`. */
    method SetAll(n: int)
      modifies this
      ensures Value() == Normal3(n, n, n)
    {
      x, y, z := n, n, n;
    }

    /** `set(x, y, z)`. */
    method Set(px: int, py: int, pz: int)
      modifies this
      ensures Value() == Normal3(px, py, pz)
    {
      x, y, z := px, py, pz;
    }

    /** `operator=(const Vec4&)`: copies `x`, `y`, `z`, dropping `w`. */
    method AssignVec4(v: Vec4)
      modifies this
      ensures Value() == FromVec4(v)
    {
      x, y, z := v.x, v.y, v.z;
    }

    /** `n[i] = num` through the reference form of `operator[]`, whose index
        the source asserts to be in 0..2: component `i` alone becomes `num`. */
    method AssignAt(i: int, num: int)
      requires 0 <= i <= 2
      modifies this
      ensures At(Value(), i) == num
      ensures forall j :: 0 <= j <= 2 && j != i ==> At(Value(), j) == At(old(Value()), j)
    {
      if i == 0 {
        x := num;
      } else if i == 1 {
        y := num;
      } else {
        z := num;
      }
    }
  }
}
