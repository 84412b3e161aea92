/** `Vec2<int>` (src/vec2.h): construction, indexing, comparison, unary
    operators, the free arithmetic operators and `dot`, with the mutable
    object `Vec2Var` for the members that assign to `m_x` and `m_y`. */
module Vector2 {
  import opened Failures
  import opened Scalars
  import opened Tuples

  /** `Vec2()`: both members are initialised to zero. */
  function Default(): Vec2 { Vec2(0, 0) }

  /** `Vec2::create_unit_vec()`. */
  function UnitVec(): Vec2 { Vec2(1, 1) }

  /** The members in declaration order, the order `operator[]` numbers them
      and the defaulted `operator<=>` compares them in. */
  function Components(v: Vec2): (s: seq<int>)
    ensures |s| == 2
  {
    [v.x, v.y]
  }

  /** `v[i]`: index 0 is `x`, index 1 is `y`, any other index throws
      `std::out_of_range`. */
  function At(v: Vec2, i: int): (r: Result<int>)
    ensures r.Ok? <==> 0 <= i < 2
    ensures r.Err? ==> r.error == OutOfRange
    ensures r.Ok? ==> r.value == Components(v)[i]
  {
    if i < 0 || i > 1 then Err(OutOfRange)
    else if i == 0 then Ok(v.x) else Ok(v.y)
  }

  /** `a <=> b`, defaulted: lexicographic on `(x, y)`. */
  function Compare(a: Vec2, b: Vec2): (r: Ordering)
    ensures r == Equal <==> a == b
    ensures r == Less <==> a.x < b.x || (a.x == b.x && a.y < b.y)
    ensures r == Greater <==> b.x < a.x || (a.x == b.x && b.y < a.y)
  {
    Then(Cmp(a.x, b.x), Cmp(a.y, b.y))
  }

  /** Unary `+v`: a copy. */
  function Pos(v: Vec2): Vec2 { Vec2(v.x, v.y) }

  /** Unary `-v`. */
  function Neg(v: Vec2): Vec2 { Vec2(-v.x, -v.y) }

  /** `v.is_zero()`: equality with `Vec2(0, 0)`. */
  predicate IsZero(v: Vec2) { v == Vec2(0, 0) }

  function Add(a: Vec2, b: Vec2): Vec2 { Vec2(a.x + b.x, a.y + b.y) }

  /** `v + num`. */
  function AddScalar(v: Vec2, num: int): Vec2 { Vec2(v.x + num, v.y + num) }

  /** `num + v`, written in the source as `v + num`. */
  function ScalarAdd(num: int, v: Vec2): Vec2 { AddScalar(v, num) }

  function Sub(a: Vec2, b: Vec2): Vec2 { Vec2(a.x - b.x, a.y - b.y) }

  /** `v - num`. */
  function SubScalar(v: Vec2, num: int): Vec2 { Vec2(v.x - num, v.y - num) }

  /** `num - v` as the source writes it: `v - num`. */
  function ScalarSub(num: int, v: Vec2): Vec2 { SubScalar(v, num) }

  /** `num - v` as evidently intended: each component subtracted from `num`. */
  function ScalarSubCorrected(num: int, v: Vec2): (r: Vec2)
    ensures Add(r, v) == Vec2(num, num)
  {
    Vec2(num - v.x, num - v.y)
  }

  function Mul(a: Vec2, b: Vec2): Vec2 { Vec2(a.x * b.x, a.y * b.y) }

  /** `v * num`. */
  function MulScalar(v: Vec2, num: int): Vec2 { Vec2(v.x * num, v.y * num) }

  /** `num * v`, written in the source as `v * num`. */
  function ScalarMul(num: int, v: Vec2): Vec2 { MulScalar(v, num) }

  /** `v1 / v2` as the source writes it: it throws only when the divisor is
      the zero vector, so a divisor with one zero component goes on to an
      integer division by zero (see `DivGuardGap`). */
  function Div(a: Vec2, b: Vec2): (r: Result<Vec2>)
    ensures r.Err? <==> IsZero(b)
    ensures r.Err? ==> r.error == DivideByZero
    ensures r.Ok? && b.x != 0 ==> IsTruncQuotient(a.x, b.x, r.value.x)
    ensures r.Ok? && b.y != 0 ==> IsTruncQuotient(a.y, b.y, r.value.y)
  {
    if IsZero(b) then Err(DivideByZero)
    else Ok(Vec2(UncheckedDiv(a.x, b.x), UncheckedDiv(a.y, b.y)))
  }

  /** `v1 / v2` as evidently intended: it throws whenever a component of
      the divisor is zero, and otherwise divides componentwise. */
  function DivCorrected(a: Vec2, b: Vec2): (r: Result<Vec2>)
    ensures r.Err? <==> b.x == 0 || b.y == 0
    ensures r.Err? ==> r.error == DivideByZero
    ensures r.Ok? ==> IsTruncQuotient(a.x, b.x, r.value.x) && IsTruncQuotient(a.y, b.y, r.value.y)
  {
    if b.x == 0 || b.y == 0 then Err(DivideByZero)
    else Ok(Vec2(TruncDiv(a.x, b.x), TruncDiv(a.y, b.y)))
  }

  /** `v / num`: throws for a zero divisor, otherwise divides every
      component by `num`, truncating. */
  function DivScalar(v: Vec2, num: int): (r: Result<Vec2>)
    ensures r.Err? <==> num == 0
    ensures r.Err? ==> r.error == DivideByZero
    ensures r.Ok? ==> IsTruncQuotient(v.x, num, r.value.x) && IsTruncQuotient(v.y, num, r.value.y)
  {
    if num == 0 then Err(DivideByZero)
    else Ok(Vec2(TruncDiv(v.x, num), TruncDiv(v.y, num)))
  }

  /** `dot(v1, v2)`: the sum of the components of `v1 * v2`. */
  function Dot(a: Vec2, b: Vec2): (r: int)
    ensures r == a.x * b.x + a.y * b.y
  {
    var p := Mul(a, b);
    p.x + p.y
  }

  /** The binary operators act component by component, as seen through
      `operator[]`. */
  lemma Componentwise(a: Vec2, b: Vec2, num: int, i: int)
    requires 0 <= i < 2
    ensures Components(Add(a, b))[i] == Components(a)[i] + Components(b)[i]
    ensures Components(Sub(a, b))[i] == Components(a)[i] - Components(b)[i]
    ensures Components(Mul(a, b))[i] == Components(a)[i] * Components(b)[i]
    ensures Components(AddScalar(a, num))[i] == Components(a)[i] + num
    ensures Components(SubScalar(a, num))[i] == Components(a)[i] - num
    ensures Components(MulScalar(a, num))[i] == Components(a)[i] * num
  {
  }

  /** The scalar-first operators delegate to the vector-first ones:
      `num + v` and `num * v` add and multiply every component by `num`,
      while `num - v` gives `v - num`, each component less `num`. */
  lemma ScalarFirstForms(num: int, v: Vec2)
    ensures ScalarAdd(num, v) == AddScalar(v, num)
    ensures ScalarMul(num, v) == MulScalar(v, num)
    ensures ScalarSub(num, v) == SubScalar(v, num)
    ensures ScalarAdd(num, v) == Vec2(num + v.x, num + v.y)
    ensures ScalarMul(num, v) == Vec2(num * v.x, num * v.y)
    ensures ScalarSub(num, v) == Vec2(v.x - num, v.y - num)
  {
  }

  /** The source's `num - v` agrees with the subtraction from `num` only
      when `v` is `(num, num)`; `num = 1`, `v = (0, 0)` yields `(-1, -1)`
      where `(1, 1)` is meant. */
  lemma ScalarSubReversed(num: int, v: Vec2)
    ensures ScalarSub(num, v) == ScalarSubCorrected(num, v) <==> v == Vec2(num, num)
    ensures ScalarSub(1, Default()) == Vec2(-1, -1)
    ensures ScalarSubCorrected(1, Default()) == Vec2(1, 1)
  {
  }

  /** The guard of `v1 / v2` lets a divisor with a zero component through,
      which the corrected division rejects. */
  lemma DivGuardGap(a: Vec2, b: Vec2)
    requires !IsZero(b) && (b.x == 0 || b.y == 0)
    ensures Div(a, b).Ok? && DivCorrected(a, b) == Err(DivideByZero)
  {
  }

  /** The additive laws, exact over `int`. */
  lemma AdditiveLaws(a: Vec2, b: Vec2)
    ensures Add(a, Default()) == a
    ensures IsZero(Sub(a, a))
    ensures Sub(Add(a, b), b) == a
    ensures Add(a, b) == Add(b, a)
    ensures Add(a, Neg(a)) == Default()
  {
  }

  /** Unary `+` is the identity and unary `-` an involution. */
  lemma UnaryLaws(v: Vec2)
    ensures Pos(v) == v
    ensures Neg(Neg(v)) == v
    ensures Neg(v) == MulScalar(v, -1)
  {
  }

  /** `is_zero()` holds exactly for the default-constructed vector, and not
      for the unit vector. */
  lemma IsZeroIsDefault(v: Vec2)
    ensures IsZero(v) <==> v.x == 0 && v.y == 0
    ensures IsZero(v) <==> v == Default()
    ensures !IsZero(UnitVec())
  {
  }

  /** The componentwise product `a * b` commutes, has the unit vector as
      identity and the zero vector as absorber, and `dot` is the sum of its
      components. */
  lemma ProductLaws(a: Vec2, b: Vec2)
    ensures Mul(a, b) == Mul(b, a)
    ensures Mul(a, UnitVec()) == a
    ensures IsZero(Mul(a, Default()))
    ensures Dot(a, b) == Components(Mul(a, b))[0] + Components(Mul(a, b))[1]
  {
  }

  /** `dot` is symmetric and bilinear. */
  lemma DotLaws(a: Vec2, b: Vec2, c: Vec2, k: int)
    ensures Dot(a, b) == Dot(b, a)
    ensures Dot(Add(a, b), c) == Dot(a, c) + Dot(b, c)
    ensures Dot(MulScalar(a, k), b) == k * Dot(a, b)
  {
  }

  /** The dot products the test suite states. */
  lemma DotExamples()
    ensures Dot(Vec2(3, 3), Vec2(3, 3)) == 18
    ensures Dot(Vec2(-1, 5), Vec2(-3, 3)) == 18
  {
  }

  /** The defaulted `<=>` is antisymmetric and its `<` is transitive. */
  lemma CompareOrder(a: Vec2, b: Vec2, c: Vec2)
    ensures Compare(b, a) == Compare(a, b).Flip()
    ensures Compare(a, b) == Less && Compare(b, c) == Less ==> Compare(a, c) == Less
  {
  }

  /** A `Vec2<int>` object: the members `m_x`, `m_y` that the setters,
      `set` and the reference form of `operator[]` assign in place. */
  class Vec2Var {
    var x: int
    var y: int

    /** The value the object holds. */
    function Value(): Vec2
      reads this
    {
      Vec2(x, y)
    }

    /** `Vec2()`. */
    constructor ()
      ensures Value() == Default()
    {
      x, y := 0, 0;
    }

    /** `Vec2(p1, p2)`. */
    constructor Make(p1: int, p2: int)
      ensures Value() == Vec2(p1, p2)
    {
      x, y := p1, p2;
    }

    /** `x(num)`: only `x` changes. */
    method SetX(num: int)
      modifies this
      ensures Value() == old(Value()).(x := num)
    {
      x := num;
    }

    /** `y(num)`: only `y` changes. */
    method SetY(num: int)
      modifies this
      ensures Value() == old(Value()).(y := num)
    {
      y := num;
    }

    /** `set(num)`: both components become `num`. */
    method SetAll(num: int)
      modifies this
      ensures Value() == Vec2(num, num)
    {
      x, y := num, num;
    }

    /** `set(num1, num2)`. */
    method Set(num1: int, num2: int)
      modifies this
      ensures Value() == Vec2(num1, num2)
    {
      x, y := num1, num2;
    }

    /** `v[i] = num` through the reference form of `operator[]`: throws
      `std::out_of_range` for an index other than 0 or 1 and changes
      nothing; otherwise component `i` alone becomes `num`. */
    method AssignAt(i: int, num: int) returns (r: Outcome)
      modifies this
      ensures r.Pass? <==> 0 <= i < 2
      ensures r.Fail? ==> r.error == OutOfRange && Value() == old(Value())
      ensures r.Pass? ==> At(Value(), i) == Ok(num)
      ensures forall j :: j != i ==> At(Value(), j) == At(old(Value()), j)
    {
      if i < 0 || i > 1 {
        return Fail(OutOfRange);
      }
      if i == 0 {
        x := num;
      } else {
        y := num;
      }
      r := Pass;
    }
  }
}
