/** The scalar every tuple type is instantiated at: `int`. Dafny's `int` is
    unbounded, and Dafny's `/` is Euclidean, so the C++ truncating division
    and the three-way comparison of the defaulted `operator<=>` are written
    out here. */
module Scalars {

  function Abs(a: int): nat { if a < 0 then -a else a }

  /** `q` is the quotient C++ integer division yields for `a / b`: the
      remainder `a - b * q` is smaller than the divisor in magnitude and is
      either zero or of the sign of `a` (division truncates toward zero). */
  predicate IsTruncQuotient(a: int, b: int, q: int) {
    && b != 0
    && Abs(a - b * q) < Abs(b)
    && (a - b * q == 0 || (a - b * q < 0) == (a < 0))
  }

  /** C++ `a / b` on integers, for a non-zero divisor. */
  function TruncDiv(a: int, b: int): (q: int)
    requires b != 0
    ensures IsTruncQuotient(a, b, q)
  {
    var n, d := Abs(a), Abs(b);
    var q0 := n / d;
    assert n == d * q0 + n % d && 0 <= n % d < d;
    assert b * q0 == if b < 0 then -(d * q0) else d * q0;
    if (a < 0) == (b < 0) then q0 else -q0
  }

  /** C++ `a / b` on integers where the caller has not excluded `b == 0`:
      C++ leaves that case undefined, and the model puts the placeholder 0
      there. */
  function UncheckedDiv(a: int, b: int): (q: int)
    ensures b != 0 ==> IsTruncQuotient(a, b, q)
  {
    if b == 0 then 0 else TruncDiv(a, b)
  }

  /** A non-zero multiple of `b` is at least as large as `b` in magnitude. */
  lemma MultipleMagnitude(b: int, k: int)
    ensures k != 0 ==> Abs(b * k) >= Abs(b)
  {
    if k != 0 {
      var m := Abs(k);
      assert Abs(b * k) == Abs(b) * m by {
        if k < 0 { assert b * k == -(b * m); }
      }
      assert Abs(b) * m == Abs(b) * (m - 1) + Abs(b);
      assert Abs(b) * (m - 1) >= 0;
    }
  }

  /** The remainder of a truncating division lies on the side of zero that
      `a` lies on. */
  lemma RemainderRange(a: int, b: int, q: int)
    requires IsTruncQuotient(a, b, q)
    ensures a < 0 ==> 0 < a - b * q + Abs(b) && a - b * q <= 0
    ensures a >= 0 ==> 0 <= a - b * q < Abs(b)
  {
  }

  /** Every non-zero divisor has a truncating quotient. */
  lemma TruncQuotientExists(a: int, b: int)
    requires b != 0
    ensures exists q :: IsTruncQuotient(a, b, q)
  {
    var q := TruncDiv(a, b);
  }

  /** The truncating-division contract determines the quotient, so
      `IsTruncQuotient` is a reference definition of C++ `/`. */
  lemma TruncQuotientUnique(a: int, b: int, q1: int, q2: int)
    requires IsTruncQuotient(a, b, q1) && IsTruncQuotient(a, b, q2)
    ensures q1 == q2
  {
    RemainderRange(a, b, q1);
    RemainderRange(a, b, q2);
    var r1, r2, k := a - b * q1, a - b * q2, q2 - q1;
    assert r1 - r2 == b * k by {
      assert b * q2 - b * q1 == b * (q2 - q1);
    }
    assert Abs(r1 - r2) < Abs(b);
    MultipleMagnitude(b, k);
  }

  /** The value of C++'s `std::strong_ordering` for a three-way comparison. */
  datatype Ordering = Less | Equal | Greater {
    /** The ordering seen from the other operand. */
    function Flip(): Ordering {
      match this
      case Less => Greater
      case Equal => Equal
      case Greater => Less
    }
  }

  /** `a <=> b` on the scalar. */
  function Cmp(a: int, b: int): (o: Ordering)
    ensures o == Less <==> a < b
    ensures o == Equal <==> a == b
  {
    if a < b then Less else if a == b then Equal else Greater
  }

  /** A defaulted `operator<=>` compares members in declaration order and
      returns the first comparison that is not `Equal`. */
  function Then(first: Ordering, rest: Ordering): Ordering {
    if first == Equal then rest else first
  }
}
