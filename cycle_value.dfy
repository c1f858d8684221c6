/**
 * CycleValue (src/component/comp_type.hpp): an angle kept in [0, 2π), with
 * addition that stays normalized and subtraction that yields the signed
 * difference in [-π, π). Floating point is modelled by exact reals.
 */
module CycleValues {
  import opened Common

  /** Type::Vector3: three single-precision components, as reals. */
  datatype Vector3 = Vector3(x: real, y: real, z: real)

  /** The whole number nearest to x in the direction of zero (C's truncation). */
  function Trunc(x: real): (n: int)
    ensures x >= 0.0 ==> 0.0 <= n as real <= x < n as real + 1.0
    ensures x < 0.0 ==> n as real - 1.0 < x <= n as real <= 0.0
  {
    if x >= 0.0 then x.Floor else -((-x).Floor)
  }

  /** x is a whole number. */
  predicate IsWhole(x: real)
  {
    x.Floor as real == x
  }

  lemma WholeInt(n: int)
    ensures IsWhole(n as real)
  {
  }

  /** Whole numbers are closed under addition and negation. */
  lemma WholeAdd(x: real, y: real)
    requires IsWhole(x) && IsWhole(y)
    ensures IsWhole(x + y) && IsWhole(-x)
  {
    var n, m := x.Floor, y.Floor;
    assert x + y == (n + m) as real;
    WholeInt(n + m);
    assert -x == (-n) as real;
    WholeInt(-n);
  }

  /** a and b differ by a whole number of turns. */
  predicate Congruent(a: real, b: real)
  {
    IsWhole((a - b) / TWO_PI)
  }

  lemma TwoPiIsTwicePi()
    ensures TWO_PI == 2.0 * PI && PI > 3.0
  {
  }

  /** Congruence is an equivalence relation and is kept by adding whole turns. */
  lemma CongruentTurns(a: real, b: real, c: real, k: int)
    ensures Congruent(a, a)
    ensures Congruent(a, b) ==> Congruent(b, a)
    ensures Congruent(a, b) && Congruent(b, c) ==> Congruent(a, c)
    ensures Congruent(a, b) <==> Congruent(a + k as real * TWO_PI, b)
  {
    var x, y := (a - b) / TWO_PI, (b - c) / TWO_PI;
    WholeInt(0);
    assert (a - a) / TWO_PI == 0.0;
    assert (a - c) / TWO_PI == x + y;
    if IsWhole(x) {
      WholeAdd(x, 0.0);
      assert (b - a) / TWO_PI == -x;
      if IsWhole(y) {
        WholeAdd(x, y);
      }
    }
    var z := (a + k as real * TWO_PI - b) / TWO_PI;
    assert z == x + k as real;
    WholeInt(k);
    WholeInt(-k);
    if IsWhole(x) {
      WholeAdd(x, k as real);
    }
    if IsWhole(z) {
      WholeAdd(z, (-k) as real);
      assert x == z + (-k) as real;
    }
  }

  /** Two congruent values within one turn of the same lower bound are equal. */
  lemma CongruentUnique(a: real, b: real, lo: real)
    requires lo <= a < lo + TWO_PI && lo <= b < lo + TWO_PI
    requires Congruent(a, b)
    ensures a == b
  {
    var x := (a - b) / TWO_PI;
    assert -1.0 < x < 1.0;
    assert x.Floor == 0;
  }

  /** std::fmodf(x, M_2PI): the remainder of truncated division by a full turn. */
  function FModTwoPi(x: real): (r: real)
    ensures -TWO_PI < r < TWO_PI
    ensures x >= 0.0 ==> r >= 0.0
    ensures x < 0.0 ==> r <= 0.0
    ensures Congruent(r, x)
  {
    var n := Trunc(x / TWO_PI);
    assert (x - n as real * TWO_PI - x) / TWO_PI == (-n) as real;
    WholeInt(-n);
    x - n as real * TWO_PI
  }

  /** CycleValue::Calculate: the value brought into [0, 2π). */
  function Calculate(v: real): (r: real)
    ensures 0.0 <= r < TWO_PI
    ensures Congruent(r, v)
  {
    var m := FModTwoPi(v);
    CongruentTurns(m, v, v, 1);
    if m < 0.0 then m + TWO_PI else m
  }

  /** A value already in [0, 2π) is left as it is. */
  lemma CalculateNormal(v: real)
    requires 0.0 <= v < TWO_PI
    ensures Calculate(v) == v
  {
    CongruentTurns(Calculate(v), v, v, 0);
    CongruentUnique(Calculate(v), v, 0.0);
  }

  /** Calculate depends only on the angle, not on the number of turns. */
  lemma CalculateCongruent(a: real, b: real)
    ensures Congruent(a, b) <==> Calculate(a) == Calculate(b)
  {
    var ca, cb := Calculate(a), Calculate(b);
    if Congruent(a, b) {
      CongruentTurns(ca, a, b, 0);
      CongruentTurns(cb, b, b, 0);
      CongruentTurns(ca, b, cb, 0);
      CongruentUnique(ca, cb, 0.0);
    }
    if ca == cb {
      CongruentTurns(ca, a, a, 0);
      CongruentTurns(a, ca, b, 0);
    }
  }

  lemma CalculateIdempotent(v: real)
    ensures Calculate(Calculate(v)) == Calculate(v)
  {
    CalculateNormal(Calculate(v));
  }

  /**
   * The signed difference the subtraction operators compute: the value in
   * [-π, π) that differs from d by whole turns.
   */
  function Wrap(d: real): (w: real)
    ensures -PI <= w < PI
    ensures Congruent(w, d)
  {
    var n := ((d + PI) / TWO_PI).Floor;
    assert (d - n as real * TWO_PI - d) / TWO_PI == (-n) as real;
    WholeInt(-n);
    d - n as real * TWO_PI
  }

  /** A difference already in [-π, π) is returned unchanged. */
  lemma WrapNormal(d: real)
    requires -PI <= d < PI
    ensures Wrap(d) == d
  {
    CongruentTurns(Wrap(d), d, d, 0);
    CongruentUnique(Wrap(d), d, -PI);
  }

  /** Degrees as radians. */
  function Radians(deg: real): real
  {
    deg * PI / 180.0
  }

  /** 359 degrees minus 1 degree is -2 degrees. */
  lemma WrapExample()
    ensures Wrap(Calculate(Radians(359.0)) - Calculate(Radians(1.0))) == Radians(-2.0)
  {
    CalculateNormal(Radians(359.0));
    CalculateNormal(Radians(1.0));
    assert ((Radians(358.0) + PI) / TWO_PI).Floor == 1;
  }

  /** Unary minus: -0 is 0, and negating twice returns the value. */
  lemma NegateProperties(v: real)
    requires 0.0 <= v < TWO_PI
    ensures Calculate(TWO_PI - 0.0) == 0.0
    ensures Congruent(Calculate(TWO_PI - v) + v, 0.0)
    ensures Calculate(TWO_PI - Calculate(TWO_PI - v)) == v
  {
    CongruentTurns(0.0, TWO_PI, TWO_PI, -1);
    CalculateCongruent(TWO_PI, 0.0);
    CalculateNormal(0.0);
    var n := Calculate(TWO_PI - v);
    assert (n + v - 0.0) / TWO_PI == (n - (TWO_PI - v)) / TWO_PI + 1.0;
    CongruentTurns(n, TWO_PI - v, TWO_PI - v, 0);
    assert Congruent(TWO_PI - n, v);
    CalculateCongruent(TWO_PI - n, v);
    CalculateNormal(v);
  }

  class CycleValue {
    /** value_: the angle, in [0, 2π) whenever it was set through Calculate. */
    var value: real

    ghost predicate Valid()
      reads this
    {
      0.0 <= value < TWO_PI
    }

    /** CycleValue(float) and CycleValue(double): stores Calculate of the number. */
    constructor FromReal(v: real)
      ensures value == Calculate(v) && Valid()
    {
      value := Calculate(v);
    }

    /** The default constructor: the angle 0. */
    constructor ()
      ensures value == 0.0 && Valid()
    {
      value := 0.0;
    }

    /**
     * The copy constructor: takes the other value and brings it into [0, 2π)
     * by whole turns, which leaves an already normalized value unchanged.
     */
    constructor Copy(other: CycleValue)
      ensures value == Calculate(other.value) && Valid()
      ensures other.Valid() ==> value == other.value
    {
      value := other.value;
      new;
      ghost var k: int := 0;
      while value >= TWO_PI
        invariant value == other.value + k as real * TWO_PI
        invariant value >= other.value || value >= 0.0
        decreases (value / TWO_PI).Floor
      {
        value := value - TWO_PI;
        k := k - 1;
      }
      while value < 0.0
        invariant value == other.value + k as real * TWO_PI
        invariant value < TWO_PI
        decreases -(value / TWO_PI).Floor
      {
        value := value + TWO_PI;
        k := k + 1;
      }
      CongruentTurns(other.value, other.value, other.value, k);
      CongruentTurns(value, other.value, value, 0);
      CalculateCongruent(value, other.value);
      CalculateNormal(value);
    }

    /** operator+ with a number: a new value, the normalized sum. */
    method Plus(x: real) returns (c: CycleValue)
      ensures fresh(c) && c.value == Calculate(x + value)
    {
      c := new CycleValue.FromReal(x + value);
    }

    /** operator+ with another CycleValue. */
    method PlusCycle(other: CycleValue) returns (c: CycleValue)
      ensures fresh(c) && c.value == Calculate(other.value + value)
    {
      c := new CycleValue.FromReal(other.value + value);
    }

    /** operator+= with a number. */
    method AddAssign(x: real)
      modifies this
      ensures value == Calculate(x + old(value))
    {
      value := Calculate(x + value);
    }

    /** operator+= with another CycleValue, which may be this one. */
    method AddAssignCycle(other: CycleValue)
      modifies this
      ensures value == Calculate(old(other.value) + old(value))
    {
      value := Calculate(other.value + value);
    }

    /** operator- with a number: the signed difference to its normalized value. */
    method Minus(raw: real) returns (ans: real)
      ensures -PI <= ans < PI
      ensures ans == Wrap(value - Calculate(raw))
    {
      var v := Calculate(raw);
      ans := WrapDifference(value - v);
    }

    /** operator- with another CycleValue. */
    method MinusCycle(other: CycleValue) returns (ans: real)
      ensures -PI <= ans < PI
      ensures ans == Wrap(value - other.value)
    {
      ans := WrapDifference(value - other.value);
    }

    /** The two loops of every operator-: whole turns off until the difference is in [-π, π). */
    static method WrapDifference(d: real) returns (ans: real)
      ensures -PI <= ans < PI && Congruent(ans, d)
      ensures ans == Wrap(d)
    {
      TwoPiIsTwicePi();
      ans := d;
      ghost var k: int := 0;
      while ans >= PI
        invariant ans == d + k as real * TWO_PI
        invariant ans >= d || ans >= -PI
        decreases ((ans + PI) / TWO_PI).Floor
      {
        ans := ans - TWO_PI;
        k := k - 1;
      }
      while ans < -PI
        invariant ans == d + k as real * TWO_PI
        invariant ans < PI
        decreases -((ans + PI) / TWO_PI).Floor
      {
        ans := ans + TWO_PI;
        k := k + 1;
      }
      CongruentTurns(d, d, d, k);
      CongruentTurns(ans, d, ans, 0);
      CongruentTurns(ans, d, Wrap(d), 0);
      CongruentTurns(d, Wrap(d), ans, 0);
      CongruentTurns(Wrap(d), d, ans, 0);
      CongruentUnique(ans, Wrap(d), -PI);
    }

    /** Unary operator-: the angle 2π - value, normalized. */
    method Negate() returns (c: CycleValue)
      ensures fresh(c) && c.value == Calculate(TWO_PI - value)
    {
      c := new CycleValue.FromReal(TWO_PI - value);
    }

    /** Value() and the conversion to float. */
    function Value(): (v: real)
      reads this
      ensures Valid() ==> 0.0 <= v < TWO_PI
    {
      value
    }

    /** operator= with a number. */
    method Assign(x: real)
      modifies this
      ensures value == Calculate(x)
    {
      value := Calculate(x);
    }

    /** The default copy assignment: copies the stored value as it is. */
    method AssignCycle(other: CycleValue)
      modifies this
      ensures value == old(other.value)
    {
      value := other.value;
    }
  }
}
