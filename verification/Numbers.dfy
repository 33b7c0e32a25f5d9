/** Numbers on the wire. Python sends an integer digit by digit, the host reads
    it as a float64 and writes that back with the fewest digits that identify it. */
module Numbers {
  import R = RowMajor

  const EXACT: nat := 0x20_0000_0000_0000            // 2^53
  const E21: nat := 1_000_000_000_000_000_000_000    // integers from here on are written with an exponent

  // The distance between neighbouring doubles around n.
  function Ulp(n: nat): (p: nat)
    ensures p >= 1
  {
    if n < EXACT then 1 else 2 * Ulp(n / 2)
  }

  // The nearest double, ties to the even mantissa.
  function RoundNat(n: nat): nat {
    var p := Ulp(n);
    var q, r := n / p, n % p;
    if 2 * r < p || (2 * r == p && q % 2 == 0) then q * p else (q + 1) * p
  }

  function RoundInt(i: int): int {
    if i < 0 then -(RoundNat(-i) as int) else RoundNat(i)
  }

  lemma {:induction false} UlpFits(n: nat)
    requires n >= EXACT
    ensures Ulp(n) >= 2 && n / Ulp(n) >= EXACT / 2
    ensures n < 2 * EXACT ==> Ulp(n) == 2
    ensures n >= 2 * EXACT ==> Ulp(n) >= 4
  {
    var p := Ulp(n / 2);
    if n / 2 >= EXACT {
      UlpFits(n / 2);
      DivTwice(n, p);
    }
  }

  lemma DivTwice(n: nat, p: nat)
    requires p >= 1
    ensures n / (2 * p) == n / 2 / p
  {
    var q := n / 2 / p;
    var r := n / 2 % p;
    assert n / 2 == q * p + r;
    assert n == q * (2 * p) + (2 * r + n % 2);
    R.DivOfSum(q, 2 * p, 2 * r + n % 2);
  }

  // Which integers the host takes for a given small one.
  lemma RoundsToSmall(m: nat)
    ensures m <= EXACT ==> RoundNat(m) == m
    ensures m == EXACT + 1 ==> RoundNat(m) == EXACT
    ensures m > EXACT + 1 ==> RoundNat(m) > EXACT
  {
    if m < EXACT {
      assert Ulp(m) == 1 && m % 1 == 0 && m / 1 == m;
    } else {
      UlpFits(m);
      var p := Ulp(m);
      var q := m / p;
      if m < 2 * EXACT {
        assert p == 2;
      } else {
        assert q * p >= (EXACT / 2) * 4 by { R.MulMono(EXACT / 2, q, p); R.MulMono(4, p, EXACT / 2); }
        assert (q + 1) * p == q * p + p;
      }
    }
  }

  // Rounding yields a double: a multiple of the spacing with at most 53 bits,
  // and rounding that again changes nothing.
  lemma {:induction false} UlpOfMultiple(n: nat, q: nat)
    requires EXACT / 2 <= q <= EXACT && n >= EXACT
    ensures Ulp(q * Ulp(n)) == if q == EXACT then 2 * Ulp(n) else Ulp(n)
  {
    var p := Ulp(n / 2);
    assert q * Ulp(n) == 2 * (q * p);
    R.MulMono(1, p, q);
    assert Ulp(2 * (q * p)) == 2 * Ulp(q * p);
    if n / 2 >= EXACT {
      UlpOfMultiple(n / 2, q);
    } else {
      assert p == 1 && q * p == q;
    }
  }

  lemma RoundForm(n: nat) returns (k: nat)
    requires n >= EXACT
    ensures EXACT / 2 <= k <= EXACT && RoundNat(n) == k * Ulp(n)
  {
    hide Ulp;
    UlpFits(n);
    UlpBelow(n);
    var p := Ulp(n);
    k := if 2 * (n % p) < p || (2 * (n % p) == p && n / p % 2 == 0) then n / p else n / p + 1;
  }

  lemma ExactStays(n: nat, k: nat)
    requires n == k * Ulp(n)
    ensures RoundNat(n) == n
  {
    hide Ulp;
    R.DivOfSum(k, Ulp(n), 0);
  }

  lemma MultipleStays(m: nat, k: nat, p: nat)
    requires m == k * p && Ulp(m) == if k == EXACT then 2 * p else p
    ensures RoundNat(m) == m
  {
    hide Ulp, RoundNat;
    if k == EXACT {
      assert m == EXACT / 2 * (2 * p);
      ExactStays(m, EXACT / 2);
    } else {
      ExactStays(m, k);
    }
  }

  lemma RoundTwice(n: nat)
    ensures RoundNat(RoundNat(n)) == RoundNat(n)
  {
    if n < EXACT {
      RoundsToSmall(n);
    } else {
      hide RoundNat, Ulp;
      var k := RoundForm(n);
      UlpOfMultiple(n, k);
      MultipleStays(RoundNat(n), k, Ulp(n));
    }
  }

  lemma {:induction false} UlpBelow(n: nat)
    ensures n / Ulp(n) < EXACT
  {
    if n >= EXACT {
      UlpBelow(n / 2);
      DivTwice(n, Ulp(n / 2));
    }
  }

  // Rounding moves a number by less than the number itself.
  lemma RoundBound(n: nat)
    ensures RoundNat(n) <= 2 * n
  {
    if n < EXACT {
      RoundsToSmall(n);
    } else {
      UlpFits(n);
      hide Ulp;
      var p, q := Ulp(n), n / Ulp(n);
      R.MulMono(1, q, p);
      assert q * p <= n && (q + 1) * p == q * p + p;
    }
  }

  // ---------------------------------------------------------------- doubles

  function Pow2(n: nat): nat { if n == 0 then 1 else 2 * Pow2(n - 1) }

  lemma {:induction false} Pow2Grows(m: nat, n: nat)
    requires m <= n
    ensures Pow2(m) <= Pow2(n)
  {
    if m < n {
      Pow2Grows(m, n - 1);
    }
  }

  lemma {:induction false} Pow2Sum(m: nat, n: nat)
    ensures Pow2(m + n) == Pow2(m) * Pow2(n)
  {
    if n > 0 {
      Pow2Sum(m, n - 1);
      assert Pow2(m) * Pow2(n) == Pow2(m) * Pow2(n - 1) * 2;
    }
  }

  // The integers float64 can hold, whatever its largest exponent.
  ghost predicate IsDouble(i: int) {
    exists q: nat, e: nat :: q < EXACT && Abs(i) == Scaled(q, e)
  }

  function Scaled(q: nat, e: nat): nat { q * Pow2(e) }

  lemma {:induction false} UlpIsPower(n: nat) returns (e: nat)
    ensures Ulp(n) == Pow2(e)
  {
    if n < EXACT {
      e := 0;
    } else {
      var d := UlpIsPower(n / 2);
      e := d + 1;
    }
  }

  // A multiple of p that is above q * p is at least the next one.
  lemma NextMultiple(k: nat, q: nat, p: nat)
    requires k * p > q * p
    ensures k * p >= q * p + p
  {
    if k <= q {
      R.MulMono(k, q, p);
      assert false;
    }
    R.MulLess(q, k, p);
  }

  // No double lies strictly between two neighbours n / p * p and n / p * p + p.
  lemma Gap(n: nat, m: nat)
    requires IsDouble(m)
    ensures var p, q := Ulp(n), n / Ulp(n); m <= q * p || m >= q * p + p
  {
    var p, q := Ulp(n), n / Ulp(n);
    if m > q * p && n >= EXACT {
      var k: nat, e: nat :| k < EXACT && m == Scaled(k, e);
      var f := UlpIsPower(n);
      UlpFits(n);
      hide Ulp;
      if e >= f {
        Pow2Sum(e - f, f);
        R.MulAssoc(k, Pow2(e - f), p);
        NextMultiple(k * Pow2(e - f), q, p);
      } else {
        HalfStep(k, e, f, q);
      }
    }
  }

  // Doubles with a smaller spacing are below.
  lemma HalfStep(k: nat, e: nat, f: nat, q: nat)
    requires e < f && k < EXACT && q >= EXACT / 2
    ensures k * Pow2(e) <= q * Pow2(f)
  {
    Pow2Grows(e, f - 1);
    assert Pow2(f) == 2 * Pow2(f - 1);
    hide *;
    R.MulMono(Pow2(e), Pow2(f - 1), k);
    R.MulMono(k, EXACT, Pow2(f - 1));
    R.MulMono(EXACT / 2, q, Pow2(f));
    assert EXACT * Pow2(f - 1) == EXACT / 2 * Pow2(f) by {
      Halves(Pow2(f - 1));
    }
  }

  lemma Halves(h: nat)
    ensures EXACT * h == EXACT / 2 * (2 * h)
  {
  }

  // The doubles are the numbers rounding leaves alone.
  lemma DoublesStay(m: nat)
    ensures IsDouble(m) <==> RoundNat(m) == m
  {
    var p, q := Ulp(m), m / Ulp(m);
    NextTimes(q, p);
    if IsDouble(m) {
      Gap(m, m);
    }
    if RoundNat(m) == m {
      RoundIsDouble(m);
    }
  }

  lemma RoundIsDouble(n: nat)
    ensures IsDouble(RoundNat(n))
  {
    hide RoundNat, Pow2;
    if n < EXACT {
      RoundsToSmall(n);
      ScaledIsDouble(n, 0, n);
    } else {
      var k := RoundForm(n);
      var e := UlpIsPower(n);
      hide Ulp;
      ScaledIsDouble(k, e, RoundNat(n));
    }
  }

  lemma ScaledIsDouble(k: nat, e: nat, m: nat)
    requires k <= EXACT && (m == k * Pow2(e) || (e == 0 && m == k < EXACT))
    ensures IsDouble(m)
  {
    hide Ulp;
    if k == EXACT {
      Halves(Pow2(e));
      assert m == Scaled(EXACT / 2, e + 1);
    } else {
      assert m == Scaled(k, e);
    }
  }

  // x is the double nearest to i: every other one is further away, or as far, and
  // then x is the one that is an even multiple of the distance between the two.
  ghost predicate Nearest(i: int, x: int) {
    IsDouble(x) && forall m | IsDouble(m) && m != x :: Preferred(i, x, m)
  }

  predicate Preferred(i: int, x: int, m: int) {
    var d := Abs(m - x);
    || Abs(x - i) < Abs(m - i)
    || (Abs(x - i) == Abs(m - i) && d > 0 && Abs(x) % (2 * d) == 0)
  }

  lemma RoundPreferred(n: nat, m: nat)
    requires IsDouble(m) && m != RoundNat(n)
    ensures Preferred(n, RoundNat(n), m)
  {
    var p, a, r, even := RoundChoice(n);
    Gap(n, m);
    hide *;
    CloserOfTwo(a, p, r, even, m);
  }

  lemma NextTimes(q: nat, p: nat)
    ensures (q + 1) * p == q * p + p
  {
  }

  // n is r above the neighbour a, whose mantissa may be even.
  lemma RoundChoice(n: nat) returns (p: nat, a: nat, r: nat, even: bool)
    ensures p == Ulp(n) && a == n / p * p && r < p && n == a + r
    ensures RoundNat(n) == if 2 * r < p || (2 * r == p && even) then a else a + p
    ensures if even then a % (2 * p) == 0 else (a + p) % (2 * p) == 0
  {
    p := Ulp(n);
    var q := n / p;
    a, r, even := q * p, n % p, q % 2 == 0;
    NextTimes(q, p);
    EvenMultiple(if even then q else q + 1, p);
    hide Ulp;
  }

  // Of the neighbours a and a + p of a + r the closer is preferred to any m beyond.
  lemma CloserOfTwo(a: nat, p: nat, r: nat, even: bool, m: nat)
    requires r < p && (m <= a || m >= a + p)
    requires if even then a % (2 * p) == 0 else (a + p) % (2 * p) == 0
    ensures var x := if 2 * r < p || (2 * r == p && even) then a else a + p;
            m != x ==> Preferred(a + r, x, m)
  {
    var x := if 2 * r < p || (2 * r == p && even) then a else a + p;
    if m != x && Abs(x - (a + r)) >= Abs(m - (a + r)) {
      assert Abs(m - x) == p;
    }
  }

  lemma EvenMultiple(q: nat, p: nat)
    requires p > 0 && q % 2 == 0
    ensures q * p % (2 * p) == 0
  {
    R.DivOfSum(q / 2, 2 * p, 0);
    assert q * p == q / 2 * (2 * p);
  }

  lemma SameSize(a: int, b: int)
    requires Abs(a) == Abs(b)
    ensures IsDouble(a) <==> IsDouble(b)
  {
  }

  lemma Mirrored(i: int, x: int, m: int)
    requires Preferred(-i, -x, -m)
    ensures Preferred(i, x, m)
  {
    assert Abs(-m - -x) == Abs(m - x) && Abs(-x - -i) == Abs(x - i) && Abs(-m - -i) == Abs(m - i);
  }

  lemma RoundPreferredUp(i: nat, m: int)
    requires IsDouble(m) && m != RoundNat(i)
    ensures Preferred(i, RoundNat(i), m)
  {
    if m >= 0 {
      RoundPreferred(i, m);
    } else {
      assert Scaled(0, 0) == 0 && IsDouble(0);
      if RoundNat(i) != 0 {
        RoundPreferred(i, 0);
      }
    }
  }

  // Rounding gives the nearest double.
  lemma RoundsToNearest(i: int)
    ensures Nearest(i, RoundInt(i))
  {
    RoundIsDouble(Abs(i));
    hide RoundNat, Preferred;
    var x := RoundInt(i);
    assert Abs(x) == RoundNat(Abs(i));
    assert IsDouble(x) by { SameSize(RoundNat(Abs(i)), x); }
    forall m | IsDouble(m) && m != x ensures Preferred(i, x, m) {
      if i >= 0 {
        RoundPreferredUp(i, m);
      } else {
        SameSize(m, -m);
        RoundPreferredUp(-i, -m);
        Mirrored(i, x, m);
      }
    }
  }

  // And there is only one.
  lemma OneNearest(i: int, x: int, y: int)
    requires Nearest(i, x) && Nearest(i, y)
    ensures x == y
  {
    if x != y {
      var d := Abs(x - y);
      assert Preferred(i, x, y) && Preferred(i, y, x) && Abs(y - x) == d;
      hide IsDouble;
      OddOneOut(x, y, d);
    }
  }

  lemma OddOneOut(x: int, y: int, d: nat)
    requires d > 0 && Abs(x - y) == d && Abs(x) % (2 * d) == 0
    ensures Abs(y) % (2 * d) != 0
  {
    var k := Abs(x) / (2 * d);
    assert Abs(x) == k * (2 * d);
    R.DivOfSum(k, 2 * d, d);
    if k > 0 {
      R.DivOfSum(k - 1, 2 * d, d);
      assert k * (2 * d) == (k - 1) * (2 * d) + 2 * d;
    }
  }

  // ---------------------------------------------------------------- shortest digits

  function TrailingZeros(n: nat): nat {
    if n == 0 || n % 10 != 0 then 0 else 1 + TrailingZeros(n / 10)
  }

  function Abs(i: int): nat { if i < 0 then -i else i }

  // The last digit before the trailing zeros.
  function LastDigit(n: nat): nat {
    if n == 0 || n % 10 != 0 then n % 10 else LastDigit(n / 10)
  }

  // As digits for x, a is shorter than b, or as short and nearer; ties go to the
  // even digit. (The last clause only makes the order total.)
  predicate Better(x: int, a: int, b: int) {
    || TrailingZeros(Abs(a)) > TrailingZeros(Abs(b))
    || (TrailingZeros(Abs(a)) == TrailingZeros(Abs(b))
        && (Abs(a - x) < Abs(b - x) || (Abs(a - x) == Abs(b - x) && Tie(a, b))))
  }

  predicate Tie(a: int, b: int) {
    var e, f := LastDigit(Abs(a)) % 2, LastDigit(Abs(b)) % 2;
    e < f || (e == f && a < b)
  }

  // So the digits are determined.
  lemma OneShortest(x: int, d: int, e: int)
    requires IsShortest(x, d) && IsShortest(x, e)
    ensures d == e
  {
    hide TrailingZeros, LastDigit, RoundInt;
    assert !Better(x, d, e) && !Better(x, e, d);
  }

  // d is read back as x, and no other integer read back as x is better.
  ghost predicate IsShortest(x: int, d: int) {
    RoundInt(d) == x && forall m | RoundInt(m) == x :: !Better(x, m, d)
  }

  // The digits the host picks for each integral double.
  ghost predicate Shortest(digits: int -> int) {
    forall x | RoundInt(x) == x :: IsShortest(x, digits(x))
  }

  // What the far side reads of an integer sent through the host.
  function Through(digits: int -> int, i: int): int {
    var x := RoundInt(i);
    if Abs(x) < E21 then digits(x) else x
  }

  // Integers within 2^53 arrive unchanged.
  lemma SmallSurvives(digits: int -> int, i: int)
    requires Shortest(digits) && Abs(i) <= EXACT
    ensures RoundInt(i) == i && Through(digits, i) == i
  {
    RoundsToSmall(Abs(i));
    var d := digits(i);
    RoundsToSmall(Abs(d));
    hide RoundNat;
    assert RoundInt(i) == i && IsShortest(i, d);
    assert TrailingZeros(EXACT + 1) == 0;
    assert d == i || Abs(d) == EXACT + 1;
    assert !Better(i, i, d);
  }

  // Beyond, the host has the nearest double. Below 10^21 an integer survives exactly
  // when nothing read back as the same double is better; from there on, when it is
  // a double.
  lemma LargeSurvives(digits: int -> int, i: int)
    requires Shortest(digits)
    ensures var x := RoundInt(i);
            && Nearest(i, x)
            && (Abs(x) >= E21 ==> (Through(digits, i) == i <==> IsDouble(i)))
            && (Abs(x) < E21 ==> (Through(digits, i) == i <==> IsShortest(x, i)))
  {
    RoundTwice(Abs(i));
    RoundsToNearest(i);
    DoublesStay(Abs(i));
    hide RoundNat, Nearest, IsDouble, Shortest;
    var x := RoundInt(i);
    assert RoundInt(x) == x;
    assert IsShortest(x, digits(x)) by { ShortestAt(digits, x); }
    assert IsDouble(i) <==> x == i by { DoublesOfSign(i); }
    hide RoundInt, IsShortest;
    if IsShortest(x, i) {
      OneShortest(x, i, digits(x));
    }
  }

  lemma ShortestAt(digits: int -> int, x: int)
    requires Shortest(digits) && RoundInt(x) == x
    ensures IsShortest(x, digits(x))
  {
  }

  lemma DoublesOfSign(i: int)
    ensures IsDouble(i) <==> RoundInt(i) == i
  {
    DoublesStay(Abs(i));
    hide RoundNat;
    SameSize(i, Abs(i));
  }

  // The first integer lost, and a double that does not survive.
  lemma Lost(digits: int -> int)
    requires Shortest(digits)
    ensures Through(digits, EXACT + 1) != EXACT + 1
    ensures RoundInt(0x1000_0000_0000_0000) == 0x1000_0000_0000_0000
    ensures Through(digits, 0x1000_0000_0000_0000) != 0x1000_0000_0000_0000
  {
    RoundsToSmall(EXACT + 1);
    SmallSurvives(digits, EXACT);
    hide RoundInt, RoundNat, TrailingZeros;
    var x, d := 0x1000_0000_0000_0000, 1_152_921_504_606_847_000;
    RoundsAlike();
    assert IsShortest(x, digits(x)) && RoundInt(d) == x;
    assert Abs(x) == x && Abs(d) == d;
  }

  lemma RoundsAlike()
    ensures RoundInt(0x1000_0000_0000_0000) == 0x1000_0000_0000_0000
    ensures RoundInt(1_152_921_504_606_847_000) == 0x1000_0000_0000_0000
    ensures TrailingZeros(1_152_921_504_606_847_000) > TrailingZeros(0x1000_0000_0000_0000)
  {
    assert Ulp(0x1000_0000_0000_0000) == 256 && Ulp(1_152_921_504_606_847_000) == 256;
  }
}
