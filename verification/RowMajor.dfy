/** Row-major addressing of index tuples, for any rank. */
module RowMajor {
  type Shape = seq<nat>

  function Prod(shape: Shape): nat {
    if shape == [] then 1 else shape[0] * Prod(shape[1..])
  }

  predicate InBounds(shape: Shape, idx: seq<nat>) {
    |idx| == |shape| && forall k | 0 <= k < |shape| :: idx[k] < shape[k]
  }

  function Offset(shape: Shape, idx: seq<nat>): nat
    requires |idx| == |shape|
  {
    if shape == [] then 0 else idx[0] * Prod(shape[1..]) + Offset(shape[1..], idx[1..])
  }

  // The tuple at a flat position.
  function Unravel(shape: Shape, n: nat): (idx: seq<nat>)
    requires n < Prod(shape)
    ensures |idx| == |shape|
  {
    if shape == [] then []
    else
      var tail := Prod(shape[1..]);
      DivBound(n, shape[0], tail);
      [n / tail] + Unravel(shape[1..], n % tail)
  }

  lemma MulMono(a: nat, b: nat, c: nat)
    requires a <= b
    ensures a * c <= b * c
  {
    assert (b - a) * c >= 0;
  }

  lemma MulLess(a: nat, b: nat, c: nat)
    requires a < b
    ensures a * c + c <= b * c
  {
    MulMono(a + 1, b, c);
  }

  lemma DivBound(n: nat, a: nat, b: nat)
    requires n < a * b
    ensures b > 0 && n / b < a && n % b < b && n == n / b * b + n % b
  {
    if n / b >= a {
      MulMono(a, n / b, b);
    }
  }

  lemma DivOfSum(q: nat, b: nat, r: nat)
    requires r < b
    ensures (q * b + r) / b == q && (q * b + r) % b == r
  {
    var n := q * b + r;
    if n / b < q {
      MulLess(n / b, q, b);
    } else if n / b > q {
      MulLess(q, n / b, b);
    }
    assert n / b == q;
  }

  lemma {:induction false} OffsetInside(shape: Shape, idx: seq<nat>)
    requires InBounds(shape, idx)
    ensures Offset(shape, idx) < Prod(shape)
  {
    if shape != [] {
      OffsetInside(shape[1..], idx[1..]);
      MulLess(idx[0], shape[0], Prod(shape[1..]));
    }
  }

  // Offset and Unravel are inverse: Offset is a bijection from the tuples in
  // bounds to 0..Prod(shape).
  lemma {:induction false} UnravelOffset(shape: Shape, idx: seq<nat>)
    requires InBounds(shape, idx)
    ensures Offset(shape, idx) < Prod(shape) && Unravel(shape, Offset(shape, idx)) == idx
  {
    OffsetInside(shape, idx);
    if shape != [] {
      UnravelOffset(shape[1..], idx[1..]);
      DivOfSum(idx[0], Prod(shape[1..]), Offset(shape[1..], idx[1..]));
    }
  }

  lemma {:induction false} OffsetUnravel(shape: Shape, n: nat)
    requires n < Prod(shape)
    ensures InBounds(shape, Unravel(shape, n)) && Offset(shape, Unravel(shape, n)) == n
  {
    if shape != [] {
      var tail := Prod(shape[1..]);
      DivBound(n, shape[0], tail);
      OffsetUnravel(shape[1..], n % tail);
    }
  }

  lemma {:induction false} ProdSplit(a: Shape, b: Shape)
    ensures Prod(a + b) == Prod(a) * Prod(b)
  {
    if a == [] {
      assert a + b == b;
    } else {
      ProdSplit(a[1..], b);
      assert (a + b)[1..] == a[1..] + b;
      MulAssoc(a[0], Prod(a[1..]), Prod(b));
    }
  }

  lemma MulAssoc(a: nat, b: nat, c: nat)
    ensures a * (b * c) == a * b * c
  {
  }

  // The address of a tuple is that of its head, scaled, plus that of its tail.
  lemma {:induction false} OffsetSplit(a: Shape, b: Shape, i: seq<nat>, j: seq<nat>)
    requires |i| == |a| && |j| == |b|
    ensures Offset(a + b, i + j) == Offset(a, i) * Prod(b) + Offset(b, j)
  {
    if a == [] {
      assert a + b == b && i + j == j;
    } else {
      OffsetSplit(a[1..], b, i[1..], j);
      assert (a + b)[1..] == a[1..] + b && (i + j)[1..] == i[1..] + j;
      ProdSplit(a[1..], b);
      ScaledSum(i[0], Prod(a[1..]), Offset(a[1..], i[1..]), Prod(b));
    }
  }

  lemma ScaledSum(i: nat, p: nat, o: nat, q: nat)
    ensures (i * p + o) * q == i * (p * q) + o * q
  {
    MulAssoc(i, p, q);
  }
}
