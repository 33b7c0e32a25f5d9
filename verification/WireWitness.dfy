/** The library functions the wire depends on can be as assumed. */
module WireWitness {
  import opened Framing
  import opened Wrappers
  import opened Wire
  import N = Numbers
  import R = RowMajor

  // ---------------------------------------------------------------- shortest digits

  lemma BetterOrders(x: int, a: int, b: int, c: int)
    ensures !N.Better(x, a, a)
    ensures N.Better(x, a, b) && N.Better(x, b, c) ==> N.Better(x, a, c)
  {
    hide N.TrailingZeros, N.LastDigit;
  }

  predicate Candidate(x: int, lo: int, n: nat, m: int) {
    N.RoundInt(m) == x && (m == x || lo <= m < lo + n)
  }

  // Of x and the n integers from lo on that are read as x, one is best.
  lemma {:induction false} BestExists(x: int, lo: int, n: nat) returns (d: int)
    requires N.RoundInt(x) == x
    ensures Candidate(x, lo, n, d) && forall m | Candidate(x, lo, n, m) :: !N.Better(x, m, d)
    decreases n
  {
    hide N.Better, N.RoundInt;
    if n == 0 {
      d := x;
      BetterOrders(x, x, x, x);
    } else {
      var e := BestExists(x, lo, n - 1);
      var k := lo + n - 1;
      d := if N.RoundInt(k) == x && N.Better(x, k, e) then k else e;
      forall m | Candidate(x, lo, n, m) ensures !N.Better(x, m, d) {
        BetterOrders(x, m, k, e);
      }
    }
  }

  // Rounding at most halves a number.
  lemma RoundLower(n: nat)
    ensures n <= 2 * N.RoundNat(n)
  {
    if n < N.EXACT {
      N.RoundsToSmall(n);
    } else {
      N.UlpFits(n);
      var p := N.Ulp(n);
      HalfAtLeast(n, p);
    }
  }

  // A multiple of p next to n.
  lemma HalfAtLeast(n: nat, p: nat)
    requires p >= 1 && n / p >= 1
    ensures n <= 2 * (n / p * p)
    ensures (n / p + 1) * p >= n / p * p
  {
    var q, r := n / p, n % p;
    assert n == q * p + r;
    R.MulMono(1, q, p);
    R.MulMono(q, q + 1, p);
  }

  lemma ShortestExists(x: int) returns (d: int)
    requires N.RoundInt(x) == x
    ensures N.IsShortest(x, d)
  {
    var b := 2 * N.Abs(x);
    d := BestExists(x, -b, 2 * b + 1);
    forall m | N.RoundInt(m) == x ensures !N.Better(x, m, d) {
      RoundLower(N.Abs(m));
      assert Candidate(x, -b, 2 * b + 1, m);
    }
  }

  ghost function Digits(x: int): int {
    if exists d :: N.IsShortest(x, d) then (var d :| N.IsShortest(x, d); d) else x
  }

  // ---------------------------------------------------------------- base64

  function Encode(b: bytes): (s: string)
    ensures |s| == |b|
  {
    seq(|b|, i requires 0 <= i < |b| => b[i] as int as char)
  }

  function Decode(s: string): Option<bytes> {
    if forall i | 0 <= i < |s| :: s[i] as int < 256
    then Some(seq(|s|, i requires 0 <= i < |s| && s[i] as int < 256 => s[i] as int as byte))
    else None
  }

  lemma DecodeEncode(b: bytes)
    ensures Decode(Encode(b)) == Some(b)
  {
    assert Decode(Encode(b)).value == b;
  }

  // ---------------------------------------------------------------- the library

  ghost function SomeLib(): Lib {
    Lib(Encode, Decode, Digits, dtype => if dtype == "uint8" then Some(1) else None, name => true)
  }

  lemma Sound()
    ensures SomeLib().Sound()
  {
    forall b ensures SomeLib().decode64(SomeLib().encode64(b)) == Some(b) {
      DecodeEncode(b);
    }
    forall x | N.RoundInt(x) == x ensures N.IsShortest(x, Digits(x)) {
      var d := ShortestExists(x);
    }
  }
}
