/** The filter's wildcard matcher against the declarative meaning of globs. */
module Glob {
  // strings.SplitN(pattern, "*", 2) on a pattern with a star.
  function FirstStar(p: string): (i: nat)
    requires '*' in p
    ensures i < |p| && p[i] == '*' && '*' !in p[..i]
  {
    if p[0] == '*' then 0
    else
      assert p == [p[0]] + p[1..];
      var i := 1 + FirstStar(p[1..]);
      assert p[..i] == [p[0]] + p[1..][..i - 1];
      i
  }

  predicate HasSuffix(s: string, t: string) {
    |t| <= |s| && s[|s| - |t|..] == t
  }

  // matchWildcard
  predicate MatchWildcard(pattern: string, name: string)
    decreases |pattern|
  {
    if '*' !in pattern then pattern == name
    else
      var i := FirstStar(pattern);
      var prefix, suffix := pattern[..i], pattern[i + 1..];
      if !(prefix <= name) then false
      else
        var rest := name[|prefix|..];
        suffix == "" || MatchWildcard(suffix, rest) || (HasSuffix(rest, suffix) && '*' !in suffix)
  }

  // A star stands for any text, every other character for itself.
  ghost predicate Matches(p: string, n: string)
    decreases |p|
  {
    if p == "" then n == ""
    else if p[0] == '*' then exists k | 0 <= k <= |n| :: Matches(p[1..], n[k..])
    else n != "" && n[0] == p[0] && Matches(p[1..], n[1..])
  }

  // The pattern with every star but the last deleted.
  function KeepLastStar(p: string): string {
    if p == "" then ""
    else if p[0] == '*' && '*' in p[1..] then KeepLastStar(p[1..])
    else [p[0]] + KeepLastStar(p[1..])
  }

  // ---------------------------------------------------------------- literal parts

  lemma {:induction false} LiteralMatches(p: string, n: string)
    requires '*' !in p
    ensures Matches(p, n) <==> p == n
    decreases |p|
  {
    if p != "" {
      assert p == [p[0]] + p[1..];
      if n != "" {
        assert n == [n[0]] + n[1..];
        LiteralMatches(p[1..], n[1..]);
      }
    }
  }

  lemma {:induction false} LiteralPrefix(a: string, p: string, n: string)
    requires '*' !in a
    ensures Matches(a + p, n) <==> a <= n && Matches(p, n[|a|..])
    decreases |a|
  {
    if a == "" {
      assert a + p == p && n[0..] == n;
    } else {
      assert a == [a[0]] + a[1..] && (a + p)[1..] == a[1..] + p;
      if n != "" {
        assert n == [n[0]] + n[1..];
        LiteralPrefix(a[1..], p, n[1..]);
        if a[1..] <= n[1..] {
          assert n[1..][|a| - 1..] == n[|a|..];
        }
      }
    }
  }

  lemma StarThenLiteral(t: string, n: string)
    requires '*' !in t
    ensures Matches("*" + t, n) <==> HasSuffix(n, t)
  {
    assert ("*" + t)[1..] == t;
    forall k | 0 <= k <= |n| ensures Matches(t, n[k..]) <==> t == n[k..] {
      LiteralMatches(t, n[k..]);
    }
    if HasSuffix(n, t) {
      assert Matches(t, n[|n| - |t|..]);
    }
  }

  lemma {:induction false} KeepLiteral(a: string, p: string)
    requires '*' !in a
    ensures KeepLastStar(a + p) == a + KeepLastStar(p)
  {
    if a == "" {
      assert a + p == p;
    } else {
      assert a == [a[0]] + a[1..] && (a + p)[1..] == a[1..] + p;
      KeepLiteral(a[1..], p);
    }
  }

  lemma {:induction false} KeepNoStar(p: string)
    requires '*' !in p
    ensures KeepLastStar(p) == p
  {
    if p != "" {
      assert p == [p[0]] + p[1..];
      KeepNoStar(p[1..]);
    }
  }

  // ---------------------------------------------------------------- what it matches

  // The matcher decides exactly the glob with every star but the last deleted.
  lemma {:induction false} MatchIsLastStarGlob(p: string, n: string)
    ensures MatchWildcard(p, n) <==> Matches(KeepLastStar(p), n)
    decreases |p|
  {
    if '*' !in p {
      KeepNoStar(p);
      LiteralMatches(p, n);
    } else {
      var a, t := p[..FirstStar(p)], p[FirstStar(p) + 1..];
      KeepFirstStar(p, a, t);
      hide Matches, KeepLastStar;
      if '*' in t {
        LiteralPrefix(a, KeepLastStar(t), n);
        if a <= n {
          MatchIsLastStarGlob(t, n[|a|..]);
        }
      } else {
        KeepNoStar(t);
        LastStar(p, a, t, n);
      }
    }
  }

  lemma KeepFirstStar(p: string, a: string, t: string)
    requires '*' in p && a == p[..FirstStar(p)] && t == p[FirstStar(p) + 1..]
    ensures KeepLastStar(p) == a + (if '*' in t then KeepLastStar(t) else "*" + KeepLastStar(t))
  {
    assert p == a + ("*" + t) && ("*" + t)[1..] == t;
    KeepLiteral(a, "*" + t);
  }

  lemma LastStar(p: string, a: string, t: string, n: string)
    requires '*' in p && a == p[..FirstStar(p)] && t == p[FirstStar(p) + 1..] && '*' !in t
    ensures MatchWildcard(p, n) <==> Matches(a + ("*" + t), n)
  {
    LiteralPrefix(a, "*" + t, n);
    if a <= n {
      StarThenLiteral(t, n[|a|..]);
    }
  }

  // ---------------------------------------------------------------- soundness

  lemma {:induction false} KeepIsStronger(p: string, n: string)
    requires Matches(KeepLastStar(p), n)
    ensures Matches(p, n)
    decreases |p|
  {
    if p != "" {
      var q := KeepLastStar(p);
      if p[0] == '*' && '*' in p[1..] {
        KeepIsStronger(p[1..], n);
        assert n[0..] == n;
      } else {
        assert q[1..] == KeepLastStar(p[1..]);
        if p[0] == '*' {
          var k :| 0 <= k <= |n| && Matches(q[1..], n[k..]);
          KeepIsStronger(p[1..], n[k..]);
        } else {
          KeepIsStronger(p[1..], n[1..]);
        }
      }
    }
  }

  // Whatever the matcher accepts, the glob accepts: for every pattern.
  lemma Sound(p: string, n: string)
    requires MatchWildcard(p, n)
    ensures Matches(p, n)
  {
    MatchIsLastStarGlob(p, n);
    KeepIsStronger(p, n);
  }

  // ---------------------------------------------------------------- completeness

  // No other character between two stars.
  ghost predicate StarsAdjacent(p: string) {
    forall i, j, k | 0 <= i < j < k < |p| && p[i] == '*' && p[k] == '*' :: p[j] == '*'
  }

  lemma StarAbsorbs(p: string, n: string, k: nat)
    requires p != "" && p[0] == '*' && k <= |n| && Matches(p, n[k..])
    ensures Matches(p, n)
  {
    var l :| 0 <= l <= |n[k..]| && Matches(p[1..], n[k..][l..]);
    assert n[k..][l..] == n[k + l..];
  }

  lemma {:induction false} AdjacentComplete(p: string, n: string)
    requires StarsAdjacent(p) && Matches(p, n)
    ensures Matches(KeepLastStar(p), n)
    decreases |p|
  {
    if p != "" {
      assert StarsAdjacent(p[1..]);
      var q := KeepLastStar(p);
      if p[0] == '*' && '*' in p[1..] {
        var m :| 0 <= m < |p[1..]| && p[1..][m] == '*';
        assert p[1] == '*' by {
          if m > 0 {
            assert p[0] == '*' && p[m + 1] == '*';
          }
        }
        var k :| 0 <= k <= |n| && Matches(p[1..], n[k..]);
        StarAbsorbs(p[1..], n, k);
        AdjacentComplete(p[1..], n);
      } else {
        assert q[1..] == KeepLastStar(p[1..]);
        if p[0] == '*' {
          var k :| 0 <= k <= |n| && Matches(p[1..], n[k..]);
          AdjacentComplete(p[1..], n[k..]);
        } else {
          AdjacentComplete(p[1..], n[1..]);
        }
      }
    }
  }

  function Stripped(p: string): string {
    if p == "" then "" else (if p[0] == '*' then "" else [p[0]]) + Stripped(p[1..])
  }

  lemma {:induction false} MatchesStripped(p: string)
    ensures Matches(p, Stripped(p))
  {
    if p != "" {
      MatchesStripped(p[1..]);
      if p[0] == '*' {
        assert Stripped(p)[0..] == Stripped(p[1..]);
      } else {
        assert Stripped(p)[1..] == Stripped(p[1..]);
      }
    }
  }

  // A name the glob accepts and the matcher does not: the first star that has a
  // literal between it and a later star stands for one character the literal
  // does not begin with.
  lemma {:induction false} MissedName(p: string) returns (n: string)
    requires !StarsAdjacent(p)
    ensures Matches(p, n) && !Matches(KeepLastStar(p), n)
    decreases |p|
  {
    var i, j, k :| 0 <= i < j < k < |p| && p[i] == '*' && p[k] == '*' && p[j] != '*';
    if p[0] != '*' {
      assert p[1..][i - 1] == '*' && p[1..][j - 1] != '*' && p[1..][k - 1] == '*';
      var m := MissedName(p[1..]);
      n := [p[0]] + m;
      assert n[1..] == m && KeepLastStar(p)[1..] == KeepLastStar(p[1..]);
    } else {
      assert p[1..][k - 1] == '*';
      if p[1] == '*' {
        assert p[1..][0] == '*' && p[1..][j - 1] != '*' && p[1..][k - 1] == '*';
        n := MissedName(p[1..]);
        assert n[0..] == n;
      } else {
        var x := if p[1] == 'x' then 'y' else 'x';
        n := [x] + Stripped(p[1..]);
        MatchesStripped(p[1..]);
        assert n[1..] == Stripped(p[1..]);
        assert Matches(p[1..], n[1..]);
        assert KeepLastStar(p) == KeepLastStar(p[1..]);
        assert KeepLastStar(p[1..]) == [p[1]] + KeepLastStar(p[1..][1..]);
      }
    }
  }

  // The matcher decides the glob for every name if and only if the pattern's
  // stars are adjacent: no star, one star, or a single run of stars.
  lemma CompleteIffAdjacent(p: string)
    ensures (forall n :: MatchWildcard(p, n) <==> Matches(p, n)) <==> StarsAdjacent(p)
  {
    if StarsAdjacent(p) {
      forall n ensures MatchWildcard(p, n) <==> Matches(p, n) {
        MatchIsLastStarGlob(p, n);
        if Matches(p, n) {
          AdjacentComplete(p, n);
        } else if MatchWildcard(p, n) {
          Sound(p, n);
        }
      }
    } else {
      var n := MissedName(p);
      MatchIsLastStarGlob(p, n);
      assert !(MatchWildcard(p, n) <==> Matches(p, n));
    }
  }
}
