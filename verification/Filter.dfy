/** Filter profiles: the compiled rule table and the decision for a function
    name, against the documented evaluation order on the raw lists. */
module Filter {
  import opened Glob

  // The parsed profile.
  datatype Config = Config(default: string, allow: seq<string>, deny: seq<string>)

  datatype Rules = Rules(
    exact: map<string, bool>,
    allowPatterns: seq<string>,
    denyPatterns: seq<string>,
    defaultAllow: bool
  )

  function Lower(s: string): string {
    seq(|s|, i requires 0 <= i < |s| => if 'A' <= s[i] <= 'Z' then s[i] - 'A' + 'a' else s[i])
  }

  predicate Wild(p: string) { '*' in p }

  // ---------------------------------------------------------------- documented order

  predicate Exact(list: seq<string>, fn: string) {
    !Wild(fn) && fn in list
  }

  predicate ByPattern(list: seq<string>, fn: string) {
    exists p <- list :: Wild(p) && MatchWildcard(p, fn)
  }

  // Exact deny, exact allow, wildcard deny, wildcard allow, default.
  predicate Documented(cfg: Config, fn: string) {
    if Exact(cfg.deny, fn) then false
    else if Exact(cfg.allow, fn) then true
    else if ByPattern(cfg.deny, fn) then false
    else if ByPattern(cfg.allow, fn) then true
    else Lower(cfg.default) == "allow"
  }

  // ---------------------------------------------------------------- LoadFilter

  // The rule table holds the configuration: plain names with deny overriding
  // allow, and the patterns of each list in order.
  ghost predicate Compiled(cfg: Config, f: Rules) {
    && (forall x :: x in f.exact <==> Exact(cfg.allow, x) || Exact(cfg.deny, x))
    && (forall x <- f.exact :: f.exact[x] <==> !Exact(cfg.deny, x))
    && f.allowPatterns == Patterns(cfg.allow)
    && f.denyPatterns == Patterns(cfg.deny)
    && (f.defaultAllow <==> Lower(cfg.default) == "allow")
  }

  function Patterns(list: seq<string>): seq<string> {
    if list == [] then []
    else Patterns(list[..|list| - 1]) + (if Wild(list[|list| - 1]) then [list[|list| - 1]] else [])
  }

  lemma {:induction false} PatternsAre(list: seq<string>, p: string)
    ensures p in Patterns(list) <==> p in list && Wild(p)
  {
    if list != [] {
      var init := list[..|list| - 1];
      PatternsAre(init, p);
      assert list == init + [list[|list| - 1]];
    }
  }

  method LoadFilter(cfg: Config) returns (f: Rules)
    ensures Compiled(cfg, f)
  {
    var exact: map<string, bool> := map[];
    var allowPatterns, denyPatterns := [], [];
    for i := 0 to |cfg.allow|
      invariant allowPatterns == Patterns(cfg.allow[..i])
      invariant forall x :: x in exact <==> Exact(cfg.allow[..i], x)
      invariant forall x <- exact :: exact[x]
    {
      var pat := cfg.allow[i];
      assert cfg.allow[..i + 1] == cfg.allow[..i] + [pat];
      if Wild(pat) {
        allowPatterns := allowPatterns + [pat];
      } else {
        exact := exact[pat := true];
      }
    }
    assert cfg.allow[..|cfg.allow|] == cfg.allow;
    for i := 0 to |cfg.deny|
      invariant denyPatterns == Patterns(cfg.deny[..i])
      invariant forall x :: x in exact <==> Exact(cfg.allow, x) || Exact(cfg.deny[..i], x)
      invariant forall x <- exact :: exact[x] <==> !Exact(cfg.deny[..i], x)
    {
      var pat := cfg.deny[i];
      assert cfg.deny[..i + 1] == cfg.deny[..i] + [pat];
      if Wild(pat) {
        denyPatterns := denyPatterns + [pat];
      } else {
        exact := exact[pat := false];
      }
    }
    assert cfg.deny[..|cfg.deny|] == cfg.deny;
    f := Rules(exact, allowPatterns, denyPatterns, Lower(cfg.default) == "allow");
  }

  // ---------------------------------------------------------------- Allow

  // Filter.Allow, on a table compiled from cfg, decides as documented.
  method Allow(f: Rules, fn: string, ghost cfg: Config) returns (r: bool)
    requires Compiled(cfg, f)
    ensures r == Documented(cfg, fn)
  {
    if fn in f.exact && !f.exact[fn] {
      return false;
    }
    if fn in f.exact && f.exact[fn] {
      return true;
    }
    for i := 0 to |f.denyPatterns|
      invariant forall k | 0 <= k < i :: !MatchWildcard(f.denyPatterns[k], fn)
    {
      if MatchWildcard(f.denyPatterns[i], fn) {
        PatternsAre(cfg.deny, f.denyPatterns[i]);
        return false;
      }
    }
    NoPattern(cfg.deny, fn);
    for i := 0 to |f.allowPatterns|
      invariant forall k | 0 <= k < i :: !MatchWildcard(f.allowPatterns[k], fn)
    {
      if MatchWildcard(f.allowPatterns[i], fn) {
        PatternsAre(cfg.allow, f.allowPatterns[i]);
        return true;
      }
    }
    NoPattern(cfg.allow, fn);
    return f.defaultAllow;
  }

  lemma NoPattern(list: seq<string>, fn: string)
    requires forall k | 0 <= k < |Patterns(list)| :: !MatchWildcard(Patterns(list)[k], fn)
    ensures !ByPattern(list, fn)
  {
    forall p | p in list && Wild(p) ensures !MatchWildcard(p, fn) {
      PatternsAre(list, p);
    }
  }

  // ---------------------------------------------------------------- properties

  // Only the sets of entries matter: permuting or repeating entries changes nothing.
  lemma OrderAndRepetition(c: Config, d: Config, fn: string)
    requires (forall p :: p in c.allow <==> p in d.allow) && (forall p :: p in c.deny <==> p in d.deny)
    requires c.default == d.default
    ensures Documented(c, fn) == Documented(d, fn)
  {
    assert ByPattern(c.allow, fn) == ByPattern(d.allow, fn);
    assert ByPattern(c.deny, fn) == ByPattern(d.deny, fn);
  }

  lemma PatternsGrow(a: seq<string>, b: seq<string>, fn: string)
    requires (forall p <- a :: p in b) && ByPattern(a, fn)
    ensures ByPattern(b, fn)
  {
    var p :| p in a && Wild(p) && MatchWildcard(p, fn);
    assert p in b;
  }

  // Adding deny entries never turns a denial into a permission, and adding allow
  // entries never turns a permission into a denial.
  lemma Monotone(c: Config, d: Config, fn: string)
    requires c.default == d.default
    ensures d.allow == c.allow && (forall p <- c.deny :: p in d.deny) && Documented(d, fn) ==> Documented(c, fn)
    ensures d.deny == c.deny && (forall p <- c.allow :: p in d.allow) && Documented(c, fn) ==> Documented(d, fn)
  {
    if (forall p <- c.deny :: p in d.deny) && ByPattern(c.deny, fn) {
      PatternsGrow(c.deny, d.deny, fn);
    }
    if (forall p <- c.allow :: p in d.allow) && ByPattern(c.allow, fn) {
      PatternsGrow(c.allow, d.allow, fn);
    }
  }

  // "allow" in any mixture of upper and lower case.
  predicate SpellsAllow(s: string) {
    |s| == 5 && forall i | 0 <= i < 5 :: s[i] == "allow"[i] || s[i] == "ALLOW"[i]
  }

  ghost predicate SomeGlob(list: seq<string>, fn: string) {
    exists p <- list :: '*' in p && Matches(KeepLastStar(p), fn)
  }

  lemma PatternsAreGlobs(list: seq<string>, fn: string)
    ensures ByPattern(list, fn) <==> SomeGlob(list, fn)
  {
    forall p ensures MatchWildcard(p, fn) <==> Matches(KeepLastStar(p), fn) {
      MatchIsLastStarGlob(p, fn);
    }
  }

  lemma LowerSpells(s: string)
    ensures Lower(s) == "allow" <==> SpellsAllow(s)
  {
    var t := "allow";
    if Lower(s) == t {
      assert forall i | 0 <= i < 5 :: Lower(s)[i] == t[i];
    }
    if SpellsAllow(s) {
      assert forall i | 0 <= i < 5 :: Lower(s)[i] == t[i];
    }
  }

  // Who has the last word, in terms of the lists alone: an entry that is the name
  // itself, deny before allow; then a glob, deny before allow; then the default.
  lemma Precedence(cfg: Config, fn: string)
    ensures Documented(cfg, fn) <==>
            if '*' !in fn && fn in cfg.deny then false
            else if '*' !in fn && fn in cfg.allow then true
            else if SomeGlob(cfg.deny, fn) then false
            else if SomeGlob(cfg.allow, fn) then true
            else SpellsAllow(cfg.default)
  {
    hide Matches, KeepLastStar, MatchWildcard;
    PatternsAreGlobs(cfg.deny, fn);
    PatternsAreGlobs(cfg.allow, fn);
    LowerSpells(cfg.default);
  }
}
