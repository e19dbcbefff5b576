/** Normalized slash-rooted paths, the two prefix tests the filesystem uses on them, and the SQL LIKE
    pattern that selects a subtree. */
module Paths {

  /** The root, or "/name/name/...": no empty segment and no trailing slash. */
  predicate IsPath(p: string) {
    && |p| > 0 && p[0] == '/'
    && (|p| > 1 ==> p[|p| - 1] != '/')
    && forall i :: 0 <= i < |p| - 1 && p[i] == '/' ==> p[i + 1] != '/'
  }

  predicate IsName(s: string) {
    s != "" && '/' !in s
  }

  /** The path of the entry called name inside the directory dir. */
  function Child(dir: string, name: string): string {
    if dir == "/" then "/" + name else dir + "/" + name
  }

  /** pathHasPrefix: q is p or lies below it. */
  predicate AtOrUnder(q: string, p: string) {
    q == p || (|q| > |p| && q[..|p|] == p && q[|p|] == '/')
  }

  function LastSlash(p: string): (k: nat)
    requires '/' in p
    ensures k < |p| && p[k] == '/' && '/' !in p[k + 1..]
  {
    if p[|p| - 1] == '/' then |p| - 1
    else
      var q := p[..|p| - 1];
      assert p == q + [p[|p| - 1]];
      LastSlash(q)
  }

  /** path.Dir and path.Base on a normalized path. */
  function Dir(p: string): string
    requires IsPath(p)
  {
    var k := LastSlash(p);
    if k == 0 then "/" else p[..k]
  }

  function BaseName(p: string): string
    requires IsPath(p)
  {
    p[LastSlash(p) + 1..]
  }

  lemma {:induction false} DirBase(p: string)
    requires IsPath(p) && p != "/"
    ensures IsPath(Dir(p)) && IsName(BaseName(p)) && p == Child(Dir(p), BaseName(p))
    ensures |Dir(p)| < |p|
  {
    var k := LastSlash(p);
    assert p == p[..k] + "/" + p[k + 1..];
    if k > 0 {
      assert p[k - 1] != '/';
    }
  }

  lemma {:induction false} ChildIsPath(d: string, n: string)
    requires IsPath(d) && IsName(n)
    ensures IsPath(Child(d, n)) && |d| < |Child(d, n)| && Child(d, n) != "/"
    ensures Dir(Child(d, n)) == d && BaseName(Child(d, n)) == n
  {
    hide LastSlash;
    var c := Child(d, n);
    var k := |c| - |n| - 1;
    assert c[k] == '/' && c[k + 1..] == n;
    assert forall i :: k < i < |c| ==> c[i] == n[i - k - 1] && c[i] != '/';
    assert IsPath(c);
    LastSlashUnique(c, k);
    assert k > 0 ==> c[..k] == d;
  }

  lemma {:induction false} LastSlashUnique(c: string, k: nat)
    requires k < |c| && c[k] == '/' && forall i :: k < i < |c| ==> c[i] != '/'
    ensures LastSlash(c) == k
  {
    hide LastSlash;
    var j := LastSlash(c);
    assert forall i :: j < i < |c| ==> c[i] == c[j + 1..][i - j - 1];
  }

  lemma {:induction false} UnderTrans(a: string, b: string, c: string)
    requires AtOrUnder(a, b) && AtOrUnder(b, c)
    ensures AtOrUnder(a, c)
  {
    if a != b && b != c {
      assert a[..|c|] == b[..|c|];
      assert a[|c|] == b[|c|];
    }
  }

  /** An entry is below p exactly when it is p or its directory is at or below p. */
  lemma {:induction false} ChildUnder(d: string, n: string, p: string)
    requires IsPath(d) && IsName(n) && IsPath(p) && p != "/"
    ensures AtOrUnder(Child(d, n), p) <==> Child(d, n) == p || AtOrUnder(d, p)
  {
    var c := Child(d, n);
    var k := |c| - |n| - 1;
    assert c[k + 1..] == n;
    assert forall i :: k < i < |c| ==> c[i] == c[k + 1..][i - k - 1];
    if AtOrUnder(c, p) && c != p {
      assert |p| <= k;
      if |p| == k {
        assert c[..k] == d;
      } else {
        assert d != "/";
        assert c[..|d|] == d;
        assert d[..|p|] == c[..|p|];
      }
    }
    if AtOrUnder(d, p) {
      assert d != "/";
      assert c[..|d|] == d;
      assert AtOrUnder(c, d);
      UnderTrans(c, d, p);
    }
  }

  /** Two paths that both contain q are comparable. */
  lemma {:induction false} UnderComparable(q: string, a: string, b: string)
    requires AtOrUnder(q, a) && AtOrUnder(q, b)
    ensures AtOrUnder(a, b) || AtOrUnder(b, a)
  {
    if |a| <= |b| {
      assert b[..|a|] == q[..|a|] == a;
    } else {
      assert a[..|b|] == q[..|b|] == b;
    }
  }

  /** The path q takes when the subtree at s is moved to d. */
  function Rebase(q: string, s: string, d: string): string
    requires AtOrUnder(q, s)
  {
    d + q[|s|..]
  }

  lemma {:induction false} RebaseOk(q: string, s: string, d: string)
    requires IsPath(q) && IsPath(s) && IsPath(d) && s != "/" && d != "/" && AtOrUnder(q, s)
    ensures IsPath(Rebase(q, s, d)) && Rebase(q, s, d) != "/" && AtOrUnder(Rebase(q, s, d), d)
    ensures Rebase(Rebase(q, s, d), d, s) == q
  {
    var r := Rebase(q, s, d);
    assert r[..|d|] == d && r[|d|..] == q[|s|..];
    assert q == s + q[|s|..];
    forall i | 0 <= i < |r| - 1 && r[i] == '/' ensures r[i + 1] != '/' {
      if i >= |d| {
        assert r[i] == q[i - |d| + |s|] && r[i + 1] == q[i + 1 - |d| + |s|];
      }
    }
    if |q| > |s| {
      assert r[|r| - 1] == q[|q| - 1];
    }
  }

  lemma {:induction false} RebaseChild(dir: string, n: string, s: string, d: string)
    requires IsPath(dir) && IsName(n) && IsPath(s) && IsPath(d) && s != "/" && d != "/" && AtOrUnder(dir, s)
    ensures AtOrUnder(Child(dir, n), s)
    ensures Rebase(Child(dir, n), s, d) == Child(Rebase(dir, s, d), n)
  {
    ChildUnder(dir, n, s);
    RebaseOk(dir, s, d);
    assert dir != "/";
    assert Child(dir, n)[|s|..] == dir[|s|..] + "/" + n;
  }

  lemma {:induction false} RebaseInjective(q1: string, q2: string, s: string, d: string)
    requires AtOrUnder(q1, s) && AtOrUnder(q2, s) && Rebase(q1, s, d) == Rebase(q2, s, d)
    ensures q1 == q2
  {
    assert q1[|s|..] == Rebase(q1, s, d)[|d|..] == Rebase(q2, s, d)[|d|..] == q2[|s|..];
    assert q1 == s + q1[|s|..] && q2 == s + q2[|s|..];
  }

  // ---- the prefix test of MOVE and the LIKE pattern of the subtree query ------------------------

  predicate HasPrefix(s: string, prefix: string) {
    |prefix| <= |s| && s[..|prefix|] == prefix
  }

  /** MOVE's self-move test and COPY's pathHasPrefix are the same relation. */
  lemma {:induction false} SelfMoveTest(q: string, p: string)
    ensures HasPrefix(q + "/", p + "/") <==> AtOrUnder(q, p)
  {
    var q' := q + "/";
    if HasPrefix(q', p + "/") {
      assert q'[|p|] == (p + "/")[|p|] == '/';
      assert q'[..|p|] == (p + "/")[..|p|] == p;
      if |q| == |p| {
        assert q == q'[..|p|];
      } else {
        assert q[..|p|] == q'[..|p|];
      }
    }
    if AtOrUnder(q, p) && q != p {
      assert q'[..|p| + 1] == q[..|p|] + "/";
    }
  }

  function EscapeChar(c: char): string {
    if c == '\\' || c == '%' || c == '_' then ['\\', c] else [c]
  }

  /** escapeLike: a backslash in front of each of the three LIKE metacharacters. */
  function EscapeLike(s: string): string {
    if s == "" then ""
    else EscapeChar(s[0]) + EscapeLike(s[1..])
  }

  /** SQL's x LIKE pattern ESCAPE '\'. */
  predicate Like(x: string, pattern: string)
    decreases |pattern|
  {
    if pattern == "" then x == ""
    else if pattern[0] == '%' then exists k :: 0 <= k <= |x| && Like(x[k..], pattern[1..])
    else if pattern[0] == '_' then x != "" && Like(x[1..], pattern[1..])
    else if pattern[0] == '\\' then
      |pattern| >= 2 && x != "" && x[0] == pattern[1] && Like(x[1..], pattern[2..])
    else x != "" && x[0] == pattern[0] && Like(x[1..], pattern[1..])
  }

  /** The wildcards: % matches everything, _ any one character. */
  lemma {:induction false} LikeWildcards(x: string)
    ensures Like(x, "%") && (Like(x, "_") <==> |x| == 1)
  {
    LikeAnything(x);
    assert "_"[1..] == "";
  }

  /** A character that is no metacharacter matches itself, and after a backslash every character does. */
  lemma {:induction false} LikeCharacter(x: string, c: char)
    ensures Like(x, ['\\', c]) <==> x == [c]
    ensures c != '%' && c != '_' && c != '\\' ==> (Like(x, [c]) <==> x == [c])
  {
    assert ['\\', c][2..] == "" && [c][1..] == "";
    assert x != "" ==> x == [x[0]] + x[1..];
  }

  lemma {:induction false} LikeAnything(x: string)
    ensures Like(x, "%")
  {
    assert x[|x|..] == "" && "%"[1..] == "";
    assert Like(x[|x|..], "%"[1..]);
  }

  lemma {:induction false} LikeHead(x: string, c: char, rest: string)
    ensures Like(x, EscapeChar(c) + rest) <==> x != "" && x[0] == c && Like(x[1..], rest)
  {
    var pattern := EscapeChar(c) + rest;
    if c == '\\' || c == '%' || c == '_' {
      assert pattern[2..] == rest;
    } else {
      assert pattern[1..] == rest;
    }
  }

  /** An escaped literal in front of a pattern matches that literal and nothing else. */
  lemma {:induction false} LikeLiteral(x: string, s: string, rest: string)
    ensures Like(x, EscapeLike(s) + rest) <==> HasPrefix(x, s) && Like(x[|s|..], rest)
  {
    hide Like;
    if s == "" {
      assert EscapeLike(s) + rest == rest;
      assert x[0..] == x;
    } else {
      var tail := EscapeLike(s[1..]) + rest;
      assert EscapeLike(s) + rest == EscapeChar(s[0]) + tail;
      LikeHead(x, s[0], tail);
      if x != "" {
        LikeLiteral(x[1..], s[1..], rest);
        HasPrefixHead(x, s);
      }
    }
  }

  lemma {:induction false} HasPrefixHead(x: string, s: string)
    requires x != "" && s != ""
    ensures HasPrefix(x, s) <==> x[0] == s[0] && HasPrefix(x[1..], s[1..])
    ensures HasPrefix(x, s) ==> x[1..][|s| - 1..] == x[|s|..]
  {
    assert s == [s[0]] + s[1..];
    if |s| <= |x| {
      assert x[..|s|] == [x[0]] + x[1..][..|s| - 1];
    }
  }

  /** The rows ListSubtree selects are exactly the prefix and what lies below it, whatever
      metacharacters the prefix contains. */
  lemma {:induction false} SubtreePattern(x: string, s: string)
    ensures Like(x, EscapeLike(s) + "/%") <==> HasPrefix(x, s + "/")
    ensures Like(x, EscapeLike(s) + "/%") <==> s + "/" <= x
    ensures x == s || Like(x, EscapeLike(s) + "/%") <==> AtOrUnder(x, s)
  {
    LikeLiteral(x, s, "/%");
    var t := s + "/";
    if HasPrefix(x, s) {
      var y := x[|s|..];
      assert "/%"[1..] == "%";
      if y != "" {
        LikeAnything(y[1..]);
      }
      assert Like(y, "/%") <==> y != "" && y[0] == '/';
      if y != "" && y[0] == '/' {
        assert x[..|t|] == x[..|s|] + [y[0]];
      }
    }
    if HasPrefix(x, t) {
      assert x[..|s|] == t[..|s|] == s && x[|s|] == t[|s|] == '/';
    }
  }
}
