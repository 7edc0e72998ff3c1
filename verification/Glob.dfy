/** SafeFNMatch_: the matcher of --vmodule patterns, and the glob relation it stands for. */
module Glob {
  /** The matcher as it decides: a literal or '?' first, then '*', greedily from the left. */
  function FNMatch(p: string, s: string): bool
    decreases |p|, |s|, 0
  {
    if p == "" then s == "" else
    if s == "" then p == "*" else
    if p[0] == s[0] || p[0] == '?' then FNMatch(p[1..], s[1..]) else
    p[0] == '*' && (|p| == 1 || MatchesLater(p[1..], s))
  }

  /** "p" matches some non-empty suffix of "s". */
  function MatchesLater(p: string, s: string): bool
    requires s != ""
    decreases |p|, |s|, 1
  {
    FNMatch(p, s) || (|s| > 1 && MatchesLater(p, s[1..]))
  }

  method SafeFNMatch(pattern: string, str: string) returns (b: bool)
    ensures b == FNMatch(pattern, str)
    decreases |pattern|
  {
    var p, s := 0, 0;
    while true
      invariant p <= |pattern| && s <= |str|
      invariant FNMatch(pattern, str) == FNMatch(pattern[p..], str[s..])
      decreases |pattern| - p
    {
      if p == |pattern| && s == |str| { return true; }
      if p == |pattern| { return false; }
      if s == |str| { return p + 1 == |pattern| && pattern[p] == '*'; }
      if pattern[p] == str[s] || pattern[p] == '?' {
        p := p + 1;
        s := s + 1;
        continue;
      }
      if pattern[p] == '*' {
        if p + 1 == |pattern| { return true; }
        while s != |str|
          invariant s <= |str| && p + 1 < |pattern|
          invariant FNMatch(pattern, str) == (s < |str| && MatchesLater(pattern[p + 1..], str[s..]))
        {
          var rest := SafeFNMatch(pattern[p + 1..], str[s..]);
          if rest { return true; }
          s := s + 1;
        }
        return false;
      }
      return false;
    }
  }

  /** The glob relation: '*' stands for any text, '?' for any character. */
  ghost predicate Matches(p: string, s: string)
    decreases |p|
  {
    if p == "" then s == "" else
    if p[0] == '*' then exists k :: 0 <= k <= |s| && Matches(p[1..], s[k..])
    else s != "" && (p[0] == '?' || p[0] == s[0]) && Matches(p[1..], s[1..])
  }

  predicate EndsInTwoStars(p: string) { |p| >= 2 && p[|p| - 2] == '*' && p[|p| - 1] == '*' }

  lemma {:induction false} LaterMeans(p: string, s: string)
    requires s != ""
    ensures MatchesLater(p, s) <==> exists k :: 0 <= k < |s| && FNMatch(p, s[k..])
    decreases |s|
  {
    assert s[0..] == s;
    if |s| > 1 {
      LaterMeans(p, s[1..]);
      if k :| 0 <= k < |s| - 1 && FNMatch(p, s[1..][k..]) { assert s[1..][k..] == s[k + 1..]; }
      if k :| 1 <= k < |s| && FNMatch(p, s[k..]) { assert s[1..][k - 1..] == s[k..]; }
    }
  }

  /** Sound on all inputs. */
  lemma {:induction false} MatcherIsSound(p: string, s: string)
    requires FNMatch(p, s)
    ensures Matches(p, s)
    decreases |p|
  {
    if p != "" && s == "" {
      assert Matches(p[1..], s[0..]);
    } else if p != "" && (p[0] == s[0] || p[0] == '?') {
      MatcherIsSound(p[1..], s[1..]);
    } else if p == "*" {
      assert Matches(p[1..], s[|s|..]);
    } else if p != "" {
      LaterMeans(p[1..], s);
      var k :| 0 <= k < |s| && FNMatch(p[1..], s[k..]);
      MatcherIsSound(p[1..], s[k..]);
    }
  }

  predicate OnlyStars(p: string) { forall i :: 0 <= i < |p| ==> p[i] == '*' }

  lemma {:induction false} EmptyTextNeedsStars(p: string)
    requires Matches(p, "")
    ensures OnlyStars(p)
  {
    if p != "" {
      var k :| 0 <= k <= 0 && Matches(p[1..], ""[k..]);
      EmptyTextNeedsStars(p[1..]);
      assert forall i :: 1 <= i < |p| ==> p[i] == p[1..][i - 1];
    }
  }

  /** Complete, hence the relation itself, on texts without '*' and patterns not ending in "**". */
  lemma {:induction false} MatcherIsExact(p: string, s: string)
    requires '*' !in s && !EndsInTwoStars(p)
    ensures FNMatch(p, s) <==> Matches(p, s)
    decreases |p|
  {
    if FNMatch(p, s) { MatcherIsSound(p, s); }
    if Matches(p, s) && p != "" {
      if s == "" {
        EmptyTextNeedsStars(p);
      } else if p[0] != '*' {
        MatcherIsExact(p[1..], s[1..]);
      } else if |p| > 1 {
        var k :| 0 <= k <= |s| && Matches(p[1..], s[k..]);
        if k == |s| { EmptyTextNeedsStars(p[1..]); }
        MatcherIsExact(p[1..], s[k..]);
        LaterMeans(p[1..], s);
      }
    }
  }

  /** A shortest text a pattern matches. */
  function Shortest(p: string): (s: string)
    ensures '*' !in s
  {
    if p == "" then "" else
    (if p[0] == '*' then "" else if p[0] == '?' then "x" else [p[0]]) + Shortest(p[1..])
  }

  lemma {:induction false} ShortestMatches(p: string)
    ensures Matches(p, Shortest(p))
  {
    if p != "" {
      ShortestMatches(p[1..]);
      assert Shortest(p)[if p[0] == '*' then 0 else 1..] == Shortest(p[1..]);
    }
  }

  lemma {:induction false} TwoStarsNeedMore(p: string, s: string)
    requires EndsInTwoStars(p) && '*' !in s && |s| <= |Shortest(p)|
    ensures !FNMatch(p, s)
    decreases |p|
  {
    if |p| == 2 {
      assert p[1..][1..] == "" && Shortest(p[1..]) == "";
    } else if s != "" {
      if p[0] == s[0] || p[0] == '?' {
        TwoStarsNeedMore(p[1..], s[1..]);
      } else if p[0] == '*' {
        LaterMeans(p[1..], s);
        forall k | 0 <= k < |s| ensures !FNMatch(p[1..], s[k..]) {
          TwoStarsNeedMore(p[1..], s[k..]);
        }
      }
    }
  }

  /** Each condition of MatcherIsExact is needed: a pattern ending in "**" misses a star-free text, ... */
  lemma PatternConditionIsExact(p: string)
    ensures (forall s :: '*' !in s ==> (FNMatch(p, s) <==> Matches(p, s))) <==> !EndsInTwoStars(p)
  {
    if EndsInTwoStars(p) {
      ShortestMatches(p);
      TwoStarsNeedMore(p, Shortest(p));
    } else {
      forall s | '*' !in s ensures FNMatch(p, s) <==> Matches(p, s) { MatcherIsExact(p, s); }
    }
  }

  lemma {:induction false} LiteralPrefix(u: string, p: string, s: string)
    requires '*' !in u
    ensures FNMatch(u + p, u + s) == FNMatch(p, s)
    ensures Matches(p, s) ==> Matches(u + p, u + s)
  {
    if u == "" {
      assert u + p == p && u + s == s;
    } else {
      LiteralPrefix(u[1..], p, s);
      assert (u + p)[1..] == u[1..] + p && (u + s)[1..] == u[1..] + s;
    }
  }

  lemma FirstStar(s: string) returns (k: nat)
    requires '*' in s
    ensures k < |s| && s[k] == '*' && '*' !in s[..k]
  {
    k := 0;
    while s[k] != '*'
      invariant k < |s| && '*' !in s[..k] && '*' in s[k..]
      decreases |s| - k
    {
      k := k + 1;
    }
  }

  /** A '*' met by a '*' is taken literally, which is one character too few or too many. */
  lemma LiteralStar(v: string)
    ensures var q := if v == "" then "*?" else "*"; Matches(q, "*" + v) && !FNMatch(q, "*" + v)
  {
    var s := "*" + v;
    if v == "" {
      assert s[0..] == "*" && Matches("", "*"[1..]) && Matches("?", s[0..]);
      assert "*?"[1..] == "?" && s[1..] == "";
    } else {
      assert Matches("", s[|s|..]) && "*"[1..] == "";
      assert s[1..] == v;
    }
  }

  /** ... and a text with a '*' is missed by some pattern not ending in "**". */
  lemma TextConditionIsExact(s: string)
    ensures (forall p :: !EndsInTwoStars(p) ==> (FNMatch(p, s) <==> Matches(p, s))) <==> '*' !in s
  {
    hide FNMatch, Matches;
    if '*' in s {
      var k := FirstStar(s);
      var u, v := s[..k], s[k + 1..];
      assert s == u + ("*" + v);
      var q := if v == "" then "*?" else "*";
      LiteralPrefix(u, q, "*" + v);
      LiteralStar(v);
      assert !EndsInTwoStars(u + q);
    } else {
      forall p | !EndsInTwoStars(p) ensures FNMatch(p, s) <==> Matches(p, s) { MatcherIsExact(p, s); }
    }
  }
}
