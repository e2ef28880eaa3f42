/** The tag allowlist glob of labels.go: the leftmost-greedy matcher decides the
    relational meaning of a pattern, for every pattern and every tag. */
module Glob {
  import opened Text

  /** What a pattern means: `*` stands for any run of bytes, everything else for
      itself, and the pattern consumes the whole string. */
  ghost predicate Matches(pattern: string, s: string)
    decreases pattern
  {
    if pattern == "" then s == ""
    else if pattern[0] == '*' then exists k :: 0 <= k <= |s| && Matches(pattern[1..], s[k..])
    else s != "" && s[0] == pattern[0] && Matches(pattern[1..], s[1..])
  }

  /** strings.Index: the leftmost occurrence of `sub`, or -1. */
  function Index(s: string, sub: string): (i: int)
    ensures -1 <= i <= |s|
    ensures i >= 0 ==> HasPrefix(s[i..], sub)
  {
    if HasPrefix(s, sub) then 0
    else if s == "" then -1
    else
      var i := Index(s[1..], sub);
      if i < 0 then -1 else i + 1
  }

  lemma {:induction false} IndexIsLeftmost(s: string, sub: string, k: nat)
    requires k <= |s| && HasPrefix(s[k..], sub)
    ensures 0 <= Index(s, sub) <= k
  {
    if k == 0 {
      assert s[0..] == s;
    } else if !HasPrefix(s, sub) {
      assert s[k..] == s[1..][k - 1..];
      IndexIsLeftmost(s[1..], sub, k - 1);
    }
  }

  /** `parts` occur in order in `s`, anywhere, except that the last one ends `s`. */
  ghost predicate AfterStar(parts: seq<string>, s: string)
    requires parts != []
    decreases parts, 1
  {
    if |parts| == 1 then HasSuffix(s, parts[0]) else exists k: nat :: FirstAt(parts, s, k)
  }

  ghost predicate FirstAt(parts: seq<string>, s: string, k: nat)
    requires |parts| > 1
    decreases parts, 0
  {
    k <= |s| && HasPrefix(s[k..], parts[0]) && AfterStar(parts[1..], s[k + |parts[0]|..])
  }

  /** The same with every search resolved to the leftmost occurrence. */
  predicate Greedy(parts: seq<string>, s: string)
    requires parts != []
  {
    if |parts| == 1 then HasSuffix(s, parts[0])
    else
      var i := Index(s, parts[0]);
      i >= 0 && Greedy(parts[1..], s[i + |parts[0]|..])
  }

  ghost predicate PartsMatch(parts: seq<string>, s: string)
    requires parts != []
  {
    if |parts| == 1 then s == parts[0]
    else HasPrefix(s, parts[0]) && AfterStar(parts[1..], s[|parts[0]|..])
  }

  /** Room to the left never hurts: the star before the first part absorbs it. */
  lemma AfterStarWidens(parts: seq<string>, s: string, j: nat)
    requires parts != [] && j <= |s| && AfterStar(parts, s[j..])
    ensures AfterStar(parts, s)
  {
    if |parts| > 1 {
      var k: nat :| FirstAt(parts, s[j..], k);
      assert s[j..][k..] == s[j + k..];
      assert s[j..][k + |parts[0]|..] == s[j + k + |parts[0]|..];
      assert FirstAt(parts, s, j + k);
    }
  }

  /** The exchange argument: taking the leftmost occurrence loses no match. */
  lemma {:induction false} GreedyIsComplete(parts: seq<string>, s: string)
    requires parts != []
    ensures Greedy(parts, s) <==> AfterStar(parts, s)
  {
    hide Index;
    if |parts| > 1 {
      var i := Index(s, parts[0]);
      if i >= 0 {
        GreedyIsComplete(parts[1..], s[i + |parts[0]|..]);
        assert Greedy(parts, s) ==> FirstAt(parts, s, i);
      }
      if k: nat :| FirstAt(parts, s, k) {
        IndexIsLeftmost(s, parts[0], k);
        var rest := s[i + |parts[0]|..];
        assert rest[k - i..] == s[k + |parts[0]|..];
        AfterStarWidens(parts[1..], rest, k - i);
      }
    }
  }

  lemma AfterStarIsStar(parts: seq<string>, s: string)
    requires parts != []
    ensures AfterStar(parts, s) <==> exists k :: 0 <= k <= |s| && PartsMatch(parts, s[k..])
  {
    if |parts| == 1 {
      if HasSuffix(s, parts[0]) {
        assert PartsMatch(parts, s[|s| - |parts[0]|..]);
      }
    } else {
      forall k: nat | k <= |s| ensures FirstAt(parts, s, k) <==> PartsMatch(parts, s[k..]) {
        if HasPrefix(s[k..], parts[0]) {
          assert s[k..][|parts[0]|..] == s[k + |parts[0]|..];
        }
      }
    }
  }

  lemma {:induction false} MatchesByParts(pattern: string, s: string)
    ensures Matches(pattern, s) <==> PartsMatch(Split(pattern, '*'), s)
  {
    if pattern != "" {
      var rest := Split(pattern[1..], '*');
      var parts := Split(pattern, '*');
      if pattern[0] == '*' {
        forall k | 0 <= k <= |s| ensures Matches(pattern[1..], s[k..]) <==> PartsMatch(rest, s[k..]) {
          MatchesByParts(pattern[1..], s[k..]);
        }
        AfterStarIsStar(rest, s);
        assert parts[1..] == rest && s[0..] == s;
      } else {
        assert parts[1..] == rest[1..];
        if s != "" {
          MatchesByParts(pattern[1..], s[1..]);
          assert s == [s[0]] + s[1..];
          assert HasPrefix(s, parts[0]) <==> s[0] == pattern[0] && HasPrefix(s[1..], rest[0]);
          if HasPrefix(s, parts[0]) {
            assert s[|parts[0]|..] == s[1..][|rest[0]|..];
          }
        }
      }
    }
  }

  /** The whole matcher: anchored prefix, leftmost searches, anchored suffix. */
  predicate GreedyMatch(pattern: string, s: string) {
    var parts := Split(pattern, '*');
    if |parts| == 1 then pattern == s
    else HasPrefix(s, parts[0]) && Greedy(parts[1..], s[|parts[0]|..])
  }

  /** The greedy matcher decides the relational meaning. */
  lemma GreedyDecidesMatch(pattern: string, s: string)
    ensures GreedyMatch(pattern, s) <==> Matches(pattern, s)
  {
    var parts := Split(pattern, '*');
    MatchesByParts(pattern, s);
    SplitParts(pattern, '*');
    if |parts| > 1 && HasPrefix(s, parts[0]) {
      GreedyIsComplete(parts[1..], s[|parts[0]|..]);
    }
  }

  /** The loop of matchGlob over the middle parts. */
  method SearchMiddle(parts: seq<string>, str: string) returns (ok: bool)
    requires parts != []
    ensures ok <==> Greedy(parts, str)
  {
    hide Index;
    var s := str;
    var last := parts[|parts| - 1];
    for n := 0 to |parts| - 1
      invariant Greedy(parts, str) <==> Greedy(parts[n..], s)
    {
      var i := Index(s, parts[n]);
      assert parts[n..][1..] == parts[n + 1..];
      if i < 0 {
        return false;
      }
      s := s[i + |parts[n]|..];
    }
    return HasSuffix(s, last);
  }

  /** matchGlob. */
  method MatchGlob(pattern: string, s: string) returns (ok: bool)
    ensures ok <==> Matches(pattern, s)
  {
    GreedyDecidesMatch(pattern, s);
    var parts := Split(pattern, '*');
    if |parts| == 1 {
      return pattern == s;
    }
    if !HasPrefix(s, parts[0]) {
      return false;
    }
    ok := SearchMiddle(parts[1..], s[|parts[0]|..]);
  }

  /** tagAllowed: the derived tag always passes, any other needs an allowlist pattern. */
  method TagAllowed(tag: string, derived: string, allowed: seq<string>) returns (ok: bool)
    ensures ok <==> AllowedTag(tag, derived, allowed)
  {
    if tag == derived {
      return true;
    }
    for i := 0 to |allowed|
      invariant forall j :: 0 <= j < i ==> !Matches(allowed[j], tag)
    {
      var hit := MatchGlob(allowed[i], tag);
      if hit {
        return true;
      }
    }
    return false;
  }

  ghost predicate AllowedTag(tag: string, derived: string, allowed: seq<string>) {
    tag == derived || exists i :: 0 <= i < |allowed| && Matches(allowed[i], tag)
  }
}
