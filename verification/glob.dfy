/** A case-sensitive glob matcher for the `*` wildcard, the part of Redis
    `KEYS pattern` syntax the cache invalidation relies on. Every other pattern
    character matches itself. */
module Glob {

  const Star: char := '*'

  /** `p` contains no wildcard. */
  predicate Literal(p: string) {
    forall k :: 0 <= k < |p| ==> p[k] != Star
  }

  /** Does the whole of `s` match the whole of `p`? A `*` matches any run of
      characters, including none. */
  function Match(p: string, s: string): (m: bool)
    ensures p == [Star] ==> m
    decreases |p| + |s|
  {
    if |p| == 0 then |s| == 0
    else if p[0] == Star then Match(p[1..], s) || (|s| > 0 && Match(p, s[1..]))
    else |s| > 0 && s[0] == p[0] && Match(p[1..], s[1..])
  }

  /** A literal prefix of the pattern must be a prefix of the string. */
  lemma {:induction false} MatchLiteralPrefix(l: string, p: string, s: string)
    requires Literal(l)
    ensures Match(l + p, s) <==> |l| <= |s| && s[..|l|] == l && Match(p, s[|l|..])
    decreases |l|
  {
    if |l| == 0 {
      assert l + p == p;
      assert s[..0] == l && s[0..] == s;
    } else {
      assert (l + p)[0] == l[0] && (l + p)[1..] == l[1..] + p;
      assert Literal(l[1..]) by {
        forall k | 0 <= k < |l[1..]| ensures l[1..][k] != Star {
          assert l[1..][k] == l[k + 1];
        }
      }
      if |s| > 0 {
        MatchLiteralPrefix(l[1..], p, s[1..]);
        if |l| <= |s| {
          assert s[1..][..|l| - 1] == s[1..|l|];
          assert s[1..][|l| - 1..] == s[|l|..];
          assert s[..|l|] == [s[0]] + s[1..|l|];
          assert l == [l[0]] + l[1..];
        }
      }
    }
  }

  /** A leading `*` lets the rest of the pattern match any suffix. */
  lemma {:induction false} MatchStar(p: string, s: string)
    ensures Match([Star] + p, s) <==> exists k :: 0 <= k <= |s| && Match(p, s[k..])
    decreases |s|
  {
    var sp := [Star] + p;
    assert sp[0] == Star && sp[1..] == p;
    if |s| == 0 {
      assert s[0..] == s;
    } else {
      MatchStar(p, s[1..]);
      assert forall k :: 1 <= k <= |s| ==> s[1..][k - 1..] == s[k..];
      if Match(sp, s) {
        if Match(p, s) {
          assert s[0..] == s;
        } else {
          var k :| 0 <= k <= |s| - 1 && Match(p, s[1..][k..]);
          assert Match(p, s[k + 1..]);
        }
      }
      if exists k :: 0 <= k <= |s| && Match(p, s[k..]) {
        var k :| 0 <= k <= |s| && Match(p, s[k..]);
        if k == 0 {
          assert s[0..] == s;
        } else {
          assert Match(p, s[1..][k - 1..]);
        }
      }
    }
  }

  /** A literal pattern matches only itself. */
  lemma MatchLiteral(l: string, s: string)
    requires Literal(l)
    ensures Match(l, s) <==> s == l
  {
    MatchLiteralPrefix(l, "", s);
    assert l + "" == l;
  }

  /** A `*` followed by a literal matches exactly the strings ending in that literal. */
  lemma MatchStarLiteral(l: string, s: string)
    requires Literal(l)
    ensures Match([Star] + l, s) <==> |l| <= |s| && s[|s| - |l|..] == l
  {
    MatchStar(l, s);
    if |l| <= |s| && s[|s| - |l|..] == l {
      MatchLiteral(l, s[|s| - |l|..]);
    }
    if Match([Star] + l, s) {
      var k :| 0 <= k <= |s| && Match(l, s[k..]);
      MatchLiteral(l, s[k..]);
    }
  }

  function Count(c: char, s: string): nat {
    multiset(s)[c]
  }

  /** Every non-wildcard character of the pattern is consumed by a character
      of the string, so a matched string has at least as many of it. */
  lemma {:induction false} MatchCountsLiterals(c: char, p: string, s: string)
    requires c != Star
    requires Match(p, s)
    ensures Count(c, p) <= Count(c, s)
    decreases |p| + |s|
  {
    if |p| > 0 {
      assert p == [p[0]] + p[1..];
      assert multiset(p) == multiset([p[0]]) + multiset(p[1..]);
      if |s| > 0 {
        assert s == [s[0]] + s[1..];
        assert multiset(s) == multiset([s[0]]) + multiset(s[1..]);
      }
      if p[0] == Star {
        if Match(p[1..], s) {
          MatchCountsLiterals(c, p[1..], s);
        } else {
          MatchCountsLiterals(c, p, s[1..]);
        }
      } else {
        MatchCountsLiterals(c, p[1..], s[1..]);
      }
    }
  }

  /** Peeling a literal and a `*` off the front of a pattern: the literal is a
      prefix of the string and the rest of the pattern matches some later suffix. */
  lemma PeelLiteralStar(l: string, q: string, s: string) returns (k: int)
    requires Literal(l)
    requires Match(l + ([Star] + q), s)
    ensures |l| <= k <= |s| && s[..|l|] == l && Match(q, s[k..])
  {
    MatchLiteralPrefix(l, [Star] + q, s);
    MatchStar(q, s[|l|..]);
    var k0 :| 0 <= k0 <= |s[|l|..]| && Match(q, s[|l|..][k0..]);
    k := |l| + k0;
    assert s[|l|..][k0..] == s[k..];
  }

  /** A pattern `<literal>*<literal>` fixes the start and the end of what it
      matches, and the two literals cannot overlap. */
  lemma LiteralStarLiteral(l1: string, l2: string, s: string)
    requires Literal(l1) && Literal(l2)
    requires Match(l1 + ([Star] + l2), s)
    ensures |l1| + |l2| <= |s|
    ensures s[..|l1|] == l1 && s[|s| - |l2|..] == l2
  {
    MatchLiteralPrefix(l1, [Star] + l2, s);
    var rest := s[|l1|..];
    MatchStarLiteral(l2, rest);
    assert s[|s| - |l2|..] == rest[|rest| - |l2|..];
  }

  /** The converse of `PeelLiteralStar`. */
  lemma BuildLiteralStar(l: string, q: string, s: string, k: int)
    requires Literal(l)
    requires |l| <= k <= |s| && s[..|l|] == l && Match(q, s[k..])
    ensures Match(l + ([Star] + q), s)
  {
    MatchLiteralPrefix(l, [Star] + q, s);
    MatchStar(q, s[|l|..]);
    assert s[|l|..][k - |l|..] == s[k..];
  }
}
