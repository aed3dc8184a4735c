/** Trusted origins: the wildcard matcher and the check built on it. */
module Origin {
  import opened Strings

  /** The meaning of a pattern, read one character at a time: `*` stands for
      any string, every other character for itself, and both ends are anchored. */
  ghost predicate Glob(pattern: string, origin: string)
  {
    if pattern == "" then origin == ""
    else if pattern[0] == '*' then
      exists k :: 0 <= k <= |origin| && Glob(pattern[1..], origin[k..])
    else origin != "" && origin[0] == pattern[0] && Glob(pattern[1..], origin[1..])
  }

  /** The same language on the literals between the stars: `parts[0]` opens
      `origin`, and any text may stand between one literal and the next. */
  ghost predicate Anchored(parts: seq<string>, origin: string)
    requires |parts| >= 1
    decreases |parts|, 0
  {
    if |parts| == 1 then origin == parts[0]
    else parts[0] <= origin && Floating(parts[1..], origin[|parts[0]|..])
  }

  /** The literals occur in order after any skipped text, the last one at the end. */
  ghost predicate Floating(parts: seq<string>, origin: string)
    requires |parts| >= 1
    decreases |parts|, 1
  {
    exists k :: 0 <= k <= |origin| && Anchored(parts, origin[k..])
  }

  lemma {:induction false} GlobIsAnchored(pattern: string, origin: string)
    ensures Glob(pattern, origin) <==> Anchored(Split(pattern, '*'), origin)
    decreases |pattern|, |origin|
  {
    if pattern != "" {
      var rest := Split(pattern[1..], '*');
      if pattern[0] == '*' {
        forall k | 0 <= k <= |origin|
          ensures Glob(pattern[1..], origin[k..]) <==> Anchored(rest, origin[k..])
        {
          GlobIsAnchored(pattern[1..], origin[k..]);
        }
        var parts := Split(pattern, '*');
        assert parts[1..] == rest && parts[0] == "" && origin[0..] == origin;
      } else {
        var parts := Split(pattern, '*');
        assert parts == Extend(pattern[0], rest) && parts[1..] == rest[1..];
        if origin != "" {
          GlobIsAnchored(pattern[1..], origin[1..]);
          HeadCharacter(pattern[0], rest, origin);
        }
      }
    }
  }

  lemma HeadCharacter(c: char, rest: seq<string>, origin: string)
    requires |rest| >= 1 && origin != ""
    ensures Anchored(Extend(c, rest), origin) <==> origin[0] == c && Anchored(rest, origin[1..])
  {
    var parts := Extend(c, rest);
    assert parts[1..] == rest[1..];
    assert origin == [origin[0]] + origin[1..];
    if |rest| > 1 && parts[0] <= origin {
      assert origin[|parts[0]|..] == origin[1..][|rest[0]|..];
    }
    assert parts[0] <= origin <==> origin[0] == c && rest[0] <= origin[1..] by {
      assert parts[0][0] == c && parts[0][1..] == rest[0];
      if parts[0] <= origin {
        assert origin[..|parts[0]|][1..] == origin[1..][..|rest[0]|];
      }
      if origin[0] == c && rest[0] <= origin[1..] {
        assert origin == [c] + rest[0] + origin[1..][|rest[0]|..];
      }
    }
  }

  /** More text in front never hurts floating literals. */
  lemma FloatingOnLongerText(parts: seq<string>, origin: string, i: nat, j: nat)
    requires |parts| >= 1 && i <= j <= |origin|
    requires Floating(parts, origin[j..])
    ensures Floating(parts, origin[i..])
  {
    var k :| 0 <= k <= |origin[j..]| && Anchored(parts, origin[j..][k..]);
    assert origin[j..][k..] == origin[i..][j - i + k..];
  }

  /** The exchange argument: if the next literal can be placed at `k`, it can
      be placed at any earlier occurrence `i` instead. */
  lemma EarlierPlaceServes(parts: seq<string>, origin: string, i: nat, k: nat)
    requires |parts| >= 2 && i <= k <= |origin| && Anchored(parts, origin[k..])
    ensures k + |parts[0]| <= |origin|
    ensures Floating(parts[1..], origin[i + |parts[0]|..])
  {
    var from := origin[k..];
    assert from[|parts[0]|..] == origin[k + |parts[0]|..];
    FloatingOnLongerText(parts[1..], origin, i + |parts[0]|, k + |parts[0]|);
  }

  lemma PlacedLiteral(parts: seq<string>, origin: string, i: nat)
    requires |parts| >= 2 && i + |parts[0]| <= |origin| && parts[0] <= origin[i..]
    requires Floating(parts[1..], origin[i + |parts[0]|..])
    ensures Floating(parts, origin)
  {
    var from := origin[i..];
    assert from[|parts[0]|..] == origin[i + |parts[0]|..];
    assert Anchored(parts, from);
  }

  /** Of all occurrences of the next literal, trying the leftmost one is enough. */
  lemma LeftmostSuffices(parts: seq<string>, origin: string, i: int)
    requires |parts| >= 2 && i == Index(origin, parts[0])
    ensures Floating(parts, origin) <==> i >= 0 && Floating(parts[1..], origin[i + |parts[0]|..])
  {
    if Floating(parts, origin) {
      var k :| 0 <= k <= |origin| && Anchored(parts, origin[k..]);
      assert parts[0] <= origin[k..];
      EarlierPlaceServes(parts, origin, i, k);
    }
    if i >= 0 && Floating(parts[1..], origin[i + |parts[0]|..]) {
      PlacedLiteral(parts, origin, i);
    }
  }

  /** One floating literal at the end is a suffix test. */
  lemma LastLiteralIsSuffix(part: string, origin: string)
    ensures Floating([part], origin) <==> HasSuffix(origin, part)
  {
    if HasSuffix(origin, part) {
      assert Anchored([part], origin[|origin| - |part|..]);
    }
  }

  /** The suffix test on the whole origin, after the last literal has been
      found beyond `pos`, is the suffix test on the text beyond `pos`. */
  lemma SuffixBeyond(part: string, origin: string, pos: nat)
    requires pos <= |origin|
    ensures HasSuffix(origin[pos..], part) <==>
            Index(origin[pos..], part) >= 0 && HasSuffix(origin, part)
  {
    var t := origin[pos..];
    if HasSuffix(t, part) {
      assert part <= t[|t| - |part|..];
      assert t[|t| - |part|..] == origin[|origin| - |part|..];
    }
    if Index(t, part) >= 0 && HasSuffix(origin, part) {
      assert t[|t| - |part|..] == origin[|origin| - |part|..];
    }
  }

  /** The language of `pattern` on what is left at `pos` once the first `i`
      literals have been placed. */
  ghost predicate Remaining(parts: seq<string>, i: nat, origin: string, pos: nat)
    requires |parts| >= 2 && 1 <= i <= |parts| && pos <= |origin|
  {
    if i < |parts| then Floating(parts[i..], origin[pos..])
    else parts[|parts| - 1] == "" || HasSuffix(origin, parts[|parts| - 1])
  }

  lemma PlaceLast(part: string, origin: string, pos: nat)
    requires pos <= |origin|
    ensures Floating([part], origin[pos..]) <==>
            Index(origin[pos..], part) >= 0 && (part == "" || HasSuffix(origin, part))
  {
    var t := origin[pos..];
    LastLiteralIsSuffix(part, t);
    SuffixBeyond(part, origin, pos);
    if part == "" {
      assert t[0..] == t && part <= t;
    }
  }

  lemma PlaceInner(parts: seq<string>, rest: seq<string>, origin: string, pos: nat, idx: int)
    requires |parts| >= 2 && rest == parts[1..] && pos <= |origin| && idx == Index(origin[pos..], parts[0])
    ensures Floating(parts, origin[pos..]) <==> idx >= 0 && Floating(rest, origin[pos + idx + |parts[0]|..])
  {
    var t := origin[pos..];
    LeftmostSuffices(parts, t, idx);
    if idx >= 0 {
      assert t[idx + |parts[0]|..] == origin[pos + idx + |parts[0]|..];
    }
  }

  lemma PlaceInnerLiteral(parts: seq<string>, i: nat, origin: string, pos: nat, idx: int)
    requires |parts| >= 2 && 1 <= i && i + 1 < |parts| && pos <= |origin| && idx == Index(origin[pos..], parts[i])
    ensures Remaining(parts, i, origin, pos) <==> idx >= 0 && Remaining(parts, i + 1, origin, pos + idx + |parts[i]|)
  {
    var here, rest := parts[i..], parts[i + 1..];
    assert here[1..] == rest && here[0] == parts[i];
    PlaceInner(here, rest, origin, pos, idx);
  }

  lemma PlaceLastLiteral(parts: seq<string>, i: nat, origin: string, pos: nat, idx: int)
    requires |parts| >= 2 && i + 1 == |parts| && pos <= |origin| && idx == Index(origin[pos..], parts[i])
    ensures Remaining(parts, i, origin, pos) <==> idx >= 0 && Remaining(parts, i + 1, origin, pos + idx + |parts[i]|)
  {
    var here := parts[i..];
    assert here == [parts[i]];
    PlaceLast(parts[i], origin, pos);
  }

  lemma PlaceLiteral(parts: seq<string>, i: nat, origin: string, pos: nat, idx: int)
    requires |parts| >= 2 && 1 <= i < |parts| && pos <= |origin| && idx == Index(origin[pos..], parts[i])
    ensures Remaining(parts, i, origin, pos) <==> idx >= 0 && Remaining(parts, i + 1, origin, pos + idx + |parts[i]|)
  {
    if i + 1 < |parts| {
      PlaceInnerLiteral(parts, i, origin, pos, idx);
    } else {
      PlaceLastLiteral(parts, i, origin, pos, idx);
    }
  }

  lemma PlaceFirst(parts: seq<string>, origin: string, idx: int)
    requires |parts| >= 2 && idx == Index(origin, parts[0])
    ensures idx == 0 <==> parts[0] <= origin
    ensures Anchored(parts, origin) <==> idx == 0 && Remaining(parts, 1, origin, |parts[0]|)
  {
    assert origin[0..] == origin;
    assert parts[0] <= origin ==> parts[0] <= origin[0..];
  }

  /** What the scan knows when `i` literals have been placed, up to `pos`. */
  ghost predicate Placed(parts: seq<string>, i: nat, origin: string, pos: int)
    requires |parts| >= 2 && i <= |parts|
  {
    && 0 <= pos <= |origin|
    && if i == 0 then pos == 0 else Anchored(parts, origin) <==> Remaining(parts, i, origin, pos)
  }

  lemma EmptyLiteral(text: string)
    ensures Index(text, "") == 0
  {
    assert "" <= text[0..];
  }

  lemma PlaceNext(parts: seq<string>, i: nat, origin: string, pos: nat, idx: int)
    requires |parts| >= 2 && i < |parts| && Placed(parts, i, origin, pos)
    requires idx == Index(origin[pos..], parts[i])
    ensures parts[i] == "" ==> idx == 0
    ensures idx < 0 || (i == 0 && idx != 0) ==> !Anchored(parts, origin)
    ensures idx >= 0 && (i == 0 ==> idx == 0) ==> Placed(parts, i + 1, origin, pos + idx + |parts[i]|)
  {
    if parts[i] == "" {
      EmptyLiteral(origin[pos..]);
    }
    if i >= 1 {
      PlaceLiteral(parts, i, origin, pos, idx);
    } else {
      assert origin[0..] == origin;
      PlaceFirst(parts, origin, idx);
    }
  }

  lemma {:induction false} StarlessIsEquality(pattern: string, origin: string)
    requires '*' !in pattern
    ensures Glob(pattern, origin) <==> pattern == origin
  {
    GlobIsAnchored(pattern, origin);
    SplitOfWhole(pattern, '*');
  }

  lemma {:induction false} SplitAtStar(pattern: string)
    requires '*' in pattern
    ensures |Split(pattern, '*')| >= 2
  {
    if pattern[0] != '*' {
      assert pattern == [pattern[0]] + pattern[1..];
      SplitAtStar(pattern[1..]);
    }
  }

  lemma StarMatchesAll(origin: string)
    ensures Glob("*", origin)
  {
    assert "*"[1..] == "" && Glob("", origin[|origin|..]);
  }

  lemma StarredIsAnchored(pattern: string, origin: string)
    requires '*' in pattern
    ensures var parts := Split(pattern, '*');
            |parts| >= 2 && (Glob(pattern, origin) <==> Anchored(parts, origin)) && Placed(parts, 0, origin, 0)
  {
    GlobIsAnchored(pattern, origin);
    SplitAtStar(pattern);
  }

  /** All literals have been placed: what is left is the suffix test. */
  lemma AllPlaced(parts: seq<string>, origin: string, pos: int)
    requires |parts| >= 2 && Placed(parts, |parts|, origin, pos)
    ensures Anchored(parts, origin) <==> parts[|parts| - 1] == "" || HasSuffix(origin, parts[|parts| - 1])
  {
  }

  /** `matchOriginPattern`: decides the pattern's language exactly, for all
      patterns and origins, although it places every literal greedily. */
  method MatchOriginPattern(pattern: string, origin: string) returns (matches: bool)
    ensures matches <==> Glob(pattern, origin)
  {
    if pattern == "*" {
      StarMatchesAll(origin);
      return true;
    }
    if !Contains(pattern, '*') {
      StarlessIsEquality(pattern, origin);
      return pattern == origin;
    }
    var parts := Split(pattern, '*');
    StarredIsAnchored(pattern, origin);
    ghost var inLanguage := Glob(pattern, origin);
    var pos := 0;
    for i := 0 to |parts|
      invariant |parts| >= 2 && (inLanguage <==> Anchored(parts, origin)) && Placed(parts, i, origin, pos)
    {
      var part := parts[i];
      ghost var at := Index(origin[pos..], part);
      PlaceNext(parts, i, origin, pos, at);
      if part == "" {
        continue;
      }
      var idx := Index(origin[pos..], part);
      if idx < 0 {
        return false;
      }
      if i == 0 && idx != 0 {
        return false;
      }
      pos := pos + idx + |part|;
    }
    AllPlaced(parts, origin, pos);
    var last := parts[|parts| - 1];
    if last != "" {
      return HasSuffix(origin, last);
    }
    return true;
  }

  /** The configured origins as `resolveConfig` files them: entries with a star
      become patterns, the others and the base URL are compared exactly. */
  class TrustedOrigins {
    var exact: set<string>
    var patterns: seq<string>

    ghost predicate Files(configured: seq<string>, baseURL: string)
      reads this
    {
      && (forall o :: o in exact <==>
            (o in configured && !Contains(o, '*')) || (baseURL != "" && o == baseURL))
      && (forall p :: p in patterns <==> p in configured && Contains(p, '*'))
    }

    constructor (configured: seq<string>, baseURL: string)
      ensures Files(configured, baseURL)
    {
      exact, patterns := {}, [];
      new;
      for i := 0 to |configured|
        invariant forall o :: o in exact <==> o in configured[..i] && !Contains(o, '*')
        invariant forall p :: p in patterns <==> p in configured[..i] && Contains(p, '*')
      {
        assert configured[..i + 1] == configured[..i] + [configured[i]];
        if Contains(configured[i], '*') {
          patterns := patterns + [configured[i]];
        } else {
          exact := exact + {configured[i]};
        }
      }
      assert configured[..|configured|] == configured;
      if baseURL != "" {
        exact := exact + {baseURL};
      }
    }

    /** `isTrustedOrigin`: a non-empty origin is trusted exactly when it is the
        base URL or lies in the language of some configured entry. */
    method IsTrusted(origin: string, ghost configured: seq<string>, ghost baseURL: string)
      returns (trusted: bool)
      requires Files(configured, baseURL)
      ensures trusted <==>
              && origin != ""
              && (origin == baseURL || exists entry :: entry in configured && Glob(entry, origin))
    {
      if origin == "" {
        return false;
      }
      if origin in exact {
        if origin in configured && !Contains(origin, '*') {
          StarlessIsEquality(origin, origin);
        }
        return true;
      }
      for i := 0 to |patterns|
        invariant forall p :: p in patterns[..i] ==> !Glob(p, origin)
      {
        assert patterns[i] in patterns;
        var m := MatchOriginPattern(patterns[i], origin);
        if m {
          return true;
        }
        assert patterns[..i + 1] == patterns[..i] + [patterns[i]];
      }
      assert patterns[..|patterns|] == patterns;
      forall entry | entry in configured ensures !Glob(entry, origin) {
        if !Contains(entry, '*') {
          StarlessIsEquality(entry, origin);
          assert entry in exact;
        } else {
          assert entry in patterns;
        }
      }
      return false;
    }
  }

}
