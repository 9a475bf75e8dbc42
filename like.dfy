/** SQL's case-insensitive pattern match (`ILIKE`, and SQLite's `LIKE`):
    `%` matches any run of characters, `_` any single character, and every
    other character itself up to ASCII case. No escape character is set, so a
    `%` or `_` that comes from user input acts as a wildcard too. */
module SqlLike {
  import opened Common

  function ILike(pattern: string, s: string): bool
    decreases |pattern| + |s|
  {
    if pattern == [] then s == []
    else if pattern[0] == '%' then ILike(pattern[1..], s) || (s != [] && ILike(pattern, s[1..]))
    else s != [] && (pattern[0] == '_' || LowerChar(pattern[0]) == LowerChar(s[0]))
         && ILike(pattern[1..], s[1..])
  }

  predicate NoWildcards(q: string)
  {
    forall i :: 0 <= i < |q| ==> q[i] != '%' && q[i] != '_'
  }

  /** `%` alone matches everything. */
  lemma {:induction false} AnyMatchesPercent(s: string)
    ensures ILike("%", s)
    decreases |s|
  {
    if s != [] {
      AnyMatchesPercent(s[1..]);
    }
  }

  /** A leading `%` tries every suffix. */
  lemma {:induction false} LeadingPercent(rest: string, s: string)
    ensures ILike("%" + rest, s) <==> exists i :: 0 <= i <= |s| && ILike(rest, s[i..])
    decreases |s|
  {
    var p := "%" + rest;
    assert p[1..] == rest;
    assert s[0..] == s;
    if s != [] {
      LeadingPercent(rest, s[1..]);
      forall i | 1 <= i <= |s| ensures s[1..][i - 1..] == s[i..] { }
      if ILike(p, s) && !ILike(rest, s) {
        var j :| 0 <= j <= |s[1..]| && ILike(rest, s[1..][j..]);
        assert s[1..][j..] == s[j + 1..];
      }
    }
  }

  /** A literal prefix (no wildcards) must match the text's prefix up to case. */
  lemma {:induction false} LiteralPrefix(q: string, rest: string, s: string)
    requires NoWildcards(q)
    ensures ILike(q + rest, s) <==> |q| <= |s| && Lower(s[..|q|]) == Lower(q) && ILike(rest, s[|q|..])
    decreases |q|
  {
    if q == [] {
      assert q + rest == rest;
      assert s[..0] == [] && s[0..] == s;
    } else {
      var p := q + rest;
      assert p[0] == q[0] && p[1..] == q[1..] + rest;
      if s != [] {
        LiteralPrefix(q[1..], rest, s[1..]);
        assert NoWildcards(q[1..]);
        if |q| <= |s| {
          assert s[1..][..|q| - 1] == s[1..|q|];
          assert s[1..][|q| - 1..] == s[|q|..];
          assert s[..|q|] == [s[0]] + s[1..|q|];
          assert q == [q[0]] + q[1..];
          LowerAppend([s[0]], s[1..|q|]);
          LowerAppend([q[0]], q[1..]);
          assert Lower(s[..|q|]) == Lower(q) <==>
                 LowerChar(s[0]) == LowerChar(q[0]) && Lower(s[1..|q|]) == Lower(q[1..]);
        }
      }
    }
  }

  /** A string lowered character by character, sliced, is the slice lowered. */
  lemma MappedSlice(s: string, whole: string, part: string, i: int, j: int)
    requires 0 <= i <= j <= |s|
    requires |whole| == |s| && forall k :: 0 <= k < |s| ==> whole[k] == LowerChar(s[k])
    requires |part| == j - i && forall k :: 0 <= k < j - i ==> part[k] == LowerChar(s[i + k])
    ensures whole[i..j] == part
  {
    forall k | 0 <= k < j - i ensures whole[i..j][k] == part[k] {
      assert whole[i + k] == LowerChar(s[i + k]);
    }
  }

  lemma LowerSlice(s: string, i: int, j: int)
    requires 0 <= i <= j <= |s|
    ensures Lower(s)[i..j] == Lower(s[i..j])
  {
    var t := s[i..j];
    var part := Lower(t);
    forall k | 0 <= k < j - i ensures part[k] == LowerChar(s[i + k]) {
      assert t[k] == s[i + k];
    }
    MappedSlice(s, Lower(s), part, i, j);
  }

  lemma MatchGivesOccurrence(q: string, s: string, i: int)
    requires NoWildcards(q) && 0 <= i <= |s| && ILike(q + "%", s[i..])
    ensures OccursAt(Lower(s), Lower(q), i)
  {
    LiteralPrefix(q, "%", s[i..]);
    assert s[i..][..|q|] == s[i..i + |q|];
    LowerSlice(s, i, i + |q|);
  }

  lemma OccurrenceGivesMatch(q: string, s: string, i: int)
    requires NoWildcards(q) && OccursAt(Lower(s), Lower(q), i)
    ensures ILike(q + "%", s[i..])
  {
    LowerSlice(s, i, i + |q|);
    assert s[i..][..|q|] == s[i..i + |q|];
    AnyMatchesPercent(s[i..][|q|..]);
    LiteralPrefix(q, "%", s[i..]);
  }

  /** For a query without wildcards, `ILIKE '%q%'` is a case-insensitive
      substring test. */
  lemma SubstringSearch(q: string, s: string)
    requires NoWildcards(q)
    ensures ILike("%" + q + "%", s) <==> Contains(Lower(s), Lower(q))
  {
    assert "%" + q + "%" == "%" + (q + "%");
    LeadingPercent(q + "%", s);
    if ILike("%" + q + "%", s) {
      var i :| 0 <= i <= |s| && ILike(q + "%", s[i..]);
      MatchGivesOccurrence(q, s, i);
    }
    if Contains(Lower(s), Lower(q)) {
      var i :| 0 <= i <= |Lower(s)| && OccursAt(Lower(s), Lower(q), i);
      OccurrenceGivesMatch(q, s, i);
    }
  }

  /** With a wildcard in the query the test is no longer a substring test:
      `_` matches any single character. */
  lemma UnderscoreMatchesAnything(c: char)
    ensures ILike("%_%", [c])
  {
    assert "%_%"[1..] == "_%";
    assert "_%"[1..] == "%";
    assert ILike("%", []);
  }
}
