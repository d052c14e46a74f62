/**
 * String operations the components use on names, barcodes, queries and dates:
 * `toLowerCase`, `includes`, `trim`, and the ordering of ISO 8601 calendar dates.
 */
module Text {
  import opened JsValues

  /** `toLowerCase` on one character (ASCII letters only). */
  function LowerChar(c: char): char
  {
    if 'A' <= c <= 'Z' then (c as int + 32) as char else c
  }

  function Lower(s: string): (r: string)
    ensures |r| == |s|
    ensures forall i :: 0 <= i < |s| ==> r[i] == LowerChar(s[i])
  {
    if s == [] then [] else [LowerChar(s[0])] + Lower(s[1..])
  }

  /** `s.includes(t)`: `t` occurs in `s` at some position. */
  predicate Contains(s: string, t: string)
  {
    exists i: nat | i <= |s| :: OccursAt(s, t, i)
  }

  predicate OccursAt(s: string, t: string, i: nat)
  {
    i + |t| <= |s| && t == s[i..i + |t|]
  }

  /** No string occurs twice in `s`. */
  ghost predicate Distinct(s: seq<string>)
  {
    forall i, j :: 0 <= i < j < |s| ==> s[i] != s[j]
  }

  /** `a` is `b` with some elements left out, in the same order (what `filter` returns). */
  ghost predicate Subsequence<T>(a: seq<T>, b: seq<T>)
    decreases |b|
  {
    || a == []
    || (b != [] && a[0] == b[0] && Subsequence(a[1..], b[1..]))
    || (b != [] && Subsequence(a, b[1..]))
  }

  /** Leaving nothing out is a subsequence. */
  lemma {:induction false} SubsequenceReflexive<T>(a: seq<T>)
    ensures Subsequence(a, a)
    decreases |a|
  {
    if a != [] {
      SubsequenceReflexive(a[1..]);
    }
  }

  /** `s.trim()`: leading and trailing white space removed. */
  function Trim(s: string): (r: string)
    ensures |r| <= |s|
    ensures r == [] || (!IsSpace(r[0]) && !IsSpace(r[|r| - 1]))
  {
    TrimEnd(SkipSpace(s))
  }

  /** Trimming cuts white space only: the result is a slice of `s` with only white space around it. */
  lemma TrimStripsOnlySpace(s: string)
    ensures exists i, j ::
              && 0 <= i <= j <= |s| && Trim(s) == s[i..j]
              && (forall k :: 0 <= k < i ==> IsSpace(s[k]))
              && (forall k :: j <= k < |s| ==> IsSpace(s[k]))
  {
    var t := SkipSpace(s);
    var i := |s| - |t|;
    SkipSpaceSkipsSpace(s);
    var r := TrimEnd(t);
    TrimEndCutsSpace(t);
    var j := i + |r|;
    assert t == s[i..] && r == t[..|r|];
    assert r == s[i..j];
    assert Trim(s) == r;
    forall k | j <= k < |s| ensures IsSpace(s[k]) {
      assert s[k] == t[k - i];
    }
    assert 0 <= i <= j <= |s| && Trim(s) == s[i..j];
  }

  lemma {:induction false} SkipSpaceSkipsSpace(s: string)
    ensures forall k :: 0 <= k < |s| - |SkipSpace(s)| ==> IsSpace(s[k])
  {
    if s != [] && IsSpace(s[0]) {
      SkipSpaceSkipsSpace(s[1..]);
      assert forall k :: 1 <= k < |s| ==> s[k] == s[1..][k - 1];
    }
  }

  lemma {:induction false} TrimEndCutsSpace(s: string)
    ensures forall k :: |TrimEnd(s)| <= k < |s| ==> IsSpace(s[k])
  {
    if s != [] && IsSpace(s[|s| - 1]) {
      TrimEndCutsSpace(s[..|s| - 1]);
    }
  }

  function TrimEnd(s: string): (r: string)
    ensures |r| <= |s| && r == s[..|r|]
    ensures r == [] || !IsSpace(r[|r| - 1])
  {
    if s != [] && IsSpace(s[|s| - 1]) then TrimEnd(s[..|s| - 1]) else s
  }

  /** `s.trim() === ""`. */
  predicate IsBlank(s: string)
  {
    Trim(s) == []
  }

  /**
   * The name filter shared by the server's search route and the food pickers: a match needs a
   * query no longer than the name, and the empty query matches every name.
   */
  predicate NameMatches(name: string, query: string)
    ensures NameMatches(name, query) ==> |query| <= |name|
    ensures query == [] ==> NameMatches(name, query)
  {
    assert query == [] ==> OccursAt(Lower(name), Lower(query), 0);
    Contains(Lower(name), Lower(query))
  }

  lemma {:induction false} BlankIffAllSpace(s: string)
    ensures IsBlank(s) <==> forall i :: 0 <= i < |s| ==> IsSpace(s[i])
  {
    if s == [] {
    } else if IsSpace(s[0]) {
      BlankIffAllSpace(s[1..]);
      assert forall i :: 1 <= i < |s| ==> s[i] == s[1..][i - 1];
    } else {
      assert SkipSpace(s) == s;
      NonSpaceSurvivesTrimEnd(s, 0);
    }
  }

  lemma {:induction false} NonSpaceSurvivesTrimEnd(s: string, k: nat)
    requires k < |s| && !IsSpace(s[k])
    ensures k < |TrimEnd(s)|
  {
    if IsSpace(s[|s| - 1]) {
      NonSpaceSurvivesTrimEnd(s[..|s| - 1], k);
    }
  }

  lemma LowerIdempotent(s: string)
    ensures Lower(Lower(s)) == Lower(s)
  {
  }

  /** Matching ignores the case of both the name and the query. */
  lemma NameMatchesIgnoresCase(name: string, query: string)
    ensures NameMatches(Lower(name), query) == NameMatches(name, query)
    ensures NameMatches(name, Lower(query)) == NameMatches(name, query)
  {
    LowerIdempotent(name);
    LowerIdempotent(query);
  }

  /** Every name matches the empty query. */
  lemma EveryNameMatchesEmpty(name: string)
    ensures NameMatches(name, "")
  {
    assert Lower("") == "";
    assert OccursAt(Lower(name), "", 0);
  }

  // ---------------------------------------------------------------------------
  // Calendar dates

  /**
   * Lexicographic order on strings. Dates are written `yyyy-MM-dd`, so this is the
   * chronological order that `new Date(a) - new Date(b)` compares.
   */
  predicate DateLe(a: string, b: string)
  {
    if a == [] then true
    else if b == [] then false
    else if a[0] != b[0] then a[0] < b[0]
    else DateLe(a[1..], b[1..])
  }

  lemma {:induction false} DateLeTotal(a: string, b: string)
    ensures DateLe(a, b) || DateLe(b, a)
  {
    if a != [] && b != [] && a[0] == b[0] {
      DateLeTotal(a[1..], b[1..]);
    }
  }

  lemma {:induction false} DateLeTransitive(a: string, b: string, c: string)
    requires DateLe(a, b) && DateLe(b, c)
    ensures DateLe(a, c)
  {
    if a != [] && b != [] && c != [] && a[0] == b[0] && b[0] == c[0] {
      DateLeTransitive(a[1..], b[1..], c[1..]);
    }
  }

  lemma {:induction false} DateLeAntisymmetric(a: string, b: string)
    requires DateLe(a, b) && DateLe(b, a)
    ensures a == b
  {
    if a != [] && b != [] {
      DateLeAntisymmetric(a[1..], b[1..]);
      assert a == [a[0]] + a[1..];
      assert b == [b[0]] + b[1..];
    }
  }

  lemma {:induction false} DateLeReflexive(a: string)
    ensures DateLe(a, a)
  {
    if a != [] {
      DateLeReflexive(a[1..]);
    }
  }
}
