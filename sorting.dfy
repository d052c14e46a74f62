/**
 * `array.sort((a, b) => new Date(a.date) - new Date(b.date))`: a stable sort by a date key,
 * written as insertion sort, with the two facts every caller relies on (sorted, permutation).
 */
module Sorting {
  import opened Text

  /** `s` is in ascending order of `key`. */
  ghost predicate SortedBy<T>(s: seq<T>, key: T -> string)
  {
    forall i, j :: 0 <= i < j < |s| ==> DateLe(key(s[i]), key(s[j]))
  }

  /** `x` placed after every element of `s` whose key is not later than its own. */
  function InsertBy<T>(x: T, s: seq<T>, key: T -> string): (r: seq<T>)
    ensures |r| == |s| + 1
  {
    if s == [] then [x]
    else if DateLe(key(s[|s| - 1]), key(x)) then s + [x]
    else InsertBy(x, s[..|s| - 1], key) + [s[|s| - 1]]
  }

  function SortBy<T>(s: seq<T>, key: T -> string): (r: seq<T>)
    ensures |r| == |s|
  {
    if s == [] then [] else InsertBy(s[|s| - 1], SortBy(s[..|s| - 1], key), key)
  }

  /** Sorting one more element is inserting it into the sorted rest. */
  lemma SortBySnoc<T>(s: seq<T>, x: T, key: T -> string)
    ensures SortBy(s + [x], key) == InsertBy(x, SortBy(s, key), key)
  {
    assert (s + [x])[..|s|] == s;
  }

  lemma {:induction false} InsertByPermutes<T>(x: T, s: seq<T>, key: T -> string)
    ensures multiset(InsertBy(x, s, key)) == multiset(s) + multiset{x}
  {
    if s != [] && !DateLe(key(s[|s| - 1]), key(x)) {
      InsertByPermutes(x, s[..|s| - 1], key);
      assert s == s[..|s| - 1] + [s[|s| - 1]];
    }
  }

  /** Inserting into a sorted sequence keeps it sorted. */
  lemma {:induction false} InsertBySorted<T>(x: T, s: seq<T>, key: T -> string)
    requires SortedBy(s, key)
    ensures SortedBy(InsertBy(x, s, key), key)
  {
    if s == [] {
    } else if DateLe(key(s[|s| - 1]), key(x)) {
      var r := s + [x];
      forall i, j | 0 <= i < j < |r| ensures DateLe(key(r[i]), key(r[j])) {
        if j == |s| && i < |s| - 1 {
          DateLeTransitive(key(s[i]), key(s[|s| - 1]), key(x));
        }
      }
    } else {
      var p := s[..|s| - 1];
      var last := s[|s| - 1];
      InsertBySorted(x, p, key);
      InsertByPermutes(x, p, key);
      var q := InsertBy(x, p, key);
      var r := q + [last];
      DateLeTotal(key(last), key(x));
      forall k | 0 <= k < |q| ensures DateLe(key(q[k]), key(last)) {
        assert q[k] in multiset(q);
        assert q[k] == x || q[k] in multiset(p);
        if q[k] != x {
          var m :| 0 <= m < |p| && p[m] == q[k];
          assert s[m] == p[m];
        }
      }
      forall i, j | 0 <= i < j < |r| ensures DateLe(key(r[i]), key(r[j])) {
        if j == |q| {
          assert r[i] == q[i];
        } else {
          assert r[i] == q[i] && r[j] == q[j];
        }
      }
    }
  }

  lemma {:induction false} SortByCorrect<T>(s: seq<T>, key: T -> string)
    ensures SortedBy(SortBy(s, key), key)
    ensures multiset(SortBy(s, key)) == multiset(s)
  {
    if s != [] {
      var p := s[..|s| - 1];
      SortByCorrect(p, key);
      InsertBySorted(s[|s| - 1], SortBy(p, key), key);
      InsertByPermutes(s[|s| - 1], SortBy(p, key), key);
      assert s == p + [s[|s| - 1]];
    }
  }

  /** The last element of the sorted sequence carries the latest key of the input. */
  lemma SortByLastIsLatest<T>(s: seq<T>, key: T -> string)
    requires s != []
    ensures SortBy(s, key)[|s| - 1] in s
    ensures forall x :: x in s ==> DateLe(key(x), key(SortBy(s, key)[|s| - 1]))
  {
    var r := SortBy(s, key);
    SortByCorrect(s, key);
    assert r[|s| - 1] in multiset(r);
    forall x | x in s ensures DateLe(key(x), key(r[|s| - 1])) {
      assert x in multiset(r);
      var k :| 0 <= k < |r| && r[k] == x;
      if k < |s| - 1 {
      } else {
        DateLeReflexive(key(x));
      }
    }
  }

  /** The first element of the sorted sequence carries the earliest key of the input. */
  lemma SortByFirstIsEarliest<T>(s: seq<T>, key: T -> string)
    requires s != []
    ensures SortBy(s, key)[0] in s
    ensures forall x :: x in s ==> DateLe(key(SortBy(s, key)[0]), key(x))
  {
    var r := SortBy(s, key);
    SortByCorrect(s, key);
    assert r[0] in multiset(r);
    forall x | x in s ensures DateLe(key(r[0]), key(x)) {
      assert x in multiset(r);
      var k :| 0 <= k < |r| && r[k] == x;
      if k > 0 {
      } else {
        DateLeReflexive(key(x));
      }
    }
  }
}
