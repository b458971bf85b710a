/** Sequence helpers standing for the SQL filters and counts the server runs over its tables. */
module Seqs {
  import opened Types

  /** The elements of `s` that satisfy `p`, in order: a SELECT ... WHERE over a table. */
  function Filter<T(==,!new)>(s: seq<T>, p: T -> bool): (r: seq<T>)
    ensures |r| <= |s|
    ensures forall x :: x in r <==> x in s && p(x)
    decreases |s|
  {
    if s == [] then []
    else
      assert s == s[..|s| - 1] + [s[|s| - 1]];
      var init := Filter(s[..|s| - 1], p);
      if p(s[|s| - 1]) then init + [s[|s| - 1]] else init
  }

  /** Appending a row extends the filtered view by that row exactly when it matches. */
  lemma FilterAppend<T(!new)>(s: seq<T>, x: T, p: T -> bool)
    ensures Filter(s + [x], p) == if p(x) then Filter(s, p) + [x] else Filter(s, p)
  {
    assert (s + [x])[..|s|] == s;
  }

  /** A stricter condition never selects more rows. */
  lemma {:induction false} FilterStricter<T(!new)>(s: seq<T>, p: T -> bool, q: T -> bool)
    requires forall x :: x in s && p(x) ==> q(x)
    ensures |Filter(s, p)| <= |Filter(s, q)|
    decreases |s|
  {
    if s != [] {
      var n := |s| - 1;
      assert s == s[..n] + [s[n]];
      FilterStricter(s[..n], p, q);
    }
  }

  /** Two conditions that agree on every element select the same rows. */
  lemma {:induction false} FilterAgree<T(!new)>(s: seq<T>, p: T -> bool, q: T -> bool)
    requires forall x :: x in s ==> p(x) == q(x)
    ensures Filter(s, p) == Filter(s, q)
    decreases |s|
  {
    if s != [] {
      var n := |s| - 1;
      assert s == s[..n] + [s[n]];
      FilterAgree(s[..n], p, q);
    }
  }

  /** No two positions of `s` hold the same key: a PRIMARY KEY or UNIQUE column. */
  predicate UniqueKeys<T>(s: seq<T>, key: T -> string)
  {
    forall i, j :: 0 <= i < j < |s| ==> key(s[i]) != key(s[j])
  }

  /** The keys present in `s`. */
  function Keys<T(==,!new)>(s: seq<T>, key: T -> string): set<string>
  {
    set x | x in s :: key(x)
  }

  /** In a sequence with unique keys, two elements with the same key are the same element. */
  lemma {:induction false} UniqueKeysAgree<T>(s: seq<T>, key: T -> string, x: T, y: T)
    requires UniqueKeys(s, key) && x in s && y in s && key(x) == key(y)
    ensures x == y
  {
    var i :| 0 <= i < |s| && s[i] == x;
    var j :| 0 <= j < |s| && s[j] == y;
    assert i == j;
  }

  /** Appending an element with a fresh key keeps the keys unique. */
  lemma UniqueKeysAppend<T(!new)>(s: seq<T>, key: T -> string, x: T)
    requires UniqueKeys(s, key) && key(x) !in Keys(s, key)
    ensures UniqueKeys(s + [x], key)
  {
    forall i, j | 0 <= i < j < |s| + 1
      ensures key((s + [x])[i]) != key((s + [x])[j])
    {
      if j == |s| {
        assert (s + [x])[i] == s[i];
        assert key(s[i]) in Keys(s, key);
      }
    }
  }

  /** Selecting rows of a table keeps its key column unique. */
  lemma {:induction false} FilterUniqueKeys<T(!new)>(s: seq<T>, p: T -> bool, key: T -> string)
    requires UniqueKeys(s, key)
    ensures UniqueKeys(Filter(s, p), key)
    decreases |s|
  {
    if s != [] {
      var n := |s| - 1;
      var init := s[..n];
      assert s == init + [s[n]];
      assert UniqueKeys(init, key) by {
        forall i, j | 0 <= i < j < |init| ensures key(init[i]) != key(init[j]) {
          assert init[i] == s[i] && init[j] == s[j];
        }
      }
      FilterUniqueKeys(init, p, key);
      if p(s[n]) {
        var f := Filter(init, p);
        forall x | x in f ensures key(x) != key(s[n]) {
          var i :| 0 <= i < |init| && init[i] == x;
          assert s[i] == x;
        }
        UniqueKeysAppend(f, key, s[n]);
      }
    }
  }

  /** No value occurs twice in `s`. */
  predicate NoDuplicates<T(==)>(s: seq<T>)
  {
    forall i, j :: 0 <= i < j < |s| ==> s[i] != s[j]
  }

  /** The first element of `s` whose key is `k`: `db.get` on `SELECT ... WHERE key = ?`. */
  function Lookup<T(!new)>(s: seq<T>, key: T -> string, k: string): (r: Option<T>)
    ensures r.Some? ==> r.value in s && key(r.value) == k
    ensures r.None? <==> forall x :: x in s ==> key(x) != k
  {
    if s == [] then None
    else if key(s[0]) == k then Some(s[0])
    else
      assert forall x :: x in s ==> x == s[0] || x in s[1..];
      Lookup(s[1..], key, k)
  }

  /** With unique keys the first match is the only one: the lookup finds exactly that element. */
  lemma {:induction false} LookupUnique<T(!new)>(s: seq<T>, key: T -> string, x: T)
    requires UniqueKeys(s, key) && x in s
    ensures Lookup(s, key, key(x)) == Some(x)
  {
    if s[0] != x {
      assert x in s[1..];
      assert key(s[0]) != key(x) by {
        var j :| 0 <= j < |s| && s[j] == x;
        assert j > 0;
      }
      LookupUnique(s[1..], key, x);
    }
  }

  /** An element appended with a key no earlier element has is what the lookup of that key finds. */
  lemma {:induction false} LookupAppend<T(!new)>(s: seq<T>, key: T -> string, x: T)
    requires forall y :: y in s ==> key(y) != key(x)
    ensures Lookup(s + [x], key, key(x)) == Some(x)
  {
    if s != [] {
      assert (s + [x])[1..] == s[1..] + [x];
      LookupAppend(s[1..], key, x);
    }
  }
}
