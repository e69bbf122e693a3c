/** Sequence queries the ORM performs for the core: `where` (Filter),
    `orderBy(desc(createdAt))` over rows kept in insertion order (Reverse) and
    `limit` (Take). */
module Seqs {

  function Filter<T>(s: seq<T>, keep: T -> bool): (r: seq<T>)
    ensures |r| <= |s|
    ensures forall i :: 0 <= i < |r| ==> keep(r[i]) && r[i] in s
    ensures forall i :: 0 <= i < |s| && keep(s[i]) ==> s[i] in r
  {
    if s == [] then []
    else if keep(s[|s| - 1]) then Filter(s[..|s| - 1], keep) + [s[|s| - 1]]
    else Filter(s[..|s| - 1], keep)
  }

  function Reverse<T>(s: seq<T>): (r: seq<T>)
    ensures |r| == |s|
    ensures forall i :: 0 <= i < |s| ==> r[i] == s[|s| - 1 - i]
  {
    if s == [] then [] else [s[|s| - 1]] + Reverse(s[..|s| - 1])
  }

  /** `limit(n)`: the first n elements, or all of them. */
  function Take<T>(s: seq<T>, n: nat): (r: seq<T>)
    ensures |r| == if n < |s| then n else |s|
    ensures r == s[..|r|]
  {
    if n < |s| then s[..n] else s
  }

  function Count<T>(s: seq<T>, keep: T -> bool): nat {
    |Filter(s, keep)|
  }

  /** Keys strictly increase along the sequence. */
  ghost predicate Increasing<T>(s: seq<T>, key: T -> int) {
    forall i, j :: 0 <= i < j < |s| ==> key(s[i]) < key(s[j])
  }

  ghost predicate Decreasing<T>(s: seq<T>, key: T -> int) {
    forall i, j :: 0 <= i < j < |s| ==> key(s[i]) > key(s[j])
  }

  /** Filtering keeps the order of what it keeps. */
  lemma {:induction false} FilterIncreasing<T>(s: seq<T>, keep: T -> bool, key: T -> int)
    requires Increasing(s, key)
    ensures Increasing(Filter(s, keep), key)
    decreases |s|
  {
    if s != [] {
      var init := s[..|s| - 1];
      assert Increasing(init, key);
      FilterIncreasing(init, keep, key);
      var f := Filter(init, keep);
      forall i | 0 <= i < |f| ensures key(f[i]) < key(s[|s| - 1]) {
        var k :| 0 <= k < |init| && init[k] == f[i];
      }
    }
  }

  lemma ReverseDecreasing<T>(s: seq<T>, key: T -> int)
    requires Increasing(s, key)
    ensures Decreasing(Reverse(s), key)
  {
  }

  lemma TakeDecreasing<T>(s: seq<T>, n: nat, key: T -> int)
    requires Decreasing(s, key)
    ensures Decreasing(Take(s, n), key)
  {
  }

  /** Newest first: the kept rows in reverse insertion order, at most n of them.
      Its i-th element is the i-th kept row counted from the end; it misses
      no kept row when it is shorter than n. */
  function NewestFirst<T>(s: seq<T>, keep: T -> bool, n: nat): (r: seq<T>)
    ensures |r| == if n < Count(s, keep) then n else Count(s, keep)
    ensures forall i :: 0 <= i < |r| ==> r[i] == Filter(s, keep)[Count(s, keep) - 1 - i]
    ensures forall i :: 0 <= i < |r| ==> keep(r[i]) && r[i] in s
    ensures |r| < n ==> forall i :: 0 <= i < |s| && keep(s[i]) ==> s[i] in r
  {
    var f := Filter(s, keep);
    TakeReversed(f, n);
    Take(Reverse(f), n)
  }

  /** The first n of a reversed sequence are its last n, from the end. */
  lemma TakeReversed<T>(f: seq<T>, n: nat)
    ensures var r := Take(Reverse(f), n);
      && (forall i :: 0 <= i < |r| ==> r[i] == f[|f| - 1 - i])
      && (|r| < n ==> forall x :: x in f ==> x in r)
  {
    var rev := Reverse(f);
    forall x | x in f ensures x in rev {
      var k :| 0 <= k < |f| && f[k] == x;
      assert rev[|f| - 1 - k] == x;
    }
  }

  lemma NewestFirstDecreasing<T>(s: seq<T>, keep: T -> bool, n: nat, key: T -> int)
    requires Increasing(s, key)
    ensures Decreasing(NewestFirst(s, keep, n), key)
  {
    FilterIncreasing(s, keep, key);
    ReverseDecreasing(Filter(s, keep), key);
    TakeDecreasing(Reverse(Filter(s, keep)), n, key);
  }

  /** When keys increase along the table (so rows are distinct), a kept row
      that made it into the newest n is followed by every later kept row:
      what is cut is always the oldest. */
  lemma NewestFirstKeepsNewest<T>(s: seq<T>, keep: T -> bool, n: nat, key: T -> int)
    requires Increasing(s, key)
    ensures var r := NewestFirst(s, keep, n);
      forall i, j :: 0 <= i < j < |s| && keep(s[i]) && keep(s[j]) && s[i] in r ==> s[j] in r
  {
    var r := NewestFirst(s, keep, n);
    var f := Filter(s, keep);
    FilterIncreasing(s, keep, key);
    forall i, j | 0 <= i < j < |s| && keep(s[i]) && keep(s[j]) && s[i] in r ensures s[j] in r {
      LaterKept(f, r, key, s[i], s[j]);
    }
  }

  /** In the last elements of an increasing sequence, taken from the end, a
      member is followed by every element with a larger key. */
  lemma LaterKept<T>(f: seq<T>, r: seq<T>, key: T -> int, x: T, y: T)
    requires Increasing(f, key) && |r| <= |f|
    requires forall i :: 0 <= i < |r| ==> r[i] == f[|f| - 1 - i]
    requires x in r && y in f && key(x) < key(y)
    ensures y in r
  {
    var k :| 0 <= k < |r| && r[k] == x;
    var p :| 0 <= p < |f| && f[p] == y;
    assert f[|f| - 1 - k] == x;
    assert p > |f| - 1 - k;
    assert r[|f| - 1 - p] == y;
  }

  /** Filtering a concatenation filters each part. */
  lemma {:induction false} FilterAppend<T>(a: seq<T>, b: seq<T>, keep: T -> bool)
    ensures Filter(a + b, keep) == Filter(a, keep) + Filter(b, keep)
    decreases |b|
  {
    if b == [] {
      assert a + b == a;
    } else {
      var init := b[..|b| - 1];
      assert (a + b)[..|a + b| - 1] == a + init;
      assert (a + b)[|a + b| - 1] == b[|b| - 1];
      FilterAppend(a, init, keep);
    }
  }

  lemma {:induction false} FilterNone<T>(s: seq<T>, keep: T -> bool)
    requires forall i :: 0 <= i < |s| ==> !keep(s[i])
    ensures Filter(s, keep) == []
    decreases |s|
  {
    if s != [] {
      FilterNone(s[..|s| - 1], keep);
    }
  }

  lemma {:induction false} FilterAll<T>(s: seq<T>, keep: T -> bool)
    requires forall i :: 0 <= i < |s| ==> keep(s[i])
    ensures Filter(s, keep) == s
    decreases |s|
  {
    if s != [] {
      FilterAll(s[..|s| - 1], keep);
      assert s[..|s| - 1] + [s[|s| - 1]] == s;
    }
  }

  // ---- orderBy on a key that may repeat ----------------------------------

  ghost predicate NonDecreasing<T>(s: seq<T>, key: T -> int) {
    forall i, j :: 0 <= i < j < |s| ==> key(s[i]) <= key(s[j])
  }

  /** Inserts `x` before the first element whose key is not below its own. */
  function InsertBy<T>(x: T, s: seq<T>, key: T -> int): (r: seq<T>)
    ensures multiset(r) == multiset{x} + multiset(s)
  {
    if s == [] then [x]
    else if key(x) <= key(s[0]) then [x] + s
    else
      assert s == [s[0]] + s[1..];
      [s[0]] + InsertBy(x, s[1..], key)
  }

  /** `orderBy(key)`, as a stable insertion sort; it rearranges, and neither
      adds nor drops, the rows. */
  function SortBy<T>(s: seq<T>, key: T -> int): (r: seq<T>)
    ensures multiset(r) == multiset(s)
  {
    if s == [] then []
    else
      assert s == [s[0]] + s[1..];
      InsertBy(s[0], SortBy(s[1..], key), key)
  }

  lemma {:induction false} InsertBySorted<T>(x: T, s: seq<T>, key: T -> int)
    requires NonDecreasing(s, key)
    ensures NonDecreasing(InsertBy(x, s, key), key)
    decreases |s|
  {
    if s != [] && key(x) > key(s[0]) {
      var rest := InsertBy(x, s[1..], key);
      InsertBySorted(x, s[1..], key);
      forall k | 0 <= k < |rest| ensures key(s[0]) <= key(rest[k]) {
        assert rest[k] in multiset(rest);
        if rest[k] != x {
          assert rest[k] in multiset(s[1..]);
          var m :| 0 <= m < |s[1..]| && s[1..][m] == rest[k];
          assert s[m + 1] == rest[k];
        }
      }
      var r := InsertBy(x, s, key);
      forall i, j | 0 <= i < j < |r| ensures key(r[i]) <= key(r[j]) {
        if i > 0 {
          assert r[i] == rest[i - 1] && r[j] == rest[j - 1];
        } else {
          assert r[j] == rest[j - 1];
        }
      }
    }
  }

  lemma {:induction false} SortBySorted<T>(s: seq<T>, key: T -> int)
    ensures NonDecreasing(SortBy(s, key), key)
    decreases |s|
  {
    if s != [] {
      SortBySorted(s[1..], key);
      InsertBySorted(s[0], SortBy(s[1..], key), key);
    }
  }

  /** Rows already in key order come back as they are. */
  lemma {:induction false} SortBySortedIsIdentity<T>(s: seq<T>, key: T -> int)
    requires NonDecreasing(s, key)
    ensures SortBy(s, key) == s
    decreases |s|
  {
    if s != [] {
      assert NonDecreasing(s[1..], key);
      SortBySortedIsIdentity(s[1..], key);
      assert s == [s[0]] + s[1..];
    }
  }
}
