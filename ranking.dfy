/**
 * The orderings `processFile` (src/lib/fileProcessor.ts) puts the parsed
 * brokerages in: `Array.prototype.sort` with a comparator on one share,
 * largest first. The sort is stable, so records with equal shares keep
 * their input order; here it is a stable insertion sort on values, stated
 * for any element type and key.
 */
module Ranking {
  import opened Types

  /** The share a sort compares: `marketShareDollar` or `marketShareUnits`. */
  function Share(t: ShareType, b: Brokerage): real
  {
    match t
    case Dollar => b.marketShareDollar
    case Units => b.marketShareUnits
  }

  /** The comparator's key for a share type, as a function value. */
  function ShareKey(t: ShareType): Brokerage -> real
  {
    b => Share(t, b)
  }

  /** Non-increasing by the key. */
  predicate SortedDesc<T>(s: seq<T>, key: T -> real)
  {
    forall i, j :: 0 <= i < j < |s| ==> key(s[i]) >= key(s[j])
  }

  /** Every element of `s` has a key of at least `v`. */
  ghost predicate AllAtLeast<T>(s: seq<T>, key: T -> real, v: real)
  {
    forall y :: y in s ==> key(y) >= v
  }

  /** Places `x` after every element whose key is at least its own. */
  function Insert<T>(x: T, s: seq<T>, key: T -> real): (r: seq<T>)
    ensures |r| == |s| + 1
  {
    if |s| == 0 || key(s[0]) < key(x) then [x] + s
    else
      assert s == [s[0]] + s[1..];
      [s[0]] + Insert(x, s[1..], key)
  }

  lemma {:induction false} InsertPermutes<T>(x: T, s: seq<T>, key: T -> real)
    ensures multiset(Insert(x, s, key)) == multiset(s) + multiset{x}
    ensures forall y :: y in Insert(x, s, key) ==> y == x || y in s
    decreases |s|
  {
    if s != [] && key(s[0]) >= key(x) {
      InsertPermutes(x, s[1..], key);
      assert s == [s[0]] + s[1..];
    }
  }

  /** `[...s].sort((a, b) => key(b) - key(a))`: each element inserted in input order. */
  function SortDesc<T>(s: seq<T>, key: T -> real): (r: seq<T>)
    ensures |r| == |s|
  {
    if |s| == 0 then [] else Insert(s[|s| - 1], SortDesc(s[..|s| - 1], key), key)
  }

  lemma SortedTail<T>(s: seq<T>, key: T -> real)
    requires |s| > 0 && SortedDesc(s, key)
    ensures SortedDesc(s[1..], key)
  {
    forall i, j | 0 <= i < j < |s[1..]|
      ensures key(s[1..][i]) >= key(s[1..][j])
    {
      assert s[1..][i] == s[i + 1] && s[1..][j] == s[j + 1];
    }
  }

  /** The head of a sorted sequence has the largest key. */
  lemma HeadIsMax<T>(s: seq<T>, key: T -> real)
    requires |s| > 0 && SortedDesc(s, key)
    ensures forall y :: y in s ==> key(y) <= key(s[0])
    ensures forall y :: y in s[1..] ==> key(y) <= key(s[0])
  {
    forall y | y in s
      ensures key(y) <= key(s[0])
    {
      var j :| 0 <= j < |s| && s[j] == y;
    }
    forall y | y in s[1..]
      ensures key(y) <= key(s[0])
    {
      var j :| 0 <= j < |s[1..]| && s[1..][j] == y;
      assert s[j + 1] == y;
    }
  }

  /** An element with a key at least every key of a sorted sequence can go in front of it. */
  lemma SortedCons<T>(x: T, s: seq<T>, key: T -> real)
    requires SortedDesc(s, key)
    requires forall y :: y in s ==> key(y) <= key(x)
    ensures SortedDesc([x] + s, key)
  {
    var r := [x] + s;
    forall i, j | 0 <= i < j < |r|
      ensures key(r[i]) >= key(r[j])
    {
      assert r[j] == s[j - 1];
      if i > 0 {
        assert r[i] == s[i - 1];
      } else {
        assert s[j - 1] in s;
      }
    }
  }

  /** Inserting into a sorted sequence keeps it sorted. */
  lemma {:induction false} InsertSorted<T>(x: T, s: seq<T>, key: T -> real)
    requires SortedDesc(s, key)
    ensures SortedDesc(Insert(x, s, key), key)
    decreases |s|
  {
    if |s| == 0 || key(s[0]) < key(x) {
      if |s| > 0 {
        HeadIsMax(s, key);
      }
      SortedCons(x, s, key);
      assert Insert(x, s, key) == [x] + s;
    } else {
      var rest := Insert(x, s[1..], key);
      SortedTail(s, key);
      HeadIsMax(s, key);
      InsertSorted(x, s[1..], key);
      InsertPermutes(x, s[1..], key);
      forall y | y in rest
        ensures key(y) <= key(s[0])
      {
        assert y == x || y in s[1..];
      }
      SortedCons(s[0], rest, key);
      assert Insert(x, s, key) == [s[0]] + rest;
    }
  }

  /** The sort orders by the share, largest first. */
  lemma {:induction false} SortDescSorted<T>(s: seq<T>, key: T -> real)
    ensures SortedDesc(SortDesc(s, key), key)
    decreases |s|
  {
    if s != [] {
      SortDescSorted(s[..|s| - 1], key);
      InsertSorted(s[|s| - 1], SortDesc(s[..|s| - 1], key), key);
    }
  }

  /** The sort neither loses nor adds a record. */
  lemma {:induction false} SortDescPermutes<T>(s: seq<T>, key: T -> real)
    ensures multiset(SortDesc(s, key)) == multiset(s)
    decreases |s|
  {
    if s != [] {
      SortDescPermutes(s[..|s| - 1], key);
      InsertPermutes(s[|s| - 1], SortDesc(s[..|s| - 1], key), key);
      assert s == s[..|s| - 1] + [s[|s| - 1]];
    }
  }

  /** The records of `s` whose share is exactly `v`, in order. */
  function WithShare<T>(s: seq<T>, key: T -> real, v: real): (r: seq<T>)
    ensures |r| <= |s|
  {
    if s == [] then []
    else (if key(s[0]) == v then [s[0]] else []) + WithShare(s[1..], key, v)
  }

  lemma {:induction false} WithShareAppend<T>(a: seq<T>, b: seq<T>, key: T -> real, v: real)
    ensures WithShare(a + b, key, v) == WithShare(a, key, v) + WithShare(b, key, v)
    decreases |a|
  {
    if a == [] {
      assert a + b == b;
    } else {
      var h := if key(a[0]) == v then [a[0]] else [];
      assert (a + b)[0] == a[0];
      assert (a + b)[1..] == a[1..] + b;
      WithShareAppend(a[1..], b, key, v);
      assert WithShare(a + b, key, v) == h + (WithShare(a[1..], key, v) + WithShare(b, key, v));
    }
  }

  lemma {:induction false} WithShareNone<T>(s: seq<T>, key: T -> real, v: real)
    requires forall y :: y in s ==> key(y) < v
    ensures WithShare(s, key, v) == []
    decreases |s|
  {
    if s != [] {
      assert s[0] in s;
      assert forall y :: y in s[1..] ==> y in s;
      WithShareNone(s[1..], key, v);
    }
  }

  lemma WithShareCons<T>(y: T, s: seq<T>, key: T -> real, v: real)
    ensures WithShare([y] + s, key, v) == (if key(y) == v then [y] else []) + WithShare(s, key, v)
  {
    assert ([y] + s)[0] == y && ([y] + s)[1..] == s;
  }

  /** Inserting in front of smaller keys puts `x` after every record with its key (there are none). */
  lemma InsertFrontWithShare<T>(x: T, s: seq<T>, key: T -> real, v: real)
    requires forall y :: y in s ==> key(y) < key(x)
    ensures WithShare([x] + s, key, v) == WithShare(s, key, v) + (if key(x) == v then [x] else [])
  {
    WithShareCons(x, s, key, v);
    if key(x) == v {
      WithShareNone(s, key, v);
      assert [x] + [] == [] + [x];
    } else {
      assert [] + WithShare(s, key, v) == WithShare(s, key, v) + [];
    }
  }

  /** Inserting into a sorted sequence puts `x` after every record with the same key. */
  lemma {:induction false} InsertWithShare<T>(x: T, s: seq<T>, key: T -> real, v: real)
    requires SortedDesc(s, key)
    ensures WithShare(Insert(x, s, key), key, v) == WithShare(s, key, v) + (if key(x) == v then [x] else [])
    decreases |s|
  {
    if |s| == 0 || key(s[0]) < key(x) {
      if |s| > 0 {
        HeadIsMax(s, key);
      }
      assert Insert(x, s, key) == [x] + s;
      InsertFrontWithShare(x, s, key, v);
    } else {
      SortedTail(s, key);
      InsertWithShare(x, s[1..], key, v);
      var rest := Insert(x, s[1..], key);
      var h := if key(s[0]) == v then [s[0]] else [];
      var e := if key(x) == v then [x] else [];
      assert Insert(x, s, key) == [s[0]] + rest;
      WithShareCons(s[0], rest, key, v);
      WithShareCons(s[0], s[1..], key, v);
      assert [s[0]] + s[1..] == s;
      ConcatAssoc(h, WithShare(s[1..], key, v), e);
    }
  }

  lemma ConcatAssoc<T>(a: seq<T>, b: seq<T>, c: seq<T>)
    ensures a + (b + c) == (a + b) + c
  {
  }

  /**
   * The sort is stable: for every share value, the records with that share
   * come out in the order they went in.
   */
  lemma {:induction false} SortDescStable<T>(s: seq<T>, key: T -> real, v: real)
    ensures WithShare(SortDesc(s, key), key, v) == WithShare(s, key, v)
    decreases |s|
  {
    if s != [] {
      var init, last := s[..|s| - 1], s[|s| - 1];
      SortDescStable(init, key, v);
      SortDescSorted(init, key);
      InsertWithShare(last, SortDesc(init, key), key, v);
      assert s == init + [last];
      WithShareAppend(init, [last], key, v);
      assert [last][1..] == [];
    }
  }

  lemma {:induction false} InsertAtEnd<T>(x: T, s: seq<T>, key: T -> real)
    requires AllAtLeast(s, key, key(x))
    ensures Insert(x, s, key) == s + [x]
    decreases |s|
  {
    if s != [] {
      assert s[0] in s;
      assert forall y :: y in s[1..] ==> y in s;
      InsertAtEnd(x, s[1..], key);
      assert s == [s[0]] + s[1..];
    }
  }

  /** Sorting a sequence that is already in order changes nothing. */
  lemma {:induction false} SortSortedIsIdentity<T>(s: seq<T>, key: T -> real)
    requires SortedDesc(s, key)
    ensures SortDesc(s, key) == s
    decreases |s|
  {
    if s != [] {
      var init, last := s[..|s| - 1], s[|s| - 1];
      assert SortedDesc(init, key);
      SortSortedIsIdentity(init, key);
      forall y | y in init
        ensures key(y) >= key(last)
      {
        var j :| 0 <= j < |init| && init[j] == y;
      }
      InsertAtEnd(last, init, key);
    }
  }

  /** The first record after the sort has the largest share of all. */
  lemma SortDescHeadIsMax<T>(s: seq<T>, key: T -> real)
    requires s != []
    ensures SortDesc(s, key)[0] in s
    ensures forall y :: y in s ==> key(SortDesc(s, key)[0]) >= key(y)
  {
    var r := SortDesc(s, key);
    SortDescSorted(s, key);
    SortDescPermutes(s, key);
    assert r[0] in multiset(r);
    forall y | y in s
      ensures key(r[0]) >= key(y)
    {
      assert y in multiset(r);
      var j :| 0 <= j < |r| && r[j] == y;
    }
  }

  /**
   * Among the records with the largest share, the sort puts first the one
   * that came first: its head is the first record with the head's share.
   */
  lemma SortDescHeadIsFirstOfItsShare<T>(s: seq<T>, key: T -> real)
    requires |s| > 0
    ensures var r := SortDesc(s, key);
      WithShare(s, key, key(r[0])) != [] && WithShare(s, key, key(r[0]))[0] == r[0]
  {
    var r := SortDesc(s, key);
    SortDescStable(s, key, key(r[0]));
    WithShareCons(r[0], r[1..], key, key(r[0]));
    assert [r[0]] + r[1..] == r;
  }

  /** The position of the first element with the largest key: an independent description of the sort's head. */
  function FirstMax<T>(s: seq<T>, key: T -> real): (i: nat)
    requires |s| > 0
    ensures i < |s|
    ensures forall j :: 0 <= j < |s| ==> key(s[j]) <= key(s[i])
    ensures forall j :: 0 <= j < i ==> key(s[j]) < key(s[i])
  {
    if |s| == 1 then 0
    else
      var k := FirstMax(s[..|s| - 1], key);
      assert forall j :: 0 <= j < |s| - 1 ==> s[..|s| - 1][j] == s[j];
      if key(s[|s| - 1]) > key(s[k]) then |s| - 1 else k
  }

  /** The first element of `WithShare(s, key, v)` is the first element of `s` whose key is `v`. */
  lemma {:induction false} WithShareFirst<T>(s: seq<T>, key: T -> real, i: nat)
    requires i < |s|
    requires forall j :: 0 <= j < i ==> key(s[j]) != key(s[i])
    ensures WithShare(s, key, key(s[i])) != [] && WithShare(s, key, key(s[i]))[0] == s[i]
    decreases i
  {
    if i > 0 {
      WithShareFirst(s[1..], key, i - 1);
    }
  }

  /** Sorting puts first the earliest element among those with the largest key. */
  lemma SortDescHeadIsFirstMax<T>(s: seq<T>, key: T -> real)
    requires |s| > 0
    ensures SortDesc(s, key)[0] == s[FirstMax(s, key)]
  {
    var r := SortDesc(s, key);
    var k := FirstMax(s, key);
    SortDescHeadIsMax(s, key);
    assert key(r[0]) == key(s[k]);
    SortDescHeadIsFirstOfItsShare(s, key);
    WithShareFirst(s, key, k);
  }

  /** `brokerages.forEach((b, i) => { b.rank = i + 1; })`, as values. */
  function Ranked(s: seq<Brokerage>): (r: seq<Brokerage>)
    ensures |r| == |s|
    ensures forall i :: 0 <= i < |s| ==> r[i].rank == (i + 1) as real
    ensures forall i :: 0 <= i < |s| ==> r[i] == s[i].(rank := r[i].rank)
  {
    seq(|s|, i requires 0 <= i < |s| => s[i].(rank := (i + 1) as real))
  }

  /** Re-ranking leaves the shares, hence the order, as they were. */
  lemma RankedKeepsOrder(s: seq<Brokerage>, t: ShareType)
    requires SortedDesc(s, ShareKey(t))
    ensures SortedDesc(Ranked(s), ShareKey(t))
    ensures forall i :: 0 <= i < |s| ==> Share(t, Ranked(s)[i]) == Share(t, s[i])
  {
  }

  /** The `forEach` that numbers the sorted records 1, 2, …, N in place. */
  method ReassignRanks(a: array<Brokerage>)
    modifies a
    ensures a[..] == Ranked(old(a[..]))
  {
    for i := 0 to a.Length
      invariant forall k :: 0 <= k < i ==> a[k] == old(a[k]).(rank := (k + 1) as real)
      invariant forall k :: i <= k < a.Length ==> a[k] == old(a[k])
    {
      a[i] := a[i].(rank := (i + 1) as real);
    }
  }
}
