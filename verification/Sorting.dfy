/** The stable sort by key that puts branch results back into frontier order. */
module Sorting {
  import opened Values

  function Insert<T>(x: T, s: seq<T>, key: T -> int): (r: seq<T>)
    ensures multiset(r) == multiset([x] + s)
  {
    if s == [] || key(x) <= key(s[0]) then [x] + s
    else
      assert [x] + s == [x] + [s[0]] + s[1..];
      [s[0]] + Insert(x, s[1..], key)
  }

  function SortByKey<T>(s: seq<T>, key: T -> int): (r: seq<T>)
    ensures multiset(r) == multiset(s) && |r| == |s|
  {
    if s == [] then []
    else
      assert s == [s[0]] + s[1..];
      var r := Insert(s[0], SortByKey(s[1..], key), key);
      assert |r| == |multiset(r)|;
      r
  }

  ghost predicate SortedByKey<T>(s: seq<T>, key: T -> int) {
    forall i, j :: 0 <= i < j < |s| ==> key(s[i]) <= key(s[j])
  }

  lemma {:induction false} InsertSorted<T>(x: T, s: seq<T>, key: T -> int)
    requires SortedByKey(s, key)
    ensures SortedByKey(Insert(x, s, key), key)
  {
    if s != [] && key(x) > key(s[0]) {
      InsertSorted(x, s[1..], key);
      var r := Insert(x, s[1..], key);
      forall i | 0 <= i < |r| ensures key(s[0]) <= key(r[i]) {
        assert r[i] in multiset(r);
        assert r[i] in multiset([x] + s[1..]);
      }
    }
  }

  lemma {:induction false} SortSorts<T>(s: seq<T>, key: T -> int)
    ensures SortedByKey(SortByKey(s, key), key)
  {
    if s != [] {
      SortSorts(s[1..], key);
      InsertSorted(s[0], SortByKey(s[1..], key), key);
    }
  }

  ghost predicate InjectiveOn<T(!new)>(m: multiset<T>, key: T -> int) {
    forall x, y :: x in m && y in m && key(x) == key(y) ==> x == y
  }

  lemma SameHead<T(!new)>(a: seq<T>, b: seq<T>, key: T -> int)
    requires a != [] && b != [] && multiset(a) == multiset(b) && InjectiveOn(multiset(a), key)
    requires SortedByKey(a, key) && SortedByKey(b, key)
    ensures a[0] == b[0]
  {
    assert a[0] in multiset(a) && b[0] in multiset(b);
    assert a[0] in multiset(b) && b[0] in multiset(a);
    var i :| 0 <= i < |b| && b[i] == a[0];
    var j :| 0 <= j < |a| && a[j] == b[0];
    assert key(a[0]) <= key(a[j]) && key(b[0]) <= key(b[i]);
  }

  lemma SortedTail<T(!new)>(a: seq<T>, key: T -> int)
    requires a != [] && InjectiveOn(multiset(a), key) && SortedByKey(a, key)
    ensures multiset(a[1..]) == multiset(a) - multiset{a[0]}
    ensures InjectiveOn(multiset(a[1..]), key) && SortedByKey(a[1..], key)
  {
    assert a == [a[0]] + a[1..];
    assert forall x :: x in multiset(a[1..]) ==> x in multiset(a);
  }

  lemma HeadTail<T>(a: seq<T>, b: seq<T>)
    requires a != [] && b != [] && a[0] == b[0] && a[1..] == b[1..]
    ensures a == b
  {
    assert a == [a[0]] + a[1..] && b == [b[0]] + b[1..];
  }

  /** Sorted rearrangements under an injective key are equal. */
  lemma {:induction false} SortedUnique<T(!new)>(a: seq<T>, b: seq<T>, key: T -> int)
    requires multiset(a) == multiset(b) && InjectiveOn(multiset(a), key)
    requires SortedByKey(a, key) && SortedByKey(b, key)
    ensures a == b
    decreases |a|
  {
    assert InjectiveOn(multiset(b), key);
    assert |a| == |multiset(a)| == |multiset(b)| == |b|;
    if a != [] {
      SameHead(a, b, key);
      SortedTail(a, key);
      SortedTail(b, key);
      SortedUnique(a[1..], b[1..], key);
      HeadTail(a, b);
    }
  }

  /** Whatever order elements arrive in, sorting them gives one result. */
  lemma SortPermutation<T(!new)>(a: seq<T>, b: seq<T>, key: T -> int)
    requires multiset(a) == multiset(b) && InjectiveOn(multiset(a), key)
    ensures SortByKey(a, key) == SortByKey(b, key)
  {
    SortSorts(a, key);
    SortSorts(b, key);
    SortedUnique(SortByKey(a, key), SortByKey(b, key), key);
  }

  lemma SortedIsSorted<T(!new)>(s: seq<T>, key: T -> int)
    requires SortedByKey(s, key) && InjectiveOn(multiset(s), key)
    ensures SortByKey(s, key) == s
  {
    SortSorts(s, key);
    SortedUnique(SortByKey(s, key), s, key);
  }

  // ---- Selecting by a permutation of the positions ------------------------------

  function Pick<T>(all: seq<T>, positions: seq<nat>): (r: seq<T>)
    requires forall i :: 0 <= i < |positions| ==> positions[i] < |all|
    ensures |r| == |positions| && forall i :: 0 <= i < |r| ==> r[i] == all[positions[i]]
  {
    seq(|positions|, i requires 0 <= i < |positions| => all[positions[i]])
  }

  /** Distinct positions that exhaust a sequence select a permutation of it. */
  lemma {:induction false} PickPermutes<T>(all: seq<T>, positions: seq<nat>)
    requires NoDup(positions) && |positions| == |all|
    requires forall i :: 0 <= i < |positions| ==> positions[i] < |all|
    ensures multiset(Pick(all, positions)) == multiset(all)
    decreases |all|
  {
    if all == [] {
      assert Pick(all, positions) == all;
    } else {
      var n := |all| - 1;
      var k := Pigeonhole(positions, |all|, n);
      var rest := positions[..k] + positions[k + 1..];
      forall i | 0 <= i < |rest| ensures rest[i] < n {
        assert rest[i] == positions[if i < k then i else i + 1];
      }
      forall i, j | 0 <= i < j < |rest| ensures rest[i] != rest[j] {
        assert rest[i] == positions[if i < k then i else i + 1];
        assert rest[j] == positions[if j < k then j else j + 1];
      }
      PickPermutes(all[..n], rest);
      PickSplit(all, positions, k);
      assert all == all[..n] + [all[n]];
    }
  }

  lemma PickSplit<T>(all: seq<T>, positions: seq<nat>, k: nat)
    requires |all| > 0 && k < |positions| && positions[k] == |all| - 1
    requires forall i :: 0 <= i < |positions| ==> positions[i] < |all|
    requires forall i :: 0 <= i < |positions| && i != k ==> positions[i] < |all| - 1
    ensures var rest := positions[..k] + positions[k + 1..];
      && (forall i :: 0 <= i < |rest| ==> rest[i] < |all| - 1)
      && multiset(Pick(all, positions)) == multiset(Pick(all[..|all| - 1], rest)) + multiset{all[|all| - 1]}
  {
    var rest := positions[..k] + positions[k + 1..];
    forall i | 0 <= i < |rest| ensures rest[i] < |all| - 1 {
      assert rest[i] == positions[if i < k then i else i + 1];
    }
    var p, q := Pick(all, positions), Pick(all[..|all| - 1], rest);
    assert p == q[..k] + [all[|all| - 1]] + q[k..];
    assert q == q[..k] + q[k..];
  }

  /** Distinct numbers below their count include every number below it. */
  lemma Pigeonhole(positions: seq<nat>, n: nat, x: nat) returns (k: nat)
    requires NoDup(positions) && |positions| == n && x < n
    requires forall i :: 0 <= i < n ==> positions[i] < n
    ensures k < n && positions[k] == x
  {
    var hit := set i | 0 <= i < n :: positions[i];
    HitCount(positions, n);
    SubsetEqual(hit, Range(n));
    assert x in Range(n);
    k :| 0 <= k < n && positions[k] == x;
  }

  lemma {:induction false} HitCount(positions: seq<nat>, n: nat)
    requires NoDup(positions) && n <= |positions|
    ensures |set i | 0 <= i < n :: positions[i]| == n
  {
    var hit := set i | 0 <= i < n :: positions[i];
    if n > 0 {
      HitCount(positions, n - 1);
      var before := set i | 0 <= i < n - 1 :: positions[i];
      assert hit == before + {positions[n - 1]};
      assert positions[n - 1] !in before;
    } else {
      assert hit == {};
    }
  }

  function Range(n: nat): (r: set<nat>)
    ensures |r| == n && forall x: nat :: x in r <==> x < n
  {
    if n == 0 then {} else Range(n - 1) + {n - 1}
  }

  lemma SubsetEqual<T>(a: set<T>, b: set<T>)
    requires a <= b && |a| >= |b|
    ensures a == b
  {
    assert b == a + (b - a);
    assert |a + (b - a)| == |a| + |b - a|;
    assert b - a == {};
  }

  // ---- Duplicate-free sequences ---------------------------------------------------

  lemma {:induction false} NoDupSize<T>(s: seq<T>)
    requires NoDup(s)
    ensures |set x | x in s| == |s|
  {
    var all := set x | x in s;
    if s == [] {
      assert all == {};
    } else {
      var n := |s| - 1;
      NoDupSize(s[..n]);
      assert s == s[..n] + [s[n]];
      assert all == (set x | x in s[..n]) + {s[n]};
      assert s[n] !in (set x | x in s[..n]);
    }
  }
}
