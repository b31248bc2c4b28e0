/** Transitive closure by an in-place triple loop, and what it computes. */
module Closure {

  /** A non-empty walk along edges. */
  ghost predicate IsPath(adj: set<(nat, nat)>, p: seq<nat>) {
    |p| >= 2 && forall k :: 0 <= k < |p| - 1 ==> (p[k], p[k + 1]) in adj
  }

  ghost predicate Joins(p: seq<nat>, i: nat, j: nat) {
    |p| >= 2 && p[0] == i && p[|p| - 1] == j
  }

  /** There is a non-empty path from `i` to `j`. */
  ghost predicate Reaches(adj: set<(nat, nat)>, i: nat, j: nat) {
    exists p :: IsPath(adj, p) && Joins(p, i, j)
  }

  lemma EdgeReaches(adj: set<(nat, nat)>, i: nat, j: nat)
    requires (i, j) in adj
    ensures Reaches(adj, i, j)
  {
    assert IsPath(adj, [i, j]) && Joins([i, j], i, j);
  }

  lemma ReachesTransitive(adj: set<(nat, nat)>, i: nat, k: nat, j: nat)
    requires Reaches(adj, i, k) && Reaches(adj, k, j)
    ensures Reaches(adj, i, j)
  {
    var p :| IsPath(adj, p) && Joins(p, i, k);
    var q :| IsPath(adj, q) && Joins(q, k, j);
    var r := p + q[1..];
    forall m | 0 <= m < |r| - 1 ensures (r[m], r[m + 1]) in adj {
      if m >= |p| - 1 {
        assert r[m] == q[m - (|p| - 1)] && r[m + 1] == q[m + 1 - (|p| - 1)];
      }
    }
    assert IsPath(adj, r) && Joins(r, i, j);
  }

  /** A path from `i` to `j` whose inner nodes are below `k`, by recursion on `k`. */
  ghost predicate Via(adj: set<(nat, nat)>, i: nat, j: nat, k: nat)
    decreases k
  {
    if k == 0 then (i, j) in adj
    else Via(adj, i, j, k - 1) || (Via(adj, i, k - 1, k - 1) && Via(adj, k - 1, j, k - 1))
  }

  lemma {:induction false} ViaSound(adj: set<(nat, nat)>, i: nat, j: nat, k: nat)
    requires Via(adj, i, j, k)
    ensures Reaches(adj, i, j)
    decreases k
  {
    if k == 0 {
      EdgeReaches(adj, i, j);
    } else if Via(adj, i, j, k - 1) {
      ViaSound(adj, i, j, k - 1);
    } else {
      ViaSound(adj, i, k - 1, k - 1);
      ViaSound(adj, k - 1, j, k - 1);
      ReachesTransitive(adj, i, k - 1, j);
    }
  }

  ghost predicate InnerBelow(p: seq<nat>, k: nat) {
    forall m :: 0 < m < |p| - 1 ==> p[m] < k
  }

  /** Cut a path at the first visit of the highest inner node, and again after it. */
  lemma {:induction false} ViaComplete(adj: set<(nat, nat)>, p: seq<nat>, i: nat, j: nat, k: nat)
    requires IsPath(adj, p) && Joins(p, i, j) && InnerBelow(p, k)
    ensures Via(adj, i, j, k)
    decreases k, |p|
  {
    if k == 0 {
      assert (p[0], p[1]) in adj;
    } else if InnerBelow(p, k - 1) {
      ViaComplete(adj, p, i, j, k - 1);
    } else {
      var m := FirstVisit(p, k - 1);
      ViaComplete(adj, p[..m + 1], i, k - 1, k - 1);
      ViaComplete(adj, p[m..], k - 1, j, k);
    }
  }

  lemma FirstVisit(p: seq<nat>, x: nat) returns (m: nat)
    requires InnerBelow(p, x + 1) && !InnerBelow(p, x)
    ensures 0 < m < |p| - 1 && p[m] == x && InnerBelow(p[..m + 1], x) && InnerBelow(p[m..], x + 1)
  {
    m := 1;
    while p[m] < x
      invariant 0 < m < |p| - 1 && forall l :: 0 < l < m ==> p[l] < x
      decreases |p| - m
    {
      m := m + 1;
    }
  }

  /** Recursion to the number of nodes finds every path. */
  lemma ViaReaches(adj: set<(nat, nat)>, n: nat, i: nat, j: nat)
    requires forall e :: e in adj ==> e.0 < n && e.1 < n
    ensures Via(adj, i, j, n) <==> Reaches(adj, i, j)
  {
    if Via(adj, i, j, n) {
      ViaSound(adj, i, j, n);
    }
    if Reaches(adj, i, j) {
      var p :| IsPath(adj, p) && Joins(p, i, j);
      forall m | 0 < m < |p| - 1 ensures p[m] < n {
        assert (p[m], p[m + 1]) in adj;
      }
      ViaComplete(adj, p, i, j, n);
    }
  }

  /** The pivot's row and column do not change in the pivot's round. */
  lemma Pivot(adj: set<(nat, nat)>, i: nat, k: nat)
    ensures Via(adj, i, k, k + 1) == Via(adj, i, k, k)
    ensures Via(adj, k, i, k + 1) == Via(adj, k, i, k)
  {
  }

  /** What an entry holds when round `k` has come to row `i`, column `j`. */
  ghost predicate Entry(adj: set<(nat, nat)>, a: nat, b: nat, k: nat, i: nat, j: nat) {
    Via(adj, a, b, if a < i || (a == i && b < j) then k + 1 else k)
  }

  ghost predicate Rounds(reach: array2<bool>, adj: set<(nat, nat)>, k: nat, i: nat, j: nat)
    reads reach
  {
    forall a: nat, b: nat :: a < reach.Length0 && b < reach.Length1 ==> (reach[a, b] <==> Entry(adj, a, b, k, i, j))
  }

  /** `reach[i][j] = reach[i][j] || (reach[i][k] && reach[k][j])`. */
  method Relax(reach: array2<bool>, ghost adj: set<(nat, nat)>, k: nat, i: nat, j: nat)
    requires reach.Length0 == reach.Length1 && k < reach.Length0 && i < reach.Length0 && j < reach.Length0
    requires Rounds(reach, adj, k, i, j)
    modifies reach
    ensures Rounds(reach, adj, k, i, j + 1)
  {
    Pivot(adj, i, k);
    Pivot(adj, j, k);
    hide Via;
    assert reach[i, j] <==> Entry(adj, i, j, k, i, j);
    assert reach[i, k] <==> Entry(adj, i, k, k, i, j);
    assert reach[k, j] <==> Entry(adj, k, j, k, i, j);
    RelaxStep(adj, k, i, j);
    reach[i, j] := reach[i, j] || (reach[i, k] && reach[k, j]);
  }

  lemma RelaxStep(adj: set<(nat, nat)>, k: nat, i: nat, j: nat)
    ensures Via(adj, i, j, k + 1) == (Via(adj, i, j, k) || (Via(adj, i, k, k) && Via(adj, k, j, k)))
  {
  }

  method Warshall(reach: array2<bool>, ghost adj: set<(nat, nat)>)
    requires reach.Length0 == reach.Length1
    requires forall e :: e in adj ==> e.0 < reach.Length0 && e.1 < reach.Length0
    requires forall a: nat, b: nat :: a < reach.Length0 && b < reach.Length0 ==> (reach[a, b] <==> (a, b) in adj)
    modifies reach
    ensures forall a: nat, b: nat :: a < reach.Length0 && b < reach.Length0 ==> (reach[a, b] <==> Reaches(adj, a, b))
  {
    var n := reach.Length0;
    assert Rounds(reach, adj, 0, 0, 0);
    for k := 0 to n
      invariant Rounds(reach, adj, k, 0, 0)
    {
      for i := 0 to n
        invariant Rounds(reach, adj, k, i, 0)
      {
        for j := 0 to n
          invariant Rounds(reach, adj, k, i, j)
        {
          Relax(reach, adj, k, i, j);
        }
        RowDone(reach, adj, k, i);
      }
      RoundDone(reach, adj, k);
    }
    forall a: nat, b: nat | a < n && b < n ensures reach[a, b] <==> Reaches(adj, a, b) {
      assert reach[a, b] <==> Entry(adj, a, b, n, 0, 0);
      ViaReaches(adj, n, a, b);
    }
  }

  lemma RowDone(reach: array2<bool>, adj: set<(nat, nat)>, k: nat, i: nat)
    requires reach.Length0 == reach.Length1 && Rounds(reach, adj, k, i, reach.Length1)
    ensures Rounds(reach, adj, k, i + 1, 0)
  {
    hide Via;
    forall a: nat, b: nat | a < reach.Length0 && b < reach.Length1 ensures reach[a, b] <==> Entry(adj, a, b, k, i + 1, 0) {
      assert reach[a, b] <==> Entry(adj, a, b, k, i, reach.Length1);
    }
  }

  lemma RoundDone(reach: array2<bool>, adj: set<(nat, nat)>, k: nat)
    requires reach.Length0 == reach.Length1 && Rounds(reach, adj, k, reach.Length0, 0)
    ensures Rounds(reach, adj, k + 1, 0, 0)
  {
    hide Via;
    forall a: nat, b: nat | a < reach.Length0 && b < reach.Length1 ensures reach[a, b] <==> Entry(adj, a, b, k + 1, 0, 0) {
      assert reach[a, b] <==> Entry(adj, a, b, k, reach.Length0, 0);
    }
  }
}
