/** Appending in parallel branches against appending in sequence. */
module Accumulations {
  import opened Values
  import opened Reducers
  import opened AgentStates
  import opened Graphs
  import opened Merging

  function Lookup(data: Data, key: string): Option<Json> {
    if key in data then Some(data[key]) else None
  }

  /** What a `set` through `AppendReducer` stores: the first value of a key is stored as it is. */
  function StoredValue(existing: Option<Json>, update: Json): Json {
    match existing
    case None => update
    case Some(v) => Append(v, update)
  }

  /** An accepted `set` of a key with an appending reducer stores that, and changes nothing else. */
  lemma SetStores(l: Limits, reducers: map<string, Reducer>, data: Data, key: string, value: Json)
    requires key in reducers && reducers[key] == AppendReducer && SetValue(l, reducers, data, key, value).Ok?
    ensures SetValue(l, reducers, data, key, value).value == data[key := StoredValue(Lookup(data, key), value)]
  {
  }

  /** So branches that each set the key once, on their own fork, are the branches below. */
  lemma SetBranches(l: Limits, reducers: map<string, Reducer>, snapshot: Data, branches: seq<Data>, key: string,
                    updates: seq<Json>)
    requires key in reducers && reducers[key] == AppendReducer && |branches| == |updates|
    requires forall i :: 0 <= i < |updates| ==> SetValue(l, reducers, snapshot, key, updates[i]) == Ok(branches[i])
    ensures BranchesSet(snapshot, branches, key, updates)
  {
    forall i | 0 <= i < |updates| ensures Lookup(branches[i], key) == Some(StoredValue(Lookup(snapshot, key), updates[i])) {
      SetStores(l, reducers, snapshot, key, updates[i]);
    }
  }

  /** And setting the updates one after the other, as far as the limits allow, leaves what the sequence below does. */
  lemma {:induction false} SetsInSequence(l: Limits, reducers: map<string, Reducer>, data: Data, states: seq<Data>, key: string,
                                          updates: seq<Json>)
    requires key in reducers && reducers[key] == AppendReducer && |states| == |updates| + 1 && states[0] == data
    requires forall i :: 0 <= i < |updates| ==> SetValue(l, reducers, states[i], key, updates[i]) == Ok(states[i + 1])
    ensures Lookup(states[|updates|], key) == Sequential(Lookup(data, key), updates)
    decreases |updates|
  {
    if updates != [] {
      assert SetValue(l, reducers, states[0], key, updates[0]) == Ok(states[0 + 1]);
      SetStores(l, reducers, data, key, updates[0]);
      hide SetValue;
      SetsInSequence(l, reducers, states[1], states[1..], key, updates[1..]);
    }
  }

  /** The updates set one after the other. */
  function Sequential(existing: Option<Json>, updates: seq<Json>): Option<Json>
    decreases |updates|
  {
    if updates == [] then existing else Sequential(Some(StoredValue(existing, updates[0])), updates[1..])
  }

  /** Branch `i` sets update `i` on its own fork of the snapshot. */
  ghost predicate BranchesSet(snapshot: Data, branches: seq<Data>, key: string, updates: seq<Json>) {
    |branches| == |updates| &&
    forall i :: 0 <= i < |branches| ==> Lookup(branches[i], key) == Some(StoredValue(Lookup(snapshot, key), updates[i]))
  }

  predicate ChangesKey(existing: Option<Json>, update: Json) {
    existing != Some(StoredValue(existing, update))
  }

  /** What a key holds after the merge of such branches. */
  function Merged(l: Limits, reducers: map<string, Reducer>, snapshot: Data, branches: seq<Data>,
                  key: string): Option<Json>
    requires Merge(l, reducers, snapshot, branches).Some?
  {
    Lookup(Merge(l, reducers, snapshot, branches).value, key)
  }

  /** The values stored by the branches that change the key. */
  function StoredChanges(existing: Option<Json>, updates: seq<Json>): seq<Json> {
    if updates == [] then []
    else
      var last := updates[|updates| - 1];
      StoredChanges(existing, updates[..|updates| - 1]) + if ChangesKey(existing, last) then [StoredValue(existing, last)] else []
  }

  lemma {:induction false} ChangedAreStored(snapshot: Data, branches: seq<Data>, key: string, updates: seq<Json>)
    requires BranchesSet(snapshot, branches, key, updates)
    ensures ChangedValues(snapshot, branches, key) == StoredChanges(Lookup(snapshot, key), updates)
    decreases |branches|
  {
    if branches != [] {
      var n := |branches| - 1;
      ChangedAreStored(snapshot, branches[..n], key, updates[..n]);
    }
  }

  function Items(existing: Option<Json>): seq<Json> {
    match existing case None => [] case Some(v) => BaseItems(v)
  }

  /** What the updates contribute: each changing branch brings the stored items along. */
  function WithBase(existing: Option<Json>, updates: seq<Json>): seq<Json> {
    if updates == [] then []
    else
      var last := updates[|updates| - 1];
      WithBase(existing, updates[..|updates| - 1]) + if ChangesKey(existing, last) then Items(existing) + UpdateItems(last) else []
  }

  function ChangeCount(existing: Option<Json>, updates: seq<Json>): nat {
    if updates == [] then 0
    else ChangeCount(existing, updates[..|updates| - 1]) + if ChangesKey(existing, updates[|updates| - 1]) then 1 else 0
  }

  lemma {:induction false} ConcatSnoc(updates: seq<Json>, last: Json)
    ensures Concat(updates + [last]) == Concat(updates) + UpdateItems(last)
    decreases |updates|
  {
    if updates == [] {
      assert [last][1..] == [];
      assert Concat([last]) == UpdateItems(last) + Concat([]);
    } else {
      ConcatSnoc(updates[1..], last);
      assert (updates + [last])[1..] == updates[1..] + [last];
    }
  }

  lemma {:induction false} StoredChangesItems(existing: Option<Json>, updates: seq<Json>)
    ensures Concat(StoredChanges(existing, updates)) == WithBase(existing, updates)
    ensures |StoredChanges(existing, updates)| == ChangeCount(existing, updates)
    decreases |updates|
  {
    assert Concat([]) == [];
    hide ChangesKey, StoredValue, Concat, UpdateItems, Items;
    if updates != [] {
      var n := |updates| - 1;
      StoredChangesItems(existing, updates[..n]);
      ConcatSnoc(StoredChanges(existing, updates[..n]), StoredValue(existing, updates[n]));
      StoredItems(existing, updates[n]);
      assert StoredChanges(existing, updates[..n]) + [] == StoredChanges(existing, updates[..n]);
      assert WithBase(existing, updates[..n]) + [] == WithBase(existing, updates[..n]);
    }
  }

  lemma StoredItems(existing: Option<Json>, update: Json)
    ensures UpdateItems(StoredValue(existing, update)) == Items(existing) + UpdateItems(update)
  {
  }

  /** The merge of branches that append: the stored items, and then for every changing branch the
    * stored items again and what it appends. */
  lemma MergeOfAppends(l: Limits, reducers: map<string, Reducer>, snapshot: Data, branches: seq<Data>, key: string,
                       updates: seq<Json>)
    requires key in reducers && reducers[key] == AppendReducer && BranchesSet(snapshot, branches, key, updates)
    requires Merge(l, reducers, snapshot, branches).Some?
    ensures var existing := Lookup(snapshot, key);
      Merged(l, reducers, snapshot, branches, key) ==
        if ChangeCount(existing, updates) == 0 then existing else Some(Arr(Items(existing) + WithBase(existing, updates)))
  {
    MergeAt(l, reducers, snapshot, branches, key);
    ChangedAreStored(snapshot, branches, key, updates);
    var values := ChangedValues(snapshot, branches, key);
    StoredChangesItems(Lookup(snapshot, key), updates);
    if values != [] {
      AppendFold(Base(snapshot, key), values);
    }
  }

  lemma {:induction false} SequentialPresent(v: Json, updates: seq<Json>)
    requires updates != []
    ensures Sequential(Some(v), updates) == Some(Arr(BaseItems(v) + Concat(updates)))
    decreases |updates|
  {
    var next := Append(v, updates[0]);
    if |updates| == 1 {
      assert updates[1..] == [];
      assert Concat(updates) == UpdateItems(updates[0]);
    } else {
      SequentialPresent(next, updates[1..]);
      assert BaseItems(v) + (UpdateItems(updates[0]) + Concat(updates[1..])) ==
        BaseItems(v) + UpdateItems(updates[0]) + Concat(updates[1..]);
    }
  }

  lemma ConcatLast(updates: seq<Json>)
    requires updates != []
    ensures Concat(updates) == Concat(updates[..|updates| - 1]) + UpdateItems(updates[|updates| - 1])
  {
    ConcatSnoc(updates[..|updates| - 1], updates[|updates| - 1]);
    assert updates[..|updates| - 1] + [updates[|updates| - 1]] == updates;
  }

  /** How much longer the merged array is than the appended one. */
  lemma {:induction false} WithBaseLength(existing: Option<Json>, updates: seq<Json>)
    ensures |WithBase(existing, updates)| == |Concat(updates)| + ChangeCount(existing, updates) * |Items(existing)|
    decreases |updates|
  {
    ConcatNone();
    hide ChangesKey, Concat, UpdateItems, Items;
    if updates != [] {
      var n := |updates| - 1;
      WithBaseLength(existing, updates[..n]);
      ConcatLast(updates);
      UnchangedAddsNothing(existing, updates[n]);
      var c, k := ChangeCount(existing, updates[..n]), |Items(existing)|;
      assert (c + 1) * k == c * k + k;
    }
  }

  lemma {:induction false} WithoutBase(existing: Option<Json>, updates: seq<Json>)
    ensures Items(existing) == [] ==> WithBase(existing, updates) == Concat(updates)
    ensures ChangeCount(existing, updates) == 0 ==> Concat(updates) == []
    decreases |updates|
  {
    ConcatNone();
    hide ChangesKey, Concat, UpdateItems, Items;
    if updates != [] {
      var n := |updates| - 1;
      WithoutBase(existing, updates[..n]);
      ConcatLast(updates);
      UnchangedAddsNothing(existing, updates[n]);
      assert [] + UpdateItems(updates[n]) == UpdateItems(updates[n]);
      assert Concat(updates[..n]) + [] == Concat(updates[..n]);
    }
  }

  lemma UnchangedAddsNothing(existing: Option<Json>, update: Json)
    ensures !ChangesKey(existing, update) ==> UpdateItems(update) == [] && existing.Some? && existing.value.Arr?
  {
    if !ChangesKey(existing, update) {
      var v := existing.value;
      assert v == Arr(BaseItems(v) + UpdateItems(update));
      assert |BaseItems(v)| == |BaseItems(v) + UpdateItems(update)|;
    }
  }

  /** Main result, for a key that is present: forking and merging appends the same as doing it in
    * sequence exactly if nothing is stored yet or no branch changes the key. */
  lemma AppendPresent(l: Limits, reducers: map<string, Reducer>, snapshot: Data, branches: seq<Data>, key: string,
                      updates: seq<Json>)
    requires key in reducers && reducers[key] == AppendReducer && BranchesSet(snapshot, branches, key, updates)
    requires Merge(l, reducers, snapshot, branches).Some? && key in snapshot && updates != []
    ensures Merged(l, reducers, snapshot, branches, key) == Sequential(Some(snapshot[key]), updates) <==>
      Items(Some(snapshot[key])) == [] || ChangeCount(Some(snapshot[key]), updates) == 0
  {
    var existing := Some(snapshot[key]);
    MergeOfAppends(l, reducers, snapshot, branches, key, updates);
    SequentialPresent(snapshot[key], updates);
    WithBaseLength(existing, updates);
    WithoutBase(existing, updates);
    hide Merge, Merged, Sequential, Concat, WithBase, BranchesSet, BaseItems;
    var c, items := ChangeCount(existing, updates), Items(existing);
    if c == 0 {
      NoChangeIsArray(existing, updates);
      hide ChangeCount, Items;
      assert items + Concat(updates) == items;
    } else if items != [] {
      hide ChangeCount, Items;
      AtLeast(c, |items|);
      assert |items + WithBase(existing, updates)| > |items + Concat(updates)|;
    }
  }

  lemma AtLeast(c: nat, k: nat)
    requires c > 0
    ensures c * k >= k
  {
  }

  lemma NoChangeIsArray(existing: Option<Json>, updates: seq<Json>)
    requires updates != [] && ChangeCount(existing, updates) == 0
    ensures existing.Some? && existing.value.Arr? && existing == Some(Arr(Items(existing)))
  {
    UnchangedAddsNothing(existing, updates[|updates| - 1]);
  }

  lemma {:induction false} AbsentAllChange(updates: seq<Json>)
    ensures ChangeCount(None, updates) == |updates|
    decreases |updates|
  {
    if updates != [] {
      AbsentAllChange(updates[..|updates| - 1]);
    }
  }

  /** Main result, for a key that is absent: they agree exactly if the first update is an array, or a
    * second one makes it one and it is not null. */
  lemma AppendAbsent(l: Limits, reducers: map<string, Reducer>, snapshot: Data, branches: seq<Data>, key: string,
                     updates: seq<Json>)
    requires key in reducers && reducers[key] == AppendReducer && BranchesSet(snapshot, branches, key, updates)
    requires Merge(l, reducers, snapshot, branches).Some? && key !in snapshot && updates != []
    ensures Merged(l, reducers, snapshot, branches, key) == Sequential(None, updates) <==>
      updates[0].Arr? || (|updates| >= 2 && updates[0] != Null)
  {
    MergeOfAppends(l, reducers, snapshot, branches, key, updates);
    AbsentAllChange(updates);
    WithoutBase(None, updates);
    assert [] + Concat(updates) == Concat(updates);
    hide Merge, Merged, WithBase, BranchesSet, ChangeCount;
    SequentialAbsent(updates);
  }

  lemma SequentialAbsent(updates: seq<Json>)
    requires updates != []
    ensures Sequential(None, updates) == Some(Arr(Concat(updates))) <==>
      updates[0].Arr? || (|updates| >= 2 && updates[0] != Null)
  {
    var first, rest := updates[0], updates[1..];
    assert Concat(updates) == UpdateItems(first) + Concat(rest);
    assert Sequential(None, updates) == Sequential(Some(first), rest);
    hide Concat;
    if rest == [] {
      hide Sequential;
      ConcatNone();
      assert Concat(updates) == UpdateItems(first);
      assert Sequential(None, updates) == Some(first) by {
        SequentialNone(first);
      }
    } else {
      SequentialPresent(first, rest);
      hide Sequential;
      if first == Null {
        assert |UpdateItems(first) + Concat(rest)| != |BaseItems(first) + Concat(rest)|;
      } else {
        assert BaseItems(first) == UpdateItems(first);
      }
    }
  }

  lemma ConcatNone()
    ensures Concat([]) == []
  {
  }

  lemma SequentialNone(v: Json)
    ensures Sequential(Some(v), []) == Some(v)
  {
  }

  // ---- Inputs where the two differ ---------------------------------------------------------------

  /** One branch that sets `update` on a snapshot whose key may be absent. */
  lemma OneBranch(l: Limits, snapshot: Data, key: string, update: Json)
    requires forall v: Json :: l.size(v) <= l.maxValueBytes
    requires key in snapshot || |snapshot.Keys + {key}| <= l.maxKeys
    ensures var branches := [snapshot[key := StoredValue(Lookup(snapshot, key), update)]];
      && BranchesSet(snapshot, branches, key, [update])
      && Merge(l, map[key := AppendReducer], snapshot, branches).Some?
  {
    var stored := StoredValue(Lookup(snapshot, key), update);
    var changes := Changes(snapshot, [snapshot[key := stored]]);
    forall k | k in changes ensures k == key && changes[k] != [] {
      OnlyChange(snapshot, key, stored, k);
    }
    hide StoredValue, Changes, ChangedValues;
    OneKeyMerges(l, snapshot, key, changes);
  }

  lemma OneKeyMerges(l: Limits, snapshot: Data, key: string, changes: map<string, seq<Json>>)
    requires forall v: Json :: l.size(v) <= l.maxValueBytes
    requires key in snapshot || |snapshot.Keys + {key}| <= l.maxKeys
    requires forall k :: k in changes ==> k == key && changes[k] != []
    ensures MergeOk(l, map[key := AppendReducer], snapshot, changes)
  {
    hide Fold;
    forall k | k in changes ensures FoldKey(map[key := AppendReducer], snapshot, changes[k], k).Ok? {
      AppendFold(Base(snapshot, key), changes[k]);
    }
    var writes := FoldedWrites(map[key := AppendReducer], snapshot, changes);
    assert writes.Keys <= {key};
    SubsetSize(snapshot.Keys + writes.Keys, snapshot.Keys + {key});
  }

  lemma OnlyChange(snapshot: Data, key: string, stored: Json, k: string)
    requires ChangedValues(snapshot, [snapshot[key := stored]], k) != []
    ensures k == key
  {
    var branch := snapshot[key := stored];
    assert [branch][..0] == [];
    assert ChangedValues(snapshot, [], k) == [];
  }

  lemma ChangesOnce(existing: Option<Json>, update: Json)
    ensures ChangeCount(existing, [update]) == if ChangesKey(existing, update) then 1 else 0
  {
    assert [update][..0] == [] && ChangeCount(existing, []) == 0;
  }

  /** Appending one value to a stored list of one repeats the stored item. */
  lemma AppendRepeats(l: Limits)
    requires (forall v: Json :: l.size(v) <= l.maxValueBytes) && l.maxKeys >= 1
    ensures var snapshot, branches := map["k" := Arr([Null])], [map["k" := Arr([Null, Null])]];
      && BranchesSet(snapshot, branches, "k", [Null]) && Merge(l, map["k" := AppendReducer], snapshot, branches).Some?
      && Sequential(Some(snapshot["k"]), [Null]) == Some(Arr([Null, Null]))
      && Merged(l, map["k" := AppendReducer], snapshot, branches, "k") != Sequential(Some(snapshot["k"]), [Null])
  {
    var snapshot := map["k" := Arr([Null])];
    assert Append(Arr([Null]), Null) == Arr([Null, Null]);
    var branches := [snapshot["k" := Arr([Null, Null])]];
    assert snapshot["k" := Arr([Null, Null])] == map["k" := Arr([Null, Null])];
    OneBranch(l, snapshot, "k", Null);
    ChangesOnce(Some(snapshot["k"]), Null);
    hide Merge, Merged;
    SequentialPresent(snapshot["k"], [Null]);
    assert Sequential(Some(snapshot["k"]), [Null]) == Sequential(Some(Arr([Null, Null])), []);
    AppendPresent(l, map["k" := AppendReducer], snapshot, branches, "k", [Null]);
  }

  /** A first single value is kept as it is in sequence, and wrapped by the merge. */
  lemma AppendWraps(l: Limits)
    requires (forall v: Json :: l.size(v) <= l.maxValueBytes) && l.maxKeys >= 1
    ensures var branches := [map["k" := Bool(true)]];
      && BranchesSet(map[], branches, "k", [Bool(true)]) && Merge(l, map["k" := AppendReducer], map[], branches).Some?
      && Sequential(None, [Bool(true)]) == Some(Bool(true))
      && Merged(l, map["k" := AppendReducer], map[], branches, "k") != Sequential(None, [Bool(true)])
  {
    var snapshot: Data := map[];
    var branches := [snapshot["k" := Bool(true)]];
    assert branches == [map["k" := Bool(true)]];
    assert |snapshot.Keys + {"k"}| == 1;
    OneBranch(l, snapshot, "k", Bool(true));
    hide Merge, Merged;
    assert Sequential(None, [Bool(true)]) == Sequential(Some(Bool(true)), []);
    AppendAbsent(l, map["k" := AppendReducer], snapshot, branches, "k", [Bool(true)]);
  }
}
