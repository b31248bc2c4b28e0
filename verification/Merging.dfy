/** Folding the changes of parallel branches back into the main state
  * (`merge_parallel_states` in agent-graph/src/engine.rs). */
module Merging {
  import opened Values
  import opened Reducers
  import opened AgentStates
  import opened Graphs

  /** A branch changed a key if it holds another value than the snapshot; deletions do not show. */
  predicate ChangedIn(snapshot: Data, branch: Data, key: string) {
    key in branch && (key in snapshot ==> branch[key] != snapshot[key])
  }

  /** The changed values of a key, in branch order. */
  function ChangedValues(snapshot: Data, branches: seq<Data>, key: string): seq<Json> {
    if branches == [] then []
    else
      var last := branches[|branches| - 1];
      ChangedValues(snapshot, branches[..|branches| - 1], key) +
        if ChangedIn(snapshot, last, key) then [last[key]] else []
  }

  function ChangedKeys(snapshot: Data, branches: seq<Data>): (keys: set<string>)
    ensures forall key :: key in keys <==> ChangedValues(snapshot, branches, key) != []
  {
    if branches == [] then {}
    else
      var last := branches[|branches| - 1];
      ChangedKeys(snapshot, branches[..|branches| - 1]) + set key | key in last && ChangedIn(snapshot, last, key)
  }

  function Base(snapshot: Data, key: string): Json {
    if key in snapshot then snapshot[key] else Null
  }

  /** All values of a key folded into the snapshot's value. */
  function FoldKey(reducers: map<string, Reducer>, snapshot: Data, values: seq<Json>,
                   key: string): Result<Json, string> {
    Fold(if key in reducers then reducers[key] else LastWriteWins, Base(snapshot, key), values)
  }

  /** The changed keys with their changed values. */
  function Changes(snapshot: Data, branches: seq<Data>): map<string, seq<Json>> {
    map key | key in ChangedKeys(snapshot, branches) :: ChangedValues(snapshot, branches, key)
  }

  /** The writes the merge makes; a key whose fold fails is listed with a placeholder. */
  function FoldedWrites(reducers: map<string, Reducer>, snapshot: Data, changes: map<string, seq<Json>>): (r: Data)
    ensures r.Keys == changes.Keys
  {
    map key | key in changes ::
      match FoldKey(reducers, snapshot, changes[key], key) case Ok(v) => v case Err(_) => Null
  }

  predicate MergeOk(l: Limits, reducers: map<string, Reducer>, snapshot: Data, changes: map<string, seq<Json>>) {
    && (forall key :: key in changes ==> FoldKey(reducers, snapshot, changes[key], key).Ok?)
    && InsertAllOk(l, snapshot, FoldedWrites(reducers, snapshot, changes))
  }

  /** The outcome of the merge, which mentions no order of the keys. */
  function Merge(l: Limits, reducers: map<string, Reducer>, snapshot: Data, branches: seq<Data>): Option<Data> {
    var changes := Changes(snapshot, branches);
    if MergeOk(l, reducers, snapshot, changes)
    then Some(snapshot + FoldedWrites(reducers, snapshot, changes))
    else None
  }

  function Forks(branches: seq<BranchResult>): (r: seq<Data>)
    ensures |r| == |branches| && forall i :: 0 <= i < |r| ==> r[i] == branches[i].data
  {
    seq(|branches|, i requires 0 <= i < |branches| => branches[i].data)
  }

  function Listed(changes: map<string, seq<Json>>, key: string): seq<Json> {
    if key in changes then changes[key] else []
  }

  ghost predicate Collected(changes: map<string, seq<Json>>, snapshot: Data, branches: seq<Data>) {
    && (forall key :: key in changes ==> changes[key] != [])
    && (forall key :: Listed(changes, key) == ChangedValues(snapshot, branches, key))
  }

  ghost predicate Kept(changes: map<string, seq<Json>>, before: map<string, seq<Json>>, key: string) {
    Listed(changes, key) == Listed(before, key) && (key in changes <==> key in before)
  }

  /** The list of one key after the branch `data` was looked at. */
  ghost predicate Added(changes: map<string, seq<Json>>, before: map<string, seq<Json>>, snapshot: Data, data: Data,
                        key: string) {
    if ChangedIn(snapshot, data, key)
    then key in changes && changes[key] == Listed(before, key) + [data[key]]
    else Kept(changes, before, key)
  }

  lemma AddedCollected(changes: map<string, seq<Json>>, before: map<string, seq<Json>>, snapshot: Data, data: Data,
                       branches: seq<Data>)
    requires Collected(before, snapshot, branches)
    requires forall key :: Added(changes, before, snapshot, data, key)
    ensures Collected(changes, snapshot, branches + [data])
  {
    assert (branches + [data])[..|branches|] == branches;
    forall key ensures key in changes ==> changes[key] != [] {
      assert Added(changes, before, snapshot, data, key);
    }
    forall key ensures Listed(changes, key) == ChangedValues(snapshot, branches + [data], key) {
      assert Added(changes, before, snapshot, data, key);
    }
  }

  /** Collect the changes of one more branch, visiting its keys in any order. */
  method AddChanges(snapshot: Data, data: Data, before: map<string, seq<Json>>)
    returns (changes: map<string, seq<Json>>)
    ensures forall key :: Added(changes, before, snapshot, data, key)
  {
    changes := before;
    var todo := data.Keys;
    while todo != {}
      invariant todo <= data.Keys
      invariant forall key :: key !in todo ==> Added(changes, before, snapshot, data, key)
      invariant forall key :: key in todo ==> Kept(changes, before, key)
    {
      var key :| key in todo;
      assert Kept(changes, before, key);
      if key !in snapshot || snapshot[key] != data[key] {
        var values := if key in changes then changes[key] else [];
        changes := changes[key := values + [data[key]]];
      }
      todo := todo - {key};
    }
  }

  lemma CollectedAll(changes: map<string, seq<Json>>, snapshot: Data, branches: seq<Data>)
    requires Collected(changes, snapshot, branches)
    ensures changes == Changes(snapshot, branches)
  {
    forall key ensures key in changes <==> key in ChangedKeys(snapshot, branches) {
      assert Listed(changes, key) == ChangedValues(snapshot, branches, key);
    }
    forall key | key in changes ensures changes[key] == ChangedValues(snapshot, branches, key) {
      assert Listed(changes, key) == ChangedValues(snapshot, branches, key);
    }
  }

  /** First loop: the changed values of every key. */
  method CollectChanges(snapshot: Data, branches: seq<BranchResult>) returns (changes: map<string, seq<Json>>)
    ensures changes == Changes(snapshot, Forks(branches))
  {
    changes := map[];
    ghost var forks := Forks(branches);
    for n := 0 to |branches|
      invariant Collected(changes, snapshot, forks[..n])
    {
      assert forks[..n + 1] == forks[..n] + [branches[n].data];
      ghost var before := changes;
      changes := AddChanges(snapshot, branches[n].data, changes);
      AddedCollected(changes, before, snapshot, branches[n].data, forks[..n]);
    }
    assert forks[..|branches|] == forks;
    CollectedAll(changes, snapshot, forks);
  }

  /** Inner loop: fold one key, as `apply_reducer` is called value by value. */
  method FoldValues(reducers: map<string, Reducer>, key: string, base: Json, values: seq<Json>)
    returns (r: Result<Json, string>)
    ensures r == Fold(if key in reducers then reducers[key] else LastWriteWins, base, values)
  {
    var current := base;
    ghost var reducer := if key in reducers then reducers[key] else LastWriteWins;
    for i := 0 to |values|
      invariant Fold(reducer, base, values) == Fold(reducer, current, values[i..])
    {
      assert values[i..][0] == values[i] && values[i..][1..] == values[i + 1..];
      var next := ApplyReducer(reducers, key, current, values[i]);
      if next.Err? {
        return next;
      }
      current := next.value;
    }
    r := Ok(current);
  }

  /** Second loop, at a point where the keys `done` have been folded and stored. */
  ghost predicate Stored(l: Limits, reducers: map<string, Reducer>, snapshot: Data, changes: map<string, seq<Json>>,
                         done: set<string>, data: Data) {
    var writes := FoldedWrites(reducers, snapshot, changes);
    && done <= changes.Keys
    && (forall key :: key in done ==> FoldKey(reducers, snapshot, changes[key], key).Ok?)
    && InsertAllOk(l, snapshot, Restrict(writes, done))
    && data == snapshot + Restrict(writes, done)
  }

  lemma StoreNext(l: Limits, reducers: map<string, Reducer>, snapshot: Data, changes: map<string, seq<Json>>,
                  done: set<string>, data: Data, key: string)
    requires Stored(l, reducers, snapshot, changes, done, data) && key in changes && key !in done
    ensures var folded := FoldKey(reducers, snapshot, changes[key], key);
      && (folded.Err? ==> !MergeOk(l, reducers, snapshot, changes))
      && (folded.Ok? && InsertOk(l, data, key, folded.value) ==>
            Stored(l, reducers, snapshot, changes, done + {key}, data[key := folded.value]))
      && (folded.Ok? && !InsertOk(l, data, key, folded.value) ==> !MergeOk(l, reducers, snapshot, changes))
  {
    hide FoldKey, InsertOk, Restrict;
    var writes := FoldedWrites(reducers, snapshot, changes);
    InsertStep(l, snapshot, writes, done, key);
    assert FoldKey(reducers, snapshot, changes[key], key).Ok? ==>
      writes[key] == FoldKey(reducers, snapshot, changes[key], key).value;
  }

  /** Nothing is stored at the beginning; everything is at the end. */
  lemma StoredBounds(l: Limits, reducers: map<string, Reducer>, snapshot: Data, changes: map<string, seq<Json>>,
                     data: Data)
    ensures Stored(l, reducers, snapshot, changes, {}, snapshot)
    ensures Stored(l, reducers, snapshot, changes, changes.Keys, data) ==>
      MergeOk(l, reducers, snapshot, changes) && data == snapshot + FoldedWrites(reducers, snapshot, changes)
  {
    var writes := FoldedWrites(reducers, snapshot, changes);
    assert snapshot + Restrict(writes, {}) == snapshot;
    assert Restrict(writes, changes.Keys) == writes;
  }

  /** The merge succeeds, and leaves `Merge`, for every order in which the keys are visited. */
  method MergeParallelStates(state: AgentState, snapshot: Data, branches: seq<BranchResult>)
    returns (r: Result<(), Error>)
    requires state.data == snapshot
    modifies state`data, state`version
    ensures r.Ok? <==> Merge(state.limits, state.reducers.entries, snapshot, Forks(branches)).Some?
    ensures r.Ok? ==> state.data == Merge(state.limits, state.reducers.entries, snapshot, Forks(branches)).value
    ensures r.Err? ==> r.error == StateError
  {
    var changes := CollectChanges(snapshot, branches);
    r := StoreChanges(state, snapshot, changes);
  }

  /** Fold one key and store it. */
  method StoreKey(state: AgentState, snapshot: Data, changes: map<string, seq<Json>>, ghost done: set<string>,
                  key: string)
    returns (r: Result<(), Error>)
    requires key in changes && key !in done
    requires Stored(state.limits, state.reducers.entries, snapshot, changes, done, state.data)
    modifies state`data, state`version
    ensures r.Ok? ==> Stored(state.limits, state.reducers.entries, snapshot, changes, done + {key}, state.data)
    ensures r.Err? ==> r.error == StateError && !MergeOk(state.limits, state.reducers.entries, snapshot, changes)
  {
    StoreNext(state.limits, state.reducers.entries, snapshot, changes, done, state.data, key);
    var folded := FoldValues(state.reducers.entries, key, Base(snapshot, key), changes[key]);
    if folded.Err? {
      return Err(StateError);
    }
    var inserted := state.SetRaw(key, folded.value);
    if inserted.Err? {
      return Err(StateError);
    }
    r := Ok(());
  }

  method StoreChanges(state: AgentState, snapshot: Data, changes: map<string, seq<Json>>) returns (r: Result<(), Error>)
    requires state.data == snapshot
    modifies state`data, state`version
    ensures r.Ok? <==> MergeOk(state.limits, state.reducers.entries, snapshot, changes)
    ensures r.Ok? ==> state.data == snapshot + FoldedWrites(state.reducers.entries, snapshot, changes)
    ensures r.Err? ==> r.error == StateError
  {
    hide Stored, MergeOk, FoldedWrites, FoldKey, Fold;
    ghost var l, reducers := state.limits, state.reducers.entries;
    var todo := changes.Keys;
    ghost var done: set<string> := {};
    StoredBounds(l, reducers, snapshot, changes, state.data);
    while todo != {}
      invariant todo <= changes.Keys && done == changes.Keys - todo
      invariant Stored(l, reducers, snapshot, changes, done, state.data)
    {
      var key :| key in todo;
      r := StoreKey(state, snapshot, changes, done, key);
      if r.Err? {
        return;
      }
      todo := todo - {key};
      done := done + {key};
    }
    assert done == changes.Keys;
    StoredBounds(l, reducers, snapshot, changes, state.data);
    r := Ok(());
  }

  // ---- Consequences ---------------------------------------------------------------

  /** A key changed by one branch alone, without a reducer, gets that branch's value; a key
    * changed by none keeps its value. */
  lemma {:induction false} LastWriteFold(base: Json, values: seq<Json>)
    requires values != []
    ensures Fold(LastWriteWins, base, values) == Ok(values[|values| - 1])
    decreases |values|
  {
    if |values| == 1 {
      assert values[1..] == [];
    } else {
      LastWriteFold(values[0], values[1..]);
    }
  }

  lemma MergeAt(l: Limits, reducers: map<string, Reducer>, snapshot: Data, branches: seq<Data>, key: string)
    requires Merge(l, reducers, snapshot, branches).Some?
    ensures var merged, values := Merge(l, reducers, snapshot, branches).value, ChangedValues(snapshot, branches, key);
      && (values == [] ==> (key in merged <==> key in snapshot) && (key in merged ==> merged[key] == snapshot[key]))
      && (values != [] ==> key in merged && Ok(merged[key]) == FoldKey(reducers, snapshot, values, key))
      && (values != [] && key !in reducers ==> merged[key] == values[|values| - 1])
  {
    hide Merge, ChangedValues, FoldedWrites, FoldKey;
    var values := ChangedValues(snapshot, branches, key);
    MergedWrites(l, reducers, snapshot, branches, key);
    if values != [] && key !in reducers {
      LastWriteKey(reducers, snapshot, values, key);
    }
  }

  lemma LastWriteKey(reducers: map<string, Reducer>, snapshot: Data, values: seq<Json>, key: string)
    requires values != [] && key !in reducers
    ensures FoldKey(reducers, snapshot, values, key) == Ok(values[|values| - 1])
  {
    hide Fold;
    LastWriteFold(Base(snapshot, key), values);
  }

  lemma MergedWrites(l: Limits, reducers: map<string, Reducer>, snapshot: Data, branches: seq<Data>, key: string)
    requires Merge(l, reducers, snapshot, branches).Some?
    ensures var merged, values := Merge(l, reducers, snapshot, branches).value, ChangedValues(snapshot, branches, key);
      if values == [] then (key in merged <==> key in snapshot) && (key in merged ==> merged[key] == snapshot[key])
      else key in merged && Ok(merged[key]) == FoldKey(reducers, snapshot, values, key)
  {
    hide FoldKey, InsertAllOk, ChangedValues;
    var values := ChangedValues(snapshot, branches, key);
    assert key in ChangedKeys(snapshot, branches) <==> values != [];
    hide ChangedKeys;
    if values != [] {
      assert Changes(snapshot, branches)[key] == values;
    }
  }

  lemma MergeKeepsLimits(l: Limits, reducers: map<string, Reducer>, snapshot: Data, branches: seq<Data>)
    requires WithinLimits(l, snapshot) && Merge(l, reducers, snapshot, branches).Some?
    ensures WithinLimits(l, Merge(l, reducers, snapshot, branches).value)
  {
    InsertAllKeepsLimits(l, snapshot, FoldedWrites(reducers, snapshot, Changes(snapshot, branches)));
  }
}
