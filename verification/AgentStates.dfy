/** The bounded key-value state of agent-graph/src/state.rs and its optimistic transactions. */
module AgentStates {
  import opened Values
  import opened Reducers

  /** `size` stands for the length of the serialized value, which the model leaves open. */
  datatype Limits = Limits(maxKeys: nat, maxValueBytes: nat, maxHistoryLen: nat, size: Json -> nat)

  predicate SizeOk(l: Limits, value: Json) {
    l.size(value) <= l.maxValueBytes
  }

  predicate InsertOk(l: Limits, data: Data, key: string, value: Json) {
    SizeOk(l, value) && (key in data || |data| < l.maxKeys)
  }

  predicate WithinLimits(l: Limits, data: Data) {
    |data| <= l.maxKeys && forall key :: key in data ==> SizeOk(l, data[key])
  }

  /** `set_raw`: insert without consulting the reducers. */
  function SetRawValue(l: Limits, data: Data, key: string, value: Json): Result<Data, string> {
    if InsertOk(l, data, key, value) then Ok(data[key := value]) else Err("state limit exceeded")
  }

  /** The value a `set` is about to store. */
  function NextValue(l: Limits, reducers: map<string, Reducer>, data: Data, key: string,
                     value: Json): Result<Json, string> {
    if !SizeOk(l, value) then Err("value exceeds max size")
    else if key in data then ApplyReducer(reducers, key, data[key], value)
    else Ok(value)
  }

  function SetValue(l: Limits, reducers: map<string, Reducer>, data: Data, key: string,
                    value: Json): Result<Data, string> {
    match NextValue(l, reducers, data, key, value)
    case Ok(next) => SetRawValue(l, data, key, next)
    case Err(e) => Err(e)
  }

  lemma InsertKeepsLimits(l: Limits, data: Data, key: string, value: Json)
    requires WithinLimits(l, data) && InsertOk(l, data, key, value)
    ensures WithinLimits(l, data[key := value])
  {
    assert data[key := value].Keys == data.Keys + {key};
    if key in data {
      assert data.Keys + {key} == data.Keys;
    }
  }

  lemma RemoveKeepsLimits(l: Limits, data: Data, key: string)
    requires WithinLimits(l, data)
    ensures WithinLimits(l, data - {key})
  {
    assert (data - {key}).Keys == data.Keys - {key};
    SubsetSize(data.Keys - {key}, data.Keys);
  }

  lemma SetKeepsLimits(l: Limits, reducers: map<string, Reducer>, data: Data, key: string, value: Json)
    requires WithinLimits(l, data)
    ensures var r := SetValue(l, reducers, data, key, value); r.Ok? ==> WithinLimits(l, r.value)
  {
    var next := NextValue(l, reducers, data, key, value);
    if next.Ok? && InsertOk(l, data, key, next.value) {
      InsertKeepsLimits(l, data, key, next.value);
    }
  }

  // ---- Inserting a batch of keys in any order ---------------------------------

  /** What `set` demands: the value fits, the registered reducer takes it, what is stored fits, and there is room
    * for a new key. */
  ghost predicate Writable(l: Limits, reducers: map<string, Reducer>, data: Data, key: string, value: Json) {
    && l.size(value) <= l.maxValueBytes
    && (key !in data ==> |data| < l.maxKeys)
    && (key in data && key in reducers ==>
          var reduced := Reduce(reducers[key], data[key], value);
          reduced.Ok? && l.size(reduced.value) <= l.maxValueBytes)
  }

  function Restrict(values: Data, keys: set<string>): Data {
    map k | k in keys && k in values :: values[k]
  }

  /** Whether a whole batch of raw inserts goes through, said without an order. */
  predicate InsertAllOk(l: Limits, data: Data, values: Data) {
    && (forall k :: k in values ==> SizeOk(l, values[k]))
    && (values.Keys <= data.Keys || |data.Keys + values.Keys| <= l.maxKeys)
  }

  lemma {:induction false} SubsetSize<T>(a: set<T>, b: set<T>)
    requires a <= b
    ensures |a| <= |b|
  {
    assert b == a + (b - a);
    assert |a + (b - a)| == |a| + |b - a|;
  }

  lemma RestrictStep(data: Data, values: Data, done: set<string>, k: string)
    requires done <= values.Keys && k in values && k !in done
    ensures Restrict(values, done).Keys == done && Restrict(values, done + {k}).Keys == done + {k}
    ensures (data + Restrict(values, done)).Keys == data.Keys + done
    ensures (data + Restrict(values, done))[k := values[k]] == data + Restrict(values, done + {k})
  {
    var current := data + Restrict(values, done);
    var next := data + Restrict(values, done + {k});
    assert current[k := values[k]].Keys == next.Keys;
    forall x | x in next ensures current[k := values[k]][x] == next[x] {
    }
  }

  lemma KeyCount(limit: nat, keys: set<string>, done: set<string>, all: set<string>, k: string)
    requires done <= all && k in all && k !in done
    requires done <= keys || |keys + done| <= limit
    ensures k in keys || |keys + done| < limit ==> done + {k} <= keys || |keys + (done + {k})| <= limit
    ensures k !in keys && |keys + done| >= limit ==> !(all <= keys || |keys + all| <= limit)
  {
    var both := keys + done;
    assert keys + (done + {k}) == both + {k};
    if k in keys {
      assert both + {k} == both;
    } else {
      assert |both + {k}| == |both| + 1;
      SubsetSize(both + {k}, keys + all);
    }
  }

  /** One insert of a batch, whatever part `done` of the batch went before it. */
  lemma InsertStep(l: Limits, data: Data, values: Data, done: set<string>, k: string)
    requires done <= values.Keys && k in values && k !in done
    requires InsertAllOk(l, data, Restrict(values, done))
    ensures var current := data + Restrict(values, done);
      && (InsertOk(l, current, k, values[k]) ==> InsertAllOk(l, data, Restrict(values, done + {k})))
      && (!InsertOk(l, current, k, values[k]) ==> !InsertAllOk(l, data, values))
      && current[k := values[k]] == data + Restrict(values, done + {k})
      && (k in current <==> k in data) && (k in data ==> current[k] == data[k])
  {
    RestrictStep(data, values, done, k);
    KeyCount(l.maxKeys, data.Keys, done, values.Keys, k);
    var current := data + Restrict(values, done);
    assert |current| == |current.Keys|;
    forall x | x in Restrict(values, done + {k}) && x != k ensures SizeOk(l, values[x]) {
      assert x in Restrict(values, done);
    }
  }

  lemma InsertAllKeepsLimits(l: Limits, data: Data, values: Data)
    requires WithinLimits(l, data) && InsertAllOk(l, data, values)
    ensures WithinLimits(l, data + values)
  {
    assert (data + values).Keys == data.Keys + values.Keys;
    if values.Keys <= data.Keys {
      assert data.Keys + values.Keys == data.Keys;
    }
  }

  // ---- The state object -------------------------------------------------------

  /** The reducer table, which a state shares with its forks. */
  class ReducerTable {
    var entries: map<string, Reducer>

    constructor ()
      ensures entries == map[]
    {
      entries := map[];
    }
  }

  class AgentState {
    const limits: Limits
    const reducers: ReducerTable
    var data: Data
    var history: seq<Data>
    var version: nat

    constructor WithDataAndLimits(data: Data, limits: Limits)
      ensures this.data == data && this.limits == limits && history == [] && version == 0
      ensures fresh(reducers) && reducers.entries == map[]
    {
      this.limits := limits;
      this.reducers := new ReducerTable();
      this.data := data;
      history := [];
      version := 0;
    }

    constructor ForkOf(parent: AgentState)
      ensures data == parent.data && history == [] && version == 0
      ensures limits == parent.limits && reducers == parent.reducers
    {
      limits := parent.limits;
      reducers := parent.reducers;
      data := parent.data;
      history := [];
      version := 0;
    }

    /** A fork has its own data but the same reducer table. */
    method Fork() returns (s: AgentState)
      ensures fresh(s) && s.data == data && s.limits == limits && s.reducers == reducers
      ensures s.version == 0 && s.history == []
    {
      s := new AgentState.ForkOf(this);
    }

    method RegisterReducer(key: string, reducer: Reducer)
      modifies reducers
      ensures reducers.entries == old(reducers.entries)[key := reducer]
    {
      reducers.entries := reducers.entries[key := reducer];
    }

    /** Either the state holds the reduced value and has a new version, or nothing changed. */
    method Set(key: string, value: Json) returns (r: Result<(), string>)
      modifies this`data, this`version
      ensures r.Ok? <==> Writable(limits, reducers.entries, old(data), key, value)
      ensures r.Ok? ==>
        data == old(data)[key :=
          if key in old(data) && key in reducers.entries then Reduce(reducers.entries[key], old(data)[key], value).value
          else value]
      ensures match SetValue(limits, reducers.entries, old(data), key, value)
        case Ok(next) => r.Ok? && data == next && version == old(version) + 1
        case Err(e) => r == Err(e) && data == old(data) && version == old(version)
    {
      if !SizeOk(limits, value) {
        return Err("value exceeds max size");
      }
      var nextValue := value;
      if key in data {
        var reduced := ApplyReducer(reducers.entries, key, data[key], value);
        if reduced.Err? {
          return Err(reduced.error);
        }
        nextValue := reduced.value;
      }
      r := SetRaw(key, nextValue);
    }

    method SetRaw(key: string, value: Json) returns (r: Result<(), string>)
      modifies this`data, this`version
      ensures r.Ok? <==> limits.size(value) <= limits.maxValueBytes && (key in old(data) || |old(data)| < limits.maxKeys)
      ensures data == if r.Ok? then old(data)[key := value] else old(data)
      ensures match SetRawValue(limits, old(data), key, value)
        case Ok(next) => r.Ok? && data == next && version == old(version) + 1
        case Err(e) => r == Err(e) && data == old(data) && version == old(version)
    {
      if !InsertOk(limits, data, key, value) {
        return Err("state limit exceeded");
      }
      data := data[key := value];
      version := version + 1;
      r := Ok(());
    }

    method Remove(key: string) returns (removed: Option<Json>)
      modifies this`data, this`version
      ensures data == old(data) - {key}
      ensures removed == if key in old(data) then Some(old(data)[key]) else None
      ensures version == if key in old(data) then old(version) + 1 else old(version)
    {
      if key !in data {
        assert data - {key} == data;
        return None;
      }
      removed := Some(data[key]);
      data := data - {key};
      version := version + 1;
    }

    /** The oldest snapshot makes room for the newest. */
    method SaveToHistory()
      modifies this`history
      ensures |old(history)| <= (if limits.maxHistoryLen == 0 then 1 else limits.maxHistoryLen) ==>
        |history| <= (if limits.maxHistoryLen == 0 then 1 else limits.maxHistoryLen)
      ensures history != [] && history[|history| - 1] == data
      ensures history == (if |old(history)| >= limits.maxHistoryLen && old(history) != []
        then old(history)[1..] else old(history)) + [data]
    {
      if |history| >= limits.maxHistoryLen && |history| > 0 {
        history := history[1..];
      }
      history := history + [data];
    }

    /** A map over the limits is rejected without an error. */
    method ReplaceData(next: Data)
      modifies this`data, this`version
      ensures if |next| <= limits.maxKeys && forall key :: key in next ==> limits.size(next[key]) <= limits.maxValueBytes
        then data == next && version == old(version) + 1
        else data == old(data) && version == old(version)
    {
      if !WithinLimits(limits, next) {
        return;
      }
      data := next;
      version := version + 1;
    }

    method Restore(snapshot: Data)
      modifies this`data, this`version
      ensures if |snapshot| <= limits.maxKeys && forall key :: key in snapshot ==> limits.size(snapshot[key]) <= limits.maxValueBytes
        then data == snapshot && version == old(version) + 1
        else data == old(data) && version == old(version)
    {
      ReplaceData(snapshot);
    }
  }

  /** Writes staged on a private copy of a state's data. */
  class StateTransaction {
    const state: AgentState
    const snapshotVersion: nat
    var working: Data
    var committed: bool

    constructor (state: AgentState)
      ensures this.state == state && snapshotVersion == state.version
      ensures working == state.data && !committed
    {
      this.state := state;
      snapshotVersion := state.version;
      working := state.data;
      committed := false;
    }

    method Set(key: string, value: Json) returns (r: Result<(), string>)
      modifies this`working
      ensures r.Ok? <==> Writable(state.limits, state.reducers.entries, old(working), key, value)
      ensures match SetValue(state.limits, state.reducers.entries, old(working), key, value)
        case Ok(next) => r.Ok? && working == next
        case Err(e) => r == Err(e) && working == old(working)
    {
      if !SizeOk(state.limits, value) {
        return Err("value exceeds max size");
      }
      var nextValue := value;
      if key in working {
        var reduced := ApplyReducer(state.reducers.entries, key, working[key], value);
        if reduced.Err? {
          return Err(reduced.error);
        }
        nextValue := reduced.value;
      }
      if !InsertOk(state.limits, working, key, nextValue) {
        return Err("state limit exceeded");
      }
      working := working[key := nextValue];
      r := Ok(());
    }

    method Commit() returns (r: Result<(), string>)
      modifies this`committed, state`data, state`version
      ensures r.Ok? <==> old(state.version) == snapshotVersion
      ensures committed <==> (r.Ok? || old(committed))
      ensures if r.Ok? && WithinLimits(state.limits, working)
        then state.data == working && state.version == old(state.version) + 1
        else state.data == old(state.data) && state.version == old(state.version)
    {
      if state.version != snapshotVersion {
        return Err("Transaction conflict: state was modified concurrently");
      }
      state.ReplaceData(working);
      committed := true;
      r := Ok(());
    }

    method Rollback()
      modifies this`committed
      ensures committed
    {
      committed := true;
    }
  }
}

/** Any number of transactions and direct writes interleaved on one state. */
module Transactions {
  import opened Values
  import opened Reducers
  import opened AgentStates

  /** A staged write with the reducer table it met. */
  datatype StagedSet = StagedSet(reducers: map<string, Reducer>, key: string, value: Json)

  /** `base` is the data at the beginning of the transaction. */
  datatype Tx = Tx(base: Data, snapshotVersion: nat, working: Data, staged: seq<StagedSet>)

  datatype World = World(data: Data, version: nat, reducers: map<string, Reducer>, open: map<nat, Tx>)

  datatype Op =
    | Register(key: string, reducer: Reducer)
    | Write(key: string, value: Json)
    | WriteRaw(key: string, value: Json)
    | Remove(key: string)
    | Restore(snapshot: Data)
    | Begin(tx: nat)
    | Stage(tx: nat, key: string, value: Json)
    | Commit(tx: nat)
    | Rollback(tx: nat)

  /** A direct `set`; a refused one changes nothing. */
  function Perform(l: Limits, data: Data, s: StagedSet): Data {
    match SetValue(l, s.reducers, data, s.key, s.value)
    case Ok(next) => next
    case Err(_) => data
  }

  function PerformAll(l: Limits, data: Data, staged: seq<StagedSet>): Data {
    if staged == [] then data
    else Perform(l, PerformAll(l, data, staged[..|staged| - 1]), staged[|staged| - 1])
  }

  function Stored(w: World, r: Result<Data, string>): World {
    match r
    case Ok(next) => w.(data := next, version := w.version + 1)
    case Err(_) => w
  }

  function Replaced(l: Limits, w: World, next: Data): World {
    if WithinLimits(l, next) then w.(data := next, version := w.version + 1) else w
  }

  predicate CommitSucceeds(w: World, tx: nat) {
    tx in w.open && w.open[tx].snapshotVersion == w.version
  }

  function Step(l: Limits, w: World, op: Op): World {
    match op
    case Register(key, reducer) => w.(reducers := w.reducers[key := reducer])
    case Write(key, value) => Stored(w, SetValue(l, w.reducers, w.data, key, value))
    case WriteRaw(key, value) => Stored(w, SetRawValue(l, w.data, key, value))
    case Remove(key) => if key in w.data then w.(data := w.data - {key}, version := w.version + 1) else w
    case Restore(snapshot) => Replaced(l, w, snapshot)
    case Begin(tx) => if tx in w.open then w else w.(open := w.open[tx := Tx(w.data, w.version, w.data, [])])
    case Stage(tx, key, value) =>
      if tx !in w.open then w
      else
        var t := w.open[tx];
        var s := StagedSet(w.reducers, key, value);
        w.(open := w.open[tx := t.(working := Perform(l, t.working, s), staged := t.staged + [s])])
    case Commit(tx) =>
      if tx !in w.open then w
      else
        var w' := w.(open := w.open - {tx});
        if CommitSucceeds(w, tx) then Replaced(l, w', w.open[tx].working) else w'
    case Rollback(tx) => w.(open := w.open - {tx})
  }

  function Run(l: Limits, w: World, ops: seq<Op>): World
    decreases |ops|
  {
    if ops == [] then w else Run(l, Step(l, w, ops[0]), ops[1..])
  }

  /** A transaction whose version is current still has the current data as its base. */
  ghost predicate Consistent(l: Limits, w: World) {
    forall tx :: tx in w.open ==>
      var t := w.open[tx];
      && t.snapshotVersion <= w.version
      && (t.snapshotVersion == w.version ==> t.base == w.data)
      && t.working == PerformAll(l, t.base, t.staged)
  }

  ghost predicate Bounded(l: Limits, w: World) {
    WithinLimits(l, w.data) && forall tx :: tx in w.open ==> WithinLimits(l, w.open[tx].working)
  }

  lemma StepConsistent(l: Limits, w: World, op: Op)
    requires Consistent(l, w)
    ensures Consistent(l, Step(l, w, op))
  {
    if op.Stage? && op.tx in w.open {
      var t := Step(l, w, op).open[op.tx];
      assert t.staged[..|t.staged| - 1] == w.open[op.tx].staged;
    }
    hide NextValue, WithinLimits, InsertOk, ApplyReducer;
  }

  lemma StepVersion(l: Limits, w: World, op: Op)
    ensures var w' := Step(l, w, op);
      w.version <= w'.version && (w'.version == w.version ==> w'.data == w.data)
  {
  }

  lemma StageBounded(l: Limits, w: World, tx: nat, key: string, value: Json)
    requires Bounded(l, w)
    ensures Bounded(l, Step(l, w, Stage(tx, key, value)))
  {
    if tx in w.open {
      SetKeepsLimits(l, w.reducers, w.open[tx].working, key, value);
    }
    hide WithinLimits, NextValue, InsertOk;
  }

  lemma EndBounded(l: Limits, w: World, op: Op)
    requires Bounded(l, w) && (op.Commit? || op.Rollback? || op.Begin? || op.Register? || op.Restore?)
    ensures Bounded(l, Step(l, w, op))
  {
    hide WithinLimits, PerformAll;
  }

  lemma StepBounded(l: Limits, w: World, op: Op)
    requires Bounded(l, w)
    ensures Bounded(l, Step(l, w, op))
  {
    match op
    case Write(key, value) => SetKeepsLimits(l, w.reducers, w.data, key, value);
    case WriteRaw(key, value) =>
      if InsertOk(l, w.data, key, value) {
        InsertKeepsLimits(l, w.data, key, value);
      }
    case Remove(key) => RemoveKeepsLimits(l, w.data, key);
    case Stage(tx, key, value) =>
      StageBounded(l, w, tx, key, value);
    case _ =>
      EndBounded(l, w, op);
  }

  /** Over every interleaving, the version tells whether the data changed. */
  lemma {:induction false} RunConsistent(l: Limits, w: World, ops: seq<Op>)
    requires Consistent(l, w)
    ensures var w' := Run(l, w, ops);
      Consistent(l, w') && w.version <= w'.version && (w'.version == w.version ==> w'.data == w.data)
    decreases |ops|
  {
    if ops != [] {
      StepConsistent(l, w, ops[0]);
      StepVersion(l, w, ops[0]);
      RunConsistent(l, Step(l, w, ops[0]), ops[1..]);
    }
  }

  lemma {:induction false} RunBounded(l: Limits, w: World, ops: seq<Op>)
    requires Bounded(l, w)
    ensures Bounded(l, Run(l, w, ops))
    decreases |ops|
  {
    if ops != [] {
      StepBounded(l, w, ops[0]);
      RunBounded(l, Step(l, w, ops[0]), ops[1..]);
    }
  }

  predicate Ends(op: Op, tx: nat) {
    (op.Commit? || op.Rollback?) && op.tx == tx
  }

  /** A transaction left open keeps its base and its version. */
  lemma {:induction false} RunKeepsTx(l: Limits, w: World, ops: seq<Op>, tx: nat)
    requires tx in w.open && forall i :: 0 <= i < |ops| ==> !Ends(ops[i], tx)
    ensures var w' := Run(l, w, ops);
      tx in w'.open && w'.open[tx].base == w.open[tx].base && w'.open[tx].snapshotVersion == w.open[tx].snapshotVersion
    decreases |ops|
  {
    hide Step;
    if ops != [] {
      assert !Ends(ops[0], tx);
      StepKeepsTx(l, w, ops[0], tx);
      RunKeepsTx(l, Step(l, w, ops[0]), ops[1..], tx);
    }
  }

  lemma StepKeepsTx(l: Limits, w: World, op: Op, tx: nat)
    requires tx in w.open && !Ends(op, tx)
    ensures var w' := Step(l, w, op);
      tx in w'.open && w'.open[tx].base == w.open[tx].base && w'.open[tx].snapshotVersion == w.open[tx].snapshotVersion
  {
    hide WithinLimits, SetValue, SetRawValue, Perform;
  }

  lemma CommitStep(l: Limits, before: World, tx: nat)
    requires Consistent(l, before) && tx in before.open
    ensures var after := Step(l, before, Commit(tx));
      var direct := PerformAll(l, before.open[tx].base, before.open[tx].staged);
      && (!CommitSucceeds(before, tx) ==> after.data == before.data && after.version == before.version)
      && (CommitSucceeds(before, tx) ==>
            before.data == before.open[tx].base && after.data == if WithinLimits(l, direct) then direct else before.data)
  {
  }

  /** Main result. Between beginning and committing, anything may happen: the commit succeeds
    * exactly when no write did, a failed commit changes nothing, and a successful one leaves
    * what performing the staged sets directly leaves, provided that respects the limits. */
  lemma CommitRefinesDirectSets(l: Limits, w: World, tx: nat, ops: seq<Op>)
    requires Consistent(l, w) && tx !in w.open && forall i :: 0 <= i < |ops| ==> !Ends(ops[i], tx)
    ensures var before := Run(l, Step(l, w, Begin(tx)), ops);
      var after := Step(l, before, Commit(tx));
      && tx in before.open
      && (CommitSucceeds(before, tx) <==> before.version == w.version)
      && (before.data != w.data ==> !CommitSucceeds(before, tx))
      && (!CommitSucceeds(before, tx) ==> after.data == before.data && after.version == before.version)
      && var direct := PerformAll(l, w.data, before.open[tx].staged);
         (CommitSucceeds(before, tx) ==>
            before.data == w.data && after.data == if WithinLimits(l, direct) then direct else w.data)
  {
    var w1 := Step(l, w, Begin(tx));
    assert w1.open[tx].base == w.data && w1.open[tx].snapshotVersion == w.version == w1.version;
    StepConsistent(l, w, Begin(tx));
    RunConsistent(l, w1, ops);
    RunKeepsTx(l, w1, ops, tx);
    CommitStep(l, Run(l, w1, ops), tx);
  }

  /** From data within the limits the silent rejection never happens. */
  lemma CommitNeverDropsWrites(l: Limits, w: World, tx: nat, ops: seq<Op>)
    requires Consistent(l, w) && Bounded(l, w)
    ensures var before := Run(l, w, ops);
      CommitSucceeds(before, tx) ==>
        Step(l, before, Commit(tx)).data == PerformAll(l, before.data, before.open[tx].staged)
  {
    RunConsistent(l, w, ops);
    RunBounded(l, w, ops);
  }

  /** What the direct operations do to the state: exactly those that change it give it a new version. */
  lemma DirectOutcome(l: Limits, w: World, op: Op)
    requires op.Write? || op.WriteRaw? || op.Remove? || op.Restore?
    ensures var w' := Step(l, w, op);
      var goes := match op
        case Write(key, value) => Writable(l, w.reducers, w.data, key, value)
        case WriteRaw(key, value) => l.size(value) <= l.maxValueBytes && (key in w.data || |w.data| < l.maxKeys)
        case Remove(key) => key in w.data
        case Restore(data) => |data| <= l.maxKeys && forall key :: key in data ==> l.size(data[key]) <= l.maxValueBytes
        case _ => false;
      var next := match op
        case Write(key, value) => w.data[key :=
          if key in w.data && key in w.reducers && Reduce(w.reducers[key], w.data[key], value).Ok?
          then Reduce(w.reducers[key], w.data[key], value).value else value]
        case WriteRaw(key, value) => w.data[key := value]
        case Remove(key) => w.data - {key}
        case Restore(data) => data
        case _ => w.data;
      w' == if goes then w.(data := next, version := w.version + 1) else w
  {
  }

  function Stages(tx: nat, sets: seq<(string, Json)>): seq<Op> {
    if sets == [] then [] else [Stage(tx, sets[0].0, sets[0].1)] + Stages(tx, sets[1..])
  }

  function Writes(sets: seq<(string, Json)>): seq<Op> {
    if sets == [] then [] else [Write(sets[0].0, sets[0].1)] + Writes(sets[1..])
  }

  /** Staged on a working copy, sets do there what they do to the data when they are written directly. */
  lemma {:induction false} StagedLikeWritten(l: Limits, a: World, b: World, tx: nat, sets: seq<(string, Json)>)
    requires tx in a.open && a.open[tx].working == b.data && a.reducers == b.reducers
    ensures var a', b' := Run(l, a, Stages(tx, sets)), Run(l, b, Writes(sets));
      && tx in a'.open && a'.open[tx].working == b'.data && a'.open[tx].snapshotVersion == a.open[tx].snapshotVersion
      && a'.data == a.data && a'.version == a.version
    decreases |sets|
  {
    if sets != [] {
      var stage, write := Stage(tx, sets[0].0, sets[0].1), Write(sets[0].0, sets[0].1);
      assert Stages(tx, sets)[1..] == Stages(tx, sets[1..]) && Writes(sets)[1..] == Writes(sets[1..]);
      StagedLikeWritten(l, Step(l, a, stage), Step(l, b, write), tx, sets[1..]);
    }
  }

  lemma {:induction false} RunJoined(l: Limits, w: World, first: seq<Op>, second: seq<Op>)
    ensures Run(l, w, first + second) == Run(l, Run(l, w, first), second)
    decreases |first|
  {
    hide Step;
    if first == [] {
      assert first + second == second;
    } else {
      assert (first + second)[1..] == first[1..] + second;
      RunJoined(l, Step(l, w, first[0]), first[1..], second);
    }
  }

  /** Main result, end to end: from a state within the limits, beginning, staging any sets, some of which may be
    * refused, and committing leaves the data that writing the sets directly leaves. */
  lemma CommitIsDirect(l: Limits, w: World, tx: nat, sets: seq<(string, Json)>)
    requires Consistent(l, w) && Bounded(l, w) && tx !in w.open
    ensures Run(l, w, [Begin(tx)] + Stages(tx, sets) + [Commit(tx)]).data == Run(l, w, Writes(sets)).data
  {
    var begun := Step(l, w, Begin(tx));
    var staged := Run(l, begun, Stages(tx, sets));
    StagedLikeWritten(l, begun, w, tx, sets);
    assert Run(l, w, [Begin(tx)]) == begun by {
      assert Run(l, w, [Begin(tx)]) == Run(l, begun, [Begin(tx)][1..]);
    }
    assert Run(l, staged, [Commit(tx)]) == Step(l, staged, Commit(tx)) by {
      assert Run(l, staged, [Commit(tx)]) == Run(l, Step(l, staged, Commit(tx)), [Commit(tx)][1..]);
    }
    RunBounded(l, w, Writes(sets));
    hide Run, Step, Bounded, Consistent;
    RunJoined(l, w, [Begin(tx)], Stages(tx, sets));
    RunJoined(l, w, [Begin(tx)] + Stages(tx, sets), [Commit(tx)]);
    CommitStored(l, staged, tx);
    WithinBounded(l, Run(l, w, Writes(sets)));
  }

  lemma WithinBounded(l: Limits, w: World)
    requires Bounded(l, w)
    ensures WithinLimits(l, w.data)
  {
  }

  lemma CommitStored(l: Limits, w: World, tx: nat)
    requires tx in w.open && w.open[tx].snapshotVersion == w.version
    ensures WithinLimits(l, w.open[tx].working) ==> Step(l, w, Commit(tx)).data == w.open[tx].working
  {
  }

  /** Of two transactions open on one version, the second to commit is refused. */
  lemma FirstCommitterWins(l: Limits, w: World, first: nat, second: nat)
    requires Consistent(l, w) && Bounded(l, w) && first != second && second in w.open && CommitSucceeds(w, first)
    ensures !CommitSucceeds(Step(l, w, Commit(first)), second)
  {
    hide PerformAll, SetValue, SetRawValue, Perform;
  }

  /** Initial data is not checked against the limits, and then a commit can report success and drop
    * the staged write. */
  lemma CommitDropsWritesOverLimits(l: Limits, over: Json, fine: Json)
    requires l.maxKeys >= 2 && !SizeOk(l, over) && SizeOk(l, fine)
    ensures var w := Run(l, World(map["big" := over], 0, map[], map[]), [Begin(0), Stage(0, "k", fine)]);
      && CommitSucceeds(w, 0)
      && "k" in w.open[0].working
      && "k" !in Step(l, w, Commit(0)).data
  {
    var w0 := World(map["big" := over], 0, map[], map[]);
    var w1 := Step(l, w0, Begin(0));
    var w2 := Step(l, w1, Stage(0, "k", fine));
    assert Run(l, w0, [Begin(0), Stage(0, "k", fine)]) == w2 by {
      assert [Begin(0), Stage(0, "k", fine)][1..] == [Stage(0, "k", fine)];
      assert Run(l, w1, [Stage(0, "k", fine)]) == Run(l, w2, [Stage(0, "k", fine)][1..]);
    }
    assert |w1.open[0].working| == 1;
    assert "big" in w2.open[0].working && w2.open[0].working["big"] == over;
  }
}
