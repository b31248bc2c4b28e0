/** The superstep engine of agent-graph/src/engine.rs: retry families, the bounded parallel
  * scheduler, merging, navigation, and the checkpoint store calls around them. */
module Engine {
  import opened Values
  import opened Reducers
  import opened AgentStates
  import opened Graphs
  import opened Sorting
  import opened Iteration
  import opened Merging
  import opened EngineSpec
  import opened CheckpointStore
  import opened Branches
  import opened Schedules
  import opened Ledgers

  function Text(error: NodeError): string {
    match error
    case NodeCancelled => "cancelled"
    case NodeInterrupted => "interrupted"
    case NodeFailed(_) => "node failed"
  }

  /** The run fails, but not because of its limit, a cancellation or the store. */
  predicate FailsItself(r: Result<Data, Error>) {
    r.Err? && !r.error.MaxIterationsExceeded? && !Disturbance(r.error)
  }

  /** A store error has been counted. */
  predicate StoreErrors(before: nat, after: nat, e: Error) {
    if e.CheckpointStoreError? then after > before else after >= before
  }

  /** The state updates of a command, applied with `set` in any order of the keys. */
  method ApplyUpdates(ghost env: Env, limits: Limits, reducers: map<string, Reducer>, data: Data, updates: Data)
    returns (ok: bool, data': Data, writes: nat)
    requires env.limits == limits && env.reducers == reducers
    ensures ok <==> UpdatesOk(env, data, updates)
    ensures ok ==> data' == data + UpdateWrites(env, data, updates)
    ensures if ok then writes == |updates| else writes < |updates|
  {
    hide *;
    data', writes := data, 0;
    var todo := updates.Keys;
    ghost var done: set<string> := {};
    NothingUpdated(env, data, updates);
    while todo != {}
      invariant todo <= updates.Keys && done == updates.Keys - todo
      invariant UpdatesDone(env, data, updates, done, data')
      invariant writes + |todo| == |updates|
    {
      var key :| key in todo;
      TakeOut(updates.Keys, todo, done, key);
      UpdateNext(env, data, updates, done, data', key);
      var next := SetValue(limits, reducers, data', key, updates[key]);
      if next.Err? {
        return false, data', writes;
      }
      data', writes := next.value, writes + 1;
      todo := todo - {key};
      done := done + {key};
    }
    AllUpdated(env, data, updates, done, data');
    ok := true;
  }

  class GraphExecutor {
    const graph: Graph
    const recursionLimit: nat
    const maxParallelism: nat
    const state: AgentState
    const hasStore: bool
    const runId: RunId

    var store: Store
    var nextAttempt: AttemptId
    /** Store calls that reported an error. */
    var storeFailures: nat
    var cancelFlag: bool
    var iteration: nat
    var totalAttempts: nat
    var failedAttempts: nat
    /** `NodeStart` events emitted. */
    var nodeStarts: nat

    /** With a store, the run has just been created in it. */
    constructor (graph: Graph, recursionLimit: nat, maxParallelism: nat, state: AgentState,
                 hasStore: bool, runId: RunId, store: Store, nextAttempt: AttemptId)
      ensures this.graph == graph && this.recursionLimit == recursionLimit && this.maxParallelism == maxParallelism
      ensures this.state == state && this.hasStore == hasStore && this.runId == runId
      ensures this.store == store && this.nextAttempt == nextAttempt && storeFailures == 0
      ensures iteration == totalAttempts == failedAttempts == nodeStarts == 0
    {
      this.graph, this.recursionLimit, this.maxParallelism := graph, recursionLimit, maxParallelism;
      this.state, this.hasStore, this.runId := state, hasStore, runId;
      this.store, this.nextAttempt, storeFailures := store, nextAttempt, 0;
      cancelFlag := false;
      iteration, totalAttempts, failedAttempts, nodeStarts := 0, 0, 0, 0;
    }

    ghost function TheEnv(): Env
      reads state.reducers
    {
      Env(graph, state.limits, state.reducers.entries)
    }

    ghost function TheView(): View
      reads this`store, this`nextAttempt
    {
      View(hasStore, runId, store, nextAttempt)
    }

    /** Only a raised flag cancels, and only a configured store fails. */
    predicate Justified(e: Error)
      reads this`cancelFlag
    {
      (e.Cancelled? ==> cancelFlag) && (e.CheckpointStoreError? ==> hasStore)
    }

    // ---- Calls that may be disturbed from outside ----------------------------------

    /** Anyone may raise the flag at any time; nobody lowers it. */
    method ReadCancelFlag() returns (cancelled: bool)
      modifies this`cancelFlag
      ensures cancelled == cancelFlag
      ensures old(cancelFlag) ==> cancelFlag
    {
      if * {
        cancelFlag := true;
      }
      cancelled := cancelFlag;
    }

    /** Any store call may fail, and then it has no effect. */
    method TryRecord(node: string, ordinal: nat, input: Json) returns (r: Result<AttemptId, Error>)
      modifies this`store, this`nextAttempt, this`storeFailures
      ensures r.Ok? ==>
        && r.value == old(nextAttempt) && nextAttempt == old(nextAttempt) + 1
        && store == RecordAttempt(old(store), NewAttempt(r.value, runId, node, ordinal, input))
        && storeFailures == old(storeFailures)
      ensures r.Err? ==>
        && r.error == CheckpointStoreError(OpRecordAttempt) && storeFailures > old(storeFailures)
        && store == old(store) && nextAttempt == old(nextAttempt)
    {
      if * {
        storeFailures := storeFailures + 1;
        return Err(CheckpointStoreError(OpRecordAttempt));
      }
      store := RecordAttempt(store, NewAttempt(nextAttempt, runId, node, ordinal, input));
      r := Ok(nextAttempt);
      nextAttempt := nextAttempt + 1;
    }

    method TryEnd(id: AttemptId, change: Change) returns (r: Result<(), Error>)
      modifies this`store, this`storeFailures
      ensures r.Ok? ==> store == ChangeAttempt(old(store), id, change) && storeFailures == old(storeFailures)
      ensures r.Err? ==> r.error.CheckpointStoreError? && storeFailures > old(storeFailures) && store == old(store)
    {
      if * {
        storeFailures := storeFailures + 1;
        return Err(CheckpointStoreError(if change.Complete? then OpCompleteAttempt else OpFailAttempt));
      }
      store := ChangeAttempt(store, id, change);
      r := Ok(());
    }

    // ---- One retry family ------------------------------------------------------------

    /** Before a trial: check for cancellation, announce the trial and record the attempt. */
    method BeginTrial(b: Branch, ghost others: set<AttemptId>) returns (b': Branch)
      requires b.phase.Ready? && ViewOk(TheView(), others) && LogInv(b)
      modifies this`store, this`nextAttempt, this`storeFailures, this`cancelFlag, this`nodeStarts
      ensures Disturbed(b') || (b'.phase.Started? && b' == b.(phase := b'.phase, log := b'.log, records := b'.records))
      ensures ViewOk(TheView(), if StoreFailed(b') then others else others + Open(b'))
      ensures (old(cancelFlag) ==> cancelFlag) && (b'.phase.Stopped? ==> Justified(b'.phase.error))
      ensures LogInv(b') && AttemptKnown(TheView(), b') && AttemptsStay(old(store), store)
      ensures hasStore && b'.phase.Started? ==> store.attempts[b'.phase.attempt.value].input == Obj(b.data)
      ensures old(FamilyRecords(TheView(), b)) ==> FamilyRecords(TheView(), b')
      ensures Disturbed(b') || StepEffect(old(TheView()), TheView(), b, b')
      ensures b'.name == b.name && b'.ordinal == b.ordinal
      ensures nodeStarts <= old(nodeStarts) + 1
      ensures Disturbed(b') || nodeStarts == old(nodeStarts) + TrialsBegun(b') - TrialsBegun(b)
      ensures old(cancelFlag) ==> b' == b.(phase := Stopped(Error.Cancelled)) && nodeStarts == old(nodeStarts)
      ensures if StoreFailed(b') then storeFailures > old(storeFailures)
        else storeFailures == old(storeFailures)
      ensures old(RunGoing(TheView())) ==> RunGoing(TheView())
    {
      var cancelled := ReadCancelFlag();
      if cancelled {
        return b.(phase := Stopped(Error.Cancelled));
      }
      nodeStarts := nodeStarts + 1;
      var log := b.log + [NodeStart(b.ordinal)];
      if !hasStore {
        return b.(phase := Started(None), log := log);
      }
      var recorded := TryRecord(b.name, b.ordinal, Obj(b.data));
      if recorded.Err? {
        return b.(phase := Stopped(recorded.error), log := log);
      }
      RecordKeepsStore(old(store), runId, old(nextAttempt), others, b.name, b.ordinal, Obj(b.data));
      b' := b.(phase := Started(Some(recorded.value)), log := log, records := b.records + [recorded.value]);
    }

    /** The trial itself: the node reads and writes the state it was given. */
    method RunTrial(b: Branch) returns (b': Branch)
      requires b.name in graph.nodes && b.phase.Started?
      ensures var trial := graph.nodes[b.name](b.data, b.ordinal);
        b' == b.(data := trial.data, writes := b.writes + trial.writes, phase := Executed(b.phase.attempt, trial.outcome))
    {
      var trial := graph.nodes[b.name](b.data, b.ordinal);
      b' := b.(data := trial.data, writes := b.writes + trial.writes, phase := Executed(b.phase.attempt, trial.outcome));
    }

    /** End the attempt of a trial in the store, if there is one. */
    method CloseAttempt(b: Branch, change: Change, ghost others: set<AttemptId>) returns (r: Result<(), Error>)
      requires b.phase.Executed? && ViewOk(TheView(), others + Open(b)) && AttemptKnown(TheView(), b) && !change.Interrupt?
      modifies this`store, this`storeFailures
      ensures r.Ok? ==> ViewOk(TheView(), others) && storeFailures == old(storeFailures)
      ensures r.Ok? && hasStore ==> store == ChangeAttempt(old(store), b.phase.attempt.value, change)
      ensures forall id :: id in old(store).attempts && id !in Open(b) ==>
        id in store.attempts && store.attempts[id] == old(store).attempts[id]
      ensures AttemptsStay(old(store), store) && (old(RunGoing(TheView())) ==> RunGoing(TheView()))
      ensures r.Err? ==> r.error.CheckpointStoreError? && storeFailures > old(storeFailures)
      ensures r.Err? ==> hasStore && ViewOk(TheView(), others + Open(b))
    {
      if !hasStore || b.phase.attempt.None? {
        return Ok(());
      }
      r := TryEnd(b.phase.attempt.value, change);
      ChangeTouchesOne(old(store), b.phase.attempt.value, change);
      if r.Ok? {
        EndKeepsStore(old(store), runId, nextAttempt, others + Open(b), b.phase.attempt.value, change);
        StoreWeaken(store, runId, nextAttempt, others + Open(b) - {b.phase.attempt.value}, others);
      }
    }

    /** What a trial without an error leads to: success or a rejected update. */
    method JudgeOutput(b: Branch, output: NodeOutput, ghost expected: Family) returns (b': Branch)
      requires b.phase.Executed? && b.phase.outcome == Ok(output) && OnCourse(TheEnv(), expected, b) && LogInv(b)
      ensures OnCourse(TheEnv(), expected, b') && LogInv(b') && !Disturbed(b')
      ensures b'.name == b.name && b'.ordinal == b.ordinal && b'.records == b.records && Terminal(b')
      ensures if b'.phase == Succeeded(output) then b'.writes == b.writes + |UpdatesOf(output)|
        else b'.phase == Stopped(StateError) && b.writes <= b'.writes < b.writes + |UpdatesOf(output)|
    {
      hide UpdatesOk, UpdateWrites, UpdatesOf, OnCourse, LogInv;
      var ok, data, writes := ApplyUpdates(TheEnv(), state.limits, state.reducers.entries, b.data, UpdatesOf(output));
      OutputJudged(TheEnv(), expected, b, output, ok, data, b.writes + writes);
      b' := b.(data := data, writes := b.writes + writes, phase := if ok then Succeeded(output) else Stopped(StateError));
    }

    /** What a trial leads to: success, a rejected update, a retry or the family's error. */
    method JudgeTrial(b: Branch, ghost expected: Family) returns (change: Change, b': Branch)
      requires b.phase.Executed? && OnCourse(TheEnv(), expected, b) && LogInv(b)
      ensures OnCourse(TheEnv(), expected, b') && LogInv(b') && !Disturbed(b')
      ensures b'.name == b.name && b'.ordinal == b.ordinal && b'.records == b.records
      ensures b'.phase.Backoff? || Terminal(b')
      ensures if b'.phase.Succeeded? then change.Complete? && change.output == Obj(b'.data) else change.Fail?
      ensures b'.phase.Succeeded? ==> b'.writes == b.writes + |UpdatesOf(b'.phase.output)|
      ensures b.phase.outcome.Err? ==> b'.writes == b.writes
    {
      match b.phase.outcome {
        case Ok(output) =>
          b' := JudgeOutput(b, output, expected);
          change := if b'.phase.Succeeded? then Complete(Obj(b'.data), map[]) else Fail("state error");
        case Err(error) =>
          change := Fail(Text(error));
          if ShouldRetry(graph, b.name, b.ordinal, error) {
            b' := b.(phase := Backoff, log := b.log + [NodeEnd(b.ordinal)]);
            assert TrialLog(b.ordinal + 1) == TrialLog(b.ordinal) + [NodeStart(b.ordinal), NodeEnd(b.ordinal)];
          } else {
            b' := b.(phase := Stopped(FromNode(error)));
          }
      }
    }

    /** After a trial: settle its attempt in the store, and go on, retry or stop. */
    method EndTrial(b: Branch, ghost expected: Family, ghost others: set<AttemptId>) returns (b': Branch)
      requires b.phase.Executed? && OnCourse(TheEnv(), expected, b)
      requires ViewOk(TheView(), others + Open(b)) && LogInv(b) && AttemptKnown(TheView(), b)
      modifies this`store, this`storeFailures
      ensures OnCourse(TheEnv(), expected, b') && b'.name == b.name && b'.ordinal == b.ordinal
      ensures b'.phase.Backoff? || Terminal(b')
      ensures LogInv(b') && AttemptsStay(old(store), store)
      ensures old(FamilyRecords(TheView(), b)) ==> FamilyRecords(TheView(), b')
      ensures Disturbed(b') || StepEffect(old(TheView()), TheView(), b, b')
      ensures if Disturbed(b') then StoreFailed(b') && storeFailures > old(storeFailures)
        else ViewOk(TheView(), others) && storeFailures == old(storeFailures)
      ensures Disturbed(b') ==> hasStore && ViewOk(TheView(), others + Open(b))
      ensures old(RunGoing(TheView())) ==> RunGoing(TheView())
    {
      var change;
      change, b' := JudgeTrial(b, expected);
      var closed := CloseAttempt(b, change, others);
      if closed.Err? {
        return b.(phase := Stopped(closed.error));
      }
      if hasStore && RecordsInv(old(store), runId, nextAttempt, b) {
        RecordsClosed(old(store), store, runId, nextAttempt, b, b', change);
      }
    }

    /** After the delay between trials, in which the flag is watched. */
    method EndBackoff(b: Branch) returns (b': Branch)
      requires b.phase.Backoff? && LogInv(b)
      modifies this`cancelFlag
      ensures b' == b.(phase := Stopped(Error.Cancelled)) || b' == b.(phase := Ready, ordinal := b.ordinal + 1)
      ensures old(cancelFlag) ==> b'.phase == Stopped(Error.Cancelled)
      ensures (old(cancelFlag) ==> cancelFlag) && (b'.phase.Stopped? ==> cancelFlag)
      ensures LogInv(b') && (FamilyRecords(TheView(), b) ==> FamilyRecords(TheView(), b'))
    {
      var cancelled := ReadCancelFlag();
      b' := if cancelled then b.(phase := Stopped(Error.Cancelled)) else b.(phase := Ready, ordinal := b.ordinal + 1);
    }

    /** One step of a family, up to its next await point. */
    method StepFamily(b: Branch, ghost expected: Family, ghost others: set<AttemptId>) returns (b': Branch)
      requires !Terminal(b) && OnCourse(TheEnv(), expected, b)
      requires ViewOk(TheView(), others + Open(b)) && LogInv(b) && AttemptKnown(TheView(), b)
      modifies this`store, this`nextAttempt, this`storeFailures, this`cancelFlag, this`nodeStarts
      ensures OnCourse(TheEnv(), expected, b') && b'.name == b.name
      ensures StepsLeft(graph, b') < StepsLeft(graph, b)
      ensures nodeStarts + StartsLeft(graph, b') <= old(nodeStarts) + StartsLeft(graph, b)
      ensures Disturbed(b') || nodeStarts == old(nodeStarts) + TrialsBegun(b') - TrialsBegun(b)
      ensures old(cancelFlag) && (b.phase.Ready? || b.phase.Backoff?) ==>
        b' == b.(phase := Stopped(Error.Cancelled)) && nodeStarts == old(nodeStarts)
      ensures LogInv(b') && AttemptKnown(TheView(), b') && AttemptsStay(old(store), store)
      ensures old(FamilyRecords(TheView(), b)) ==> FamilyRecords(TheView(), b')
      ensures Disturbed(b') || StepEffect(old(TheView()), TheView(), b, b')
      ensures if StoreFailed(b') then storeFailures > old(storeFailures)
        else storeFailures == old(storeFailures)
      ensures ViewOk(TheView(), others + Open(if StoreFailed(b') then b else b'))
      ensures (old(cancelFlag) ==> cancelFlag) && (b'.phase.Stopped? ==> Justified(b'.phase.error))
      ensures old(RunGoing(TheView())) ==> RunGoing(TheView())
    {
      hide StoreOk, TrialLog, CanEnd, UpdatesOk, RecordsInv, StepEffect, FamilyFrom, Remaining, ViewOk, OnCourse,
        LogInv, AttemptKnown, StepsLeft, StartsLeft, AttemptsStay, TrialsBegun;
      CourseKnown(TheEnv(), expected, b);
      SameAttempts(store);
      match b.phase {
        case Ready =>
          assert others + Open(b) == others;
          b' := BeginTrial(b, others);
          Stepping(TheEnv(), expected, b, b');
        case Started(_) =>
          b' := RunTrial(b);
          TrialKeeps(TheEnv(), TheView(), expected, b, b');
          Stepping(TheEnv(), expected, b, b');
        case Executed(_, _) =>
          b' := EndTrial(b, expected, others);
          NoneOpen(TheView(), b');
          Stepping(TheEnv(), expected, b, b');
          assert others + Open(b') == others;
        case Backoff =>
          b' := EndBackoff(b);
          Stepping(TheEnv(), expected, b, b');
          BackoffKeeps(TheView(), b, b');
          assert others + Open(b') == others + Open(b);
      }
    }

    /** The sequential path: the family runs to its end on the main state. Undisturbed, the stored
      * attempts are all failed except a final completed one of a successful family. */
    method RunFamily(name: string) returns (b: Branch)
      requires name in graph.nodes && ViewOk(TheView(), {})
      modifies this`store, this`nextAttempt, this`storeFailures, this`cancelFlag, this`nodeStarts
      modifies state`data, state`version
      ensures Terminal(b) && OnCourse(TheEnv(), FamilyFrom(TheEnv(), name, old(state.data), 0), b)
      ensures state.data == b.data && state.version == old(state.version) + b.writes
      ensures (old(cancelFlag) ==> cancelFlag) && (b.phase.Stopped? ==> Justified(b.phase.error))
      ensures b.name == name && LogInv(b) && FamilyRecords(TheView(), b)
      ensures nodeStarts <= old(nodeStarts) + MaxAttempts(graph, name)
      ensures Disturbed(b) || nodeStarts == old(nodeStarts) + b.ordinal + 1
      ensures old(cancelFlag) ==> b.phase == Stopped(Error.Cancelled) && nodeStarts == old(nodeStarts)
      ensures if StoreFailed(b) then storeFailures > old(storeFailures)
        else ViewOk(TheView(), {}) && storeFailures == old(storeFailures)
      ensures RunGoing(TheView())
    {
      b := NewBranch(name, state.data);
      ghost var expected := FamilyFrom(TheEnv(), name, state.data, 0);
      StartOnCourse(TheEnv(), name, state.data);
      assert {} + Open(b) == {};
      while !Terminal(b)
        invariant OnCourse(TheEnv(), expected, b) && LogInv(b) && FamilyRecords(TheView(), b) && AttemptKnown(TheView(), b)
        invariant nodeStarts + StartsLeft(graph, b) <= old(nodeStarts) + MaxAttempts(graph, name)
        invariant Disturbed(b) || nodeStarts == old(nodeStarts) + TrialsBegun(b)
        invariant old(cancelFlag) ==>
          (b.phase.Ready? || b.phase == Stopped(Error.Cancelled)) && nodeStarts == old(nodeStarts)
        invariant if StoreFailed(b) then storeFailures > old(storeFailures)
          else ViewOk(TheView(), {} + Open(b)) && storeFailures == old(storeFailures)
        invariant b.name == name && RunGoing(TheView()) && state.version == old(state.version)
        invariant (old(cancelFlag) ==> cancelFlag) && (b.phase.Stopped? ==> Justified(b.phase.error))
        decreases StepsLeft(graph, b)
      {
        b := StepFamily(b, expected, {});
      }
      assert {} + Open(b) == {};
      state.data := b.data;
      state.version := state.version + b.writes;
    }

    // ---- The bounded scheduler ---------------------------------------------------------

    function Width(): nat
      ensures Width() >= 1
    {
      if maxParallelism > 1 then maxParallelism else 1
    }

    /** Fork the state for a branch; an unknown node is an error. */
    method SpawnBranch(name: string) returns (r: Result<Branch, Error>)
      modifies this`totalAttempts
      ensures totalAttempts == old(totalAttempts) + 1
      ensures r == if name in graph.nodes then Ok(NewBranch(name, state.data)) else Err(NodeNotFound(name))
    {
      totalAttempts := totalAttempts + 1;
      if name !in graph.nodes {
        return Err(NodeNotFound(name));
      }
      r := Ok(NewBranch(name, state.data));
    }

    ghost predicate Scheduled(frontier: seq<string>, s: Scheduler)
      reads this`store, this`nextAttempt, state`data, state.reducers
    {
      SchedInv(TheEnv(), TheView(), state.data, Width(), frontier, s)
    }

    /** All nodes spawned so far are known. */
    predicate Known(frontier: seq<string>, p: nat) {
      p <= |frontier| && forall i :: 0 <= i < p ==> frontier[i] in graph.nodes
    }

    /** The first unknown node of the frontier was due next, with that many branches in flight. */
    ghost predicate Unspawned(frontier: seq<string>, s: Scheduler, error: Error, live: nat) {
      && Known(frontier, s.p) && s.p < |frontier| && frontier[s.p] !in graph.nodes && error == NodeNotFound(frontier[s.p])
      && EndsDropped(s.events) && |Live(s.events)| == live
    }

    /** Never more branches are in flight than the configuration allows, at least one counting as allowed, and
      * if all nodes are known, at some moment that many are, or all branches if there are fewer. */
    ghost predicate SlotsUsed(frontier: seq<string>, events: seq<Event>, snapshot: Data) {
      var slots := if maxParallelism == 0 then 1 else maxParallelism;
      && Schedules.Bounded(events, snapshot, slots)
      && (Known(frontier, |frontier|) ==> Peaks(events, if |frontier| < slots then |frontier| else slots))
    }

    /** How many branches are in flight when position `p` is due. */
    function InFlightAt(p: nat): nat {
      if p < Width() then p else Width() - 1
    }

    /** Branches are left behind exactly if the unknown node was not the first and two may run at once. */
    lemma LeftBehind(frontier: seq<string>, s: Scheduler, error: Error)
      requires Unspawned(frontier, s, error, InFlightAt(s.p))
      ensures error.NodeNotFound? && !Known(frontier, |frontier|) && Missing(graph, frontier, error)
      ensures Live(s.events) != {} <==> s.p >= 1 && Width() >= 2
    {
    }

    /** The slots are full, or nothing is pending. */
    predicate Full(frontier: seq<string>, s: Scheduler) {
      Known(frontier, s.p) && (s.p == |frontier| || (|s.inFlight| == Width() && s.p >= Width()))
    }

    /** Spawn the next pending position. */
    method SpawnNext(frontier: seq<string>, s: Scheduler) returns (r: Result<(), Error>, s': Scheduler)
      requires Scheduled(frontier, s) && s.p < |frontier| && |s.inFlight| < Width() && Known(frontier, s.p)
      modifies this`totalAttempts
      ensures totalAttempts == old(totalAttempts) + 1
      ensures r == if frontier[s.p] in graph.nodes then Ok(()) else Err(NodeNotFound(frontier[s.p]))
      ensures r.Ok? ==> Scheduled(frontier, s') && s'.p == s.p + 1 && |s'.inFlight| == |s.inFlight| + 1
      ensures r.Ok? ==> s' == Spawn(s, NewBranch(frontier[s.p], state.data), state.data)
      ensures r.Ok? ==> StartsAhead(graph, frontier, s') == StartsAhead(graph, frontier, s)
      ensures r.Ok? ==> Known(frontier, s'.p)
      ensures r.Err? ==> s' == Drop(s) && Unspawned(frontier, s', r.error, |s.inFlight|)
      ensures Extends(s.events, s'.events)
      ensures r.Err? ==> Halted(state.data, Width(), frontier, s') && !AllSucceed(TheEnv(), state.data, frontier)
    {
      hide SchedInv, Halted, Live, StartsAhead, AllSucceed, FamilyFrom, Extends;
      ExtendsBy(s.events, [Spawned(s.p, state.data)]);
      ExtendsBy(s.events, [Dropped]);
      DropHalts(TheEnv(), TheView(), state.data, Width(), frontier, s);
      OneFails(TheEnv(), state.data, frontier, s.p);
      if frontier[s.p] in graph.nodes {
        SpawnKeepsInv(TheEnv(), TheView(), state.data, Width(), frontier, s);
        SpawnStarts(TheEnv(), TheView(), state.data, Width(), frontier, s);
      }
      var spawned := SpawnBranch(frontier[s.p]);
      if spawned.Err? {
        assert |s.inFlight.Keys| == |s.inFlight|;
        return Err(spawned.error), Drop(s);
      }
      r, s' := Ok(()), Spawn(s, spawned.value, state.data);
    }

    /** One branch advances to its next await point; its siblings are not affected. */
    method StepBranch(frontier: seq<string>, s: Scheduler, i: nat) returns (b: Branch)
      requires Scheduled(frontier, s) && i in s.inFlight && i < |frontier| && RunGoing(TheView())
      modifies this`store, this`nextAttempt, this`storeFailures, this`cancelFlag, this`nodeStarts
      ensures !Terminal(b) ==>
        var s' := s.(inFlight := s.inFlight[i := b]);
        && Scheduled(frontier, s') && |s'.inFlight| == |s.inFlight|
        && nodeStarts + StartsAhead(graph, frontier, s') <= old(nodeStarts) + StartsAhead(graph, frontier, s)
        && StepsAhead(graph, frontier, s') < StepsAhead(graph, frontier, s)
      ensures b.phase.Succeeded? ==>
        var s' := Join(s, i, BranchResult(b.name, b.data, b.phase.output));
        && Scheduled(frontier, s') && |s'.inFlight| == |s.inFlight| - 1
        && nodeStarts + StartsAhead(graph, frontier, s') <= old(nodeStarts) + StartsAhead(graph, frontier, s)
        && StepsAhead(graph, frontier, s') < StepsAhead(graph, frontier, s)
      ensures b.phase.Stopped? ==>
        && StepError(b.phase.error) && !b.phase.error.NodeNotFound? && Justified(b.phase.error)
        && (Disturbed(b) || !AllSucceed(TheEnv(), state.data, frontier))
        && (Disturbed(b) || BranchFailure(TheEnv(), state.data, frontier, b.phase.error))
        && DrainInv(TheEnv(), TheView(), state.data, Width(), frontier, GiveUp(s, i), Open(s.inFlight[i]))
        && nodeStarts + StartsAhead(graph, frontier, GiveUp(s, i)) <= old(nodeStarts) + StartsAhead(graph, frontier, s)
      ensures old(cancelFlag) ==> cancelFlag
      ensures LogInv(b) && b.name == s.inFlight[i].name
      ensures old(FamilyRecords(TheView(), s.inFlight[i])) ==> FamilyRecords(TheView(), b)
      ensures Disturbed(b) || StepEffect(old(TheView()), TheView(), s.inFlight[i], b)
      ensures if StoreFailed(b) then storeFailures > old(storeFailures)
        else storeFailures == old(storeFailures)
      ensures RunGoing(TheView())
    {
      hide SchedInv, FamilyRecords, StepEffect, FamilyFrom, Remaining, LogInv, CanEnd, StoreOk, StartsAhead,
        StepsAhead, AllSucceed, StepsLeft, StartsLeft, BranchFailure;
      ghost var view := TheView();
      InFlightReady(TheEnv(), view, state.data, Width(), frontier, s, i);
      ghost var family := FamilyFrom(TheEnv(), frontier[i], state.data, 0);
      b := StepFamily(s.inFlight[i], family, OpenIn(s.inFlight - {i}));
      if !Terminal(b) {
        BranchGoesOn(TheEnv(), view, TheView(), state.data, Width(), frontier, s, i, b);
      } else if b.phase.Succeeded? {
        BranchJoins(TheEnv(), view, TheView(), state.data, Width(), frontier, s, i, b);
      } else {
        BranchFails(TheEnv(), view, TheView(), state.data, Width(), frontier, s, i, b);
      }
    }

    /** After a failure: the siblings are told to abort and joined, in any order. Until it gets to know, a
      * sibling may go on; what it does then reaches the store but no result. */
    method DrainBranches(frontier: seq<string>, s: Scheduler, ghost open: set<AttemptId>) returns (s': Scheduler)
      requires DrainInv(TheEnv(), TheView(), state.data, Width(), frontier, s, open) && RunGoing(TheView())
      modifies this`store, this`nextAttempt, this`storeFailures, this`cancelFlag, this`nodeStarts
      ensures Halted(state.data, Width(), frontier, s') && s'.inFlight == map[] && s'.p == s.p
      ensures Extends(s.events, s'.events)
      ensures nodeStarts + StartsAhead(graph, frontier, s') <= old(nodeStarts) + StartsAhead(graph, frontier, s)
      ensures storeFailures >= old(storeFailures) && (old(cancelFlag) ==> cancelFlag) && RunGoing(TheView())
    {
      hide DrainInv, Halted, FamilyFrom, Remaining, LogInv, CanEnd, StoreOk, StartsAhead, StepsAhead, StepsLeft,
        StartsLeft, StepEffect, FamilyRecords, Extends;
      ExtendsBy(s.events, []);
      s' := s;
      ghost var lost := open;
      while s'.inFlight != map[]
        invariant DrainInv(TheEnv(), TheView(), state.data, Width(), frontier, s', lost) && s'.p == s.p
        invariant nodeStarts + StartsAhead(graph, frontier, s') <= old(nodeStarts) + StartsAhead(graph, frontier, s)
        invariant storeFailures >= old(storeFailures) && (old(cancelFlag) ==> cancelFlag) && RunGoing(TheView())
        invariant Extends(s.events, s'.events)
        decreases StepsAhead(graph, frontier, s'), |s'.inFlight|
      {
        assert |s'.inFlight| > 0;
        var i :| i in s'.inFlight;
        ghost var before := s'.events;
        s', lost := DrainOne(frontier, s', lost, i);
        ExtendsMore(s.events, before, s'.events);
      }
      DrainHalted(TheEnv(), TheView(), state.data, Width(), frontier, s', lost);
    }

    /** A branch has failed: everything is given up. */
    method GiveUpBranches(frontier: seq<string>, s: Scheduler, i: nat) returns (s': Scheduler)
      requires i in s.inFlight && RunGoing(TheView())
      requires DrainInv(TheEnv(), TheView(), state.data, Width(), frontier, GiveUp(s, i), Open(s.inFlight[i]))
      modifies this`store, this`nextAttempt, this`storeFailures, this`cancelFlag, this`nodeStarts, this`failedAttempts
      ensures Halted(state.data, Width(), frontier, s') && s'.inFlight == map[] && s'.p == s.p
      ensures Extends(s.events, s'.events)
      ensures nodeStarts <= old(nodeStarts) + StartsAhead(graph, frontier, GiveUp(s, i))
      ensures failedAttempts == old(failedAttempts) + 1
      ensures storeFailures >= old(storeFailures) && (old(cancelFlag) ==> cancelFlag) && RunGoing(TheView())
    {
      hide DrainInv, Halted, StartsAhead, Extends, CanEnd;
      failedAttempts := failedAttempts + 1;
      s' := DrainBranches(frontier, GiveUp(s, i), Open(s.inFlight[i]));
      GiveUpExtends(s, i);
      ExtendsMore(s.events, GiveUp(s, i).events, s'.events);
    }

    /** A sibling is joined, or takes one more step first. */
    method DrainOne(frontier: seq<string>, s: Scheduler, ghost lost: set<AttemptId>, i: nat)
      returns (s': Scheduler, ghost lost': set<AttemptId>)
      requires DrainInv(TheEnv(), TheView(), state.data, Width(), frontier, s, lost) && i in s.inFlight && RunGoing(TheView())
      modifies this`store, this`nextAttempt, this`storeFailures, this`cancelFlag, this`nodeStarts
      ensures DrainInv(TheEnv(), TheView(), state.data, Width(), frontier, s', lost') && s'.p == s.p
      ensures Extends(s.events, s'.events)
      ensures nodeStarts + StartsAhead(graph, frontier, s') <= old(nodeStarts) + StartsAhead(graph, frontier, s)
      ensures storeFailures >= old(storeFailures) && (old(cancelFlag) ==> cancelFlag) && RunGoing(TheView())
      ensures StepsAhead(graph, frontier, s') <= StepsAhead(graph, frontier, s)
      ensures StepsAhead(graph, frontier, s') == StepsAhead(graph, frontier, s) ==> |s'.inFlight| < |s.inFlight|
    {
      hide DrainInv, FamilyFrom, Remaining, LogInv, CanEnd, StoreOk, StartsAhead, StepsAhead, StepsLeft, StartsLeft,
        StepEffect, FamilyRecords, Extends;
      ExtendsBy(s.events, [Drained(i)]);
      ghost var view := TheView();
      DrainReady(TheEnv(), view, state.data, Width(), frontier, s, lost, i);
      if * {
        BranchDrained(TheEnv(), view, view, state.data, Width(), frontier, s, lost, i);
        return Drain(s, i), lost + Open(s.inFlight[i]);
      }
      ghost var family := FamilyFrom(TheEnv(), frontier[i], state.data, 0);
      var b := StepFamily(s.inFlight[i], family, OpenIn(s.inFlight - {i}) + lost);
      if Terminal(b) {
        ViewWeaken(TheView(), OpenIn(s.inFlight - {i}) + lost + Open(if StoreFailed(b) then s.inFlight[i] else b),
                   OpenIn(s.inFlight - {i}) + lost + Open(s.inFlight[i]));
        BranchDrained(TheEnv(), view, TheView(), state.data, Width(), frontier, s, lost, i);
        return Drain(s, i), lost + Open(s.inFlight[i]);
      }
      BranchRunsOn(TheEnv(), view, TheView(), state.data, Width(), frontier, s, lost, i, b);
      s', lost' := s.(inFlight := s.inFlight[i := b]), lost;
    }

    /** Fill the slots that are free at the beginning. */
    method FillSlots(frontier: seq<string>) returns (r: Result<(), Error>, s: Scheduler, ghost families: Families)
      requires ViewOk(TheView(), {})
      modifies this`totalAttempts
      ensures r.Ok? ==> Ledger(TheView(), frontier, s, families)
      ensures r.Ok? ==> Scheduled(frontier, s) && Full(frontier, s)
      ensures r.Ok? ==> totalAttempts == old(totalAttempts) + s.p
      ensures r.Ok? ==> StartsAhead(graph, frontier, s) == Cost(graph, frontier)
      ensures r.Ok? ==> s.p == if Width() < |frontier| then Width() else |frontier|
      ensures r.Ok? ==> Peaks(s.events, s.p)
      ensures r.Err? ==> Halted(state.data, Width(), frontier, s)
      ensures r.Err? ==> s.p < Width() && Unspawned(frontier, s, r.error, s.p)
      ensures r.Err? ==> !AllSucceed(TheEnv(), state.data, frontier)
    {
      hide Ledger, SchedInv, Halted, AllSucceed, StartsAhead, Unspawned, Cost, Extends, Peaks, Live, ViewOk;
      s := Scheduler(0, map[], [], [], []);
      families := map[];
      NothingSpawned(TheEnv(), TheView(), state.data, Width(), frontier);
      EmptyLedger(TheView(), frontier);
      while s.p < Width() && s.p < |frontier|
        invariant Scheduled(frontier, s) && |s.inFlight| == s.p <= Width() && Known(frontier, s.p)
        invariant Ledger(TheView(), frontier, s, families)
        invariant totalAttempts == old(totalAttempts) + s.p
        invariant StartsAhead(graph, frontier, s) == Cost(graph, frontier)
        decreases |frontier| - s.p
      {
        SpawnLedger(TheView(), frontier, s, families, state.data);
        families := families[s.p := NewBranch(frontier[s.p], state.data)];
        r, s := SpawnNext(frontier, s);
        if r.Err? {
          return;
        }
      }
      AllLive(TheEnv(), TheView(), state.data, Width(), frontier, s);
      PeakNow(s.events);
      r := Ok(());
    }

    /** One turn of the join loop: some branch advances; when it has finished it is joined and the
      * next pending position takes its slot, or everything is given up. */
    method Advance(frontier: seq<string>, s: Scheduler, ghost families: Families)
      returns (r: Result<(), Error>, s': Scheduler, ghost families': Families)
      requires Scheduled(frontier, s) && s.inFlight != map[] && RunGoing(TheView())
      requires Ledger(TheView(), frontier, s, families) && Full(frontier, s)
      modifies this`store, this`nextAttempt, this`storeFailures, this`cancelFlag, this`nodeStarts
      modifies this`totalAttempts, this`failedAttempts
      ensures r.Ok? ==> Scheduled(frontier, s') && Full(frontier, s') && Ledger(TheView(), frontier, s', families')
      ensures r.Ok? ==> totalAttempts - s'.p == old(totalAttempts) - s.p
      ensures failedAttempts == old(failedAttempts) + if r.Err? && !r.error.NodeNotFound? then 1 else 0
      ensures r.Ok? ==>
        nodeStarts + StartsAhead(graph, frontier, s') <= old(nodeStarts) + StartsAhead(graph, frontier, s)
      ensures Extends(s.events, s'.events)
      ensures r.Ok? ==> s'.p > s.p || (s'.p == s.p && StepsAhead(graph, frontier, s') < StepsAhead(graph, frontier, s))
      ensures r.Err? ==> StepError(r.error) && (Disturbance(r.error) || !AllSucceed(TheEnv(), state.data, frontier))
      ensures r.Err? ==>
        Disturbance(r.error) || r.error.NodeNotFound? || BranchFailure(TheEnv(), state.data, frontier, r.error)
      ensures r.Err? ==> nodeStarts <= old(nodeStarts) + StartsAhead(graph, frontier, s)
      ensures r.Err? ==> Halted(state.data, Width(), frontier, s') && Justified(r.error)
      ensures r.Err? ==>
        if r.error.NodeNotFound? then Unspawned(frontier, s', r.error, InFlightAt(s'.p)) else s'.inFlight == map[]
      ensures r.Ok? ==> storeFailures == old(storeFailures)
      ensures r.Err? ==> StoreErrors(old(storeFailures), storeFailures, r.error)
      ensures RunGoing(TheView()) && (old(cancelFlag) ==> cancelFlag)
    {
      hide SchedInv, AllSucceed, StartsAhead, StepsAhead, Halted, DrainInv, Ledger, FamilyRecords, StepEffect,
        LogInv, LogComplete, Recorded, Unspawned, Extends, ViewOk, CanEnd, BranchFailure;
      ExtendsBy(s.events, []);
      assert |s.inFlight| > 0;
      var i :| i in s.inFlight;
      InFlightReady(TheEnv(), TheView(), state.data, Width(), frontier, s, i);
      InFlightRecorded(TheView(), frontier, s, families, i);
      ghost var view := TheView();
      var b := StepBranch(frontier, s, i);
      if !Terminal(b) {
        s', families' := s.(inFlight := s.inFlight[i := b]), families[i := b];
        StepLedger(view, TheView(), frontier, s, families, i, b, s');
        return Ok(()), s', families';
      }
      EndCompletes(b);
      EndEffect(view, TheView(), s.inFlight[i], b);
      b := EndNode(b);
      families' := families[i := b];
      if b.phase.Stopped? {
        s' := GiveUpBranches(frontier, s, i);
        return Err(b.phase.error), s', families';
      }
      var joined := Join(s, i, BranchResult(b.name, b.data, b.phase.output));
      StepLedger(view, TheView(), frontier, s, families, i, b, joined);
      r, s', families' := Refill(frontier, joined, families');
      ExtendsBy(s.events, [Joined(i)]);
      ExtendsMore(s.events, joined.events, s'.events);
    }

    /** The slot of a branch that was joined goes to the next pending position. */
    method Refill(frontier: seq<string>, s: Scheduler, ghost families: Families)
      returns (r: Result<(), Error>, s': Scheduler, ghost families': Families)
      requires Scheduled(frontier, s) && Ledger(TheView(), frontier, s, families) && Known(frontier, s.p)
      requires s.p == |frontier| || (|s.inFlight| == Width() - 1 && s.p >= Width())
      modifies this`totalAttempts
      ensures r.Ok? ==> Scheduled(frontier, s') && Full(frontier, s')
      ensures r.Ok? ==> Ledger(TheView(), frontier, s', families')
      ensures r.Ok? ==> totalAttempts - s'.p == old(totalAttempts) - s.p && (s'.p > s.p || s' == s)
      ensures r.Ok? ==> StartsAhead(graph, frontier, s') == StartsAhead(graph, frontier, s)
      ensures r.Err? ==> r.error.NodeNotFound? && Unspawned(frontier, s', r.error, InFlightAt(s'.p))
      ensures r.Err? ==> !AllSucceed(TheEnv(), state.data, frontier)
      ensures r.Err? ==> Halted(state.data, Width(), frontier, s')
      ensures Extends(s.events, s'.events)
    {
      hide AllSucceed, StartsAhead, Halted, Ledger, SchedInv, Unspawned, Known, Extends;
      r, s', families' := Ok(()), s, families;
      ExtendsBy(s.events, []);
      PendingBounded(TheEnv(), TheView(), state.data, Width(), frontier, s);
      if s.p < |frontier| {
        SpawnLedger(TheView(), frontier, s, families, state.data);
        families' := families[s.p := NewBranch(frontier[s.p], state.data)];
        r, s' := SpawnNext(frontier, s);
        if r.Err? {
          LeftBehind(frontier, s', r.error);
        }
      }
    }

    /** The parallel branches of a superstep, in every schedule: the results are those of running
      * each node on the snapshot, in some order; the main state is not touched; on success every family's
      * trials and attempts are settled; and no branch is left when the method returns, except that an unknown
      * node, when it is due, leaves all branches in flight behind. */
    method RunBranches(frontier: seq<string>)
      returns (r: Result<seq<BranchResult>, Error>, s: Scheduler, ghost families: Families)
      requires ViewOk(TheView(), {}) && RunGoing(TheView())
      modifies this`store, this`nextAttempt, this`storeFailures, this`cancelFlag, this`nodeStarts
      modifies this`totalAttempts, this`failedAttempts
      ensures r.Ok? ==>
        && AllSucceed(TheEnv(), state.data, frontier)
        && multiset(r.value) == multiset(BranchResults(TheEnv(), state.data, frontier))
      ensures r.Ok? ==>
        && ViewOk(TheView(), {}) && totalAttempts == old(totalAttempts) + |frontier|
        && failedAttempts == old(failedAttempts) && SpawnCount(s.events) == |frontier|
      ensures r.Ok? ==> Settled(TheView(), frontier, families)
      ensures failedAttempts == old(failedAttempts) + if r.Err? && !r.error.NodeNotFound? then 1 else 0
      ensures r.Err? ==> StepError(r.error) && (Disturbance(r.error) || !AllSucceed(TheEnv(), state.data, frontier))
      ensures r.Err? ==>
        || Disturbance(r.error) || Missing(graph, frontier, r.error)
        || BranchFailure(TheEnv(), state.data, frontier, r.error)
      ensures r.Ok? ==> storeFailures == old(storeFailures)
      ensures r.Err? ==> StoreErrors(old(storeFailures), storeFailures, r.error)
      ensures (r.Err? ==> Justified(r.error)) && (old(cancelFlag) ==> cancelFlag)
      ensures RunGoing(TheView()) && nodeStarts <= old(nodeStarts) + Cost(graph, frontier)
      ensures SlotsUsed(frontier, s.events, state.data) && Quiet(s.events) && SpawnCount(s.events) <= |frontier|
      ensures if r.Err? && r.error.NodeNotFound? then Unspawned(frontier, s, r.error, InFlightAt(s.p)) else Live(s.events) == {}
      ensures Known(frontier, |frontier|) ==> Live(s.events) == {}
      ensures !Known(frontier, if Width() < |frontier| then Width() else |frontier|) ==> r.Err? && r.error.NodeNotFound?
    {
      hide Ledger, Settled, Unspawned, SchedInv, AllSucceed, StartsAhead, StepsAhead, Cost, Live, SpawnCount, Peaks,
        Extends, BranchFailure, Missing;
      var filled;
      filled, s, families := FillSlots(frontier);
      if filled.Err? {
        LeftBehind(frontier, s, filled.error);
        return Err(filled.error), s, families;
      }
      ghost var filledSlots := s.p;
      while s.inFlight != map[]
        invariant Peaks(s.events, filledSlots)
        invariant Ledger(TheView(), frontier, s, families)
        invariant Scheduled(frontier, s) && Full(frontier, s)
        invariant Known(frontier, if Width() < |frontier| then Width() else |frontier|)
        invariant totalAttempts == old(totalAttempts) + s.p && failedAttempts == old(failedAttempts)
        invariant storeFailures == old(storeFailures) && RunGoing(TheView()) && (old(cancelFlag) ==> cancelFlag)
        invariant nodeStarts + StartsAhead(graph, frontier, s) <= old(nodeStarts) + Cost(graph, frontier)
        decreases |frontier| - s.p, StepsAhead(graph, frontier, s)
      {
        var advanced;
        ghost var before := s.events;
        advanced, s, families := Advance(frontier, s, families);
        PeakStays(before, s.events, filledSlots);
        if advanced.Err? {
          if advanced.error.NodeNotFound? {
            LeftBehind(frontier, s, advanced.error);
          }
          return Err(advanced.error), s, families;
        }
      }
      SchedulerDone(TheEnv(), TheView(), state.data, Width(), frontier, s);
      LedgerDone(TheView(), frontier, s, families);
      r := Ok(s.results);
    }

    // ---- Navigation ------------------------------------------------------------------

    method GetEdgeTargets(name: string) returns (r: Result<seq<string>, Error>)
      ensures match EdgeTargets(graph, state.data, name)
        case Ok(targets) => r == Ok(targets)
        case Err(code) => r == Err(RouterError(code))
    {
      if name !in graph.edges {
        return Ok([]);
      }
      var edges := graph.edges[name];
      var targets: seq<string> := [];
      for i := 0 to |edges|
        invariant RouteAll(edges[..i], state.data) == Ok(targets)
      {
        assert edges[..i + 1][..i] == edges[..i];
        match edges[i] {
          case Normal(to) => targets := targets + [to];
          case Conditional(route) =>
            var routed := route(state.data);
            if routed.Err? {
              RouteFails(edges, state.data, i);
              return Err(RouterError(routed.error));
            }
            match routed.value {
              case Next(Some(n)) => targets := targets + [n];
              case Next(None) => targets := targets + [];
              case FanOut(ns) => targets := targets + ns;
            }
        }
      }
      assert edges[..|edges|] == edges;
      r := Ok(targets);
    }

    method Resolve(name: string, output: NodeOutput) returns (r: Result<seq<string>, Error>)
      ensures match ResolveOutput(graph, state.data, name, output)
        case Ok(targets) => r == Ok(targets)
        case Err(code) => r == Err(RouterError(code))
    {
      match output {
        case Done => r := GetEdgeTargets(name);
        case Command(_, Default) => r := GetEdgeTargets(name);
        case Command(_, GotoNode(n)) => r := Ok([n]);
        case Command(_, GotoNodes(ns)) => r := Ok(ns);
        case Command(_, GotoEnd) => r := Ok([END]);
        case Command(_, Send(ops)) => r := Ok(SendTargets(ops));
      }
    }

    /** The targets of all branches, resolved on the merged state. */
    method ResolveBranches(results: seq<BranchResult>) returns (r: Result<seq<string>, Error>)
      ensures match ResolveAll(graph, state.data, results)
        case Ok(targets) => r == Ok(targets)
        case Err(code) => r == Err(RouterError(code))
    {
      var next: seq<string> := [];
      for i := 0 to |results|
        invariant ResolveAll(graph, state.data, results[..i]) == Ok(next)
      {
        assert results[..i + 1][..i] == results[..i];
        var targets := Resolve(results[i].name, results[i].output);
        if targets.Err? {
          ResolveFails(graph, state.data, results, i);
          return Err(targets.error);
        }
        next := next + targets.value;
      }
      assert results[..|results|] == results;
      r := Ok(next);
    }

    // ---- Supersteps --------------------------------------------------------------------

    /** The sequential path of a superstep. Undisturbed, every trial of the family has one start and one
      * end, and its attempts are settled. */
    method ExecuteSingle(name: string) returns (r: Result<seq<string>, Error>, family: Option<Branch>)
      requires ViewOk(TheView(), {}) && RunGoing(TheView())
      modifies this`store, this`nextAttempt, this`storeFailures, this`cancelFlag, this`nodeStarts
      modifies this`totalAttempts, this`failedAttempts, state`data, state`version
      ensures r.Ok? ==> SingleStep(TheEnv(), old(state.data), name) == Some((state.data, r.value))
      ensures r.Ok? ==> ViewOk(TheView(), {})
      ensures r.Err? ==> Disturbance(r.error) || SingleStep(TheEnv(), old(state.data), name) == None
      ensures r.Err? ==> Disturbance(r.error) || StepFailure(TheEnv(), old(state.data), [name], r.error)
      ensures if r.Err? && r.error.CheckpointStoreError? then storeFailures > old(storeFailures)
        else storeFailures == old(storeFailures)
      ensures r.Err? ==> StepError(r.error) && Justified(r.error)
      ensures old(cancelFlag) ==> cancelFlag
      ensures RunGoing(TheView()) && nodeStarts <= old(nodeStarts) + Cost(graph, [name])
      ensures totalAttempts == old(totalAttempts) + 1
      ensures failedAttempts == old(failedAttempts) + if family.Some? && family.value.phase.Stopped? then 1 else 0
      ensures family.Some? <==> name in graph.nodes
      ensures family.Some? ==>
        && LogComplete(family.value) && FamilyRecords(TheView(), family.value)
        && family.value.name == name && Terminal(family.value)
      ensures r.Ok? ==> family.Some? && family.value.phase.Succeeded?
    {
      hide ViewOk, FamilyRecords, LogInv, LogComplete, EdgeTargets, ResolveOutput, Cost;
      CostOne(graph, name);
      totalAttempts := totalAttempts + 1;
      if name !in graph.nodes {
        return Err(NodeNotFound(name)), None;
      }
      ghost var expected := FamilyFrom(TheEnv(), name, state.data, 0);
      var b := RunFamily(name);
      CourseEnds(TheEnv(), expected, b);
      EndCompletes(b);
      EndEffect(TheView(), TheView(), b, b);
      family := Some(EndNode(b));
      if b.phase.Stopped? {
        failedAttempts := failedAttempts + 1;
        return Err(b.phase.error), family;
      }
      r := Resolve(name, b.phase.output);
    }

    /** The parallel path of a superstep: whatever the schedule, the merged state and the targets
      * are those of the specification, and a failing branch leaves the main state as it was. */
    method ExecuteParallel(frontier: seq<string>)
      returns (r: Result<seq<string>, Error>, s: Scheduler, ghost families: Families)
      requires ViewOk(TheView(), {}) && RunGoing(TheView())
      modifies this`store, this`nextAttempt, this`storeFailures, this`cancelFlag, this`nodeStarts
      modifies this`totalAttempts, this`failedAttempts, state`data, state`version
      ensures r.Ok? ==> ParallelStep(TheEnv(), old(state.data), frontier) == Some((state.data, r.value))
      ensures r.Ok? ==> ViewOk(TheView(), {})
      ensures r.Err? ==> Disturbance(r.error) || ParallelStep(TheEnv(), old(state.data), frontier) == None
      ensures r.Err? && |frontier| != 1 ==> Disturbance(r.error) || StepFailure(TheEnv(), old(state.data), frontier, r.error)
      ensures r.Ok? ==> storeFailures == old(storeFailures)
      ensures r.Err? ==> StoreErrors(old(storeFailures), storeFailures, r.error)
      ensures r.Err? ==> StepError(r.error) && Justified(r.error)
      ensures old(cancelFlag) ==> cancelFlag
      ensures r.Err? && (Disturbance(r.error) || !AllSucceed(TheEnv(), old(state.data), frontier)) ==>
        state.data == old(state.data)
      ensures RunGoing(TheView()) && nodeStarts <= old(nodeStarts) + Cost(graph, frontier)
      ensures SlotsUsed(frontier, s.events, old(state.data)) && Quiet(s.events)
      ensures if r.Err? && r.error.NodeNotFound? then Unspawned(frontier, s, r.error, InFlightAt(s.p)) else Live(s.events) == {}
      ensures Known(frontier, |frontier|) ==> Live(s.events) == {}
      ensures SpawnCount(s.events) <= |frontier| && (r.Ok? ==> SpawnCount(s.events) == |frontier|)
      ensures r.Ok? ==> Settled(TheView(), frontier, families)
    {
      hide Settled, AllSucceed, BranchResults, SortByKey, ParallelStep, Schedules.Bounded, Live, SpawnCount, Cost,
        ViewOk, RunGoing, SlotsUsed, StepFailure, BranchFailure, Missing, Merge, ResolveAll, Unspawned, Known;
      var snapshot := state.data;
      var branches;
      branches, s, families := RunBranches(frontier);
      if branches.Err? {
        ParallelFails(TheEnv(), snapshot, frontier);
        if !Disturbance(branches.error) {
          NodesFail(TheEnv(), snapshot, frontier, branches.error);
        }
        return Err(branches.error), s, families;
      }
      var results := SortByKey(branches.value, OrderKey(frontier));
      AnyCompletionOrder(TheEnv(), snapshot, frontier, branches.value);
      var merged := MergeParallelStates(state, snapshot, results);
      if merged.Err? {
        if |frontier| != 1 {
          MergeFails(TheEnv(), snapshot, frontier);
        }
        return Err(merged.error), s, families;
      }
      r := ResolveBranches(results);
      if r.Err? && |frontier| != 1 {
        TargetsFail(TheEnv(), snapshot, frontier, state.data, r.error.code);
      }
    }

    // ---- The run ---------------------------------------------------------------------------

    /** `retain(|n| n != END)` and the deduplication of the next nodes are loops over the list. */
    method Retain(nodes: seq<string>) returns (r: seq<string>)
      ensures r == DropEnd(nodes)
    {
      r := [];
      for i := 0 to |nodes|
        invariant r == DropEnd(nodes[..i])
      {
        assert nodes[..i + 1][..i] == nodes[..i];
        r := r + if nodes[i] == END then [] else [nodes[i]];
      }
      assert nodes[..|nodes|] == nodes;
    }

    method Deduplicate(nodes: seq<string>) returns (r: seq<string>)
      ensures r == Dedup(nodes)
    {
      r := [];
      var seen: set<string> := {};
      for i := 0 to |nodes|
        invariant r == Dedup(nodes[..i])
        invariant forall n :: n in seen <==> n in nodes[..i]
      {
        assert nodes[..i + 1][..i] == nodes[..i];
        assert nodes[..i + 1] == nodes[..i] + [nodes[i]];
        if nodes[i] !in seen {
          r := r + [nodes[i]];
          seen := seen + {nodes[i]};
        }
      }
      assert nodes[..|nodes|] == nodes;
    }

    /** The first frontier node with an interrupt configured. */
    method FindInterrupt(names: set<string>, frontier: seq<string>) returns (node: Option<string>)
      ensures node.Some? <==> Interrupts(names, frontier)
      ensures node.Some? ==> FirstOf(names, frontier, node.value)
    {
      for i := 0 to |frontier|
        invariant forall j :: 0 <= j < i ==> frontier[j] !in names
      {
        if frontier[i] in names {
          return Some(frontier[i]);
        }
      }
      node := None;
    }

    method TrySaveSnapshot() returns (r: Result<(), Error>)
      requires RunGoing(TheView())
      modifies this`store, this`storeFailures
      ensures r.Ok? ==> storeFailures == old(storeFailures)
      ensures r.Ok? && hasStore ==> runId in store.runs && store.runs[runId].snapshot == state.data
      ensures r.Ok? && old(ViewOk(TheView(), {})) ==> ViewOk(TheView(), {})
      ensures r.Err? ==> hasStore && r.error == CheckpointStoreError(OpSaveStateSnapshot)
      ensures r.Err? ==> store == old(store) && storeFailures > old(storeFailures)
      ensures RunGoing(TheView())
    {
      if !hasStore {
        return Ok(());
      }
      if * {
        storeFailures := storeFailures + 1;
        return Err(CheckpointStoreError(OpSaveStateSnapshot));
      }
      if ViewOk(TheView(), {}) {
        SnapshotKeepsView(TheView(), {}, state.data);
      }
      store := SaveSnapshot(store, runId, state.data);
      r := Ok(());
    }

    /** Why a superstep from that state stops the run. */
    ghost predicate Stops(before: Data, frontier: seq<string>, error: Error)
      reads state`data, state.reducers
    {
      if error.InterruptError? then InterruptedAt(TheEnv(), before, frontier, error.node, state.data)
      else StepFailure(TheEnv(), before, frontier, error)
    }

    /** One superstep: interrupts, execution, and the snapshot of the state it leaves. */
    method ExecuteSuperstep(frontier: seq<string>) returns (r: Result<seq<string>, Error>)
      requires frontier != [] && ViewOk(TheView(), {}) && RunGoing(TheView())
      modifies this`store, this`nextAttempt, this`storeFailures, this`cancelFlag, this`nodeStarts
      modifies this`totalAttempts, this`failedAttempts, state`data, state`version
      ensures r.Ok? ==> Superstep(TheEnv(), old(state.data), frontier) == Some((state.data, r.value))
      ensures r.Ok? ==> ViewOk(TheView(), {})
      ensures r.Ok? ==> storeFailures == old(storeFailures)
      ensures r.Err? ==> StoreErrors(old(storeFailures), storeFailures, r.error)
      ensures (r.Err? ==> Justified(r.error)) && (old(cancelFlag) ==> cancelFlag)
      ensures r.Ok? && hasStore ==> runId in store.runs && store.runs[runId].snapshot == state.data
      ensures r.Err? ==> Disturbance(r.error) || Superstep(TheEnv(), old(state.data), frontier) == None
      ensures r.Err? ==> Disturbance(r.error) || Stops(old(state.data), frontier, r.error)
      ensures Interrupts(graph.interruptBefore, frontier) ==> r.Err? && nodeStarts == old(nodeStarts)
      ensures r.Err? && r.error.InterruptError? && hasStore ==>
        runId in store.runs && store.runs[runId].snapshot == state.data
      ensures r.Err? ==> !r.error.MaxIterationsExceeded? && !r.error.CycleDetected?
      ensures RunGoing(TheView()) && nodeStarts <= old(nodeStarts) + Cost(graph, frontier)
    {
      hide ViewOk, RunGoing, Superstep, NodeStep, SingleStep, ParallelStep, Interrupts, Schedules.Bounded, Live,
        SpawnCount, Cost, StepFailure, FirstOf;
      SuperstepCases(TheEnv(), state.data, frontier);
      var node := FindInterrupt(graph.interruptBefore, frontier);
      if node.Some? {
        var saved := TrySaveSnapshot();
        return Err(if saved.Err? then saved.error else InterruptError(node.value));
      }
      if |frontier| == 1 {
        assert frontier == [frontier[0]];
        var family;
        r, family := ExecuteSingle(frontier[0]);
      } else {
        var schedule;
        ghost var families;
        r, schedule, families := ExecuteParallel(frontier);
      }
      if r.Err? {
        return;
      }
      node := FindInterrupt(graph.interruptAfter, frontier);
      var saved := TrySaveSnapshot();
      if saved.Err? {
        return Err(saved.error);
      }
      if node.Some? {
        return Err(InterruptError(node.value));
      }
    }

    /** The superstep loop. A run that completes has followed the specification to an empty
      * frontier; one that fails undisturbed meets an error of the specification or the limit. */
    method ExecuteInner(startNode: string) returns (r: Result<Data, Error>, ghost start: Point)
      requires ViewOk(TheView(), {}) && RunGoing(TheView()) && iteration == 0
      modifies this`store, this`nextAttempt, this`storeFailures, this`cancelFlag, this`nodeStarts
      modifies this`totalAttempts, this`failedAttempts, this`iteration, state`data, state`version
      ensures StartsAt(TheEnv(), old(state.data), startNode, start) || (r.Err? && r.error.RouterError? && nodeStarts == old(nodeStarts))
      ensures startNode != START || EdgeTargets(graph, old(state.data), START).Ok? ==>
        StartsAt(TheEnv(), old(state.data), startNode, start)
      ensures iteration <= recursionLimit && iteration <= graph.maxIterations
      ensures r.Ok? ==>
        Finished(TheEnv(), start, iteration) && After(TheEnv(), start, iteration).value.data == r.value == state.data
      ensures r.Err? && r.error.MaxIterationsExceeded? ==>
        && r.error.current == r.error.max == iteration && iteration in {recursionLimit, graph.maxIterations}
        && After(TheEnv(), start, iteration).Some? && !Finished(TheEnv(), start, iteration)
      ensures FailsItself(r) && StartsAt(TheEnv(), old(state.data), startNode, start) ==>
        && iteration < recursionLimit && iteration < graph.maxIterations
        && After(TheEnv(), start, iteration).Some? && !Finished(TheEnv(), start, iteration)
        && After(TheEnv(), start, iteration + 1) == None
        && Stops(After(TheEnv(), start, iteration).value.data, After(TheEnv(), start, iteration).value.frontier, r.error)
      ensures r.Err? ==> !r.error.CycleDetected?
      ensures r.Ok? ==> ViewOk(TheView(), {})
      ensures r.Ok? ==> storeFailures == old(storeFailures)
      ensures r.Err? ==> StoreErrors(old(storeFailures), storeFailures, r.error)
      ensures (r.Err? ==> Justified(r.error)) && (old(cancelFlag) ==> cancelFlag)
      ensures r.Ok? && iteration > 0 && hasStore ==> runId in store.runs && store.runs[runId].snapshot == state.data
      ensures RunGoing(TheView())
      ensures old(cancelFlag) ==>
        && iteration == 0 && nodeStarts == old(nodeStarts) && state.data == old(state.data)
        && (r == Err(Error.Cancelled) || (r.Err? && r.error.RouterError?) || Finished(TheEnv(), start, 0))
      ensures nodeStarts <= old(nodeStarts) + Work(TheEnv(), start, Limit())
    {
      hide ViewOk, RunGoing, After, Superstep, Finished, Work, Cost, DropEnd, Dedup, Stops;
      var current: seq<string>;
      if startNode == START {
        var targets := GetEdgeTargets(START);
        if targets.Err? {
          start := Start(state.data, []);
          return Err(targets.error), start;
        }
        current := targets.value;
      } else {
        current := [startNode];
      }
      start := Start(state.data, current);
      assert StartsAt(TheEnv(), old(state.data), startNode, start);
      hide StartsAt, Start;
      AfterNone(TheEnv(), start);
      var stepNumber: nat := 0;
      var maxIter := Limit();
      while true
        invariant stepNumber == iteration <= maxIter
        invariant After(TheEnv(), start, iteration) == Some(Start(state.data, current))
        invariant ViewOk(TheView(), {}) && RunGoing(TheView()) && storeFailures == old(storeFailures)
        invariant old(cancelFlag) ==> cancelFlag
        invariant iteration > 0 && hasStore ==> runId in store.runs && store.runs[runId].snapshot == state.data
        invariant nodeStarts <= old(nodeStarts) + Work(TheEnv(), start, iteration)
        invariant old(cancelFlag) ==> iteration == 0 && nodeStarts == old(nodeStarts) && state.data == old(state.data)
        decreases maxIter - iteration
      {
        current := Retain(current);
        WorkGrows(TheEnv(), start, iteration, maxIter);
        FrontierDone(TheEnv(), start, iteration, Point(state.data, current));
        if current == [] {
          break;
        }
        var cancelled := ReadCancelFlag();
        if cancelled {
          return Err(Error.Cancelled), start;
        }
        if iteration >= maxIter {
          return Err(MaxIterationsExceeded(iteration, maxIter)), start;
        }
        if graph.cycleDetection && stepNumber > maxIter * 2 {
          return Err(CycleDetected(current)), start;
        }
        AfterStep(TheEnv(), start, iteration, Point(state.data, current));
        WorkStep(TheEnv(), start, iteration, Point(state.data, current));
        WorkGrows(TheEnv(), start, iteration + 1, maxIter);
        var next := ExecuteSuperstep(current);
        if next.Err? {
          return Err(next.error), start;
        }
        var nextNodes := Deduplicate(next.value);
        iteration := iteration + 1;
        stepNumber := stepNumber + 1;
        current := nextNodes;
      }
      r := Ok(state.data);
    }

    function Limit(): nat {
      if recursionLimit <= graph.maxIterations then recursionLimit else graph.maxIterations
    }

    /** `complete_run` or `fail_run`; the call may fail like any other. */
    method TryEndRun(status: RunStatus, operation: StoreOperation) returns (r: Result<(), Error>)
      modifies this`store, this`storeFailures
      ensures r.Ok? ==>
        CanEnd(old(store), runId) && store == SetEnded(old(store), runId, status) && storeFailures == old(storeFailures)
      ensures r.Err? ==> r.error == CheckpointStoreError(operation) && store == old(store)
      ensures r.Err? && CanEnd(old(store), runId) ==> storeFailures > old(storeFailures)
    {
      if !CanEnd(store, runId) {
        return Err(CheckpointStoreError(operation));
      }
      if * {
        storeFailures := storeFailures + 1;
        return Err(CheckpointStoreError(operation));
      }
      store := SetEnded(store, runId, status);
      r := Ok(());
    }

    /** A whole run. Success is reported only if the specification's run finished, no store call
      * failed, and the store agrees: the run is completed, none of its attempts is still running,
      * and the saved snapshot is the returned state. The stored run is completed in no other case. */
    method Execute(startNode: string) returns (r: Result<Data, Error>, ghost start: Point)
      requires ViewOk(TheView(), {}) && RunGoing(TheView()) && iteration == 0
      modifies this`store, this`nextAttempt, this`storeFailures, this`cancelFlag, this`nodeStarts
      modifies this`totalAttempts, this`failedAttempts, this`iteration, state`data, state`version
      ensures r.Ok? ==> StartsAt(TheEnv(), old(state.data), startNode, start)
      ensures r.Ok? ==>
        Finished(TheEnv(), start, iteration) && After(TheEnv(), start, iteration).value.data == r.value == state.data
      ensures startNode != START || EdgeTargets(graph, old(state.data), START).Ok? ==>
        StartsAt(TheEnv(), old(state.data), startNode, start)
      ensures iteration <= recursionLimit && iteration <= graph.maxIterations
      ensures r.Err? && r.error.MaxIterationsExceeded? ==>
        && r.error.current == r.error.max == iteration && iteration in {recursionLimit, graph.maxIterations}
        && After(TheEnv(), start, iteration).Some? && !Finished(TheEnv(), start, iteration)
      ensures FailsItself(r) && StartsAt(TheEnv(), old(state.data), startNode, start) ==>
        && iteration < recursionLimit && iteration < graph.maxIterations
        && After(TheEnv(), start, iteration).Some? && !Finished(TheEnv(), start, iteration)
        && After(TheEnv(), start, iteration + 1) == None
        && Stops(After(TheEnv(), start, iteration).value.data, After(TheEnv(), start, iteration).value.frontier, r.error)
      ensures r.Err? && r.error.MaxIterationsExceeded? ==> StartsAt(TheEnv(), old(state.data), startNode, start)
      ensures r.Err? ==> !r.error.CycleDetected?
      ensures (r.Err? ==> Justified(r.error)) && (old(cancelFlag) ==> cancelFlag)
      ensures r.Ok? && hasStore ==>
        && storeFailures == old(storeFailures)
        && runId in store.runs && store.runs[runId].status == RunCompleted && NoneRunning(store, runId)
        && (iteration > 0 ==> store.runs[runId].snapshot == r.value)
      ensures r.Err? && hasStore ==> runId in store.runs && store.runs[runId].status != RunCompleted
      ensures r.Err? && hasStore && storeFailures == old(storeFailures) ==> store.runs[runId].status == RunFailed
      ensures StartsAt(TheEnv(), old(state.data), startNode, start) ==>
        nodeStarts <= old(nodeStarts) + Work(TheEnv(), start, Limit())
    {
      hide After, Finished, Work, StartsAt, StepFailure, InterruptedAt;
      r, start := ExecuteInner(startNode);
      if hasStore {
        var ended;
        if r.Ok? {
          ended := TryEndRun(RunCompleted, OpCompleteRun);
        } else {
          ended := TryEndRun(RunFailed, OpFailRun);
        }
        if ended.Err? {
          r := Err(ended.error);
        }
      }
    }
  }

  // ---- An unknown node ---------------------------------------------------------------------

  /** A known node, and a frontier that also names an unknown one, as a command may. */
  const Lonely := Graph(map["a" := (data: Data, k: nat) => Trial(data, 0, Ok(Done))], map[], map[], 1, false, {}, {})

  /** With two slots the known node is spawned, the unknown one is reported, and the branch of the known one
    * is left in flight. */
  method UnknownNodeLeavesBranch(limits: Limits) returns (r: Result<seq<BranchResult>, Error>, s: Scheduler)
    ensures r == Err(NodeNotFound("ghost")) && |Live(s.events)| == 1
  {
    var frontier := ["a", "ghost"];
    var state := new AgentState.WithDataAndLimits(map[], limits);
    var executor := new GraphExecutor(Lonely, 1, 2, state, false, 0, Store(map[], map[]), 0);
    ghost var families;
    assert frontier[1] !in executor.graph.nodes;
    r, s, families := executor.RunBranches(frontier);
    assert frontier[0] in executor.graph.nodes;
    assert s.p == 1;
  }

  // ---- Lemmas about the pieces -----------------------------------------------------------

  /** Applying updates, at a point where the keys `done` have been set. */
  ghost predicate UpdatesDone(env: Env, data: Data, updates: Data, done: set<string>, current: Data) {
    var writes := UpdateWrites(env, data, updates);
    && done <= updates.Keys
    && (forall key :: key in done ==> NextValue(env.limits, env.reducers, data, key, updates[key]).Ok?)
    && InsertAllOk(env.limits, data, Restrict(writes, done))
    && current == data + Restrict(writes, done)
  }

  lemma TakeOut(all: set<string>, todo: set<string>, done: set<string>, key: string)
    requires todo <= all && done == all - todo && key in todo
    ensures key in all && key !in done && todo - {key} <= all
    ensures done + {key} == all - (todo - {key}) && |todo - {key}| == |todo| - 1
  {
  }

  lemma NothingUpdated(env: Env, data: Data, updates: Data)
    ensures UpdatesDone(env, data, updates, {}, data)
  {
    assert data + Restrict(UpdateWrites(env, data, updates), {}) == data;
  }

  lemma AllUpdated(env: Env, data: Data, updates: Data, done: set<string>, current: Data)
    requires UpdatesDone(env, data, updates, done, current) && done == updates.Keys
    ensures UpdatesOk(env, data, updates) && current == data + UpdateWrites(env, data, updates)
  {
    var writes := UpdateWrites(env, data, updates);
    assert Restrict(writes, done) == writes;
  }

  lemma UpdateNext(env: Env, data: Data, updates: Data, done: set<string>, current: Data, key: string)
    requires UpdatesDone(env, data, updates, done, current) && key in updates && key !in done
    ensures var next := SetValue(env.limits, env.reducers, current, key, updates[key]);
      && (next.Ok? ==> UpdatesDone(env, data, updates, done + {key}, next.value))
      && (next.Err? ==> !UpdatesOk(env, data, updates))
  {
    InsertStep(env.limits, data, UpdateWrites(env, data, updates), done, key);
    assert NextValue(env.limits, env.reducers, current, key, updates[key]) ==
      NextValue(env.limits, env.reducers, data, key, updates[key]);
  }

  /** What the four kinds of steps have in common. */
  lemma Stepping(env: Env, expected: Family, b: Branch, b': Branch)
    requires OnCourse(env, expected, b) && !Terminal(b) && b'.name == b.name
    requires match b.phase
      case Ready => b'.ordinal == b.ordinal && (Disturbed(b') || (b'.phase.Started? && b'.data == b.data))
      case Started(attempt) => var trial := env.graph.nodes[b.name](b.data, b.ordinal);
        b'.data == trial.data && b'.ordinal == b.ordinal && b'.phase == Executed(attempt, trial.outcome)
      case Executed(_, _) => OnCourse(env, expected, b') && b'.ordinal == b.ordinal && (b'.phase.Backoff? || Terminal(b'))
      case Backoff => b'.data == b.data &&
        ((b'.ordinal == b.ordinal && b'.phase == Stopped(Error.Cancelled)) || (b'.ordinal == b.ordinal + 1 && b'.phase.Ready?))
      case _ => true
    ensures OnCourse(env, expected, b') && StepsLeft(env.graph, b') < StepsLeft(env.graph, b)
    ensures StartsLeft(env.graph, b') + (if b.phase.Ready? then 1 else 0) <= StartsLeft(env.graph, b)
    ensures Disturbed(b') || TrialsBegun(b') == TrialsBegun(b) + if b.phase.Ready? then 1 else 0
  {
  }

  lemma BackoffKeeps(v: View, b: Branch, b': Branch)
    requires b.phase.Backoff? && (b' == b.(phase := Stopped(Error.Cancelled)) || b' == b.(phase := Ready, ordinal := b.ordinal + 1))
    ensures AttemptKnown(v, b') && StepEffect(v, v, b, b')
  {
  }

  lemma CourseKnown(env: Env, expected: Family, b: Branch)
    requires OnCourse(env, expected, b)
    ensures b.name in env.graph.nodes
  {
  }

  lemma NoneOpen(v: View, b: Branch)
    requires b.phase.Backoff? || Terminal(b)
    ensures AttemptKnown(v, b)
  {
  }

  lemma SameAttempts(s: Store)
    ensures AttemptsStay(s, s)
  {
  }

  /** Running the trial changes neither the store nor what the family is on its way to. */
  lemma TrialKeeps(env: Env, v: View, expected: Family, b: Branch, b': Branch)
    requires OnCourse(env, expected, b) && LogInv(b) && AttemptKnown(v, b) && b.phase.Started?
    requires var trial := env.graph.nodes[b.name](b.data, b.ordinal);
      b' == b.(data := trial.data, writes := b.writes + trial.writes, phase := Executed(b.phase.attempt, trial.outcome))
    ensures OnCourse(env, expected, b') && LogInv(b') && AttemptKnown(v, b') && StepEffect(v, v, b, b')
    ensures FamilyRecords(v, b) ==> FamilyRecords(v, b')
  {
  }

  lemma StoreWeaken(s: Store, run: RunId, next: AttemptId, less: set<AttemptId>, more: set<AttemptId>)
    requires StoreOk(s, run, next, less) && less <= more
    ensures StoreOk(s, run, next, more)
  {
  }

  lemma ChangeTouchesOne(s: Store, id: AttemptId, change: Change)
    ensures forall other :: other in s.attempts && other != id ==>
      other in ChangeAttempt(s, id, change).attempts && ChangeAttempt(s, id, change).attempts[other] == s.attempts[other]
  {
  }

  /** Ending the current attempt of a family settles its record. */
  lemma RecordsClosed(s: Store, s': Store, run: RunId, next: AttemptId, b: Branch, b': Branch, change: Change)
    requires RecordsInv(s, run, next, b) && b.phase.Executed? && !Disturbed(b')
    requires b'.records == b.records && b'.ordinal == b.ordinal && (b'.phase.Backoff? || Terminal(b'))
    requires s' == ChangeAttempt(s, b.records[|b.records| - 1], change)
    requires b'.name == b.name
    requires if b'.phase.Succeeded? then change.Complete? && change.output == Obj(b'.data) else change.Fail?
    ensures RecordsInv(s', run, next, b')
  {
    var last := b.records[|b.records| - 1];
    assert s'.attempts == s.attempts[last := Changed(s.attempts[last], change)];
  }

  lemma {:induction false} RouteFails(edges: seq<EdgeType>, data: Data, i: nat)
    requires i < |edges| && RouteAll(edges[..i], data).Ok? && RouteOne(edges[i], data).Err?
    ensures RouteAll(edges, data) == Err(RouteOne(edges[i], data).error)
    decreases |edges|
  {
    if i < |edges| - 1 {
      assert edges[..|edges| - 1][..i] == edges[..i];
      RouteFails(edges[..|edges| - 1], data, i);
    }
  }

  lemma {:induction false} ResolveFails(g: Graph, data: Data, results: seq<BranchResult>, i: nat)
    requires i < |results| && ResolveAll(g, data, results[..i]).Ok?
    requires ResolveOutput(g, data, results[i].name, results[i].output).Err?
    ensures ResolveAll(g, data, results) == Err(ResolveOutput(g, data, results[i].name, results[i].output).error)
    decreases |results|
  {
    if i < |results| - 1 {
      assert results[..|results| - 1][..i] == results[..i];
      ResolveFails(g, data, results[..|results| - 1], i);
    }
  }

  lemma CostOne(g: Graph, name: string)
    ensures Cost(g, [name]) == MaxAttempts(g, name)
  {
    assert CostFrom(g, [name], 0) == MaxAttempts(g, [name][0]) + CostFrom(g, [name], 1);
  }
}
