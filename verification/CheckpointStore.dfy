/** The in-memory checkpoint store of agent-graph/src/checkpoint_store.rs.
  * Every attempt is held twice: in the attempts map and in the vector of its run. Each operation
  * on an attempt updates the map in one lock section and the vector in a second one. */
module CheckpointStore {
  import opened Values

  type RunId = nat
  type AttemptId = nat

  datatype AttemptStatus = Running | Completed | Failed | Interrupted | Cancelled

  datatype RunStatus = RunRunning | RunCompleted | RunFailed | RunInterrupted | RunCancelled

  datatype AttemptRecord = AttemptRecord(
    attemptId: AttemptId, runId: RunId, nodeId: string, attempt: nat, input: Json,
    output: Option<Json>, status: AttemptStatus, error: Option<string>, meta: Data)

  datatype RunState = RunState(
    runId: RunId, graphName: string, status: RunStatus, attempts: seq<AttemptRecord>,
    snapshot: Data, interrupted: Option<string>)

  datatype Store = Store(runs: map<RunId, RunState>, attempts: map<AttemptId, AttemptRecord>)

  /** The three ways an attempt ends. */
  datatype Change =
    | Complete(output: Json, meta: Data)
    | Fail(error: string)
    | Interrupt(interrupt: string)

  function Changed(a: AttemptRecord, change: Change): AttemptRecord {
    match change
    case Complete(output, meta) => a.(status := Completed, output := Some(output), meta := meta)
    case Fail(error) => a.(status := Failed, error := Some(error))
    case Interrupt(_) => a.(status := Interrupted)
  }

  function NewAttempt(id: AttemptId, run: RunId, node: string, attempt: nat, input: Json): AttemptRecord {
    AttemptRecord(id, run, node, attempt, input, None, Running, None, map[])
  }

  // ---- Lock sections ----------------------------------------------------------

  function CreateRun(s: Store, run: RunId, name: string): Store {
    s.(runs := s.runs[run := RunState(run, name, RunRunning, [], map[], None)])
  }

  function InsertAttempt(s: Store, record: AttemptRecord): Store {
    s.(attempts := s.attempts[record.attemptId := record])
  }

  function PushCopy(s: Store, record: AttemptRecord): Store {
    if record.runId !in s.runs then s
    else
      var run := s.runs[record.runId];
      s.(runs := s.runs[record.runId := run.(attempts := run.attempts + [record])])
  }

  function ChangeRecord(s: Store, id: AttemptId, change: Change): Store {
    if id !in s.attempts then s
    else s.(attempts := s.attempts[id := Changed(s.attempts[id], change)])
  }

  /** The vector with its first copy of the attempt changed. */
  function ChangeFirst(copies: seq<AttemptRecord>, id: AttemptId, change: Change): (r: seq<AttemptRecord>)
    ensures |r| == |copies|
  {
    if copies == [] then []
    else if copies[0].attemptId == id then [Changed(copies[0], change)] + copies[1..]
    else [copies[0]] + ChangeFirst(copies[1..], id, change)
  }

  function ChangeCopy(s: Store, run: RunId, id: AttemptId, change: Change): Store {
    if run !in s.runs then s
    else
      var r := s.runs[run].(attempts := ChangeFirst(s.runs[run].attempts, id, change));
      s.(runs := s.runs[run := if change.Interrupt?
        then r.(status := RunInterrupted, interrupted := Some(change.interrupt)) else r])
  }

  function SaveSnapshot(s: Store, run: RunId, data: Data): Store {
    if run !in s.runs then s else s.(runs := s.runs[run := s.runs[run].(snapshot := data)])
  }

  predicate CanEnd(s: Store, run: RunId) {
    run in s.runs && s.runs[run].status.RunRunning?
  }

  function SetEnded(s: Store, run: RunId, status: RunStatus): Store {
    if CanEnd(s, run) then s.(runs := s.runs[run := s.runs[run].(status := status)]) else s
  }

  // ---- Whole operations ---------------------------------------------------------

  function RecordAttempt(s: Store, record: AttemptRecord): Store {
    PushCopy(InsertAttempt(s, record), record)
  }

  function ChangeAttempt(s: Store, id: AttemptId, change: Change): Store {
    if id !in s.attempts then s
    else ChangeCopy(ChangeRecord(s, id, change), s.attempts[id].runId, id, change)
  }

  lemma {:induction false} FirstFound(copies: seq<AttemptRecord>, id: AttemptId, change: Change, i: nat)
    requires i <= |copies| && forall j :: 0 <= j < i ==> copies[j].attemptId != id
    requires i < |copies| ==> copies[i].attemptId == id
    ensures ChangeFirst(copies, id, change) == if i < |copies| then copies[i := Changed(copies[i], change)] else copies
  {
    if i > 0 {
      assert copies[0].attemptId != id;
      FirstFound(copies[1..], id, change, i - 1);
      assert copies == [copies[0]] + copies[1..];
    }
  }

  /** A completed attempt has its output, a failed one its error; where it came from and its input stay. */
  predicate EndsAs(before: AttemptRecord, after: AttemptRecord, change: Change) {
    && after.attemptId == before.attemptId && after.runId == before.runId && after.nodeId == before.nodeId
    && after.attempt == before.attempt && after.input == before.input
    && match change
       case Complete(output, meta) => after.status == Completed && after.output == Some(output) && after.meta == meta
       case Fail(error) => after.status == Failed && after.error == Some(error) && after.output == before.output
       case Interrupt(_) => after.status == Interrupted && after.output == before.output && after.error == before.error
  }

  datatype StoreError = RunNotFound(run: RunId) | TerminalStateConflict(run: RunId)

  class InMemoryCheckpointStore {
    var runs: map<RunId, RunState>
    var attempts: map<AttemptId, AttemptRecord>

    constructor ()
      ensures Contents() == Store(map[], map[])
    {
      runs := map[];
      attempts := map[];
    }

    ghost function Contents(): Store
      reads this
    {
      Store(runs, attempts)
    }

    /** `run` is the freshly drawn identifier. */
    method Create(run: RunId, name: string)
      modifies this
      ensures Contents() == CreateRun(old(Contents()), run, name)
    {
      runs := runs[run := RunState(run, name, RunRunning, [], map[], None)];
    }

    method Record(id: AttemptId, run: RunId, node: string, attempt: nat, input: Json)
      modifies this
      ensures Contents() == RecordAttempt(old(Contents()), NewAttempt(id, run, node, attempt, input))
      ensures id in attempts && var a := attempts[id];
        && a.attemptId == id && a.runId == run && a.nodeId == node && a.attempt == attempt && a.input == input
        && a.status == Running && a.output.None? && a.error.None?
    {
      var record := NewAttempt(id, run, node, attempt, input);
      attempts := attempts[id := record];
      if run in runs {
        runs := runs[run := runs[run].(attempts := runs[run].attempts + [record])];
      }
    }

    /** `complete_attempt`, `fail_attempt` and `record_interrupt`; an unknown attempt is ignored. */
    method End(id: AttemptId, change: Change)
      modifies this
      ensures Contents() == ChangeAttempt(old(Contents()), id, change)
      ensures attempts.Keys == old(attempts).Keys && forall other :: other in attempts && other != id ==>
        attempts[other] == old(attempts)[other]
      ensures id in attempts ==> EndsAs(old(attempts)[id], attempts[id], change)
    {
      if id !in attempts {
        return;
      }
      attempts := attempts[id := Changed(attempts[id], change)];
      var run := attempts[id].runId;
      if run in runs {
        var r := runs[run];
        if change.Interrupt? {
          r := r.(interrupted := Some(change.interrupt), status := RunInterrupted);
        }
        var copies := UpdateFirst(r.attempts, id, change);
        runs := runs[run := r.(attempts := copies)];
      }
    }

    static method UpdateFirst(copies: seq<AttemptRecord>, id: AttemptId, change: Change) returns (r: seq<AttemptRecord>)
      ensures r == ChangeFirst(copies, id, change)
    {
      r := copies;
      var i := 0;
      while i < |copies| && copies[i].attemptId != id
        invariant 0 <= i <= |copies|
        invariant forall j :: 0 <= j < i ==> copies[j].attemptId != id
      {
        i := i + 1;
      }
      if i < |copies| {
        r := copies[i := Changed(copies[i], change)];
      }
      FirstFound(copies, id, change, i);
    }

    method SaveStateSnapshot(run: RunId, data: Data)
      modifies this
      ensures Contents() == SaveSnapshot(old(Contents()), run, data)
    {
      if run in runs {
        runs := runs[run := runs[run].(snapshot := data)];
      }
    }

    /** `complete_run` and `fail_run`: only a running run can be ended. */
    method EndRun(run: RunId, status: RunStatus) returns (r: Result<(), StoreError>)
      modifies this
      ensures Contents() == SetEnded(old(Contents()), run, status)
      ensures r.Ok? <==> CanEnd(old(Contents()), run)
      ensures r == Err(RunNotFound(run)) <==> run !in old(runs)
    {
      if run !in runs {
        return Err(RunNotFound(run));
      }
      if !runs[run].status.RunRunning? {
        return Err(TerminalStateConflict(run));
      }
      runs := runs[run := runs[run].(status := status)];
      r := Ok(());
    }
  }

  // ---- Copies of an attempt -------------------------------------------------------

  ghost predicate DistinctIds(copies: seq<AttemptRecord>) {
    forall i, j :: 0 <= i < j < |copies| ==> copies[i].attemptId != copies[j].attemptId
  }

  ghost predicate HasId(copies: seq<AttemptRecord>, id: AttemptId) {
    exists i :: 0 <= i < |copies| && copies[i].attemptId == id
  }

  /** Changing an attempt changes its one copy and leaves the others alone. */
  lemma {:induction false} ChangeFirstAt(copies: seq<AttemptRecord>, id: AttemptId, change: Change, i: nat)
    requires DistinctIds(copies) && i < |copies|
    ensures ChangeFirst(copies, id, change)[i] == if copies[i].attemptId == id then Changed(copies[i], change) else copies[i]
  {
    if copies[0].attemptId != id && i > 0 {
      assert DistinctIds(copies[1..]) by {
        assert forall j :: 0 <= j < |copies| - 1 ==> copies[1..][j] == copies[j + 1];
      }
      ChangeFirstAt(copies[1..], id, change, i - 1);
    }
  }

  lemma ChangeFirstAll(copies: seq<AttemptRecord>, id: AttemptId, change: Change)
    requires DistinctIds(copies)
    ensures var r := ChangeFirst(copies, id, change);
      DistinctIds(r) && forall i :: 0 <= i < |r| ==>
        r[i] == if copies[i].attemptId == id then Changed(copies[i], change) else copies[i]
  {
    var r := ChangeFirst(copies, id, change);
    forall i | 0 <= i < |r|
      ensures r[i] == if copies[i].attemptId == id then Changed(copies[i], change) else copies[i]
    {
      ChangeFirstAt(copies, id, change, i);
    }
  }
}

/** Writers interleaving between the two lock sections of an operation. */
module TwoCopies {
  import opened Values
  import opened CheckpointStore

  /** An operation whose second section has not run yet. */
  datatype Half = Pushing(record: AttemptRecord) | Changing(run: RunId, change: Change)

  /** `ended` counts the successful `complete_run` and `fail_run` calls of a run. */
  datatype World = World(store: Store, half: map<AttemptId, Half>, ended: map<RunId, nat>)

  datatype Action =
    | Create(run: RunId, name: string)
    | BeginRecord(record: AttemptRecord)
    | BeginChange(id: AttemptId, change: Change)
    | Finish(id: AttemptId)
    | End(run: RunId, status: RunStatus)
    | Snapshot(run: RunId, data: Data)

  ghost predicate FreshRun(s: Store, run: RunId) {
    run !in s.runs && forall id :: id in s.attempts ==> s.attempts[id].runId != run
  }

  /** Identifiers are drawn fresh, and an attempt has one writer at a time. */
  ghost predicate Enabled(w: World, a: Action) {
    match a
    case Create(run, _) => FreshRun(w.store, run)
    case BeginRecord(record) =>
      record.attemptId !in w.store.attempts && record.attemptId !in w.half && record.status.Running?
    case BeginChange(id, _) => id in w.store.attempts && id !in w.half
    case Finish(id) => id in w.half
    case End(_, status) => status.RunCompleted? || status.RunFailed?
    case Snapshot(_, _) => true
  }

  function Ended(w: World, run: RunId): nat {
    if run in w.ended then w.ended[run] else 0
  }

  ghost function Step(w: World, a: Action): World
    requires Enabled(w, a)
  {
    match a
    case Create(run, name) => w.(store := CreateRun(w.store, run, name))
    case BeginRecord(record) =>
      w.(store := InsertAttempt(w.store, record), half := w.half[record.attemptId := Pushing(record)])
    case BeginChange(id, change) =>
      w.(store := ChangeRecord(w.store, id, change),
         half := w.half[id := Changing(w.store.attempts[id].runId, change)])
    case Finish(id) =>
      var store := match w.half[id]
        case Pushing(record) => PushCopy(w.store, record)
        case Changing(run, change) => ChangeCopy(w.store, run, id, change);
      w.(store := store, half := w.half - {id})
    case End(run, status) =>
      if CanEnd(w.store, run)
      then w.(store := SetEnded(w.store, run, status), ended := w.ended[run := Ended(w, run) + 1])
      else w
    case Snapshot(run, data) => w.(store := SaveSnapshot(w.store, run, data))
  }

  /** The vector copy `c` of attempt `id`, up to a change that is still to be copied. */
  ghost predicate CopyMatches(w: World, id: AttemptId, c: AttemptRecord)
    requires id in w.store.attempts
  {
    w.store.attempts[id] ==
      if id in w.half && w.half[id].Changing? then Changed(c, w.half[id].change) else c
  }

  ghost predicate Pending(w: World, id: AttemptId) {
    id in w.half && w.half[id].Pushing?
  }

  /** Every vector holds only copies of its run's attempts, one each. */
  ghost predicate VectorInv(w: World, run: RunId)
    requires run in w.store.runs
  {
    var copies := w.store.runs[run].attempts;
    && DistinctIds(copies)
    && forall i :: 0 <= i < |copies| ==>
         var id := copies[i].attemptId;
         && id in w.store.attempts && w.store.attempts[id].runId == run
         && !Pending(w, id) && CopyMatches(w, id, copies[i])
  }

  /** An attempt whose push is done has its copy. */
  ghost predicate MapInv(w: World, id: AttemptId)
    requires id in w.store.attempts
  {
    var a := w.store.attempts[id];
    && a.attemptId == id
    && (a.runId in w.store.runs && !Pending(w, id) ==> HasId(w.store.runs[a.runId].attempts, id))
  }

  ghost predicate HalfInv(w: World, id: AttemptId)
    requires id in w.half
  {
    && id in w.store.attempts
    && match w.half[id]
       case Pushing(record) => record == w.store.attempts[id]
       case Changing(run, _) => run == w.store.attempts[id].runId
  }

  ghost predicate EndedInv(w: World, run: RunId) {
    Ended(w, run) <= 1 && (Ended(w, run) == 1 ==> run in w.store.runs && !w.store.runs[run].status.RunRunning?)
  }

  ghost predicate Inv(w: World) {
    && (forall run :: run in w.store.runs ==> VectorInv(w, run))
    && (forall id :: id in w.store.attempts ==> MapInv(w, id))
    && (forall id :: id in w.half ==> HalfInv(w, id))
    && (forall run :: EndedInv(w, run))
  }

  lemma FinishPushKeepsInv(w: World, id: AttemptId)
    requires Inv(w) && Pending(w, id)
    ensures Inv(Step(w, Finish(id)))
  {
    var w' := Step(w, Finish(id));
    assert HalfInv(w, id) && MapInv(w, id);
    var record := w.half[id].record;
    forall run | run in w'.store.runs ensures VectorInv(w', run) {
      assert VectorInv(w, run);
      if run == record.runId {
        var copies := w'.store.runs[run].attempts;
        assert copies == w.store.runs[run].attempts + [record];
        forall i | 0 <= i < |copies| - 1 ensures copies[i].attemptId != id {
          assert copies[i] == w.store.runs[run].attempts[i];
        }
      }
    }
    forall other | other in w'.store.attempts ensures MapInv(w', other) {
      assert MapInv(w, other);
      var run := w.store.attempts[other].runId;
      if run in w.store.runs {
        var before, after := w.store.runs[run].attempts, w'.store.runs[run].attempts;
        if other == id {
          assert after[|after| - 1].attemptId == id;
        } else if HasId(before, other) {
          var i :| 0 <= i < |before| && before[i].attemptId == other;
          assert after[i].attemptId == other;
        }
      }
    }
    forall other | other in w'.half ensures HalfInv(w', other) {
      assert HalfInv(w, other);
    }
    forall run ensures EndedInv(w', run) {
      assert EndedInv(w, run);
    }
  }

  lemma ChangedVectorInv(w: World, id: AttemptId, run: RunId)
    requires id in w.half && w.half[id].Changing? && HalfInv(w, id)
    requires run in w.store.runs && VectorInv(w, run)
    ensures VectorInv(Step(w, Finish(id)), run)
  {
    var w' := Step(w, Finish(id));
    var before, after := w.store.runs[run].attempts, w'.store.runs[run].attempts;
    ChangeFirstAll(before, id, w.half[id].change);
    forall i | 0 <= i < |after|
      ensures var a := after[i].attemptId;
        && a in w'.store.attempts && w'.store.attempts[a].runId == run
        && !Pending(w', a) && CopyMatches(w', a, after[i])
    {
      assert after[i].attemptId == before[i].attemptId;
    }
  }

  lemma FinishChangeKeepsInv(w: World, id: AttemptId)
    requires Inv(w) && id in w.half && w.half[id].Changing?
    ensures Inv(Step(w, Finish(id)))
  {
    var w' := Step(w, Finish(id));
    assert HalfInv(w, id) && MapInv(w, id);
    var change := w.half[id].change;
    forall run | run in w'.store.runs ensures VectorInv(w', run) {
      ChangedVectorInv(w, id, run);
    }
    forall other | other in w'.store.attempts ensures MapInv(w', other) {
      assert MapInv(w, other);
      var run := w.store.attempts[other].runId;
      if run in w.store.runs && !Pending(w, other) {
        assert VectorInv(w, run);
        ChangeFirstAll(w.store.runs[run].attempts, id, change);
        var before, after := w.store.runs[run].attempts, w'.store.runs[run].attempts;
        var i :| 0 <= i < |before| && before[i].attemptId == other;
        assert after[i].attemptId == other;
      }
    }
    forall other | other in w'.half ensures HalfInv(w', other) {
      assert HalfInv(w, other);
    }
    forall run ensures EndedInv(w', run) {
      assert EndedInv(w, run);
    }
  }

  lemma BeginKeepsInv(w: World, a: Action)
    requires Inv(w) && Enabled(w, a) && (a.BeginRecord? || a.BeginChange?)
    ensures Inv(Step(w, a))
  {
    var w' := Step(w, a);
    forall run | run in w'.store.runs ensures VectorInv(w', run) {
      assert VectorInv(w, run);
    }
    forall id | id in w'.store.attempts ensures MapInv(w', id) {
      assert id in w.store.attempts ==> MapInv(w, id);
    }
    forall id | id in w'.half ensures HalfInv(w', id) {
      assert id in w.half ==> HalfInv(w, id);
    }
    forall run ensures EndedInv(w', run) {
      assert EndedInv(w, run);
    }
  }

  lemma RunStepKeepsInv(w: World, a: Action)
    requires Inv(w) && Enabled(w, a) && (a.Create? || a.End? || a.Snapshot?)
    ensures Inv(Step(w, a))
  {
    RunStepKeepsCopies(w, a);
    hide VectorInv, MapInv, HalfInv;
    forall run ensures EndedInv(Step(w, a), run) {
      assert EndedInv(w, run);
    }
  }

  lemma RunStepKeepsCopies(w: World, a: Action)
    requires Inv(w) && Enabled(w, a) && (a.Create? || a.End? || a.Snapshot?)
    ensures var w' := Step(w, a);
      && (forall run :: run in w'.store.runs ==> VectorInv(w', run))
      && (forall id :: id in w'.store.attempts ==> MapInv(w', id))
      && (forall id :: id in w'.half ==> HalfInv(w', id))
  {
    hide EndedInv;
    var w' := Step(w, a);
    forall run | run in w'.store.runs ensures VectorInv(w', run) {
      assert run in w.store.runs ==> VectorInv(w, run);
    }
    forall id | id in w'.store.attempts ensures MapInv(w', id) {
      assert MapInv(w, id);
    }
    forall id | id in w'.half ensures HalfInv(w', id) {
      assert HalfInv(w, id);
    }
  }

  lemma StepKeepsInv(w: World, a: Action)
    requires Inv(w) && Enabled(w, a)
    ensures Inv(Step(w, a))
  {
    if a.Finish? {
      if w.half[a.id].Pushing? {
        FinishPushKeepsInv(w, a.id);
      } else {
        FinishChangeKeepsInv(w, a.id);
      }
    } else if a.BeginRecord? || a.BeginChange? {
      BeginKeepsInv(w, a);
    } else {
      RunStepKeepsInv(w, a);
    }
  }

  /** A history of worlds, each one step after the one before. */
  ghost predicate History(ws: seq<World>, actions: seq<Action>) {
    && |ws| == |actions| + 1
    && ws[0] == World(Store(map[], map[]), map[], map[])
    && forall i :: 0 <= i < |actions| ==> Enabled(ws[i], actions[i]) && ws[i + 1] == Step(ws[i], actions[i])
  }

  lemma {:induction false} HistoryInv(ws: seq<World>, actions: seq<Action>, n: nat)
    requires History(ws, actions) && n < |ws|
    ensures Inv(ws[n])
  {
    if n > 0 {
      HistoryInv(ws, actions, n - 1);
      StepKeepsInv(ws[n - 1], actions[n - 1]);
    }
  }

  /** Main result. In every interleaving: an attempt of a known run that nobody is writing has
    * exactly one copy in that run's vector, and the copy equals the map's record; and
    * `complete_run` and `fail_run` together have succeeded at most once for every run. */
  lemma CopiesAgree(ws: seq<World>, actions: seq<Action>, n: nat, id: AttemptId)
    requires History(ws, actions) && n < |ws|
    ensures forall run :: Ended(ws[n], run) <= 1
    ensures id in ws[n].store.attempts && id !in ws[n].half && ws[n].store.attempts[id].runId in ws[n].store.runs ==>
      var a := ws[n].store.attempts[id];
      var copies := ws[n].store.runs[a.runId].attempts;
      && (exists i :: 0 <= i < |copies| && copies[i] == a)
      && (forall i, j :: 0 <= i < |copies| && 0 <= j < |copies| && copies[i].attemptId == id == copies[j].attemptId ==> i == j)
  {
    HistoryInv(ws, actions, n);
    var w := ws[n];
    forall run ensures Ended(w, run) <= 1 {
      assert EndedInv(w, run);
    }
    if id in w.store.attempts && id !in w.half && w.store.attempts[id].runId in w.store.runs {
      var run := w.store.attempts[id].runId;
      var copies := w.store.runs[run].attempts;
      assert MapInv(w, id) && VectorInv(w, run);
      var i :| 0 <= i < |copies| && copies[i].attemptId == id;
      assert CopyMatches(w, id, copies[i]);
    }
  }

  // ---- When an ended run keeps its status -------------------------------------------------

  /** The step finishes an interrupt of an attempt of the run. */
  predicate Interrupting(w: World, a: Action, run: RunId) {
    a.Finish? && a.id in w.half && w.half[a.id].Changing? && w.half[a.id].run == run && w.half[a.id].change.Interrupt?
  }

  /** Exactly when a step changes the status of an ended run. */
  lemma EndedStatusChanges(w: World, a: Action, run: RunId)
    requires Enabled(w, a) && run in w.store.runs && !w.store.runs[run].status.RunRunning?
    ensures var before, after := w.store.runs, Step(w, a).store.runs;
      && run in after
      && (after[run].status != before[run].status <==> !before[run].status.RunInterrupted? && Interrupting(w, a, run))
      && after[run].status == if Interrupting(w, a, run) then RunInterrupted else before[run].status
  {
  }

  ghost predicate InterruptedBetween(ws: seq<World>, actions: seq<Action>, m: nat, n: nat, run: RunId)
    requires |ws| == |actions| + 1 && n < |ws|
  {
    exists k :: m <= k < n && Interrupting(ws[k], actions[k], run)
  }

  /** Main result. In every interleaving an ended run keeps its status until an interrupt of one of its
    * attempts is finished; from then on it is interrupted. */
  lemma {:induction false} EndedRunStays(ws: seq<World>, actions: seq<Action>, m: nat, n: nat, run: RunId)
    requires History(ws, actions) && m <= n < |ws|
    requires run in ws[m].store.runs && !ws[m].store.runs[run].status.RunRunning?
    ensures run in ws[n].store.runs
    ensures ws[n].store.runs[run].status ==
      if InterruptedBetween(ws, actions, m, n, run) then RunInterrupted else ws[m].store.runs[run].status
  {
    hide Step, Interrupting, Enabled;
    if m < n {
      EndedRunStays(ws, actions, m, n - 1, run);
      EndedStatusChanges(ws[n - 1], actions[n - 1], run);
      if Interrupting(ws[n - 1], actions[n - 1], run) {
        assert InterruptedBetween(ws, actions, m, n, run);
      } else if InterruptedBetween(ws, actions, m, n - 1, run) {
        var k :| m <= k < n - 1 && Interrupting(ws[k], actions[k], run);
        assert InterruptedBetween(ws, actions, m, n, run);
      }
    }
  }

  /** An interrupt overwrites the status of a run that was already completed. */
  lemma InterruptReopensCompletedRun(run: RunId, record: AttemptRecord)
    requires record.runId == run && record.status.Running?
    ensures var s := RecordAttempt(CreateRun(Store(map[], map[]), run, "g"), record);
      var ended := SetEnded(s, run, RunCompleted);
      && ended.runs[run].status == RunCompleted
      && ChangeAttempt(ended, record.attemptId, Interrupt("late")).runs[run].status == RunInterrupted
  {
  }
}
