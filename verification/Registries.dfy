/** The registry of runs: bounded retention, bounded execution, reservations and cancellation
  * (agent-graph-mcp/src/run_manager.rs). Every operation holds the registry's lock throughout. */
module Registries {
  import opened Values
  import opened Sorting

  const MAX_RUNS := 100
  const MAX_ACTIVE_RUNS := 8

  datatype RunStatus = Accepted | Running | Completed | Failed | Cancelled | Checkpointed

  predicate IsTerminal(status: RunStatus) {
    status != Accepted && status != Running
  }

  datatype RunRecord = RunRecord(status: RunStatus, success: Option<bool>, cancelled: bool, checkpointId: Option<string>)

  /** A new record: nothing has happened to it. */
  function Fresh(checkpointId: Option<string>): RunRecord {
    RunRecord(Accepted, None, false, checkpointId)
  }

  datatype Registry = Registry(runs: map<string, RunRecord>, order: seq<string>, reserved: nat)

  datatype RegistryError = RetentionFull | NoSlot | NothingReserved | NotFound | NotAwaiting | NotCancellable

  function Active(runs: map<string, RunRecord>): set<string> {
    set id | id in runs && runs[id].status == Running
  }

  /** The runs in order that may be evicted. */
  function FirstTerminal(runs: map<string, RunRecord>, order: seq<string>): (r: Option<string>)
    ensures r.Some? ==> r.value in order && r.value in runs && IsTerminal(runs[r.value].status)
    ensures r.None? ==> forall id :: id in order && id in runs ==> !IsTerminal(runs[id].status)
  {
    if order == [] then None
    else if order[0] in runs && IsTerminal(runs[order[0]].status) then Some(order[0])
    else
      assert order == [order[0]] + order[1..];
      FirstTerminal(runs, order[1..])
  }

  /** `retain(|id| id != removed)`. */
  function Without(order: seq<string>, removed: string): (r: seq<string>)
    ensures forall id :: id in r <==> id in order && id != removed
    ensures NoDup(order) ==> NoDup(r)
    ensures |r| <= |order| && (removed in order ==> |r| < |order|)
  {
    if order == [] then []
    else
      var last := order[|order| - 1];
      assert order == order[..|order| - 1] + [last];
      assert NoDup(order) ==> last !in order[..|order| - 1];
      Without(order[..|order| - 1], removed) + if last == removed then [] else [last]
  }

  function Evict(g: Registry): Result<Registry, RegistryError> {
    if |g.order| != MAX_RUNS then Ok(g)
    else
      match FirstTerminal(g.runs, g.order)
      case None => Err(RetentionFull)
      case Some(evicted) => Ok(g.(order := Without(g.order, evicted), runs := g.runs - {evicted}))
  }

  function InsertRecord(g: Registry, id: string, record: RunRecord): Result<Registry, RegistryError> {
    match Evict(g)
    case Err(e) => Err(e)
    case Ok(room) => Ok(room.(order := room.order + [id], runs := room.runs[id := record]))
  }

  function SetStatus(g: Registry, id: string, status: RunStatus): Registry
    requires id in g.runs
  {
    g.(runs := g.runs[id := g.runs[id].(status := status)])
  }

  predicate SlotFree(g: Registry) {
    |Active(g.runs)| + g.reserved < MAX_ACTIVE_RUNS
  }

  function AdmitAsync(g: Registry, id: string): Result<Registry, RegistryError> {
    if !SlotFree(g) then Err(NoSlot)
    else if id !in g.runs then Err(NotFound)
    else if g.runs[id].status != Accepted then Err(NotAwaiting)
    else Ok(SetStatus(g, id, Running))
  }

  function ReserveAsyncSlot(g: Registry): Result<Registry, RegistryError> {
    if !SlotFree(g) then Err(NoSlot) else Ok(g.(reserved := g.reserved + 1))
  }

  function ReleaseAsyncSlot(g: Registry): Registry {
    g.(reserved := if g.reserved == 0 then 0 else g.reserved - 1)
  }

  function AdmitReservedAsync(g: Registry, id: string): Result<Registry, RegistryError> {
    if g.reserved == 0 then Err(NothingReserved)
    else if id !in g.runs then Err(NotFound)
    else if g.runs[id].status != Accepted then Err(NotAwaiting)
    else Ok(SetStatus(g, id, Running).(reserved := g.reserved - 1))
  }

  /** A running record is not removed. */
  function Remove(g: Registry, id: string): Registry {
    if id in g.runs && g.runs[id].status == Running then g
    else g.(order := Without(g.order, id), runs := g.runs - {id})
  }

  function MarkCheckpointed(g: Registry, id: string, checkpointId: string): Registry
    requires id in g.runs
  {
    g.(runs := g.runs[id := g.runs[id].(status := Checkpointed, checkpointId := Some(checkpointId))])
  }

  function Cancel(g: Registry, id: string): Result<Registry, RegistryError> {
    if id !in g.runs then Err(NotFound)
    else if IsTerminal(g.runs[id].status) then Err(NotCancellable)
    else Ok(g.(runs := g.runs[id := g.runs[id].(cancelled := true)]))
  }

  function TerminalOutcome(cancelled: bool, error: bool): (RunStatus, bool) {
    if cancelled then (Cancelled, false) else if error then (Failed, false) else (Completed, true)
  }

  /** The final update of an execution, which looks at the cancellation flag. */
  function FinalUpdate(g: Registry, id: string, error: bool): Registry
    requires id in g.runs
  {
    var run := g.runs[id];
    var (status, success) := TerminalOutcome(run.cancelled, error && !run.cancelled);
    g.(runs := g.runs[id := run.(status := status, success := Some(success))])
  }

  /** The update after an execution that ended with an error before its final update. */
  function ErrorUpdate(g: Registry, id: string): Registry
    requires id in g.runs
  {
    g.(runs := g.runs[id := g.runs[id].(status := Failed, success := Some(false))])
  }

  // ---- The invariant ----------------------------------------------------------------------

  ghost predicate Listed(g: Registry) {
    NoDup(g.order) && (forall id :: id in g.order <==> id in g.runs) && |g.order| <= MAX_RUNS
  }

  predicate Bounded(g: Registry) {
    |Active(g.runs)| + g.reserved <= MAX_ACTIVE_RUNS
  }

  /** A cancelled run has not succeeded, and a run that is not over has no result. */
  predicate Honest(r: RunRecord) {
    && (r.cancelled ==> r.status != Completed && r.success != Some(true))
    && (!IsTerminal(r.status) ==> r.success.None?)
    && (r.status == Completed ==> r.success == Some(true))
  }

  ghost predicate RegistryOk(g: Registry) {
    Listed(g) && Bounded(g) && forall id :: id in g.runs ==> Honest(g.runs[id])
  }

  const Empty := Registry(map[], [], 0)

  lemma EmptyOk()
    ensures RegistryOk(Empty)
  {
    assert Active(Empty.runs) == {};
  }

  datatype Op =
    | Insert(id: string, checkpointId: Option<string>)
    | Admit(id: string)
    | Reserve
    | Release
    | AdmitReserved(id: string)
    | Delete(id: string)
    | Checkpoint(id: string, checkpoint: string)
    | Begin(id: string)
    | RequestCancel(id: string)
    | Finish(id: string, error: bool)
    | Abort(id: string)

  /** New runs have new names, only admitted runs are executed, and only runs that were never admitted
    * are checkpointed. */
  predicate Enabled(g: Registry, op: Op) {
    match op
    case Insert(id, _) => id !in g.runs
    case Checkpoint(id, _) => id in g.runs && g.runs[id].status == Accepted
    case Begin(id) => id in g.runs && g.runs[id].status == Running
    case Finish(id, _) => id in g.runs && g.runs[id].status == Running
    case Abort(id) => id in g.runs && g.runs[id].status == Running
    case _ => true
  }

  function OrElse(r: Result<Registry, RegistryError>, g: Registry): Registry {
    match r case Ok(next) => next case Err(_) => g
  }

  function Step(g: Registry, op: Op): Registry
    requires Enabled(g, op)
  {
    match op
    case Insert(id, checkpointId) => OrElse(InsertRecord(g, id, Fresh(checkpointId)), g)
    case Admit(id) => OrElse(AdmitAsync(g, id), g)
    case Reserve => OrElse(ReserveAsyncSlot(g), g)
    case Release => ReleaseAsyncSlot(g)
    case AdmitReserved(id) => OrElse(AdmitReservedAsync(g, id), g)
    case Delete(id) => Remove(g, id)
    case Checkpoint(id, checkpointId) => MarkCheckpointed(g, id, checkpointId)
    case Begin(id) => SetStatus(g, id, Running)
    case RequestCancel(id) => OrElse(Cancel(g, id), g)
    case Finish(id, error) => FinalUpdate(g, id, error)
    case Abort(id) => ErrorUpdate(g, id)
  }

  lemma EvictOk(g: Registry)
    requires RegistryOk(g) && Evict(g).Ok?
    ensures var room := Evict(g).value;
      && RegistryOk(room) && |room.order| < MAX_RUNS && room.reserved == g.reserved && Active(room.runs) == Active(g.runs)
      && (forall id :: id in room.runs ==> id in g.runs && room.runs[id] == g.runs[id])
      && (forall id :: id in g.runs && id !in room.runs ==> IsTerminal(g.runs[id].status))
  {
    assert Active(Evict(g).value.runs) == Active(g.runs);
  }

  lemma InsertOk(g: Registry, id: string, record: RunRecord)
    requires RegistryOk(g) && id !in g.runs && record.status == Accepted && Honest(record) && InsertRecord(g, id, record).Ok?
    ensures RegistryOk(InsertRecord(g, id, record).value)
  {
    EvictOk(g);
    hide Evict;
    var g' := InsertRecord(g, id, record).value;
    assert Active(g'.runs) == Active(g.runs);
  }

  /** The new order repeats a name exactly if that name is still retained when it is added. */
  lemma InsertNeedsNewName(g: Registry, id: string, record: RunRecord)
    requires RegistryOk(g) && InsertRecord(g, id, record).Ok?
    ensures NoDup(InsertRecord(g, id, record).value.order) <==> id !in Evict(g).value.runs
  {
    EvictOk(g);
    hide Evict;
    var room := Evict(g).value;
    var order := room.order + [id];
    if id in room.order {
      var i :| 0 <= i < |room.order| && room.order[i] == id;
      assert order[i] == order[|order| - 1];
    }
  }

  /** Changing one record to or from running changes the number of active runs by one. */
  lemma ActiveChange(runs: map<string, RunRecord>, id: string, record: RunRecord)
    requires id in runs
    ensures |Active(runs[id := record])| == |Active(runs)|
      - (if runs[id].status == Running then 1 else 0) + (if record.status == Running then 1 else 0)
  {
    var before, after := Active(runs), Active(runs[id := record]);
    assert before - {id} == after - {id};
    assert |before - {id}| == |before| - if runs[id].status == Running then 1 else 0;
    assert |after - {id}| == |after| - if record.status == Running then 1 else 0;
  }

  lemma ChangeOk(g: Registry, id: string, record: RunRecord, reserved: nat)
    requires RegistryOk(g) && id in g.runs && Honest(record)
    requires |Active(g.runs)| + reserved + (if record.status == Running && g.runs[id].status != Running then 1 else 0) <= MAX_ACTIVE_RUNS
    ensures RegistryOk(g.(runs := g.runs[id := record], reserved := reserved))
  {
    ActiveChange(g.runs, id, record);
  }

  lemma RemoveOk(g: Registry, id: string)
    requires RegistryOk(g)
    ensures RegistryOk(Remove(g, id))
  {
    assert Active(Remove(g, id).runs) == Active(g.runs);
  }

  /** Main result: every operation keeps the bounds and the books. */
  lemma StepKeepsOk(g: Registry, op: Op)
    requires RegistryOk(g) && Enabled(g, op)
    ensures RegistryOk(Step(g, op))
  {
    hide InsertRecord, Remove, RegistryOk, Active;
    RegistryFacts(g);
    match op
    case Insert(id, checkpointId) =>
      if InsertRecord(g, id, Fresh(checkpointId)).Ok? {
        InsertOk(g, id, Fresh(checkpointId));
      }
    case Admit(id) =>
      if AdmitAsync(g, id).Ok? {
        ChangeOk(g, id, g.runs[id].(status := Running), g.reserved);
      }
    case Reserve => ReservationOk(g);
    case Release => ReservationOk(g);
    case AdmitReserved(id) =>
      if AdmitReservedAsync(g, id).Ok? {
        ChangeOk(g, id, g.runs[id].(status := Running), g.reserved - 1);
      }
    case Delete(id) => RemoveOk(g, id);
    case Checkpoint(id, checkpointId) => ChangeOk(g, id, MarkCheckpointed(g, id, checkpointId).runs[id], g.reserved);
    case Begin(id) => ChangeOk(g, id, g.runs[id].(status := Running), g.reserved);
    case RequestCancel(id) =>
      if id in g.runs {
        ChangeOk(g, id, if Cancel(g, id).Ok? then g.runs[id].(cancelled := true) else g.runs[id], g.reserved);
      }
    case Finish(id, error) => ChangeOk(g, id, FinalUpdate(g, id, error).runs[id], g.reserved);
    case Abort(id) => ChangeOk(g, id, ErrorUpdate(g, id).runs[id], g.reserved);
  }

  lemma RegistryFacts(g: Registry)
    requires RegistryOk(g)
    ensures |Active(g.runs)| + g.reserved <= MAX_ACTIVE_RUNS && forall id :: id in g.runs ==> Honest(g.runs[id])
  {
  }

  lemma ReservationOk(g: Registry)
    requires RegistryOk(g)
    ensures RegistryOk(ReleaseAsyncSlot(g)) && (ReserveAsyncSlot(g).Ok? ==> RegistryOk(ReserveAsyncSlot(g).value))
  {
  }

  /** Starting to execute a run that was not admitted may exceed the bound: it does exactly if no slot
    * was free. */
  lemma BeginNeedsAdmission(g: Registry, id: string)
    requires RegistryOk(g) && id in g.runs
    ensures Bounded(SetStatus(g, id, Running)) <==> g.runs[id].status == Running || SlotFree(g)
  {
    ActiveChange(g.runs, id, g.runs[id].(status := Running));
  }

  /** Only runs that are over leave the registry by eviction, and retention is never full as long as
    * some run is over. */
  lemma OnlyTerminalEvicted(g: Registry, id: string, record: RunRecord, other: string)
    requires RegistryOk(g) && id !in g.runs && InsertRecord(g, id, record).Ok? && other in g.runs
    ensures other !in InsertRecord(g, id, record).value.runs ==>
      IsTerminal(g.runs[other].status) && |g.order| == MAX_RUNS
    ensures other in InsertRecord(g, id, record).value.runs ==>
      InsertRecord(g, id, record).value.runs[other] == g.runs[other]
  {
    EvictOk(g);
  }

  lemma RetentionFullMeans(g: Registry, id: string, record: RunRecord)
    requires RegistryOk(g)
    ensures InsertRecord(g, id, record) == Err(RetentionFull) <==>
      |g.runs.Keys| == MAX_RUNS && forall other :: other in g.runs ==> !IsTerminal(g.runs[other].status)
  {
    NoDupSize(g.order);
    assert (set x | x in g.order) == g.runs.Keys;
    if FirstTerminal(g.runs, g.order).Some? {
      assert IsTerminal(g.runs[FirstTerminal(g.runs, g.order).value].status);
    }
  }

  // ---- Cancellation -----------------------------------------------------------------------

  ghost predicate History(states: seq<Registry>, ops: seq<Op>) {
    && |states| == |ops| + 1 && RegistryOk(states[0])
    && forall i :: 0 <= i < |ops| ==> Enabled(states[i], ops[i]) && states[i + 1] == Step(states[i], ops[i])
  }

  lemma {:induction false} HistoryOk(states: seq<Registry>, ops: seq<Op>, i: nat)
    requires History(states, ops) && i < |states|
    ensures RegistryOk(states[i])
  {
    hide Step, RegistryOk;
    if i > 0 {
      HistoryOk(states, ops, i - 1);
      StepKeepsOk(states[i - 1], ops[i - 1]);
    }
  }

  /** A record that stays in the registry never loses its cancellation flag. */
  lemma FlagStays(g: Registry, op: Op, id: string)
    requires Enabled(g, op) && id in g.runs && g.runs[id].cancelled && id in Step(g, op).runs
    ensures Step(g, op).runs[id].cancelled
  {
    hide Active, FirstTerminal, Without;
  }

  lemma CancelFlags(g: Registry, id: string)
    requires Cancel(g, id).Ok?
    ensures id in Step(g, RequestCancel(id)).runs && Step(g, RequestCancel(id)).runs[id].cancelled
  {
  }

  lemma CancelledNotDone(g: Registry, id: string)
    requires RegistryOk(g) && id in g.runs
    ensures g.runs[id].cancelled ==> g.runs[id].status != Completed && g.runs[id].success != Some(true)
  {
  }

  /** Main result. After a successful cancellation the record is never completed nor successful, for
    * any interleaving with the final update and the error path, as long as it is retained. */
  lemma {:induction false} CancellationPrevails(states: seq<Registry>, ops: seq<Op>, i: nat, j: nat, id: string)
    requires History(states, ops) && i < j < |states|
    requires ops[i] == RequestCancel(id) && Cancel(states[i], id).Ok?
    requires forall k :: i < k <= j ==> id in states[k].runs
    ensures states[j].runs[id].cancelled && states[j].runs[id].status != Completed && states[j].runs[id].success != Some(true)
    decreases j - i
  {
    hide Step, RegistryOk, Cancel;
    HistoryOk(states, ops, j);
    CancelledNotDone(states[j], id);
    if i + 1 == j {
      CancelFlags(states[i], id);
    } else {
      CancellationPrevails(states, ops, i, j - 1, id);
      FlagStays(states[j - 1], ops[j - 1], id);
    }
  }
}
