/** A retry family as the state machine its asynchronous body is: one step per await point. */
module Branches {
  import opened Values
  import opened Reducers
  import opened AgentStates
  import opened Graphs
  import opened EngineSpec
  import opened CheckpointStore

  datatype Phase =
    | Ready
    | Started(attempt: Option<AttemptId>)
    | Executed(attempt: Option<AttemptId>, outcome: Result<NodeOutput, NodeError>)
    | Backoff
    | Succeeded(output: NodeOutput)
    | Stopped(error: Error)

  datatype TrialEvent = NodeStart(ordinal: nat) | NodeEnd(ordinal: nat)

  /** `log` holds the events of the family, `records` its attempts in the store. */
  datatype Branch = Branch(
    name: string, data: Data, writes: nat, ordinal: nat, phase: Phase,
    log: seq<TrialEvent>, records: seq<AttemptId>)

  function NewBranch(name: string, data: Data): Branch {
    Branch(name, data, 0, 0, Ready, [], [])
  }

  predicate Terminal(b: Branch) {
    b.phase.Succeeded? || b.phase.Stopped?
  }

  /** Errors that come from outside the graph and its state. */
  predicate Disturbance(e: Error) {
    e.Cancelled? || e.CheckpointStoreError?
  }

  /** Errors a superstep can end with; the others are raised between supersteps. */
  predicate StepError(e: Error) {
    !e.MaxIterationsExceeded? && !e.CycleDetected? && !e.InterruptError?
  }

  predicate Disturbed(b: Branch) {
    b.phase.Stopped? && Disturbance(b.phase.error)
  }

  predicate StoreFailed(b: Branch) {
    b.phase.Stopped? && b.phase.error.CheckpointStoreError?
  }

  /** What the family is still going to produce. */
  function Remaining(env: Env, b: Branch): Family
    requires b.name in env.graph.nodes
  {
    match b.phase
    case Ready => FamilyFrom(env, b.name, b.data, b.ordinal)
    case Started(_) => FamilyFrom(env, b.name, b.data, b.ordinal)
    case Executed(_, outcome) => AfterTrial(env, b.name, b.data, b.ordinal, outcome)
    case Backoff => FamilyFrom(env, b.name, b.data, b.ordinal + 1)
    case Succeeded(output) => FamilyOk(b.data, output)
    case Stopped(FromNode(e)) => FamilyErr(e)
    case Stopped(_) => FamilyRejected
  }

  /** The branch is on its way to the outcome `expected`, unless it was disturbed. */
  ghost predicate OnCourse(env: Env, expected: Family, b: Branch) {
    && b.name in env.graph.nodes
    && b.ordinal < MaxAttempts(env.graph, b.name)
    && (b.phase.Backoff? ==> b.ordinal + 1 < MaxAttempts(env.graph, b.name))
    && (Disturbed(b) || Remaining(env, b) == expected)
    && (b.phase.Stopped? ==> Disturbed(b) || b.phase.error.FromNode? || b.phase.error.StateError?)
  }

  lemma StartOnCourse(env: Env, name: string, data: Data)
    requires name in env.graph.nodes
    ensures OnCourse(env, FamilyFrom(env, name, data, 0), NewBranch(name, data))
  {
  }

  /** What a finished branch says about the family. */
  lemma CourseEnds(env: Env, expected: Family, b: Branch)
    requires OnCourse(env, expected, b) && Terminal(b)
    ensures b.phase.Succeeded? ==> expected == FamilyOk(b.data, b.phase.output)
    ensures b.phase.Stopped? && !Disturbed(b) ==>
      match expected
      case FamilyErr(e) => b.phase.error == FromNode(e)
      case FamilyRejected => b.phase.error == StateError
      case FamilyOk(_, _) => false
  {
  }

  // ---- Measures -------------------------------------------------------------------

  /** How many more trials can start. */
  function StartsLeft(g: Graph, b: Branch): nat {
    var left := if b.ordinal < MaxAttempts(g, b.name) then MaxAttempts(g, b.name) - b.ordinal else 0;
    if b.phase.Ready? then left
    else if Terminal(b) || left == 0 then 0
    else left - 1
  }

  /** How many trials have started. */
  function TrialsBegun(b: Branch): nat {
    if b.phase.Ready? then b.ordinal else b.ordinal + 1
  }

  function StepsLeft(g: Graph, b: Branch): nat {
    match b.phase
    case Ready => 4 * StartsLeft(g, b)
    case Started(_) => 4 * StartsLeft(g, b) + 3
    case Executed(_, _) => 4 * StartsLeft(g, b) + 2
    case Backoff => 4 * StartsLeft(g, b) + 1
    case _ => 0
  }

  function Starts(g: Graph): Branch -> nat {
    (b: Branch) => StartsLeft(g, b)
  }

  function Steps(g: Graph): Branch -> nat {
    (b: Branch) => StepsLeft(g, b)
  }

  /** A weight summed over the branches in flight, which sit at frontier positions below `n`. */
  function Total(inFlight: map<nat, Branch>, weight: Branch -> nat, n: nat): nat {
    if n == 0 then 0
    else Total(inFlight, weight, n - 1) + if n - 1 in inFlight then weight(inFlight[n - 1]) else 0
  }

  lemma {:induction false} TotalUpdate(inFlight: map<nat, Branch>, weight: Branch -> nat, n: nat, i: nat, b: Branch)
    ensures Total(inFlight[i := b], weight, n) ==
      Total(inFlight, weight, n) + if i >= n then 0 else weight(b) - if i in inFlight then weight(inFlight[i]) else 0
  {
    if n > 0 {
      TotalUpdate(inFlight, weight, n - 1, i, b);
    }
  }

  lemma {:induction false} TotalRemove(inFlight: map<nat, Branch>, weight: Branch -> nat, n: nat, i: nat)
    requires i in inFlight
    ensures Total(inFlight - {i}, weight, n) == Total(inFlight, weight, n) - if i < n then weight(inFlight[i]) else 0
  {
    if n > 0 {
      TotalRemove(inFlight, weight, n - 1, i);
    }
  }

  lemma {:induction false} TotalNone(weight: Branch -> nat, n: nat)
    ensures Total(map[], weight, n) == 0
  {
    if n > 0 {
      TotalNone(weight, n - 1);
    }
  }

  // ---- The event log of a family ------------------------------------------------------

  /** One start and one end for each of the first `n` trials. */
  function TrialLog(n: nat): seq<TrialEvent> {
    if n == 0 then [] else TrialLog(n - 1) + [NodeStart(n - 1), NodeEnd(n - 1)]
  }

  /** Trial after trial, its start and then its end, and nothing else. */
  lemma {:induction false} TrialLogAt(n: nat, k: nat)
    ensures |TrialLog(n)| == 2 * n
    ensures k < n ==> TrialLog(n)[2 * k] == NodeStart(k) && TrialLog(n)[2 * k + 1] == NodeEnd(k)
  {
    if n > 0 {
      TrialLogAt(n - 1, k);
    }
  }

  /** Finished trials are complete in the log; the end of the last one is left to the caller. */
  predicate LogInv(b: Branch) {
    Disturbed(b) ||
    b.log == match b.phase
      case Ready => TrialLog(b.ordinal)
      case Backoff => TrialLog(b.ordinal + 1)
      case _ => TrialLog(b.ordinal) + [NodeStart(b.ordinal)]
  }

  /** A trial without an error ends its family: the updates of its command are stored or rejected. */
  lemma OutputJudged(env: Env, expected: Family, b: Branch, output: NodeOutput, ok: bool, data: Data, writes: nat)
    requires OnCourse(env, expected, b) && LogInv(b) && b.phase.Executed? && b.phase.outcome == Ok(output)
    requires ok <==> UpdatesOk(env, b.data, UpdatesOf(output))
    requires ok ==> data == b.data + UpdateWrites(env, b.data, UpdatesOf(output))
    ensures var b' := b.(data := data, writes := writes, phase := if ok then Succeeded(output) else Stopped(StateError));
      OnCourse(env, expected, b') && LogInv(b') && !Disturbed(b')
  {
    hide UpdatesOk, UpdateWrites, UpdatesOf, TrialLog;
  }

  /** Whoever ran the family reports the end of its last trial. */
  function EndNode(b: Branch): Branch {
    b.(log := b.log + [NodeEnd(b.ordinal)])
  }

  /** One start and one end for every trial. */
  predicate LogComplete(b: Branch) {
    Disturbed(b) || b.log == TrialLog(b.ordinal + 1)
  }

  lemma EndCompletes(b: Branch)
    requires Terminal(b) && LogInv(b)
    ensures LogComplete(EndNode(b))
  {
    var n := b.ordinal;
    assert TrialLog(n + 1) == TrialLog(n) + [NodeStart(n), NodeEnd(n)];
    assert TrialLog(n) + [NodeStart(n)] + [NodeEnd(n)] == TrialLog(n) + [NodeStart(n), NodeEnd(n)];
  }

  // ---- The attempts of a run in the store --------------------------------------------

  /** The run is going on, and only the attempts in `open` are still running. */
  ghost predicate StoreOk(s: Store, run: RunId, next: AttemptId, open: set<AttemptId>) {
    && run in s.runs && s.runs[run].status.RunRunning?
    && DistinctIds(s.runs[run].attempts)
    && (forall id :: id in s.attempts ==>
          id < next && (s.attempts[id].runId == run && s.attempts[id].status.Running? ==> id in open))
    && (forall i :: 0 <= i < |s.runs[run].attempts| ==>
          var copy := s.runs[run].attempts[i];
          copy.attemptId < next && (copy.status.Running? ==> copy.attemptId in open))
  }

  /** Neither copy of any attempt of the run is still running. */
  ghost predicate NoneRunning(s: Store, run: RunId)
    requires run in s.runs
  {
    && (forall id :: id in s.attempts && s.attempts[id].runId == run ==> !s.attempts[id].status.Running?)
    && (forall i :: 0 <= i < |s.runs[run].attempts| ==> !s.runs[run].attempts[i].status.Running?)
  }

  function Open(b: Branch): set<AttemptId> {
    match b.phase
    case Started(Some(id)) => {id}
    case Executed(Some(id), _) => {id}
    case _ => {}
  }

  lemma RecordKeepsStore(s: Store, run: RunId, next: AttemptId, open: set<AttemptId>, node: string, ordinal: nat,
                         input: Json)
    requires StoreOk(s, run, next, open)
    ensures StoreOk(RecordAttempt(s, NewAttempt(next, run, node, ordinal, input)), run, next + 1, open + {next})
  {
  }

  lemma EndKeepsStore(s: Store, run: RunId, next: AttemptId, open: set<AttemptId>, id: AttemptId, change: Change)
    requires StoreOk(s, run, next, open) && id in s.attempts && s.attempts[id].runId == run && !change.Interrupt?
    ensures StoreOk(ChangeAttempt(s, id, change), run, next, open - {id})
  {
    ChangeFirstAll(s.runs[run].attempts, id, change);
    var s' := ChangeAttempt(s, id, change);
    forall i | 0 <= i < |s'.runs[run].attempts|
      ensures var copy := s'.runs[run].attempts[i];
        copy.attemptId < next && (copy.status.Running? ==> copy.attemptId in open - {id})
    {
    }
  }

  /** The store as a run sees it: whether one is configured, the run, and the next fresh attempt. */
  datatype View = View(configured: bool, run: RunId, store: Store, next: AttemptId)

  ghost predicate ViewOk(v: View, open: set<AttemptId>) {
    v.configured ==> StoreOk(v.store, v.run, v.next, open)
  }

  predicate RunGoing(v: View) {
    v.configured ==> CanEnd(v.store, v.run)
  }

  lemma SnapshotKeepsView(v: View, open: set<AttemptId>, data: Data)
    requires ViewOk(v, open) && RunGoing(v)
    ensures var v' := v.(store := SaveSnapshot(v.store, v.run, data)); ViewOk(v', open) && RunGoing(v')
  {
  }

  /** The attempt of the trial going on is in the store. */
  predicate AttemptKnown(v: View, b: Branch) {
    v.configured && (b.phase.Started? || b.phase.Executed?) ==>
      && b.phase.attempt.Some?
      && b.phase.attempt.value in v.store.attempts
      && v.store.attempts[b.phase.attempt.value].runId == v.run
  }

  /** Attempts stay in the store, under their run. */
  ghost predicate AttemptsStay(s: Store, s': Store) {
    forall id :: id in s.attempts ==> id in s'.attempts && s'.attempts[id].runId == s.attempts[id].runId
  }

  ghost predicate FamilyRecords(v: View, b: Branch) {
    v.configured ==> RecordsInv(v.store, v.run, v.next, b)
  }

  // ---- The attempts of one family --------------------------------------------------------

  /** How many trials of the family have been recorded and ended. */
  function Closed(b: Branch): nat {
    match b.phase
    case Backoff => b.ordinal + 1
    case Succeeded(_) => b.ordinal + 1
    case Stopped(_) => b.ordinal + 1
    case _ => b.ordinal
  }

  function EndStatus(b: Branch, i: nat): AttemptStatus {
    if b.phase.Succeeded? && i == b.ordinal then Completed else Failed
  }

  /** The ended attempts are failed, except that the last one of a successful family is completed, with the state
    * the family leaves as its output. */
  ghost predicate RecordsInv(s: Store, run: RunId, next: AttemptId, b: Branch) {
    Disturbed(b) || (
      && |b.records| == Closed(b) + (if b.phase.Started? || b.phase.Executed? then 1 else 0)
      && NoDup(b.records)
      && (forall i :: 0 <= i < |b.records| ==>
            && b.records[i] in s.attempts && b.records[i] < next
            && s.attempts[b.records[i]].runId == run && s.attempts[b.records[i]].nodeId == b.name
            && s.attempts[b.records[i]].attempt == i
            && (i < Closed(b) ==> s.attempts[b.records[i]].status == EndStatus(b, i)))
      && (b.phase.Succeeded? ==> s.attempts[b.records[b.ordinal]].output == Some(Obj(b.data)))
      && (b.phase.Started? || b.phase.Executed? ==> b.phase.attempt == Some(b.records[|b.records| - 1])))
  }

  /** What a step of one family may do to the store: touch its own open attempt, and add one attempt. */
  ghost predicate StepEffect(v: View, v': View, b: Branch, b': Branch) {
    && v'.configured == v.configured && v'.run == v.run && v.next <= v'.next
    && (forall id :: id in v.store.attempts && id !in Open(b) && id < v.next ==>
          id in v'.store.attempts && v'.store.attempts[id] == v.store.attempts[id])
    && (b'.records == b.records || (b'.records == b.records + [v.next] && v.next < v'.next))
  }

  /** The report touches no attempt. */
  lemma EndEffect(v: View, v': View, b: Branch, b': Branch)
    ensures FamilyRecords(v', EndNode(b')) <==> FamilyRecords(v', b')
    ensures StepEffect(v, v', b, EndNode(b')) <==> StepEffect(v, v', b, b')
  {
  }
}
