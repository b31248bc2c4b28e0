/** Clients that start, checkpoint and resume runs, interleaved with each other, with the threads of
  * running executions, with approval decisions and with restarts of the server
  * (`graph_run_start`, `graph_run_resume` and `launch_resumed` in agent-graph-mcp/src/server.rs).
  * A step is one database transaction or one registry operation; between the operations of one
  * section the client holds the mutex around the registry. */
module ResumeProtocol {
  import opened Values
  import opened Sorting
  import R = Registries
  import S = ResumeStores

  /** Where a client stands. */
  datatype Pc =
    | Idle
    | Looked(id: string)             // a resume request has loaded an unused checkpoint
    | Passed(id: string)             // the checks of the request went through
    | Holding(id: string)            // it has reserved a slot
    | Refused                        // the checkpoint was not consumed; the slot is due back
    | Owner(c: S.Checkpoint)         // it has consumed the checkpoint
    | Cleared(c: S.Checkpoint)       // section: the old record is removed
    | Stored(c: S.Checkpoint)        // section: the new record awaits admission
    | LaunchFailed                   // section: the launch failed; the slot is due back
    | Admitted(runId: string)        // section: the resumed run is admitted, its execution row is due
    | Starting(runId: string)        // section: a new run awaits admission
    | Preparing(runId: string)       // section: a new run awaits its checkpoint row
    | Saved(runId: string, id: string) // section: the row is written
    | Undoing(runId: string)         // section: the new run is to be removed

  /** The client is inside a section. */
  predicate Locked(pc: Pc) {
    match pc
    case Idle | Looked(_) | Passed(_) | Holding(_) | Refused | Owner(_) => false
    case _ => true
  }

  /** The client has reserved a slot and neither returned nor used it. */
  predicate Holds(pc: Pc) {
    match pc
    case Holding(_) | Refused | Owner(_) | Cleared(_) | Stored(_) | LaunchFailed => true
    case _ => false
  }

  /** The checkpoint the client has consumed and not yet launched. */
  function Owned(pc: Pc): Option<string> {
    match pc
    case Owner(c) => Some(c.id)
    case Cleared(c) => Some(c.id)
    case Stored(c) => Some(c.id)
    case _ => None
  }

  /** The run whose record the client has put in place but not yet admitted. */
  function Placed(pc: Pc): Option<string> {
    match pc
    case Stored(c) => Some(c.runId)
    case Starting(r) => Some(r)
    case Preparing(r) => Some(r)
    case Saved(r, _) => Some(r)
    case Undoing(r) => Some(r)
    case _ => None
  }

  /** `used` are the run names given out so far, `admitted` the checkpoints whose resumed run was admitted, in
    * order, `threads` the runs that a thread executes, and `stranded` the admitted runs that will never have
    * one. */
  datatype World = World(
    tables: S.Tables, registry: R.Registry, clients: seq<Pc>, used: set<string>, admitted: seq<string>,
    threads: set<string>, stranded: set<string>)

  datatype Action =
    | Look(id: string)
    | Query
    | Deny
    | Reserve
    | Consume(now: int)
    | ConsumeFails
    | GiveBack
    | Clear
    | Store
    | Launch
    | StartThread
    | RowFails
    | Abandon
    | StartPlain(runId: string)
    | AdmitPlain
    | StartSaved(runId: string)
    | SaveRow(draft: S.Checkpoint, now: int)
    | SaveFails
    | MarkRow
    | Undo

  datatype Event =
    | Client(i: nat, action: Action)
    | Thread(op: R.Op)
    | Approval(decision: S.Op)
    | Restart

  predicate Unlocked(w: World) {
    forall i :: 0 <= i < |w.clients| ==> !Locked(w.clients[i])
  }

  /** The status query before a resume: it finds no approval of the checkpoint, or a newest one that is not
    * pending. It is not repeated later. */
  ghost predicate NothingPending(t: S.Tables, id: string) {
    (forall a :: !S.RowOf(t, a, id)) || exists a :: S.Newest(t, a, id) && t.approvals[a].status != S.Pending
  }

  ghost predicate ActionEnabled(o: S.Outside, w: World, pc: Pc, a: Action) {
    match a
    case Look(id) => pc.Idle? && S.Load(o, w.tables, id).Ok? && !S.Spent(w.tables, id)
    case Query => pc.Looked? && NothingPending(w.tables, pc.id)
    case Deny => pc.Looked?
    case Reserve => pc.Passed? && Unlocked(w)
    case Consume(_) => pc.Holding?
    case ConsumeFails => pc.Holding?
    case GiveBack => pc.Refused? && Unlocked(w)
    case Clear => pc.Owner? && Unlocked(w)
    case Store => pc.Cleared?
    case Launch => pc.Stored?
    case StartThread => pc.Admitted?
    case RowFails => pc.Admitted?
    case Abandon => pc.LaunchFailed?
    case StartPlain(r) => pc.Idle? && Unlocked(w) && r !in w.used
    case AdmitPlain => pc.Starting?
    case StartSaved(r) => pc.Idle? && Unlocked(w) && r !in w.used
    case SaveRow(draft, _) => pc.Preparing? && draft.runId == pc.runId
    case SaveFails => pc.Preparing?
    case MarkRow => pc.Saved? && pc.runId in w.registry.runs
    case Undo => pc.Undoing?
  }

  /** What the thread of a run does to its record. */
  predicate ByThread(op: R.Op) {
    op.Begin? || op.Finish? || op.Abort?
  }

  ghost predicate Enabled(o: S.Outside, w: World, e: Event) {
    match e
    case Client(i, a) => i < |w.clients| && ActionEnabled(o, w, w.clients[i], a)
    case Thread(op) => R.Enabled(w.registry, op) && (op.RequestCancel? || (ByThread(op) && op.id in w.threads))
    case Approval(d) => (d.DoAsk? || d.DoDecide?) && S.Enabled(w.tables, d)
    case Restart => true
  }

  function Move(w: World, i: nat, pc: Pc): World
    requires i < |w.clients|
  {
    w.(clients := w.clients[i := pc])
  }

  /** A new record for a run is inserted; if that fails the client ends up elsewhere. */
  function Insert(w: World, i: nat, r: string, checkpoint: Option<string>, done: Pc, failed: Pc): World
    requires i < |w.clients|
  {
    match R.InsertRecord(w.registry, r, R.Fresh(checkpoint))
    case Ok(g) => Move(w, i, done).(registry := g, used := w.used + {r})
    case Err(_) => Move(w, i, failed).(used := w.used + {r})
  }

  ghost function Act(o: S.Outside, w: World, i: nat, a: Action): World
    requires i < |w.clients| && ActionEnabled(o, w, w.clients[i], a)
  {
    var pc := w.clients[i];
    match a
    case Look(id) => Move(w, i, Looked(id))
    case Query => Move(w, i, Passed(pc.id))
    case Deny => Move(w, i, Idle)
    case Reserve =>
      (match R.ReserveAsyncSlot(w.registry)
       case Ok(g) => Move(w, i, Holding(pc.id)).(registry := g)
       case Err(_) => Move(w, i, Idle))
    case Consume(now) =>
      (match S.Consume(o, w.tables, pc.id, now)
       case (t, Ok(c)) => Move(w, i, Owner(c)).(tables := t)
       case (_, Err(_)) => Move(w, i, Refused))
    case ConsumeFails => Move(w, i, Refused)
    case GiveBack => Move(w, i, Idle).(registry := R.ReleaseAsyncSlot(w.registry))
    case Clear =>
      var g := if pc.c.runId in w.registry.runs then R.Remove(w.registry, pc.c.runId) else w.registry;
      Move(w, i, Cleared(pc.c)).(registry := g)
    case Store => Insert(w, i, pc.c.runId, Some(pc.c.id), Stored(pc.c), LaunchFailed)
    case Launch =>
      (match R.AdmitReservedAsync(w.registry, pc.c.runId)
       case Ok(g) => Move(w, i, Admitted(pc.c.runId)).(registry := g, admitted := w.admitted + [pc.c.id])
       case Err(_) => Move(w, i, LaunchFailed).(registry := R.Remove(w.registry, pc.c.runId)))
    case StartThread => Move(w, i, Idle).(threads := w.threads + {pc.runId})
    case RowFails => Move(w, i, Idle).(stranded := w.stranded + {pc.runId})
    case Abandon => Move(w, i, Idle).(registry := R.ReleaseAsyncSlot(w.registry))
    case StartPlain(r) => Insert(w, i, r, None, Starting(r), Idle)
    case AdmitPlain =>
      (match R.AdmitAsync(w.registry, pc.runId)
       case Ok(g) => Move(w, i, Idle).(registry := g, threads := w.threads + {pc.runId})
       case Err(_) => Move(w, i, Undoing(pc.runId)))
    case StartSaved(r) => Insert(w, i, r, None, Preparing(r), Idle)
    case SaveRow(draft, now) =>
      (match S.Create(o, w.tables, draft, now)
       case (t, Ok(c)) => Move(w, i, Saved(pc.runId, c.id)).(tables := t)
       case (_, Err(_)) => Move(w, i, Undoing(pc.runId)))
    case SaveFails => Move(w, i, Undoing(pc.runId))
    case MarkRow => Move(w, i, Idle).(registry := R.MarkCheckpointed(w.registry, pc.runId, pc.id))
    case Undo => Move(w, i, Idle).(registry := R.Remove(w.registry, pc.runId))
  }

  /** The last thing a thread does to its record. */
  predicate Ends(op: R.Op) {
    op.Finish? || op.Abort?
  }

  ghost function Step(o: S.Outside, w: World, e: Event): World
    requires Enabled(o, w, e)
  {
    match e
    case Client(i, a) => Act(o, w, i, a)
    case Thread(op) => w.(registry := R.Step(w.registry, op), threads := if Ends(op) then w.threads - {op.id} else w.threads)
    case Approval(d) => w.(tables := S.Step(o, w.tables, d))
    case Restart => World(w.tables, R.Empty, seq(|w.clients|, i => Idle), w.used, w.admitted, {}, {})
  }

  // ---- The invariant ----------------------------------------------------------------------

  function Holders(clients: seq<Pc>): set<nat> {
    set i: nat | 0 <= i < |clients| && Holds(clients[i])
  }

  /** Two clients are not in a section together and have not consumed the same checkpoint. */
  predicate Apart(p: Pc, q: Pc) {
    !(Locked(p) && Locked(q)) && (Owned(p).Some? ==> Owned(p) != Owned(q))
  }

  ghost predicate AllApart(clients: seq<Pc>) {
    forall i, j :: 0 <= i < |clients| && 0 <= j < |clients| && i != j ==> Apart(clients[i], clients[j])
  }

  predicate Awaits(g: R.Registry, r: string) {
    r in g.runs && g.runs[r].status == R.Accepted
  }

  ghost predicate NoRow(t: S.Tables, r: string) {
    forall id :: id in t.checkpoints ==> t.checkpoints[id].runId != r
  }

  /** The checkpoint was used up by a resume, not by a decision about an approval. */
  ghost predicate Resumed(t: S.Tables, id: string) {
    S.Spent(t, id) && S.Undecided(t, id)
  }

  /** A consumed checkpoint that is still to be launched. */
  ghost predicate Pinned(w: World, c: S.Checkpoint) {
    Resumed(w.tables, c.id) && w.tables.checkpoints[c.id].runId == c.runId && c.id !in w.admitted
  }

  ghost predicate PcOk(w: World, pc: Pc) {
    match pc
    case Idle => true
    case Looked(id) => id in w.tables.checkpoints
    case Passed(id) => id in w.tables.checkpoints
    case Holding(id) => id in w.tables.checkpoints
    case Refused => true
    case Owner(c) => Pinned(w, c)
    case Cleared(c) => Pinned(w, c) && c.runId !in w.registry.runs
    case Stored(c) => Pinned(w, c) && Awaits(w.registry, c.runId)
    case LaunchFailed => false
    case Admitted(_) => true
    case Starting(r) => Awaits(w.registry, r) && NoRow(w.tables, r)
    case Preparing(r) => Awaits(w.registry, r) && NoRow(w.tables, r)
    case Saved(r, id) => Awaits(w.registry, r) && id in w.tables.checkpoints && w.tables.checkpoints[id].runId == r
    case Undoing(r) => Awaits(w.registry, r) && NoRow(w.tables, r)
  }

  ghost predicate ClientsOk(w: World) {
    forall i :: 0 <= i < |w.clients| ==> PcOk(w, w.clients[i])
  }

  /** Every record that awaits admission is one that a client has put in place. */
  ghost predicate AwaitedOk(g: R.Registry, clients: seq<Pc>) {
    forall r :: Awaits(g, r) ==> exists i :: 0 <= i < |clients| && Placed(clients[i]) == Some(r)
  }

  /** A checkpoint that was not launched belongs to a run that is not in the registry, or was never
    * admitted. */
  predicate RowOk(w: World, id: string)
    requires id in w.tables.checkpoints
  {
    var r := w.tables.checkpoints[id].runId;
    && r in w.used
    && (id !in w.admitted && r in w.registry.runs ==>
          w.registry.runs[r].status == R.Accepted || w.registry.runs[r].status == R.Checkpointed)
  }

  predicate SameRun(t: S.Tables, a: string, b: string) {
    a in t.checkpoints && b in t.checkpoints && t.checkpoints[a].runId == t.checkpoints[b].runId
  }

  ghost predicate RowsOk(w: World) {
    && w.registry.runs.Keys <= w.used
    && (forall id :: id in w.tables.checkpoints ==> RowOk(w, id))
    && (forall a, b :: SameRun(w.tables, a, b) ==> a == b)
  }

  ghost predicate AdmittedOk(w: World) {
    NoDup(w.admitted) && forall id :: id in w.admitted ==> Resumed(w.tables, id)
  }

  ghost predicate Inv(o: S.Outside, w: World) {
    && S.Inv(o, w.tables) && R.RegistryOk(w.registry)
    && w.registry.reserved == |Holders(w.clients)|
    && AllApart(w.clients) && ClientsOk(w) && AwaitedOk(w.registry, w.clients) && RowsOk(w) && AdmittedOk(w)
  }

  // ---- What a step may change ------------------------------------------------------------

  lemma HoldersChange(clients: seq<Pc>, i: nat, pc: Pc)
    requires i < |clients|
    ensures |Holders(clients[i := pc])| ==
      |Holders(clients)| - (if Holds(clients[i]) then 1 else 0) + (if Holds(pc) then 1 else 0)
  {
    var before, after := Holders(clients), Holders(clients[i := pc]);
    assert before - {i} == after - {i};
    assert |before - {i}| == |before| - if Holds(clients[i]) then 1 else 0;
    assert |after - {i}| == |after| - if Holds(pc) then 1 else 0;
  }

  lemma MoveApart(clients: seq<Pc>, i: nat, pc: Pc)
    requires AllApart(clients) && i < |clients|
    requires Locked(pc) ==> Locked(clients[i]) || forall j :: 0 <= j < |clients| ==> !Locked(clients[j])
    requires Owned(pc).Some? ==> Owned(pc) == Owned(clients[i]) || forall j :: 0 <= j < |clients| ==>
      Owned(clients[j]) != Owned(pc)
    ensures AllApart(clients[i := pc])
  {
    var after := clients[i := pc];
    forall j, k | 0 <= j < |after| && 0 <= k < |after| && j != k ensures Apart(after[j], after[k]) {
      assert Apart(clients[j], clients[k]) && Apart(clients[k], clients[j]);
    }
  }

  /** With the tables and the records unchanged, only the moving client matters. */
  lemma MoveOnly(o: S.Outside, w: World, i: nat, pc: Pc, reserved: nat)
    requires Inv(o, w) && i < |w.clients| && PcOk(w, pc)
    requires Placed(w.clients[i]).Some? ==> Placed(pc) == Placed(w.clients[i])
    requires Locked(pc) ==> Locked(w.clients[i]) || Unlocked(w)
    requires Owned(pc).Some? ==> Owned(pc) == Owned(w.clients[i]) || forall j :: 0 <= j < |w.clients| ==>
      Owned(w.clients[j]) != Owned(pc)
    requires reserved == w.registry.reserved - (if Holds(w.clients[i]) then 1 else 0) + (if Holds(pc) then 1 else 0)
    requires reserved <= w.registry.reserved || R.SlotFree(w.registry)
    ensures Inv(o, Move(w, i, pc).(registry := w.registry.(reserved := reserved)))
  {
    hide S.Inv, PcOk, RowOk, R.Honest, NoDup;
    HoldersChange(w.clients, i, pc);
    MoveApart(w.clients, i, pc);
    var w' := Move(w, i, pc).(registry := w.registry.(reserved := reserved));
    forall j | 0 <= j < |w.clients| ensures PcOk(w', w.clients[j]) {
      PcDepends(w, w', w.clients[j]);
    }
    PcDepends(w, w', pc);
    forall id | id in w'.tables.checkpoints ensures RowOk(w', id) {
      RowDepends(w, w', id);
    }
    forall r | Awaits(w'.registry, r) ensures exists k :: 0 <= k < |w'.clients| && Placed(w'.clients[k]) == Some(r) {
      assert Awaits(w.registry, r);
      var k :| 0 <= k < |w.clients| && Placed(w.clients[k]) == Some(r);
      assert Placed(w'.clients[k]) == Some(r);
    }
  }

  lemma PcDepends(w: World, w': World, pc: Pc)
    requires PcOk(w, pc) && w'.tables == w.tables && w'.registry.runs == w.registry.runs && w'.admitted == w.admitted
    ensures PcOk(w', pc)
  {
  }

  lemma RowDepends(w: World, w': World, id: string)
    requires id in w.tables.checkpoints && RowOk(w, id)
    requires w'.tables == w.tables && w'.registry.runs == w.registry.runs && w'.admitted == w.admitted && w'.used == w.used
    ensures RowOk(w', id)
  {
  }

  // ---- Steps inside sections ---------------------------------------------------------------

  /** The client is alone: it is in a section, or nobody is. */
  predicate Alone(w: World, i: nat)
    requires i < |w.clients|
  {
    Locked(w.clients[i]) || Unlocked(w)
  }

  lemma AloneMeans(w: World, i: nat)
    requires i < |w.clients| && Alone(w, i) && AllApart(w.clients)
    ensures forall j :: 0 <= j < |w.clients| && j != i ==> !Locked(w.clients[j])
    ensures AwaitedOk(w.registry, w.clients) ==> forall r :: Awaits(w.registry, r) ==> Placed(w.clients[i]) == Some(r)
  {
    forall j | 0 <= j < |w.clients| && j != i ensures !Locked(w.clients[j]) {
      assert Apart(w.clients[j], w.clients[i]);
    }
    if AwaitedOk(w.registry, w.clients) {
      forall r | Awaits(w.registry, r) ensures Placed(w.clients[i]) == Some(r) {
        var k :| 0 <= k < |w.clients| && Placed(w.clients[k]) == Some(r);
      }
    }
  }

  lemma OutsidePcOk(w: World, w': World, pc: Pc)
    requires PcOk(w, pc) && !Locked(pc) && w'.tables == w.tables
    requires forall id :: id in w'.admitted && id !in w.admitted ==> Owned(pc) != Some(id)
    ensures PcOk(w', pc)
  {
  }

  /** Registry operations of a client that is alone. */
  lemma SectionStep(o: S.Outside, w: World, i: nat, pc: Pc, w': World)
    requires Inv(o, w) && i < |w.clients| && Alone(w, i)
    requires w'.tables == w.tables && w'.clients == w.clients[i := pc]
    requires R.RegistryOk(w'.registry) && PcOk(w', pc) && RowsOk(w')
    requires w'.registry.reserved ==
      w.registry.reserved - (if Holds(w.clients[i]) then 1 else 0) + (if Holds(pc) then 1 else 0)
    requires forall r :: Awaits(w'.registry, r) ==> Placed(pc) == Some(r)
    requires Owned(pc).Some? ==> Owned(pc) == Owned(w.clients[i])
    requires w'.admitted == w.admitted || (Owned(w.clients[i]).Some? && w'.admitted == w.admitted + [Owned(w.clients[i]).value])
    ensures Inv(o, w')
  {
    hide S.Inv, R.RegistryOk, PcOk, RowsOk, Placed;
    AloneMeans(w, i);
    HoldersChange(w.clients, i, pc);
    MoveApart(w.clients, i, pc);
    OwnedPinned(w, i);
    forall j | 0 <= j < |w.clients| && j != i ensures PcOk(w', w.clients[j]) {
      assert Apart(w.clients[i], w.clients[j]);
      OutsidePcOk(w, w', w.clients[j]);
    }
    assert w'.clients[i] == pc;
  }

  lemma OwnedPinned(w: World, i: nat)
    requires i < |w.clients| && ClientsOk(w)
    ensures Owned(w.clients[i]).Some? ==>
      Owned(w.clients[i]).value !in w.admitted && Resumed(w.tables, Owned(w.clients[i]).value)
  {
    assert PcOk(w, w.clients[i]);
  }

  /** When nobody waits for admission, all runs that are not over are running, so there is room. */
  lemma RoomForOne(g: R.Registry, r: string, record: R.RunRecord)
    requires R.RegistryOk(g) && forall id :: !Awaits(g, id)
    ensures R.InsertRecord(g, r, record).Ok?
  {
    R.RetentionFullMeans(g, r, record);
    if forall id :: id in g.runs ==> !R.IsTerminal(g.runs[id].status) {
      forall id | id in g.runs ensures id in R.Active(g.runs) {
        assert !Awaits(g, id);
      }
      assert R.Active(g.runs) == g.runs.Keys;
    }
  }

  lemma InsertFacts(g: R.Registry, r: string, checkpoint: Option<string>)
    requires R.RegistryOk(g) && r !in g.runs && forall id :: !Awaits(g, id)
    ensures R.InsertRecord(g, r, R.Fresh(checkpoint)).Ok?
    ensures var g' := R.InsertRecord(g, r, R.Fresh(checkpoint)).value;
      && R.RegistryOk(g') && g'.reserved == g.reserved
      && r in g'.runs && g'.runs[r] == R.Fresh(checkpoint)
      && (forall id :: id in g'.runs && id != r ==> id in g.runs && g'.runs[id] == g.runs[id])
  {
    RoomForOne(g, r, R.Fresh(checkpoint));
    R.InsertOk(g, r, R.Fresh(checkpoint));
    R.EvictOk(g);
    hide R.Evict;
  }

  lemma RowsKept(w: World, w': World)
    requires RowsOk(w) && w'.tables == w.tables && w.used <= w'.used && w'.registry.runs.Keys <= w'.used
    requires forall id :: id in w.admitted ==> id in w'.admitted
    requires forall r :: r in w'.registry.runs ==>
      || (r in w.registry.runs && w'.registry.runs[r].status == w.registry.runs[r].status)
      || w'.registry.runs[r].status == R.Accepted || w'.registry.runs[r].status == R.Checkpointed
      || forall id :: id in w.tables.checkpoints && w.tables.checkpoints[id].runId == r ==> id in w'.admitted
    ensures RowsOk(w')
  {
    forall id | id in w'.tables.checkpoints ensures RowOk(w', id) {
      assert RowOk(w, id);
    }
  }

  /** Starting a run, and storing the record of a resumed one. */
  lemma InsertStep(o: S.Outside, w: World, i: nat, r: string, checkpoint: Option<string>, done: Pc, failed: Pc)
    requires Inv(o, w) && i < |w.clients| && Alone(w, i) && Placed(w.clients[i]).None? && r !in w.registry.runs
    requires Placed(done) == Some(r) && Locked(done) && (Holds(done) <==>
      Holds(w.clients[i])) && Owned(done) == Owned(w.clients[i])
    requires PcOk(Insert(w, i, r, checkpoint, done, failed), done)
    ensures R.InsertRecord(w.registry, r, R.Fresh(checkpoint)).Ok?
    ensures Inv(o, Insert(w, i, r, checkpoint, done, failed))
  {
    hide S.Inv, R.RegistryOk, PcOk, R.InsertRecord, Placed, Owned, Holds;
    AloneMeans(w, i);
    InsertFacts(w.registry, r, checkpoint);
    var w' := Insert(w, i, r, checkpoint, done, failed);
    RowsKept(w, w');
    SectionStep(o, w, i, done, w');
  }

  lemma ActiveMore(g: R.Registry, r: string, status: R.RunStatus, reserved: nat)
    requires R.RegistryOk(g) && Awaits(g, r)
    requires if status == R.Running
      then |R.Active(g.runs)| + reserved < R.MAX_ACTIVE_RUNS
      else status == R.Checkpointed && reserved == g.reserved
    ensures forall checkpoint ::
      R.RegistryOk(g.(runs := g.runs[r := g.runs[r].(status := status, checkpointId := checkpoint)], reserved := reserved))
  {
    forall checkpoint
      ensures R.RegistryOk(g.(runs := g.runs[r := g.runs[r].(status := status, checkpointId := checkpoint)], reserved := reserved))
    {
      R.ChangeOk(g, r, g.runs[r].(status := status, checkpointId := checkpoint), reserved);
    }
  }

  /** A run put in place is admitted or checkpointed. */
  lemma PlacedStep(o: S.Outside, w: World, i: nat, r: string, record: R.RunRecord, reserved: nat, admitted: seq<string>,
                   pc: Pc)
    requires Inv(o, w) && i < |w.clients| && Placed(w.clients[i]) == Some(r) && Awaits(w.registry, r)
    requires R.RegistryOk(w.registry.(runs := w.registry.runs[r := record], reserved := reserved))
    requires reserved == w.registry.reserved - if Holds(w.clients[i]) then 1 else 0
    requires admitted == w.admitted || (Owned(w.clients[i]).Some? && admitted == w.admitted + [Owned(w.clients[i]).value])
    requires record.status == R.Checkpointed || (record.status == R.Running &&
      forall id :: id in w.tables.checkpoints && w.tables.checkpoints[id].runId == r ==> id in admitted)
    requires pc.Idle? || pc.Admitted?
    ensures var g := w.registry.(runs := w.registry.runs[r := record], reserved := reserved);
      Inv(o, Move(w, i, pc).(registry := g, admitted := admitted))
  {
    hide S.Inv, R.RegistryOk, PcOk, RowsOk;
    PlacedLocked(w.clients[i]);
    AloneMeans(w, i);
    var g := w.registry.(runs := w.registry.runs[r := record], reserved := reserved);
    var w' := Move(w, i, pc).(registry := g, admitted := admitted);
    KeysUsed(w);
    RowsKept(w, w');
    LeftOk(w', pc);
    forall q ensures !Awaits(g, q) {
      assert Awaits(g, q) ==> Awaits(w.registry, q);
    }
    SectionStep(o, w, i, pc, w');
  }

  lemma PlacedLocked(pc: Pc)
    ensures Placed(pc).Some? ==> Locked(pc)
  {
  }

  lemma LeftOk(w: World, pc: Pc)
    requires pc.Idle? || pc.Admitted?
    ensures PcOk(w, pc) && !Holds(pc) && Placed(pc).None? && Owned(pc).None?
  {
  }

  lemma KeysUsed(w: World)
    requires RowsOk(w)
    ensures w.registry.runs.Keys <= w.used
  {
  }

  /** A record nobody needs any more is removed. */
  lemma RemoveStep(o: S.Outside, w: World, i: nat, r: string, pc: Pc)
    requires Inv(o, w) && i < |w.clients| && Alone(w, i) && (r in w.registry.runs ==> w.registry.runs[r].status != R.Running)
    requires Placed(w.clients[i]).Some? ==> Placed(w.clients[i]) == Some(r)
    requires Placed(pc).None? && (Holds(pc) <==> Holds(w.clients[i])) && (Owned(pc).Some? ==>
      Owned(pc) == Owned(w.clients[i]))
    requires PcOk(Move(w, i, pc).(registry := R.Remove(w.registry, r)), pc)
    ensures Inv(o, Move(w, i, pc).(registry := R.Remove(w.registry, r)))
  {
    hide S.Inv, R.RegistryOk, PcOk, RowsOk, Placed, Owned, Holds;
    AloneMeans(w, i);
    R.RemoveOk(w.registry, r);
    KeysUsed(w);
    var w' := Move(w, i, pc).(registry := R.Remove(w.registry, r));
    RowsKept(w, w');
    forall q ensures !Awaits(w'.registry, q) {
      assert Awaits(w'.registry, q) ==> Awaits(w.registry, q);
    }
    SectionStep(o, w, i, pc, w');
  }

  // ---- Steps outside sections, and everybody else -------------------------------------------

  lemma ReserveStep(o: S.Outside, w: World, i: nat)
    requires Inv(o, w) && Enabled(o, w, Client(i, Reserve))
    ensures Inv(o, Step(o, w, Client(i, Reserve)))
  {
    assert PcOk(w, w.clients[i]);
    hide Inv;
    var g := R.ReserveAsyncSlot(w.registry);
    if g.Ok? {
      MoveOnly(o, w, i, Holding(w.clients[i].id), w.registry.reserved + 1);
    } else {
      MoveOnly(o, w, i, Idle, w.registry.reserved);
      assert w.registry.(reserved := w.registry.reserved) == w.registry;
    }
  }

  lemma HolderCounted(w: World, i: nat)
    requires w.registry.reserved == |Holders(w.clients)| && i < |w.clients| && Holds(w.clients[i])
    ensures w.registry.reserved > 0
  {
    assert i in Holders(w.clients);
  }

  lemma GiveBackStep(o: S.Outside, w: World, i: nat)
    requires Inv(o, w) && Enabled(o, w, Client(i, GiveBack))
    ensures Inv(o, Step(o, w, Client(i, GiveBack)))
  {
    HolderCounted(w, i);
    hide Inv;
    MoveOnly(o, w, i, Idle, w.registry.reserved - 1);
  }

  /** Steps that only move the client. */
  lemma StayStep(o: S.Outside, w: World, i: nat, pc: Pc)
    requires Inv(o, w) && i < |w.clients| && PcOk(w, pc)
    requires Placed(w.clients[i]).Some? ==> Placed(pc) == Placed(w.clients[i])
    requires Locked(pc) ==> Locked(w.clients[i])
    requires Owned(pc).None? && (Holds(pc) <==> Holds(w.clients[i]))
    ensures Inv(o, Move(w, i, pc))
  {
    hide Inv, PcOk;
    MoveOnly(o, w, i, pc, w.registry.reserved);
    assert w.registry.(reserved := w.registry.reserved) == w.registry;
  }

  /** The tables change as long as no checkpoint disappears, is renamed or is used again. */
  ghost predicate TablesGrow(t: S.Tables, t': S.Tables) {
    && (forall id :: id in t.checkpoints ==>
          id in t'.checkpoints && t'.checkpoints[id].runId == t.checkpoints[id].runId && (S.Spent(t, id) ==>
            S.Spent(t', id)))
    && t'.checkpoints.Keys == t.checkpoints.Keys
    && (forall id :: Resumed(t, id) ==> Resumed(t', id))
  }

  lemma GrownPcOk(w: World, t: S.Tables, pc: Pc)
    requires TablesGrow(w.tables, t) && PcOk(w, pc)
    ensures PcOk(w.(tables := t), pc)
  {
  }

  lemma GrownRowsOk(w: World, t: S.Tables)
    requires TablesGrow(w.tables, t) && RowsOk(w) && AdmittedOk(w)
    ensures RowsOk(w.(tables := t)) && AdmittedOk(w.(tables := t))
  {
    forall id | id in t.checkpoints ensures RowOk(w.(tables := t), id) {
      assert RowOk(w, id);
    }
    forall a, b | SameRun(t, a, b) ensures a == b {
      assert SameRun(w.tables, a, b);
    }
  }

  lemma TablesStep(o: S.Outside, w: World, t: S.Tables)
    requires Inv(o, w) && S.Inv(o, t) && TablesGrow(w.tables, t)
    ensures Inv(o, w.(tables := t))
  {
    hide S.Inv, R.RegistryOk, PcOk, RowsOk, TablesGrow, AdmittedOk;
    GrownRowsOk(w, t);
    forall i | 0 <= i < |w.clients| ensures PcOk(w.(tables := t), w.clients[i]) {
      GrownPcOk(w, t, w.clients[i]);
    }
  }

  lemma ApprovalStep(o: S.Outside, w: World, d: S.Op)
    requires Inv(o, w) && Enabled(o, w, Approval(d))
    ensures Inv(o, Step(o, w, Approval(d)))
  {
    S.StepKeepsInv(o, w.tables, d);
    S.StepIsFinal(o, w.tables, d);
    SameKeys(o, w.tables, d);
    var t := S.Step(o, w.tables, d);
    hide S.Inv, S.Step, Inv, S.Undecided;
    forall id | Resumed(w.tables, id) ensures S.Undecided(t, id) {
      S.StaysUndecided(o, w.tables, d, id);
    }
    FinalGrows(w.tables, t);
    TablesStep(o, w, t);
  }

  lemma FinalGrows(t: S.Tables, t': S.Tables)
    requires S.Final(t, t') && t'.checkpoints.Keys == t.checkpoints.Keys
    requires forall id :: Resumed(t, id) ==> S.Undecided(t', id)
    ensures TablesGrow(t, t')
  {
    forall id | id in t.checkpoints ensures t'.checkpoints[id].runId == t.checkpoints[id].runId {
      assert t'.checkpoints[id].(consumedAt := None).runId == t.checkpoints[id].(consumedAt := None).runId;
    }
  }

  /** Approvals add no checkpoint. */
  lemma SameKeys(o: S.Outside, t: S.Tables, d: S.Op)
    requires S.Inv(o, t) && S.Enabled(t, d) && (d.DoAsk? || d.DoDecide?)
    ensures S.Step(o, t, d).checkpoints.Keys == t.checkpoints.Keys
  {
    hide S.Inv, S.CheckpointValid, S.ApprovalValid, S.Bound, S.Expected, S.SameRequest, S.Lapsed, S.Settled;
  }

  lemma ConsumeStep(o: S.Outside, w: World, i: nat, now: int)
    requires Inv(o, w) && Enabled(o, w, Client(i, Consume(now)))
    ensures Inv(o, Step(o, w, Client(i, Consume(now))))
  {
    var id := w.clients[i].id;
    if S.Consume(o, w.tables, id, now).1.Err? {
      StayStep(o, w, i, Refused);
    } else {
      S.ConsumeKeepsInv(o, w.tables, id, now);
      var (t, r) := S.Consume(o, w.tables, id, now);
      ConsumeFacts(o, w.tables, id, now);
      hide S.Inv, S.Consume, Inv, TablesGrow;
      TablesStep(o, w, t);
      TakeOver(o, w, w.(tables := t), i, r.value);
    }
  }

  lemma ConsumeFacts(o: S.Outside, t: S.Tables, id: string, now: int)
    requires S.Inv(o, t) && S.Consume(o, t, id, now).1.Ok?
    ensures var (t', r) := S.Consume(o, t, id, now);
      && TablesGrow(t, t') && r.value.id == id && !S.Spent(t, id) && Resumed(t', id) && t'.checkpoints[id].runId ==
        r.value.runId
  {
    S.UnspentUndecided(o, t, id);
  }

  /** The client that has consumed a checkpoint owns it alone. */
  lemma TakeOver(o: S.Outside, before: World, w: World, i: nat, c: S.Checkpoint)
    requires Inv(o, before) && Inv(o, w) && i < |w.clients| && w.clients[i].Holding?
    requires before.clients == w.clients && before.admitted == w.admitted
    requires !S.Spent(before.tables, c.id) && Resumed(w.tables, c.id) && w.tables.checkpoints[c.id].runId == c.runId
    ensures Inv(o, Move(w, i, Owner(c)))
  {
    forall j | 0 <= j < |w.clients| ensures Owned(w.clients[j]) != Some(c.id) {
      OwnedPinned(before, j);
    }
    assert Pinned(w, c) by {
      assert c.id !in before.admitted;
    }
    hide Inv, Pinned, S.Spent, S.Undecided;
    MoveOnly(o, w, i, Owner(c), w.registry.reserved);
    assert w.registry.(reserved := w.registry.reserved) == w.registry;
  }

  lemma RowsSame(w: World, w': World)
    requires RowsOk(w) && w'.tables == w.tables && w'.registry == w.registry && w'.admitted ==
      w.admitted && w'.used == w.used
    ensures RowsOk(w')
  {
    forall id | id in w'.tables.checkpoints ensures RowOk(w', id) {
      assert RowOk(w, id);
    }
  }

  lemma AwaitedKept(g: R.Registry, clients: seq<Pc>, i: nat, pc: Pc)
    requires AwaitedOk(g, clients) && i < |clients|
    requires Placed(clients[i]).Some? ==> Placed(pc) == Placed(clients[i])
    ensures AwaitedOk(g, clients[i := pc])
  {
    var after := clients[i := pc];
    forall r | Awaits(g, r) ensures exists k :: 0 <= k < |after| && Placed(after[k]) == Some(r) {
      var k :| 0 <= k < |clients| && Placed(clients[k]) == Some(r);
      assert Placed(after[k]) == Some(r);
    }
  }

  lemma ClearStep(o: S.Outside, w: World, i: nat)
    requires Inv(o, w) && Enabled(o, w, Client(i, Clear))
    ensures Inv(o, Step(o, w, Client(i, Clear)))
  {
    var c := w.clients[i].c;
    assert PcOk(w, w.clients[i]);
    assert RowOk(w, c.id);
    hide Inv, S.Spent;
    if c.runId in w.registry.runs {
      RemoveStep(o, w, i, c.runId, Cleared(c));
    } else {
      MoveOnly(o, w, i, Cleared(c), w.registry.reserved);
      assert w.registry.(reserved := w.registry.reserved) == w.registry;
    }
  }

  /** Storing the record of a resumed run always succeeds. */
  lemma StoreStep(o: S.Outside, w: World, i: nat)
    requires Inv(o, w) && Enabled(o, w, Client(i, Store))
    ensures Step(o, w, Client(i, Store)).clients[i].Stored?
    ensures var c, g := w.clients[i].c, Step(o, w, Client(i, Store)).registry;
      c.runId in g.runs && g.runs[c.runId] == R.RunRecord(R.Accepted, None, false, Some(c.id))
    ensures Inv(o, Step(o, w, Client(i, Store)))
  {
    var c := w.clients[i].c;
    assert PcOk(w, w.clients[i]);
    PlacedLocked(w.clients[i]);
    AloneMeans(w, i);
    InsertFacts(w.registry, c.runId, Some(c.id));
    hide Inv, R.InsertRecord, S.Spent;
    InsertStep(o, w, i, c.runId, Some(c.id), Stored(c), LaunchFailed);
  }

  /** So does its admission. */
  lemma LaunchStep(o: S.Outside, w: World, i: nat)
    requires Inv(o, w) && Enabled(o, w, Client(i, Launch))
    ensures Step(o, w, Client(i, Launch)).admitted == w.admitted + [w.clients[i].c.id]
    ensures Inv(o, Step(o, w, Client(i, Launch)))
  {
    var c, g := w.clients[i].c, w.registry;
    assert PcOk(w, w.clients[i]);
    HolderCounted(w, i);
    R.RegistryFacts(g);
    ActiveMore(g, c.runId, R.Running, g.reserved - 1);
    var record := g.runs[c.runId].(status := R.Running);
    assert record == g.runs[c.runId].(status := R.Running, checkpointId := g.runs[c.runId].checkpointId);
    forall id | id in w.tables.checkpoints && w.tables.checkpoints[id].runId == c.runId ensures id in w.admitted + [c.id] {
      assert SameRun(w.tables, id, c.id);
    }
    hide Inv, R.RegistryOk, S.Spent, PcOk;
    PlacedStep(o, w, i, c.runId, record, g.reserved - 1, w.admitted + [c.id], Admitted(c.runId));
  }

  /** The tables, the records and the clients do not depend on the threads. */
  lemma OtherThreads(o: S.Outside, w: World, threads: set<string>, stranded: set<string>)
    requires Inv(o, w)
    ensures Inv(o, w.(threads := threads, stranded := stranded))
  {
    hide S.Inv, R.RegistryOk, PcOk, RowOk;
    var w' := w.(threads := threads, stranded := stranded);
    forall i | 0 <= i < |w.clients| ensures PcOk(w', w.clients[i]) {
      PcDepends(w, w', w.clients[i]);
    }
    forall id | id in w.tables.checkpoints ensures RowOk(w', id) {
      RowDepends(w, w', id);
    }
  }

  /** The execution row is updated, or not. */
  lemma RowStep(o: S.Outside, w: World, i: nat, a: Action)
    requires Inv(o, w) && Enabled(o, w, Client(i, a)) && (a.StartThread? || a.RowFails?)
    ensures Inv(o, Step(o, w, Client(i, a)))
  {
    hide Inv;
    StayStep(o, w, i, Idle);
    var idle := Move(w, i, Idle);
    OtherThreads(o, idle, w.threads + {w.clients[i].runId}, w.stranded);
    OtherThreads(o, idle, w.threads, w.stranded + {w.clients[i].runId});
  }

  lemma RowRunsUsed(w: World)
    requires RowsOk(w)
    ensures forall id :: id in w.tables.checkpoints ==> w.tables.checkpoints[id].runId in w.used
  {
    forall id | id in w.tables.checkpoints ensures w.tables.checkpoints[id].runId in w.used {
      assert RowOk(w, id);
    }
  }

  lemma InvParts(o: S.Outside, w: World)
    requires Inv(o, w)
    ensures R.RegistryOk(w.registry) && RowsOk(w) && AllApart(w.clients) && AwaitedOk(w.registry, w.clients)
  {
  }

  lemma StartStep(o: S.Outside, w: World, i: nat, a: Action)
    requires Inv(o, w) && Enabled(o, w, Client(i, a)) && (a.StartPlain? || a.StartSaved?)
    ensures Inv(o, Step(o, w, Client(i, a)))
  {
    hide Inv, R.InsertRecord, RowOk, S.Consume, S.Create, S.Load, NothingPending, R.Remove, R.AdmitAsync,
      R.AdmitReservedAsync, R.ReserveAsyncSlot, R.ReleaseAsyncSlot, R.MarkCheckpointed, R.RegistryOk, RowsOk;
    InvParts(o, w);
    RowRunsUsed(w);
    KeysUsed(w);
    AloneMeans(w, i);
    PlacedLocked(w.clients[i]);
    InsertFacts(w.registry, a.runId, None);
    if a.StartPlain? {
      InsertStep(o, w, i, a.runId, None, Starting(a.runId), Idle);
    } else {
      InsertStep(o, w, i, a.runId, None, Preparing(a.runId), Idle);
    }
  }

  lemma AdmitStep(o: S.Outside, w: World, i: nat)
    requires Inv(o, w) && Enabled(o, w, Client(i, AdmitPlain))
    ensures Inv(o, Step(o, w, Client(i, AdmitPlain)))
  {
    var r, g := w.clients[i].runId, w.registry;
    assert PcOk(w, w.clients[i]);
    if R.AdmitAsync(g, r).Err? {
      StayStep(o, w, i, Undoing(r));
    } else {
      ActiveMore(g, r, R.Running, g.reserved);
      var record := g.runs[r].(status := R.Running);
      assert record == g.runs[r].(status := R.Running, checkpointId := g.runs[r].checkpointId);
      hide Inv, R.RegistryOk, PcOk;
      PlacedStep(o, w, i, r, record, g.reserved, w.admitted, Idle);
      assert R.SetStatus(g, r, R.Running) == g.(runs := g.runs[r := record], reserved := g.reserved);
      OtherThreads(o, Move(w, i, Idle).(registry := R.SetStatus(g, r, R.Running)), w.threads + {r}, w.stranded);
    }
  }

  lemma MarkStep(o: S.Outside, w: World, i: nat)
    requires Inv(o, w) && Enabled(o, w, Client(i, MarkRow))
    ensures var r, g := w.clients[i].runId, Step(o, w, Client(i, MarkRow)).registry;
      r in g.runs && g.runs[r].status == R.Checkpointed && g.runs[r].checkpointId == Some(w.clients[i].id)
    ensures Inv(o, Step(o, w, Client(i, MarkRow)))
  {
    var r, g := w.clients[i].runId, w.registry;
    assert PcOk(w, w.clients[i]);
    ActiveMore(g, r, R.Checkpointed, g.reserved);
    var record := g.runs[r].(status := R.Checkpointed, checkpointId := Some(w.clients[i].id));
    hide Inv, R.RegistryOk, PcOk;
    PlacedStep(o, w, i, r, record, g.reserved, w.admitted, Idle);
    assert g.(runs := g.runs[r := record], reserved := g.reserved) == R.MarkCheckpointed(g, r, w.clients[i].id);
  }

  lemma UndoStep(o: S.Outside, w: World, i: nat)
    requires Inv(o, w) && Enabled(o, w, Client(i, Undo))
    ensures Inv(o, Step(o, w, Client(i, Undo)))
  {
    UndoMoves(o, w, i);
    assert PcOk(w, w.clients[i]);
    var r := w.clients[i].runId;
    LeftOk(Move(w, i, Idle).(registry := R.Remove(w.registry, r)), Idle);
    hide Inv, Step, Enabled, R.Remove;
    RemoveStep(o, w, i, r, Idle);
  }

  lemma UndoMoves(o: S.Outside, w: World, i: nat)
    requires Enabled(o, w, Client(i, Undo))
    ensures w.clients[i].Undoing?
    ensures Step(o, w, Client(i, Undo)) == Move(w, i, Idle).(registry := R.Remove(w.registry, w.clients[i].runId))
  {
  }

  /** The row of a new run's checkpoint. */
  lemma SaveStep(o: S.Outside, w: World, i: nat, draft: S.Checkpoint, now: int)
    requires Inv(o, w) && Enabled(o, w, Client(i, SaveRow(draft, now)))
    ensures Inv(o, Step(o, w, Client(i, SaveRow(draft, now))))
  {
    SaveMoves(o, w, i, draft, now);
    assert PcOk(w, w.clients[i]);
    var r, c := w.clients[i].runId, S.NewCheckpoint(o, draft, now);
    hide Step, Enabled, Inv, S.NewCheckpoint, NoRow;
    if c.id in w.tables.checkpoints {
      StayStep(o, w, i, Undoing(r));
    } else {
      CreateKeeps(o, w, draft, now);
      hide PcOk, S.Inv;
      SaveOk(o, w, i, c, r);
    }
  }

  lemma SaveMoves(o: S.Outside, w: World, i: nat, draft: S.Checkpoint, now: int)
    requires Enabled(o, w, Client(i, SaveRow(draft, now)))
    ensures var w', r, c := Step(o, w, Client(i, SaveRow(draft, now))), w.clients[i].runId, S.NewCheckpoint(o, draft, now);
      && w.clients[i] == Preparing(r) && c.runId == r
      && w' == if c.id in w.tables.checkpoints then Move(w, i, Undoing(r))
               else Move(w, i, Saved(r, c.id)).(tables := w.tables.(checkpoints := w.tables.checkpoints[c.id := c]))
  {
  }

  lemma CreateKeeps(o: S.Outside, w: World, draft: S.Checkpoint, now: int)
    requires Inv(o, w)
    ensures var c := S.NewCheckpoint(o, draft, now);
      c.id !in w.tables.checkpoints ==> S.Inv(o, w.tables.(checkpoints := w.tables.checkpoints[c.id := c]))
  {
    S.CreateKeepsInv(o, w.tables, draft, now);
  }

  lemma SaveOk(o: S.Outside, w: World, i: nat, c: S.Checkpoint, r: string)
    requires Inv(o, w) && i < |w.clients| && w.clients[i] == Preparing(r)
    requires Awaits(w.registry, r) && NoRow(w.tables, r) && c.runId == r && c.id !in w.tables.checkpoints
    requires S.Inv(o, w.tables.(checkpoints := w.tables.checkpoints[c.id := c]))
    ensures Inv(o, Move(w, i, Saved(r, c.id)).(tables := w.tables.(checkpoints := w.tables.checkpoints[c.id := c])))
  {
    hide S.Inv, R.RegistryOk, PcOk, NoRow, RowsOk, AdmittedOk;
    HoldersChange(w.clients, i, Saved(r, c.id));
    MoveApart(w.clients, i, Saved(r, c.id));
    AwaitedKept(w.registry, w.clients, i, Saved(r, c.id));
    SaveClients(w, i, c, r);
  }

  lemma SaveClients(w: World, i: nat, c: S.Checkpoint, r: string)
    requires AllApart(w.clients) && ClientsOk(w) && i < |w.clients| && Locked(w.clients[i])
    requires Awaits(w.registry, r) && c.runId ==
      r && c.id !in w.tables.checkpoints && RowsOk(w) && AdmittedOk(w) && NoRow(w.tables, r)
    ensures var w' := Move(w, i, Saved(r, c.id)).(tables := w.tables.(checkpoints := w.tables.checkpoints[c.id := c]));
      ClientsOk(w') && RowsOk(w') && AdmittedOk(w')
  {
    AloneMeans(w, i);
    hide PcOk, RowsOk, AdmittedOk, NoRow;
    var t := w.tables.(checkpoints := w.tables.checkpoints[c.id := c]);
    var w' := Move(w, i, Saved(r, c.id)).(tables := t);
    forall j | 0 <= j < |w.clients| && j != i ensures PcOk(w', w.clients[j]) {
      RowAddedPc(w, c, w', w.clients[j]);
    }
    SavedOk(w, w', c, r);
    RowAdded(w, c, r);
    RowsDepend(w.(tables := t), w');
  }

  lemma SavedOk(w: World, w': World, c: S.Checkpoint, r: string)
    requires w'.registry == w.registry && Awaits(w.registry, r) && c.runId == r
    requires c.id in w'.tables.checkpoints && w'.tables.checkpoints[c.id] == c
    ensures PcOk(w', Saved(r, c.id))
  {
  }

  lemma RowsDepend(w: World, w': World)
    requires RowsOk(w) && AdmittedOk(w)
    requires w'.tables == w.tables && w'.registry == w.registry && w'.admitted == w.admitted && w'.used == w.used
    ensures RowsOk(w') && AdmittedOk(w')
  {
    RowsSame(w, w');
  }

  lemma RowAdded(w: World, c: S.Checkpoint, r: string)
    requires RowsOk(w) && AdmittedOk(w) && c.runId ==
      r && NoRow(w.tables, r) && Awaits(w.registry, r) && c.id !in w.tables.checkpoints
    ensures var w' := w.(tables := w.tables.(checkpoints := w.tables.checkpoints[c.id := c]));
      RowsOk(w') && AdmittedOk(w')
  {
    var w' := w.(tables := w.tables.(checkpoints := w.tables.checkpoints[c.id := c]));
    forall id | id in w'.tables.checkpoints ensures RowOk(w', id) {
      if id != c.id {
        assert RowOk(w, id);
      }
    }
    forall a, b | SameRun(w'.tables, a, b) ensures a == b {
      if a != c.id && b != c.id {
        assert SameRun(w.tables, a, b);
      }
    }
  }

  lemma RowAddedPc(w: World, c: S.Checkpoint, w': World, pc: Pc)
    requires PcOk(w, pc) && !Locked(pc) && c.id !in w.tables.checkpoints && w'.admitted == w.admitted
    requires w'.tables == w.tables.(checkpoints := w.tables.checkpoints[c.id := c])
    ensures PcOk(w', pc)
  {
  }

  /** Executions end and cancellations arrive at any time. */
  lemma ThreadStep(o: S.Outside, w: World, op: R.Op)
    requires Inv(o, w) && Enabled(o, w, Thread(op))
    ensures Inv(o, Step(o, w, Thread(op)))
  {
    var w' := w.(registry := R.Step(w.registry, op));
    RecordStep(o, w, op);
    hide Inv, R.Step;
    OtherThreads(o, w', Step(o, w, Thread(op)).threads, w.stranded);
  }

  lemma RecordStep(o: S.Outside, w: World, op: R.Op)
    requires Inv(o, w) && R.Enabled(w.registry, op) && (op.RequestCancel? || ByThread(op))
    ensures Inv(o, w.(registry := R.Step(w.registry, op)))
  {
    R.StepKeepsOk(w.registry, op);
    ThreadFrame(w.registry, op);
    hide S.Inv, R.RegistryOk, R.Step, R.Enabled, RowOk;
    var w' := w.(registry := R.Step(w.registry, op));
    forall i | 0 <= i < |w.clients| ensures PcOk(w', w.clients[i]) {
      ThreadPc(w, w', w.clients[i]);
    }
    forall id | id in w'.tables.checkpoints ensures RowOk(w', id) {
      assert RowOk(w, id);
      RecordRow(w, w', id);
    }
    forall r | Awaits(w'.registry, r) ensures exists i :: 0 <= i < |w.clients| && Placed(w.clients[i]) == Some(r) {
      assert Awaits(w.registry, r);
    }
  }

  lemma RecordRow(w: World, w': World, id: string)
    requires id in w.tables.checkpoints && RowOk(w, id)
    requires w'.tables == w.tables && w'.admitted == w.admitted && w'.used == w.used && w'.registry.runs.Keys == w.registry.runs.Keys
    requires forall r :: r in w.registry.runs && w.registry.runs[r].status != R.Running ==>
      w'.registry.runs[r].status == w.registry.runs[r].status
    ensures RowOk(w', id)
  {
  }

  /** A thread touches running records only, apart from a cancellation flag. */
  lemma ThreadFrame(g: R.Registry, op: R.Op)
    requires (op.Begin? || op.Finish? || op.Abort? || op.RequestCancel?) && R.Enabled(g, op)
    ensures var g' := R.Step(g, op);
      && g'.runs.Keys == g.runs.Keys && g'.reserved == g.reserved
      && forall r :: r in g.runs && g.runs[r].status != R.Running ==> g'.runs[r].status == g.runs[r].status
    ensures var g' := R.Step(g, op);
      forall r :: r in g.runs && g.runs[r].status == R.Running ==>
        g'.runs[r].status != R.Accepted && g'.runs[r].status != R.Checkpointed
  {
    hide R.FirstTerminal, R.Active, R.Without;
  }

  lemma ThreadPc(w: World, w': World, pc: Pc)
    requires PcOk(w, pc) && w'.tables == w.tables && w'.admitted == w.admitted && w'.registry.runs.Keys ==
      w.registry.runs.Keys
    requires forall r :: r in w.registry.runs && w.registry.runs[r].status != R.Running ==>
      w'.registry.runs[r].status == w.registry.runs[r].status
    ensures PcOk(w', pc)
  {
  }

  /** After a restart the registry is empty and every request is gone. */
  lemma RestartStep(o: S.Outside, w: World)
    requires Inv(o, w)
    ensures Inv(o, Step(o, w, Restart))
  {
    R.EmptyOk();
    hide S.Inv, R.RegistryOk;
    var w' := Step(o, w, Restart);
    assert Holders(w'.clients) == {};
    forall id | id in w'.tables.checkpoints ensures RowOk(w', id) {
      assert RowOk(w, id);
    }
  }

  /** Main result: the invariant holds after every step. */
  lemma StepKeepsInv(o: S.Outside, w: World, e: Event)
    requires Inv(o, w) && Enabled(o, w, e)
    ensures Inv(o, Step(o, w, e))
  {
    match e
    case Thread(op) => ThreadStep(o, w, op);
    case Approval(d) => ApprovalStep(o, w, d);
    case Restart => RestartStep(o, w);
    case Client(i, a) =>
      assert PcOk(w, w.clients[i]);
      hide Inv;
      match a
      case Look(id) => StayStep(o, w, i, Looked(id));
      case Query => StayStep(o, w, i, Passed(w.clients[i].id));
      case Deny => StayStep(o, w, i, Idle);
      case Reserve => ReserveStep(o, w, i);
      case Consume(now) => ConsumeStep(o, w, i, now);
      case ConsumeFails => StayStep(o, w, i, Refused);
      case GiveBack => GiveBackStep(o, w, i);
      case Clear => ClearStep(o, w, i);
      case Store => StoreStep(o, w, i);
      case Launch => LaunchStep(o, w, i);
      case StartThread => RowStep(o, w, i, a);
      case RowFails => RowStep(o, w, i, a);
      case Abandon => assert false;
      case StartPlain(r) => StartStep(o, w, i, a);
      case AdmitPlain => AdmitStep(o, w, i);
      case StartSaved(r) => StartStep(o, w, i, a);
      case SaveRow(draft, now) => SaveStep(o, w, i, draft, now);
      case SaveFails => StayStep(o, w, i, Undoing(w.clients[i].runId));
      case MarkRow => MarkStep(o, w, i);
      case Undo => UndoStep(o, w, i);
  }

  // ---- Whole runs ---------------------------------------------------------------------------

  ghost predicate Initial(o: S.Outside, w: World) {
    && w.tables == S.Tables(map[], map[]) && w.registry == R.Empty && w.admitted == []
    && w.threads == {} && w.stranded == {}
    && forall i :: 0 <= i < |w.clients| ==> w.clients[i] == Idle
  }

  ghost predicate Behaviour(o: S.Outside, worlds: seq<World>, events: seq<Event>) {
    && |worlds| == |events| + 1 && Initial(o, worlds[0])
    && forall k :: 0 <= k < |events| ==> Enabled(o, worlds[k], events[k]) && worlds[k + 1] == Step(o, worlds[k], events[k])
  }

  lemma InitialInv(o: S.Outside, w: World)
    requires Initial(o, w)
    ensures Inv(o, w)
  {
    R.EmptyOk();
    assert Holders(w.clients) == {};
  }

  lemma {:induction false} BehaviourKeepsInv(o: S.Outside, worlds: seq<World>, events: seq<Event>, n: nat)
    requires Behaviour(o, worlds, events) && n < |worlds|
    ensures Inv(o, worlds[n])
  {
    hide Inv, Initial, Step, Enabled;
    if n == 0 {
      InitialInv(o, worlds[0]);
    } else {
      BehaviourKeepsInv(o, worlds, events, n - 1);
      StepKeepsInv(o, worlds[n - 1], events[n - 1]);
    }
  }

  /** Main result. However the clients interleave: no checkpoint is launched twice, only consumed ones are
    * and none that was approved or rejected, the slots reserved are those of the clients that hold one,
    * running and reserved slots
    * stay within the bound, and no launch of a consumed checkpoint ever fails. */
  lemma OneShot(o: S.Outside, worlds: seq<World>, events: seq<Event>, n: nat)
    requires Behaviour(o, worlds, events) && n < |worlds|
    ensures var w := worlds[n];
      && NoDup(w.admitted) && (forall id :: id in w.admitted ==> S.Spent(w.tables, id) && S.Undecided(w.tables, id))
      && w.registry.reserved == |Holders(w.clients)|
      && |R.Active(w.registry.runs)| + |Holders(w.clients)| <= R.MAX_ACTIVE_RUNS
      && R.Listed(w.registry)
      && forall i :: 0 <= i < |w.clients| ==> w.clients[i] != LaunchFailed
  {
    BehaviourKeepsInv(o, worlds, events, n);
    forall i | 0 <= i < |worlds[n].clients| ensures worlds[n].clients[i] != LaunchFailed {
      assert PcOk(worlds[n], worlds[n].clients[i]);
    }
  }

  /** A launch is a consumption that succeeded: the client that admitted had consumed the checkpoint
    * itself, nobody else owns it, and it was not launched before. */
  lemma LaunchedByOwner(o: S.Outside, w: World, i: nat)
    requires Inv(o, w) && i < |w.clients| && Owned(w.clients[i]).Some?
    ensures Owned(w.clients[i]).value !in w.admitted && S.Spent(w.tables, Owned(w.clients[i]).value)
    ensures forall j :: 0 <= j < |w.clients| && j != i ==> Owned(w.clients[j]) != Owned(w.clients[i])
  {
    OwnedPinned(w, i);
    forall j | 0 <= j < |w.clients| && j != i ensures Owned(w.clients[j]) != Owned(w.clients[i]) {
      assert Apart(w.clients[i], w.clients[j]);
    }
  }

  /** The checks before a resume are not repeated: a client that holds a slot consumes the checkpoint
    * exactly if it is not used up and its cursors fit, whatever approvals it has by now. */
  lemma ConsumesIffUnspent(o: S.Outside, w: World, i: nat, now: int)
    requires Inv(o, w) && i < |w.clients| && w.clients[i].Holding?
    ensures var id := w.clients[i].id;
      Act(o, w, i, Consume(now)).clients[i].Owner? <==> !S.Spent(w.tables, id) && S.CursorsFit(w.tables.checkpoints[id])
  {
    assert PcOk(w, w.clients[i]);
  }

  /** So an approval asked for between the checks and the consumption, and still pending, does not stop the
    * resume. */
  lemma LateApprovalIgnored(o: S.Outside, w: World, i: nat, ask: S.Op, now: int)
    requires Inv(o, w) && i < |w.clients| && w.clients[i].Holding?
    requires ask.DoAsk? && ask.request.checkpointId == w.clients[i].id && Enabled(o, w, Approval(ask))
    requires S.Ask(o, w.tables, ask.request, ask.existing, ask.freshId, ask.now).1.Ok?
    ensures var asked := Step(o, w, Approval(ask));
      var a := S.Ask(o, w.tables, ask.request, ask.existing, ask.freshId, ask.now).1.value;
      && a.status == S.Pending && a.checkpointId == w.clients[i].id && a.id in asked.tables.approvals
      && Act(o, asked, i, Consume(now)).clients[i].Owner?
  {
    var asked := Step(o, w, Approval(ask));
    ApprovalStep(o, w, ask);
    AskedFacts(o, w.tables, ask.request, ask.existing, ask.freshId, ask.now);
    assert asked.clients == w.clients;
    hide Inv, Act, S.Ask, S.Inv;
    ConsumesIffUnspent(o, asked, i, now);
  }

  lemma AskedFacts(o: S.Outside, t: S.Tables, q: S.Request, existing: Option<string>, freshId: string, now: int)
    requires S.Inv(o, t) && S.Finds(t, q, existing) && S.Ask(o, t, q, existing, freshId, now).1.Ok?
    ensures var (t', r) := S.Ask(o, t, q, existing, freshId, now);
      && r.value.status == S.Pending && r.value.checkpointId == q.checkpointId && r.value.id in t'.approvals
      && q.checkpointId in t'.checkpoints && !S.Spent(t', q.checkpointId) && S.CursorsFit(t'.checkpoints[q.checkpointId])
  {
    hide S.CheckpointValid, S.ApprovalSeal, S.SameRequest;
    if existing.Some? {
      assert S.ApprovalFine(o, t, existing.value);
    }
  }
}
