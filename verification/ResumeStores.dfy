/** Durable checkpoints and the approvals bound to them (agent-graph-mcp/src/store.rs). Every operation is
  * one database transaction. */
module ResumeStores {
  import opened Values

  /** Hashing, keyed hashing and the calendar are arbitrary functions. */
  datatype Outside = Outside(
    digest: Json -> string,
    sealCheckpoint: Checkpoint -> string,
    sealApproval: Approval -> string,
    parseTime: string -> Option<int>)

  datatype Checkpoint = Checkpoint(
    id: string, runId: string, graphId: string, graphVersion: string, cursor: string,
    state: Json, stateDigest: string, budgets: Json, counters: Json,
    dependencies: Json, dependencyDigest: string, terminalCursor: nat, eventCursor: nat,
    digest: string, createdAt: int, consumedAt: Option<int>)

  datatype Status = Pending | Approved | Rejected | Expired

  datatype Approval = Approval(
    id: string, checkpointId: string, runId: string, graphId: string, graphVersion: string,
    checkpointDigest: string, audience: string, promptDigest: string, allowed: seq<string>,
    digest: string, status: Status, decision: Option<string>, decidedBy: Option<string>,
    decidedAt: Option<int>, expiresAt: string, createdAt: int)

  datatype Tables = Tables(checkpoints: map<string, Checkpoint>, approvals: map<string, Approval>)

  datatype CheckpointError = KeyRequired | Missing | Broken | AlreadyConsumed | Disk

  datatype ApprovalError =
    | NoKey
    | OnCheckpoint(error: CheckpointError)
    | Unknown
    | Tampered
    | TooLate
    | AlreadyDecided
    | NotAllowed
    | Conflict
    | NoDisk

  // ---- Digests --------------------------------------------------------------------------

  function CheckpointId(runId: string, cursor: string): string {
    "checkpoint-" + runId + "-" + cursor
  }

  /** The seal covers neither itself nor the time of consumption. */
  function CheckpointSeal(o: Outside, c: Checkpoint): string {
    o.sealCheckpoint(c.(digest := "", consumedAt := None))
  }

  /** The seal of an approval covers its status and decision. */
  function ApprovalSeal(o: Outside, a: Approval): string {
    o.sealApproval(a.(digest := ""))
  }

  predicate CheckpointValid(o: Outside, c: Checkpoint) {
    && c.id == CheckpointId(c.runId, c.cursor)
    && c.stateDigest == o.digest(c.state) && c.dependencyDigest == o.digest(c.dependencies)
    && c.digest == CheckpointSeal(o, c)
  }

  predicate ApprovalValid(o: Outside, a: Approval) {
    a.digest == ApprovalSeal(o, a)
  }

  predicate Bound(a: Approval, c: Checkpoint) {
    c.runId == a.runId && c.graphId == a.graphId && c.graphVersion == a.graphVersion && c.digest == a.checkpointDigest
  }

  // ---- The transactions -----------------------------------------------------------------

  const CURSOR_LIMIT: nat := 0x8000_0000_0000_0000

  /** Cursors are stored as signed numbers of 64 bits; one that does not fit comes back negative. */
  predicate CursorsFit(c: Checkpoint) {
    c.terminalCursor < CURSOR_LIMIT && c.eventCursor < CURSOR_LIMIT
  }

  function Load(o: Outside, t: Tables, id: string): Result<Checkpoint, CheckpointError> {
    if id !in t.checkpoints then Err(Missing)
    else if !CursorsFit(t.checkpoints[id]) || !CheckpointValid(o, t.checkpoints[id]) then Err(Broken)
    else Ok(t.checkpoints[id])
  }

  function Sealed(o: Outside, c: Checkpoint): Checkpoint {
    c.(digest := CheckpointSeal(o, c))
  }

  /** The record a creation writes; `draft` carries what the caller gives. */
  function NewCheckpoint(o: Outside, draft: Checkpoint, now: int): Checkpoint {
    Sealed(o, draft.(id := CheckpointId(draft.runId, draft.cursor), stateDigest := o.digest(draft.state),
                     dependencyDigest := o.digest(draft.dependencies), digest := "", createdAt := now, consumedAt := None))
  }

  /** Identifiers are unique; a second row with the same one is refused. */
  function Create(o: Outside, t: Tables, draft: Checkpoint, now: int): (Tables, Result<Checkpoint, CheckpointError>) {
    var c := NewCheckpoint(o, draft, now);
    if c.id in t.checkpoints then (t, Err(Disk)) else (t.(checkpoints := t.checkpoints[c.id := c]), Ok(c))
  }

  function MarkConsumed(t: Tables, id: string, now: int): Tables
    requires id in t.checkpoints
  {
    t.(checkpoints := t.checkpoints[id := t.checkpoints[id].(consumedAt := Some(now))])
  }

  function Consume(o: Outside, t: Tables, id: string, now: int): (Tables, Result<Checkpoint, CheckpointError>) {
    match Load(o, t, id)
    case Err(e) => (t, Err(e))
    case Ok(c) =>
      if c.consumedAt.Some? then (t, Err(AlreadyConsumed))
      else (MarkConsumed(t, id, now), Ok(c.(consumedAt := Some(now))))
  }

  /** What a request for an approval expects of the checkpoint, and asks for. */
  datatype Request = Request(
    checkpointId: string, graphId: string, graphVersion: string, cursor: string, state: Json, budgets: Json,
    counters: Json, dependencies: Json, audience: string, promptDigest: string, allowed: seq<string>, expiresAt: string)

  predicate Expected(c: Checkpoint, q: Request) {
    && c.graphId == q.graphId && c.graphVersion == q.graphVersion && c.cursor == q.cursor && c.state == q.state
    && c.budgets == q.budgets && c.counters == q.counters && c.dependencies == q.dependencies
    && c.terminalCursor == 0 && c.eventCursor == 0
  }

  predicate SameRequest(a: Approval, q: Request, c: Checkpoint) {
    && a.graphId == q.graphId && a.graphVersion == q.graphVersion && a.checkpointDigest == c.digest
    && a.promptDigest == q.promptDigest && a.allowed == q.allowed && a.expiresAt == q.expiresAt
  }

  function NewApproval(o: Outside, c: Checkpoint, q: Request, id: string, now: int): Approval {
    var a := Approval(id, c.id, c.runId, q.graphId, q.graphVersion, c.digest, q.audience, q.promptDigest, q.allowed,
                      "", Pending, None, None, None, q.expiresAt, now);
    a.(digest := ApprovalSeal(o, a))
  }

  predicate PendingFor(t: Tables, id: string, checkpointId: string, audience: string) {
    id in t.approvals && t.approvals[id].checkpointId == checkpointId && t.approvals[id].audience == audience &&
    t.approvals[id].status == Pending
  }

  /** The pending row a query for the checkpoint and audience may return. */
  ghost predicate Finds(t: Tables, q: Request, existing: Option<string>) {
    match existing
    case Some(id) => PendingFor(t, id, q.checkpointId, q.audience)
    case None => forall id :: id in t.approvals ==> !PendingFor(t, id, q.checkpointId, q.audience)
  }

  function Ask(o: Outside, t: Tables, q: Request, existing: Option<string>, freshId: string,
               now: int): (Tables, Result<Approval, ApprovalError>)
    requires existing.Some? ==> existing.value in t.approvals
  {
    match Load(o, t, q.checkpointId)
    case Err(e) => (t, Err(OnCheckpoint(e)))
    case Ok(c) =>
      if c.consumedAt.Some? then (t, Err(OnCheckpoint(AlreadyConsumed)))
      else if !Expected(c, q) then (t, Err(OnCheckpoint(Broken)))
      else
        match existing
        case Some(id) =>
          var a := t.approvals[id];
          if !ApprovalValid(o, a) then (t, Err(Tampered))
          else if SameRequest(a, q, c) then (t, Ok(a))
          else (t, Err(Conflict))
        case None =>
          if freshId in t.approvals then (t, Err(NoDisk))
          else
            var a := NewApproval(o, c, q, freshId, now);
            (t.(approvals := t.approvals[freshId := a]), Ok(a))
  }

  function Reseal(o: Outside, a: Approval): Approval {
    a.(digest := ApprovalSeal(o, a))
  }

  function Lapsed(o: Outside, a: Approval, now: int): Approval {
    Reseal(o, a.(status := Expired, decision := None, decidedBy := None, decidedAt := Some(now)))
  }

  function Settled(o: Outside, a: Approval, decision: string, actor: string, now: int): Approval {
    Reseal(o, a.(status := if decision == "approve" then Approved else Rejected, decision := Some(decision),
                 decidedBy := Some(actor), decidedAt := Some(now)))
  }

  /** The checkpoint of an approval, if it is valid and the approval is bound to it. */
  function LoadBound(o: Outside, t: Tables, a: Approval): Result<Checkpoint, ApprovalError> {
    match Load(o, t, a.checkpointId)
    case Err(e) => Err(OnCheckpoint(e))
    case Ok(c) => if Bound(a, c) then Ok(c) else Err(Tampered)
  }

  /** A late decision marks the approval expired and uses up the checkpoint. */
  function Lapse(o: Outside, t: Tables, a: Approval,
                 now: int): (Tables, Result<(Approval, Checkpoint), ApprovalError>) {
    match LoadBound(o, t, a)
    case Err(e) => (t, Err(e))
    case Ok(c) =>
      var marked := t.(approvals := t.approvals[a.id := Lapsed(o, a, now)]);
      (if c.consumedAt.Some? then marked else MarkConsumed(marked, a.checkpointId, now), Err(TooLate))
  }

  function Settle(o: Outside, t: Tables, a: Approval, decision: string, actor: string,
                  now: int): (Tables, Result<(Approval, Checkpoint), ApprovalError>) {
    match LoadBound(o, t, a)
    case Err(e) => (t, Err(e))
    case Ok(c) =>
      if c.consumedAt.Some? then (t, Err(OnCheckpoint(AlreadyConsumed)))
      else
        var settled := Settled(o, a, decision, actor, now);
        (MarkConsumed(t.(approvals := t.approvals[a.id := settled]), a.checkpointId, now), Ok((settled, c)))
  }

  function Decide(o: Outside, t: Tables, id: string, decision: string, actor: string,
                  now: int): (Tables, Result<(Approval, Checkpoint), ApprovalError>) {
    if id !in t.approvals then (t, Err(Unknown))
    else
      var a := t.approvals[id].(id := id);
      if !ApprovalValid(o, a) then (t, Err(Tampered))
      else if a.status == Expired then (t, Err(TooLate))
      else if a.status != Pending then (t, Err(AlreadyDecided))
      else
        match o.parseTime(a.expiresAt)
        case None => (t, Err(Tampered))
        case Some(deadline) =>
          if deadline <= now then Lapse(o, t, a, now)
          else if decision !in a.allowed then (t, Err(NotAllowed))
          else Settle(o, t, a, decision, actor, now)
  }

  // ---- Runs -------------------------------------------------------------------------------

  datatype Op =
    | DoCreate(draft: Checkpoint, now: int)
    | DoConsume(id: string, now: int)
    | DoAsk(request: Request, existing: Option<string>, freshId: string, now: int)
    | DoDecide(approval: string, decision: string, actor: string, now: int)

  /** Operations that fail outside (no key, disk errors) leave the tables alone and need no step. */
  ghost predicate Enabled(t: Tables, op: Op) {
    op.DoAsk? ==> Finds(t, op.request, op.existing)
  }

  function Step(o: Outside, t: Tables, op: Op): Tables
    requires op.DoAsk? && op.existing.Some? ==> op.existing.value in t.approvals
  {
    match op
    case DoCreate(draft, now) => Create(o, t, draft, now).0
    case DoConsume(id, now) => Consume(o, t, id, now).0
    case DoAsk(q, existing, freshId, now) => Ask(o, t, q, existing, freshId, now).0
    case DoDecide(id, decision, actor, now) => Decide(o, t, id, decision, actor, now).0
  }

  /** The operation succeeds in using up the checkpoint: a direct consumption, or a decision in time. */
  predicate Takes(o: Outside, t: Tables, op: Op, id: string) {
    match op
    case DoConsume(i, now) => i == id && Consume(o, t, i, now).1.Ok?
    case DoDecide(a, decision, actor, now) =>
      var r := Decide(o, t, a, decision, actor, now).1;
      r.Ok? && r.value.0.checkpointId == id
    case _ => false
  }

  predicate Spent(t: Tables, id: string) {
    id in t.checkpoints && t.checkpoints[id].consumedAt.Some?
  }

  /** What every reachable pair of tables satisfies. */
  ghost predicate Inv(o: Outside, t: Tables) {
    && (forall id :: id in t.checkpoints ==> t.checkpoints[id].id == id && CheckpointValid(o, t.checkpoints[id]))
    && (forall id :: id in t.approvals ==> ApprovalFine(o, t, id))
    && (forall a, b :: a in t.approvals && b in t.approvals && Rivals(t.approvals[a], t.approvals[b]) ==> a == b)
  }

  /** An approval carries a valid seal, belongs to its checkpoint, and if it is no longer pending the
    * checkpoint is used up. */
  predicate ApprovalFine(o: Outside, t: Tables, id: string)
    requires id in t.approvals
  {
    var a := t.approvals[id];
    && a.id == id && ApprovalValid(o, a) && a.checkpointId in t.checkpoints && Bound(a, t.checkpoints[a.checkpointId])
    && CursorsFit(t.checkpoints[a.checkpointId])
    && (a.status != Pending ==> Spent(t, a.checkpointId))
    && ((a.status == Approved || a.status == Rejected) <==> a.decision.Some?)
    && (a.status == Approved <==> a.decision == Some("approve"))
    && (a.decision.Some? ==> a.decision.value in a.allowed)
  }

  /** Two approvals that must not be two: pending ones for one audience, or decided ones. */
  predicate Rivals(a: Approval, b: Approval) {
    && a.checkpointId == b.checkpointId
    && ((a.status == Pending && b.status == Pending && a.audience == b.audience) || (a.decision.Some? && b.decision.Some?))
  }

  lemma CreateKeepsInv(o: Outside, t: Tables, draft: Checkpoint, now: int)
    requires Inv(o, t)
    ensures Inv(o, Create(o, t, draft, now).0)
  {
    var t' := Create(o, t, draft, now).0;
    forall id | id in t'.approvals ensures ApprovalFine(o, t', id) {
      assert ApprovalFine(o, t, id);
    }
  }

  lemma ConsumeKeepsInv(o: Outside, t: Tables, id: string, now: int)
    requires Inv(o, t)
    ensures Inv(o, Consume(o, t, id, now).0)
  {
    if Consume(o, t, id, now).1.Ok? {
      MarkKeepsInv(o, t, id, now);
    }
  }

  lemma MarkKeepsInv(o: Outside, t: Tables, id: string, now: int)
    requires Inv(o, t) && id in t.checkpoints
    ensures Inv(o, MarkConsumed(t, id, now))
  {
    var t' := MarkConsumed(t, id, now);
    forall i | i in t'.checkpoints ensures t'.checkpoints[i].id == i && CheckpointValid(o, t'.checkpoints[i]) {
      assert CheckpointSeal(o, t'.checkpoints[i]) == CheckpointSeal(o, t.checkpoints[i]);
    }
    forall a | a in t'.approvals ensures ApprovalFine(o, t', a) {
      assert ApprovalFine(o, t, a);
    }
  }

  lemma SealsFit(o: Outside, a: Approval)
    ensures ApprovalValid(o, Reseal(o, a))
  {
    assert Reseal(o, a).(digest := "") == a.(digest := "");
  }

  /** A request changes nothing, or adds a row for a checkpoint that is not used up. */
  lemma AskCases(o: Outside, t: Tables, q: Request, existing: Option<string>, freshId: string, now: int)
    requires existing.Some? ==> existing.value in t.approvals
    ensures var t', id := Ask(o, t, q, existing, freshId, now).0, q.checkpointId;
      || t' == t
      || (&& existing.None? && freshId !in t.approvals && id in t.checkpoints && !Spent(t, id)
          && CheckpointValid(o, t.checkpoints[id]) && Expected(t.checkpoints[id], q)
          && t' == t.(approvals := t.approvals[freshId := NewApproval(o, t.checkpoints[id], q, freshId, now)]))
  {
    hide CheckpointValid, ApprovalValid, Expected, SameRequest, NewApproval;
  }

  lemma AskKeepsInv(o: Outside, t: Tables, q: Request, existing: Option<string>, freshId: string, now: int)
    requires Inv(o, t) && Finds(t, q, existing)
    ensures Inv(o, Ask(o, t, q, existing, freshId, now).0)
  {
    AskCases(o, t, q, existing, freshId, now);
    var t' := Ask(o, t, q, existing, freshId, now).0;
    hide Ask, CheckpointValid, ApprovalSeal;
    if t' != t {
      var c := t.checkpoints[q.checkpointId];
      SealsFit(o, NewApproval(o, c, q, freshId, now));
      forall id | id in t'.approvals ensures ApprovalFine(o, t', id) {
        if id != freshId {
          assert ApprovalFine(o, t, id);
        }
      }
      NewRowApart(o, t, NewApproval(o, c, q, freshId, now));
    }
  }

  lemma NewRowApart(o: Outside, t: Tables, a: Approval)
    requires Inv(o, t) && a.id !in t.approvals && a.status == Pending && a.decision.None?
    requires forall id :: id in t.approvals ==> !PendingFor(t, id, a.checkpointId, a.audience)
    ensures var approvals := t.approvals[a.id := a];
      forall x, y :: x in approvals && y in approvals && Rivals(approvals[x], approvals[y]) ==> x == y
  {
    hide ApprovalFine, CheckpointValid;
    var approvals := t.approvals[a.id := a];
    forall x, y | x in approvals && y in approvals && Rivals(approvals[x], approvals[y]) ensures x == y {
      if x != a.id && y != a.id {
        assert Rivals(t.approvals[x], t.approvals[y]);
      }
    }
  }

  /** No approval of the checkpoint has been decided. */
  ghost predicate Undecided(t: Tables, checkpointId: string) {
    forall id :: id in t.approvals && t.approvals[id].checkpointId == checkpointId ==> t.approvals[id].decision.None?
  }

  lemma UnspentUndecided(o: Outside, t: Tables, checkpointId: string)
    requires Inv(o, t) && !Spent(t, checkpointId)
    ensures Undecided(t, checkpointId)
  {
    hide ApprovalValid, CheckpointValid, Bound;
    forall id | id in t.approvals && t.approvals[id].checkpointId == checkpointId ensures t.approvals[id].decision.None? {
      assert ApprovalFine(o, t, id);
    }
  }

  /** A pending approval `b` becomes `a`. */
  ghost predicate Leaves(o: Outside, b: Approval, a: Approval) {
    && b.status == Pending && a.status != Pending && a.id == b.id && a.checkpointId == b.checkpointId
    && a.runId == b.runId && a.graphId == b.graphId && a.graphVersion == b.graphVersion && a.checkpointDigest ==
      b.checkpointDigest
    && ApprovalValid(o, a) && (a.status == Expired <==> a.decision.None?)
    && (a.status == Approved <==> a.decision == Some("approve"))
    && (a.decision.Some? ==> a.decision.value in a.allowed)
  }

  /** One approval leaves the pending state while its checkpoint is used up. */
  lemma ChangeKeepsInv(o: Outside, t: Tables, a: Approval)
    requires Inv(o, t) && a.id in t.approvals && Leaves(o, t.approvals[a.id], a)
    requires Spent(t, a.checkpointId) && (a.decision.Some? ==> Undecided(t, a.checkpointId))
    ensures Inv(o, t.(approvals := t.approvals[a.id := a]))
  {
    hide ApprovalValid, CheckpointValid;
    var t' := t.(approvals := t.approvals[a.id := a]);
    assert ApprovalFine(o, t, a.id);
    forall id | id in t'.approvals ensures ApprovalFine(o, t', id) {
      assert ApprovalFine(o, t, id);
    }
    ChangeKeepsApart(o, t, a);
  }

  lemma ChangeKeepsApart(o: Outside, t: Tables, a: Approval)
    requires Inv(o, t) && a.id in t.approvals && a.status != Pending
    requires a.decision.Some? ==> Undecided(t, a.checkpointId)
    ensures var approvals := t.approvals[a.id := a];
      forall x, y :: x in approvals && y in approvals && Rivals(approvals[x], approvals[y]) ==> x == y
  {
    hide ApprovalFine, CheckpointValid;
    var approvals := t.approvals[a.id := a];
    forall x, y | x in approvals && y in approvals && Rivals(approvals[x], approvals[y]) ensures x == y {
      if x != a.id && y != a.id {
        assert Rivals(t.approvals[x], t.approvals[y]);
      }
    }
  }

  lemma LapseKeepsInv(o: Outside, t: Tables, a: Approval, now: int)
    requires Inv(o, t) && a.id in t.approvals && t.approvals[a.id] == a && a.status == Pending
    ensures Inv(o, Lapse(o, t, a, now).0)
  {
    hide ApprovalSeal, CheckpointValid, Bound;
    assert ApprovalFine(o, t, a.id);
    SealsFit(o, a.(status := Expired, decision := None, decidedBy := None, decidedAt := Some(now)));
    hide Inv, ApprovalFine, ApprovalValid;
    var lapsed := Lapsed(o, a, now);
    if Spent(t, a.checkpointId) {
      ChangeKeepsInv(o, t, lapsed);
    } else if LoadBound(o, t, a).Ok? {
      var marked := MarkConsumed(t, a.checkpointId, now);
      MarkKeepsInv(o, t, a.checkpointId, now);
      ChangeKeepsInv(o, marked, lapsed);
      assert Lapse(o, t, a, now).0 == marked.(approvals := marked.approvals[a.id := lapsed]);
    }
  }

  lemma SettleKeepsInv(o: Outside, t: Tables, a: Approval, decision: string, actor: string, now: int)
    requires Inv(o, t) && a.id in t.approvals && t.approvals[a.id] == a && a.status == Pending && decision in a.allowed
    ensures Inv(o, Settle(o, t, a, decision, actor, now).0)
  {
    hide ApprovalSeal, CheckpointValid, Bound;
    SealsFit(o, a.(status := if decision == "approve" then Approved else Rejected, decision := Some(decision),
                   decidedBy := Some(actor), decidedAt := Some(now)));
    var settled := Settled(o, a, decision, actor, now);
    assert Leaves(o, a, settled);
    hide ApprovalFine, ApprovalValid, Settled, Inv, Leaves;
    if Settle(o, t, a, decision, actor, now).1.Ok? {
      var marked := MarkConsumed(t, a.checkpointId, now);
      UnspentUndecided(o, t, a.checkpointId);
      MarkKeepsInv(o, t, a.checkpointId, now);
      assert settled.checkpointId == a.checkpointId && settled.id == a.id;
      ChangeKeepsInv(o, marked, settled);
      assert Settle(o, t, a, decision, actor, now).0 == marked.(approvals := marked.approvals[a.id := settled]);
    }
  }

  lemma DecideKeepsInv(o: Outside, t: Tables, id: string, decision: string, actor: string, now: int)
    requires Inv(o, t)
    ensures Inv(o, Decide(o, t, id, decision, actor, now).0)
  {
    hide ApprovalValid, CheckpointValid, Bound, Lapse, Settle;
    if id in t.approvals && t.approvals[id].status == Pending {
      var a := t.approvals[id];
      assert ApprovalFine(o, t, id);
      assert a.(id := id) == a;
      LapseKeepsInv(o, t, a, now);
      if decision in a.allowed {
        SettleKeepsInv(o, t, a, decision, actor, now);
      }
    }
  }

  lemma StepKeepsInv(o: Outside, t: Tables, op: Op)
    requires Inv(o, t) && Enabled(t, op)
    ensures Inv(o, Step(o, t, op))
  {
    match op
    case DoCreate(draft, now) => CreateKeepsInv(o, t, draft, now);
    case DoConsume(id, now) => ConsumeKeepsInv(o, t, id, now);
    case DoAsk(q, existing, freshId, now) => AskKeepsInv(o, t, q, existing, freshId, now);
    case DoDecide(id, decision, actor, now) => DecideKeepsInv(o, t, id, decision, actor, now);
  }

  /** A checkpoint row never changes, except that it is used up once; an approval that is no longer
    * pending never changes. */
  ghost predicate Final(t: Tables, t': Tables) {
    && (forall id :: id in t.checkpoints ==>
          && id in t'.checkpoints
          && (Spent(t, id) ==> t'.checkpoints[id] == t.checkpoints[id])
          && t'.checkpoints[id].(consumedAt := None) == t.checkpoints[id].(consumedAt := None))
    && (forall id :: id in t.approvals ==>
          && id in t'.approvals
          && (t.approvals[id].status != Pending ==> t'.approvals[id] == t.approvals[id]))
  }

  lemma StepIsFinal(o: Outside, t: Tables, op: Op)
    requires Inv(o, t) && Enabled(t, op)
    ensures Final(t, Step(o, t, op))
  {
    hide Final, Decide, Ask, Consume, Create;
    match op
    case DoCreate(draft, now) => CreateIsFinal(o, t, draft, now);
    case DoConsume(id, now) => ConsumeIsFinal(o, t, id, now);
    case DoAsk(q, existing, freshId, now) => AskIsFinal(o, t, q, existing, freshId, now);
    case DoDecide(id, decision, actor, now) => DecideIsFinal(o, t, id, decision, actor, now);
  }

  lemma CreateIsFinal(o: Outside, t: Tables, draft: Checkpoint, now: int)
    ensures Final(t, Create(o, t, draft, now).0)
  {
  }

  lemma ConsumeIsFinal(o: Outside, t: Tables, id: string, now: int)
    ensures Final(t, Consume(o, t, id, now).0)
  {
    hide CheckpointValid;
  }

  lemma AskIsFinal(o: Outside, t: Tables, q: Request, existing: Option<string>, freshId: string, now: int)
    requires Finds(t, q, existing)
    ensures Final(t, Ask(o, t, q, existing, freshId, now).0)
  {
    AskCases(o, t, q, existing, freshId, now);
    hide Ask, CheckpointValid, Expected, NewApproval;
  }

  lemma FinalChange(t: Tables, a: Approval, now: int)
    requires a.id in t.approvals && t.approvals[a.id].status == Pending
    ensures var marked := t.(approvals := t.approvals[a.id := a]);
      Final(t, marked) && (a.checkpointId in t.checkpoints && !Spent(t, a.checkpointId) ==>
        Final(t, MarkConsumed(marked, a.checkpointId, now)))
  {
  }

  lemma DecideIsFinal(o: Outside, t: Tables, id: string, decision: string, actor: string, now: int)
    requires Inv(o, t)
    ensures Final(t, Decide(o, t, id, decision, actor, now).0)
  {
    hide ApprovalValid, CheckpointValid, Bound, ApprovalSeal, Final;
    FinalSame(t);
    if id in t.approvals && t.approvals[id].status == Pending {
      var a := t.approvals[id];
      assert ApprovalFine(o, t, id);
      assert a.(id := id) == a;
      FinalChange(t, Lapsed(o, a, now), now);
      FinalChange(t, Settled(o, a, decision, actor, now), now);
      hide Lapsed, Settled, ApprovalFine;
    }
  }

  lemma FinalSame(t: Tables)
    ensures Final(t, t)
  {
  }

  /** An operation takes a checkpoint only if it is not used up, and leaves it used up. */
  lemma TakingSpends(o: Outside, t: Tables, op: Op, id: string)
    requires Inv(o, t) && Enabled(t, op) && Takes(o, t, op, id)
    ensures id in t.checkpoints && !Spent(t, id) && Spent(Step(o, t, op), id)
  {
    if op.DoDecide? {
      assert ApprovalFine(o, t, op.approval);
    }
  }

  ghost predicate History(o: Outside, states: seq<Tables>, ops: seq<Op>) {
    && |states| == |ops| + 1 && Inv(o, states[0])
    && forall i :: 0 <= i < |ops| ==> Enabled(states[i], ops[i]) && states[i + 1] == Step(o, states[i], ops[i])
  }

  lemma {:induction false} HistoryKeepsInv(o: Outside, states: seq<Tables>, ops: seq<Op>, i: nat)
    requires History(o, states, ops) && i < |states|
    ensures Inv(o, states[i])
  {
    if i > 0 {
      HistoryKeepsInv(o, states, ops, i - 1);
      StepKeepsInv(o, states[i - 1], ops[i - 1]);
    }
  }

  lemma {:induction false} StaysSpent(o: Outside, states: seq<Tables>, ops: seq<Op>, i: nat, j: nat, id: string)
    requires History(o, states, ops) && i <= j < |states| && Spent(states[i], id)
    ensures Spent(states[j], id) && states[j].checkpoints[id] == states[i].checkpoints[id]
    decreases j - i
  {
    if i < j {
      StaysSpent(o, states, ops, i, j - 1, id);
      HistoryKeepsInv(o, states, ops, j - 1);
      StepIsFinal(o, states[j - 1], ops[j - 1]);
    }
  }

  /** Main result. In any history of any clients a checkpoint is taken at most once. */
  lemma TakenOnce(o: Outside, states: seq<Tables>, ops: seq<Op>, i: nat, j: nat, id: string)
    requires History(o, states, ops) && i < |ops| && j < |ops|
    requires Takes(o, states[i], ops[i], id) && Takes(o, states[j], ops[j], id)
    ensures i == j
  {
    HistoryKeepsInv(o, states, ops, i);
    HistoryKeepsInv(o, states, ops, j);
    TakingSpends(o, states[i], ops[i], id);
    TakingSpends(o, states[j], ops[j], id);
    if i < j {
      StaysSpent(o, states, ops, i + 1, j, id);
    } else if j < i {
      StaysSpent(o, states, ops, j + 1, i, id);
    }
  }

  // ---- The status query -------------------------------------------------------------------

  predicate RowOf(t: Tables, id: string, checkpointId: string) {
    id in t.approvals && t.approvals[id].checkpointId == checkpointId
  }

  /** A row the query may return: none is newer. */
  ghost predicate Newest(t: Tables, id: string, checkpointId: string) {
    && RowOf(t, id, checkpointId)
    && forall other :: RowOf(t, other, checkpointId) ==> t.approvals[other].createdAt <= t.approvals[id].createdAt
  }

  /** Main result. Looking at one row is enough: as long as the checkpoint is not used up, one of its
    * approvals is pending exactly if all of them are. */
  lemma NewestRowIsEnough(o: Outside, t: Tables, id: string, checkpointId: string)
    requires Inv(o, t) && checkpointId in t.checkpoints && !Spent(t, checkpointId) && Newest(t, id, checkpointId)
    ensures t.approvals[id].status == Pending
    ensures forall other :: RowOf(t, other, checkpointId) ==> t.approvals[other].status == Pending
  {
    forall other | RowOf(t, other, checkpointId) ensures t.approvals[other].status == Pending {
      assert ApprovalFine(o, t, other);
    }
  }

  /** Rows written by these operations pass every check of their seals, so errors about them never
    * occur, except for cursors that do not fit, for what a caller expects wrongly and for deadlines that
    * are not dates. */
  lemma RowsPassChecks(o: Outside, t: Tables, op: Op)
    requires Inv(o, t) && Enabled(t, op)
    ensures op.DoConsume? ==>
      (Consume(o, t, op.id, op.now).1 == Err(Broken) <==> op.id in t.checkpoints && !CursorsFit(t.checkpoints[op.id]))
    ensures op.DoAsk? ==>
      var r := Ask(o, t, op.request, op.existing, op.freshId, op.now).1;
      && r != Err(Tampered)
      && (r == Err(OnCheckpoint(Broken)) <==>
            && op.request.checkpointId in t.checkpoints
            && (!CursorsFit(t.checkpoints[op.request.checkpointId]) ||
                  (!Spent(t, op.request.checkpointId) && !Expected(t.checkpoints[op.request.checkpointId], op.request))))
    ensures op.DoDecide? ==>
      var r := Decide(o, t, op.approval, op.decision, op.actor, op.now).1;
      && r != Err(OnCheckpoint(Broken)) && r != Err(OnCheckpoint(Missing))
      && (r == Err(Tampered) <==>
            && op.approval in t.approvals && t.approvals[op.approval].status == Pending
            && o.parseTime(t.approvals[op.approval].expiresAt).None?)
  {
    if op.DoDecide? && op.approval in t.approvals {
      assert ApprovalFine(o, t, op.approval);
      assert t.approvals[op.approval].(id := op.approval) == t.approvals[op.approval];
    }
    if op.DoAsk? && op.existing.Some? {
      assert ApprovalFine(o, t, op.existing.value);
    }
  }

  /** A checkpoint with a cursor that does not fit is created, and can never be loaded. */
  lemma BigCursorIsStuck(o: Outside, t: Tables, draft: Checkpoint, now: int, later: int)
    requires Inv(o, t) && draft.terminalCursor == CURSOR_LIMIT && CheckpointId(draft.runId, draft.cursor) !in t.checkpoints
    ensures var (t', r) := Create(o, t, draft, now);
      r.Ok? && Load(o, t', r.value.id) == Err(Broken) && Consume(o, t', r.value.id, later) == (t', Err(Broken))
  {
  }

  /** A checkpoint that was used up without a decision is never decided on. */
  lemma StaysUndecided(o: Outside, t: Tables, op: Op, id: string)
    requires Inv(o, t) && Enabled(t, op) && Spent(t, id) && Undecided(t, id)
    ensures Undecided(Step(o, t, op), id)
  {
    hide Ask, Decide, CheckpointValid, ApprovalValid, NewApproval;
    match op
    case DoCreate(draft, now) =>
    case DoConsume(_, _) =>
    case DoAsk(q, existing, freshId, now) => AskUndecided(o, t, q, existing, freshId, now, id);
    case DoDecide(approval, decision, actor, now) => DecideUndecided(o, t, approval, decision, actor, now, id);
  }

  lemma AskUndecided(o: Outside, t: Tables, q: Request, existing: Option<string>, freshId: string, now: int, id: string)
    requires Undecided(t, id) && Finds(t, q, existing)
    ensures Undecided(Ask(o, t, q, existing, freshId, now).0, id)
  {
    AskCases(o, t, q, existing, freshId, now);
    hide Ask, CheckpointValid, Expected, ApprovalSeal;
  }

  lemma DecideUndecided(o: Outside, t: Tables, approval: string, decision: string, actor: string, now: int, id: string)
    requires Inv(o, t) && Spent(t, id) && Undecided(t, id)
    ensures Undecided(Decide(o, t, approval, decision, actor, now).0, id)
  {
    hide ApprovalValid, CheckpointValid, Bound, ApprovalSeal;
    if approval in t.approvals {
      assert ApprovalFine(o, t, approval);
      assert t.approvals[approval].(id := approval) == t.approvals[approval];
    }
  }
}
