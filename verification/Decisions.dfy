/** What the transactions on checkpoints and approvals accept and what they leave behind, said with the rows
  * and without the transactions' own terms (agent-graph-mcp/src/store.rs). */
module Decisions {
  import opened Values
  import opened ResumeStores

  // ---- Checkpoint rows --------------------------------------------------------------------

  /** A row is accepted if its cursors fit, its name is the one of its run and cursor, and its digests are
    * those of what it holds. */
  lemma LoadMeans(o: Outside, t: Tables, id: string)
    ensures Load(o, t, id) == Err(Missing) <==> id !in t.checkpoints
    ensures Load(o, t, id).Ok? <==>
      && id in t.checkpoints
      && var c := t.checkpoints[id];
        && c.terminalCursor < 0x8000_0000_0000_0000 && c.eventCursor < 0x8000_0000_0000_0000
        && c.id == "checkpoint-" + c.runId + "-" + c.cursor
        && c.stateDigest == o.digest(c.state) && c.dependencyDigest == o.digest(c.dependencies)
        && c.digest == o.sealCheckpoint(c.(digest := "", consumedAt := None))
    ensures Load(o, t, id).Ok? ==> Load(o, t, id).value == t.checkpoints[id]
  {
  }

  /** If the keyed hash tells two contents apart, no change of a valid checkpoint row below its seal is
    * accepted, except one of the time of consumption. */
  lemma CheckpointTampered(o: Outside, c: Checkpoint, c': Checkpoint)
    requires CheckpointValid(o, c) && c'.digest == c.digest
    requires var x, y := c.(digest := "", consumedAt := None), c'.(digest := "", consumedAt := None);
      o.sealCheckpoint(x) == o.sealCheckpoint(y) ==> x == y
    ensures CheckpointValid(o, c') <==> c' == c.(consumedAt := c'.consumedAt)
  {
  }

  /** And none of an approval row, its status and decision included. */
  lemma ApprovalTampered(o: Outside, a: Approval, a': Approval)
    requires ApprovalValid(o, a) && a'.digest == a.digest
    requires o.sealApproval(a.(digest := "")) == o.sealApproval(a'.(digest := "")) ==> a.(digest := "") == a'.(digest := "")
    ensures ApprovalValid(o, a') <==> a' == a
  {
    if ApprovalValid(o, a') {
      assert a'.(digest := "").(digest := a'.digest) == a';
      assert a.(digest := "").(digest := a.digest) == a;
    }
  }

  /** The contents of a checkpoint that a client chooses. */
  predicate SameContents(c: Checkpoint, d: Checkpoint) {
    && c.runId == d.runId && c.cursor == d.cursor && c.graphId == d.graphId && c.graphVersion == d.graphVersion
    && c.state == d.state && c.budgets == d.budgets && c.counters == d.counters && c.dependencies == d.dependencies
    && c.terminalCursor == d.terminalCursor && c.eventCursor == d.eventCursor
  }

  /** A checkpoint is created exactly if its run has none for that cursor; what was saved is then in an unused
    * row that can be loaded if its cursors fit, and every other row stays. */
  lemma CreateOutcome(o: Outside, t: Tables, draft: Checkpoint, now: int)
    ensures var (t', r) := Create(o, t, draft, now);
      var id := "checkpoint-" + draft.runId + "-" + draft.cursor;
      && (r.Ok? <==> id !in t.checkpoints)
      && (r.Err? ==> t' == t)
      && (r.Ok? ==>
            && t' == t.(checkpoints := t.checkpoints[id := r.value])
            && r.value.id == id && SameContents(r.value, draft) && r.value.createdAt == now && r.value.consumedAt.None?
            && (CursorsFit(draft) <==> Load(o, t', id) == Ok(r.value)))
  {
  }

  /** A checkpoint is consumed exactly if its row is accepted and unused; the row then has the time of
    * consumption and is otherwise as before. */
  lemma ConsumeOutcome(o: Outside, t: Tables, id: string, now: int)
    ensures var (t', r) := Consume(o, t, id, now);
      && (r.Ok? <==> Load(o, t, id).Ok? && t.checkpoints[id].consumedAt.None?)
      && (r == Err(AlreadyConsumed) <==> Load(o, t, id).Ok? && t.checkpoints[id].consumedAt.Some?)
      && (r.Err? ==> t' == t)
      && (r.Ok? ==>
            && r.value == t.checkpoints[id].(consumedAt := Some(now))
            && t' == t.(checkpoints := t.checkpoints[id := r.value]))
  {
  }

  // ---- Requests -----------------------------------------------------------------------------

  /** The request describes the checkpoint as it was saved, before any event. */
  predicate Describes(q: Request, c: Checkpoint) {
    && q.graphId == c.graphId && q.graphVersion == c.graphVersion && q.cursor == c.cursor && q.state == c.state
    && q.budgets == c.budgets && q.counters == c.counters && q.dependencies == c.dependencies
    && c.terminalCursor == 0 && c.eventCursor == 0
  }

  /** The approval asks that audience for what the request asks. */
  predicate Asks(a: Approval, q: Request) {
    && a.audience == q.audience && a.promptDigest == q.promptDigest && a.allowed == q.allowed
    && a.expiresAt == q.expiresAt
  }

  predicate Askable(o: Outside, t: Tables, q: Request) {
    && Load(o, t, q.checkpointId).Ok? && t.checkpoints[q.checkpointId].consumedAt.None?
    && Describes(q, t.checkpoints[q.checkpointId])
  }

  /** A request succeeds exactly if it describes an unused checkpoint, and no pending approval of that checkpoint
    * for that audience asks something else. The answer is a pending approval that asks what the
    * request asks, bound to the checkpoint: the one there is, or a new row. */
  lemma AskOutcome(o: Outside, t: Tables, q: Request, existing: Option<string>, freshId: string, now: int)
    requires Inv(o, t) && Finds(t, q, existing) && freshId !in t.approvals
    ensures var (t', r) := Ask(o, t, q, existing, freshId, now);
      && (r.Ok? <==> Askable(o, t, q) && (existing.Some? ==> Asks(t.approvals[existing.value], q)))
      && (r == Err(Conflict) <==> Askable(o, t, q) && existing.Some? && !Asks(t.approvals[existing.value], q))
      && (r.Err? ==> t' == t)
      && (r.Ok? ==>
            && Asks(r.value, q) && r.value.checkpointId == q.checkpointId && r.value.status == Pending
            && Bound(r.value, t.checkpoints[q.checkpointId]) && ApprovalValid(o, r.value)
            && r.value.id in t'.approvals && t'.approvals[r.value.id] == r.value
            && if existing.Some? then t' == t
               else t' == t.(approvals := t.approvals[freshId := r.value]) && r.value.createdAt == now)
  {
    hide CheckpointValid, ApprovalSeal;
    if existing.Some? {
      assert ApprovalFine(o, t, existing.value);
    } else if q.checkpointId in t.checkpoints {
      NewApprovalSealed(o, t.checkpoints[q.checkpointId], q, freshId, now);
    }
  }

  lemma NewApprovalSealed(o: Outside, c: Checkpoint, q: Request, id: string, now: int)
    ensures ApprovalValid(o, NewApproval(o, c, q, id, now))
  {
  }

  // ---- Decisions ------------------------------------------------------------------------------

  /** The approval is pending and its deadline is a date. */
  predicate Open(o: Outside, t: Tables, id: string) {
    id in t.approvals && t.approvals[id].status == Pending && o.parseTime(t.approvals[id].expiresAt).Some?
  }

  function Deadline(o: Outside, t: Tables, id: string): int
    requires Open(o, t, id)
  {
    o.parseTime(t.approvals[id].expiresAt).value
  }

  /** Main result. A decision is accepted exactly if the approval is pending, its deadline has not passed, the
    * decision is one of those allowed, and the checkpoint is unused. The approval row is then
    * approved if the decision is to approve and rejected otherwise, it names the decision, who took it and when,
    * and is sealed again; the checkpoint is used up; and no other row changes. */
  lemma DecideOutcome(o: Outside, t: Tables, id: string, decision: string, actor: string, now: int)
    requires Inv(o, t)
    ensures var (t', r) := Decide(o, t, id, decision, actor, now);
      && (r.Ok? <==>
            && Open(o, t, id) && now < Deadline(o, t, id) && decision in t.approvals[id].allowed
            && !Spent(t, t.approvals[id].checkpointId))
      && (r.Ok? ==>
            && Decided(o, t, t', r.value.0, id, decision, actor, now)
            && r.value.1 == t.checkpoints[t.approvals[id].checkpointId])
  {
    hide CheckpointValid, ApprovalValid, ApprovalSeal, Bound;
    if id in t.approvals {
      assert ApprovalFine(o, t, id);
      assert t.approvals[id].(id := id) == t.approvals[id];
      SettledSealed(o, t.approvals[id], decision, actor, now);
    }
  }

  lemma SettledSealed(o: Outside, a: Approval, decision: string, actor: string, now: int)
    ensures ApprovalValid(o, Settled(o, a, decision, actor, now)) && ApprovalValid(o, Lapsed(o, a, now))
  {
  }

  /** What an accepted decision leaves behind. */
  ghost predicate Decided(o: Outside, t: Tables, t': Tables, a: Approval, id: string, decision: string, actor: string,
                          now: int) {
    && id in t.approvals && t.approvals[id].checkpointId in t.checkpoints && ApprovalValid(o, a)
    && (a.status == Approved <==> decision == "approve") && (a.status == Rejected <==> decision != "approve")
    && a == t.approvals[id].(status := a.status, decision := Some(decision), decidedBy := Some(actor),
                             decidedAt := Some(now), digest := a.digest)
    && t'.approvals == t.approvals[id := a]
    && var checkpoint := t.approvals[id].checkpointId;
      t'.checkpoints == t.checkpoints[checkpoint := t.checkpoints[checkpoint].(consumedAt := Some(now))]
  }

  /** A decision after the deadline, whatever it is, leaves the approval expired and undecided and the checkpoint
    * used up. */
  lemma LateDecision(o: Outside, t: Tables, id: string, decision: string, actor: string, now: int)
    requires Inv(o, t) && Open(o, t, id) && Deadline(o, t, id) <= now
    ensures var (t', r) := Decide(o, t, id, decision, actor, now);
      r == Err(TooLate) && Expires(o, t, t', id, now)
  {
    hide CheckpointValid, ApprovalValid, ApprovalSeal, Bound;
    assert ApprovalFine(o, t, id);
    assert t.approvals[id].(id := id) == t.approvals[id];
    SettledSealed(o, t.approvals[id], decision, actor, now);
  }

  ghost predicate Expires(o: Outside, t: Tables, t': Tables, id: string, now: int) {
    && id in t.approvals && t.approvals[id].checkpointId in t.checkpoints && id in t'.approvals
    && var a, checkpoint := t'.approvals[id], t.approvals[id].checkpointId;
      && ApprovalValid(o, a)
      && a == t.approvals[id].(status := Expired, decision := None, decidedBy := None, decidedAt := Some(now),
                               digest := a.digest)
      && t'.approvals == t.approvals[id := a]
      && t'.checkpoints == if Spent(t, checkpoint) then t.checkpoints
           else t.checkpoints[checkpoint := t.checkpoints[checkpoint].(consumedAt := Some(now))]
  }

  /** Why a decision is refused; all but a late one leave every row as it was. */
  lemma DecideRefused(o: Outside, t: Tables, id: string, decision: string, actor: string, now: int)
    requires Inv(o, t)
    ensures var (t', r) := Decide(o, t, id, decision, actor, now);
      && (r == Err(Unknown) <==> id !in t.approvals)
      && (r == Err(AlreadyDecided) <==> id in t.approvals && t.approvals[id].decision.Some?)
      && (r == Err(TooLate) <==>
            && id in t.approvals
            && (t.approvals[id].status == Expired || (Open(o, t, id) && Deadline(o, t, id) <= now)))
      && (r == Err(NotAllowed) <==>
            Open(o, t, id) && now < Deadline(o, t, id) && decision !in t.approvals[id].allowed)
      && (r == Err(OnCheckpoint(AlreadyConsumed)) <==>
            && Open(o, t, id) && now < Deadline(o, t, id) && decision in t.approvals[id].allowed
            && Spent(t, t.approvals[id].checkpointId))
      && (r.Err? && !(Open(o, t, id) && Deadline(o, t, id) <= now) ==> t' == t)
  {
    hide CheckpointValid, ApprovalValid, ApprovalSeal, Bound;
    if id in t.approvals {
      assert ApprovalFine(o, t, id);
      assert t.approvals[id].(id := id) == t.approvals[id];
    }
  }
}
