/** The store object: rows changed in place inside transactions, each of which may also fail outside and
  * be rolled back. */
module PersistentStores {
  import opened Values
  import opened ResumeStores

  class PersistentStore {
    const outside: Outside
    /** An integrity key is configured. */
    const keyed: bool
    var checkpoints: map<string, Checkpoint>
    var approvals: map<string, Approval>

    constructor (outside: Outside, keyed: bool)
      ensures this.outside == outside && this.keyed == keyed && Rows() == Tables(map[], map[])
    {
      this.outside, this.keyed := outside, keyed;
      checkpoints, approvals := map[], map[];
    }

    ghost function Rows(): Tables
      reads this
    {
      Tables(checkpoints, approvals)
    }

    method DiskFails() returns (fails: bool) {
      fails := *;
    }

    method LoadFromTransaction(id: string) returns (r: Result<Checkpoint, CheckpointError>)
      ensures r == Load(outside, Rows(), id)
    {
      if id !in checkpoints {
        return Err(Missing);
      }
      var c := checkpoints[id];
      if c.terminalCursor >= CURSOR_LIMIT || c.eventCursor >= CURSOR_LIMIT {
        return Err(Broken);
      }
      if c.id != CheckpointId(c.runId, c.cursor) || c.stateDigest != outside.digest(c.state) ||
         c.dependencyDigest != outside.digest(c.dependencies) || c.digest != CheckpointSeal(outside, c) {
        return Err(Broken);
      }
      r := Ok(c);
    }

    /** `UPDATE checkpoints SET consumed_at .. WHERE checkpoint_id = .. AND consumed_at IS NULL`. */
    method UpdateUnconsumed(id: string, now: int) returns (changed: nat)
      modifies this`checkpoints
      ensures changed == if id in old(checkpoints) && old(checkpoints)[id].consumedAt.None? then 1 else 0
      ensures Rows() == if changed == 1 then MarkConsumed(old(Rows()), id, now) else old(Rows())
    {
      changed := 0;
      if id in checkpoints && checkpoints[id].consumedAt.None? {
        checkpoints := checkpoints[id := checkpoints[id].(consumedAt := Some(now))];
        changed := 1;
      }
    }

    /** `UPDATE approval_requests SET .. WHERE approval_id = .. AND status = 'pending'`. */
    method UpdatePending(a: Approval) returns (changed: nat)
      modifies this`approvals
      ensures changed == if a.id in old(approvals) && old(approvals)[a.id].status == Pending then 1 else 0
      ensures approvals == if changed == 1 then old(approvals)[a.id := a] else old(approvals)
    {
      changed := 0;
      if a.id in approvals && approvals[a.id].status == Pending {
        approvals := approvals[a.id := a];
        changed := 1;
      }
    }

    /** Every operation does what its function says, or fails and changes nothing. */
    method CreateResumeCheckpoint(draft: Checkpoint, now: int) returns (r: Result<Checkpoint, CheckpointError>)
      modifies this`checkpoints
      ensures !keyed ==> r == Err(KeyRequired)
      ensures || (keyed && (Rows(), r) == Create(outside, old(Rows()), draft, now))
              || (r.Err? && r.error in {KeyRequired, Disk} && Rows() == old(Rows()))
    {
      if !keyed {
        return Err(KeyRequired);
      }
      var record := draft.(id := CheckpointId(draft.runId, draft.cursor), stateDigest := outside.digest(draft.state),
        dependencyDigest := outside.digest(draft.dependencies), digest := "", createdAt := now, consumedAt := None);
      record := record.(digest := CheckpointSeal(outside, record));
      var fails := DiskFails();
      if fails || record.id in checkpoints {
        return Err(Disk);
      }
      checkpoints := checkpoints[record.id := record];
      r := Ok(record);
    }

    method ConsumeResumeCheckpoint(id: string, now: int) returns (r: Result<Checkpoint, CheckpointError>)
      modifies this`checkpoints
      ensures !keyed ==> r == Err(KeyRequired)
      ensures || (keyed && (Rows(), r) == Consume(outside, old(Rows()), id, now))
              || (r.Err? && r.error in {KeyRequired, Disk} && Rows() == old(Rows()))
    {
      if !keyed {
        return Err(KeyRequired);
      }
      var record := LoadFromTransaction(id);
      if record.Err? {
        return record;
      }
      if record.value.consumedAt.Some? {
        return Err(AlreadyConsumed);
      }
      var before := checkpoints;
      var changed := UpdateUnconsumed(id, now);
      if changed != 1 {
        return Err(AlreadyConsumed);
      }
      var fails := DiskFails();
      if fails {
        checkpoints := before;
        return Err(Disk);
      }
      r := Ok(record.value.(consumedAt := Some(now)));
    }

    /** The row the query for a pending approval returns; `found` is its identifier. */
    method FindPending(q: Request) returns (found: Option<string>)
      ensures Finds(Rows(), q, found)
    {
      var todo := approvals.Keys;
      while todo != {}
        invariant todo <= approvals.Keys
        invariant forall id :: id in approvals && id !in todo ==> !PendingFor(Rows(), id, q.checkpointId, q.audience)
      {
        var id :| id in todo;
        if approvals[id].checkpointId == q.checkpointId && approvals[id].audience == q.audience && approvals[id].status == Pending {
          return Some(id);
        }
        todo := todo - {id};
      }
      found := None;
    }

    method CreateCheckpointApproval(q: Request, freshId: string, now: int)
      returns (r: Result<Approval, ApprovalError>, ghost existing: Option<string>)
      modifies this`approvals
      ensures !keyed ==> r == Err(NoKey)
      ensures || (keyed && Finds(old(Rows()), q, existing) && (Rows(), r) == Ask(outside, old(Rows()), q, existing, freshId, now))
              || (r.Err? && r.error in {NoKey, NoDisk} && Rows() == old(Rows()))
    {
      existing := None;
      if !keyed {
        return Err(NoKey), existing;
      }
      var found := FindPending(q);
      existing := found;
      var loaded := LoadFromTransaction(q.checkpointId);
      if loaded.Err? {
        return Err(OnCheckpoint(loaded.error)), existing;
      }
      var c := loaded.value;
      if c.consumedAt.Some? {
        return Err(OnCheckpoint(AlreadyConsumed)), existing;
      }
      if !Expected(c, q) {
        return Err(OnCheckpoint(Broken)), existing;
      }
      if found.Some? {
        var current := approvals[found.value];
        if !ApprovalValid(outside, current) {
          return Err(Tampered), existing;
        }
        if SameRequest(current, q, c) {
          return Ok(current), existing;
        }
        return Err(Conflict), existing;
      }
      var record := NewApproval(outside, c, q, freshId, now);
      var fails := DiskFails();
      if fails || freshId in approvals {
        return Err(NoDisk), existing;
      }
      approvals := approvals[freshId := record];
      r := Ok(record);
    }

    /** The status of the newest approval row of a checkpoint. */
    method CheckpointApprovalStatus(checkpointId: string) returns (r: Result<Option<Status>, ApprovalError>)
      ensures r.Err? ==> r.error == NoDisk
      ensures r.Ok? ==> (r.value.None? <==> forall id :: !RowOf(Rows(), id, checkpointId))
      ensures r.Ok? && r.value.Some? ==>
        exists id :: Newest(Rows(), id, checkpointId) && approvals[id].status == r.value.value
    {
      var fails := DiskFails();
      if fails {
        return Err(NoDisk);
      }
      var todo := approvals.Keys;
      var best: Option<string> := None;
      while todo != {}
        invariant todo <= approvals.Keys
        invariant best.None? ==> forall id :: id !in todo ==> !RowOf(Rows(), id, checkpointId)
        invariant best.Some? ==> RowOf(Rows(), best.value, checkpointId)
        invariant best.Some? ==> forall id :: id !in todo && RowOf(Rows(), id, checkpointId) ==>
          approvals[id].createdAt <= approvals[best.value].createdAt
      {
        var id :| id in todo;
        if approvals[id].checkpointId == checkpointId && (best.None? || approvals[best.value].createdAt < approvals[id].createdAt) {
          best := Some(id);
        }
        todo := todo - {id};
      }
      if best.None? {
        return Ok(None);
      }
      assert Newest(Rows(), best.value, checkpointId);
      r := Ok(Some(approvals[best.value].status));
    }

    method LoadBoundCheckpoint(a: Approval) returns (r: Result<Checkpoint, ApprovalError>)
      ensures r == LoadBound(outside, Rows(), a)
    {
      var loaded := LoadFromTransaction(a.checkpointId);
      if loaded.Err? {
        return Err(OnCheckpoint(loaded.error));
      }
      if !Bound(a, loaded.value) {
        return Err(Tampered);
      }
      r := Ok(loaded.value);
    }

    /** The branch for a deadline that has passed. */
    method Expire(a: Approval, now: int) returns (r: Result<(Approval, Checkpoint), ApprovalError>)
      requires a.id in approvals && approvals[a.id].status == Pending
      modifies this`checkpoints, this`approvals
      ensures r.Err?
      ensures (Rows(), r) == Lapse(outside, old(Rows()), a, now) || (r == Err(NoDisk) && Rows() == old(Rows()))
    {
      var before := (checkpoints, approvals);
      var checkpoint := LoadBoundCheckpoint(a);
      if checkpoint.Err? {
        return Err(checkpoint.error);
      }
      var lapsed := a.(status := Expired, decision := None, decidedBy := None, decidedAt := Some(now));
      lapsed := lapsed.(digest := ApprovalSeal(outside, lapsed));
      var changed := UpdatePending(lapsed);
      if changed != 1 {
        return Err(AlreadyDecided);
      }
      if checkpoint.value.consumedAt.None? {
        var _ := UpdateUnconsumed(a.checkpointId, now);
      }
      var fails := DiskFails();
      if fails {
        checkpoints, approvals := before.0, before.1;
        return Err(NoDisk);
      }
      r := Err(TooLate);
    }

    /** The branch for a decision in time. */
    method Conclude(a: Approval, decision: string, actor: string, now: int)
      returns (r: Result<(Approval, Checkpoint), ApprovalError>)
      requires a.id in approvals && approvals[a.id].status == Pending
      modifies this`checkpoints, this`approvals
      ensures (Rows(), r) == Settle(outside, old(Rows()), a, decision, actor, now) || (r == Err(NoDisk) && Rows() == old(Rows()))
      ensures r.Ok? ==>
        && (r.value.0.status == Approved <==> decision == "approve")
        && (r.value.0.status == Rejected <==> decision != "approve")
        && (r.value.0.decision, r.value.0.decidedBy, r.value.0.decidedAt) == (Some(decision), Some(actor), Some(now))
        && approvals == old(approvals)[a.id := r.value.0]
    {
      var before := (checkpoints, approvals);
      var checkpoint := LoadBoundCheckpoint(a);
      if checkpoint.Err? {
        return Err(checkpoint.error);
      }
      if checkpoint.value.consumedAt.Some? {
        return Err(OnCheckpoint(AlreadyConsumed));
      }
      var settled := a.(status := if decision == "approve" then Approved else Rejected, decision := Some(decision),
                        decidedBy := Some(actor), decidedAt := Some(now));
      settled := settled.(digest := ApprovalSeal(outside, settled));
      var changed := UpdatePending(settled);
      if changed != 1 {
        return Err(AlreadyDecided);
      }
      changed := UpdateUnconsumed(a.checkpointId, now);
      if changed != 1 {
        return Err(OnCheckpoint(AlreadyConsumed)); // never taken: the row was read in this transaction
      }
      var fails := DiskFails();
      if fails {
        checkpoints, approvals := before.0, before.1;
        return Err(NoDisk);
      }
      r := Ok((settled, checkpoint.value));
    }

    method DecideCheckpointApproval(id: string, decision: string, actor: string, now: int)
      returns (r: Result<(Approval, Checkpoint), ApprovalError>)
      modifies this`checkpoints, this`approvals
      ensures !keyed ==> r == Err(NoKey)
      ensures || (keyed && (Rows(), r) == Decide(outside, old(Rows()), id, decision, actor, now))
              || (r.Err? && r.error in {NoKey, NoDisk} && Rows() == old(Rows()))
      ensures r.Ok? ==>
        && (r.value.0.status == Approved <==> decision == "approve")
        && (r.value.0.status == Rejected <==> decision != "approve")
        && (r.value.0.decision, r.value.0.decidedBy, r.value.0.decidedAt) == (Some(decision), Some(actor), Some(now))
        && approvals == old(approvals)[id := r.value.0]
      ensures r.Ok? ==>
        && id in old(approvals) && old(approvals)[id].status == Pending && decision in old(approvals)[id].allowed
        && var deadline := outside.parseTime(old(approvals)[id].expiresAt);
          deadline.Some? && now < deadline.value
    {
      hide Lapse, Settle, ApprovalValid;
      if !keyed {
        return Err(NoKey);
      }
      if id !in approvals {
        return Err(Unknown);
      }
      var a := approvals[id].(id := id);
      if !ApprovalValid(outside, a) {
        return Err(Tampered);
      }
      if a.status == Expired {
        return Err(TooLate);
      }
      if a.status != Pending {
        return Err(AlreadyDecided);
      }
      var deadline := outside.parseTime(a.expiresAt);
      if deadline.None? {
        return Err(Tampered);
      }
      if deadline.value <= now {
        r := Expire(a, now);
        return;
      }
      var allowed := false;
      for i := 0 to |a.allowed|
        invariant allowed <==> decision in a.allowed[..i]
      {
        allowed := allowed || a.allowed[i] == decision;
      }
      if !allowed {
        return Err(NotAllowed);
      }
      r := Conclude(a, decision, actor, now);
    }
  }
}
