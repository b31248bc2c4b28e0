/** What the operations on the registry of runs do to records, slots and the order, said with the records
  * (agent-graph-mcp/src/run_manager.rs). */
module RegistryRules {
  import opened Values
  import opened Registries
  import Sorting

  // ---- Records ------------------------------------------------------------------------------

  /** The final update completes exactly the runs without an error that nobody cancelled, and only a completed run
    * has succeeded. The flag, the checkpoint and all other records stay. */
  lemma FinalOutcome(g: Registry, id: string, error: bool)
    requires id in g.runs
    ensures var run, g' := g.runs[id], FinalUpdate(g, id, error);
      && g'.runs.Keys == g.runs.Keys && g'.order == g.order && g'.reserved == g.reserved
      && (g'.runs[id].status == Completed <==> !run.cancelled && !error)
      && (g'.runs[id].status == Failed <==> !run.cancelled && error)
      && (g'.runs[id].status == Cancelled <==> run.cancelled)
      && g'.runs[id].success == Some(g'.runs[id].status == Completed)
      && g'.runs[id].cancelled == run.cancelled && g'.runs[id].checkpointId == run.checkpointId
      && forall other :: other in g.runs && other != id ==> g'.runs[other] == g.runs[other]
  {
  }

  /** The error path fails the run, whatever its flag. */
  lemma AbortOutcome(g: Registry, id: string)
    requires id in g.runs
    ensures ErrorUpdate(g, id) ==
      Registry(g.runs[id := RunRecord(Failed, Some(false), g.runs[id].cancelled, g.runs[id].checkpointId)], g.order, g.reserved)
  {
  }

  /** The run awaits admission or is running. */
  predicate Alive(g: Registry, id: string) {
    id in g.runs && g.runs[id].status in {Accepted, Running}
  }

  /** Exactly the runs that are alive can be cancelled, and that only raises the flag. */
  lemma CancelOutcome(g: Registry, id: string)
    ensures Cancel(g, id) == Err(NotFound) <==> id !in g.runs
    ensures Cancel(g, id).Ok? <==> Alive(g, id)
    ensures Alive(g, id) ==> var run := g.runs[id];
      Cancel(g, id) == Ok(Registry(g.runs[id := RunRecord(run.status, run.success, true, run.checkpointId)], g.order, g.reserved))
  {
  }

  // ---- Slots --------------------------------------------------------------------------------

  function InUse(g: Registry): set<string> {
    set id | id in g.runs && g.runs[id].status == Running
  }

  /** The slots in use: running runs and reservations. */
  function Occupied(g: Registry): nat {
    |InUse(g)| + g.reserved
  }

  /** A run is admitted exactly if it awaits admission and fewer than eight slots are in use; then one more is. */
  lemma AdmitOutcome(g: Registry, id: string)
    ensures AdmitAsync(g, id) == Err(NoSlot) <==> Occupied(g) >= 8
    ensures AdmitAsync(g, id).Ok? <==> Occupied(g) < 8 && id in g.runs && g.runs[id].status == Accepted
    ensures AdmitAsync(g, id).Ok? ==> var g' := AdmitAsync(g, id).value;
      && g' == Registry(g.runs[id := g.runs[id].(status := Running)], g.order, g.reserved)
      && Occupied(g') == Occupied(g) + 1
  {
    assert Active(g.runs) == InUse(g);
    if id in g.runs {
      ActiveChange(g.runs, id, g.runs[id].(status := Running));
      assert Active(SetStatus(g, id, Running).runs) == InUse(SetStatus(g, id, Running));
    }
  }

  /** A slot is reserved exactly if fewer than eight are in use. Giving a reservation back frees it, and a run
    * admitted on a reservation takes over its slot: it needs no free one and occupies no other. */
  lemma ReservationOutcome(g: Registry, id: string)
    ensures ReserveAsyncSlot(g).Ok? <==> Occupied(g) < 8
    ensures ReserveAsyncSlot(g).Ok? ==> var g' := ReserveAsyncSlot(g).value;
      g' == g.(reserved := g.reserved + 1) && Occupied(g') == Occupied(g) + 1 && ReleaseAsyncSlot(g') == g
    ensures AdmitReservedAsync(g, id).Ok? <==> g.reserved > 0 && id in g.runs && g.runs[id].status == Accepted
    ensures AdmitReservedAsync(g, id).Ok? ==> var g' := AdmitReservedAsync(g, id).value;
      g'.runs == g.runs[id := g.runs[id].(status := Running)] && g'.order == g.order && Occupied(g') == Occupied(g)
  {
    assert Active(g.runs) == InUse(g);
    if id in g.runs {
      ActiveChange(g.runs, id, g.runs[id].(status := Running));
      assert Active(SetStatus(g, id, Running).runs) == InUse(SetStatus(g, id, Running));
    }
  }

  /** Main result, in numbers: in every history never more than eight slots are in use and never more than a
    * hundred runs are retained. */
  lemma NeverOverbooked(states: seq<Registry>, ops: seq<Op>, i: nat)
    requires History(states, ops) && i < |states|
    ensures Occupied(states[i]) <= 8 && |states[i].runs| <= 100
  {
    hide Step;
    HistoryOk(states, ops, i);
    var g := states[i];
    assert Active(g.runs) == InUse(g);
    OrderSize(g);
  }

  lemma OrderSize(g: Registry)
    requires Listed(g)
    ensures |g.runs| == |g.order|
  {
    Sorting.NoDupSize(g.order);
    assert (set id | id in g.order) == g.runs.Keys;
  }

  // ---- Order --------------------------------------------------------------------------------

  lemma {:induction false} WithoutOne(before: seq<string>, removed: string, after: seq<string>)
    requires removed !in before && removed !in after
    ensures Without(before + [removed] + after, removed) == before + after
    decreases |after|
  {
    if after == [] {
      assert (before + [removed] + after)[..|before|] == before;
      WithoutNone(before, removed);
    } else {
      var n := |after| - 1;
      assert (before + [removed] + after)[..|before| + 1 + n] == before + [removed] + after[..n];
      WithoutOne(before, removed, after[..n]);
      assert before + after[..n] + [after[n]] == before + after;
    }
  }

  lemma {:induction false} WithoutNone(order: seq<string>, removed: string)
    requires removed !in order
    ensures Without(order, removed) == order
  {
    if order != [] {
      WithoutNone(order[..|order| - 1], removed);
      assert order == order[..|order| - 1] + [order[|order| - 1]];
    }
  }

  lemma {:induction false} FirstDead(g: Registry, order: seq<string>) returns (before: seq<string>, dead: string, after: seq<string>)
    requires (forall id :: id in order ==> id in g.runs) && FirstTerminal(g.runs, order).Some?
    ensures order == before + [dead] + after && FirstTerminal(g.runs, order) == Some(dead)
    ensures dead in g.runs && !Alive(g, dead) && forall id :: id in before ==> Alive(g, id)
    decreases |order|
  {
    if !Alive(g, order[0]) {
      return [], order[0], order[1..];
    }
    before, dead, after := FirstDead(g, order[1..]);
    before := [order[0]] + before;
  }

  /** With room, a new record goes to the end of the order. Otherwise the first run in the order that is not alive
    * makes room for it, and the others keep their places. */
  lemma InsertOutcome(g: Registry, id: string, record: RunRecord) returns (before: seq<string>, dead: string, after: seq<string>)
    requires RegistryOk(g) && InsertRecord(g, id, record).Ok?
    ensures var g' := InsertRecord(g, id, record).value;
      g'.reserved == g.reserved &&
      if |g.runs| < 100 then g'.order == g.order + [id] && g'.runs == g.runs[id := record]
      else
        && g.order == before + [dead] + after && !Alive(g, dead) && (forall other :: other in before ==> Alive(g, other))
        && g'.order == before + after + [id] && g'.runs == (g.runs - {dead})[id := record]
  {
    OrderSize(g);
    before, dead, after := [], "", [];
    if |g.order| == 100 {
      before, dead, after := FirstDead(g, g.order);
      forall i | 0 <= i < |before| ensures before[i] != dead {
        assert g.order[i] == before[i] && g.order[|before|] == dead;
      }
      forall i | 0 <= i < |after| ensures after[i] != dead {
        assert g.order[|before| + 1 + i] == after[i] && g.order[|before|] == dead;
      }
      WithoutOne(before, dead, after);
    }
  }

  /** Removing a run that is not running takes out its record and its place, and nothing else; a running one
    * stays. */
  lemma RemoveOutcome(g: Registry, before: seq<string>, id: string, after: seq<string>)
    requires RegistryOk(g) && g.order == before + [id] + after
    ensures Remove(g, id) ==
      if g.runs[id].status == Running then g else Registry(g.runs - {id}, before + after, g.reserved)
  {
    assert g.order[|before|] == id;
    forall i | 0 <= i < |before| ensures before[i] != id {
      assert g.order[i] == before[i];
    }
    forall i | 0 <= i < |after| ensures after[i] != id {
      assert g.order[|before| + 1 + i] == after[i];
    }
    WithoutOne(before, id, after);
  }

  /** A checkpointed run is over and names its checkpoint; a new record awaits admission, uncancelled. */
  lemma CheckpointOutcome(g: Registry, id: string, checkpointId: string)
    requires id in g.runs
    ensures MarkCheckpointed(g, id, checkpointId) ==
      g.(runs := g.runs[id := RunRecord(Checkpointed, g.runs[id].success, g.runs[id].cancelled, Some(checkpointId))])
    ensures !Alive(MarkCheckpointed(g, id, checkpointId), id)
    ensures InsertRecord(g, id, Fresh(Some(checkpointId))).Ok? ==>
      InsertRecord(g, id, Fresh(Some(checkpointId))).value.runs[id] == RunRecord(Accepted, None, false, Some(checkpointId))
  {
  }
}
