/** What the status query of a resume request achieves (`graph_run_resume` in agent-graph-mcp/src/server.rs). */
module ResumeChecks {
  import opened Values
  import opened ResumeProtocol
  import R = Registries
  import S = ResumeStores

  /** The checkpoint has no approval, pending or not. */
  ghost predicate NoApproval(t: S.Tables, id: string) {
    forall a :: !S.RowOf(t, a, id)
  }

  /** While a checkpoint is unused, the query lets a request pass exactly if it has no approval: a pending one
    * stops the request, whatever other rows there are. */
  lemma QueryStops(o: S.Outside, t: S.Tables, id: string)
    requires S.Inv(o, t) && id in t.checkpoints && !S.Spent(t, id)
    ensures NothingPending(t, id) <==> NoApproval(t, id)
    ensures forall a :: S.RowOf(t, a, id) ==> t.approvals[a].status == S.Pending
  {
    hide S.Inv;
    forall a | S.RowOf(t, a, id) ensures t.approvals[a].status == S.Pending {
      UnusedPending(o, t, a, id);
    }
  }

  lemma UnusedPending(o: S.Outside, t: S.Tables, a: string, id: string)
    requires S.Inv(o, t) && id in t.checkpoints && !S.Spent(t, id) && S.RowOf(t, a, id)
    ensures t.approvals[a].status == S.Pending
  {
    assert S.ApprovalFine(o, t, a);
  }

  // ---- From the query to the consumption ------------------------------------------------------

  /** The client is between its query and the consumption. */
  predicate Underway(pc: Pc, id: string) {
    pc == Passed(id) || pc == Holding(id)
  }

  /** The client asked in step `k`, and has been on its way since. */
  ghost predicate AskedAt(worlds: seq<World>, events: seq<Event>, i: nat, id: string, k: nat, n: nat)
    requires |worlds| == |events| + 1 && n < |worlds|
  {
    && k < n && events[k] == Client(i, Query) && i < |worlds[k].clients| && worlds[k].clients[i] == Looked(id)
    && NothingPending(worlds[k].tables, id)
    && forall m :: k < m <= n ==> i < |worlds[m].clients| && Underway(worlds[m].clients[i], id)
  }

  lemma UnderwayStep(o: S.Outside, w: World, e: Event, i: nat, id: string)
    requires Enabled(o, w, e) && i < |Step(o, w, e).clients| && Underway(Step(o, w, e).clients[i], id)
    ensures i < |w.clients|
    ensures Underway(w.clients[i], id) || (e == Client(i, Query) && w.clients[i] == Looked(id) && NothingPending(w.tables, id))
  {
    hide R.Step, S.Step, NothingPending, Act, ActionEnabled;
    if e.Client? {
      if e.i == i {
        ActUnderway(o, w, i, e.action, id);
      } else {
        ActAside(o, w, e.i, e.action, i);
      }
    }
  }

  lemma ActUnderway(o: S.Outside, w: World, i: nat, a: Action, id: string)
    requires i < |w.clients| && ActionEnabled(o, w, w.clients[i], a) && Underway(Act(o, w, i, a).clients[i], id)
    ensures Underway(w.clients[i], id) || (a == Query && w.clients[i] == Looked(id) && NothingPending(w.tables, id))
  {
    hide S.Consume, S.Create, R.InsertRecord, R.Remove, R.AdmitAsync, R.AdmitReservedAsync, R.ReserveAsyncSlot,
      NothingPending, R.ReleaseAsyncSlot, R.MarkCheckpointed, S.Load, Unlocked;
  }

  lemma ActAside(o: S.Outside, w: World, j: nat, a: Action, i: nat)
    requires j < |w.clients| && ActionEnabled(o, w, w.clients[j], a) && i != j
    ensures |Act(o, w, j, a).clients| == |w.clients|
    ensures i < |w.clients| ==> Act(o, w, j, a).clients[i] == w.clients[i]
  {
    hide S.Consume, S.Create, R.InsertRecord, R.Remove, R.AdmitAsync, R.AdmitReservedAsync, R.ReserveAsyncSlot,
      NothingPending, R.ReleaseAsyncSlot, R.MarkCheckpointed, S.Load, Unlocked;
  }

  lemma {:induction false} UnderwayAsked(o: S.Outside, worlds: seq<World>, events: seq<Event>, i: nat, id: string, n: nat)
    returns (k: nat)
    requires Behaviour(o, worlds, events) && n < |worlds|
    requires i < |worlds[n].clients| && Underway(worlds[n].clients[i], id)
    ensures AskedAt(worlds, events, i, id, k, n)
  {
    hide Step, Enabled, NothingPending;
    assert forall j :: 0 <= j < |worlds[0].clients| ==> worlds[0].clients[j] == Idle;
    assert n > 0;
    assert Enabled(o, worlds[n - 1], events[n - 1]) && worlds[n - 1 + 1] == Step(o, worlds[n - 1], events[n - 1]);
    UnderwayStep(o, worlds[n - 1], events[n - 1], i, id);
    if Underway(worlds[n - 1].clients[i], id) {
      k := UnderwayAsked(o, worlds, events, i, id, n - 1);
    } else {
      k := n - 1;
    }
  }

  // ---- Used checkpoints stay used ---------------------------------------------------------------

  lemma StepStaysSpent(o: S.Outside, w: World, e: Event, id: string)
    requires Inv(o, w) && Enabled(o, w, e) && S.Spent(w.tables, id)
    ensures S.Spent(Step(o, w, e).tables, id)
  {
    if e.Approval? {
      S.StepIsFinal(o, w.tables, e.decision);
      hide Inv, S.Step, S.Inv, S.Enabled;
    } else if e.Client? {
      hide Inv, Act, ActionEnabled;
      ActStaysSpent(o, w, e.i, e.action, id);
    }
  }

  lemma ActStaysSpent(o: S.Outside, w: World, i: nat, a: Action, id: string)
    requires i < |w.clients| && ActionEnabled(o, w, w.clients[i], a) && S.Spent(w.tables, id)
    ensures S.Spent(Act(o, w, i, a).tables, id)
  {
    if a.Consume? {
      S.ConsumeIsFinal(o, w.tables, w.clients[i].id, a.now);
    } else if a.SaveRow? {
      S.CreateIsFinal(o, w.tables, a.draft, a.now);
    }
    hide S.Consume, S.Create, R.InsertRecord, R.Remove, R.AdmitAsync, R.AdmitReservedAsync, R.ReserveAsyncSlot,
      NothingPending, R.ReleaseAsyncSlot, R.MarkCheckpointed, S.Load, Unlocked;
  }

  lemma {:induction false} StaysSpent(o: S.Outside, worlds: seq<World>, events: seq<Event>, m: nat, n: nat, id: string)
    requires Behaviour(o, worlds, events) && m <= n < |worlds| && S.Spent(worlds[m].tables, id)
    ensures S.Spent(worlds[n].tables, id)
    decreases n - m
  {
    hide Step, Enabled, Inv;
    if m < n {
      StaysSpent(o, worlds, events, m, n - 1, id);
      BehaviourKeepsInv(o, worlds, events, n - 1);
      StepStaysSpent(o, worlds[n - 1], events[n - 1], id);
    }
  }

  /** Main result. A request that consumes its checkpoint has asked for its approvals before, while the checkpoint
    * was unused, and at that moment it had none. */
  lemma ResumedUnapproved(o: S.Outside, worlds: seq<World>, events: seq<Event>, n: nat, i: nat, now: int)
    returns (k: nat)
    requires Behaviour(o, worlds, events) && n < |events| && events[n] == Client(i, Consume(now))
    requires worlds[n + 1].clients[i].Owner?
    ensures var id := worlds[n].clients[i].id;
      AskedAt(worlds, events, i, id, k, n) && NoApproval(worlds[k].tables, id)
  {
    assert Enabled(o, worlds[n], events[n]) && worlds[n + 1] == Step(o, worlds[n], events[n]);
    var id := worlds[n].clients[i].id;
    k := UnderwayAsked(o, worlds, events, i, id, n);
    BehaviourKeepsInv(o, worlds, events, k);
    if S.Spent(worlds[k].tables, id) {
      StaysSpent(o, worlds, events, k, n, id);
    }
    assert PcOk(worlds[k], worlds[k].clients[i]);
    QueryStops(o, worlds[k].tables, id);
  }
}
