/** The threads that execute runs, against the records that say so. */
module ResumeThreads {
  import opened Values
  import opened ResumeProtocol
  import R = Registries
  import S = ResumeStores

  /** A client has admitted the run and is about to update its execution row. */
  ghost predicate AdmittedBy(clients: seq<Pc>, r: string) {
    exists i :: 0 <= i < |clients| && clients[i] == Admitted(r)
  }

  /** Every running record has a thread, is about to have one, or is stranded. */
  ghost predicate ThreadsOk(w: World) {
    && (forall r :: r in R.Active(w.registry.runs) <==> r in w.threads || r in w.stranded || AdmittedBy(w.clients, r))
    && w.threads !! w.stranded
    && forall r :: AdmittedBy(w.clients, r) ==> r !in w.threads && r !in w.stranded
  }

  // ---- What the registry operations do to the running records -----------------------------------

  lemma InsertActive(g: R.Registry, r: string, checkpoint: Option<string>)
    requires R.RegistryOk(g) && r !in g.runs
    ensures var g' := R.OrElse(R.InsertRecord(g, r, R.Fresh(checkpoint)), g); R.Active(g'.runs) == R.Active(g.runs)
  {
    if R.Evict(g).Ok? {
      R.EvictOk(g);
    }
  }

  lemma RemoveActive(g: R.Registry, r: string)
    ensures R.Active(R.Remove(g, r).runs) == R.Active(g.runs)
  {
    hide R.Without;
  }

  lemma StatusActive(g: R.Registry, r: string, status: R.RunStatus)
    requires r in g.runs
    ensures R.Active(R.SetStatus(g, r, status).runs) ==
      if status == R.Running then R.Active(g.runs) + {r} else R.Active(g.runs) - {r}
  {
  }

  lemma ThreadActive(g: R.Registry, op: R.Op)
    requires R.Enabled(g, op) && (ByThread(op) || op.RequestCancel?)
    ensures R.Active(R.Step(g, op).runs) == if Ends(op) then R.Active(g.runs) - {op.id} else R.Active(g.runs)
  {
    hide R.FirstTerminal, R.Without;
  }

  // ---- Steps -------------------------------------------------------------------------------------

  lemma ClientMoves(clients: seq<Pc>, i: nat, pc: Pc, r: string)
    requires i < |clients|
    ensures !clients[i].Admitted? && !pc.Admitted? ==> (AdmittedBy(clients[i := pc], r) <==> AdmittedBy(clients, r))
  {
    var after := clients[i := pc];
    if k :| 0 <= k < |clients| && clients[k] == Admitted(r) {
      assert after[k] == if k == i then pc else clients[k];
    }
    if k :| 0 <= k < |after| && after[k] == Admitted(r) {
      assert after[k] == if k == i then pc else clients[k];
    }
  }

  /** The running records stay the same. */
  lemma SameActive(w: World, i: nat, pc: Pc, w': World)
    requires ThreadsOk(w) && i < |w.clients| && !w.clients[i].Admitted? && !pc.Admitted?
    requires w'.clients == w.clients[i := pc] && w'.threads == w.threads && w'.stranded == w.stranded
    requires R.Active(w'.registry.runs) == R.Active(w.registry.runs)
    ensures ThreadsOk(w')
  {
    hide R.Active;
    forall r ensures AdmittedBy(w'.clients, r) <==> AdmittedBy(w.clients, r) {
      ClientMoves(w.clients, i, pc, r);
    }
  }

  /** A run is admitted: a thread starts at once, or the client keeps it for the moment. */
  lemma OneMore(w: World, i: nat, r: string, w': World)
    requires ThreadsOk(w) && i < |w.clients| && !w.clients[i].Admitted? && r !in R.Active(w.registry.runs)
    requires R.Active(w'.registry.runs) == R.Active(w.registry.runs) + {r} && w'.stranded == w.stranded
    requires (w'.clients == w.clients[i := Idle] && w'.threads == w.threads + {r})
      || (w'.clients == w.clients[i := Admitted(r)] && w'.threads == w.threads)
    ensures ThreadsOk(w')
  {
    hide R.Active;
    forall q ensures AdmittedBy(w'.clients, q) <==> AdmittedBy(w.clients, q) || w'.clients[i] == Admitted(q) {
      ClientMoves(w.clients, i, Idle, q);
      if k :| 0 <= k < |w.clients| && w.clients[k] == Admitted(q) {
        assert k != i && w'.clients[k] == Admitted(q);
      }
      if k :| 0 <= k < |w'.clients| && w'.clients[k] == Admitted(q) {
        assert k != i ==> w.clients[k] == Admitted(q);
      }
    }
  }

  /** The client hands the run over, to a thread or to nobody. */
  lemma HandedOver(o: S.Outside, w: World, i: nat, w': World)
    requires Inv(o, w) && ThreadsOk(w) && i < |w.clients| && w.clients[i].Admitted?
    requires w'.clients == w.clients[i := Idle] && w'.registry == w.registry
    requires var r := w.clients[i].runId;
      || (w'.threads == w.threads + {r} && w'.stranded == w.stranded)
      || (w'.threads == w.threads && w'.stranded == w.stranded + {r})
    ensures ThreadsOk(w')
  {
    hide R.Active;
    var r := w.clients[i].runId;
    assert AdmittedBy(w.clients, r);
    forall q ensures AdmittedBy(w.clients, q) <==> q == r
    ensures !AdmittedBy(w'.clients, q) {
      OnlyOneAdmits(o, w, i, q);
    }
  }

  /** The client that admits is alone in its section. */
  lemma OnlyOneAdmits(o: S.Outside, w: World, i: nat, q: string)
    requires Inv(o, w) && i < |w.clients| && w.clients[i].Admitted?
    ensures AdmittedBy(w.clients, q) <==> q == w.clients[i].runId
    ensures !AdmittedBy(w.clients[i := Idle], q)
  {
    hide S.Inv, R.RegistryOk, ClientsOk, AwaitedOk, RowsOk, AdmittedOk;
    forall k | 0 <= k < |w.clients| && w.clients[k].Admitted? ensures k == i {
      assert k != i ==> Apart(w.clients[k], w.clients[i]);
    }
  }

  /** Every step explains the running records again. */
  lemma StepKeepsThreads(o: S.Outside, w: World, e: Event)
    requires Inv(o, w) && ThreadsOk(w) && Enabled(o, w, e)
    ensures ThreadsOk(Step(o, w, e))
  {
    match e
    case Thread(op) =>
      ThreadActive(w.registry, op);
      hide Inv, R.Active, R.Step;
      ThreadEnds(w, Step(o, w, e), op);
    case Approval(d) =>
    case Restart => assert R.Active(R.Empty.runs) == {};
    case Client(i, a) =>
      assert PcOk(w, w.clients[i]);
      ClientKeepsThreads(o, w, i, a);
  }

  lemma ThreadEnds(w: World, w': World, op: R.Op)
    requires ThreadsOk(w) && w'.clients == w.clients && w'.stranded == w.stranded
    requires op.RequestCancel? || (ByThread(op) && op.id in w.threads)
    requires R.Active(w'.registry.runs) ==
      if Ends(op) then R.Active(w.registry.runs) - {op.id} else R.Active(w.registry.runs)
    requires w'.threads == if Ends(op) then w.threads - {op.id} else w.threads
    ensures ThreadsOk(w')
  {
    hide R.Active;
  }

  lemma ClientKeepsThreads(o: S.Outside, w: World, i: nat, a: Action)
    requires Inv(o, w) && ThreadsOk(w) && i < |w.clients| && ActionEnabled(o, w, w.clients[i], a)
    ensures ThreadsOk(Act(o, w, i, a))
  {
    var w' := Act(o, w, i, a);
    if a.Launch? {
      LaunchThreads(o, w, i);
    } else if a.AdmitPlain? {
      AdmitThreads(o, w, i);
    } else if a.StartThread? || a.RowFails? {
      HandedOver(o, w, i, w');
    } else {
      QuietAction(o, w, i, a);
      SameActive(w, i, w'.clients[i], w');
    }
  }

  lemma LaunchThreads(o: S.Outside, w: World, i: nat)
    requires Inv(o, w) && ThreadsOk(w) && i < |w.clients| && w.clients[i].Stored?
    ensures ThreadsOk(Act(o, w, i, Launch))
  {
    var r, w' := w.clients[i].c.runId, Act(o, w, i, Launch);
    assert PcOk(w, w.clients[i]);
    HolderCounted(w, i);
    StatusActive(w.registry, r, R.Running);
    hide Inv;
    OneMore(w, i, r, w');
  }

  lemma AdmitThreads(o: S.Outside, w: World, i: nat)
    requires Inv(o, w) && ThreadsOk(w) && i < |w.clients| && w.clients[i].Starting?
    ensures ThreadsOk(Act(o, w, i, AdmitPlain))
  {
    var r, w' := w.clients[i].runId, Act(o, w, i, AdmitPlain);
    assert PcOk(w, w.clients[i]);
    if R.AdmitAsync(w.registry, r).Ok? {
      StatusActive(w.registry, r, R.Running);
      hide Inv;
      OneMore(w, i, r, w');
    } else {
      SameActive(w, i, Undoing(r), w');
    }
  }

  /** All other actions leave the running records alone. */
  ghost predicate Quiet(w: World, i: nat, w': World)
    requires i < |w.clients| && i < |w'.clients|
  {
    && w'.clients == w.clients[i := w'.clients[i]] && !w.clients[i].Admitted? && !w'.clients[i].Admitted?
    && w'.threads == w.threads && w'.stranded == w.stranded
    && R.Active(w'.registry.runs) == R.Active(w.registry.runs)
  }

  lemma InsertQuiet(w: World, i: nat, r: string, checkpoint: Option<string>, done: Pc, failed: Pc)
    requires R.RegistryOk(w.registry) && r !in w.registry.runs && i < |w.clients|
    requires !w.clients[i].Admitted? && !done.Admitted? && !failed.Admitted?
    ensures Quiet(w, i, Insert(w, i, r, checkpoint, done, failed))
  {
    InsertActive(w.registry, r, checkpoint);
    hide R.RegistryOk, R.InsertRecord, R.Active;
  }

  lemma QuietAction(o: S.Outside, w: World, i: nat, a: Action)
    requires Inv(o, w) && i < |w.clients| && ActionEnabled(o, w, w.clients[i], a)
    requires !a.Launch? && !a.AdmitPlain? && !a.StartThread? && !a.RowFails?
    ensures Quiet(w, i, Act(o, w, i, a))
  {
    var g, pc := w.registry, w.clients[i];
    assert PcOk(w, pc);
    if a.StartPlain? || a.StartSaved? {
      NewName(w, a.runId);
      hide Inv, Insert, Quiet;
      InsertQuiet(w, i, a.runId, None, if a.StartPlain? then Starting(a.runId) else Preparing(a.runId), Idle);
    } else if a.Store? {
      hide Inv, Insert, Quiet;
      InsertQuiet(w, i, pc.c.runId, Some(pc.c.id), Stored(pc.c), LaunchFailed);
    } else {
      OtherQuiet(o, w, i, a);
    }
  }

  lemma OtherQuiet(o: S.Outside, w: World, i: nat, a: Action)
    requires i < |w.clients| && ActionEnabled(o, w, w.clients[i], a) && PcOk(w, w.clients[i])
    requires !a.Launch? && !a.AdmitPlain? && !a.StartThread? && !a.RowFails? && !a.Store? && !a.StartPlain? && !a.StartSaved?
    ensures Quiet(w, i, Act(o, w, i, a))
  {
    var g, pc := w.registry, w.clients[i];
    hide S.Consume, S.Create, NothingPending, R.Without, Insert, Resumed;
    if a.Clear? || a.Undo? {
      var r := if a.Clear? then pc.c.runId else pc.runId;
      RemoveActive(g, r);
      hide R.Remove, R.Active;
    } else if a.MarkRow? {
      MarkActive(g, pc.runId, pc.id);
      hide R.MarkCheckpointed, R.Active;
    } else {
      assert Act(o, w, i, a).registry.runs == g.runs;
      hide R.Active;
    }
  }

  lemma NewName(w: World, r: string)
    requires RowsOk(w) && r !in w.used
    ensures r !in w.registry.runs
  {
  }

  lemma MarkActive(g: R.Registry, r: string, id: string)
    requires r in g.runs && g.runs[r].status != R.Running
    ensures R.Active(R.MarkCheckpointed(g, r, id).runs) == R.Active(g.runs)
  {
  }

  // ---- Whole runs ----------------------------------------------------------------------------------

  lemma {:induction false} BehaviourKeepsThreads(o: S.Outside, worlds: seq<World>, events: seq<Event>, n: nat)
    requires Behaviour(o, worlds, events) && n < |worlds|
    ensures ThreadsOk(worlds[n])
  {
    hide Inv, Step, Enabled;
    if n == 0 {
      assert R.Active(worlds[0].registry.runs) == {};
      hide ThreadsOk;
      NoneAdmitted(worlds[0]);
    } else {
      BehaviourKeepsThreads(o, worlds, events, n - 1);
      BehaviourKeepsInv(o, worlds, events, n - 1);
      StepKeepsThreads(o, worlds[n - 1], events[n - 1]);
    }
  }

  lemma NoneAdmitted(w: World)
    requires R.Active(w.registry.runs) == {} && w.threads == {} && w.stranded == {}
    requires forall i :: 0 <= i < |w.clients| ==> w.clients[i] == Idle
    ensures ThreadsOk(w)
  {
  }

  /** Main result. Whenever no client is inside a section, the running records are exactly those with a
    * thread and the stranded ones; together with the reservations they fill at most the slots there are. */
  lemma RunningHaveThreads(o: S.Outside, worlds: seq<World>, events: seq<Event>, n: nat)
    requires Behaviour(o, worlds, events) && n < |worlds| && Unlocked(worlds[n])
    ensures var w := worlds[n];
      && R.Active(w.registry.runs) == w.threads + w.stranded && w.threads !! w.stranded
      && |w.threads| + |w.stranded| + |Holders(w.clients)| <= R.MAX_ACTIVE_RUNS
  {
    var w := worlds[n];
    BehaviourKeepsThreads(o, worlds, events, n);
    OneShot(o, worlds, events, n);
    hide R.Active;
    assert R.Active(w.registry.runs) == w.threads + w.stranded;
    assert |w.threads + w.stranded| == |w.threads| + |w.stranded|;
  }

  /** A live thread always finds its record, and finds it running. */
  lemma ThreadFindsRecord(o: S.Outside, worlds: seq<World>, events: seq<Event>, n: nat, r: string, error: bool)
    requires Behaviour(o, worlds, events) && n < |worlds| && r in worlds[n].threads
    ensures Enabled(o, worlds[n], Thread(R.Begin(r))) && Enabled(o, worlds[n], Thread(R.Finish(r, error)))
    ensures Enabled(o, worlds[n], Thread(R.Abort(r)))
  {
    BehaviourKeepsThreads(o, worlds, events, n);
    assert r in R.Active(worlds[n].registry.runs);
  }

  /** The update of the run's execution row fails in step `k`. */
  predicate FailsAt(worlds: seq<World>, events: seq<Event>, k: nat, r: string)
    requires k < |events| && k < |worlds|
  {
    match events[k]
    case Client(i, RowFails) => i < |worlds[k].clients| && worlds[k].clients[i] == Admitted(r)
    case _ => false
  }

  lemma FailsOnce(worlds: seq<World>, events: seq<Event>, k: nat, r: string)
    requires k < |events| && k < |worlds| && FailsAt(worlds, events, k, r)
    ensures !events[k].Restart?
  {
  }

  ghost predicate FailedSinceRestart(worlds: seq<World>, events: seq<Event>, n: nat, r: string)
    requires |worlds| == |events| + 1 && n < |worlds|
  {
    exists k :: 0 <= k < n && FailsAt(worlds, events, k, r) && forall m :: k < m < n ==> !events[m].Restart?
  }

  lemma StrandedStep(o: S.Outside, worlds: seq<World>, events: seq<Event>, k: nat, r: string)
    requires Behaviour(o, worlds, events) && k < |events|
    ensures r in worlds[k + 1].stranded <==>
      !events[k].Restart? && (FailsAt(worlds, events, k, r) || r in worlds[k].stranded)
  {
    hide R.Step, S.Step, S.Consume, S.Create, R.InsertRecord, R.Remove, R.AdmitAsync, R.AdmitReservedAsync, NothingPending;
    assert Enabled(o, worlds[k], events[k]) && worlds[k + 1] == Step(o, worlds[k], events[k]);
  }

  /** Main result. A run is stranded exactly if the update of its execution row has failed since the last
    * restart: nothing short of a restart gives its slot back. */
  lemma {:induction false} StrandedIff(o: S.Outside, worlds: seq<World>, events: seq<Event>, n: nat, r: string)
    requires Behaviour(o, worlds, events) && n < |worlds|
    ensures r in worlds[n].stranded <==> FailedSinceRestart(worlds, events, n, r)
  {
    hide Step, Enabled, FailsAt;
    if n == 0 {
      assert Initial(o, worlds[0]);
    } else {
      StrandedIff(o, worlds, events, n - 1, r);
      StrandedStep(o, worlds, events, n - 1, r);
      if FailsAt(worlds, events, n - 1, r) {
        FailsOnce(worlds, events, n - 1, r);
        assert FailedSinceRestart(worlds, events, n, r);
      }
      if FailedSinceRestart(worlds, events, n - 1, r) && !events[n - 1].Restart? {
        var k :| 0 <= k < n - 1 && FailsAt(worlds, events, k, r) && forall m :: k < m < n - 1 ==> !events[m].Restart?;
        assert FailedSinceRestart(worlds, events, n, r);
      }
    }
  }
}
