/** Two behaviours of the resume protocol, from an empty server with one client. */
module ResumeExamples {
  import opened Values
  import opened ResumeProtocol
  import opened ResumeThreads
  import R = Registries
  import S = ResumeStores

  function Draft(): S.Checkpoint {
    S.Checkpoint("", "r", "g", "v", "e", Null, "", Null, Null, Null, "", 0, 0, "", 0, None)
  }

  function Row(o: S.Outside): S.Checkpoint {
    S.NewCheckpoint(o, Draft(), 0)
  }

  function Id(): string {
    S.CheckpointId("r", "e")
  }

  /** What an approval of that checkpoint asks for. */
  function Question(): S.Request {
    S.Request(Id(), "g", "v", "e", Null, Null, Null, Null, "operator", "", ["approve", "reject"], "")
  }

  function Empty(): World {
    World(S.Tables(map[], map[]), R.Empty, [Idle], {}, [], {}, {})
  }

  lemma Extend(o: S.Outside, worlds: seq<World>, events: seq<Event>, e: Event)
    requires Behaviour(o, worlds, events) && Enabled(o, worlds[|events|], e)
    ensures Behaviour(o, worlds + [Step(o, worlds[|events|], e)], events + [e])
  {
    hide Initial, Enabled, Step;
    var more, after := events + [e], worlds + [Step(o, worlds[|events|], e)];
    forall k | 0 <= k < |more| ensures Enabled(o, after[k], more[k]) && after[k + 1] == Step(o, after[k], more[k]) {
      if k < |events| {
        assert Enabled(o, worlds[k], events[k]) && worlds[k + 1] == Step(o, worlds[k], events[k]);
      }
    }
  }

  /** The row is in the table, and nobody does anything. */
  ghost predicate HasRow(o: S.Outside, w: World, pc: Pc, reserved: nat) {
    && w.clients == [pc] && w.tables == S.Tables(map[Id() := Row(o)], map[])
    && R.Active(w.registry.runs) == {} && w.registry.reserved == reserved
    && w.admitted == [] && w.threads == {} && w.stranded == {}
  }

  lemma RowLoads(o: S.Outside, t: S.Tables)
    requires t.checkpoints == map[Id() := Row(o)]
    ensures S.Load(o, t, Id()) == Ok(Row(o)) && Row(o).consumedAt == None && S.Expected(Row(o), Question())
  {
    assert Row(o).(digest := "", consumedAt := None) ==
      Draft().(id := Id(), stateDigest := o.digest(Null), dependencyDigest := o.digest(Null), digest := "",
               createdAt := 0, consumedAt := None);
  }

  /** A run is started and checkpointed. */
  lemma Checkpointed(o: S.Outside) returns (worlds: seq<World>, events: seq<Event>)
    ensures Behaviour(o, worlds, events) && HasRow(o, worlds[|events|], Idle, 0)
  {
    var w0 := Empty();
    worlds, events := [w0], [];
    assert Behaviour(o, worlds, events);
    var start, save, mark := Client(0, StartSaved("r")), Client(0, SaveRow(Draft(), 0)), Client(0, MarkRow);
    Extend(o, worlds, events, start);
    var w1 := Step(o, w0, start);
    worlds, events := worlds + [w1], events + [start];
    assert w1.clients == [Preparing("r")] && w1.registry.runs == map["r" := R.Fresh(None)];
    Extend(o, worlds, events, save);
    var w2 := Step(o, w1, save);
    worlds, events := worlds + [w2], events + [save];
    assert w2.clients == [Saved("r", Id())] && w2.tables == S.Tables(map[Id() := Row(o)], map[]);
    Extend(o, worlds, events, mark);
    var w3 := Step(o, w2, mark);
    worlds, events := worlds + [w3], events + [mark];
  }

  /** A client has passed the checks and holds a slot. */
  lemma Reserved(o: S.Outside) returns (worlds: seq<World>, events: seq<Event>)
    ensures Behaviour(o, worlds, events) && HasRow(o, worlds[|events|], Holding(Id()), 1)
  {
    worlds, events := Checkpointed(o);
    var w0, look := worlds[|events|], Client(0, Look(Id()));
    RowLoads(o, w0.tables);
    hide S.Load;
    Extend(o, worlds, events, look);
    var w1 := Step(o, w0, look);
    worlds, events := worlds + [w1], events + [look];
    var query := Client(0, Query);
    assert NothingPending(w1.tables, Id());
    Extend(o, worlds, events, query);
    var w2 := Step(o, w1, query);
    worlds, events := worlds + [w2], events + [query];
    var reserve := Client(0, Reserve);
    Extend(o, worlds, events, reserve);
    var w3 := Step(o, w2, reserve);
    worlds, events := worlds + [w3], events + [reserve];
  }

  /** An approval is asked for and still pending, and the client consumes the checkpoint all the same. */
  lemma LateApproval(o: S.Outside) returns (worlds: seq<World>, events: seq<Event>)
    ensures Behaviour(o, worlds, events)
    ensures var w := worlds[|events|];
      && w.clients != [] && w.clients[0].Owner? && w.clients[0].c.id == Id()
      && "a" in w.tables.approvals && w.tables.approvals["a"].checkpointId ==
        Id() && w.tables.approvals["a"].status == S.Pending
  {
    worlds, events := Reserved(o);
    var w0, op := worlds[|events|], S.DoAsk(Question(), None, "a", 0);
    BehaviourKeepsInv(o, worlds, events, |events|);
    RowLoads(o, w0.tables);
    assert S.Finds(w0.tables, Question(), None);
    Extend(o, worlds, events, Approval(op));
    var w1 := Step(o, w0, Approval(op));
    assert w1.tables == S.Tables(map[Id() := Row(o)], map["a" := S.NewApproval(o, Row(o), Question(), "a", 0)]);
    worlds, events := worlds + [w1], events + [Approval(op)];
    RowLoads(o, w1.tables);
    var consume := Client(0, Consume(0));
    Extend(o, worlds, events, consume);
    var w2 := Step(o, w1, consume);
    worlds, events := worlds + [w2], events + [consume];
  }

  /** A step of the only client. */
  lemma Act1(o: S.Outside, worlds: seq<World>, events: seq<Event>, a: Action)
    returns (after: seq<World>, more: seq<Event>)
    requires Behaviour(o, worlds, events) && Enabled(o, worlds[|events|], Client(0, a))
    ensures Behaviour(o, after, more) && |after| == |more| + 1 == |events| + 2
    ensures after[|more|] == Act(o, worlds[|events|], 0, a)
    ensures Inv(o, after[|more|]) && ThreadsOk(after[|more|])
  {
    hide Inv, ThreadsOk, Act, Initial, Enabled;
    assert |worlds| == |events| + 1;
    Extend(o, worlds, events, Client(0, a));
    after, more := worlds + [Step(o, worlds[|events|], Client(0, a))], events + [Client(0, a)];
    BehaviourKeepsInv(o, after, more, |more|);
    BehaviourKeepsThreads(o, after, more, |more|);
  }

  /** The only client has consumed the checkpoint and stands at `pc`. */
  ghost predicate Taken(w: World, pc: Pc, admitted: seq<string>) {
    w.clients == [pc] && S.Spent(w.tables, Id()) && w.admitted == admitted && w.threads == {} && w.stranded == {}
  }

  function TakenRow(o: S.Outside): S.Checkpoint {
    Row(o).(consumedAt := Some(0))
  }

  lemma Owning(o: S.Outside) returns (worlds: seq<World>, events: seq<Event>)
    ensures Behaviour(o, worlds, events) && |worlds| == |events| + 1
    ensures Inv(o, worlds[|events|]) && Taken(worlds[|events|], Owner(TakenRow(o)), [])
  {
    worlds, events := Reserved(o);
    RowLoads(o, worlds[|events|].tables);
    worlds, events := Act1(o, worlds, events, Consume(0));
  }

  /** The steps of a launch. */
  lemma Clearing(o: S.Outside, w: World)
    requires Taken(w, Owner(TakenRow(o)), [])
    ensures Taken(Act(o, w, 0, Clear), Cleared(TakenRow(o)), [])
  {
  }

  lemma Storing(o: S.Outside, w: World)
    requires Inv(o, w) && Taken(w, Cleared(TakenRow(o)), [])
    ensures Taken(Act(o, w, 0, Store), Stored(TakenRow(o)), [])
  {
    StoreStep(o, w, 0);
    hide Inv, R.InsertRecord;
  }

  lemma Admitting(o: S.Outside, w: World)
    requires Inv(o, w) && Taken(w, Stored(TakenRow(o)), [])
    ensures Taken(Act(o, w, 0, Launch), Admitted("r"), [Id()])
  {
    LaunchStep(o, w, 0);
    hide Inv, R.AdmitReservedAsync, R.Remove;
  }

  /** The update of the execution row fails: the checkpoint is consumed, the record runs without a thread, and
    * it keeps its slot. */
  lemma Stranded(o: S.Outside) returns (worlds: seq<World>, events: seq<Event>)
    ensures Behaviour(o, worlds, events)
    ensures var w := worlds[|events|];
      && w.clients == [Idle] && S.Spent(w.tables, Id()) && w.threads == {} && w.stranded == {"r"}
      && R.Active(w.registry.runs) == {"r"}
  {
    worlds, events := Owning(o);
    hide Inv, Act, Taken, R.Active, ThreadsOk, Initial, Step;
    TakenPc(worlds[|events|], Owner(TakenRow(o)), []);
    Clearing(o, worlds[|events|]);
    worlds, events := Act1(o, worlds, events, Clear);
    TakenPc(worlds[|events|], Cleared(TakenRow(o)), []);
    Storing(o, worlds[|events|]);
    worlds, events := Act1(o, worlds, events, Store);
    TakenPc(worlds[|events|], Stored(TakenRow(o)), []);
    Admitting(o, worlds[|events|]);
    worlds, events := Act1(o, worlds, events, Launch);
    TakenPc(worlds[|events|], Admitted("r"), [Id()]);
    RowLost(o, worlds[|events|]);
    worlds, events := Act1(o, worlds, events, RowFails);
    RunningHaveThreads(o, worlds, events, |events|);
  }

  lemma TakenPc(w: World, pc: Pc, admitted: seq<string>)
    requires Taken(w, pc, admitted)
    ensures |w.clients| == 1 && w.clients[0] == pc && (!Locked(pc) ==> Unlocked(w))
  {
  }

  lemma RowLost(o: S.Outside, w: World)
    requires Taken(w, Admitted("r"), [Id()])
    ensures var w' := Act(o, w, 0, RowFails);
      w'.clients == [Idle] && S.Spent(w'.tables, Id()) && w'.threads == {} && w'.stranded == {"r"} && Unlocked(w')
  {
  }
}
