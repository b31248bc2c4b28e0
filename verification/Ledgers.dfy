/** The attempts and events of the retry families of one superstep, while their branches interleave. */
module Ledgers {
  import opened Values
  import opened Graphs
  import opened EngineSpec
  import opened CheckpointStore
  import opened Branches
  import opened Schedules

  /** The latest state of every branch spawned so far, by frontier position. */
  type Families = map<nat, Branch>

  ghost predicate Apart(a: Branch, b: Branch) {
    forall id :: id in a.records ==> id !in b.records
  }

  /** The branch at a position has kept its log and its attempts; if it is no longer in flight it has
    * succeeded and its log is complete. */
  ghost predicate Recorded(v: View, frontier: seq<string>, s: Scheduler, i: nat, b: Branch) {
    && i < |frontier| && b.name == frontier[i] && FamilyRecords(v, b) && !Disturbed(b)
    && if i in s.inFlight then LogInv(b) && b == s.inFlight[i] else LogComplete(b) && b.phase.Succeeded?
  }

  ghost predicate Ledger(v: View, frontier: seq<string>, s: Scheduler, families: Families) {
    && (forall i: nat :: i in families <==> i < s.p)
    && (forall i :: i in s.inFlight ==> i < s.p)
    && (forall i :: i in families ==> Recorded(v, frontier, s, i, families[i]))
    && (v.configured ==> forall i, j :: i in families && j in families && i != j ==> Apart(families[i], families[j]))
  }

  /** Every family of the superstep has succeeded; its trials have one start and one end each; its attempts
    * are failed except the last, which is completed, and no two families share one. */
  ghost predicate Settled(v: View, frontier: seq<string>, families: Families) {
    && (forall i: nat :: i in families <==> i < |frontier|)
    && (forall i :: i in families ==>
          && families[i].name == frontier[i] && families[i].phase.Succeeded? && FamilyRecords(v, families[i])
          && families[i].log == TrialLog(families[i].ordinal + 1))
    && (v.configured ==> forall i, j :: i in families && j in families && i != j ==> Apart(families[i], families[j]))
  }

  lemma EmptyLedger(v: View, frontier: seq<string>)
    ensures Ledger(v, frontier, Scheduler(0, map[], [], [], []), map[])
  {
  }

  lemma NewFamily(v: View, name: string, data: Data)
    ensures FamilyRecords(v, NewBranch(name, data)) && LogInv(NewBranch(name, data)) && !Disturbed(NewBranch(name, data))
  {
  }

  lemma SpawnLedger(v: View, frontier: seq<string>, s: Scheduler, families: Families, data: Data)
    requires Ledger(v, frontier, s, families) && s.p < |frontier|
    ensures Ledger(v, frontier, Spawn(s, NewBranch(frontier[s.p], data), data), families[s.p := NewBranch(frontier[s.p], data)])
  {
    hide FamilyRecords, LogInv, LogComplete, Disturbed;
    NewFamily(v, frontier[s.p], data);
    var s' := Spawn(s, NewBranch(frontier[s.p], data), data);
    forall i | i in families ensures Recorded(v, frontier, s', i, families[i]) {
      assert Recorded(v, frontier, s, i, families[i]);
    }
  }

  /** The step of one branch leaves the attempts of another as they were. */
  lemma SiblingKept(v: View, v': View, b: Branch, next: Branch, other: Branch)
    requires StepEffect(v, v', b, next) && FamilyRecords(v, b) && FamilyRecords(v, other)
    requires v.configured ==> Apart(b, other) && Apart(other, b)
    requires !Disturbed(b) && !Disturbed(other)
    ensures FamilyRecords(v', other)
    ensures v.configured ==> Apart(next, other) && Apart(other, next)
  {
    if v.configured {
      OpenIsRecorded(v, b);
      forall k | 0 <= k < |other.records|
        ensures other.records[k] in v.store.attempts && other.records[k] < v.next && other.records[k] !in Open(b)
      {
        assert other.records[k] in other.records;
      }
    }
  }

  lemma OpenIsRecorded(v: View, b: Branch)
    requires v.configured && FamilyRecords(v, b) && !Disturbed(b)
    ensures forall id :: id in Open(b) ==> id in b.records
  {
  }

  lemma StepLedger(v: View, v': View, frontier: seq<string>, s: Scheduler, families: Families, i: nat, next: Branch,
                   s': Scheduler)
    requires Ledger(v, frontier, s, families) && i in s.inFlight && StepEffect(v, v', s.inFlight[i], next)
    requires FamilyRecords(v', next) && !Disturbed(next) && next.name == s.inFlight[i].name
    requires if Terminal(next) then LogComplete(next) else LogInv(next)
    requires s'.p == s.p
    requires s'.inFlight == if Terminal(next) then s.inFlight - {i} else s.inFlight[i := next]
    requires Terminal(next) ==> next.phase.Succeeded?
    ensures Ledger(v', frontier, s', families[i := next])
  {
    hide FamilyRecords, LogInv, LogComplete, Disturbed, StepEffect, Open, Apart;
    var families' := families[i := next];
    assert Recorded(v, frontier, s, i, families[i]);
    SameConfiguration(v, v', s.inFlight[i], next);
    forall j | j in families && j != i
      ensures FamilyRecords(v', families[j]) && (v.configured ==> Apart(next, families[j]) && Apart(families[j], next))
    {
      assert Recorded(v, frontier, s, j, families[j]);
      SiblingKept(v, v', s.inFlight[i], next, families[j]);
    }
    forall j | j in families' ensures Recorded(v', frontier, s', j, families'[j]) {
      assert Recorded(v, frontier, s, j, families[j]);
    }
  }

  /** What the ledger knows of a branch in flight. */
  lemma InFlightRecorded(v: View, frontier: seq<string>, s: Scheduler, families: Families, i: nat)
    requires Ledger(v, frontier, s, families) && i in s.inFlight
    ensures FamilyRecords(v, s.inFlight[i])
  {
    assert Recorded(v, frontier, s, i, families[i]);
  }

  lemma SameConfiguration(v: View, v': View, b: Branch, next: Branch)
    requires StepEffect(v, v', b, next)
    ensures v'.configured == v.configured
  {
  }

  /** When everything has joined all families are settled. */
  lemma LedgerDone(v: View, frontier: seq<string>, s: Scheduler, families: Families)
    requires Ledger(v, frontier, s, families) && s.p == |frontier| && s.inFlight == map[]
    ensures Settled(v, frontier, families)
  {
    hide FamilyRecords, Apart;
    forall i | i in families
      ensures families[i].name == frontier[i] && families[i].phase.Succeeded? && FamilyRecords(v, families[i])
      ensures families[i].log == TrialLog(families[i].ordinal + 1)
    {
      assert Recorded(v, frontier, s, i, families[i]);
    }
  }
}
