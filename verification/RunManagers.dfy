/** The registry object, whose methods change its fields under the lock. */
module RunManagers {
  import opened Values
  import opened Registries

  class RunManager {
    var runs: map<string, RunRecord>
    var order: seq<string>
    var reservedAsyncSlots: nat

    constructor ()
      ensures Contents() == Empty
    {
      runs, order, reservedAsyncSlots := map[], [], 0;
    }

    ghost function Contents(): Registry
      reads this
    {
      Registry(runs, order, reservedAsyncSlots)
    }

    method CountActive() returns (n: nat)
      ensures n == |Active(runs)|
    {
      n := 0;
      var todo := runs.Keys;
      ghost var counted: set<string> := {};
      while todo != {}
        invariant todo <= runs.Keys
        invariant counted == (set id | id in runs && id !in todo && runs[id].status == Running) && n == |counted|
      {
        var id :| id in todo;
        todo := todo - {id};
        if runs[id].status == Running {
          n := n + 1;
          counted := counted + {id};
        }
      }
      assert counted == Active(runs);
    }

    method FindTerminal() returns (r: Option<string>)
      ensures r == FirstTerminal(runs, order)
    {
      for i := 0 to |order|
        invariant FirstTerminal(runs, order) == FirstTerminal(runs, order[i..])
      {
        assert order[i..][0] == order[i] && order[i..][1..] == order[i + 1..];
        if order[i] in runs && IsTerminal(runs[order[i]].status) {
          return Some(order[i]);
        }
      }
      r := None;
    }

    method Retain(removed: string)
      modifies this`order
      ensures order == Without(old(order), removed)
    {
      var kept: seq<string> := [];
      for i := 0 to |order|
        invariant kept == Without(order[..i], removed) && order == old(order)
      {
        assert order[..i + 1][..i] == order[..i];
        if order[i] != removed {
          kept := kept + [order[i]];
        }
      }
      assert order[..|order|] == order;
      order := kept;
    }

    method InsertRecord(id: string, record: RunRecord) returns (r: Result<(), RegistryError>)
      modifies this`runs, this`order
      ensures r.Ok? <==> Registries.InsertRecord(old(Contents()), id, record).Ok?
      ensures r.Err? ==> r.error == RetentionFull
      ensures Contents() == OrElse(Registries.InsertRecord(old(Contents()), id, record), old(Contents()))
    {
      if |order| == MAX_RUNS {
        var evicted := FindTerminal();
        if evicted.None? {
          return Err(RetentionFull);
        }
        Retain(evicted.value);
        runs := runs - {evicted.value};
      }
      order := order + [id];
      runs := runs[id := record];
      r := Ok(());
    }

    method AdmitAsync(id: string) returns (r: Result<(), RegistryError>)
      modifies this`runs
      ensures r.Ok? <==> Registries.AdmitAsync(old(Contents()), id).Ok?
      ensures r.Err? ==> r.error == Registries.AdmitAsync(old(Contents()), id).error
      ensures Contents() == OrElse(Registries.AdmitAsync(old(Contents()), id), old(Contents()))
    {
      var active := CountActive();
      if active + reservedAsyncSlots >= MAX_ACTIVE_RUNS {
        return Err(NoSlot);
      }
      if id !in runs {
        return Err(NotFound);
      }
      if runs[id].status != Accepted {
        return Err(NotAwaiting);
      }
      runs := runs[id := runs[id].(status := Running)];
      r := Ok(());
    }

    method ReserveAsyncSlot() returns (r: Result<(), RegistryError>)
      modifies this`reservedAsyncSlots
      ensures r.Ok? <==> SlotFree(old(Contents()))
      ensures Contents() == OrElse(Registries.ReserveAsyncSlot(old(Contents())), old(Contents()))
    {
      var active := CountActive();
      if active + reservedAsyncSlots >= MAX_ACTIVE_RUNS {
        return Err(NoSlot);
      }
      reservedAsyncSlots := reservedAsyncSlots + 1;
      r := Ok(());
    }

    /** `saturating_sub`. */
    method ReleaseAsyncSlot()
      modifies this`reservedAsyncSlots
      ensures Contents() == Registries.ReleaseAsyncSlot(old(Contents()))
    {
      if reservedAsyncSlots > 0 {
        reservedAsyncSlots := reservedAsyncSlots - 1;
      }
    }

    method AdmitReservedAsync(id: string) returns (r: Result<(), RegistryError>)
      modifies this`runs, this`reservedAsyncSlots
      ensures r.Ok? <==> Registries.AdmitReservedAsync(old(Contents()), id).Ok?
      ensures r.Err? ==> r.error == Registries.AdmitReservedAsync(old(Contents()), id).error
      ensures Contents() == OrElse(Registries.AdmitReservedAsync(old(Contents()), id), old(Contents()))
    {
      if reservedAsyncSlots == 0 {
        return Err(NothingReserved);
      }
      if id !in runs {
        return Err(NotFound);
      }
      if runs[id].status != Accepted {
        return Err(NotAwaiting);
      }
      runs := runs[id := runs[id].(status := Running)];
      reservedAsyncSlots := reservedAsyncSlots - 1;
      r := Ok(());
    }

    method Remove(id: string) returns (removed: Option<RunRecord>)
      modifies this`runs, this`order
      ensures Contents() == Registries.Remove(old(Contents()), id)
      ensures removed == if id in old(runs) && old(runs)[id].status != Running then Some(old(runs)[id]) else None
    {
      if id in runs && runs[id].status == Running {
        return None;
      }
      Retain(id);
      removed := if id in runs then Some(runs[id]) else None;
      runs := runs - {id};
    }

    method Cancel(id: string) returns (r: Result<(), RegistryError>)
      modifies this`runs
      ensures r.Ok? <==> Registries.Cancel(old(Contents()), id).Ok?
      ensures r.Err? ==> r.error == Registries.Cancel(old(Contents()), id).error
      ensures Contents() == OrElse(Registries.Cancel(old(Contents()), id), old(Contents()))
    {
      if id !in runs {
        return Err(NotFound);
      }
      if IsTerminal(runs[id].status) {
        return Err(NotCancellable);
      }
      runs := runs[id := runs[id].(cancelled := true)];
      r := Ok(());
    }

    /** The closure of the final update: an error counts only if no cancellation was observed. */
    method FinishExecution(id: string, error: bool) returns (r: Result<(), RegistryError>)
      modifies this`runs
      ensures r == if id in old(runs) then Ok(()) else Err(NotFound)
      ensures Contents() == if id in old(runs) then FinalUpdate(old(Contents()), id, error) else old(Contents())
    {
      if id !in runs {
        return Err(NotFound);
      }
      var cancellationObserved := runs[id].cancelled;
      var terminalError := !cancellationObserved && error;
      var terminal := TerminalOutcome(cancellationObserved, terminalError);
      runs := runs[id := runs[id].(status := terminal.0, success := Some(terminal.1))];
      r := Ok(());
    }

    method FailExecution(id: string) returns (r: Result<(), RegistryError>)
      modifies this`runs
      ensures r == if id in old(runs) then Ok(()) else Err(NotFound)
      ensures Contents() == if id in old(runs) then ErrorUpdate(old(Contents()), id) else old(Contents())
    {
      if id !in runs {
        return Err(NotFound);
      }
      runs := runs[id := runs[id].(status := Failed, success := Some(false))];
      r := Ok(());
    }

    method MarkCheckpointed(id: string, checkpointId: string) returns (r: Result<(), RegistryError>)
      modifies this`runs
      ensures r == if id in old(runs) then Ok(()) else Err(NotFound)
      ensures Contents() == if id in old(runs) then Registries.MarkCheckpointed(old(Contents()), id, checkpointId) else old(Contents())
    {
      if id !in runs {
        return Err(NotFound);
      }
      runs := runs[id := runs[id].(status := Checkpointed, checkpointId := Some(checkpointId))];
      r := Ok(());
    }
  }
}
