// The class of packages/cli/src/active-executions.ts: each method does in place what one step of
// the state machine does.
module ActiveExecutions {
  import opened Wrappers
  import opened Concurrency
  import opened ExecutionLifecycle
  import opened ExecutionShutdown

  class ActiveExecutions {
    const regular: bool
    const concurrencyControl: ConcurrencyControl
    var activeExecutions: map<ExecutionId, Execution>
    var responses: map<ResponseId, Promise>
    var canceled: set<WorkflowRun>
    ghost var adds: map<Ticket, Admission>   // calls of `add` between throttle and insertion
    ghost var records: set<Execution>        // every record made so far
    ghost var pending: set<Execution>

    ghost function Heap(): map<Execution, Rec>
      reads this`records, records
    {
      map h | h in records :: h.Snapshot()
    }

    ghost function Abs(): State
      reads this, concurrencyControl, records
    {
      State(regular, concurrencyControl.State(), adds, Heap(), activeExecutions, pending, responses, canceled)
    }

    // At most one record was written to.
    twostate lemma OneWritten(run: Execution)
      requires run in records && records == old(records)
      requires forall h :: h in records && h != run ==> h.Snapshot() == old(h.Snapshot())
      ensures Heap() == old(Heap())[run := run.Snapshot()]
    {
    }

    ghost predicate Valid()
      reads this, concurrencyControl
    {
      && (forall id :: id in activeExecutions ==> activeExecutions[id] in records && activeExecutions[id].id == id)
      && pending <= records
      && (concurrencyControl.isEnabled ==> regular)
    }

    constructor (regular: bool, concurrencyControl: ConcurrencyControl)
      requires concurrencyControl.isEnabled ==> regular
      requires forall q :: q in concurrencyControl.queues ==> concurrencyControl.queues[q].waiting == []
      ensures Valid() && Abs() == State(regular, concurrencyControl.State(), map[], map[], map[], {}, map[], {})
    {
      this.regular := regular;
      this.concurrencyControl := concurrencyControl;
      activeExecutions, responses, canceled := map[], map[], {};
      adds, records, pending := map[], {}, {};
    }

    method Has(id: ExecutionId) returns (present: bool)
      ensures present <==> id in activeExecutions
    {
      present := id in activeExecutions;
    }

    // `add` up to the throttle. A new execution is not throttled in queue mode.
    method BeginAdd(existing: Option<ExecutionId>, created: ExecutionId, mode: Mode, ticket: Ticket)
      returns (id: ExecutionId, blocked: bool)
      requires Valid() && ticket !in adds
      modifies this, concurrencyControl
      ensures Valid()
      ensures id == if existing.Some? then existing.value else created
      ensures Abs() == Begin(old(Abs()), ticket, id, mode, existing.Some? || regular)
      ensures ticket in adds && blocked == !adds[ticket].granted
    {
      id := if existing.Some? then existing.value else created;
      blocked := false;
      if existing.Some? || regular {
        blocked := concurrencyControl.Throttle(mode, Waiter(id, ticket));
      }
      adds := adds[ticket := Admission(id, mode, !blocked)];
    }

    // `add` after the throttle let the call through: a resuming execution keeps its start time and
    // response.
    method FinishAdd(id: ExecutionId, mode: Mode, now: Time, ghost ticket: Ticket) returns (run: Execution)
      requires Valid() && ticket in adds && adds[ticket] == Admission(id, mode, true)
      modifies this
      ensures Valid() && fresh(run)
      ensures Abs() == InsertRecord(old(Abs()), ticket, run, now)
    {
      var startedAt, response := now, None;
      if id in activeExecutions {
        startedAt, response := activeExecutions[id].startedAt, activeExecutions[id].response;
      }
      run := new Execution(id, mode, startedAt, response);
      activeExecutions := activeExecutions[id := run];
      adds := adds - {ticket};
      records := records + {run};
      pending := pending + {run};
      assert Abs().heap == old(Abs()).heap[run := run.Snapshot()];
    }

    // The callback of a settled run. Settling may let a throttled call through.
    method OnSettled(run: Execution)
      requires Valid() && run in pending && run in records && run.post != Pending
      modifies this, concurrencyControl, run
      ensures Valid() && Abs() == SettleCallback(old(Abs()), run)
    {
      var resolved := concurrencyControl.Release(run.mode);
      adds := Grant(adds, resolved);
      pending := pending - {run};
      if run.status == Waiting {
        run.workflow := None;
      } else {
        activeExecutions := activeExecutions - {run.id};
      }
      OneWritten(run);
    }

    method AttachWorkflowExecution(id: ExecutionId, workflow: WorkflowRun) returns (found: bool)
      requires Valid()
      modifies if id in activeExecutions then {activeExecutions[id]} else {}
      ensures Valid() && Abs() == Next(old(Abs()), AttachWorkflow(id, workflow)) && found == (id in activeExecutions)
    {
      found := id in activeExecutions;
      if found {
        activeExecutions[id].workflow := Some(workflow);
        OneWritten(activeExecutions[id]);
      }
    }

    method AttachResponsePromise(id: ExecutionId, response: ResponseId) returns (found: bool)
      requires Valid()
      modifies this, if id in activeExecutions then {activeExecutions[id]} else {}
      ensures Valid() && Abs() == AttachResponseTo(old(Abs()), id, response) && found == (id in old(activeExecutions))
    {
      found := id in activeExecutions;
      if found {
        activeExecutions[id].response := Some(response);
        if response !in responses {
          responses := responses[response := Pending];
        }
        OneWritten(activeExecutions[id]);
      }
    }

    method SettleResponsePromise(response: Option<ResponseId>, outcome: Promise)
      modifies this`responses
      ensures responses == SettleResponse(old(responses), response, outcome)
    {
      if response.Some? && response.value in responses && responses[response.value] == Pending {
        responses := responses[response.value := outcome];
      }
    }

    method ResolveResponsePromise(id: ExecutionId)
      requires Valid()
      modifies this
      ensures Valid() && Abs() == Next(old(Abs()), ResolveResponse(id))
    {
      if id in activeExecutions {
        SettleResponsePromise(activeExecutions[id].response, Resolved);
      }
    }

    // A waiting execution keeps its response open for the run that resumes it.
    method ResolveExecutionResponsePromise(id: ExecutionId)
      requires Valid()
      modifies this
      ensures Valid() && Abs() == Next(old(Abs()), CleanResponse(id))
    {
      if id in activeExecutions && activeExecutions[id].status != Waiting {
        SettleResponsePromise(activeExecutions[id].response, Resolved);
      }
    }

    method SetStatus(id: ExecutionId, status: Status) returns (found: bool)
      requires Valid()
      modifies if id in activeExecutions then {activeExecutions[id]} else {}
      ensures Valid() && Abs() == Next(old(Abs()), ExecutionLifecycle.SetStatus(id, status))
      ensures found == (id in activeExecutions)
    {
      found := id in activeExecutions;
      if found {
        activeExecutions[id].status := status;
        OneWritten(activeExecutions[id]);
      }
    }

    method StopExecution(id: ExecutionId)
      requires Valid()
      modifies this, if id in activeExecutions then {activeExecutions[id]} else {}
      ensures Valid() && Abs() == StopEntry(old(Abs()), id) && adds == old(adds) && pending == old(pending)
      ensures records == old(records)
    {
      if id in activeExecutions {
        var execution := activeExecutions[id];
        SettleResponsePromise(execution.response, Rejected);
        if execution.status == Waiting {
          activeExecutions := activeExecutions - {id};
        } else {
          if execution.workflow.Some? {
            canceled := canceled + {execution.workflow.value};
          }
          if execution.post == Pending {
            execution.post := Rejected;
          }
        }
        OneWritten(execution);
      }
    }

    method FinalizeExecution(id: ExecutionId)
      requires Valid()
      modifies if id in activeExecutions then {activeExecutions[id]} else {}
      ensures Valid() && Abs() == Next(old(Abs()), Finalize(id))
    {
      if id in activeExecutions && activeExecutions[id].post == Pending {
        activeExecutions[id].post := Resolved;
        OneWritten(activeExecutions[id]);
      }
    }

    // One iteration of the pass of `shutdown`.
    method ShutdownExecution(cancelAll: bool, id: ExecutionId) returns (canceled: bool)
      requires Valid()
      modifies this, if id in activeExecutions then {activeExecutions[id]} else {}
      ensures Valid() && Abs() == ShutdownEntry(old(Abs()), cancelAll, id)
      ensures records == old(records)
      ensures canceled <==> Entry(old(Abs()), id).Some? && Cancels(old(Abs()), cancelAll, Entry(old(Abs()), id).value)
    {
      canceled := false;
      if id in activeExecutions {
        var execution := activeExecutions[id];
        if execution.response.Some? || (regular && cancelAll) {
          StopExecution(id);
          canceled := true;
        } else if execution.status == Waiting || execution.status == New {
          activeExecutions := activeExecutions - {id};
        }
      }
    }

    // The pass of `shutdown` over the entries in key order.
    method ShutdownPass(cancelAll: bool, executionIds: seq<ExecutionId>) returns (toCancel: seq<ExecutionId>)
      requires Valid() && Distinct(executionIds)
      modifies this, records
      ensures Valid() && Abs() == ShutdownEntries(old(Abs()), cancelAll, executionIds)
      ensures toCancel == ToCancel(old(Abs()), cancelAll, executionIds)
    {
      toCancel := [];
      ghost var start := Abs();
      var i := 0;
      while i < |executionIds|
        invariant 0 <= i <= |executionIds|
        invariant records == old(records) && Valid()
        invariant Abs() == ShutdownEntries(start, cancelAll, executionIds[..i])
        invariant toCancel == ToCancel(start, cancelAll, executionIds[..i])
      {
        PassGrows(start, Abs(), toCancel, cancelAll, executionIds, i);
        var canceled := ShutdownExecution(cancelAll, executionIds[i]);
        if canceled {
          toCancel := toCancel + [executionIds[i]];
        }
        i := i + 1;
      }
      assert executionIds[..i] == executionIds;
    }

    // `shutdown` up to its wait. As the limits are off after the pass, `removeAll` empties no queue and
    // cancels none of the ids it is given.
    method Shutdown(cancelAll: bool, executionIds: seq<ExecutionId>)
      returns (toCancel: seq<ExecutionId>, canceledInStorage: seq<ExecutionId>)
      requires Valid() && Distinct(executionIds)
      modifies this, concurrencyControl, records
      ensures Valid() && Abs() == ShutdownEntries(DisableControl(old(Abs())), cancelAll, executionIds)
      ensures toCancel == ToCancel(old(Abs()), cancelAll, executionIds)
      ensures canceledInStorage == []
    {
      if regular {
        concurrencyControl.Disable();
      }
      assert Abs() == DisableControl(old(Abs()));
      ShutdownShrinks(Abs(), cancelAll, executionIds);
      SameCanceled(old(Abs()), cancelAll, executionIds);
      toCancel := ShutdownPass(cancelAll, executionIds);
      canceledInStorage := concurrencyControl.RemoveAll(toCancel);
    }
  }

  // One more iteration.
  lemma PassGrows(start: State, before: State, canceled: seq<ExecutionId>, cancelAll: bool, ids: seq<ExecutionId>,
                  i: nat)
    requires EntriesMatch(start) && i < |ids| && Distinct(ids)
    requires before == ShutdownEntries(start, cancelAll, ids[..i]) && canceled == ToCancel(start, cancelAll, ids[..i])
    ensures ShutdownEntry(before, cancelAll, ids[i]) == ShutdownEntries(start, cancelAll, ids[..i + 1])
    ensures var entry := Entry(before, ids[i]);
            (if entry.Some? && Cancels(before, cancelAll, entry.value) then canceled + [ids[i]] else canceled)
            == ToCancel(start, cancelAll, ids[..i + 1])
  {
    ShutdownOthers(start, cancelAll, ids[..i], ids[i]);
    assert ids[..i + 1][..i] == ids[..i];
    assert canceled + [] == canceled;
  }

  // Switching the limits off has no bearing on what is cancelled.
  lemma {:induction false} SameCanceled(s: State, cancelAll: bool, ids: seq<ExecutionId>)
    ensures ToCancel(DisableControl(s), cancelAll, ids) == ToCancel(s, cancelAll, ids)
    decreases |ids|
  {
    if ids != [] {
      SameCanceled(s, cancelAll, ids[..|ids| - 1]);
    }
  }
}
