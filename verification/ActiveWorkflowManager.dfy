// The classes of packages/cli/src/active-workflow-manager.ts and
// packages/cli/src/activation-errors.service.ts: each method does in place what the state machine
// says. Failures of awaited calls come in as parameters.
module ActiveWorkflowManager {
  import opened Wrappers
  import opened Webhooks
  import opened WorkflowActivation
  import opened ActivationStartup

  class ActivationErrors {
    var hash: map<WorkflowId, Message>

    constructor ()
      ensures hash == map[]
    {
      hash := map[];
    }

    method Register(id: WorkflowId, message: Message)
      modifies this
      ensures hash == old(hash)[id := message]
    {
      hash := hash[id := message];
    }

    method Deregister(id: WorkflowId)
      modifies this
      ensures hash == old(hash) - {id}
    {
      hash := hash - {id};
    }

    method ClearAll()
      modifies this
      ensures hash == map[]
    {
      hash := map[];
    }
  }

  class ActiveWorkflowManager {
    const multiMain: bool
    const errors: ActivationErrors
    var leader: bool
    var stored: map<WorkflowId, Workflow>
    var rows: Rows
    var memory: set<WorkflowId>
    ghost var issued: set<Closure>
    var queuedActivations: map<WorkflowId, Queued>
    var timers: map<TimerId, Timer>
    var nextTimer: TimerId

    ghost function Queue(): Retries
      reads this
    {
      Retries(queuedActivations, timers, nextTimer)
    }

    ghost function Abs(): State
      reads this, errors
    {
      State(multiMain, leader, stored, rows, memory, issued, errors.hash, Queue())
    }

    constructor (multiMain: bool, leader: bool, stored: map<WorkflowId, Workflow>, rows: Rows, errors: ActivationErrors)
      ensures Abs() == State(multiMain, leader, stored, rows, {}, {}, errors.hash, Retries(map[], map[], 0))
    {
      this.multiMain, this.leader, this.stored, this.rows, this.errors := multiMain, leader, stored, rows, errors;
      memory, issued := {}, {};
      queuedActivations, timers, nextTimer := map[], map[], 0;
    }

    method SetTimeout(mode: Mode, w: Workflow, delay: Millis) returns (timer: TimerId)
      modifies this`timers, this`nextTimer
      ensures timer == old(nextTimer) && nextTimer == timer + 1 && timers == old(timers)[timer := Timer(mode, w, delay)]
    {
      timer := nextTimer;
      timers := timers[timer := Timer(mode, w, delay)];
      nextTimer := nextTimer + 1;
    }

    method RemoveQueuedWorkflowActivation(id: WorkflowId)
      modifies this`queuedActivations, this`timers
      ensures Queue() == Unqueue(old(Queue()), id)
    {
      if id in queuedActivations {
        timers := timers - {queuedActivations[id].timer};
        queuedActivations := queuedActivations - {id};
      }
    }

    // `ids` are the keys of the queue in the order the loop meets them.
    method RemoveAllQueuedWorkflowActivations(ids: seq<WorkflowId>)
      requires forall id :: id in ids <==> id in queuedActivations
      modifies this`queuedActivations, this`timers
      ensures Queue() == UnqueueAll(old(Queue()))
    {
      ghost var before := Queue();
      for i := 0 to |ids|
        invariant forall id :: id in queuedActivations <==> id in before.queue && id !in ids[..i]
        invariant forall id :: id in queuedActivations ==> queuedActivations[id] == before.queue[id]
        invariant timers == before.timers - set id | id in before.queue && id in ids[..i] :: before.queue[id].timer
      {
        assert ids[..i + 1] == ids[..i] + [ids[i]];
        RemoveQueuedWorkflowActivation(ids[i]);
      }
      assert ids[..|ids|] == ids;
      assert queuedActivations == map[];
      assert (set id | id in before.queue && id in ids[..|ids|] :: before.queue[id].timer)
          == set id | id in before.queue :: before.queue[id].timer;
    }

    method AddQueuedWorkflowActivation(mode: Mode, w: Workflow)
      modifies this`queuedActivations, this`timers, this`nextTimer
      ensures Queue() == Enqueue(old(Queue()), mode, w)
    {
      RemoveQueuedWorkflowActivation(w.id);
      var timer := SetTimeout(mode, w, INITIAL_TIMEOUT);
      queuedActivations := queuedActivations[w.id := Queued(mode, INITIAL_TIMEOUT, timer, w)];
    }

    // The workflow's rows go only after every webhook was deregistered outside.
    method ClearWebhooks(id: WorkflowId, clears: bool) returns (ok: bool)
      modifies this`rows
      ensures ok == (clears && id in stored) && rows == if ok then Cleared(old(rows), id) else old(rows)
    {
      ok := id in stored && clears;
      if ok {
        rows := map k | k in rows && rows[k] != id :: rows[k];
      }
    }

    method AddWebhooks(w: Workflow, mode: Mode, t: Tried) returns (failure: Option<Message>)
      modifies this`rows
      ensures Registration(rows, failure)
           == Webhooks.AddWebhooks(old(rows), w.id, w.webhooks, mode == Init, t.attempts, t.tail,
                                   t.clears && w.id in stored)
    {
      failure := None;
      if |w.webhooks| == 0 {
        return;
      }
      var i, attempts := 0, t.attempts;
      while i < |w.webhooks|
        invariant 0 <= i <= |w.webhooks| && failure.None?
        invariant LoopFailure(w.webhooks[i..], mode == Init, attempts)
               == LoopFailure(w.webhooks, mode == Init, t.attempts)
        invariant Register(rows, w.id, w.webhooks[i..], mode == Init, attempts)
               == Register(old(rows), w.id, w.webhooks, mode == Init, t.attempts)
      {
        var attempt := Head(attempts);
        assert w.webhooks[i..][1..] == w.webhooks[i + 1..];
        if !attempt.StoreFailed? {
          rows := rows[w.webhooks[i] := w.id];
        }
        if !attempt.Accepted? && !(mode == Init && attempt.query) {
          var cleared := ClearWebhooks(w.id, t.clears);
          failure := Some(attempt.message);
          return;
        }
        i, attempts := i + 1, Tail(attempts);
      }
      failure := t.tail;
    }

    method AddTriggersAndPollers(w: Workflow, mode: Mode, start: Start) returns (failure: Option<Message>)
      modifies this`memory, this`issued
      ensures memory == (if w.triggers then Memory(old(Abs()), w, start) else old(memory))
      ensures issued == (if w.triggers then old(issued) + {Closure(mode, w)} else old(issued))
      ensures failure == if w.triggers && !start.Started? then Some(start.message) else None
    {
      failure := None;
      if w.triggers {
        issued := issued + {Closure(mode, w)};
        match start {
          case Started => memory := memory + {w.id};
          case TriggerFailed(message) => failure := Some(message);
          case PollFailed(message, answered) =>
            memory := if answered then memory + {w.id} else memory - {w.id};
            failure := Some(message);
        }
      }
    }

    function Ended(mode: Mode, failure: Option<Message>): Outcome
      reads this
    {
      if failure.Some? then Threw(failure.value)
      else Done((ShouldAddWebhooks(leader, mode) || leader) && AtStartup(mode))
    }

    // The end of an attempt: triggers and pollers, then either the bookkeeping of success or the
    // record of the error.
    method Launch(w: Workflow, mode: Mode, start: Start) returns (failure: Option<Message>)
      modifies this, errors
      ensures Result(Abs(), Ended(mode, failure)) == Launched(old(Abs()), w, mode, start)
    {
      failure := None;
      if leader {
        failure := AddTriggersAndPollers(w, mode, start);
      }
      if failure.None? {
        RemoveQueuedWorkflowActivation(w.id);
        errors.Deregister(w.id);
      } else {
        errors.Register(w.id, failure.value);
      }
    }

    method Activate(w: Workflow, mode: Mode, t: Tried) returns (failure: Option<Message>)
      modifies this, errors
      ensures Result(Abs(), Ended(mode, failure))
           == Attempted(old(Abs()), w, mode, t, Registered(old(Abs()), w, mode, t))
    {
      failure := t.base;
      if failure.None? && ShouldAddWebhooks(leader, mode) {
        failure := AddWebhooks(w, mode, t);
      }
      if failure.Some? {
        errors.Register(w.id, failure.value);
        return;
      }
      failure := Launch(w, mode, t.start);
    }

    method Add(id: WorkflowId, mode: Mode, existing: Option<Workflow>, publish: bool, t: Tried)
      returns (outcome: Outcome)
      modifies this, errors
      ensures Result(Abs(), outcome) == WorkflowActivation.Add(old(Abs()), id, mode, existing, publish, t)
    {
      if multiMain && publish {
        return Published;
      }
      var w := if existing.Some? then existing else if id in stored then Some(stored[id]) else None;
      if w.None? {
        errors.Register(id, NotFound(id));
        return Threw(NotFound(id));
      }
      if AtStartup(mode) && !w.value.active {
        return Skipped;
      }
      if !w.value.startable {
        errors.Register(id, NotStartable(id, w.value.authorization));
        return Threw(NotStartable(id, w.value.authorization));
      }
      var failure := Activate(w.value, mode, t);
      outcome := Ended(mode, failure);
    }

    // The callback of a timer; `missing` says that it fails on an entry that is gone.
    method RetryFunction(timer: TimerId, t: Tried) returns (outcome: Outcome, missing: bool)
      requires timer in timers
      modifies this, errors
      ensures Result(Abs(), outcome) == Fire(old(Abs()), timer, t)
      ensures missing <==> outcome.Threw? && old(timers)[timer].workflow.id !in queuedActivations
    {
      var tm := timers[timer];
      timers := timers - {timer};
      missing := false;
      outcome := Add(tm.workflow.id, tm.mode, Some(tm.workflow), true, t);
      if outcome.Threw? {
        var id := tm.workflow.id;
        if id !in queuedActivations {
          missing := true;
          return;
        }
        var lastTimeout := queuedActivations[id].lastTimeout;
        if lastTimeout < MAX_TIMEOUT {
          lastTimeout := Min(lastTimeout * 2, MAX_TIMEOUT);
        }
        var next := SetTimeout(tm.mode, tm.workflow, lastTimeout);
        queuedActivations := queuedActivations[id := queuedActivations[id].(lastTimeout := lastTimeout, timer := next)];
      }
    }

    method CloseTriggers(id: WorkflowId, closes: bool)
      modifies this`memory
      ensures memory == if closes then old(memory) - {id} else old(memory)
    {
      if id in memory && closes {
        memory := memory - {id};
      }
    }

    method EmitError(c: Closure, message: Message, closes: bool)
      modifies this, errors
      ensures Abs() == WorkflowActivation.EmitError(old(Abs()), c, message, closes)
    {
      CloseTriggers(c.workflow.id, closes);
      errors.Register(c.workflow.id, message);
      AddQueuedWorkflowActivation(c.mode, c.workflow);
    }

    method Remove(id: WorkflowId, clears: bool, closes: bool)
      modifies this, errors
      ensures Abs() == WorkflowActivation.Remove(old(Abs()), id, clears, closes)
    {
      var cleared := ClearWebhooks(id, clears);
      if multiMain {
        return;
      }
      errors.Deregister(id);
      if id in queuedActivations {
        RemoveQueuedWorkflowActivation(id);
      }
      CloseTriggers(id, closes);
    }

    method ActivateWorkflow(id: WorkflowId, mode: Mode, t: Tried) returns (outcome: Outcome)
      modifies this, errors
      ensures Result(Abs(), outcome) == ActivateOne(old(Abs()), id, mode, t)
    {
      if id !in stored {
        return Skipped;
      }
      var w := stored[id];
      outcome := Add(id, mode, Some(w), false, t);
      if outcome.Threw? {
        if Authorization(outcome.message) {
          return;
        }
        AddQueuedWorkflowActivation(Init, w);
      }
    }

    method ActivateBatch(batch: seq<WorkflowId>, mode: Mode, ts: WorkflowId -> Tried)
      modifies this, errors
      ensures Abs() == ActivateAll(old(Abs()), batch, mode, ts)
    {
      for i := 0 to |batch|
        invariant Abs() == ActivateAll(old(Abs()), batch[..i], mode, ts)
      {
        var outcome := ActivateWorkflow(batch[i], mode, ts(batch[i]));
        assert batch[..i + 1][..i] == batch[..i];
      }
      assert batch[..|batch|] == batch;
    }

    // The startup pass over the ids stored as active, in batches of the configured size.
    method AddActiveWorkflows(ids: seq<WorkflowId>, batchSize: nat, mode: Mode, ts: WorkflowId -> Tried)
      modifies this, errors
      ensures Abs() == ActivateAll(old(Abs()), if batchSize > 0 then ids else [], mode, ts)
    {
      if |ids| == 0 {
        return;
      }
      var batches := Chunk(ids, batchSize);
      for b := 0 to |batches|
        invariant ActivateAll(Abs(), Flatten(batches[b..]), mode, ts)
               == ActivateAll(old(Abs()), Flatten(batches), mode, ts)
      {
        assert batches[b..][1..] == batches[b + 1..];
        ActivateMore(Abs(), batches[b], Flatten(batches[b + 1..]), mode, ts);
        ActivateBatch(batches[b], mode, ts);
      }
      if batchSize > 0 {
        ChunkPartitions(ids, batchSize);
      }
    }
  }
}
