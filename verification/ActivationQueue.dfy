// The activation queue over whole runs of a single main instance: its timers, its backoff, the
// recorded errors, and what a deactivation undoes.
module ActivationQueue {
  import opened Wrappers
  import opened Webhooks
  import opened WorkflowActivation

  // ---- entries and timers ----

  // Every queued workflow has exactly one live timer, which retries it with the entry's mode and
  // workflow after the entry's delay, and every live timer is that of an entry.
  ghost predicate TimersMatch(r: Retries) {
    && (forall id :: id in r.queue ==> HasTimer(r, id))
    && (forall t :: t in r.timers ==> BelongsToEntry(r, t))
  }

  ghost predicate HasTimer(r: Retries, id: WorkflowId)
    requires id in r.queue
  {
    var e := r.queue[id];
    e.workflow.id == id && e.timer in r.timers && r.timers[e.timer] == Timer(e.mode, e.workflow, e.lastTimeout)
  }

  ghost predicate BelongsToEntry(r: Retries, t: TimerId)
    requires t in r.timers
  {
    && t < r.next
    && r.timers[t].workflow.id in r.queue && r.queue[r.timers[t].workflow.id].timer == t
  }

  // A retry in a mode that skips inactive workflows is for an active one.
  ghost predicate Activatable(mode: Mode, w: Workflow) {
    AtStartup(mode) ==> w.active
  }

  ghost predicate NeverSkipped(r: Retries, issued: set<Closure>) {
    && (forall id :: id in r.queue ==> Activatable(r.queue[id].mode, r.queue[id].workflow))
    && (forall c :: c in issued ==> Activatable(c.mode, c.workflow))
  }

  ghost predicate QueueSane(s: State) {
    && !s.multiMain && s.leader && StoredByOwnId(s)
    && TimersMatch(s.retries) && NeverSkipped(s.retries, s.issued)
  }

  lemma UnqueueMatches(r: Retries, id: WorkflowId)
    requires TimersMatch(r)
    ensures TimersMatch(Unqueue(r, id))
    ensures Unqueue(r, id).queue == r.queue - {id}
  {
  }

  lemma ScheduleMatches(r: Retries, mode: Mode, w: Workflow, delay: Millis, entry: Queued)
    requires TimersMatch(r) && w.id !in r.queue
    requires entry.mode == mode && entry.workflow == w
    ensures TimersMatch(Schedule(r, mode, w, delay, entry))
  {
  }

  lemma EnqueueMatches(r: Retries, mode: Mode, w: Workflow)
    requires TimersMatch(r)
    ensures TimersMatch(Enqueue(r, mode, w))
  {
    UnqueueMatches(r, w.id);
    var r1 := Unqueue(r, w.id);
    ScheduleMatches(r1, mode, w, INITIAL_TIMEOUT, Queued(mode, INITIAL_TIMEOUT, r1.next, w));
  }

  // A timer that fired leaves its entry behind, as if that had been taken off the queue.
  lemma FiredMatches(r: Retries, timer: TimerId)
    requires TimersMatch(r) && timer in r.timers
    ensures var id := r.timers[timer].workflow.id;
            && id in r.queue && HasTimer(r, id) && r.queue[id].timer == timer
            && Unqueue(r.(timers := r.timers - {timer}), id) == Unqueue(r, id)
  {
  }

  lemma RescheduleMatches(r: Retries, timer: TimerId)
    requires TimersMatch(r) && timer in r.timers && r.timers[timer].workflow.id in r.queue
    ensures TimersMatch(Reschedule(r.(timers := r.timers - {timer}), r.timers[timer]))
  {
  }

  lemma UnqueueAllMatches(r: Retries)
    requires TimersMatch(r)
    ensures UnqueueAll(r).queue == map[] && UnqueueAll(r).timers == map[]
  {
  }

  // ---- what a step does to the queue ----

  // A retry in a sane state finds its entry, is never skipped, and ends in success or a new timer.
  lemma FireSettles(s: State, timer: TimerId, t: Tried)
    requires QueueSane(s) && timer in s.retries.timers
    ensures var id, r := s.retries.timers[timer].workflow.id, Fire(s, timer, t);
            && id in s.retries.queue && s.retries.queue[id].timer == timer
            && (r.outcome.Done? || r.outcome.Threw?)
            && r.state.retries == (if r.outcome.Done? then Unqueue(s.retries, id)
                                   else Reschedule(Fired(s, timer).retries, s.retries.timers[timer]))
            && r.state.errors == (if r.outcome.Done? then s.errors - {id} else s.errors[id := r.outcome.message])
            && r.state.stored == s.stored && r.state.multiMain == s.multiMain && r.state.leader == s.leader
  {
    var tm := s.retries.timers[timer];
    FiredMatches(s.retries, timer);
    assert Activatable(tm.mode, tm.workflow);
    AddSettles(Fired(s, timer), tm.workflow.id, tm.mode, Some(tm.workflow), true, t);
  }

  lemma FireStarts(s: State, timer: TimerId, t: Tried)
    requires QueueSane(s) && timer in s.retries.timers
    ensures StartsOnly(s, s.retries.timers[timer].workflow.id, Fire(s, timer, t).state)
  {
    var tm := s.retries.timers[timer];
    AddStarts(Fired(s, timer), tm.workflow.id, tm.mode, Some(tm.workflow), true, t);
  }

  lemma FireMatches(s: State, timer: TimerId, t: Tried)
    requires QueueSane(s) && timer in s.retries.timers
    ensures TimersMatch(Fire(s, timer, t).state.retries)
  {
    FireSettles(s, timer, t);
    UnqueueMatches(s.retries, s.retries.timers[timer].workflow.id);
    RescheduleMatches(s.retries, timer);
  }

  lemma FireKeepsSane(s: State, timer: TimerId, t: Tried)
    requires QueueSane(s) && timer in s.retries.timers
    ensures QueueSane(Fire(s, timer, t).state)
  {
    FireMatches(s, timer, t);
    FireSettles(s, timer, t);
    FireStarts(s, timer, t);
    FiredMatches(s.retries, timer);
    FireNeverSkipped(s.retries, s.issued, timer);
  }

  // Neither way a retry can end brings an entry that would be skipped.
  lemma FireNeverSkipped(r: Retries, issued: set<Closure>, timer: TimerId)
    requires NeverSkipped(r, issued) && timer in r.timers
    requires var id := r.timers[timer].workflow.id; id in r.queue && HasTimer(r, id) && r.queue[id].timer == timer
    ensures NeverSkipped(Unqueue(r, r.timers[timer].workflow.id), issued)
    ensures NeverSkipped(Reschedule(r.(timers := r.timers - {timer}), r.timers[timer]), issued)
  {
  }

  lemma AddKeepsSane(s: State, id: WorkflowId, mode: Mode, existing: Option<Workflow>, publish: bool, t: Tried)
    requires QueueSane(s) && (existing.Some? ==> existing.value.id == id)
    ensures QueueSane(Add(s, id, mode, existing, publish, t).state)
  {
    AddSettles(s, id, mode, existing, publish, t);
    AddStarts(s, id, mode, existing, publish, t);
    UnqueueMatches(s.retries, id);
  }

  lemma ActivateOneKeepsSane(s: State, id: WorkflowId, mode: Mode, t: Tried)
    requires QueueSane(s) && AtStartup(mode)
    ensures QueueSane(ActivateOne(s, id, mode, t).state)
  {
    if id in s.stored {
      var r := Add(s, id, mode, Some(s.stored[id]), false, t);
      AddKeepsSane(s, id, mode, Some(s.stored[id]), false, t);
      AddSettles(s, id, mode, Some(s.stored[id]), false, t);
      EnqueueMatches(r.state.retries, Init, s.stored[id]);
    }
  }

  lemma EmitErrorKeepsSane(s: State, c: Closure, m: Message, closes: bool)
    requires QueueSane(s) && c in s.issued
    ensures QueueSane(EmitError(s, c, m, closes))
  {
    EnqueueMatches(s.retries, c.mode, c.workflow);
  }

  lemma RemoveKeepsSane(s: State, id: WorkflowId, clears: bool, closes: bool)
    requires QueueSane(s)
    ensures QueueSane(Remove(s, id, clears, closes))
  {
  }

  lemma QueueSaneStep(s: State, e: Event)
    requires QueueSane(s)
    ensures QueueSane(Step(s, e).state)
  {
    if Possible(s, e) {
      match e
      case AddWorkflow(id, mode, t) => AddKeepsSane(s, id, mode, None, true, t);
      case AddPublished(id, t) => AddKeepsSane(s, id, Activate, None, false, t);
      case TimerFires(timer, t) => FireKeepsSane(s, timer, t);
      case TriggerErrs(c, m, closes) => EmitErrorKeepsSane(s, c, m, closes);
      case RemoveWorkflow(id, clears, closes) => RemoveKeepsSane(s, id, clears, closes);
      case StartupOne(id, mode, t) => ActivateOneKeepsSane(s, id, mode, t);
      case RemoveAllQueued => UnqueueAllMatches(s.retries);
      case _ =>
    }
  }

  // In every run of a single main instance, each queued workflow has exactly one live timer, each
  // live timer is that of an entry, and no retry will ever be skipped as inactive.
  lemma {:induction false} QueueAlwaysSane(s: State, es: seq<Event>)
    requires Initial(s)
    ensures QueueSane(After(s, es))
    decreases |es|
  {
    if es != [] {
      QueueAlwaysSane(s, es[..|es| - 1]);
      QueueSaneStep(After(s, es[..|es| - 1]), es[|es| - 1]);
    }
  }

  // ---- recorded errors ----

  datatype Failure = Failure(id: WorkflowId, message: Message)

  // The failed attempt or trigger failure that a step is, if it is one.
  ghost function FailureOf(s: State, e: Event): Option<Failure> {
    if !Step(s, e).outcome.Threw? then None
    else
      match e
      case AddWorkflow(id, _, _) => Some(Failure(id, Step(s, e).outcome.message))
      case AddPublished(id, _) => Some(Failure(id, Step(s, e).outcome.message))
      case TimerFires(timer, _) =>
        if timer in s.retries.timers then
          Some(Failure(s.retries.timers[timer].workflow.id, Step(s, e).outcome.message))
        else
          None
      case TriggerErrs(c, m, _) => Some(Failure(c.workflow.id, m))
      case StartupOne(id, _, _) => Some(Failure(id, Step(s, e).outcome.message))
      case _ => None
  }

  // The message of the latest failure of `id` in a run.
  ghost function LatestFailure(s: State, es: seq<Event>, id: WorkflowId): Option<Message>
    decreases |es|
  {
    if es == [] then None
    else
      var failure := FailureOf(After(s, es[..|es| - 1]), es[|es| - 1]);
      if failure.Some? && failure.value.id == id then Some(failure.value.message)
      else LatestFailure(s, es[..|es| - 1], id)
  }

  predicate ClearsErrors(e: Event) {
    e.ClearError? || e.ClearAllErrors?
  }

  // What a step leaves of the queue and the errors of `id`.
  ghost predicate ErrorStep(s: State, e: Event, id: WorkflowId) {
    var s', failure := Step(s, e).state, FailureOf(s, e);
    id in s'.retries.queue ==>
      if failure.Some? && failure.value.id == id then Get(s'.errors, id) == Some(failure.value.message)
      else id in s.retries.queue && Get(s'.errors, id) == Get(s.errors, id)
  }

  lemma AddErrors(s: State, e: Event, id: WorkflowId)
    requires QueueSane(s) && (e.AddWorkflow? || e.AddPublished?)
    ensures ErrorStep(s, e, id)
  {
    if e.AddWorkflow? {
      AddSettles(s, e.id, e.mode, None, true, e.t);
    } else {
      AddSettles(s, e.id, Activate, None, false, e.t);
    }
    UnqueueMatches(s.retries, e.id);
  }

  lemma FireErrors(s: State, timer: TimerId, t: Tried, id: WorkflowId)
    requires QueueSane(s) && timer in s.retries.timers
    ensures ErrorStep(s, TimerFires(timer, t), id)
  {
    FireSettles(s, timer, t);
    UnqueueMatches(s.retries, s.retries.timers[timer].workflow.id);
  }

  // What one workflow of the startup pass does to the queue and the errors.
  lemma ActivateOneSettles(s: State, one: WorkflowId, mode: Mode, t: Tried)
    requires QueueSane(s) && AtStartup(mode) && one in s.stored
    ensures var r := ActivateOne(s, one, mode, t);
            && r.state.retries.queue
               == (if r.outcome.Done? then s.retries.queue - {one}
                   else if r.outcome.Threw? && !Authorization(r.outcome.message) then
                     s.retries.queue[one := Queued(Init, INITIAL_TIMEOUT, s.retries.next, s.stored[one])]
                   else s.retries.queue)
            && r.state.errors == (if r.outcome.Done? then s.errors - {one}
                                  else if r.outcome.Threw? then s.errors[one := r.outcome.message] else s.errors)
  {
    AddSettles(s, one, mode, Some(s.stored[one]), false, t);
    UnqueueMatches(s.retries, one);
    EnqueuedQueue(s.retries, Init, s.stored[one]);
  }

  lemma EnqueuedQueue(r: Retries, mode: Mode, w: Workflow)
    ensures Enqueue(r, mode, w).queue == r.queue[w.id := Queued(mode, INITIAL_TIMEOUT, r.next, w)]
  {
  }

  lemma ActivateOneErrors(s: State, one: WorkflowId, mode: Mode, t: Tried, id: WorkflowId)
    requires QueueSane(s) && AtStartup(mode)
    ensures ErrorStep(s, StartupOne(one, mode, t), id)
  {
    if one in s.stored {
      ActivateOneSettles(s, one, mode, t);
    }
  }

  lemma OtherErrors(s: State, e: Event, id: WorkflowId)
    requires QueueSane(s) && !ClearsErrors(e)
    requires e.TriggerErrs? || e.RemoveWorkflow? || e.RemoveAllQueued? || e.CloseTriggers? || e.Save?
    ensures ErrorStep(s, e, id)
  {
  }

  // In every run of a single main instance without the calls that clear errors, each queued
  // workflow has a recorded error, and it is the message of its latest failure.
  lemma {:induction false} QueuedHasLatestError(s: State, es: seq<Event>, id: WorkflowId)
    requires Initial(s) && forall i :: 0 <= i < |es| ==> !ClearsErrors(es[i])
    requires id in After(s, es).retries.queue
    ensures LatestFailure(s, es, id).Some? && Get(After(s, es).errors, id) == LatestFailure(s, es, id)
    decreases |es|
  {
    var front, last := es[..|es| - 1], es[|es| - 1];
    var before := After(s, front);
    QueueAlwaysSane(s, front);
    if Possible(before, last) {
      match last
      case AddWorkflow(_, _, _) => AddErrors(before, last, id);
      case AddPublished(_, _) => AddErrors(before, last, id);
      case TimerFires(timer, t) => FireErrors(before, timer, t, id);
      case StartupOne(one, mode, t) => ActivateOneErrors(before, one, mode, t, id);
      case _ => OtherErrors(before, last, id);
    }
    assert ErrorStep(before, last, id);
    if id in before.retries.queue {
      QueuedHasLatestError(s, front, id);
    }
  }

  // ---- what is recorded, told from the steps ----

  // The step is an attempt for `id`.
  ghost predicate Attempts(s: State, e: Event, id: WorkflowId) {
    match e
    case AddWorkflow(other, _, _) => other == id
    case AddPublished(other, _) => other == id && Possible(s, e)
    case StartupOne(other, _, _) => other == id && Possible(s, e)
    case TimerFires(timer, _) => timer in s.retries.timers && s.retries.timers[timer].workflow.id == id
    case _ => false
  }

  // The step makes the instance forget the error of `id`.
  ghost predicate Forgets(s: State, e: Event, id: WorkflowId) {
    match e
    case ClearError(other) => other == id
    case ClearAllErrors => true
    case RemoveWorkflow(other, _, _) => other == id
    case _ => Attempts(s, e, id) && Step(s, e).outcome.Done?
  }

  // The message of the latest failure of `id`, unless something made the instance forget it since.
  ghost function Recorded(s: State, es: seq<Event>, id: WorkflowId): Option<Message>
    decreases |es|
  {
    if es == [] then None
    else
      var before, e := After(s, es[..|es| - 1]), es[|es| - 1];
      var failure := FailureOf(before, e);
      if failure.Some? && failure.value.id == id then Some(failure.value.message)
      else if Forgets(before, e, id) then None
      else Recorded(s, es[..|es| - 1], id)
  }

  ghost predicate Records(s: State, e: Event, id: WorkflowId) {
    var failure := FailureOf(s, e);
    Get(Step(s, e).state.errors, id)
    == if failure.Some? && failure.value.id == id then Some(failure.value.message)
       else if Forgets(s, e, id) then None
       else Get(s.errors, id)
  }

  lemma AddRecords(s: State, e: Event, id: WorkflowId)
    requires QueueSane(s) && (e.AddWorkflow? || e.AddPublished?)
    ensures Records(s, e, id)
  {
    AddSettles(s, e.id, if e.AddWorkflow? then e.mode else Activate, None, e.AddWorkflow?, e.t);
  }

  lemma FireRecords(s: State, timer: TimerId, t: Tried, id: WorkflowId)
    requires QueueSane(s) && timer in s.retries.timers
    ensures Records(s, TimerFires(timer, t), id)
  {
    FireSettles(s, timer, t);
  }

  lemma StartupRecords(s: State, one: WorkflowId, mode: Mode, t: Tried, id: WorkflowId)
    requires QueueSane(s) && AtStartup(mode)
    ensures Records(s, StartupOne(one, mode, t), id)
  {
    if one in s.stored {
      ActivateOneSettles(s, one, mode, t);
    }
  }

  lemma OtherRecords(s: State, e: Event, id: WorkflowId)
    requires QueueSane(s) && !e.AddWorkflow? && !e.AddPublished? && !e.TimerFires? && !e.StartupOne?
    ensures Records(s, e, id)
  {
  }

  // In every run of a single main instance, the recorded error of a workflow is the message of its latest
  // failure, unless the workflow was since activated or deactivated or its error cleared.
  lemma {:induction false} ErrorsAsTold(s: State, es: seq<Event>, id: WorkflowId)
    requires Initial(s)
    ensures Get(After(s, es).errors, id) == Recorded(s, es, id)
    decreases |es|
  {
    if es != [] {
      var front, last := es[..|es| - 1], es[|es| - 1];
      var before := After(s, front);
      ErrorsAsTold(s, front, id);
      QueueAlwaysSane(s, front);
      if Possible(before, last) {
        match last
        case AddWorkflow(_, _, _) => AddRecords(before, last, id);
        case AddPublished(_, _) => AddRecords(before, last, id);
        case TimerFires(timer, t) => FireRecords(before, timer, t, id);
        case StartupOne(one, mode, t) => StartupRecords(before, one, mode, t, id);
        case _ => OtherRecords(before, last, id);
      }
    }
  }

  // A successful attempt clears the entry, its timer and the recorded error together.
  lemma SuccessClears(s: State, id: WorkflowId, mode: Mode, t: Tried)
    requires QueueSane(s) && Add(s, id, mode, None, true, t).outcome.Done?
    ensures var s' := Add(s, id, mode, None, true, t).state;
            && id !in s'.retries.queue && id !in s'.errors
            && forall tm :: tm in s'.retries.timers ==> s'.retries.timers[tm].workflow.id != id
  {
    AddSettles(s, id, mode, None, true, t);
    UnqueueMatches(s.retries, id);
    NoTimer(Unqueue(s.retries, id), id);
  }

  lemma NoTimer(r: Retries, id: WorkflowId)
    requires TimersMatch(r) && id !in r.queue
    ensures forall t :: t in r.timers ==> r.timers[t].workflow.id != id
  {
  }

  // A trigger failure queues its workflow anew, to be activated as it was when the trigger started, with
  // the initial delay and one live timer, records the message, and takes the workflow out of memory if
  // its triggers close.
  lemma TriggerFailureQueues(s: State, c: Closure, m: Message, closes: bool)
    requires QueueSane(s) && c in s.issued
    ensures var id, s' := c.workflow.id, EmitError(s, c, m, closes);
            && id in s'.retries.queue && HasTimer(s'.retries, id)
            && s'.retries.queue[id].lastTimeout == INITIAL_TIMEOUT
            && s'.retries.queue[id].workflow == c.workflow && s'.retries.queue[id].mode == c.mode
            && Get(s'.errors, id) == Some(m)
            && (id in s'.memory <==> id in s.memory && !closes)
            && forall t ::
                 t in s'.retries.timers && s'.retries.timers[t].workflow.id == id ==> t == s'.retries.queue[id].timer
  {
    EnqueueMatches(s.retries, c.mode, c.workflow);
    OneTimer(EmitError(s, c, m, closes).retries, c.workflow.id);
  }

  lemma OneTimer(r: Retries, id: WorkflowId)
    requires TimersMatch(r) && id in r.queue
    ensures forall t :: t in r.timers && r.timers[t].workflow.id == id ==> t == r.queue[id].timer
  {
    forall t | t in r.timers && r.timers[t].workflow.id == id
      ensures t == r.queue[id].timer
    {
      assert BelongsToEntry(r, t);
    }
  }

  // ---- deactivation ----

  // Nothing is left that would activate `id` by itself.
  ghost predicate Dormant(s: State, id: WorkflowId) {
    && id !in s.retries.queue && id !in s.errors
    && forall t :: t in s.retries.timers ==> s.retries.timers[t].workflow.id != id
  }

  // A deactivation leaves the workflow dormant even when clearing its webhooks fails; it is out of
  // memory if and only if its triggers close or did not run.
  lemma RemovedIsDormant(s: State, id: WorkflowId, clears: bool, closes: bool)
    requires QueueSane(s)
    ensures Dormant(Remove(s, id, clears, closes), id)
    ensures id in Remove(s, id, clears, closes).memory <==> id in s.memory && !closes
  {
  }

  // The steps that bring a workflow back by themselves.
  predicate Wakes(e: Event, id: WorkflowId) {
    match e
    case AddWorkflow(other, _, _) => other == id
    case AddPublished(other, _) => other == id
    case StartupOne(other, _, _) => other == id
    case TriggerErrs(c, _, _) => c.workflow.id == id
    case _ => false
  }

  // The steps that close its triggers.
  predicate Closes(e: Event, id: WorkflowId) {
    match e
    case RemoveWorkflow(other, _, closes) => other == id && closes
    case CloseTriggers(ids) => id in ids
    case _ => false
  }

  ghost predicate FewerRows(rows: Rows, rows': Rows, id: WorkflowId) {
    forall k :: k in rows' && rows'[k] == id ==> k in rows && rows[k] == id
  }

  // The workflow is neither queued nor recorded as failed, and gained no row.
  ghost predicate Undisturbed(s: State, s': State, id: WorkflowId) {
    id !in s'.retries.queue && id !in s'.errors && FewerRows(s.rows, s'.rows, id)
  }

  lemma AddDisturbsNoOther(s: State, other: WorkflowId, mode: Mode, existing: Option<Workflow>, publish: bool, t: Tried,
                           id: WorkflowId)
    requires StoredByOwnId(s) && Dormant(s, id) && other != id && (existing.Some? ==> existing.value.id == other)
    ensures var s' := Add(s, other, mode, existing, publish, t).state;
            Undisturbed(s, s', id) && (id in s'.memory <==> id in s.memory)
  {
    AddSettles(s, other, mode, existing, publish, t);
    AddStarts(s, other, mode, existing, publish, t);
    AddOwnRows(s, other, mode, existing, publish, t);
    assert id in s.memory <==> id in s.memory - {other};
  }

  lemma FireDisturbsNoOther(s: State, timer: TimerId, t: Tried, id: WorkflowId)
    requires QueueSane(s) && Dormant(s, id) && timer in s.retries.timers
    ensures var s' := Fire(s, timer, t).state; Undisturbed(s, s', id) && (id in s'.memory <==> id in s.memory)
  {
    var tm := s.retries.timers[timer];
    AddDisturbsNoOther(Fired(s, timer), tm.workflow.id, tm.mode, Some(tm.workflow), true, t, id);
  }

  lemma StartupDisturbsNoOther(s: State, one: WorkflowId, mode: Mode, t: Tried, id: WorkflowId)
    requires StoredByOwnId(s) && Dormant(s, id) && one != id
    ensures var s' := ActivateOne(s, one, mode, t).state;
            Undisturbed(s, s', id) && (id in s'.memory <==> id in s.memory)
  {
    if one in s.stored {
      AddDisturbsNoOther(s, one, mode, Some(s.stored[one]), false, t, id);
    }
  }

  // What a step leaves of a dormant workflow.
  ghost predicate SleepsOn(s: State, e: Event, id: WorkflowId) {
    var s' := Step(s, e).state;
    Undisturbed(s, s', id) && (id in s'.memory <==> id in s.memory && !Closes(e, id))
  }

  lemma OtherSleeps(s: State, e: Event, id: WorkflowId)
    requires QueueSane(s) && Dormant(s, id) && !Wakes(e, id)
    requires !e.AddWorkflow? && !e.AddPublished? && !e.StartupOne? && !e.TimerFires?
    ensures SleepsOn(s, e, id)
  {
  }

  lemma StaysDormant(s: State, e: Event, id: WorkflowId)
    requires QueueSane(s) && Dormant(s, id) && !Wakes(e, id)
    ensures QueueSane(Step(s, e).state) && Dormant(Step(s, e).state, id) && SleepsOn(s, e, id)
  {
    if Possible(s, e) {
      match e
      case AddWorkflow(other, mode, t) => AddDisturbsNoOther(s, other, mode, None, true, t, id);
      case AddPublished(other, t) => AddDisturbsNoOther(s, other, Activate, None, false, t, id);
      case TimerFires(timer, t) => FireDisturbsNoOther(s, timer, t, id);
      case StartupOne(one, mode, t) => StartupDisturbsNoOther(s, one, mode, t, id);
      case _ => OtherSleeps(s, e, id);
    }
    QueueSaneStep(s, e);
    NoTimer(Step(s, e).state.retries, id);
  }

  // Nothing but a call or a trigger of its own brings a deactivated workflow back: after single-main
  // `remove`, through any firings of timers and whatever happens to other workflows, it is neither queued
  // nor recorded as failed, it is in memory exactly as long as its triggers could not be closed, and it
  // has no webhook but those that could not be cleared.
  lemma {:induction false} RemovedStaysRemoved(s: State, id: WorkflowId, clears: bool, closes: bool, es: seq<Event>)
    requires QueueSane(s) && forall i :: 0 <= i < |es| ==> !Wakes(es[i], id)
    ensures var t := After(Remove(s, id, clears, closes), es);
            && QueueSane(t) && Dormant(t, id)
            && (id in t.memory <==> id in s.memory && !closes && forall i :: 0 <= i < |es| ==> !Closes(es[i], id))
            && (forall k ::
                  k in t.rows && t.rows[k] == id ==> k in s.rows && s.rows[k] == id && !(clears && id in s.stored))
    decreases |es|
  {
    var removed := Remove(s, id, clears, closes);
    if es == [] {
      RemovedIsDormant(s, id, clears, closes);
      RemoveKeepsSane(s, id, clears, closes);
    } else {
      var front, last := es[..|es| - 1], es[|es| - 1];
      RemovedStaysRemoved(s, id, clears, closes, front);
      StaysDormant(After(removed, front), last, id);
    }
  }

  // ---- backoff ----

  function Pow2(k: nat): (p: nat)
    ensures p > 0
  {
    if k == 0 then 1 else 2 * Pow2(k - 1)
  }

  function Backoff(k: nat): Millis {
    if INITIAL_TIMEOUT * Pow2(k) < MAX_TIMEOUT then INITIAL_TIMEOUT * Pow2(k) else MAX_TIMEOUT
  }

  // Doubling with the cap, as the code does it, yields the closed form.
  lemma BackoffGrows(k: nat)
    ensures NextTimeout(Backoff(k)) == Backoff(k + 1) && Backoff(k) <= Backoff(k + 1)
    ensures Backoff(0) == INITIAL_TIMEOUT
  {
  }

  lemma {:induction false} Pow2Grows(j: nat, k: nat)
    requires j <= k
    ensures Pow2(j) <= Pow2(k)
    decreases k - j
  {
    if j < k {
      Pow2Grows(j + 1, k);
    }
  }

  // The delay is the full day from the 17th failed retry on, and not before.
  lemma FullDayIff(k: nat)
    ensures Backoff(k) == MAX_TIMEOUT <==> k >= 17
    ensures INITIAL_TIMEOUT <= Backoff(k) <= MAX_TIMEOUT
  {
    assert Pow2(4) == 16 && Pow2(8) == 16 * Pow2(4) && Pow2(12) == 16 * Pow2(8) && Pow2(16) == 16 * Pow2(12);
    if k <= 16 {
      Pow2Grows(k, 16);
    } else {
      Pow2Grows(17, k);
    }
  }

  // The step puts `id` on the queue anew.
  ghost predicate Requeues(s: State, e: Event, id: WorkflowId) {
    match e
    case TriggerErrs(c, _, _) => Possible(s, e) && c.workflow.id == id
    case StartupOne(one, mode, t) =>
      one == id && Possible(s, e) && Step(s, e).outcome.Threw? && id in s.stored
        && !Authorization(Step(s, e).outcome.message)
    case _ => false
  }

  ghost predicate FailsRetry(s: State, e: Event, id: WorkflowId) {
    e.TimerFires? && Possible(s, e) && s.retries.timers[e.timer].workflow.id == id && Step(s, e).outcome.Threw?
  }

  // The failed retries of `id` since it was last queued.
  ghost function FailedRetries(s: State, es: seq<Event>, id: WorkflowId): nat
    decreases |es|
  {
    if es == [] then 0
    else
      var before, e := After(s, es[..|es| - 1]), es[|es| - 1];
      if Requeues(before, e, id) then 0
      else FailedRetries(s, es[..|es| - 1], id) + if FailsRetry(before, e, id) then 1 else 0
  }

  ghost predicate DelayStep(s: State, e: Event, id: WorkflowId) {
    var s' := Step(s, e).state;
    id in s'.retries.queue ==>
      if Requeues(s, e, id) then s'.retries.queue[id].lastTimeout == INITIAL_TIMEOUT
      else id in s.retries.queue
           && s'.retries.queue[id].lastTimeout
              == if FailsRetry(s, e, id) then NextTimeout(s.retries.queue[id].lastTimeout)
                else s.retries.queue[id].lastTimeout
  }

  lemma AddDelay(s: State, e: Event, id: WorkflowId)
    requires QueueSane(s) && (e.AddWorkflow? || e.AddPublished?)
    ensures DelayStep(s, e, id)
  {
  }

  lemma FireDelay(s: State, timer: TimerId, t: Tried, id: WorkflowId)
    requires QueueSane(s) && timer in s.retries.timers
    ensures DelayStep(s, TimerFires(timer, t), id)
  {
    FireSettles(s, timer, t);
    UnqueueMatches(s.retries, s.retries.timers[timer].workflow.id);
  }

  lemma ActivateOneDelay(s: State, one: WorkflowId, mode: Mode, t: Tried, id: WorkflowId)
    requires QueueSane(s) && AtStartup(mode)
    ensures DelayStep(s, StartupOne(one, mode, t), id)
  {
    if one in s.stored {
      ActivateOneSettles(s, one, mode, t);
    }
  }

  lemma OtherDelay(s: State, e: Event, id: WorkflowId)
    requires QueueSane(s) && !e.AddWorkflow? && !e.AddPublished? && !e.TimerFires? && !e.StartupOne?
    ensures DelayStep(s, e, id)
  {
  }

  // In every run of a single main instance, the delay of a queued workflow after k failed retries
  // is 1000 * 2^k milliseconds, at most a day, and its one live timer has that delay.
  lemma {:induction false} DelayIsBackoff(s: State, es: seq<Event>, id: WorkflowId)
    requires Initial(s) && id in After(s, es).retries.queue
    ensures var r := After(s, es).retries;
            && r.queue[id].lastTimeout == Backoff(FailedRetries(s, es, id))
            && r.queue[id].timer in r.timers && r.timers[r.queue[id].timer].delay == r.queue[id].lastTimeout
    decreases |es|
  {
    var front, last := es[..|es| - 1], es[|es| - 1];
    var before := After(s, front);
    QueueAlwaysSane(s, front);
    QueueAlwaysSane(s, es);
    assert HasTimer(After(s, es).retries, id);
    DelayOfStep(before, last, id);
    BackoffGrows(FailedRetries(s, front, id));
    if id in before.retries.queue {
      DelayIsBackoff(s, front, id);
    }
  }

  lemma DelayOfStep(s: State, e: Event, id: WorkflowId)
    requires QueueSane(s)
    ensures DelayStep(s, e, id)
  {
    if Possible(s, e) {
      match e
      case AddWorkflow(_, _, _) => AddDelay(s, e, id);
      case AddPublished(_, _) => AddDelay(s, e, id);
      case TimerFires(timer, t) => FireDelay(s, timer, t, id);
      case StartupOne(one, mode, t) => ActivateOneDelay(s, one, mode, t, id);
      case _ => OtherDelay(s, e, id);
    }
  }

  // ---- a workflow that is queued at startup ----

  // A workflow without webhooks of which some trigger answers and a poller fails.
  predicate FailsToStart(w: Workflow, t: Tried) {
    && w.active && w.startable && w.triggers && w.webhooks == []
    && t.base.None? && t.start.PollFailed? && t.start.answered && !Authorization(t.start.message)
  }

  // Its failed activation in the startup pass of a leader queues it, with one live timer, and leaves the
  // callbacks of its triggers at large.
  lemma QueuedAtStartup(s: State, w: Workflow, t: Tried) returns (s': State)
    requires s.leader && Get(s.stored, w.id) == Some(w) && s.retries.queue == map[] && FailsToStart(w, t)
    ensures s' == Step(s, StartupOne(w.id, Init, t)).state && s'.multiMain == s.multiMain
    ensures s'.retries.queue == map[w.id := Queued(Init, INITIAL_TIMEOUT, s.retries.next, w)]
    ensures s'.retries.timers == s.retries.timers[s.retries.next := Timer(Init, w, INITIAL_TIMEOUT)]
    ensures Closure(Init, w) in s'.issued && w.id in s'.memory
  {
    s' := Step(s, StartupOne(w.id, Init, t)).state;
  }

  lemma AfterTwo(s: State, a: Event, b: Event)
    ensures After(s, [a]) == Step(s, a).state && After(s, [a, b]) == Step(Step(s, a).state, b).state
  {
    assert [a, b][..1] == [a] && [a][..0] == [];
    assert After(s, []) == s;
  }
}
