// What happens while a retry awaits its attempt: the callback does not look at the queue again before
// it goes on, so the invariants of the queue survive an overlap only under a condition.
module ActivationRaces {
  import opened Wrappers
  import opened Webhooks
  import opened WorkflowActivation
  import opened ActivationQueue

  // ---- a retry with other steps in between ----

  // The state at the first await of a retry. A workflow without a start node fails before it.
  function AtAwait(s: State, timer: TimerId): State
    requires timer in s.retries.timers
  {
    var w := s.retries.timers[timer].workflow;
    if w.startable then Fired(s, timer) else Fails(Fired(s, timer), w.id, NotStartable(w.id, w.authorization)).state
  }

  // A retry during whose await the steps in `es` happen.
  ghost function OverlappedRetry(s: State, timer: TimerId, es: seq<Event>, t: Tried): Result
    requires timer in s.retries.timers
  {
    var tm := s.retries.timers[timer];
    var meanwhile := After(AtAwait(s, timer), es);
    if tm.workflow.startable then Retry(meanwhile, tm, t)
    else Resumed(Result(meanwhile, Threw(NotStartable(tm.workflow.id, tm.workflow.authorization))), tm)
  }

  // Without anything in between this is the retry as one step.
  lemma NoOverlap(s: State, timer: TimerId, t: Tried)
    requires QueueSane(s) && timer in s.retries.timers
    ensures OverlappedRetry(s, timer, [], t) == Fire(s, timer, t)
  {
    var tm := s.retries.timers[timer];
    FiredMatches(s.retries, timer);
    assert Activatable(tm.mode, tm.workflow);
  }

  // ---- the queue during the await ----

  // The queue without the entry whose timer fired, as long as that is still the entry of `id`.
  function Without(r: Retries, id: WorkflowId, timer: TimerId): Retries {
    if id in r.queue && r.queue[id].timer == timer then r.(queue := r.queue - {id}) else r
  }

  // Every entry and timer match but for that entry, which waits for its callback.
  ghost predicate MatchBut(r: Retries, tm: Timer, timer: TimerId) {
    && timer !in r.timers && timer < r.next
    && TimersMatch(Without(r, tm.workflow.id, timer))
    && (Awaited(r, tm.workflow.id, timer) ==>
          r.queue[tm.workflow.id].mode == tm.mode && r.queue[tm.workflow.id].workflow == tm.workflow)
  }

  ghost predicate Awaited(r: Retries, id: WorkflowId, timer: TimerId) {
    id in r.queue && r.queue[id].timer == timer
  }

  // The workflow was queued anew and its entry has a timer of its own.
  ghost predicate Anew(r: Retries, id: WorkflowId, timer: TimerId) {
    id in r.queue && r.queue[id].timer != timer
  }

  ghost predicate Midway(s: State, tm: Timer, timer: TimerId) {
    && !s.multiMain && s.leader && StoredByOwnId(s) && NeverSkipped(s.retries, s.issued)
    && MatchBut(s.retries, tm, timer)
  }

  lemma MidwayAtAwait(s: State, timer: TimerId)
    requires QueueSane(s) && timer in s.retries.timers
    ensures Midway(AtAwait(s, timer), s.retries.timers[timer], timer)
    ensures !Anew(AtAwait(s, timer).retries, s.retries.timers[timer].workflow.id, timer)
  {
    var id := s.retries.timers[timer].workflow.id;
    FiredMatches(s.retries, timer);
    UnqueueMatches(s.retries, id);
    assert BelongsToEntry(s.retries, timer);
    assert Without(Fired(s, timer).retries, id, timer) == Unqueue(s.retries, id);
  }

  lemma UnqueueBut(r: Retries, tm: Timer, timer: TimerId, id: WorkflowId)
    requires MatchBut(r, tm, timer)
    ensures MatchBut(Unqueue(r, id), tm, timer)
    ensures Anew(Unqueue(r, id), tm.workflow.id, timer) <==> Anew(r, tm.workflow.id, timer) && id != tm.workflow.id
  {
    var r1 := Without(r, tm.workflow.id, timer);
    UnqueueMatches(r1, id);
    assert Without(Unqueue(r, id), tm.workflow.id, timer) == Unqueue(r1, id);
  }

  lemma ScheduleBut(r: Retries, tm: Timer, timer: TimerId, mode: Mode, w: Workflow, entry: Queued)
    requires MatchBut(r, tm, timer) && w.id !in r.queue && entry.mode == mode && entry.workflow == w
    ensures MatchBut(Schedule(r, mode, w, INITIAL_TIMEOUT, entry), tm, timer)
    ensures Anew(Schedule(r, mode, w, INITIAL_TIMEOUT, entry), tm.workflow.id, timer)
            <==> Anew(r, tm.workflow.id, timer) || w.id == tm.workflow.id
  {
    var r1 := Without(r, tm.workflow.id, timer);
    var r' := Schedule(r, mode, w, INITIAL_TIMEOUT, entry);
    ScheduleMatches(r1, mode, w, INITIAL_TIMEOUT, entry);
    assert Without(r', tm.workflow.id, timer).queue == Schedule(r1, mode, w, INITIAL_TIMEOUT, entry).queue;
  }

  lemma EnqueueBut(r: Retries, tm: Timer, timer: TimerId, mode: Mode, w: Workflow)
    requires MatchBut(r, tm, timer)
    ensures MatchBut(Enqueue(r, mode, w), tm, timer)
    ensures Anew(Enqueue(r, mode, w), tm.workflow.id, timer)
            <==> Anew(r, tm.workflow.id, timer) || w.id == tm.workflow.id
  {
    UnqueueBut(r, tm, timer, w.id);
    UnqueuedIsOff(r, w.id);
    ScheduleBut(Unqueue(r, w.id), tm, timer, mode, w, Queued(mode, INITIAL_TIMEOUT, r.next, w));
  }

  lemma UnqueuedIsOff(r: Retries, id: WorkflowId)
    ensures id !in Unqueue(r, id).queue && Unqueue(r, id).next == r.next
  {
  }

  // Another timer that fires during the await is that of a live entry.
  lemma OtherFires(r: Retries, tm: Timer, timer: TimerId, other: TimerId)
    requires MatchBut(r, tm, timer) && other in r.timers
    ensures var id := r.timers[other].workflow.id;
            && id in r.queue && HasTimer(r, id) && r.queue[id].timer == other
            && Unqueue(r.(timers := r.timers - {other}), id) == Unqueue(r, id)
  {
    var r1 := Without(r, tm.workflow.id, timer);
    var id := r.timers[other].workflow.id;
    assert BelongsToEntry(r1, other) && HasTimer(r1, id);
    assert r.timers - {other} - {other} == r.timers - {other};
  }

  lemma RescheduleBut(r: Retries, tm: Timer, timer: TimerId, other: TimerId)
    requires MatchBut(r, tm, timer) && other in r.timers && r.timers[other].workflow.id in r.queue
    ensures var r' := Reschedule(r.(timers := r.timers - {other}), r.timers[other]);
            MatchBut(r', tm, timer) && (Anew(r', tm.workflow.id, timer) <==> Anew(r, tm.workflow.id, timer))
  {
    var id := tm.workflow.id;
    var r1 := Without(r, id, timer);
    OtherFires(r, tm, timer, other);
    assert BelongsToEntry(r1, other);
    RescheduleMatches(r1, other);
    var r' := Reschedule(r.(timers := r.timers - {other}), r.timers[other]);
    assert Without(r', id, timer).queue == Reschedule(r1.(timers := r1.timers - {other}), r.timers[other]).queue;
    assert Without(r', id, timer) == Reschedule(r1.(timers := r1.timers - {other}), r.timers[other]);
  }

  lemma UnqueueAllBut(r: Retries, tm: Timer, timer: TimerId)
    requires MatchBut(r, tm, timer)
    ensures MatchBut(UnqueueAll(r), tm, timer)
  {
    var r1 := Without(r, tm.workflow.id, timer);
    forall t | t in r.timers
      ensures t in set id | id in r.queue :: r.queue[id].timer
    {
      assert BelongsToEntry(r1, t);
    }
  }

  // ---- any step during the await ----

  ghost predicate KeepsMidway(s: State, e: Event, tm: Timer, timer: TimerId) {
    var s' := Step(s, e).state;
    && Midway(s', tm, timer)
    && (Anew(s'.retries, tm.workflow.id, timer)
        <==> Requeues(s, e, tm.workflow.id)
             || (Anew(s.retries, tm.workflow.id, timer) && tm.workflow.id in s'.retries.queue))
  }

  lemma AddDuring(s: State, e: Event, tm: Timer, timer: TimerId)
    requires Midway(s, tm, timer) && (e.AddWorkflow? || e.AddPublished?)
    ensures KeepsMidway(s, e, tm, timer)
  {
    if e.AddWorkflow? {
      AddSettles(s, e.id, e.mode, None, true, e.t);
      AddStarts(s, e.id, e.mode, None, true, e.t);
    } else {
      AddSettles(s, e.id, Activate, None, false, e.t);
      AddStarts(s, e.id, Activate, None, false, e.t);
    }
    UnqueueBut(s.retries, tm, timer, e.id);
  }

  // What another retry does to the queue during the await.
  lemma FireDuring(s: State, tm: Timer, timer: TimerId, other: TimerId, t: Tried)
    requires Midway(s, tm, timer) && other in s.retries.timers
    ensures var r, id := Fire(s, other, t), s.retries.timers[other].workflow.id;
            && id in s.retries.queue
            && r.state.retries == (if r.outcome.Done? then Unqueue(s.retries, id)
                                   else Reschedule(Fired(s, other).retries, s.retries.timers[other]))
            && StartsOnly(s, id, r.state)
            && r.state.stored == s.stored && r.state.multiMain == s.multiMain && r.state.leader == s.leader
  {
    var fired := s.retries.timers[other];
    OtherFires(s.retries, tm, timer, other);
    assert Activatable(fired.mode, fired.workflow);
    AddSettles(Fired(s, other), fired.workflow.id, fired.mode, Some(fired.workflow), true, t);
    AddStarts(Fired(s, other), fired.workflow.id, fired.mode, Some(fired.workflow), true, t);
  }

  lemma FireKeepsMidway(s: State, tm: Timer, timer: TimerId, other: TimerId, t: Tried)
    requires Midway(s, tm, timer) && other in s.retries.timers
    ensures KeepsMidway(s, TimerFires(other, t), tm, timer)
  {
    FireDuring(s, tm, timer, other, t);
    UnqueueBut(s.retries, tm, timer, s.retries.timers[other].workflow.id);
    RescheduleBut(s.retries, tm, timer, other);
  }

  lemma StartupDuring(s: State, one: WorkflowId, mode: Mode, t: Tried, tm: Timer, timer: TimerId)
    requires Midway(s, tm, timer) && AtStartup(mode)
    ensures KeepsMidway(s, StartupOne(one, mode, t), tm, timer)
  {
    if one in s.stored {
      AddSettles(s, one, mode, Some(s.stored[one]), false, t);
      AddStarts(s, one, mode, Some(s.stored[one]), false, t);
      UnqueueBut(s.retries, tm, timer, one);
      EnqueueBut(s.retries, tm, timer, Init, s.stored[one]);
    }
  }

  lemma TriggerErrsDuring(s: State, c: Closure, m: Message, closes: bool, tm: Timer, timer: TimerId)
    requires Midway(s, tm, timer) && c in s.issued
    ensures KeepsMidway(s, TriggerErrs(c, m, closes), tm, timer)
  {
    EnqueueBut(s.retries, tm, timer, c.mode, c.workflow);
  }

  lemma OtherDuring(s: State, e: Event, tm: Timer, timer: TimerId)
    requires Midway(s, tm, timer) && Possible(s, e)
    requires e.RemoveWorkflow? || e.RemoveAllQueued? || e.CloseTriggers? || e.ClearError? || e.ClearAllErrors?
             || e.Save?
    ensures KeepsMidway(s, e, tm, timer)
  {
    if e.RemoveWorkflow? {
      UnqueueBut(s.retries, tm, timer, e.id);
    } else if e.RemoveAllQueued? {
      UnqueueAllBut(s.retries, tm, timer);
    }
  }

  lemma MidwayStep(s: State, e: Event, tm: Timer, timer: TimerId)
    requires Midway(s, tm, timer)
    ensures KeepsMidway(s, e, tm, timer)
  {
    if Possible(s, e) {
      match e
      case AddWorkflow(_, _, _) => AddDuring(s, e, tm, timer);
      case AddPublished(_, _) => AddDuring(s, e, tm, timer);
      case TimerFires(other, t) => FireKeepsMidway(s, tm, timer, other, t);
      case TriggerErrs(c, m, closes) => TriggerErrsDuring(s, c, m, closes, tm, timer);
      case StartupOne(one, mode, t) => StartupDuring(s, one, mode, t, tm, timer);
      case _ => OtherDuring(s, e, tm, timer);
    }
  }

  // Some step of the run queues `id` anew, and none after it takes it off the queue.
  ghost predicate QueuedAnew(s: State, es: seq<Event>, id: WorkflowId)
    decreases |es|
  {
    && es != []
    && (Requeues(After(s, es[..|es| - 1]), es[|es| - 1], id)
        || (QueuedAnew(s, es[..|es| - 1], id) && id in After(s, es).retries.queue))
  }

  lemma {:induction false} MidwayRun(s: State, es: seq<Event>, tm: Timer, timer: TimerId)
    requires Midway(s, tm, timer) && !Anew(s.retries, tm.workflow.id, timer)
    ensures Midway(After(s, es), tm, timer)
    ensures Anew(After(s, es).retries, tm.workflow.id, timer) <==> QueuedAnew(s, es, tm.workflow.id)
    decreases |es|
  {
    if es != [] {
      var front := es[..|es| - 1];
      MidwayRun(s, front, tm, timer);
      MidwayStep(After(s, front), es[|es| - 1], tm, timer);
    }
  }

  // ---- when the retry goes on ----

  // Two live timers for one workflow, of which its entry knows the second only.
  ghost predicate TwoTimers(r: Retries, id: WorkflowId, first: TimerId, second: TimerId) {
    && first in r.timers && second in r.timers && first != second
    && r.timers[first].workflow.id == id && r.timers[second].workflow.id == id
    && id in r.queue && r.queue[id].timer == second
  }

  lemma ResumedMatches(r: Retries, tm: Timer, timer: TimerId)
    requires MatchBut(r, tm, timer)
    ensures TimersMatch(Unqueue(r, tm.workflow.id))
    ensures tm.workflow.id !in r.queue ==> TimersMatch(r)
    ensures Awaited(r, tm.workflow.id, timer) ==> TimersMatch(Reschedule(r, tm))
  {
    var id := tm.workflow.id;
    var r1 := Without(r, id, timer);
    UnqueueMatches(r1, id);
    if Awaited(r, id, timer) {
      assert r.timers - {timer} == r.timers;
      assert Unqueue(r, id) == r1;
      var entry := r.queue[id];
      ScheduleMatches(r1, tm.mode, tm.workflow, NextTimeout(entry.lastTimeout), entry);
      assert Reschedule(r, tm) == Schedule(r1, tm.mode, tm.workflow, NextTimeout(entry.lastTimeout), entry);
    }
  }

  lemma ResumedBreaks(r: Retries, tm: Timer, timer: TimerId)
    requires MatchBut(r, tm, timer) && Anew(r, tm.workflow.id, timer)
    ensures var r' := Reschedule(r, tm);
            TwoTimers(r', tm.workflow.id, r.queue[tm.workflow.id].timer, r.next) && !TimersMatch(r')
  {
    var first := r.queue[tm.workflow.id].timer;
    assert HasTimer(r, tm.workflow.id) && BelongsToEntry(r, first);
    assert !BelongsToEntry(Reschedule(r, tm), first);
  }

  // How an overlapped retry ends, and what it does to the queue it finds.
  lemma OverlapSettles(s: State, timer: TimerId, es: seq<Event>, t: Tried)
    requires QueueSane(s) && timer in s.retries.timers
    ensures var tm, r := s.retries.timers[timer], OverlappedRetry(s, timer, es, t);
            var meanwhile := After(AtAwait(s, timer), es).retries;
            && r.outcome == AttemptOutcome(true, tm.workflow, tm.mode, t)
            && (r.outcome.Done? || r.outcome.Threw?)
            && r.state.retries == if r.outcome.Done? then Unqueue(meanwhile, tm.workflow.id)
                                  else if tm.workflow.id in meanwhile.queue then Reschedule(meanwhile, tm)
                                  else meanwhile
  {
    var tm := s.retries.timers[timer];
    var meanwhile := After(AtAwait(s, timer), es);
    FiredMatches(s.retries, timer);
    assert Activatable(tm.mode, tm.workflow);
    MidwayAtAwait(s, timer);
    MidwayRun(AtAwait(s, timer), es, tm, timer);
    AddSettles(meanwhile, tm.workflow.id, tm.mode, Some(tm.workflow), true, t);
  }

  // Whatever happens during the await, the retry leaves every queued workflow with one live timer of
  // its own if and only if it does not fail while its workflow was queued anew. If it does, the
  // workflow ends up with two.
  lemma OverlapBreaksIff(s: State, timer: TimerId, es: seq<Event>, t: Tried)
    requires QueueSane(s) && timer in s.retries.timers
    ensures var tm, r := s.retries.timers[timer], OverlappedRetry(s, timer, es, t).state.retries;
            var broken := QueuedAnew(AtAwait(s, timer), es, tm.workflow.id)
              && AttemptOutcome(true, tm.workflow, tm.mode, t).Threw?;
            && (TimersMatch(r) <==> !broken)
            && (broken ==> exists first, second :: TwoTimers(r, tm.workflow.id, first, second))
  {
    var tm := s.retries.timers[timer];
    var meanwhile := After(AtAwait(s, timer), es).retries;
    MidwayAtAwait(s, timer);
    MidwayRun(AtAwait(s, timer), es, tm, timer);
    OverlapSettles(s, timer, es, t);
    ResumedMatches(meanwhile, tm, timer);
    if Anew(meanwhile, tm.workflow.id, timer) {
      ResumedBreaks(meanwhile, tm, timer);
    }
  }

  // One step in between: the queue survives every deactivation, activation, other retry or change in
  // storage; it breaks if and only if the step queues the workflow itself anew and the retry fails.
  lemma OneStepBreaksIff(s: State, timer: TimerId, e: Event, t: Tried)
    requires QueueSane(s) && timer in s.retries.timers
    ensures var tm := s.retries.timers[timer];
            TimersMatch(OverlappedRetry(s, timer, [e], t).state.retries)
            <==> !(Requeues(AtAwait(s, timer), e, tm.workflow.id)
                   && AttemptOutcome(true, tm.workflow, tm.mode, t).Threw?)
  {
    OverlapBreaksIff(s, timer, [e], t);
    assert [e][..0] == [];
    assert After(AtAwait(s, timer), []) == AtAwait(s, timer);
    assert !QueuedAnew(AtAwait(s, timer), [], s.retries.timers[timer].workflow.id);
  }

  // Such an overlap is reachable: a failed activation at startup queues a workflow whose trigger runs, and
  // the trigger reports an error while the retry awaits its attempt, which fails the same way.
  lemma OverlapBreaksRun(s: State, w: Workflow, t: Tried, m: Message)
    requires Initial(s) && Get(s.stored, w.id) == Some(w) && FailsToStart(w, t)
    ensures var queued, e := After(s, [StartupOne(w.id, Init, t)]), TriggerErrs(Closure(Init, w), m, true);
            && s.retries.next in queued.retries.timers
            && !TimersMatch(OverlappedRetry(queued, s.retries.next, [e], t).state.retries)
  {
    var one, e := StartupOne(w.id, Init, t), TriggerErrs(Closure(Init, w), m, true);
    var queued := QueuedAtStartup(s, w, t);
    AfterTwo(s, one, e);
    QueueAlwaysSane(s, [one]);
    OneStepBreaksIff(queued, s.retries.next, e, t);
    assert Requeues(AtAwait(queued, s.retries.next), e, w.id);
  }

  // Being queued anew in between is not enough: a deactivation after it takes the workflow off again.
  lemma TakenOffAgain(s: State, timer: TimerId, es: seq<Event>, clears: bool, closes: bool, t: Tried)
    requires QueueSane(s) && timer in s.retries.timers
    ensures var removed := RemoveWorkflow(s.retries.timers[timer].workflow.id, clears, closes);
            TimersMatch(OverlappedRetry(s, timer, es + [removed], t).state.retries)
  {
    var tm := s.retries.timers[timer];
    var more := es + [RemoveWorkflow(tm.workflow.id, clears, closes)];
    assert more[..|more| - 1] == es;
    OverlapBreaksIff(s, timer, more, t);
    MidwayAtAwait(s, timer);
    MidwayRun(AtAwait(s, timer), es, tm, timer);
    assert tm.workflow.id !in After(AtAwait(s, timer), more).retries.queue;
  }

  // ---- a deactivation during a retry ----

  // It does not last: the workflow runs again if and only if the attempt gets its triggers going, its
  // webhooks are back unless the attempt wrote none or cleared them itself, and an attempt that fails
  // after the await records an error for it once more, before the callback fails on the entry that is
  // gone. Without a start node the error was recorded before and stays cleared.
  lemma RemovedDuringRetry(s: State, timer: TimerId, t: Tried, clears: bool)
    requires QueueSane(s) && timer in s.retries.timers
    ensures var tm := s.retries.timers[timer];
            var id := tm.workflow.id;
            var r := OverlappedRetry(s, timer, [RemoveWorkflow(id, clears, true)], t);
            && r.outcome == AttemptOutcome(true, tm.workflow, tm.mode, t)
            && (id in r.state.memory <==> Runs(false, true, tm.workflow, tm.mode, t))
            && id !in r.state.retries.queue
            && Get(r.state.errors, id)
               == if r.outcome.Threw? && tm.workflow.startable then Some(r.outcome.message) else None
    ensures var tm := s.retries.timers[timer];
            var id := tm.workflow.id;
            var r := OverlappedRetry(s, timer, [RemoveWorkflow(id, clears, true)], t);
            var noneLeft := (clears && id in s.stored) || NoRows(s.rows, id);
            NoRows(r.state.rows, id) <==> NoRowsAfter(true, noneLeft, id in s.stored, tm.workflow, tm.mode, t)
  {
    var tm := s.retries.timers[timer];
    var id := tm.workflow.id;
    var e := RemoveWorkflow(id, clears, true);
    assert [e][..0] == [];
    var removed := Remove(AtAwait(s, timer), id, clears, true);
    assert After(AtAwait(s, timer), [e]) == removed;
    OverlapSettles(s, timer, [e], t);
    if tm.workflow.startable {
      AddSettles(removed, id, tm.mode, Some(tm.workflow), true, t);
      AddRuns(removed, tm.workflow, tm.mode, true, t);
    }
    RemovedDuringRetryRows(s, timer, t, clears);
  }

  lemma RemovedDuringRetryRows(s: State, timer: TimerId, t: Tried, clears: bool)
    requires QueueSane(s) && timer in s.retries.timers
    ensures var tm := s.retries.timers[timer];
            var id := tm.workflow.id;
            var r := OverlappedRetry(s, timer, [RemoveWorkflow(id, clears, true)], t);
            var noneLeft := (clears && id in s.stored) || NoRows(s.rows, id);
            NoRows(r.state.rows, id) <==> NoRowsAfter(true, noneLeft, id in s.stored, tm.workflow, tm.mode, t)
  {
    var tm := s.retries.timers[timer];
    var w, id, e := tm.workflow, tm.workflow.id, RemoveWorkflow(tm.workflow.id, clears, true);
    assert [e][..0] == [];
    var removed := Remove(AtAwait(s, timer), id, clears, true);
    assert After(AtAwait(s, timer), [e]) == removed;
    ClearedRows(AtAwait(s, timer), id, clears);
    if w.startable {
      LeavesNoRowsIff(removed, w, tm.mode, true, t);
    }
  }

  lemma ClearedRows(s: State, id: WorkflowId, clears: bool)
    ensures NoRows(ClearRows(s, id, clears).rows, id) <==> (clears && id in s.stored) || NoRows(s.rows, id)
  {
  }
}
