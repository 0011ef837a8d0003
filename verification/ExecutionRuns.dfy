// Runs that replace each other under one id: whose callback may remove which entry, which slots
// are never given back, and what a resumed execution keeps.
module ExecutionRuns {
  import opened Wrappers
  import opened Concurrency
  import opened ExecutionLifecycle
  import opened ExecutionShutdown

  // The run is the map entry for its id.
  ghost predicate Current(s: State, h: Execution)
    requires h in s.heap
  {
    Get(s.active, s.heap[h].id) == Some(h)
  }

  // ---- superseded runs are out of reach ----

  // Nothing a caller can observe about the run changed, and it did not become an entry again.
  ghost predicate Untouched(s: State, s': State, h: Execution)
    requires h in s.heap
  {
    && h in s'.heap && s'.heap[h].id == s.heap[h].id
    && s'.heap[h].status == s.heap[h].status && s'.heap[h].post == s.heap[h].post
    && (Current(s', h) ==> Current(s, h))
  }

  lemma StopUntouched(s: State, id: ExecutionId, h: Execution)
    requires EntriesMatch(s) && h in s.heap && !Current(s, h)
    ensures Untouched(s, StopEntry(s, id), h)
  {
  }

  lemma {:induction false} ShutdownUntouched(s: State, cancelAll: bool, ids: seq<ExecutionId>, h: Execution)
    requires EntriesMatch(s) && h in s.heap && !Current(s, h)
    ensures Untouched(s, ShutdownEntries(s, cancelAll, ids), h)
    ensures EntriesMatch(ShutdownEntries(s, cancelAll, ids))
    decreases |ids|
  {
    if ids != [] {
      var before := ShutdownEntries(s, cancelAll, ids[..|ids| - 1]);
      ShutdownUntouched(s, cancelAll, ids[..|ids| - 1], h);
      StopUntouched(before, ids[|ids| - 1], h);
      ShutdownEntryShrinks(before, cancelAll, ids[|ids| - 1]);
    }
  }

  lemma SupersededStep(s: State, e: Event, h: Execution)
    requires Sane(s) && h in s.heap && !Current(s, h)
    ensures Untouched(s, Next(s, e), h)
  {
    if Possible(s, e) {
      if e.Shutdown? {
        ShutdownUntouched(DisableControl(s), e.cancelAll, e.order, h);
      } else if e.Stop? {
        StopUntouched(s, e.id, h);
      } else if e.Settle? || e.Insert? || e.Unqueue? {
        RunStepUntouched(s, e, h);
      } else {
        CallUntouched(s, e, h);
      }
    }
  }

  lemma RunStepUntouched(s: State, e: Event, h: Execution)
    requires Sane(s) && Possible(s, e) && (e.Settle? || e.Insert? || e.Unqueue?) && h in s.heap && !Current(s, h)
    ensures Untouched(s, Next(s, e), h)
  {
  }

  lemma CallUntouched(s: State, e: Event, h: Execution)
    requires EntriesMatch(s) && Possible(s, e) && h in s.heap && !Current(s, h)
    requires !e.Settle? && !e.Insert? && !e.Unqueue? && !e.Stop? && !e.Shutdown?
    ensures Untouched(s, Next(s, e), h)
  {
  }

  // Once superseded, a run keeps its status and its promise for ever: later calls by id reach
  // the run that replaced it.
  lemma {:induction false} SupersededForever(s: State, es: seq<Event>, h: Execution)
    requires Sane(s) && h in s.heap && !Current(s, h)
    ensures h in After(s, es).heap && !Current(After(s, es), h)
    ensures After(s, es).heap[h].status == s.heap[h].status && After(s, es).heap[h].post == s.heap[h].post
    decreases |es|
  {
    if es != [] {
      var front := es[..|es| - 1];
      SupersededForever(s, front, h);
      RunsAreSane(s, front);
      SupersededStep(After(s, front), es[|es| - 1], h);
    }
  }

  // ---- which entry a settle callback removes ----

  // A resume inserts its record only where no entry is left, or a waiting one.
  ghost predicate ResumesOnlyWaiting(s: State, e: Event) {
    e.Insert? && Possible(s, e) ==>
      Entry(s, s.adds[e.ticket].id).None? || Entry(s, s.adds[e.ticket].id).value.status == Waiting
  }

  ghost predicate NeverNew(e: Event) {
    e.SetStatus? ==> e.status != New
  }

  ghost predicate WellBehaved(s: State, es: seq<Event>) {
    es == [] || (WellBehaved(s, es[..|es| - 1]) && NeverNew(es[|es| - 1])
      && ResumesOnlyWaiting(After(s, es[..|es| - 1]), es[|es| - 1]))
  }

  // Runs whose callback is pending and which are no longer an entry wait.
  ghost predicate SupersededWait(s: State) {
    && (forall h :: h in s.pending && h in s.heap && !Current(s, h) ==> s.heap[h].status == Waiting)
    && (forall h :: h in s.heap ==> s.heap[h].status != New)
  }

  lemma StopKeepsWait(s: State, id: ExecutionId)
    requires EntriesMatch(s) && SupersededWait(s)
    ensures SupersededWait(StopEntry(s, id))
  {
  }

  lemma {:induction false} ShutdownKeepsWait(s: State, cancelAll: bool, ids: seq<ExecutionId>)
    requires EntriesMatch(s) && SupersededWait(s)
    ensures SupersededWait(ShutdownEntries(s, cancelAll, ids)) && EntriesMatch(ShutdownEntries(s, cancelAll, ids))
    decreases |ids|
  {
    if ids != [] {
      var before := ShutdownEntries(s, cancelAll, ids[..|ids| - 1]);
      ShutdownKeepsWait(s, cancelAll, ids[..|ids| - 1]);
      StopKeepsWait(before, ids[|ids| - 1]);
      ShutdownEntryShrinks(before, cancelAll, ids[|ids| - 1]);
    }
  }

  lemma InsertKeepsWait(s: State, ticket: Ticket, run: Execution, now: Time)
    requires Sane(s) && SupersededWait(s)
    requires Possible(s, Insert(ticket, run, now)) && ResumesOnlyWaiting(s, Insert(ticket, run, now))
    ensures SupersededWait(InsertRecord(s, ticket, run, now))
  {
  }

  lemma SettleKeepsWait(s: State, run: Execution)
    requires Sane(s) && SupersededWait(s) && run in s.pending
    ensures SupersededWait(SettleCallback(s, run))
  {
  }

  lemma WaitStep(s: State, e: Event)
    requires Sane(s) && SupersededWait(s) && NeverNew(e) && ResumesOnlyWaiting(s, e)
    ensures SupersededWait(Next(s, e))
  {
    if Possible(s, e) {
      match e
      case Shutdown(cancelAll, order) => ShutdownKeepsWait(DisableControl(s), cancelAll, order);
      case Stop(id) => StopKeepsWait(s, id);
      case Insert(ticket, run, now) => InsertKeepsWait(s, ticket, run, now);
      case Settle(run) => SettleKeepsWait(s, run);
      case _ =>
    }
  }

  // In every interleaving in which resumes meet no running entry, a run with a pending callback
  // that is no longer the entry for its id has status waiting.
  lemma {:induction false} SupersededRunsWait(s: State, es: seq<Event>, limits: map<QueueType, int>)
    requires Initial(s, limits) && WellBehaved(s, es)
    ensures Sane(After(s, es)) && SupersededWait(After(s, es))
    decreases |es|
  {
    if es != [] {
      var front := es[..|es| - 1];
      SupersededRunsWait(s, front, limits);
      SaneStep(After(s, front), es[|es| - 1]);
      WaitStep(After(s, front), es[|es| - 1]);
    }
  }

  // Hence a settle callback removes its own run's entry or none: never that of the run that
  // resumed it.
  lemma CallbackSparesSuccessor(s: State, es: seq<Event>, run: Execution, limits: map<QueueType, int>)
    requires Initial(s, limits) && WellBehaved(s, es) && Possible(After(s, es), Settle(run))
    ensures var t := After(s, es);
            var rec := t.heap[run];
            Next(t, Settle(run)).active
              == if Current(t, run) && rec.status != Waiting then t.active - {rec.id} else t.active
  {
    SupersededRunsWait(s, es, limits);
  }

  // When a resume replaces an entry, then at any later time the callback of the replaced run
  // removes the entry that has the id by then if and only if, at the moment of the insertion, the
  // replaced run was settled with its callback still to come and did not wait.
  lemma EvictionIff(s: State, ticket: Ticket, run: Execution, now: Time, es: seq<Event>, prior: Execution)
    requires Sane(s) && Possible(s, Insert(ticket, run, now))
    requires Get(s.active, s.adds[ticket].id) == Some(prior)
    requires Settle(prior) !in es && s.adds[ticket].id in After(Next(s, Insert(ticket, run, now)), es).active
    ensures var t := After(Next(s, Insert(ticket, run, now)), es);
            (Possible(t, Settle(prior)) && s.adds[ticket].id !in Next(t, Settle(prior)).active)
            <==> (prior in s.pending && s.heap[prior].post != Pending && s.heap[prior].status != Waiting)
  {
    var s1 := Next(s, Insert(ticket, run, now));
    SaneStep(s, Insert(ticket, run, now));
    assert !Current(s1, prior);
    SupersededForever(s1, es, prior);
    SupersededId(s1, es, prior);
    StaysPending(s1, es, prior);
  }

  lemma {:induction false} SupersededId(s: State, es: seq<Event>, h: Execution)
    requires Sane(s) && h in s.heap && !Current(s, h)
    ensures h in After(s, es).heap && After(s, es).heap[h].id == s.heap[h].id
    decreases |es|
  {
    if es != [] {
      var front := es[..|es| - 1];
      SupersededId(s, front, h);
      SupersededForever(s, front, h);
      RunsAreSane(s, front);
      SupersededStep(After(s, front), es[|es| - 1], h);
    }
  }

  // Only its own callback takes a run off the pending set.
  lemma PendingStep(s: State, e: Event, h: Execution)
    requires h in s.heap && e != Settle(h)
    ensures h in Next(s, e).pending <==> h in s.pending
  {
    if !ChangesQueues(e) {
      OtherStepsShrink(s, e);
    }
  }

  lemma {:induction false} StaysPending(s: State, es: seq<Event>, h: Execution)
    requires Sane(s) && h in s.heap && !Current(s, h) && Settle(h) !in es
    ensures h in After(s, es).pending <==> h in s.pending
    decreases |es|
  {
    if es != [] {
      var front := es[..|es| - 1];
      StaysPending(s, front, h);
      SupersededForever(s, front, h);
      PendingStep(After(s, front), es[|es| - 1], h);
    }
  }

  // ---- how an execution ends ----

  // Stopping an execution rejects the response it owes and ends it: a waiting one loses its entry
  // at once; any other is settled, so that its callback may run, and the callback removes the entry.
  lemma StopEnds(s: State, id: ExecutionId)
    requires Sane(s) && id in s.active && s.active[id] in s.pending
    ensures var h, t := s.active[id], Next(s, Stop(id));
            if s.heap[h].status == Waiting then id !in t.active && t.heap[h].post == s.heap[h].post
            else Possible(t, Settle(h)) && id !in Next(t, Settle(h)).active
    ensures var r, t := s.heap[s.active[id]].response, Next(s, Stop(id));
            r.Some? && Get(s.responses, r.value) == Some(Pending) ==> Get(t.responses, r.value) == Some(Rejected)
  {
    assert Sane(StopEntry(s, id)) by {
      StopShrinks(s, id);
      ShrinksKeepsSane(s, StopEntry(s, id));
    }
  }

  // ---- slots that are never given back ----

  // The run can no longer be settled: no entry leads to it and its promise is still open.
  ghost predicate Orphan(s: State, h: Execution) {
    h in s.pending && h in s.heap && !Current(s, h) && s.heap[h].post == Pending
  }

  // An orphan stays one in every continuation, so the slot it holds is never released.
  lemma {:induction false} OrphanForever(s: State, es: seq<Event>, h: Execution)
    requires Sane(s) && Orphan(s, h)
    ensures Orphan(After(s, es), h)
    decreases |es|
  {
    if es != [] {
      var front := es[..|es| - 1];
      OrphanForever(s, front, h);
      RunsAreSane(s, front);
      SupersededStep(After(s, front), es[|es| - 1], h);
      if es[|es| - 1] == Settle(h) {
        assert !Possible(After(s, front), Settle(h));
      } else {
        PendingStep(After(s, front), es[|es| - 1], h);
      }
    }
  }

  // The steps that drop or replace a waiting entry.
  ghost predicate DropsEntry(s: State, e: Event, id: ExecutionId)
    requires Entry(s, id).Some?
  {
    match e
    case Insert(ticket, _, _) => Possible(s, e) && s.adds[ticket].id == id
    case Stop(i) => i == id && Entry(s, id).value.status == Waiting
    case Shutdown(_, _) => Possible(s, e) && Entry(s, id).value.status == Waiting
    case _ => false
  }

  // A run whose promise is open becomes an orphan in exactly the steps that drop or replace its
  // entry; with well-behaved callers that only ever happens to a waiting run.
  lemma OrphanedIff(s: State, e: Event, h: Execution)
    requires Sane(s) && SupersededWait(s) && NeverNew(e) && ResumesOnlyWaiting(s, e)
    requires h in s.pending && Current(s, h) && s.heap[h].post == Pending
    ensures Orphan(Next(s, e), h) <==> DropsEntry(s, e, s.heap[h].id)
    ensures Orphan(Next(s, e), h) ==> s.heap[h].status == Waiting
  {
    if Possible(s, e) {
      if e.Shutdown? {
        ShutdownOrphans(s, e.cancelAll, e.order, h);
      } else if e.Settle? {
        SettleSparesCurrent(s, e.run, h);
      } else if e.Stop? {
        StopOrphans(s, e.id, h);
      } else {
        OtherStepsOrphan(s, e, h);
      }
    }
  }

  lemma ShutdownOrphans(s: State, cancelAll: bool, order: seq<ExecutionId>, h: Execution)
    requires Sane(s) && SupersededWait(s) && Possible(s, Shutdown(cancelAll, order))
    requires h in s.pending && Current(s, h) && s.heap[h].post == Pending
    ensures Orphan(Next(s, Shutdown(cancelAll, order)), h) <==> s.heap[h].status == Waiting
  {
    ShutdownDrops(DisableControl(s), cancelAll, order, s.heap[h].id);
    if s.heap[h].status == Waiting {
      ShutdownKeepsWaiting(DisableControl(s), cancelAll, order, h);
    }
  }

  // A waiting run's promise stays as it is through the pass.
  lemma {:induction false} ShutdownKeepsWaiting(s: State, cancelAll: bool, ids: seq<ExecutionId>, h: Execution)
    requires EntriesMatch(s) && h in s.heap && s.heap[h].status == Waiting
    ensures var s' := ShutdownEntries(s, cancelAll, ids);
            h in s'.heap && s'.heap[h].status == Waiting && s'.heap[h].post == s.heap[h].post
    decreases |ids|
  {
    if ids != [] {
      ShutdownKeepsWaiting(s, cancelAll, ids[..|ids| - 1], h);
    }
  }

  lemma SettleSparesCurrent(s: State, run: Execution, h: Execution)
    requires Sane(s) && SupersededWait(s) && run in s.pending && run != h
    requires h in s.heap && Current(s, h)
    ensures h in SettleCallback(s, run).heap && Current(SettleCallback(s, run), h)
  {
  }

  lemma StopOrphans(s: State, id: ExecutionId, h: Execution)
    requires Sane(s) && h in s.pending && Current(s, h) && s.heap[h].post == Pending
    ensures Orphan(StopEntry(s, id), h) <==> id == s.heap[h].id && s.heap[h].status == Waiting
  {
  }

  lemma OtherStepsOrphan(s: State, e: Event, h: Execution)
    requires Sane(s) && Possible(s, e) && !e.Shutdown? && !e.Settle? && !e.Stop?
    requires h in s.pending && Current(s, h) && s.heap[h].post == Pending
    ensures Orphan(Next(s, e), h) <==> e.Insert? && s.adds[e.ticket].id == s.heap[h].id
  {
  }

  // ---- what a resumed execution keeps ----

  // The response attached last to `id`, if any was.
  function LastResponse(es: seq<Event>, id: ExecutionId, initial: Option<ResponseId>): Option<ResponseId>
    decreases |es|
  {
    if es == [] then initial
    else if es[|es| - 1].AttachResponse? && es[|es| - 1].id == id then Some(es[|es| - 1].response)
    else LastResponse(es[..|es| - 1], id, initial)
  }

  ghost predicate PresentThroughout(s: State, es: seq<Event>, id: ExecutionId) {
    id in After(s, es).active && (es == [] || PresentThroughout(s, es[..|es| - 1], id))
  }

  // What a later step of the same execution may find: the start time of the first admission and
  // the response attached last.
  ghost predicate Keeps(s: State, id: ExecutionId, startedAt: Time, response: Option<ResponseId>) {
    Entry(s, id).Some? && Entry(s, id).value.startedAt == startedAt && Entry(s, id).value.response == response
  }

  lemma KeepsShutdown(s: State, cancelAll: bool, order: seq<ExecutionId>, id: ExecutionId)
    requires Sane(s) && Possible(s, Shutdown(cancelAll, order)) && id in Next(s, Shutdown(cancelAll, order)).active
    ensures Entry(s, id).Some?
    ensures Keeps(Next(s, Shutdown(cancelAll, order)), id, Entry(s, id).value.startedAt, Entry(s, id).value.response)
  {
    ShutdownAddsNothing(s, cancelAll, order);
    ShutdownPartitions(s, cancelAll, order, id);
  }

  lemma KeepsRunStep(s: State, e: Event, id: ExecutionId)
    requires Sane(s) && Possible(s, e) && (e.Insert? || e.Settle? || e.Unqueue? || e.Stop?)
    requires Entry(s, id).Some? && id in Next(s, e).active
    ensures Keeps(Next(s, e), id, Entry(s, id).value.startedAt, Entry(s, id).value.response)
  {
    if e.Stop? {
      KeepsStop(s, e.id, id);
    }
  }

  lemma KeepsStop(s: State, other: ExecutionId, id: ExecutionId)
    requires EntriesMatch(s) && Entry(s, id).Some? && id in StopEntry(s, other).active
    ensures Keeps(StopEntry(s, other), id, Entry(s, id).value.startedAt, Entry(s, id).value.response)
  {
  }

  lemma KeepsCall(s: State, e: Event, id: ExecutionId)
    requires Sane(s) && Possible(s, e) && !e.Insert? && !e.Settle? && !e.Unqueue? && !e.Shutdown? && !e.Stop?
    requires Entry(s, id).Some?
    ensures var rec := Entry(s, id).value;
            Keeps(Next(s, e), id, rec.startedAt,
                  if e.AttachResponse? && e.id == id then Some(e.response) else rec.response)
  {
  }

  lemma KeepsStep(s: State, e: Event, id: ExecutionId, startedAt: Time, response: Option<ResponseId>)
    requires Sane(s) && Keeps(s, id, startedAt, response) && id in Next(s, e).active
    ensures Keeps(Next(s, e), id, startedAt, if e.AttachResponse? && e.id == id then Some(e.response) else response)
  {
    if Possible(s, e) {
      if e.Shutdown? {
        KeepsShutdown(s, e.cancelAll, e.order, id);
      } else if e.Insert? || e.Settle? || e.Unqueue? || e.Stop? {
        KeepsRunStep(s, e, id);
      } else {
        KeepsCall(s, e, id);
      }
    }
  }

  // Through any number of waits and resumes without removal, an execution keeps the start time of
  // its first admission, and its response is the one attached last, by whichever of its runs.
  lemma {:induction false} ResumesKeep(s: State, es: seq<Event>, id: ExecutionId)
    requires Sane(s) && Entry(s, id).Some? && PresentThroughout(s, es, id)
    ensures Keeps(After(s, es), id, Entry(s, id).value.startedAt, LastResponse(es, id, Entry(s, id).value.response))
    decreases |es|
  {
    if es != [] {
      var front := es[..|es| - 1];
      ResumesKeep(s, front, id);
      RunsAreSane(s, front);
      KeepsStep(After(s, front), es[|es| - 1], id, Entry(s, id).value.startedAt,
                LastResponse(front, id, Entry(s, id).value.response));
    }
  }

  // From the first admission on.
  lemma AdmissionKept(s: State, ticket: Ticket, run: Execution, now: Time, es: seq<Event>)
    requires Sane(s) && Possible(s, Insert(ticket, run, now)) && s.adds[ticket].id !in s.active
    requires PresentThroughout(Next(s, Insert(ticket, run, now)), es, s.adds[ticket].id)
    ensures var id := s.adds[ticket].id;
            Keeps(After(Next(s, Insert(ticket, run, now)), es), id, now, LastResponse(es, id, None))
  {
    SaneStep(s, Insert(ticket, run, now));
    ResumesKeep(Next(s, Insert(ticket, run, now)), es, s.adds[ticket].id);
  }

  // ---- the first execution ----

  // There is one execution, and its callback is still to come.
  ghost predicate Only(s: State, id: ExecutionId, run: Execution, rec: Rec) {
    s.active == map[id := run] && s.heap == map[run := rec] && s.pending == {run}
  }

  // A webhook execution that nothing came before is let through at once.
  lemma FirstAdmitted(s: State, id: ExecutionId, limits: map<QueueType, int>) returns (s': State)
    requires Initial(s, limits)
    ensures s' == Next(s, AddNew(0, id, Webhook))
    ensures s'.adds == map[0 := Admission(id, Webhook, true)]
    ensures s'.heap == map[] && s'.active == map[] && s'.pending == {}
  {
    s' := Next(s, AddNew(0, id, Webhook));
    assert Possible(s, AddNew(0, id, Webhook));
    assert !Blocks(s.control, Webhook);
  }

  lemma FirstInserted(s: State, id: ExecutionId, run: Execution, now: Time) returns (s': State)
    requires s.adds == map[0 := Admission(id, Webhook, true)]
    requires s.heap == map[] && s.active == map[] && s.pending == {}
    ensures s' == Next(s, Insert(0, run, now)) && ResumesOnlyWaiting(s, Insert(0, run, now))
    ensures Only(s', id, run, Rec(id, Webhook, now, Running, Pending, None, None))
  {
    s' := Next(s, Insert(0, run, now));
    assert Possible(s, Insert(0, run, now));
  }

  lemma StatusOfOnly(s: State, id: ExecutionId, run: Execution, rec: Rec, status: Status) returns (s': State)
    requires Only(s, id, run, rec)
    ensures s' == Next(s, SetStatus(id, status)) && Only(s', id, run, rec.(status := status))
  {
    s' := Next(s, SetStatus(id, status));
  }

  // Runs are well-behaved if each step is.
  lemma MoreWellBehaved(s: State, es: seq<Event>, e: Event)
    ensures After(s, es + [e]) == Next(After(s, es), e)
    ensures WellBehaved(s, es + [e]) <==> WellBehaved(s, es) && NeverNew(e) && ResumesOnlyWaiting(After(s, es), e)
  {
    assert (es + [e])[..|es|] == es;
  }

  lemma ThreeSteps(s: State, a: Event, b: Event, c: Event) returns (es: seq<Event>)
    requires NeverNew(a) && NeverNew(b) && NeverNew(c)
    requires !a.Insert? && !c.Insert? && ResumesOnlyWaiting(Next(s, a), b)
    ensures es == [a, b, c] && WellBehaved(s, es) && After(s, es) == Next(Next(Next(s, a), b), c)
  {
    es := [a, b, c];
    MoreWellBehaved(s, [], a);
    MoreWellBehaved(s, [a], b);
    MoreWellBehaved(s, [a, b], c);
    assert [] + [a] == [a] && [a] + [b] == [a, b] && [a, b] + [c] == es;
  }
}
