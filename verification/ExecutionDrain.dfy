// After the shutdown pass: when the wait for the remaining executions ends.
module ExecutionDrain {
  import opened Wrappers
  import opened Concurrency
  import opened ExecutionLifecycle
  import opened ExecutionShutdown
  import opened ExecutionRuns

  // ---- entries whose callback has run ----

  // Only waiting executions keep their entry once the callback of their run has run.
  ghost predicate CallbacksRemove(s: State) {
    forall id ::
      id in s.active ==> s.active[id] in s.pending || (s.active[id] in s.heap && s.heap[s.active[id]].status == Waiting)
  }

  // The status of an execution whose callback has run stays `waiting`.
  ghost predicate StatusWhileRunning(s: State, e: Event) {
    e.SetStatus? && e.id in s.active ==> s.active[e.id] in s.pending || e.status == Waiting
  }

  lemma CallbacksRemoveStep(s: State, e: Event)
    requires Sane(s) && CallbacksRemove(s) && StatusWhileRunning(s, e)
    ensures CallbacksRemove(Next(s, e))
  {
    if Possible(s, e) {
      match e
      case Shutdown(cancelAll, order) => ShutdownKeepsCallbacks(DisableControl(s), cancelAll, order);
      case Stop(id) => StopKeepsCallbacks(s, id);
      case Settle(run) => SettleKeepsCallbacks(s, run);
      case _ =>
    }
  }

  // A step breaks this if and only if it sets another status on an execution whose callback has run.
  lemma CallbacksRemoveIff(s: State, e: Event)
    requires Sane(s) && CallbacksRemove(s)
    ensures CallbacksRemove(Next(s, e)) <==> StatusWhileRunning(s, e)
  {
    if StatusWhileRunning(s, e) {
      CallbacksRemoveStep(s, e);
    } else {
      StatusBreaks(s, e.id, e.status);
    }
  }

  lemma StatusBreaks(s: State, id: ExecutionId, status: Status)
    requires Sane(s) && id in s.active && s.active[id] !in s.pending && status != Waiting
    ensures !CallbacksRemove(Next(s, SetStatus(id, status)))
  {
    assert id in Next(s, SetStatus(id, status)).active;
  }

  lemma StopKeepsCallbacks(s: State, id: ExecutionId)
    requires EntriesMatch(s) && CallbacksRemove(s)
    ensures CallbacksRemove(StopEntry(s, id))
  {
  }

  lemma SettleKeepsCallbacks(s: State, run: Execution)
    requires Sane(s) && CallbacksRemove(s) && run in s.pending
    ensures CallbacksRemove(SettleCallback(s, run))
  {
  }

  lemma {:induction false} ShutdownKeepsCallbacks(s: State, cancelAll: bool, ids: seq<ExecutionId>)
    requires EntriesMatch(s) && CallbacksRemove(s)
    ensures CallbacksRemove(ShutdownEntries(s, cancelAll, ids))
    decreases |ids|
  {
    if ids != [] {
      var before := ShutdownEntries(s, cancelAll, ids[..|ids| - 1]);
      ShutdownKeepsCallbacks(s, cancelAll, ids[..|ids| - 1]);
      ShutdownShrinks(s, cancelAll, ids[..|ids| - 1]);
      ShrunkEntriesMatch(s, before);
      StopKeepsCallbacks(before, ids[|ids| - 1]);
    }
  }

  ghost predicate Disciplined(s: State, es: seq<Event>) {
    es == [] || (Disciplined(s, es[..|es| - 1]) && StatusWhileRunning(After(s, es[..|es| - 1]), es[|es| - 1]))
  }

  lemma {:induction false} CallbacksRemoveEntries(s: State, es: seq<Event>, limits: map<QueueType, int>)
    requires Initial(s, limits) && Disciplined(s, es)
    ensures CallbacksRemove(After(s, es))
    decreases |es|
  {
    if es != [] {
      var front := es[..|es| - 1];
      CallbacksRemoveEntries(s, front, limits);
      RunsAreSane(s, front);
      CallbacksRemoveStep(After(s, front), es[|es| - 1]);
    }
  }

  // ---- the wait after the pass ----

  // What the wait starts from: every entry is a run whose callback is still to come.
  ghost predicate Draining(s: State) {
    && Sane(s) && SupersededWait(s)
    && forall id ::
         id in s.active
         ==> s.active[id] in s.pending && s.active[id] in s.heap && s.heap[s.active[id]].status != Waiting
  }

  // In every reachable state, the pass leaves only runs that do not wait and whose callback is still
  // to come, if and only if every execution whose callback has run waits.
  lemma ShutdownStartsDrainingIff(s: State, es: seq<Event>, cancelAll: bool, order: seq<ExecutionId>,
                                  limits: map<QueueType, int>)
    requires Initial(s, limits) && WellBehaved(s, es) && Possible(After(s, es), Shutdown(cancelAll, order))
    ensures Draining(Next(After(s, es), Shutdown(cancelAll, order))) <==> CallbacksRemove(After(s, es))
  {
    var t := After(s, es);
    SupersededRunsWait(s, es, limits);
    SaneStep(t, Shutdown(cancelAll, order));
    WaitStep(t, Shutdown(cancelAll, order));
    ShutdownAddsNothing(t, cancelAll, order);
    forall id | id in t.active
      ensures DrainsAt(t, Next(t, Shutdown(cancelAll, order)), id)
    {
      ShutdownPartitions(t, cancelAll, order, id);
    }
    DrainingIff(t, Next(t, Shutdown(cancelAll, order)));
  }

  // What the pass makes of one entry.
  ghost predicate DrainsAt(t: State, t': State, id: ExecutionId) {
    id in t.active && t.active[id] in t.heap
    && (id in t'.active <==> t.heap[t.active[id]].status != Waiting)
    && (id in t'.active ==> t'.active[id] == t.active[id] && t.active[id] in t'.heap
                            && t'.heap[t.active[id]].status == t.heap[t.active[id]].status)
  }

  lemma DrainingIff(t: State, t': State)
    requires Sane(t) && Sane(t') && SupersededWait(t') && t'.pending == t.pending && t'.active.Keys <= t.active.Keys
    requires forall id :: id in t.active ==> DrainsAt(t, t', id)
    ensures Draining(t') <==> CallbacksRemove(t)
  {
  }

  // What happens during the wait: no run is inserted and none is set to `waiting`.
  predicate DrainStep(e: Event) {
    !e.Insert? && !e.Shutdown? && (e.SetStatus? ==> e.status != Waiting && e.status != New)
  }

  lemma DrainingSettle(s: State, run: Execution)
    requires Draining(s) && run in s.pending
    ensures var s' := SettleCallback(s, run);
            && (forall id :: id in s'.active ==> id in s.active && s'.active[id] == s.active[id])
            && (forall id :: id in s.active ==> (id in s'.active <==> s.active[id] != run))
            && (forall id :: id in s'.active ==> s'.heap[s'.active[id]].status != Waiting)
  {
  }

  lemma DrainingOther(s: State, e: Event)
    requires Draining(s) && DrainStep(e) && !e.Settle?
    ensures var s' := Next(s, e);
            && s'.active == s.active && s'.pending == s.pending
            && forall id :: id in s'.active ==> s'.heap[s'.active[id]].status != Waiting
  {
    if Possible(s, e) && e.Stop? {
      DrainingStop(s, e.id);
    } else if Possible(s, e) && (e.AttachWorkflow? || e.AttachResponse?) {
      DrainingAttach(s, e);
    } else if Possible(s, e) && (e.SetStatus? || e.Finalize?) {
      DrainingStatus(s, e);
    } else {
      DrainingQueue(s, e);
    }
  }

  lemma DrainingStop(s: State, id: ExecutionId)
    requires Draining(s)
    ensures var s' := StopEntry(s, id);
            && s'.active == s.active && s'.pending == s.pending
            && forall id :: id in s'.active ==> s'.heap[s'.active[id]].status != Waiting
  {
  }

  lemma DrainingAttach(s: State, e: Event)
    requires Draining(s) && (e.AttachWorkflow? || e.AttachResponse?)
    ensures var s' := Next(s, e);
            && s'.active == s.active && s'.pending == s.pending
            && forall id :: id in s'.active ==> s'.heap[s'.active[id]].status != Waiting
  {
  }

  lemma DrainingStatus(s: State, e: Event)
    requires Draining(s) && DrainStep(e) && (e.SetStatus? || e.Finalize?)
    ensures var s' := Next(s, e);
            && s'.active == s.active && s'.pending == s.pending
            && forall id :: id in s'.active ==> s'.heap[s'.active[id]].status != Waiting
  {
  }

  lemma DrainingQueue(s: State, e: Event)
    requires Draining(s) && DrainStep(e) && !e.Settle? && (e.Stop? ==> !Possible(s, e))
    requires e.AttachWorkflow? || e.AttachResponse? || e.SetStatus? || e.Finalize? ==> !Possible(s, e)
    ensures Next(s, e).active == s.active && Next(s, e).pending == s.pending && Next(s, e).heap == s.heap
  {
  }

  // Each step of the wait keeps the state draining and removes exactly the entry of the run whose
  // callback runs.
  lemma DrainingStep(s: State, e: Event)
    requires Draining(s) && DrainStep(e)
    ensures Draining(Next(s, e))
    ensures forall id :: id in Next(s, e).active ==> id in s.active && Next(s, e).active[id] == s.active[id]
    ensures forall id ::
              id in s.active ==> (id in Next(s, e).active <==> !(Possible(s, e) && e == Settle(s.active[id])))
    ensures Next(s, e).pending == if Possible(s, e) && e.Settle? then s.pending - {e.run} else s.pending
  {
    SaneStep(s, e);
    WaitStep(s, e);
    if e.Settle? {
      if Possible(s, e) {
        DrainingSettle(s, e.run);
      }
    } else {
      DrainingOther(s, e);
    }
  }

  ghost predicate DrainSteps(es: seq<Event>) {
    forall i :: 0 <= i < |es| ==> DrainStep(es[i])
  }

  // If no execution starts to wait, the map only shrinks and an entry is left exactly as long as the
  // callback of its run is: the wait ends, with the map empty, exactly when the last of them ran.
  lemma {:induction false} CallbacksEndWait(s: State, es: seq<Event>)
    requires Draining(s) && DrainSteps(es)
    ensures var t := After(s, es);
            && Draining(t)
            && (forall id :: id in t.active ==> id in s.active && t.active[id] == s.active[id])
            && (forall id :: id in s.active ==> (id in t.active <==> s.active[id] in t.pending))
    ensures After(s, es).active == map[] <==> forall id :: id in s.active ==> s.active[id] !in After(s, es).pending
    decreases |es|
  {
    if es != [] {
      var front := es[..|es| - 1];
      CallbacksEndWait(s, front);
      DrainingStep(After(s, front), es[|es| - 1]);
    }
    EmptyIff(s.active, After(s, es).active, After(s, es).pending);
  }

  lemma EmptyIff(before: map<ExecutionId, Execution>, after: map<ExecutionId, Execution>, pending: set<Execution>)
    requires forall id :: id in after ==> id in before && after[id] == before[id]
    requires forall id :: id in before ==> (id in after <==> before[id] in pending)
    ensures after == map[] <==> forall id :: id in before ==> before[id] !in pending
  {
  }

  // The wait can always end: finalizing each remaining execution and running its callback does it.
  lemma {:induction false} WaitCanEnd(s: State) returns (es: seq<Event>)
    requires Draining(s)
    ensures DrainSteps(es) && After(s, es).active == map[]
    decreases |s.active|
  {
    es := [];
    if s.active != map[] {
      var id :| id in s.active;
      var s2 := EntryCanEnd(s, id);
      var rest := WaitCanEnd(s2);
      es := [Finalize(id), Settle(s.active[id])] + rest;
      EmptiesAfter(s, Finalize(id), Settle(s.active[id]), rest);
    }
  }

  lemma EmptiesAfter(s: State, a: Event, b: Event, rest: seq<Event>)
    requires DrainStep(a) && DrainStep(b) && DrainSteps(rest) && After(Next(Next(s, a), b), rest).active == map[]
    ensures DrainSteps([a, b] + rest) && After(s, [a, b] + rest).active == map[]
  {
    AfterPrefix(s, a, b, rest);
  }

  lemma EntryCanEnd(s: State, id: ExecutionId) returns (s2: State)
    requires Draining(s) && id in s.active
    ensures s2 == Next(Next(s, Finalize(id)), Settle(s.active[id]))
    ensures Draining(s2) && |s2.active| < |s.active|
  {
    var run := s.active[id];
    var s1 := Next(s, Finalize(id));
    DrainingStep(s, Finalize(id));
    Finalized(s, id);
    s2 := Next(s1, Settle(run));
    DrainingStep(s1, Settle(run));
    SmallerMap(s2.active, s.active, id);
  }

  lemma Finalized(s: State, id: ExecutionId)
    requires Draining(s) && id in s.active
    ensures var s1 := Next(s, Finalize(id)); s1.active == s.active && Possible(s1, Settle(s.active[id]))
  {
  }

  lemma SmallerMap(m: map<ExecutionId, Execution>, m0: map<ExecutionId, Execution>, id: ExecutionId)
    requires id in m0 && m.Keys <= m0.Keys - {id}
    ensures |m| < |m0|
  {
    assert |m0.Keys - {id}| == |m0.Keys| - 1;
    SubsetSize(m.Keys, m0.Keys - {id});
  }

  lemma {:induction false} AfterPrefix(s: State, a: Event, b: Event, es: seq<Event>)
    ensures After(s, [a, b] + es) == After(Next(Next(s, a), b), es)
    decreases |es|
  {
    if es == [] {
      assert [a, b] + es == [a, b] && [a, b][..1] == [a] && [a][..0] == [];
      assert After(s, [a]) == Next(s, a);
    } else {
      AfterPrefix(s, a, b, es[..|es| - 1]);
      assert ([a, b] + es)[..|[a, b] + es| - 1] == [a, b] + es[..|es| - 1];
    }
  }

  // ---- when an entry goes, in any run ----

  // The step takes away the entry of `id`: it stops a waiting execution, it runs the callback of one
  // that does not wait, or it is a shutdown pass that meets a waiting one.
  ghost predicate Ends(s: State, e: Event, id: ExecutionId) {
    && id in s.active && s.active[id] in s.heap
    && match e
       case Stop(i) => i == id && s.heap[s.active[id]].status == Waiting
       case Settle(run) => Possible(s, e) && run == s.active[id] && s.heap[run].status != Waiting
       case Shutdown(_, _) => Possible(s, e) && s.heap[s.active[id]].status == Waiting
       case _ => false
  }

  ghost predicate Admits(s: State, e: Event, id: ExecutionId) {
    e.Insert? && Possible(s, e) && s.adds[e.ticket].id == id
  }

  // An entry goes in exactly these steps.
  lemma EntryGoesIff(s: State, e: Event, id: ExecutionId)
    requires Sane(s) && SupersededWait(s) && id in s.active
    ensures id !in Next(s, e).active <==> Ends(s, e, id)
  {
    if Possible(s, e) {
      if e.Shutdown? {
        ShutdownPartitions(s, e.cancelAll, e.order, id);
      } else if e.Settle? {
        SettleTakesIff(s, e.run, id);
      } else {
        OthersKeepEntry(s, e, id);
      }
    }
  }

  lemma SettleTakesIff(s: State, run: Execution, id: ExecutionId)
    requires Sane(s) && SupersededWait(s) && id in s.active && run in s.pending
    ensures id !in SettleCallback(s, run).active <==> run == s.active[id] && s.heap[run].status != Waiting
  {
    if s.heap[run].id == id && run != s.active[id] {
      assert !Current(s, run);
    }
  }

  lemma OthersKeepEntry(s: State, e: Event, id: ExecutionId)
    requires Sane(s) && id in s.active && Possible(s, e) && !e.Shutdown? && !e.Settle?
    ensures id !in Next(s, e).active <==> e == Stop(id) && s.heap[s.active[id]].status == Waiting
  {
  }

  // An entry appears in exactly the steps that admit its execution.
  lemma EntryComesIff(s: State, e: Event, id: ExecutionId)
    requires Sane(s) && id !in s.active
    ensures id in Next(s, e).active <==> Admits(s, e, id)
  {
    if !ChangesQueues(e) {
      OtherStepsShrink(s, e);
    }
  }

  // Whether `id` has an entry after the run: the last step that ends or admits it decides.
  ghost predicate Lasts(s: State, es: seq<Event>, id: ExecutionId)
    decreases |es|
  {
    if es == [] then id in s.active
    else
      var before, e := After(s, es[..|es| - 1]), es[|es| - 1];
      !Ends(before, e, id) && (Admits(before, e, id) || Lasts(s, es[..|es| - 1], id))
  }

  // Over any well-behaved run, whatever is set, stopped, settled, resumed or shut down in it.
  lemma {:induction false} EntryLastsIff(s: State, es: seq<Event>, id: ExecutionId)
    requires Sane(s) && SupersededWait(s) && WellBehaved(s, es)
    ensures Sane(After(s, es)) && SupersededWait(After(s, es))
    ensures id in After(s, es).active <==> Lasts(s, es, id)
    decreases |es|
  {
    if es != [] {
      var front, last := es[..|es| - 1], es[|es| - 1];
      var before := After(s, front);
      EntryLastsIff(s, front, id);
      SaneStep(before, last);
      WaitStep(before, last);
      if id in before.active {
        EntryGoesIff(before, last, id);
      } else {
        EntryComesIff(before, last, id);
      }
    }
  }

  // So the wait after the pass ends exactly when the last step about each execution ended it.
  lemma WaitEndsIff(s: State, es: seq<Event>)
    requires Sane(s) && SupersededWait(s) && WellBehaved(s, es)
    ensures After(s, es).active == map[] <==> forall id :: !Lasts(s, es, id)
  {
    var left := After(s, es).active;
    if left == map[] {
      forall id
        ensures !Lasts(s, es, id)
      {
        EntryLastsIff(s, es, id);
      }
    } else {
      var id :| id in left;
      EntryLastsIff(s, es, id);
    }
  }

  // ---- executions that wait when their callback runs ----

  ghost predicate Parked(s: State, id: ExecutionId) {
    id in s.active && s.active[id] in s.heap && s.active[id] !in s.pending && s.heap[s.active[id]].status == Waiting
  }

  ghost predicate NeverAdmits(s: State, es: seq<Event>, id: ExecutionId) {
    es == [] || (NeverAdmits(s, es[..|es| - 1], id) && !Admits(After(s, es[..|es| - 1]), es[|es| - 1], id))
  }

  // The step stops the execution, or is another shutdown pass, which takes every waiting entry away.
  ghost predicate Unparks(s: State, e: Event, id: ExecutionId) {
    e == Stop(id) || (e.Shutdown? && Possible(s, e))
  }

  lemma ParkedStep(s: State, e: Event, id: ExecutionId)
    requires Sane(s) && SupersededWait(s) && Parked(s, id) && !Admits(s, e, id) && StatusWhileRunning(s, e)
    ensures if Unparks(s, e, id) then id !in Next(s, e).active else Parked(Next(s, e), id)
  {
    EntryGoesIff(s, e, id);
    if Possible(s, e) && e.Settle? {
      SettleSparesCurrent(s, e.run, s.active[id]);
    } else if !Unparks(s, e, id) {
      ParkedOther(s, e, id);
    }
  }

  lemma ParkedOther(s: State, e: Event, id: ExecutionId)
    requires Sane(s) && Parked(s, id) && !Admits(s, e, id) && StatusWhileRunning(s, e)
    requires !Unparks(s, e, id) && (e.Settle? ==> !Possible(s, e))
    ensures Parked(Next(s, e), id)
  {
    if Possible(s, e) {
      if e.Stop? {
        StopOther(s, e.id, id);
      } else if e.Unqueue? || e.AddNew? || e.AddExisting? || e.Insert? {
        ParkedAdmission(s, e, id);
      }
    }
  }

  lemma ParkedAdmission(s: State, e: Event, id: ExecutionId)
    requires Sane(s) && Parked(s, id) && !Admits(s, e, id) && Possible(s, e)
    requires e.Unqueue? || e.AddNew? || e.AddExisting? || e.Insert?
    ensures Parked(Next(s, e), id)
  {
  }

  lemma StopOther(s: State, other: ExecutionId, id: ExecutionId)
    requires EntriesMatch(s) && other != id && Parked(s, id)
    ensures Parked(StopEntry(s, other), id)
  {
  }

  ghost predicate UnparkedIn(s: State, es: seq<Event>, id: ExecutionId)
    decreases |es|
  {
    es != [] && (UnparkedIn(s, es[..|es| - 1], id) || Unparks(After(s, es[..|es| - 1]), es[|es| - 1], id))
  }

  // An execution that waited when its callback ran keeps its entry, and so keeps the wait from ending,
  // if and only if nothing stops it and no pass is made again: no callback will remove it, and its
  // promise settles no more.
  lemma {:induction false} ParkedUntilStopped(s: State, es: seq<Event>, id: ExecutionId)
    requires Sane(s) && SupersededWait(s) && Parked(s, id)
    requires WellBehaved(s, es) && Disciplined(s, es) && NeverAdmits(s, es, id)
    ensures Sane(After(s, es)) && SupersededWait(After(s, es))
    ensures if UnparkedIn(s, es, id) then id !in After(s, es).active else Parked(After(s, es), id)
    decreases |es|
  {
    if es != [] {
      var front, last := es[..|es| - 1], es[|es| - 1];
      var before := After(s, front);
      ParkedUntilStopped(s, front, id);
      SaneStep(before, last);
      WaitStep(before, last);
      assert After(s, es) == Next(before, last);
      if UnparkedIn(s, front, id) {
        EntryComesIff(before, last, id);
      } else {
        ParkedStep(before, last, id);
      }
    }
  }

  // Such an execution is reachable during the wait: a run that the pass left alone starts to wait, and its
  // callback runs.
  lemma ParkedRun(s: State, run: Execution, limits: map<QueueType, int>)
    requires Initial(s, limits)
    ensures var pass := [AddNew(0, 10, Webhook), Insert(0, run, 5), Shutdown(false, [10])];
            var t := After(s, pass);
            var wait := [SetStatus(10, Waiting), Finalize(10), Settle(run)];
            && WellBehaved(s, pass) && Draining(t)
            && WellBehaved(t, wait) && Disciplined(t, wait) && Parked(After(t, wait), 10)
  {
    var pass := PassLeavesRunning(s, run, limits);
    var wait := WaitParks(After(s, pass), run);
  }

  lemma PassLeavesRunning(s: State, run: Execution, limits: map<QueueType, int>) returns (es: seq<Event>)
    requires Initial(s, limits)
    ensures es == [AddNew(0, 10, Webhook), Insert(0, run, 5), Shutdown(false, [10])]
    ensures WellBehaved(s, es) && Draining(After(s, es))
    ensures Only(After(s, es), 10, run, Rec(10, Webhook, 5, Running, Pending, None, None))
  {
    var s1 := FirstAdmitted(s, 10, limits);
    var s2 := FirstInserted(s1, 10, run, 5);
    var s3 := PassSparesOnly(s2, run);
    es := ThreeSteps(s, AddNew(0, 10, Webhook), Insert(0, run, 5), Shutdown(false, [10]));
    assert After(s, es) == s3;
    SupersededRunsWait(s, es, limits);
    RunsAreSane(s, es);
  }

  lemma PassSparesOnly(s: State, run: Execution) returns (s': State)
    requires Only(s, 10, run, Rec(10, Webhook, 5, Running, Pending, None, None))
    ensures s' == Next(s, Shutdown(false, [10]))
    ensures Only(s', 10, run, Rec(10, Webhook, 5, Running, Pending, None, None))
  {
    s' := Next(s, Shutdown(false, [10]));
    assert [10][..0] == [];
    assert ShutdownEntries(DisableControl(s), false, [10]) == ShutdownEntry(DisableControl(s), false, 10);
  }

  lemma WaitParks(s: State, run: Execution) returns (es: seq<Event>)
    requires Only(s, 10, run, Rec(10, Webhook, 5, Running, Pending, None, None))
    ensures es == [SetStatus(10, Waiting), Finalize(10), Settle(run)]
    ensures WellBehaved(s, es) && Disciplined(s, es) && Parked(After(s, es), 10)
  {
    var s1 := StatusOfOnly(s, 10, run, Rec(10, Webhook, 5, Running, Pending, None, None), Waiting);
    es := ThreeSteps(s, SetStatus(10, Waiting), Finalize(10), Settle(run));
    SettledWhileWaiting(s1, run);
    DisciplinedOne(s, SetStatus(10, Waiting), Finalize(10), Settle(run));
  }

  lemma SettledWhileWaiting(s: State, run: Execution)
    requires Only(s, 10, run, Rec(10, Webhook, 5, Waiting, Pending, None, None))
    ensures Parked(Next(Next(s, Finalize(10)), Settle(run)), 10)
  {
    var s1 := Next(s, Finalize(10));
    assert Only(s1, 10, run, Rec(10, Webhook, 5, Waiting, Resolved, None, None));
    assert Possible(s1, Settle(run));
  }

  lemma DisciplinedOne(s: State, a: Event, b: Event, c: Event)
    requires StatusWhileRunning(s, a) && !b.SetStatus? && !c.SetStatus?
    ensures Disciplined(s, [a, b, c])
  {
    assert [a, b, c][..2] == [a, b] && [a, b][..1] == [a] && [a][..0] == [];
    assert After(s, []) == s && Disciplined(s, [a]) && Disciplined(s, [a, b]);
  }

  // ---- throttled calls once the limits are off ----

  lemma DisabledStep(s: State, e: Event, t: Ticket)
    requires !s.control.enabled && t in s.adds && !s.adds[t].granted
    ensures Next(s, e).control == s.control
    ensures t in Next(s, e).adds && Next(s, e).adds[t] == s.adds[t]
  {
    if e.Shutdown? {
      ShutdownFrozen(DisableControl(s), e.cancelAll, e.order);
    }
  }

  lemma {:induction false} ShutdownFrozen(s: State, cancelAll: bool, ids: seq<ExecutionId>)
    ensures ShutdownEntries(s, cancelAll, ids).control == s.control && ShutdownEntries(s, cancelAll, ids).adds == s.adds
    decreases |ids|
  {
    if ids != [] {
      ShutdownFrozen(s, cancelAll, ids[..|ids| - 1]);
    }
  }

  // Once the limits are off, as shutdown switches them in regular mode, a call that waits for its
  // turn never gets it, whatever runs end and whichever calls are to be taken out of the queue.
  lemma {:induction false} BlockedForever(s: State, es: seq<Event>, t: Ticket)
    requires !s.control.enabled && t in s.adds && !s.adds[t].granted
    ensures After(s, es).control == s.control
    ensures t in After(s, es).adds && After(s, es).adds[t] == s.adds[t]
    decreases |es|
  {
    if es != [] {
      var front := es[..|es| - 1];
      BlockedForever(s, front, t);
      DisabledStep(After(s, front), es[|es| - 1], t);
    }
  }
}
