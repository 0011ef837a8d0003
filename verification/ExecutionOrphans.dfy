// Slots that are never given back: a run that starts to wait and is stopped before its promise settles.
module ExecutionOrphans {
  import opened Wrappers
  import opened Concurrency
  import opened ExecutionLifecycle
  import opened ExecutionRuns
  import opened ExecutionSlots

  lemma {:induction false} AfterConcat(s: State, es: seq<Event>, more: seq<Event>)
    ensures After(s, es + more) == After(After(s, es), more)
    decreases |more|
  {
    if more == [] {
      assert es + more == es;
    } else {
      AfterConcat(s, es, more[..|more| - 1]);
      assert (es + more)[..|es + more| - 1] == es + more[..|more| - 1];
    }
  }

  // The runs in `hs` are orphans that hold slots of `q`.
  ghost predicate OrphansOf(s: State, hs: set<Execution>, q: QueueType) {
    forall h :: h in hs ==> Orphan(s, h) && QueueOf(s.heap[h].mode) == Some(q)
  }

  lemma OrphansAreHeld(s: State, hs: set<Execution>, q: QueueType)
    requires OrphansOf(s, hs, q)
    ensures Held(s, q) >= |hs|
  {
    SubsetSize(hs, HeldRuns(s.heap, s.pending, q));
  }

  lemma {:induction false} OrphanKeepsMode(s: State, es: seq<Event>, h: Execution)
    requires Sane(s) && Orphan(s, h)
    ensures Orphan(After(s, es), h) && After(s, es).heap[h].mode == s.heap[h].mode
    decreases |es|
  {
    OrphanForever(s, es, h);
    if es != [] {
      var front := es[..|es| - 1];
      OrphanKeepsMode(s, front, h);
      ModeStep(After(s, front), es[|es| - 1], h);
    }
  }

  lemma ModeStep(s: State, e: Event, h: Execution)
    requires h in s.heap
    ensures h in Next(s, e).heap && Next(s, e).heap[h].mode == s.heap[h].mode
  {
    if !ChangesQueues(e) {
      OtherStepsShrink(s, e);
    }
  }

  // Orphans take their slots in every continuation. As long as the limits are on: once there are as many
  // as the limit allows, every further call of the queue has to wait, whatever ends; and unless one
  // waiting call is taken out while another waits, nothing but them is then let through.
  lemma OrphansTakeSlots(s: State, es: seq<Event>, more: seq<Event>, hs: set<Execution>, q: QueueType,
                         limits: map<QueueType, int>)
    requires Initial(s, limits) && q in limits && OrphansOf(After(s, es), hs, q)
    ensures var t := After(s, es + more);
            && OrphansOf(t, hs, q) && Held(t, q) >= |hs|
            && (t.control.enabled && |hs| >= limits[q] ==>
                  forall mode :: QueueOf(mode) == Some(q) ==> Blocks(t.control, mode))
            && (t.control.enabled && NeverSkips(s, es + more, q) ==> |hs| <= Held(t, q) <= limits[q])
  {
    var t := After(s, es + more);
    SlotsAreConserved(s, es, limits);
    SlotsAreConserved(s, es + more, limits);
    AfterConcat(s, es, more);
    forall h | h in hs
      ensures Orphan(t, h) && QueueOf(t.heap[h].mode) == Some(q)
    {
      OrphanKeepsMode(After(s, es), more, h);
    }
    OrphansAreHeld(t, hs, q);
    if t.control.enabled {
      assert Accounted(t, q, limits[q]);
      if NeverSkips(s, es + more, q) {
        LimitHolds(s, es + more, q, limits);
      }
    }
  }

  // A state with an orphan is reachable: one webhook execution that is admitted, starts to wait and is
  // stopped before its promise settles.
  lemma OrphanReached(s: State, run: Execution, limits: map<QueueType, int>) returns (es: seq<Event>)
    requires Initial(s, limits)
    ensures es == [AddNew(0, 10, Webhook), Insert(0, run, 5), SetStatus(10, Waiting), Stop(10)]
    ensures WellBehaved(s, es) && OrphansOf(After(s, es), {run}, Production)
  {
    var s1 := FirstAdmitted(s, 10, limits);
    var s2 := FirstInserted(s1, 10, run, 5);
    var s3 := StatusOfOnly(s2, 10, run, Rec(10, Webhook, 5, Running, Pending, None, None), Waiting);
    StoppedWhileWaiting(s3, run);
    es := FourSteps(s, AddNew(0, 10, Webhook), Insert(0, run, 5), SetStatus(10, Waiting), Stop(10));
  }

  lemma StoppedWhileWaiting(s: State, run: Execution)
    requires Only(s, 10, run, Rec(10, Webhook, 5, Waiting, Pending, None, None))
    ensures OrphansOf(Next(s, Stop(10)), {run}, Production)
  {
  }

  lemma FourSteps(s: State, a: Event, b: Event, c: Event, d: Event) returns (es: seq<Event>)
    requires NeverNew(a) && NeverNew(b) && NeverNew(c) && NeverNew(d)
    requires !a.Insert? && !c.Insert? && !d.Insert? && ResumesOnlyWaiting(Next(s, a), b)
    ensures es == [a, b, c, d] && WellBehaved(s, es) && After(s, es) == Next(Next(Next(Next(s, a), b), c), d)
  {
    var front := ThreeSteps(s, a, b, c);
    es := front + [d];
    MoreWellBehaved(s, front, d);
  }

  // Under a limit of one, every further call of the queue then waits as long as the limits are on.
  lemma OrphanRun(s: State, run: Execution, more: seq<Event>)
    requires Initial(s, map[Production := 1]) && s.control.enabled
    ensures var es := [AddNew(0, 10, Webhook), Insert(0, run, 5), SetStatus(10, Waiting), Stop(10)];
            && WellBehaved(s, es) && OrphansOf(After(s, es), {run}, Production)
            && Held(After(s, es + more), Production) >= 1
            && (After(s, es + more).control.enabled ==> Blocks(After(s, es + more).control, Webhook))
  {
    var es := OrphanReached(s, run, map[Production := 1]);
    OrphansTakeSlots(s, es, more, {run}, Production, map[Production := 1]);
  }
}
