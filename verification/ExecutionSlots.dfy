// Concurrency slots over whole runs: none is lost or granted twice, and when the limit holds.
module ExecutionSlots {
  import opened Wrappers
  import opened Concurrency
  import opened ExecutionLifecycle

  // Calls that passed the throttle and have not inserted their record.
  ghost function HeldAdds(adds: map<Ticket, Admission>, q: QueueType): set<Ticket> {
    set t | t in adds && adds[t].granted && QueueOf(adds[t].mode) == Some(q)
  }

  // Runs whose settle callback has not run.
  ghost function HeldRuns(heap: map<Execution, Rec>, pending: set<Execution>, q: QueueType): set<Execution> {
    set h | h in pending && h in heap && QueueOf(heap[h].mode) == Some(q)
  }

  ghost function Held(s: State, q: QueueType): nat {
    |HeldAdds(s.adds, q)| + |HeldRuns(s.heap, s.pending, q)|
  }

  // The queue's arithmetic accounts for every slot.
  ghost predicate Balanced(s: State, limits: map<QueueType, int>) {
    && s.control.queues.Keys == limits.Keys
    && (s.control.enabled ==> forall q :: q in limits ==> Accounted(s, q, limits[q]))
  }

  ghost predicate Accounted(s: State, q: QueueType, limit: int)
    requires q in s.control.queues
  {
    Ledger(s.control.queues[q], Held(s, q), limit)
  }

  // Free, waiting and held slots make up the limit, and calls wait only while capacity is missing.
  predicate Ledger(queue: Queue, held: int, limit: int) {
    && queue.capacity + |queue.waiting| + held == limit
    && |queue.waiting| <= Missing(queue)
  }

  function Missing(queue: Queue): nat {
    if queue.capacity < 0 then -queue.capacity else 0
  }

  function One(b: bool): nat {
    if b then 1 else 0
  }

  lemma LedgerEnqueue(queue: Queue, w: Waiter, held: int, limit: int)
    requires Ledger(queue, held, limit)
    ensures Ledger(Enqueue(queue, w), held + One(queue.capacity - 1 >= 0), limit)
  {
  }

  lemma LedgerDequeue(queue: Queue, held: int, limit: int)
    requires Ledger(queue, held, limit)
    ensures Ledger(Dequeue(queue).queue, held - 1 + One(Dequeue(queue).resolved.Some?), limit)
  {
  }

  lemma LedgerRemove(queue: Queue, id: ExecutionId, held: int, limit: int)
    requires Ledger(queue, held, limit)
    ensures Ledger(Remove(queue, id).queue, held + One(Remove(queue, id).resolved.Some?), limit)
  {
  }

  // ---- counting ----

  lemma CountAdd(adds: map<Ticket, Admission>, t: Ticket, a: Admission, q: QueueType)
    requires t !in adds
    ensures |HeldAdds(adds[t := a], q)| == |HeldAdds(adds, q)| + One(a.granted && QueueOf(a.mode) == Some(q))
  {
    if a.granted && QueueOf(a.mode) == Some(q) {
      assert HeldAdds(adds[t := a], q) == HeldAdds(adds, q) + {t};
    } else {
      assert HeldAdds(adds[t := a], q) == HeldAdds(adds, q);
    }
  }

  lemma CountRemove(adds: map<Ticket, Admission>, t: Ticket, q: QueueType)
    requires t in adds
    ensures |HeldAdds(adds - {t}, q)| == |HeldAdds(adds, q)| - One(adds[t].granted && QueueOf(adds[t].mode) == Some(q))
  {
    if adds[t].granted && QueueOf(adds[t].mode) == Some(q) {
      assert HeldAdds(adds - {t}, q) == HeldAdds(adds, q) - {t};
    } else {
      assert HeldAdds(adds - {t}, q) == HeldAdds(adds, q);
    }
  }

  lemma CountGrant(adds: map<Ticket, Admission>, w: Option<Waiter>, q: QueueType)
    requires w.Some? ==> w.value.ticket in adds && !adds[w.value.ticket].granted
    ensures |HeldAdds(Grant(adds, w), q)|
         == |HeldAdds(adds, q)| + One(w.Some? && QueueOf(adds[w.value.ticket].mode) == Some(q))
  {
    if w.Some? && QueueOf(adds[w.value.ticket].mode) == Some(q) {
      assert HeldAdds(Grant(adds, w), q) == HeldAdds(adds, q) + {w.value.ticket};
    } else {
      assert HeldAdds(Grant(adds, w), q) == HeldAdds(adds, q);
    }
  }

  lemma CountRuns(heap: map<Execution, Rec>, pending: set<Execution>, run: Execution, q: QueueType)
    requires run in pending && run in heap
    ensures |HeldRuns(heap, pending - {run}, q)|
         == |HeldRuns(heap, pending, q)| - One(QueueOf(heap[run].mode) == Some(q))
  {
    if QueueOf(heap[run].mode) == Some(q) {
      assert HeldRuns(heap, pending - {run}, q) == HeldRuns(heap, pending, q) - {run};
    } else {
      assert HeldRuns(heap, pending - {run}, q) == HeldRuns(heap, pending, q);
    }
  }

  lemma CountNewRun(heap: map<Execution, Rec>, pending: set<Execution>, run: Execution, rec: Rec, q: QueueType)
    requires run !in heap && run !in pending
    ensures |HeldRuns(heap[run := rec], pending + {run}, q)|
         == |HeldRuns(heap, pending, q)| + One(QueueOf(rec.mode) == Some(q))
  {
    var after := HeldRuns(heap[run := rec], pending + {run}, q);
    if QueueOf(rec.mode) == Some(q) {
      assert after == HeldRuns(heap, pending, q) + {run};
    } else {
      assert after == HeldRuns(heap, pending, q);
    }
  }

  lemma CountSame(heap: map<Execution, Rec>, heap': map<Execution, Rec>, pending: set<Execution>, q: QueueType)
    requires heap'.Keys == heap.Keys && forall h :: h in heap ==> heap'[h].mode == heap[h].mode
    ensures HeldRuns(heap', pending, q) == HeldRuns(heap, pending, q)
  {
  }

  // ---- every step keeps the balance ----

  lemma BalancedBegin(s: State, ticket: Ticket, id: ExecutionId, mode: Mode, limits: map<QueueType, int>)
    requires Sane(s) && Balanced(s, limits) && ticket !in s.adds
    ensures Balanced(Begin(s, ticket, id, mode, true), limits)
  {
    var s' := Begin(s, ticket, id, mode, true);
    forall q | q in limits && s.control.enabled
      ensures Accounted(s', q, limits[q])
    {
      assert Accounted(s, q, limits[q]);
      CountAdd(s.adds, ticket, s'.adds[ticket], q);
      ThrottledQueue(s.control, mode, Waiter(id, ticket), q);
      LedgerEnqueue(s.control.queues[q], Waiter(id, ticket), Held(s, q), limits[q]);
    }
  }

  lemma BalancedInsert(s: State, ticket: Ticket, run: Execution, now: Time, limits: map<QueueType, int>)
    requires Sane(s) && Balanced(s, limits) && ticket in s.adds && s.adds[ticket].granted && run !in s.heap
    ensures Balanced(InsertRecord(s, ticket, run, now), limits)
  {
    var s' := InsertRecord(s, ticket, run, now);
    forall q | q in limits && s.control.enabled
      ensures Accounted(s', q, limits[q])
    {
      assert Accounted(s, q, limits[q]);
      CountRemove(s.adds, ticket, q);
      CountNewRun(s.heap, s.pending, run, s'.heap[run], q);
    }
  }

  lemma BalancedSettle(s: State, run: Execution, limits: map<QueueType, int>)
    requires Sane(s) && Balanced(s, limits) && run in s.heap && run in s.pending
    ensures Balanced(SettleCallback(s, run), limits)
  {
    var s' := SettleCallback(s, run);
    forall q | q in limits && s.control.enabled
      ensures Accounted(s', q, limits[q])
    {
      assert Accounted(s, q, limits[q]);
      SettleAccounted(s, run, q, limits[q]);
    }
    ReleasedKeys(s.control, s.heap[run].mode);
  }

  lemma ReleasedKeys(c: Control, mode: Mode)
    ensures Released(c, mode).control.queues.Keys == c.queues.Keys && Released(c, mode).control.enabled == c.enabled
  {
  }

  lemma SettleAccounted(s: State, run: Execution, q: QueueType, limit: int)
    requires Sane(s) && run in s.heap && run in s.pending && s.control.enabled
    requires q in s.control.queues && Accounted(s, q, limit)
    ensures Accounted(SettleCallback(s, run), q, limit)
  {
    var mode, queue := s.heap[run].mode, s.control.queues[q];
    HeldAfterSettle(s, run, q);
    ReleasedQueue(s.control, mode, q);
    LedgerDequeue(queue, Held(s, q), limit);
  }

  lemma ReleasedQueue(c: Control, mode: Mode, q: QueueType)
    requires c.enabled && q in c.queues
    ensures q in Released(c, mode).control.queues
    ensures Released(c, mode).control.queues[q]
            == if QueueOf(mode) == Some(q) then Dequeue(c.queues[q]).queue else c.queues[q]
    ensures QueueOf(mode) == Some(q) ==> Released(c, mode).resolved == Dequeue(c.queues[q]).resolved
  {
  }

  lemma RemovedQueue(c: Control, mode: Mode, id: ExecutionId, q: QueueType)
    requires c.enabled && q in c.queues
    ensures q in Removed(c, mode, id).control.queues
    ensures Removed(c, mode, id).control.queues[q]
            == if QueueOf(mode) == Some(q) then Remove(c.queues[q], id).queue else c.queues[q]
    ensures QueueOf(mode) == Some(q) ==> Removed(c, mode, id).resolved == Remove(c.queues[q], id).resolved
  {
  }

  lemma ThrottledQueue(c: Control, mode: Mode, w: Waiter, q: QueueType)
    requires c.enabled && q in c.queues
    ensures q in Throttled(c, mode, w).queues
    ensures Throttled(c, mode, w).queues[q] == if QueueOf(mode) == Some(q) then Enqueue(c.queues[q], w) else c.queues[q]
    ensures QueueOf(mode) == Some(q) ==> Blocks(c, mode) == (c.queues[q].capacity - 1 < 0)
  {
  }

  lemma HeldAfterSettle(s: State, run: Execution, q: QueueType)
    requires Sane(s) && run in s.heap && run in s.pending
    ensures var mode := s.heap[run].mode;
            Held(SettleCallback(s, run), q)
            == Held(s, q) - One(QueueOf(mode) == Some(q))
             + One(QueueOf(mode) == Some(q) && Released(s.control, mode).resolved.Some?)
  {
    ResolvedIsBlocked(s, s.heap[run].mode);
    CountGrant(s.adds, Released(s.control, s.heap[run].mode).resolved, q);
    HeldRunsAfterSettle(s, run, q);
  }

  lemma HeldRunsAfterSettle(s: State, run: Execution, q: QueueType)
    requires run in s.heap && run in s.pending
    ensures var s' := SettleCallback(s, run);
            |HeldRuns(s'.heap, s'.pending, q)|
            == |HeldRuns(s.heap, s.pending, q)| - One(QueueOf(s.heap[run].mode) == Some(q))
  {
    CountRuns(s.heap, s.pending, run, q);
    CountSame(s.heap, SettleCallback(s, run).heap, s.pending - {run}, q);
  }

  // The call that a release lets through was waiting in the queue of that mode.
  lemma ResolvedIsBlocked(s: State, mode: Mode)
    requires Sane(s)
    ensures var w := Released(s.control, mode).resolved;
            w.Some? ==> w.value.ticket in s.adds && !s.adds[w.value.ticket].granted
                        && QueueOf(s.adds[w.value.ticket].mode) == QueueOf(mode)
  {
  }

  lemma BalancedUnqueue(s: State, id: ExecutionId, mode: Mode, limits: map<QueueType, int>)
    requires Sane(s) && Balanced(s, limits)
    ensures Balanced(UnqueueCall(s, id, mode), limits)
  {
    if UnqueueCall(s, id, mode) != s {
      forall q | q in limits && s.control.enabled
        ensures Accounted(UnqueueCall(s, id, mode), q, limits[q])
      {
        assert Accounted(s, q, limits[q]);
        UnqueueAccounted(s, id, mode, q, limits[q]);
      }
    }
  }

  lemma UnqueueAccounted(s: State, id: ExecutionId, mode: Mode, q: QueueType, limit: int)
    requires Sane(s) && UnqueueCall(s, id, mode) != s && s.control.enabled
    requires q in s.control.queues && Accounted(s, q, limit)
    ensures Accounted(UnqueueCall(s, id, mode), q, limit)
  {
    HeldAfterUnqueue(s, id, mode, q);
    RemovedQueue(s.control, mode, id, q);
    LedgerRemove(s.control.queues[q], id, Held(s, q), limit);
  }

  lemma HeldAfterUnqueue(s: State, id: ExecutionId, mode: Mode, q: QueueType)
    requires Sane(s) && UnqueueCall(s, id, mode) != s
    ensures Held(UnqueueCall(s, id, mode), q)
         == Held(s, q) + One(QueueOf(mode) == Some(q) && Removed(s.control, mode, id).resolved.Some?)
  {
    var q0 := QueueOf(mode).value;
    var ws := s.control.queues[q0].waiting;
    var i := IndexOf(ws, id);
    var w := Removed(s.control, mode, id).resolved;
    assert WaitersMatch(s.adds, ws, q0);
    if w.Some? {
      assert w.value == (ws[..i] + ws[i + 1..])[0];
    }
    CountRemove(s.adds, ws[i].ticket, q);
    CountGrant(s.adds - {ws[i].ticket}, w, q);
  }

  lemma BalancedStep(s: State, e: Event, limits: map<QueueType, int>)
    requires Sane(s) && Balanced(s, limits)
    ensures Balanced(Next(s, e), limits)
  {
    if !ChangesQueues(e) {
      OtherStepsShrink(s, e);
      forall q | q in limits
        ensures HeldRuns(Next(s, e).heap, Next(s, e).pending, q) == HeldRuns(s.heap, s.pending, q)
      {
        CountSame(s.heap, Next(s, e).heap, s.pending, q);
      }
    } else if Possible(s, e) {
      match e
      case AddNew(ticket, id, mode) => if s.regular { BalancedBegin(s, ticket, id, mode, limits); }
      case AddExisting(ticket, id, mode) => BalancedBegin(s, ticket, id, mode, limits);
      case Insert(ticket, run, now) => BalancedInsert(s, ticket, run, now, limits);
      case Settle(run) => BalancedSettle(s, run, limits);
      case Unqueue(id, mode) => BalancedUnqueue(s, id, mode, limits);
      case _ =>
    }
  }

  // In every reachable state with the limits enabled, each queue's capacity is its limit less
  // the waiting calls, the calls between throttle and insertion, and the runs whose settle
  // callback has not run: every slot taken is given back exactly once per callback, however
  // often a run is stopped or finalized.
  lemma {:induction false} SlotsAreConserved(s: State, es: seq<Event>, limits: map<QueueType, int>)
    requires Initial(s, limits)
    ensures Sane(After(s, es)) && Balanced(After(s, es), limits)
  {
    if es == [] {
      forall q | q in limits
        ensures Accounted(s, q, limits[q])
      {
        assert HeldAdds(s.adds, q) == {} && HeldRuns(s.heap, s.pending, q) == {};
      }
    } else {
      SlotsAreConserved(s, es[..|es| - 1], limits);
      SaneStep(After(s, es[..|es| - 1]), es[|es| - 1]);
      BalancedStep(After(s, es[..|es| - 1]), es[|es| - 1], limits);
    }
  }

  // In every reachable state with the limits on, a call has to wait if and only if the executions of its
  // queue that run or wait already make up the limit.
  lemma BlockedIff(s: State, es: seq<Event>, mode: Mode, q: QueueType, limits: map<QueueType, int>)
    requires Initial(s, limits) && q in limits && After(s, es).control.enabled && QueueOf(mode) == Some(q)
    ensures var t := After(s, es);
            q in t.control.queues
            && (Blocks(t.control, mode) <==> Held(t, q) + |t.control.queues[q].waiting| >= limits[q])
  {
    SlotsAreConserved(s, es, limits);
    assert Accounted(After(s, es), q, limits[q]);
  }

  // ---- the limit ----

  // How far the waiting list falls short of the missing capacity.
  function Excess(c: Control, q: QueueType): int {
    if q in c.queues then Missing(c.queues[q]) - |c.queues[q].waiting| else 0
  }

  // A queue runs more executions than its limit exactly when it has an excess.
  lemma OverLimitIff(s: State, q: QueueType, limit: int)
    requires q in s.control.queues && Accounted(s, q, limit)
    ensures Held(s, q) > limit <==> Excess(s.control, q) > 0
    ensures Excess(s.control, q) > 0 ==> Held(s, q) == limit + Excess(s.control, q)
  {
  }

  // The step takes a waiting call out of queue `q` while another one waits too.
  ghost predicate SkipsQueue(s: State, e: Event, q: QueueType) {
    && e.Unqueue? && Limited(s.control, e.mode) && QueueOf(e.mode) == Some(q)
    && |s.control.queues[q].waiting| > 1
    && IndexOf(s.control.queues[q].waiting, e.id) < |s.control.queues[q].waiting|
  }

  lemma EnqueueExcess(queue: Queue, w: Waiter)
    requires |queue.waiting| <= Missing(queue)
    ensures var q' := Enqueue(queue, w); Missing(q') - |q'.waiting| == Missing(queue) - |queue.waiting|
  {
  }

  lemma RemoveExcess(queue: Queue, id: ExecutionId)
    requires |queue.waiting| <= Missing(queue)
    ensures var q' := Remove(queue, id).queue;
            var skips := |queue.waiting| > 1 && IndexOf(queue.waiting, id) < |queue.waiting|;
            Missing(q') - |q'.waiting| == Missing(queue) - |queue.waiting| + One(skips)
  {
  }

  // The excess of a queue grows in exactly the steps that take one waiting call out while
  // another waits, and then by one.
  lemma ExcessGrowsIff(s: State, e: Event, q: QueueType, limits: map<QueueType, int>)
    requires Balanced(s, limits) && q in limits && s.control.enabled
    ensures Excess(Next(s, e).control, q) > Excess(s.control, q) <==> SkipsQueue(s, e, q)
    ensures Excess(Next(s, e).control, q) <= Excess(s.control, q) + 1
  {
    assert Accounted(s, q, limits[q]);
    QueueAfterStep(s, e, q);
  }

  // What one step does to the excess of one queue.
  lemma QueueAfterStep(s: State, e: Event, q: QueueType)
    requires s.control.enabled && q in s.control.queues
    requires |s.control.queues[q].waiting| <= Missing(s.control.queues[q])
    ensures q in Next(s, e).control.queues
    ensures Excess(Next(s, e).control, q) <= Excess(s.control, q) + One(SkipsQueue(s, e, q))
    ensures SkipsQueue(s, e, q) ==> Excess(Next(s, e).control, q) == Excess(s.control, q) + 1
  {
    if e.Unqueue? {
      ExcessAfterUnqueue(s, e.id, e.mode, q);
    } else {
      ControlAfterStep(s, e);
      if e.Settle? && Possible(s, e) {
        ExcessAfterRelease(s.control, s.heap[e.run].mode, q);
      } else if e.AddNew? || e.AddExisting? {
        ExcessAfterThrottle(s.control, e.mode, Waiter(e.id, e.ticket), q);
      }
    }
  }

  // Which steps change the queues, and how.
  lemma ControlAfterStep(s: State, e: Event)
    requires !e.Unqueue?
    ensures var c := Next(s, e).control;
            if e.Settle? && Possible(s, e) then c == Released(s.control, s.heap[e.run].mode).control
            else if e.AddNew? || e.AddExisting? then
              c == s.control || c == Throttled(s.control, e.mode, Waiter(e.id, e.ticket))
            else c.queues == s.control.queues
  {
    if !ChangesQueues(e) {
      OtherStepsShrink(s, e);
    }
  }

  lemma ExcessAfterRelease(c: Control, mode: Mode, q: QueueType)
    requires c.enabled && q in c.queues && |c.queues[q].waiting| <= Missing(c.queues[q])
    ensures q in Released(c, mode).control.queues && Excess(Released(c, mode).control, q) <= Excess(c, q)
  {
    ReleasedQueue(c, mode, q);
  }

  lemma ExcessAfterThrottle(c: Control, mode: Mode, w: Waiter, q: QueueType)
    requires c.enabled && q in c.queues && |c.queues[q].waiting| <= Missing(c.queues[q])
    ensures q in Throttled(c, mode, w).queues && Excess(Throttled(c, mode, w), q) <= Excess(c, q)
  {
    ThrottledQueue(c, mode, w, q);
    EnqueueExcess(c.queues[q], w);
  }

  lemma ExcessAfterUnqueue(s: State, id: ExecutionId, mode: Mode, q: QueueType)
    requires s.control.enabled && q in s.control.queues
    requires |s.control.queues[q].waiting| <= Missing(s.control.queues[q])
    ensures q in UnqueueCall(s, id, mode).control.queues
    ensures Excess(UnqueueCall(s, id, mode).control, q)
         == Excess(s.control, q) + One(SkipsQueue(s, Unqueue(id, mode), q))
  {
    RemovedQueue(s.control, mode, id, q);
    RemoveExcess(s.control.queues[q], id);
  }

  // No step of the run takes a waiting call out of `q` while another waits.
  ghost predicate NeverSkips(s: State, es: seq<Event>, q: QueueType) {
    es == [] || (NeverSkips(s, es[..|es| - 1], q) && !SkipsQueue(After(s, es[..|es| - 1]), es[|es| - 1], q))
  }

  // As long as no waiting call is taken out while another waits, a queue never runs more
  // executions than its limit.
  lemma {:induction false} LimitHolds(s: State, es: seq<Event>, q: QueueType, limits: map<QueueType, int>)
    requires Initial(s, limits) && q in limits && After(s, es).control.enabled && NeverSkips(s, es, q)
    ensures Excess(After(s, es).control, q) <= 0 && Held(After(s, es), q) <= limits[q]
    decreases |es|
  {
    SlotsAreConserved(s, es, limits);
    assert Accounted(After(s, es), q, limits[q]);
    OverLimitIff(After(s, es), q, limits[q]);
    if es != [] {
      var front, last := es[..|es| - 1], es[|es| - 1];
      SlotsAreConserved(s, front, limits);
      EnabledBefore(After(s, front), last);
      LimitHolds(s, front, q, limits);
      ExcessGrowsIff(After(s, front), last, q, limits);
    }
  }

  // Nothing enables the limits again once they are off.
  lemma EnabledBefore(s: State, e: Event)
    ensures Next(s, e).control.enabled ==> s.control.enabled
  {
    if !ChangesQueues(e) {
      OtherStepsShrink(s, e);
    }
  }

  // A step takes a queue that is within its limit beyond it if and only if it takes a waiting
  // call out while another waits.
  lemma LimitExceededIff(s: State, e: Event, q: QueueType, limits: map<QueueType, int>)
    requires Sane(s) && Balanced(s, limits) && q in limits && Excess(s.control, q) == 0 && Next(s, e).control.enabled
    ensures Held(s, q) <= limits[q]
    ensures Held(Next(s, e), q) > limits[q] <==> SkipsQueue(s, e, q)
  {
    EnabledBefore(s, e);
    BalancedStep(s, e, limits);
    ExcessGrowsIff(s, e, q, limits);
    OverLimitIff(s, q, limits[q]);
    OverLimitIff(Next(s, e), q, limits[q]);
  }

  // Such a state is reachable: with a limit of one, three webhook calls and the removal of the
  // first waiting one leave two executions holding a slot.
  lemma LimitExceededRun(s: State)
    requires Initial(s, map[Production := 1]) && s.regular && s.control.enabled
    ensures var es := [AddNew(0, 10, Webhook), AddNew(1, 11, Webhook), AddNew(2, 12, Webhook), Unqueue(11, Webhook)];
            Held(After(s, es), Production) == 2
  {
    var es := [AddNew(0, 10, Webhook), AddNew(1, 11, Webhook), AddNew(2, 12, Webhook), Unqueue(11, Webhook)];
    var s1 := WebhookAdded(s, 0, 10, Queue(1, []));
    var s2 := WebhookAdded(s1, 1, 11, Queue(0, []));
    assert [] + [Waiter(11, 1)] == [Waiter(11, 1)];
    var s3 := WebhookAdded(s2, 2, 12, Queue(-1, [Waiter(11, 1)]));
    assert s3.control.queues[Production] == Queue(-2, [Waiter(11, 1), Waiter(12, 2)]);
    UnfoldRun(s, es);
    ExceededBySkip(s, es, s3);
  }

  lemma ExceededBySkip(s: State, es: seq<Event>, s3: State)
    requires Initial(s, map[Production := 1]) && |es| == 4 && es[3] == Unqueue(11, Webhook)
    requires After(s, es[..3]) == s3 && After(s, es) == Next(s3, es[3]) && s3.control.enabled
    requires Production in s3.control.queues
    requires s3.control.queues[Production] == Queue(-2, [Waiter(11, 1), Waiter(12, 2)])
    ensures Held(After(s, es), Production) == 2
  {
    SlotsAreConserved(s, es[..3], map[Production := 1]);
    SlotsAreConserved(s, es, map[Production := 1]);
    SkipsOne(s3, 1);
    QueueAfterStep(s3, es[3], Production);
    OverLimitIff(After(s, es), Production, 1);
  }

  lemma SkipsOne(s: State, t: Ticket)
    requires s.control.enabled && Production in s.control.queues
    requires s.control.queues[Production] == Queue(-2, [Waiter(11, t), Waiter(12, 2)])
    ensures SkipsQueue(s, Unqueue(11, Webhook), Production) && Excess(s.control, Production) == 0
  {
  }

  lemma WebhookAdded(s: State, t: Ticket, id: ExecutionId, queue: Queue) returns (s': State)
    requires s.regular && s.control.enabled && Get(s.control.queues, Production) == Some(queue)
    requires s.active == map[] && s.heap == map[]
    requires forall u :: u in s.adds ==> u < t && s.adds[u].id < id
    ensures s' == Next(s, AddNew(t, id, Webhook)) && s'.regular && s'.control.enabled
    ensures Get(s'.control.queues, Production) == Some(Enqueue(queue, Waiter(id, t)))
    ensures s'.active == map[] && s'.heap == map[]
    ensures forall u :: u in s'.adds ==> u < t + 1 && s'.adds[u].id < id + 1
  {
    s' := Next(s, AddNew(t, id, Webhook));
    assert Possible(s, AddNew(t, id, Webhook));
  }

  lemma UnfoldRun(s: State, es: seq<Event>)
    requires |es| == 4
    ensures After(s, es[..3]) == Next(Next(Next(s, es[0]), es[1]), es[2])
    ensures After(s, es) == Next(After(s, es[..3]), es[3])
  {
    assert es[..3][..2] == es[..2] && es[..2][..1] == es[..1] && es[..1][..0] == [];
    assert After(s, es[..1]) == Next(s, es[0]);
    assert After(s, es[..2]) == Next(After(s, es[..1]), es[1]);
  }
}
