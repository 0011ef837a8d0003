// In which order throttled calls get their turn, told from the calls themselves: when each began, and
// which of them still wait.
module ExecutionTurns {
  import opened Wrappers
  import opened Concurrency
  import opened ExecutionLifecycle
  import opened ExecutionSlots

  // A call of `add` for queue `q` that has not been let through.
  ghost predicate Waits(adds: map<Ticket, Admission>, t: Ticket, q: QueueType) {
    t in adds && !adds[t].granted && QueueOf(adds[t].mode) == Some(q)
  }

  ghost predicate Begins(s: State, e: Event, t: Ticket) {
    (e.AddNew? || e.AddExisting?) && e.ticket == t && Possible(s, e)
  }

  // The step of the run at which the call with this ticket began.
  ghost function BeganAt(s: State, es: seq<Event>, t: Ticket): nat
    decreases |es|
  {
    if es == [] then 0
    else if Begins(After(s, es[..|es| - 1]), es[|es| - 1], t) then |es|
    else BeganAt(s, es[..|es| - 1], t)
  }

  lemma {:induction false} BeganBefore(s: State, es: seq<Event>, t: Ticket)
    ensures BeganAt(s, es, t) <= |es|
    decreases |es|
  {
    if es != [] {
      BeganBefore(s, es[..|es| - 1], t);
    }
  }

  // ---- one waiting list ----

  ghost function Tickets(ws: seq<Waiter>): set<Ticket> {
    set i | 0 <= i < |ws| :: ws[i].ticket
  }

  ghost predicate InOrder(ws: seq<Waiter>, began: Ticket -> nat) {
    forall i, j :: 0 <= i < j < |ws| ==> began(ws[i].ticket) < began(ws[j].ticket)
  }

  // The list has exactly the calls that wait for `q`, in the order in which they began.
  ghost predicate Lined(adds: map<Ticket, Admission>, ws: seq<Waiter>, q: QueueType, began: Ticket -> nat) {
    (forall t :: Waits(adds, t, q) <==> t in Tickets(ws)) && InOrder(ws, began)
  }

  lemma Joins(adds: map<Ticket, Admission>, ws: seq<Waiter>, q: QueueType, began: Ticket -> nat, began': Ticket -> nat,
              w: Waiter, a: Admission)
    requires Lined(adds, ws, q, began) && w.ticket !in adds && !a.granted && QueueOf(a.mode) == Some(q)
    requires forall t :: t in adds ==> began'(t) == began(t) < began'(w.ticket)
    ensures Lined(adds[w.ticket := a], ws + [w], q, began')
  {
    assert Tickets(ws + [w]) == Tickets(ws) + {w.ticket} by {
      assert forall i :: 0 <= i < |ws| ==> (ws + [w])[i] == ws[i];
      assert (ws + [w])[|ws|] == w;
    }
    forall i | 0 <= i < |ws|
      ensures ws[i].ticket in adds
    {
      assert ws[i].ticket in Tickets(ws);
    }
  }

  // The list stays in order for whatever leaves its waiting calls alone.
  lemma StaysLined(adds: map<Ticket, Admission>, adds': map<Ticket, Admission>, ws: seq<Waiter>, q: QueueType,
                   began: Ticket -> nat, began': Ticket -> nat)
    requires Lined(adds, ws, q, began) && forall t :: Waits(adds', t, q) <==> Waits(adds, t, q)
    requires forall t :: t in adds ==> began'(t) == began(t)
    ensures Lined(adds', ws, q, began')
  {
    forall i | 0 <= i < |ws|
      ensures ws[i].ticket in adds
    {
      assert ws[i].ticket in Tickets(ws);
    }
  }

  lemma FirstPasses(adds: map<Ticket, Admission>, adds': map<Ticket, Admission>, ws: seq<Waiter>, q: QueueType,
                    began: Ticket -> nat)
    requires Lined(adds, ws, q, began) && ws != []
    requires forall t :: Waits(adds', t, q) <==> Waits(adds, t, q) && t != ws[0].ticket
    ensures Lined(adds', ws[1..], q, began)
  {
    var rest := ws[1..];
    forall t
      ensures t in Tickets(rest) <==> t in Tickets(ws) && t != ws[0].ticket
    {
      if t in Tickets(rest) {
        var i :| 0 <= i < |rest| && rest[i].ticket == t;
        assert ws[i + 1].ticket == t;
      }
      if t in Tickets(ws) && t != ws[0].ticket {
        var i :| 0 <= i < |ws| && ws[i].ticket == t;
        assert rest[i - 1].ticket == t;
      }
    }
  }

  lemma TicketsWithout(ws: seq<Waiter>, rest: seq<Waiter>, i: nat, t: Ticket)
    requires i < |ws| && rest == ws[..i] + ws[i + 1..]
    requires forall j :: 0 <= j < |ws| && j != i ==> ws[j].ticket != ws[i].ticket
    ensures t in Tickets(rest) <==> t in Tickets(ws) && t != ws[i].ticket
  {
    if t in Tickets(rest) {
      var k :| 0 <= k < |rest| && rest[k].ticket == t;
      assert ws[if k < i then k else k + 1] == rest[k];
    }
    if t in Tickets(ws) && t != ws[i].ticket {
      var k :| 0 <= k < |ws| && ws[k].ticket == t;
      assert rest[if k < i then k else k - 1] == ws[k];
    }
  }

  lemma OrderWithout(ws: seq<Waiter>, rest: seq<Waiter>, i: nat, began: Ticket -> nat)
    requires InOrder(ws, began) && i < |ws| && rest == ws[..i] + ws[i + 1..]
    ensures InOrder(rest, began)
  {
    forall j, k | 0 <= j < k < |rest|
      ensures began(rest[j].ticket) < began(rest[k].ticket)
    {
      assert rest[j] == ws[if j < i then j else j + 1] && rest[k] == ws[if k < i then k else k + 1];
    }
  }

  lemma OneLeaves(adds: map<Ticket, Admission>, adds': map<Ticket, Admission>, ws: seq<Waiter>, i: nat, q: QueueType,
                  began: Ticket -> nat)
    requires Lined(adds, ws, q, began) && i < |ws|
    requires forall t :: Waits(adds', t, q) <==> Waits(adds, t, q) && t != ws[i].ticket
    ensures Lined(adds', ws[..i] + ws[i + 1..], q, began)
  {
    var rest := ws[..i] + ws[i + 1..];
    OrderWithout(ws, rest, i, began);
    forall t
      ensures Waits(adds', t, q) <==> t in Tickets(rest)
    {
      TicketsWithout(ws, rest, i, t);
    }
  }

  // ---- all lists ----

  ghost predicate Turns(adds: map<Ticket, Admission>, queues: map<QueueType, Queue>, began: Ticket -> nat) {
    && (forall q :: q in queues ==> Lined(adds, queues[q].waiting, q, began))
    && (forall t :: t in adds && !adds[t].granted ==>
          QueueOf(adds[t].mode).Some? && QueueOf(adds[t].mode).value in queues)
  }

  lemma BeginTurns(s: State, ticket: Ticket, id: ExecutionId, mode: Mode, throttle: bool, began: Ticket -> nat,
                   began': Ticket -> nat)
    requires Turns(s.adds, s.control.queues, began) && ticket !in s.adds
    requires forall t :: t in s.adds ==> began'(t) == began(t) < began'(ticket)
    ensures var s' := Begin(s, ticket, id, mode, throttle); Turns(s'.adds, s'.control.queues, began')
  {
    var s' := Begin(s, ticket, id, mode, throttle);
    forall q | q in s'.control.queues
      ensures Lined(s'.adds, s'.control.queues[q].waiting, q, began')
    {
      var ws := s.control.queues[q].waiting;
      if Waits(s'.adds, ticket, q) {
        Joins(s.adds, ws, q, began, began', Waiter(id, ticket), s'.adds[ticket]);
      } else {
        StaysLined(s.adds, s'.adds, ws, q, began, began');
      }
    }
  }

  // What comes after the turn of the first call of a list.
  lemma GrantTurns(adds: map<Ticket, Admission>, queues: map<QueueType, Queue>, q0: QueueType, queue: Queue,
                   began: Ticket -> nat)
    requires q0 in queues && Turns(adds, queues[q0 := queue], began)
    ensures var o := ResolveNext(queue); Turns(Grant(adds, o.resolved), queues[q0 := o.queue], began)
    ensures var o := ResolveNext(queue);
            o.resolved.Some? ==>
              Waits(adds, o.resolved.value.ticket, q0) && InOrder([o.resolved.value] + o.queue.waiting, began)
  {
    var o := ResolveNext(queue);
    var adds' := Grant(adds, o.resolved);
    assert Lined(adds, queues[q0 := queue][q0].waiting, q0, began);
    if queue.waiting != [] {
      var first := queue.waiting[0].ticket;
      assert first in Tickets(queue.waiting) && Waits(adds, first, q0);
      assert [queue.waiting[0]] + queue.waiting[1..] == queue.waiting;
      forall q | q in queues
        ensures Lined(adds', queues[q0 := o.queue][q].waiting, q, began)
      {
        assert Lined(adds, queues[q0 := queue][q].waiting, q, began);
        if q == q0 {
          FirstPasses(adds, adds', queue.waiting, q, began);
        } else {
          StaysLined(adds, adds', queues[q].waiting, q, began, began);
        }
      }
    }
  }

  lemma LeaveTurns(adds: map<Ticket, Admission>, queues: map<QueueType, Queue>, q0: QueueType, i: nat, capacity: int,
                   began: Ticket -> nat)
    requires q0 in queues && Turns(adds, queues, began) && i < |queues[q0].waiting|
    ensures var ws := queues[q0].waiting;
            Turns(adds - {ws[i].ticket}, queues[q0 := Queue(capacity, ws[..i] + ws[i + 1..])], began)
  {
    var ws := queues[q0].waiting;
    var adds' := adds - {ws[i].ticket};
    assert ws[i].ticket in Tickets(ws) && Waits(adds, ws[i].ticket, q0);
    forall q | q in queues
      ensures Lined(adds', queues[q0 := Queue(capacity, ws[..i] + ws[i + 1..])][q].waiting, q, began)
    {
      if q == q0 {
        OneLeaves(adds, adds', ws, i, q, began);
      } else {
        StaysLined(adds, adds', queues[q].waiting, q, began, began);
      }
    }
  }

  // ---- one step ----

  // Whoever the step lets through began before all that still wait in the queue afterwards.
  ghost predicate InTurn(s: State, e: Event, q: QueueType, began: Ticket -> nat) {
    forall a, b :: Passes(s, e, b, q) && Waits(Next(s, e).adds, a, q) ==> began(b) < began(a)
  }

  // The call waited and is let through by the step.
  ghost predicate Passes(s: State, e: Event, b: Ticket, q: QueueType) {
    Waits(s.adds, b, q) && b in Next(s, e).adds && Next(s, e).adds[b].granted
  }

  lemma InTurnIf(s: State, e: Event, q: QueueType, first: Waiter, began: Ticket -> nat)
    requires var s' := Next(s, e);
             && q in s'.control.queues && Lined(s'.adds, s'.control.queues[q].waiting, q, began)
             && InOrder([first] + s'.control.queues[q].waiting, began)
    requires forall b :: Passes(s, e, b, q) ==> b == first.ticket
    ensures InTurn(s, e, q, began)
  {
    var ws := Next(s, e).control.queues[q].waiting;
    forall a, b | Passes(s, e, b, q) && Waits(Next(s, e).adds, a, q)
      ensures began(b) < began(a)
    {
      var i :| 0 <= i < |ws| && ws[i].ticket == a;
      assert ([first] + ws)[0] == first && ([first] + ws)[i + 1] == ws[i];
    }
  }

  // What a settle callback does to the calls: it lets the first of the queue of its mode through.
  lemma SettleGrants(s: State, run: Execution, q0: QueueType, queue: Queue)
    requires Possible(s, Settle(run)) && Limited(s.control, s.heap[run].mode) && QueueOf(s.heap[run].mode) == Some(q0)
    requires queue == s.control.queues[q0].(capacity := s.control.queues[q0].capacity + 1)
    ensures var s', o := Next(s, Settle(run)), ResolveNext(queue);
            s'.adds == Grant(s.adds, o.resolved) && s'.control.queues == s.control.queues[q0 := o.queue]
  {
  }

  lemma SettleTurns(s: State, run: Execution, q: QueueType, began: Ticket -> nat)
    requires Turns(s.adds, s.control.queues, began) && Possible(s, Settle(run))
    ensures var s' := Next(s, Settle(run)); Turns(s'.adds, s'.control.queues, began)
    ensures InTurn(s, Settle(run), q, began)
  {
    var mode := s.heap[run].mode;
    if Limited(s.control, mode) {
      var q0 := QueueOf(mode).value;
      var queue := s.control.queues[q0].(capacity := s.control.queues[q0].capacity + 1);
      SettleGrants(s, run, q0, queue);
      MoreCapacity(s.adds, s.control.queues, q0, queue, began);
      GrantTurns(s.adds, s.control.queues, q0, queue, began);
      GrantsInTurn(s, Settle(run), q0, q, ResolveNext(queue), began);
    } else {
      SettleGrantsNone(s, run);
    }
  }

  lemma SettleGrantsNone(s: State, run: Execution)
    requires Possible(s, Settle(run)) && !Limited(s.control, s.heap[run].mode)
    ensures Next(s, Settle(run)).adds == s.adds && Next(s, Settle(run)).control == s.control
  {
  }

  lemma MoreCapacity(adds: map<Ticket, Admission>, queues: map<QueueType, Queue>, q0: QueueType, queue: Queue,
                     began: Ticket -> nat)
    requires q0 in queues && Turns(adds, queues, began) && queue.waiting == queues[q0].waiting
    ensures Turns(adds, queues[q0 := queue], began)
  {
    forall q | q in queues
      ensures Lined(adds, queues[q0 := queue][q].waiting, q, began)
    {
      assert Lined(adds, queues[q].waiting, q, began);
    }
  }

  // A step that resolves the first of a queue lets only that one through.
  lemma GrantsInTurn(s: State, e: Event, q0: QueueType, q: QueueType, o: Outcome, began: Ticket -> nat)
    requires var s' := Next(s, e);
             && Turns(s'.adds, s'.control.queues, began)
             && q0 in s'.control.queues && s'.control.queues[q0] == o.queue
             && (forall t :: t in s'.adds && s'.adds[t].granted && (t !in s.adds || !s.adds[t].granted) ==>
                   o.resolved.Some? && t == o.resolved.value.ticket)
    requires o.resolved.Some? ==> Waits(s.adds, o.resolved.value.ticket, q0)
    requires o.resolved.Some? ==> InOrder([o.resolved.value] + o.queue.waiting, began)
    ensures InTurn(s, e, q, began)
  {
    if o.resolved.Some? && q == q0 {
      InTurnIf(s, e, q, o.resolved.value, began);
    }
  }

  // Taking a call out of its queue lets the first of the others through.
  lemma UnqueueGrants(s: State, id: ExecutionId, mode: Mode, q0: QueueType, i: nat, rest: Queue)
    requires Limited(s.control, mode) && QueueOf(mode) == Some(q0)
    requires i == IndexOf(s.control.queues[q0].waiting, id) < |s.control.queues[q0].waiting|
    requires var ws := s.control.queues[q0].waiting;
             rest == Queue(s.control.queues[q0].capacity + 1, ws[..i] + ws[i + 1..])
    ensures var s', o := Next(s, Unqueue(id, mode)), ResolveNext(rest);
            && s'.adds == Grant(s.adds - {s.control.queues[q0].waiting[i].ticket}, o.resolved)
            && s'.control.queues == s.control.queues[q0 := o.queue]
  {
  }

  lemma UnqueueTurns(s: State, id: ExecutionId, mode: Mode, q: QueueType, began: Ticket -> nat)
    requires Turns(s.adds, s.control.queues, began)
    ensures var s' := Next(s, Unqueue(id, mode)); Turns(s'.adds, s'.control.queues, began)
    ensures InTurn(s, Unqueue(id, mode), q, began)
  {
    if Limited(s.control, mode) {
      var q0 := QueueOf(mode).value;
      var queue := s.control.queues[q0];
      var i := IndexOf(queue.waiting, id);
      if i < |queue.waiting| {
        var rest := Queue(queue.capacity + 1, queue.waiting[..i] + queue.waiting[i + 1..]);
        UnqueueGrants(s, id, mode, q0, i, rest);
        LeaveTurns(s.adds, s.control.queues, q0, i, queue.capacity + 1, began);
        GrantTurns(s.adds - {queue.waiting[i].ticket}, s.control.queues, q0, rest, began);
        GrantsInTurn(s, Unqueue(id, mode), q0, q, ResolveNext(rest), began);
      }
    }
  }

  lemma OtherTurns(s: State, e: Event, q: QueueType, began: Ticket -> nat)
    requires Turns(s.adds, s.control.queues, began) && !ChangesQueues(e)
    ensures Turns(Next(s, e).adds, Next(s, e).control.queues, began) && InTurn(s, e, q, began)
  {
    OtherStepsShrink(s, e);
  }

  lemma InsertTurns(s: State, e: Event, q: QueueType, began: Ticket -> nat)
    requires Turns(s.adds, s.control.queues, began) && e.Insert? && Possible(s, e)
    ensures Turns(Next(s, e).adds, Next(s, e).control.queues, began) && InTurn(s, e, q, began)
  {
    var s' := Next(s, e);
    forall q | q in s'.control.queues
      ensures Lined(s'.adds, s'.control.queues[q].waiting, q, began)
    {
      StaysLined(s.adds, s'.adds, s.control.queues[q].waiting, q, began, began);
    }
  }

  lemma TurnsStep(s: State, e: Event, q: QueueType, began: Ticket -> nat)
    requires Turns(s.adds, s.control.queues, began) && (forall t :: !Begins(s, e, t))
    ensures Turns(Next(s, e).adds, Next(s, e).control.queues, began) && InTurn(s, e, q, began)
  {
    if Possible(s, e) {
      match e
      case AddNew(t, _, _) => assert Begins(s, e, t);
      case AddExisting(t, _, _) => assert Begins(s, e, t);
      case Settle(run) => SettleTurns(s, run, q, began);
      case Unqueue(id, mode) => UnqueueTurns(s, id, mode, q, began);
      case Insert(_, _, _) => InsertTurns(s, e, q, began);
      case _ => OtherTurns(s, e, q, began);
    }
  }

  // ---- runs ----

  ghost function Began(s: State, es: seq<Event>): Ticket -> nat {
    t => BeganAt(s, es, t)
  }

  lemma {:induction false} TurnsAlways(s: State, es: seq<Event>, limits: map<QueueType, int>)
    requires Initial(s, limits)
    ensures Turns(After(s, es).adds, After(s, es).control.queues, Began(s, es))
    decreases |es|
  {
    if es != [] {
      var front, last := es[..|es| - 1], es[|es| - 1];
      var before := After(s, front);
      TurnsAlways(s, front, limits);
      if t :| Begins(before, last, t) {
        forall u | u in before.adds
          ensures BeganAt(s, es, u) == BeganAt(s, front, u) < BeganAt(s, es, t)
        {
          BeganBefore(s, front, u);
        }
        BeginTurns(before, t, last.id, last.mode, last.AddExisting? || before.regular, Began(s, front), Began(s, es));
      } else {
        TurnsStep(before, last, Production, Began(s, front));
        SameTurns(After(s, es), Began(s, front), Began(s, es));
      }
    }
  }

  lemma SameTurns(s: State, began: Ticket -> nat, began': Ticket -> nat)
    requires Turns(s.adds, s.control.queues, began) && forall t :: began'(t) == began(t)
    ensures Turns(s.adds, s.control.queues, began')
  {
    forall q | q in s.control.queues
      ensures Lined(s.adds, s.control.queues[q].waiting, q, began')
    {
      StaysLined(s.adds, s.adds, s.control.queues[q].waiting, q, began, began');
    }
  }

  // In every run of the program, a call that waited for its turn is let through only once every call of
  // its queue that began earlier and had to wait was let through or taken out: none of them waits any more.
  lemma FirstComeFirstServed(s: State, es: seq<Event>, e: Event, q: QueueType, a: Ticket, b: Ticket,
                             limits: map<QueueType, int>)
    requires Initial(s, limits) && Passes(After(s, es), e, b, q)
    requires Waits(After(s, es).adds, a, q) && BeganAt(s, es, a) < BeganAt(s, es, b)
    ensures !Waits(Next(After(s, es), e).adds, a, q)
  {
    TurnsAlways(s, es, limits);
    if forall t :: !Begins(After(s, es), e, t) {
      TurnsStep(After(s, es), e, q, Began(s, es));
      assert Began(s, es)(a) < Began(s, es)(b);
    }
  }

  // And the callback of a settled run lets exactly the earliest one through.
  lemma SettleLetsFirstThrough(s: State, es: seq<Event>, run: Execution, q: QueueType, b: Ticket,
                               limits: map<QueueType, int>)
    requires Initial(s, limits) && q in limits && After(s, es).control.enabled && Possible(After(s, es), Settle(run))
    requires QueueOf(After(s, es).heap[run].mode) == Some(q) && Waits(After(s, es).adds, b, q)
    ensures Passes(After(s, es), Settle(run), b, q)
            <==> forall a :: Waits(After(s, es).adds, a, q) && a != b ==> BeganAt(s, es, b) < BeganAt(s, es, a)
  {
    SlotsAreConserved(s, es, limits);
    TurnsAlways(s, es, limits);
    SettlePassesEarliest(After(s, es), run, q, b, Began(s, es));
  }

  // No call that waits began before this one.
  ghost predicate Earliest(adds: map<Ticket, Admission>, q: QueueType, began: Ticket -> nat, b: Ticket) {
    forall a :: Waits(adds, a, q) && a != b ==> began(b) < began(a)
  }

  lemma SettlePassesEarliest(s: State, run: Execution, q: QueueType, b: Ticket, began: Ticket -> nat)
    requires Turns(s.adds, s.control.queues, began) && Possible(s, Settle(run)) && q in s.control.queues
    requires s.control.enabled && QueueOf(s.heap[run].mode) == Some(q) && Waits(s.adds, b, q)
    ensures Passes(s, Settle(run), b, q) <==> Earliest(s.adds, q, began, b)
  {
    var queue := s.control.queues[q].(capacity := s.control.queues[q].capacity + 1);
    FirstIsEarliest(s.adds, queue.waiting, q, began, b);
    SettleGrants(s, run, q, queue);
  }

  lemma FirstIsEarliest(adds: map<Ticket, Admission>, ws: seq<Waiter>, q: QueueType, began: Ticket -> nat, b: Ticket)
    requires Lined(adds, ws, q, began) && Waits(adds, b, q)
    ensures ws != []
    ensures b == ws[0].ticket <==> Earliest(adds, q, began, b)
  {
    var i :| 0 <= i < |ws| && ws[i].ticket == b;
    var first := ws[0].ticket;
    assert first in Tickets(ws);
    forall a | Waits(adds, a, q) && a != first
      ensures began(first) < began(a)
    {
      var j :| 0 <= j < |ws| && ws[j].ticket == a;
    }
  }
}
