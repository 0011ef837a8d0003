// packages/cli/src/concurrency/: how many executions may run at once, and which wait their turn.
module Concurrency {
  import opened Wrappers

  // Only the identity of an execution id and of a pending call matters here.
  type ExecutionId = nat
  type Ticket = nat

  datatype Mode = Cli | ErrorRun | Integrated | Internal | Manual | Retry | Webhook | Trigger | Evaluation

  datatype QueueType = Production | EvaluationRuns

  function QueueOf(mode: Mode): Option<QueueType> {
    match mode
    case Webhook | Trigger => Some(Production)
    case Evaluation => Some(EvaluationRuns)
    case _ => None
  }

  // A throttled call: the execution it is for, and the call whose promise is pending.
  datatype Waiter = Waiter(id: ExecutionId, ticket: Ticket)

  // `capacity` counts down on every enqueue, below zero while calls wait.
  datatype Queue = Queue(capacity: int, waiting: seq<Waiter>)

  datatype Outcome = Outcome(queue: Queue, resolved: Option<Waiter>)

  function Enqueue(q: Queue, w: Waiter): Queue {
    Queue(q.capacity - 1, if q.capacity - 1 < 0 then q.waiting + [w] else q.waiting)
  }

  function ResolveNext(q: Queue): Outcome {
    if q.waiting == [] then Outcome(q, None) else Outcome(q.(waiting := q.waiting[1..]), Some(q.waiting[0]))
  }

  function Dequeue(q: Queue): Outcome {
    ResolveNext(q.(capacity := q.capacity + 1))
  }

  // The position of the first waiter for `id`, or the length if there is none.
  function IndexOf(ws: seq<Waiter>, id: ExecutionId): (i: nat)
    ensures i <= |ws|
    ensures i < |ws| ==> ws[i].id == id
    ensures forall j :: 0 <= j < i ==> ws[j].id != id
    decreases |ws|
  {
    if ws == [] || ws[0].id == id then 0 else 1 + IndexOf(ws[1..], id)
  }

  // Taking one waiter out also lets the next one through.
  function Remove(q: Queue, id: ExecutionId): Outcome {
    var i := IndexOf(q.waiting, id);
    if i < |q.waiting| then
      ResolveNext(Queue(q.capacity + 1, q.waiting[..i] + q.waiting[i + 1..]))
    else
      Outcome(q, None)
  }

  datatype Control = Control(enabled: bool, queues: map<QueueType, Queue>)

  datatype Passage = Passage(control: Control, resolved: Option<Waiter>)

  predicate Limited(c: Control, mode: Mode) {
    c.enabled && QueueOf(mode).Some? && QueueOf(mode).value in c.queues
  }

  // A call passes at once unless its queue has no capacity left.
  predicate Blocks(c: Control, mode: Mode) {
    Limited(c, mode) && c.queues[QueueOf(mode).value].capacity - 1 < 0
  }

  function Throttled(c: Control, mode: Mode, w: Waiter): Control {
    if Limited(c, mode) then
      c.(queues := c.queues[QueueOf(mode).value := Enqueue(c.queues[QueueOf(mode).value], w)])
    else c
  }

  function Released(c: Control, mode: Mode): Passage {
    if Limited(c, mode) then
      var o := Dequeue(c.queues[QueueOf(mode).value]);
      Passage(c.(queues := c.queues[QueueOf(mode).value := o.queue]), o.resolved)
    else Passage(c, None)
  }

  function Removed(c: Control, mode: Mode, id: ExecutionId): Passage {
    if Limited(c, mode) then
      var o := Remove(c.queues[QueueOf(mode).value], id);
      Passage(c.(queues := c.queues[QueueOf(mode).value := o.queue]), o.resolved)
    else Passage(c, None)
  }

  // With no capacity left anywhere, webhook and trigger executions wait for the production queue,
  // evaluations for their own, and all others pass.
  lemma BlockedModes(c: Control, mode: Mode, w: Waiter)
    requires c == Control(true, map[Production := Queue(0, []), EvaluationRuns := Queue(0, [])])
    ensures Blocks(c, mode) <==> mode in {Webhook, Trigger, Evaluation}
    ensures mode in {Webhook, Trigger} ==>
              Throttled(c, mode, w).queues == map[Production := Queue(-1, [w]), EvaluationRuns := Queue(0, [])]
    ensures mode == Evaluation ==>
              Throttled(c, mode, w).queues == map[Production := Queue(0, []), EvaluationRuns := Queue(-1, [w])]
  {
    assert [] + [w] == [w];
  }

  // The ids that wait, each once.
  function Ids(ws: seq<Waiter>): seq<ExecutionId>
    decreases |ws|
  {
    if ws == [] then []
    else
      var front, last := Ids(ws[..|ws| - 1]), ws[|ws| - 1].id;
      if last in front then front else front + [last]
  }

  ghost predicate DistinctIds(ws: seq<Waiter>) {
    forall i, j :: 0 <= i < j < |ws| ==> ws[i].id != ws[j].id
  }

  lemma {:induction false} IdsOfDistinct(ws: seq<Waiter>)
    requires DistinctIds(ws)
    ensures |Ids(ws)| == |ws| && forall i :: 0 <= i < |ws| ==> Ids(ws)[i] == ws[i].id
    decreases |ws|
  {
    if ws != [] {
      IdsOfDistinct(ws[..|ws| - 1]);
    }
  }

  // Emptying one queue: the ids waiting in it at the start are removed one at a time.
  function RemoveEach(q: Queue, ids: seq<ExecutionId>): Queue
    decreases |ids|
  {
    if ids == [] then q else RemoveEach(Remove(q, ids[0]).queue, ids[1..])
  }

  // The calls that pass while that happens.
  function PassedBy(q: Queue, ids: seq<ExecutionId>): nat
    decreases |ids|
  {
    if ids == [] then 0
    else (if Remove(q, ids[0]).resolved.Some? then 1 else 0) + PassedBy(Remove(q, ids[0]).queue, ids[1..])
  }

  function Emptied(q: Queue): Queue {
    RemoveEach(q, Ids(q.waiting))
  }

  // `removeAll` empties every queue, but only while the limits are on, and it hands over the ids to
  // cancel only then.
  function RemovedAll(c: Control): Control {
    if !c.enabled then c else c.(queues := map q | q in c.queues :: Emptied(c.queues[q]))
  }

  function CanceledBy(c: Control, ids: seq<ExecutionId>): seq<ExecutionId> {
    if !c.enabled then [] else ids
  }

  // With the limits on, emptying a queue of n waiting executions drops only every other one: half of
  // them start, and capacity comes back only for the dropped half. With the limits off nothing happens.
  lemma RemovedAllIs(c: Control, q: QueueType)
    requires q in c.queues && DistinctIds(c.queues[q].waiting)
    ensures var n := |c.queues[q].waiting|;
            && RemovedAll(c).enabled == c.enabled && RemovedAll(c).queues.Keys == c.queues.Keys
            && (!c.enabled ==> RemovedAll(c) == c)
            && (c.enabled ==> RemovedAll(c).queues[q] == Queue(c.queues[q].capacity + (n + 1) / 2, []))
            && (c.enabled ==> PassedBy(c.queues[q], Ids(c.queues[q].waiting)) == n / 2)
  {
    EmptyingStartsEveryOther(c.queues[q]);
  }

  lemma {:induction false} EmptyingStartsEveryOther(q: Queue)
    requires DistinctIds(q.waiting)
    ensures Emptied(q) == Queue(q.capacity + (|q.waiting| + 1) / 2, [])
    ensures PassedBy(q, Ids(q.waiting)) == |q.waiting| / 2
    decreases |q.waiting|
  {
    var ids := Ids(q.waiting);
    IdsOfDistinct(q.waiting);
    if |q.waiting| == 1 {
      RemoveFirst(q);
      assert ids[0] == q.waiting[0].id && ids[1..] == [];
      assert RemoveEach(Queue(q.capacity + 1, []), ids[1..]) == Queue(q.capacity + 1, []);
    } else if |q.waiting| > 1 {
      var next := Queue(q.capacity + 1, q.waiting[2..]);
      Round(q, next);
      IdsOfRest(q.waiting);
      TwoRounds(q, next, ids);
      EmptyingStartsEveryOther(next);
    }
  }

  lemma RemoveFirst(q: Queue)
    requires q.waiting != []
    ensures Remove(q, q.waiting[0].id) == ResolveNext(Queue(q.capacity + 1, q.waiting[1..]))
  {
    assert q.waiting[..0] + q.waiting[1..] == q.waiting[1..];
  }

  lemma RemoveAbsent(q: Queue, id: ExecutionId)
    requires forall i :: 0 <= i < |q.waiting| ==> q.waiting[i].id != id
    ensures Remove(q, id) == Outcome(q, None)
  {
  }

  // Removing the first of several lets the second one through, whose own removal then finds nothing.
  lemma Round(q: Queue, next: Queue)
    requires DistinctIds(q.waiting) && |q.waiting| > 1 && next == Queue(q.capacity + 1, q.waiting[2..])
    ensures Remove(q, q.waiting[0].id) == Outcome(next, Some(q.waiting[1]))
    ensures Remove(next, q.waiting[1].id) == Outcome(next, None)
  {
    RemoveFirst(q);
    assert q.waiting[1..][1..] == q.waiting[2..];
    RemoveAbsent(next, q.waiting[1].id);
  }

  lemma IdsOfRest(ws: seq<Waiter>)
    requires DistinctIds(ws) && |ws| > 1
    ensures |Ids(ws)| > 1 && Ids(ws)[0] == ws[0].id && Ids(ws)[1] == ws[1].id && Ids(ws)[2..] == Ids(ws[2..])
  {
    IdsOfDistinct(ws);
    IdsOfDistinct(ws[2..]);
  }

  lemma TwoRounds(q: Queue, next: Queue, ids: seq<ExecutionId>)
    requires |ids| > 1
    requires Remove(q, ids[0]).queue == next && Remove(q, ids[0]).resolved.Some?
    requires Remove(next, ids[1]) == Outcome(next, None)
    ensures RemoveEach(q, ids) == RemoveEach(next, ids[2..]) && PassedBy(q, ids) == 1 + PassedBy(next, ids[2..])
  {
    assert ids[1..][1..] == ids[2..];
    assert RemoveEach(next, ids[1..]) == RemoveEach(next, ids[2..]);
    assert PassedBy(next, ids[1..]) == PassedBy(next, ids[2..]);
  }

  // Whatever waits: each waiting call is dropped, which gives capacity back, or started, or left.
  lemma {:induction false} EmptyingAccounts(q: Queue, ids: seq<ExecutionId>)
    ensures var q' := RemoveEach(q, ids);
            q'.capacity - q.capacity + PassedBy(q, ids) + |q'.waiting| == |q.waiting| && q'.capacity >= q.capacity
    decreases |ids|
  {
    if ids != [] {
      EmptyingAccounts(Remove(q, ids[0]).queue, ids[1..]);
    }
  }

  // An id that waits twice is removed only once, so emptying can leave a call behind.
  lemma RepeatedIdStays(capacity: int, a: Waiter, b: Waiter, again: Waiter)
    requires a.id == again.id && a.id != b.id
    ensures Emptied(Queue(capacity, [a, b, again])) == Queue(capacity + 1, [again])
  {
    var q, next := Queue(capacity, [a, b, again]), Queue(capacity + 1, [again]);
    IdsOfThree(a, b, again);
    RemoveFirst(q);
    assert [a, b, again][1..] == [b, again] && [b, again][1..] == [again];
    assert Remove(q, a.id).queue == next;
    RemoveAbsent(next, b.id);
    TwoRounds(q, next, [a.id, b.id]);
    assert [a.id, b.id][2..] == [];
  }

  lemma IdsOfThree(a: Waiter, b: Waiter, again: Waiter)
    requires a.id == again.id && a.id != b.id
    ensures Ids([a, b, again]) == [a.id, b.id]
  {
    IdsOfTwo(a, b);
    OneMoreId([a, b], again);
    assert [a, b] + [again] == [a, b, again];
  }

  lemma IdsOfTwo(a: Waiter, b: Waiter)
    requires a.id != b.id
    ensures Ids([a, b]) == [a.id, b.id]
  {
    assert [a, b][..1] == [a] && [a][..0] == [];
    assert Ids([a]) == [a.id];
  }

  lemma OneMoreId(ws: seq<Waiter>, w: Waiter)
    ensures Ids(ws + [w]) == if w.id in Ids(ws) then Ids(ws) else Ids(ws) + [w.id]
  {
    assert (ws + [w])[..|ws|] == ws;
  }

  // `removeAll` leaves everything as it is if and only if the limits are off or nobody waits.
  lemma RemoveAllIdleIff(c: Control)
    ensures RemovedAll(c) == c <==> !c.enabled || forall q :: q in c.queues ==> c.queues[q].waiting == []
  {
    forall q | q in c.queues
      ensures Emptied(c.queues[q]) == c.queues[q] <==> c.queues[q].waiting == []
    {
      EmptyingIdleIff(c.queues[q]);
    }
    if !c.enabled || forall q :: q in c.queues ==> c.queues[q].waiting == [] {
      forall q | q in c.queues
        ensures RemovedAll(c).queues[q] == c.queues[q]
      {
      }
      assert RemovedAll(c).queues == c.queues;
    } else {
      var q :| q in c.queues && c.queues[q].waiting != [];
      assert RemovedAll(c).queues[q] != c.queues[q];
    }
  }

  lemma EmptyingIdleIff(q: Queue)
    ensures Emptied(q) == q <==> q.waiting == []
  {
    if q.waiting != [] {
      var ids := Ids(q.waiting);
      FirstId(q.waiting);
      assert Remove(q, ids[0]).queue.capacity == q.capacity + 1;
      EmptyingAccounts(Remove(q, ids[0]).queue, ids[1..]);
    }
  }

  lemma {:induction false} FirstId(ws: seq<Waiter>)
    requires ws != []
    ensures Ids(ws) != [] && Ids(ws)[0] == ws[0].id
    decreases |ws|
  {
    if |ws| > 1 {
      FirstId(ws[..|ws| - 1]);
    }
  }

  predicate ValidLimits(limits: map<QueueType, int>) {
    forall t :: t in limits ==> limits[t] != 0
  }

  class ConcurrencyControl {
    var isEnabled: bool
    var queues: map<QueueType, Queue>

    function State(): Control
      reads this
    {
      Control(isEnabled, queues)
    }

    // Without a positive limit, and in queue mode, there are no queues. No limit is 0 here.
    constructor (limits: map<QueueType, int>, regularMode: bool)
      requires ValidLimits(limits)
      ensures isEnabled == (regularMode && exists t :: t in limits && limits[t] > 0)
      ensures queues == if isEnabled then map t | t in limits && limits[t] > 0 :: Queue(limits[t], []) else map[]
    {
      var enabled := regularMode && exists t :: t in limits && limits[t] > 0;
      isEnabled := enabled;
      queues := if enabled then map t | t in limits && limits[t] > 0 :: Queue(limits[t], []) else map[];
    }

    // A limit of 0 is an error; every negative limit means no limit.
    static method FromConfig(limits: map<QueueType, int>, regularMode: bool)
      returns (control: Option<ConcurrencyControl>)
      ensures control.None? <==> !ValidLimits(limits)
      ensures control.Some? ==> fresh(control.value)
      ensures control.Some? ==>
                var on := regularMode && exists t :: t in limits && limits[t] > 0;
                && control.value.isEnabled == on
                && control.value.queues
                   == if on then map t | t in limits && limits[t] > 0 :: Queue(limits[t], []) else map[]
    {
      if exists t :: t in limits && limits[t] == 0 {
        return None;
      }
      var made := new ConcurrencyControl(limits, regularMode);
      control := Some(made);
    }

    method Throttle(mode: Mode, w: Waiter) returns (blocked: bool)
      modifies this
      ensures State() == Throttled(old(State()), mode, w) && blocked == Blocks(old(State()), mode)
    {
      blocked := false;
      if !isEnabled || QueueOf(mode).None? || QueueOf(mode).value !in queues {
        return;
      }
      var queue := queues[QueueOf(mode).value];
      queue := queue.(capacity := queue.capacity - 1);
      if queue.capacity < 0 {
        queue := queue.(waiting := queue.waiting + [w]);
        blocked := true;
      }
      queues := queues[QueueOf(mode).value := queue];
    }

    method Release(mode: Mode) returns (resolved: Option<Waiter>)
      modifies this
      ensures Passage(State(), resolved) == Released(old(State()), mode)
    {
      resolved := None;
      if !isEnabled || QueueOf(mode).None? || QueueOf(mode).value !in queues {
        return;
      }
      var queue := queues[QueueOf(mode).value];
      queue := queue.(capacity := queue.capacity + 1);
      if queue.waiting != [] {
        resolved := Some(queue.waiting[0]);
        queue := queue.(waiting := queue.waiting[1..]);
      }
      queues := queues[QueueOf(mode).value := queue];
    }

    static method RemoveFrom(queue: Queue, id: ExecutionId) returns (left: Queue, resolved: Option<Waiter>)
      ensures Outcome(left, resolved) == Remove(queue, id)
    {
      left, resolved := queue, None;
      var i := IndexOf(queue.waiting, id);
      if i < |queue.waiting| {
        left := Queue(queue.capacity + 1, queue.waiting[..i] + queue.waiting[i + 1..]);
        if left.waiting != [] {
          resolved := Some(left.waiting[0]);
          left := left.(waiting := left.waiting[1..]);
        }
      }
    }

    method RemoveOne(mode: Mode, id: ExecutionId) returns (resolved: Option<Waiter>)
      modifies this
      ensures Passage(State(), resolved) == Removed(old(State()), mode, id)
    {
      resolved := None;
      if !isEnabled || QueueOf(mode).None? || QueueOf(mode).value !in queues {
        return;
      }
      var queue;
      queue, resolved := RemoveFrom(queues[QueueOf(mode).value], id);
      queues := queues[QueueOf(mode).value := queue];
    }

    method EmptyQueue(t: QueueType)
      requires t in queues
      modifies this`queues
      ensures queues == old(queues)[t := Emptied(old(queues)[t])]
    {
      var ids := Ids(queues[t].waiting);
      var i := 0;
      while i < |ids|
        invariant 0 <= i <= |ids| && t in queues
        invariant queues == old(queues)[t := queues[t]]
        invariant RemoveEach(queues[t], ids[i..]) == Emptied(old(queues)[t])
      {
        assert ids[i..][1..] == ids[i + 1..];
        var queue, resolved := RemoveFrom(queues[t], ids[i]);
        queues := queues[t := queue];
        i := i + 1;
      }
    }

    // `canceled` are the ids that go to the database to be cancelled.
    method RemoveAll(executionIdsToCancel: seq<ExecutionId>) returns (canceled: seq<ExecutionId>)
      modifies this
      ensures State() == RemovedAll(old(State())) && canceled == CanceledBy(old(State()), executionIdsToCancel)
    {
      if !isEnabled {
        return [];
      }
      var left := queues.Keys;
      while left != {}
        invariant isEnabled && left <= queues.Keys == old(queues.Keys)
        invariant forall q :: q in queues ==> queues[q] == if q in left then old(queues)[q] else Emptied(old(queues)[q])
        decreases |left|
      {
        var q :| q in left;
        EmptyQueue(q);
        left := left - {q};
      }
      canceled := executionIdsToCancel;
    }

    method Disable()
      modifies this
      ensures State() == old(State()).(enabled := false)
    {
      isEnabled := false;
    }
  }
}
