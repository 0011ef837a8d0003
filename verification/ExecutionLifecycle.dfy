// packages/cli/src/active-executions.ts as a state machine: every step of the executions running in
// one process, with the continuations of `add` and the callbacks of settled promises as steps of
// their own, so that any interleaving is a sequence of steps.
module ExecutionLifecycle {
  import opened Wrappers
  import opened Concurrency

  datatype Status = New | Running | Waiting | Success | Failed | Canceled | Crashed | Unknown

  // A promise settles at most once.
  datatype Promise = Pending | Resolved | Rejected

  type Time = nat
  type ResponseId = nat
  type WorkflowRun = nat

  function SettleOnce(p: Promise, outcome: Promise): Promise {
    if p == Pending then outcome else p
  }

  // The record of one run. Callbacks hold on to the record itself, so its identity matters.
  class Execution {
    const id: ExecutionId
    const mode: Mode
    const startedAt: Time
    var status: Status
    var post: Promise
    var response: Option<ResponseId>
    var workflow: Option<WorkflowRun>

    constructor (id: ExecutionId, mode: Mode, startedAt: Time, response: Option<ResponseId>)
      ensures Snapshot() == Rec(id, mode, startedAt, Running, Pending, response, None)
    {
      this.id := id;
      this.mode := mode;
      this.startedAt := startedAt;
      this.status := Running;
      this.post := Pending;
      this.response := response;
      this.workflow := None;
    }

    function Snapshot(): Rec
      reads this
    {
      Rec(id, mode, startedAt, status, post, response, workflow)
    }
  }

  datatype Rec = Rec(id: ExecutionId, mode: Mode, startedAt: Time, status: Status, post: Promise,
                     response: Option<ResponseId>, workflow: Option<WorkflowRun>)

  // A call of `add` that has not inserted its record yet.
  datatype Admission = Admission(id: ExecutionId, mode: Mode, granted: bool)

  datatype State = State(
    regular: bool,
    control: Control,
    adds: map<Ticket, Admission>,
    heap: map<Execution, Rec>,
    active: map<ExecutionId, Execution>,
    pending: set<Execution>,            // runs whose settle callback has not run
    responses: map<ResponseId, Promise>,
    canceled: set<WorkflowRun>)

  datatype Event =
    | AddNew(ticket: Ticket, id: ExecutionId, mode: Mode)
    | AddExisting(ticket: Ticket, id: ExecutionId, mode: Mode)
    | Insert(ticket: Ticket, run: Execution, now: Time)
    | AttachWorkflow(id: ExecutionId, workflow: WorkflowRun)
    | AttachResponse(id: ExecutionId, response: ResponseId)
    | ResolveResponse(id: ExecutionId)
    | CleanResponse(id: ExecutionId)
    | SetStatus(id: ExecutionId, status: Status)
    | Stop(id: ExecutionId)
    | Finalize(id: ExecutionId)
    | Settle(run: Execution)
    | Unqueue(id: ExecutionId, mode: Mode)
    | Shutdown(cancelAll: bool, order: seq<ExecutionId>)

  // ---- steps ----

  function Grant(adds: map<Ticket, Admission>, w: Option<Waiter>): map<Ticket, Admission> {
    if w.Some? && w.value.ticket in adds then adds[w.value.ticket := adds[w.value.ticket].(granted := true)] else adds
  }

  // The call throttles unless it is a new execution in queue mode.
  function Begin(s: State, ticket: Ticket, id: ExecutionId, mode: Mode, throttle: bool): State {
    if throttle then
      s.(control := Throttled(s.control, mode, Waiter(id, ticket)),
         adds := s.adds[ticket := Admission(id, mode, !Blocks(s.control, mode))])
    else
      s.(adds := s.adds[ticket := Admission(id, mode, true)])
  }

  function Entry(s: State, id: ExecutionId): Option<Rec> {
    if id in s.active && s.active[id] in s.heap then Some(s.heap[s.active[id]]) else None
  }

  function InsertRecord(s: State, ticket: Ticket, run: Execution, now: Time): State
    requires ticket in s.adds
  {
    var a := s.adds[ticket];
    var resuming := Entry(s, a.id);
    var rec := Rec(a.id, a.mode, if resuming.Some? then resuming.value.startedAt else now, Running, Pending,
                   if resuming.Some? then resuming.value.response else None, None);
    s.(adds := s.adds - {ticket},
       heap := s.heap[run := rec],
       active := s.active[a.id := run],
       pending := s.pending + {run})
  }

  function Update(s: State, id: ExecutionId, rec: Rec): State
    requires id in s.active
  {
    s.(heap := s.heap[s.active[id] := rec])
  }

  function SettleResponse(responses: map<ResponseId, Promise>, r: Option<ResponseId>,
                          outcome: Promise): map<ResponseId, Promise> {
    if r.Some? && r.value in responses then responses[r.value := SettleOnce(responses[r.value], outcome)] else responses
  }

  function AttachResponseTo(s: State, id: ExecutionId, r: ResponseId): State {
    if Entry(s, id).None? then s
    else
      Update(s, id, Entry(s, id).value.(response := Some(r)))
        .(responses := if r in s.responses then s.responses else s.responses[r := Pending])
  }

  function StopEntry(s: State, id: ExecutionId): State {
    if Entry(s, id).None? then s
    else
      var rec := Entry(s, id).value;
      var s1 := s.(responses := SettleResponse(s.responses, rec.response, Rejected));
      if rec.status == Waiting then
        s1.(active := s1.active - {id})
      else
        Update(s1.(canceled := if rec.workflow.Some? then s1.canceled + {rec.workflow.value} else s1.canceled),
               id, rec.(post := SettleOnce(rec.post, Rejected)))
  }

  // The callback of a settled run gives its slot back and forgets either its workflow, if it
  // waits, or whatever entry now has its id.
  function SettleCallback(s: State, run: Execution): State
    requires run in s.heap
  {
    var rec := s.heap[run];
    var p := Released(s.control, rec.mode);
    var s1 := s.(control := p.control, adds := Grant(s.adds, p.resolved), pending := s.pending - {run});
    if rec.status == Waiting then
      s1.(heap := s1.heap[run := rec.(workflow := None)])
    else
      s1.(active := s1.active - {rec.id})
  }

  // Taking a throttled call out of the queue: its promise never resolves.
  function UnqueueCall(s: State, id: ExecutionId, mode: Mode): State {
    if !Limited(s.control, mode) then s
    else
      var waiting := s.control.queues[QueueOf(mode).value].waiting;
      var i := IndexOf(waiting, id);
      if i == |waiting| then s
      else
        var p := Removed(s.control, mode, id);
        s.(control := p.control, adds := Grant(s.adds - {waiting[i].ticket}, p.resolved))
  }

  // Shutdown cancels runs that owe a response, or every run if asked to in regular mode.
  predicate Cancels(s: State, cancelAll: bool, rec: Rec) {
    rec.response.Some? || (s.regular && cancelAll)
  }

  // What one iteration of the shutdown pass does to one entry.
  function ShutdownEntry(s: State, cancelAll: bool, id: ExecutionId): State {
    if Entry(s, id).None? then s
    else if Cancels(s, cancelAll, Entry(s, id).value) then StopEntry(s, id)
    else if Entry(s, id).value.status in {Waiting, New} then s.(active := s.active - {id})
    else s
  }

  function ShutdownEntries(s: State, cancelAll: bool, ids: seq<ExecutionId>): State
    decreases |ids|
  {
    if ids == [] then s else ShutdownEntry(ShutdownEntries(s, cancelAll, ids[..|ids| - 1]), cancelAll, ids[|ids| - 1])
  }

  function DisableControl(s: State): State {
    if s.regular then s.(control := s.control.(enabled := false)) else s
  }

  // ---- runs ----

  // A new execution gets an id the database never used before.
  ghost predicate NeverUsed(s: State, id: ExecutionId) {
    && id !in s.active
    && (forall t :: t in s.adds ==> s.adds[t].id != id)
    && (forall h :: h in s.heap ==> s.heap[h].id != id)
  }

  ghost predicate Possible(s: State, e: Event) {
    match e
    case AddNew(ticket, id, _) => ticket !in s.adds && NeverUsed(s, id)
    case AddExisting(ticket, _, _) => ticket !in s.adds
    case Insert(ticket, run, _) => ticket in s.adds && s.adds[ticket].granted && run !in s.heap
    case Settle(run) => run in s.pending && run in s.heap && s.heap[run].post != Pending
    case Shutdown(_, order) => (forall id :: id in order <==> id in s.active) && Distinct(order)
    case _ => true
  }

  // Calls naming an id without an entry throw or do nothing: the state stays as it is.
  ghost function Next(s: State, e: Event): State {
    if !Possible(s, e) then s
    else
      match e
      case AddNew(ticket, id, mode) => Begin(s, ticket, id, mode, s.regular)
      case AddExisting(ticket, id, mode) => Begin(s, ticket, id, mode, true)
      case Insert(ticket, run, now) => InsertRecord(s, ticket, run, now)
      case AttachWorkflow(id, workflow) =>
        if Entry(s, id).Some? then Update(s, id, Entry(s, id).value.(workflow := Some(workflow))) else s
      case AttachResponse(id, r) => AttachResponseTo(s, id, r)
      case ResolveResponse(id) =>
        if Entry(s, id).Some? then s.(responses := SettleResponse(s.responses, Entry(s, id).value.response, Resolved))
        else s
      case CleanResponse(id) =>
        if Entry(s, id).Some? && Entry(s, id).value.status != Waiting then
          s.(responses := SettleResponse(s.responses, Entry(s, id).value.response, Resolved))
        else s
      case SetStatus(id, status) =>
        if Entry(s, id).Some? then Update(s, id, Entry(s, id).value.(status := status)) else s
      case Stop(id) => StopEntry(s, id)
      case Finalize(id) =>
        if Entry(s, id).Some? then
          Update(s, id, Entry(s, id).value.(post := SettleOnce(Entry(s, id).value.post, Resolved)))
        else s
      case Settle(run) => SettleCallback(s, run)
      case Unqueue(id, mode) => UnqueueCall(s, id, mode)
      case Shutdown(cancelAll, order) => ShutdownEntries(DisableControl(s), cancelAll, order)
  }

  ghost function After(s: State, es: seq<Event>): State {
    if es == [] then s else Next(After(s, es[..|es| - 1]), es[|es| - 1])
  }

  ghost predicate Initial(s: State, limits: map<QueueType, int>) {
    && s.adds == map[] && s.heap == map[] && s.active == map[] && s.pending == {} && s.responses == map[]
    && s.canceled == {}
    && (s.control.enabled ==> s.regular)
    && s.control.queues == (map q | q in limits :: Queue(limits[q], []))
    && (forall q :: q in limits ==> limits[q] > 0)
  }

  // ---- what every step keeps ----

  ghost predicate EntriesMatch(s: State) {
    forall id :: id in s.active ==> s.active[id] in s.heap && s.heap[s.active[id]].id == id
  }

  ghost predicate WaitersMatch(adds: map<Ticket, Admission>, ws: seq<Waiter>, q: QueueType) {
    && (forall i :: 0 <= i < |ws| ==> ws[i].ticket in adds)
    && (forall i :: 0 <= i < |ws| ==> !adds[ws[i].ticket].granted && QueueOf(adds[ws[i].ticket].mode) == Some(q))
    && (forall i, j :: 0 <= i < j < |ws| ==> ws[i].ticket != ws[j].ticket)
  }

  ghost predicate QueuesMatch(s: State) {
    forall q :: q in s.control.queues ==> WaitersMatch(s.adds, s.control.queues[q].waiting, q)
  }

  ghost predicate Sane(s: State) {
    && EntriesMatch(s)
    && s.pending <= s.heap.Keys
    && (s.control.enabled ==> s.regular)
    && QueuesMatch(s)
  }

  lemma SaneBegin(s: State, ticket: Ticket, id: ExecutionId, mode: Mode, throttle: bool)
    requires Sane(s) && ticket !in s.adds
    ensures Sane(Begin(s, ticket, id, mode, throttle))
  {
  }

  lemma SaneInsert(s: State, ticket: Ticket, run: Execution, now: Time)
    requires Sane(s) && ticket in s.adds && s.adds[ticket].granted && run !in s.heap
    ensures Sane(InsertRecord(s, ticket, run, now))
  {
  }

  lemma ReleaseKeepsQueues(s: State, mode: Mode)
    requires QueuesMatch(s)
    ensures var p := Released(s.control, mode); QueuesMatch(s.(control := p.control, adds := Grant(s.adds, p.resolved)))
  {
  }

  lemma SaneSettle(s: State, run: Execution)
    requires Sane(s) && run in s.heap
    ensures Sane(SettleCallback(s, run))
  {
    ReleaseKeepsQueues(s, s.heap[run].mode);
  }

  lemma SaneUnqueue(s: State, id: ExecutionId, mode: Mode)
    requires Sane(s)
    ensures Sane(UnqueueCall(s, id, mode))
  {
    var s' := UnqueueCall(s, id, mode);
    if s' != s {
      var q0 := QueueOf(mode).value;
      var ws := s.control.queues[q0].waiting;
      var i := IndexOf(ws, id);
      var p := Removed(s.control, mode, id);
      assert WaitersMatch(s.adds, ws, q0);
      RestMatches(s.adds, ws, i, q0, p.resolved);
      forall q | q in s'.control.queues
        ensures WaitersMatch(s'.adds, s'.control.queues[q].waiting, q)
      {
        if q != q0 {
          assert WaitersMatch(s.adds, s.control.queues[q].waiting, q);
          OthersMatch(s.adds, ws, i, q0, p.resolved, s.control.queues[q].waiting, q);
        }
      }
    }
  }

  // The queue a call is taken out of, when that lets the next call through.
  lemma RestMatches(adds: map<Ticket, Admission>, ws: seq<Waiter>, i: nat, q0: QueueType, resolved: Option<Waiter>)
    requires WaitersMatch(adds, ws, q0) && i < |ws|
    requires resolved == ResolveNext(Queue(0, ws[..i] + ws[i + 1..])).resolved
    ensures var left := ResolveNext(Queue(0, ws[..i] + ws[i + 1..])).queue.waiting;
            WaitersMatch(Grant(adds - {ws[i].ticket}, resolved), left, q0)
  {
  }

  lemma OthersMatch(adds: map<Ticket, Admission>, ws: seq<Waiter>, i: nat, q0: QueueType, resolved: Option<Waiter>,
                    others: seq<Waiter>, q: QueueType)
    requires WaitersMatch(adds, ws, q0) && i < |ws| && q != q0 && WaitersMatch(adds, others, q)
    requires resolved == ResolveNext(Queue(0, ws[..i] + ws[i + 1..])).resolved
    ensures WaitersMatch(Grant(adds - {ws[i].ticket}, resolved), others, q)
  {
  }

  // Everything the other steps touch: records in place, entries only removed, queues untouched.
  ghost predicate Shrinks(s: State, s': State) {
    && s'.regular == s.regular && s'.adds == s.adds && s'.pending == s.pending
    && s'.control.queues == s.control.queues && (s'.control.enabled ==> s.control.enabled)
    && s'.heap.Keys == s.heap.Keys
    && (forall h :: h in s.heap ==> SameRun(s.heap[h], s'.heap[h]))
    && (forall id :: id in s'.active ==> id in s.active && s'.active[id] == s.active[id])
  }

  // What never changes about a record.
  ghost predicate SameRun(r: Rec, r': Rec) {
    r'.id == r.id && r'.mode == r.mode && r'.startedAt == r.startedAt
  }

  lemma ShrinksKeepsSane(s: State, s': State)
    requires Sane(s) && Shrinks(s, s')
    ensures Sane(s')
  {
  }

  lemma ShrinksTransitive(s: State, s1: State, s2: State)
    requires Shrinks(s, s1) && Shrinks(s1, s2)
    ensures Shrinks(s, s2)
  {
  }

  lemma StopShrinks(s: State, id: ExecutionId)
    ensures Shrinks(s, StopEntry(s, id))
  {
  }

  lemma ShutdownEntryShrinks(s: State, cancelAll: bool, id: ExecutionId)
    ensures Shrinks(s, ShutdownEntry(s, cancelAll, id))
  {
    StopShrinks(s, id);
  }

  lemma {:induction false} ShutdownShrinks(s: State, cancelAll: bool, ids: seq<ExecutionId>)
    ensures Shrinks(s, ShutdownEntries(s, cancelAll, ids))
    decreases |ids|
  {
    if ids != [] {
      var before := ShutdownEntries(s, cancelAll, ids[..|ids| - 1]);
      ShutdownShrinks(s, cancelAll, ids[..|ids| - 1]);
      ShutdownEntryShrinks(before, cancelAll, ids[|ids| - 1]);
      ShrinksTransitive(s, before, ShutdownEntries(s, cancelAll, ids));
    }
  }

  predicate ChangesQueues(e: Event) {
    e.AddNew? || e.AddExisting? || e.Insert? || e.Settle? || e.Unqueue?
  }

  lemma OtherStepsShrink(s: State, e: Event)
    requires !ChangesQueues(e)
    ensures Shrinks(s, Next(s, e))
  {
    if Possible(s, e) {
      match e
      case Shutdown(cancelAll, order) =>
        ShutdownShrinks(DisableControl(s), cancelAll, order);
        ShrinksTransitive(s, DisableControl(s), Next(s, e));
      case Stop(id) => StopShrinks(s, id);
      case _ =>
    }
  }

  lemma SaneStep(s: State, e: Event)
    requires Sane(s)
    ensures Sane(Next(s, e))
  {
    if !ChangesQueues(e) {
      OtherStepsShrink(s, e);
      ShrinksKeepsSane(s, Next(s, e));
    } else if Possible(s, e) {
      match e
      case AddNew(ticket, id, mode) => SaneBegin(s, ticket, id, mode, s.regular);
      case AddExisting(ticket, id, mode) => SaneBegin(s, ticket, id, mode, true);
      case Insert(ticket, run, now) => SaneInsert(s, ticket, run, now);
      case Settle(run) => SaneSettle(s, run);
      case Unqueue(id, mode) => SaneUnqueue(s, id, mode);
      case _ =>
    }
  }

  // Every reachable state is sane, whatever the interleaving.
  lemma {:induction false} RunsAreSane(s: State, es: seq<Event>)
    requires Sane(s)
    ensures Sane(After(s, es))
  {
    if es != [] {
      RunsAreSane(s, es[..|es| - 1]);
      SaneStep(After(s, es[..|es| - 1]), es[|es| - 1]);
    }
  }
}
