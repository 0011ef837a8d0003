// packages/cli/src/active-workflow-manager.ts as a state machine: what one activation attempt,
// retry, trigger failure or deactivation does to the webhook table, the triggers in memory, the
// activation queue with its timers, and the recorded errors.
module WorkflowActivation {
  import opened Wrappers
  import opened Webhooks

  datatype Mode = Init | Create | Update | Activate | Manual | LeadershipChange

  // Whether a start node exists, its webhooks, whether it has triggers or pollers, and whether its
  // name contains `Authorization`, which error messages quote.
  datatype Workflow = Workflow(
    id: WorkflowId, active: bool, startable: bool, webhooks: seq<Key>, triggers: bool, authorization: bool)

  type TimerId = nat
  type Millis = nat

  const INITIAL_TIMEOUT: Millis := 1000
  const MAX_TIMEOUT: Millis := 24 * 60 * 60 * 1000

  datatype Queued = Queued(mode: Mode, lastTimeout: Millis, timer: TimerId, workflow: Workflow)

  // A timer that has not fired, with what its callback captured.
  datatype Timer = Timer(mode: Mode, workflow: Workflow, delay: Millis)

  datatype Retries = Retries(queue: map<WorkflowId, Queued>, timers: map<TimerId, Timer>, next: TimerId)

  // What the callbacks given to a trigger node captured.
  datatype Closure = Closure(mode: Mode, workflow: Workflow)

  datatype State = State(
    multiMain: bool,
    leader: bool,
    stored: map<WorkflowId, Workflow>,
    rows: Rows,
    memory: set<WorkflowId>,                // workflows registered in memory
    issued: set<Closure>,
    errors: map<WorkflowId, Message>,
    retries: Retries)

  // How starting triggers and pollers ends. If a poller fails, the workflow stays in memory when
  // some trigger had already answered.
  datatype Start = Started | TriggerFailed(message: Message) | PollFailed(message: Message, answered: bool)

  // What the outside world does to one attempt: loading base data, the webhooks, the calls after
  // them, the compensating clear, the triggers.
  datatype Tried = Tried(
    base: Option<Message>, attempts: seq<Attempt>, tail: Option<Message>, clears: bool, start: Start)

  datatype Outcome = Published | Skipped | Done(displayed: bool) | Threw(message: Message)

  datatype Result = Result(state: State, outcome: Outcome)

  predicate AtStartup(mode: Mode) {
    mode == Init || mode == LeadershipChange
  }

  predicate ShouldAddWebhooks(leader: bool, mode: Mode) {
    if mode == Init then true else if mode == LeadershipChange then false else leader
  }

  // ---- the queue ----

  function Unqueue(r: Retries, id: WorkflowId): Retries {
    if id in r.queue then r.(timers := r.timers - {r.queue[id].timer}, queue := r.queue - {id}) else r
  }

  function Schedule(r: Retries, mode: Mode, w: Workflow, lastTimeout: Millis, entry: Queued): Retries {
    Retries(r.queue[w.id := entry.(lastTimeout := lastTimeout, timer := r.next)],
            r.timers[r.next := Timer(mode, w, lastTimeout)],
            r.next + 1)
  }

  function Enqueue(r: Retries, mode: Mode, w: Workflow): Retries {
    var r1 := Unqueue(r, w.id);
    Schedule(r1, mode, w, INITIAL_TIMEOUT, Queued(mode, INITIAL_TIMEOUT, r1.next, w))
  }

  function NextTimeout(last: Millis): Millis {
    if last < MAX_TIMEOUT then Min(last * 2, MAX_TIMEOUT) else last
  }

  function Reschedule(r: Retries, tm: Timer): Retries
    requires tm.workflow.id in r.queue
  {
    var entry := r.queue[tm.workflow.id];
    Schedule(r, tm.mode, tm.workflow, NextTimeout(entry.lastTimeout), entry)
  }

  // ---- one attempt ----

  function Fails(s: State, id: WorkflowId, m: Message): Result {
    Result(s.(errors := s.errors[id := m]), Threw(m))
  }

  function Registered(s: State, w: Workflow, mode: Mode, t: Tried): Registration {
    if ShouldAddWebhooks(s.leader, mode) then
      AddWebhooks(s.rows, w.id, w.webhooks, mode == Init, t.attempts, t.tail, t.clears && w.id in s.stored)
    else Registration(s.rows, None)
  }

  predicate Starts(s: State, w: Workflow) {
    s.leader && w.triggers
  }

  function Memory(s: State, w: Workflow, start: Start): set<WorkflowId> {
    match start
    case Started => s.memory + {w.id}
    case TriggerFailed(_) => s.memory
    case PollFailed(_, answered) => if answered then s.memory + {w.id} else s.memory - {w.id}
  }

  function Succeeds(s: State, id: WorkflowId, mode: Mode): Result {
    Result(s.(retries := Unqueue(s.retries, id), errors := s.errors - {id}),
           Done((ShouldAddWebhooks(s.leader, mode) || s.leader) && AtStartup(mode)))
  }

  // Starting triggers and pollers, and the bookkeeping of success.
  function Launched(s: State, w: Workflow, mode: Mode, start: Start): Result {
    if !Starts(s, w) then Succeeds(s, w.id, mode)
    else
      var s1 := s.(memory := Memory(s, w, start), issued := s.issued + {Closure(mode, w)});
      if start.Started? then Succeeds(s1, w.id, mode) else Fails(s1, w.id, start.message)
  }

  // The attempt once the workflow is known and activatable, given how its webhooks went.
  function Attempted(s: State, w: Workflow, mode: Mode, t: Tried, r: Registration): Result {
    if t.base.Some? then Fails(s, w.id, t.base.value)
    else if r.failure.Some? then Fails(s.(rows := r.rows), w.id, r.failure.value)
    else Launched(s.(rows := r.rows), w, mode, t.start)
  }

  function Add(s: State, id: WorkflowId, mode: Mode, existing: Option<Workflow>, publish: bool, t: Tried): Result {
    if s.multiMain && publish then Result(s, Published)
    else
      var found := Found(s, id, existing);
      if found.None? then Fails(s, id, NotFound(id))
      else if AtStartup(mode) && !found.value.active then Result(s, Skipped)
      else if !found.value.startable then Fails(s, id, NotStartable(id, found.value.authorization))
      else Attempted(s, found.value, mode, t, Registered(s, found.value, mode, t))
  }

  // ---- the steps around it ----

  // A timer fires.
  function Fire(s: State, timer: TimerId, t: Tried): Result
    requires timer in s.retries.timers
  {
    Retry(Fired(s, timer), s.retries.timers[timer], t)
  }

  // The callback of a timer.
  function Retry(s: State, tm: Timer, t: Tried): Result {
    Resumed(Add(s, tm.workflow.id, tm.mode, Some(tm.workflow), true, t), tm)
  }

  // What the callback does after its attempt. When the attempt threw and the entry is gone by then, it
  // fails on the missing entry and nothing is scheduled.
  function Resumed(r: Result, tm: Timer): Result {
    if r.outcome.Threw? && tm.workflow.id in r.state.retries.queue then
      r.(state := r.state.(retries := Reschedule(r.state.retries, tm)))
    else r
  }

  function Fired(s: State, timer: TimerId): State {
    s.(retries := s.retries.(timers := s.retries.timers - {timer}))
  }

  function Close(s: State, id: WorkflowId, closes: bool): State {
    if closes then s.(memory := s.memory - {id}) else s
  }

  // A running trigger reports an error.
  function EmitError(s: State, c: Closure, m: Message, closes: bool): State {
    var s1 := Close(s, c.workflow.id, closes);
    s1.(errors := s.errors[c.workflow.id := m], retries := Enqueue(s.retries, c.mode, c.workflow))
  }

  function ClearRows(s: State, id: WorkflowId, clears: bool): State {
    if clears && id in s.stored then s.(rows := Cleared(s.rows, id)) else s
  }

  function Remove(s: State, id: WorkflowId, clears: bool, closes: bool): State {
    var s1 := ClearRows(s, id, clears);
    if s.multiMain then s1
    else Close(s1.(errors := s.errors - {id}, retries := Unqueue(s.retries, id)), id, closes)
  }

  predicate Authorization(m: Message) {
    !m.NotFound? && m.authorization
  }

  // One workflow of the startup pass.
  function ActivateOne(s: State, id: WorkflowId, mode: Mode, t: Tried): Result {
    if id !in s.stored then Result(s, Skipped)
    else
      var r := Add(s, id, mode, Some(s.stored[id]), false, t);
      if r.outcome.Threw? && !Authorization(r.outcome.message) then
        r.(state := r.state.(retries := Enqueue(r.state.retries, Init, s.stored[id])))
      else r
  }

  // ---- runs ----

  datatype Event =
    | AddWorkflow(id: WorkflowId, mode: Mode, t: Tried)
    | AddPublished(id: WorkflowId, t: Tried)           // the leader serves a published activation
    | TimerFires(timer: TimerId, t: Tried)
    | TriggerErrs(closure: Closure, message: Message, closes: bool)
    | RemoveWorkflow(id: WorkflowId, clears: bool, closes: bool)
    | StartupOne(id: WorkflowId, mode: Mode, t: Tried)
    | RemoveAllQueued
    | CloseTriggers(ids: set<WorkflowId>)
    | ClearError(id: WorkflowId)
    | ClearAllErrors
    | Save(id: WorkflowId, workflow: Option<Workflow>)

  function UnqueueAll(r: Retries): Retries {
    r.(queue := map[], timers := r.timers - set id | id in r.queue :: r.queue[id].timer)
  }

  ghost predicate Possible(s: State, e: Event) {
    match e
    case TimerFires(timer, _) => timer in s.retries.timers
    case TriggerErrs(c, _, _) => c in s.issued
    case StartupOne(_, mode, _) => AtStartup(mode)
    case AddPublished(_, _) => s.leader
    case Save(id, w) => w.Some? ==> w.value.id == id
    case _ => true
  }

  // The step's new state, and the outcome if it is an attempt.
  ghost function Step(s: State, e: Event): Result {
    if !Possible(s, e) then Result(s, Skipped)
    else
      match e
      case AddWorkflow(id, mode, t) => Add(s, id, mode, None, true, t)
      case AddPublished(id, t) => Add(s, id, Activate, None, false, t)
      case TimerFires(timer, t) => Fire(s, timer, t)
      case TriggerErrs(c, m, closes) => Result(EmitError(s, c, m, closes), Threw(m))
      case RemoveWorkflow(id, clears, closes) => Result(Remove(s, id, clears, closes), Skipped)
      case StartupOne(id, mode, t) => ActivateOne(s, id, mode, t)
      case RemoveAllQueued => Result(s.(retries := UnqueueAll(s.retries)), Skipped)
      case CloseTriggers(ids) => Result(s.(memory := s.memory - ids), Skipped)
      case ClearError(id) => Result(s.(errors := s.errors - {id}), Skipped)
      case ClearAllErrors => Result(s.(errors := map[]), Skipped)
      case Save(id, w) => Result(s.(stored := if w.Some? then s.stored[id := w.value] else s.stored - {id}), Skipped)
  }

  ghost function After(s: State, es: seq<Event>): State {
    if es == [] then s else Step(After(s, es[..|es| - 1]), es[|es| - 1]).state
  }

  ghost predicate Initial(s: State) {
    && !s.multiMain && s.leader
    && s.memory == {} && s.issued == {} && s.errors == map[] && s.retries.queue == map[] && s.retries.timers == map[]
    && StoredByOwnId(s)
  }

  ghost predicate StoredByOwnId(s: State) {
    forall id :: id in s.stored ==> s.stored[id].id == id
  }

  // ---- what an attempt does ----

  function RegistrationFailure(leader: bool, w: Workflow, mode: Mode, t: Tried): Option<Message> {
    if !ShouldAddWebhooks(leader, mode) || w.webhooks == [] then None
    else if LoopFailure(w.webhooks, mode == Init, t.attempts).Some?
      then LoopFailure(w.webhooks, mode == Init, t.attempts)
    else t.tail
  }

  // How the attempt ends, which depends on nothing but the workflow and the outside world.
  function AttemptOutcome(leader: bool, w: Workflow, mode: Mode, t: Tried): Outcome {
    if AtStartup(mode) && !w.active then Skipped
    else if !w.startable then Threw(NotStartable(w.id, w.authorization))
    else if t.base.Some? then Threw(t.base.value)
    else if RegistrationFailure(leader, w, mode, t).Some? then Threw(RegistrationFailure(leader, w, mode, t).value)
    else if leader && w.triggers && !t.start.Started? then Threw(t.start.message)
    else Done((ShouldAddWebhooks(leader, mode) || leader) && AtStartup(mode))
  }

  // Success takes the workflow off the queue together with its timer and clears its error, a
  // failure records its message, and nothing else of the queue, the timers and the errors changes.
  ghost predicate Settles(s: State, id: WorkflowId, r: Result) {
    && r.state.retries == (if r.outcome.Done? then Unqueue(s.retries, id) else s.retries)
    && r.state.stored == s.stored && r.state.multiMain == s.multiMain && r.state.leader == s.leader
    && r.state.errors == (if r.outcome.Done? then s.errors - {id}
                          else if r.outcome.Threw? then s.errors[id := r.outcome.message] else s.errors)
  }

  lemma AttemptedSettles(s: State, w: Workflow, mode: Mode, t: Tried, r: Registration)
    ensures Settles(s, w.id, Attempted(s, w, mode, t, r))
  {
    LaunchedSettles(s.(rows := r.rows), w, mode, t.start);
  }

  lemma LaunchedSettles(s: State, w: Workflow, mode: Mode, start: Start)
    ensures Settles(s, w.id, Launched(s, w, mode, start))
  {
  }

  lemma AttemptedOutcome(s: State, w: Workflow, mode: Mode, t: Tried, r: Registration)
    requires r.failure == RegistrationFailure(s.leader, w, mode, t) && w.startable && (AtStartup(mode) ==> w.active)
    ensures Attempted(s, w, mode, t, r).outcome == AttemptOutcome(s.leader, w, mode, t)
  {
  }

  lemma RegisteredFailure(s: State, w: Workflow, mode: Mode, t: Tried)
    ensures Registered(s, w, mode, t).failure == RegistrationFailure(s.leader, w, mode, t)
  {
  }

  // The workflow an attempt is about.
  function Found(s: State, id: WorkflowId, existing: Option<Workflow>): Option<Workflow> {
    if existing.Some? then existing else Get(s.stored, id)
  }

  // How an attempt ends is decided by the workflow and the outside world alone, and it settles the
  // queue, the timers and the errors accordingly.
  lemma AddSettles(s: State, id: WorkflowId, mode: Mode, existing: Option<Workflow>, publish: bool, t: Tried)
    requires StoredByOwnId(s) && (existing.Some? ==> existing.value.id == id)
    ensures var r := Add(s, id, mode, existing, publish, t);
            && Settles(s, id, r)
            && r.outcome == if s.multiMain && publish then Published
                            else if Found(s, id, existing).None? then Threw(NotFound(id))
                            else AttemptOutcome(s.leader, Found(s, id, existing).value, mode, t)
  {
    if Found(s, id, existing).Some? {
      TriedSettles(s, Found(s, id, existing).value, mode, t);
    }
  }

  lemma TriedSettles(s: State, w: Workflow, mode: Mode, t: Tried)
    ensures var r := Add(s, w.id, mode, Some(w), false, t);
            Settles(s, w.id, r) && r.outcome == AttemptOutcome(s.leader, w, mode, t)
  {
    if w.startable && (AtStartup(mode) ==> w.active) {
      var r := Registered(s, w, mode, t);
      RegisteredFailure(s, w, mode, t);
      AttemptedSettles(s, w, mode, t, r);
      AttemptedOutcome(s, w, mode, t, r);
    }
  }

  // Only the workflow of the attempt may be added to memory, and only by a leader; the callbacks
  // it hands out carry an active workflow whenever their mode is one that skips inactive ones.
  ghost predicate StartsOnly(s: State, id: WorkflowId, s': State) {
    && s'.memory - {id} == s.memory - {id}
    && (!s.leader ==> s'.memory == s.memory)
    && s.issued <= s'.issued
    && (forall c :: c in s'.issued - s.issued ==> c.workflow.id == id && (AtStartup(c.mode) ==> c.workflow.active))
  }

  lemma AddStarts(s: State, id: WorkflowId, mode: Mode, existing: Option<Workflow>, publish: bool, t: Tried)
    requires StoredByOwnId(s) && (existing.Some? ==> existing.value.id == id)
    ensures StartsOnly(s, id, Add(s, id, mode, existing, publish, t).state)
  {
    var found := Found(s, id, existing);
    if found.Some? && (AtStartup(mode) ==> found.value.active) {
      AttemptedStarts(s, found.value, mode, t, Registered(s, found.value, mode, t));
    }
  }

  lemma AttemptedStarts(s: State, w: Workflow, mode: Mode, t: Tried, r: Registration)
    requires AtStartup(mode) ==> w.active
    ensures StartsOnly(s, w.id, Attempted(s, w, mode, t, r).state)
  {
    LaunchedStarts(s.(rows := r.rows), w, mode, t.start);
  }

  lemma LaunchedStarts(s: State, w: Workflow, mode: Mode, start: Start)
    requires AtStartup(mode) ==> w.active
    ensures StartsOnly(s, w.id, Launched(s, w, mode, start).state)
  {
  }

  // The attempt gets as far as registering webhooks.
  predicate Registers(leader: bool, w: Workflow, mode: Mode, t: Tried) {
    (AtStartup(mode) ==> w.active) && w.startable && t.base.None? && ShouldAddWebhooks(leader, mode)
  }

  // The table changes only as the registration of the attempt's own webhooks changes it.
  lemma AddRows(s: State, id: WorkflowId, mode: Mode, existing: Option<Workflow>, publish: bool, t: Tried)
    ensures var s' := Add(s, id, mode, existing, publish, t).state;
            var found := Found(s, id, existing);
            s'.rows == if !(s.multiMain && publish) && found.Some? && Registers(s.leader, found.value, mode, t)
                       then Registered(s, found.value, mode, t).rows else s.rows
  {
    var found := Found(s, id, existing);
    if found.Some? {
      AttemptedRows(s, found.value, mode, t, Registered(s, found.value, mode, t));
    }
  }

  lemma AttemptedRows(s: State, w: Workflow, mode: Mode, t: Tried, r: Registration)
    ensures Attempted(s, w, mode, t, r).state.rows == if t.base.Some? then s.rows else r.rows
  {
    LaunchedRows(s.(rows := r.rows), w, mode, t.start);
  }

  lemma LaunchedRows(s: State, w: Workflow, mode: Mode, start: Start)
    ensures Launched(s, w, mode, start).state.rows == s.rows
  {
  }

  // A leader's successful activation outside of startup and of leadership changes has each webhook of the
  // workflow in the table.
  lemma DoneRegisters(s: State, w: Workflow, mode: Mode, publish: bool, t: Tried)
    requires Add(s, w.id, mode, Some(w), publish, t).outcome.Done?
    requires s.leader && mode != Init && mode != LeadershipChange
    ensures forall i ::
              0 <= i < |w.webhooks|
              ==> Get(Add(s, w.id, mode, Some(w), publish, t).state.rows, w.webhooks[i]) == Some(w.id)
  {
    AddRows(s, w.id, mode, Some(w), publish, t);
    TriedSettles(s, w, mode, t);
    RegisteredFailure(s, w, mode, t);
    RegisteredWhole(s.rows, w.id, w.webhooks, t.attempts, t.tail, t.clears && w.id in s.stored);
  }

  // When the leader serves a published activation successfully, each webhook of the stored workflow is in
  // the table.
  lemma PublishedRegisters(s: State, w: Workflow, t: Tried)
    requires s.leader && Get(s.stored, w.id) == Some(w) && Step(s, AddPublished(w.id, t)).outcome.Done?
    ensures forall i ::
              0 <= i < |w.webhooks| ==> Get(Step(s, AddPublished(w.id, t)).state.rows, w.webhooks[i]) == Some(w.id)
  {
    assert Step(s, AddPublished(w.id, t)) == Add(s, w.id, Activate, Some(w), false, t);
    DoneRegisters(s, w, Activate, false, t);
  }

  // At startup, on the leader and on followers alike, a workflow that counts as started has each webhook in
  // the table whose row could be written.
  lemma StartupRegisters(s: State, w: Workflow, publish: bool, t: Tried, i: nat)
    requires i < |w.webhooks| && !AttemptAt(t.attempts, i).StoreFailed?
    ensures var r := Add(s, w.id, Init, Some(w), publish, t);
            r.outcome.Done? ==> Get(r.state.rows, w.webhooks[i]) == Some(w.id)
  {
    AddRows(s, w.id, Init, Some(w), publish, t);
    TriedSettles(s, w, Init, t);
    if Add(s, w.id, Init, Some(w), publish, t).outcome.Done? {
      var end := LoopStopsAt(w.webhooks, true, t.attempts);
      StoredIsWritten(w.webhooks, true, t.attempts, i);
      RegisterWrites(s.rows, w.id, w.webhooks, true, t.attempts);
    }
  }

  // No attempt of a leadership change writes or deletes a row, and outside of startup no attempt of a
  // follower does.
  lemma RowsStayWhen(s: State, id: WorkflowId, mode: Mode, existing: Option<Workflow>, publish: bool, t: Tried)
    requires mode == LeadershipChange || (mode != Init && !s.leader)
    ensures Add(s, id, mode, existing, publish, t).state.rows == s.rows
  {
    AddRows(s, id, mode, existing, publish, t);
  }

  // A successful attempt is announced at startup, and by a leader at a change of leadership; an inactive
  // workflow is skipped on these two occasions and on no other.
  lemma AnnouncedIff(s: State, w: Workflow, mode: Mode, t: Tried)
    ensures var outcome := Add(s, w.id, mode, Some(w), false, t).outcome;
            && (outcome == Skipped <==> (mode == Init || mode == LeadershipChange) && !w.active)
            && (outcome.Done? ==> (outcome.displayed <==> mode == Init || (mode == LeadershipChange && s.leader)))
  {
    TriedSettles(s, w, mode, t);
  }

  // Whether an attempt leaves no row of its workflow, given whether there was none before.
  ghost predicate NoRowsAfter(leader: bool, noneBefore: bool, isStored: bool, w: Workflow, mode: Mode, t: Tried) {
    if Registers(leader, w, mode, t) then
      || (LoopFailure(w.webhooks, mode == Init, t.attempts).Some? && t.clears && isStored)
      || (noneBefore && Written(w.webhooks, mode == Init, t.attempts) == {})
    else
      noneBefore
  }

  // An attempt leaves no row of the workflow if and only if it broke off at a webhook and the clear got
  // through, or there was none before and none was written. In particular, when triggers or pollers
  // fail, the webhooks registered before them stay.
  lemma LeavesNoRowsIff(s: State, w: Workflow, mode: Mode, publish: bool, t: Tried)
    requires !(s.multiMain && publish)
    ensures NoRows(Add(s, w.id, mode, Some(w), publish, t).state.rows, w.id)
            <==> NoRowsAfter(s.leader, NoRows(s.rows, w.id), w.id in s.stored, w, mode, t)
  {
    AddRows(s, w.id, mode, Some(w), publish, t);
    NoRowsLeftIff(s.rows, w.id, w.webhooks, mode == Init, t.attempts, t.tail, t.clears && w.id in s.stored);
  }

  lemma AddOwnRows(s: State, id: WorkflowId, mode: Mode, existing: Option<Workflow>, publish: bool, t: Tried)
    requires StoredByOwnId(s) && (existing.Some? ==> existing.value.id == id)
    ensures var rows := Add(s, id, mode, existing, publish, t).state.rows;
            forall k :: k in rows && rows[k] != id ==> k in s.rows && s.rows[k] == rows[k]
  {
    AddRows(s, id, mode, existing, publish, t);
    var found := Found(s, id, existing);
    if found.Some? && ShouldAddWebhooks(s.leader, mode) {
      var w := found.value;
      WritesOwnRows(s.rows, w.id, w.webhooks, mode == Init, t.attempts, t.tail, t.clears && w.id in s.stored);
    }
  }

  // The attempt gets as far as starting triggers and pollers.
  predicate Reaches(leader: bool, w: Workflow, mode: Mode, t: Tried) {
    && (AtStartup(mode) ==> w.active) && w.startable && t.base.None? && RegistrationFailure(leader, w, mode, t).None?
    && leader && w.triggers
  }

  // An attempt hands out callbacks exactly when it gets there, and they carry its mode and workflow, so that
  // a later trigger failure queues the workflow in the mode it was activated in.
  lemma AddHandsOut(s: State, w: Workflow, mode: Mode, publish: bool, t: Tried)
    requires !(s.multiMain && publish)
    ensures Add(s, w.id, mode, Some(w), publish, t).state.issued
         == if Reaches(s.leader, w, mode, t) then s.issued + {Closure(mode, w)} else s.issued
  {
    RegisteredFailure(s, w, mode, t);
    if w.startable && (AtStartup(mode) ==> w.active) {
      AttemptedHandsOut(s, w, mode, t, Registered(s, w, mode, t));
    }
  }

  lemma AttemptedHandsOut(s: State, w: Workflow, mode: Mode, t: Tried, r: Registration)
    requires r.failure == RegistrationFailure(s.leader, w, mode, t) && w.startable && (AtStartup(mode) ==> w.active)
    ensures Attempted(s, w, mode, t, r).state.issued
         == if Reaches(s.leader, w, mode, t) then s.issued + {Closure(mode, w)} else s.issued
  {
    LaunchedHandsOut(s.(rows := r.rows), w, mode, t.start);
  }

  lemma LaunchedHandsOut(s: State, w: Workflow, mode: Mode, start: Start)
    ensures Launched(s, w, mode, start).state.issued
         == if s.leader && w.triggers then s.issued + {Closure(mode, w)} else s.issued
  {
  }

  // Whether the workflow is registered in memory after the attempt. A failed attempt leaves it there when
  // a poller failed after some trigger had answered.
  predicate Runs(before: bool, leader: bool, w: Workflow, mode: Mode, t: Tried) {
    if !Reaches(leader, w, mode, t) || t.start.TriggerFailed? then before
    else t.start.Started? || t.start.answered
  }

  lemma AddRuns(s: State, w: Workflow, mode: Mode, publish: bool, t: Tried)
    requires !(s.multiMain && publish)
    ensures w.id in Add(s, w.id, mode, Some(w), publish, t).state.memory
            <==> Runs(w.id in s.memory, s.leader, w, mode, t)
  {
    RegisteredFailure(s, w, mode, t);
    if w.startable && (AtStartup(mode) ==> w.active) {
      AttemptedRuns(s, w, mode, t, Registered(s, w, mode, t));
    }
  }

  lemma AttemptedRuns(s: State, w: Workflow, mode: Mode, t: Tried, r: Registration)
    requires r.failure == RegistrationFailure(s.leader, w, mode, t) && w.startable && (AtStartup(mode) ==> w.active)
    ensures w.id in Attempted(s, w, mode, t, r).state.memory <==> Runs(w.id in s.memory, s.leader, w, mode, t)
  {
    LaunchedRuns(s.(rows := r.rows), w, mode, t.start);
  }

  lemma LaunchedRuns(s: State, w: Workflow, mode: Mode, start: Start)
    ensures w.id in Launched(s, w, mode, start).state.memory
            <==> if !Starts(s, w) || start.TriggerFailed? then w.id in s.memory else start.Started? || start.answered
  {
  }
}
