// Retries with several main instances: a timer that fires only publishes the activation, so the entry
// stays on the queue of its instance, and what happens to it from then on.
module ClusterRetries {
  import opened Wrappers
  import opened Webhooks
  import opened WorkflowActivation
  import opened ActivationQueue
  import opened ActivationStartup
  import opened ActivationCluster

  // Every live timer is that of an entry. An entry may have lost its timer, but never to another one.
  ghost predicate Backed(r: Retries) {
    && (forall id :: id in r.queue ==> EntryFits(r, id))
    && (forall t :: t in r.timers ==> BelongsToEntry(r, t))
  }

  ghost predicate EntryFits(r: Retries, id: WorkflowId)
    requires id in r.queue
  {
    r.queue[id].workflow.id == id && r.queue[id].timer < r.next && (Retryable(r, id) ==> HasTimer(r, id))
  }

  // The entry of `id` will be retried.
  ghost predicate Retryable(r: Retries, id: WorkflowId) {
    id in r.queue && r.queue[id].timer in r.timers
  }

  ghost predicate Tracks(r: Retries, fired: bool, id: WorkflowId) {
    Backed(r) && (id in r.queue ==> (Retryable(r, id) <==> !fired))
  }

  lemma UnqueueTracks(r: Retries, other: WorkflowId, fired: bool, id: WorkflowId)
    requires Tracks(r, fired, id)
    ensures Tracks(Unqueue(r, other), fired, id)
  {
  }

  lemma EnqueueTracks(r: Retries, mode: Mode, w: Workflow, fired: bool, id: WorkflowId)
    requires Tracks(r, fired, id)
    ensures Tracks(Enqueue(r, mode, w), w.id != id && fired, id)
  {
    UnqueueTracks(r, w.id, fired, id);
    ScheduleTracks(Unqueue(r, w.id), mode, w, fired, id);
  }

  lemma ScheduleTracks(r: Retries, mode: Mode, w: Workflow, fired: bool, id: WorkflowId)
    requires Tracks(r, fired, id) && w.id !in r.queue
    ensures var entry := Queued(mode, INITIAL_TIMEOUT, r.next, w);
            Tracks(Schedule(r, mode, w, INITIAL_TIMEOUT, entry), w.id != id && fired, id)
  {
  }

  lemma FiredTracks(r: Retries, timer: TimerId, fired: bool, id: WorkflowId)
    requires Tracks(r, fired, id) && timer in r.timers
    ensures Tracks(r.(timers := r.timers - {timer}), fired || r.timers[timer].workflow.id == id, id)
  {
    assert BelongsToEntry(r, timer);
  }

  lemma UnqueueAllTracks(r: Retries, fired: bool, id: WorkflowId)
    requires Tracks(r, fired, id)
    ensures Tracks(UnqueueAll(r), fired, id)
  {
    forall t | t in r.timers
      ensures t in set i | i in r.queue :: r.queue[i].timer
    {
      assert BelongsToEntry(r, t);
    }
  }

  // ---- one step ----

  // The step fires the timer of `id`.
  ghost predicate FiresFor(s: State, e: Event, id: WorkflowId) {
    e.TimerFires? && Possible(s, e) && s.retries.timers[e.timer].workflow.id == id
  }

  // Whether the timer of `id` fired since the workflow was queued anew last.
  ghost predicate FiredAfter(fired: bool, s: State, e: Event, id: WorkflowId) {
    !Requeues(s, e, id) && (fired || FiresFor(s, e, id))
  }

  lemma StartupTracks(s: State, one: WorkflowId, mode: Mode, t: Tried, fired: bool, id: WorkflowId)
    requires StoredByOwnId(s) && AtStartup(mode) && Tracks(s.retries, fired, id)
    ensures Tracks(ActivateOne(s, one, mode, t).state.retries, FiredAfter(fired, s, StartupOne(one, mode, t), id), id)
  {
    if one in s.stored {
      AddSettles(s, one, mode, Some(s.stored[one]), false, t);
      UnqueueTracks(s.retries, one, fired, id);
      EnqueueTracks(s.retries, Init, s.stored[one], fired, id);
    }
  }

  lemma StepTracks(s: State, e: Event, fired: bool, id: WorkflowId)
    requires s.multiMain && StoredByOwnId(s) && Tracks(s.retries, fired, id)
    ensures Tracks(Step(s, e).state.retries, FiredAfter(fired, s, e, id), id)
  {
    if Possible(s, e) {
      match e
      case AddPublished(other, t) =>
        AddSettles(s, other, Activate, None, false, t);
        UnqueueTracks(s.retries, other, fired, id);
      case TimerFires(timer, t) =>
        FireFrames(s, timer, t);
        FiredTracks(s.retries, timer, fired, id);
      case TriggerErrs(c, _, _) => EnqueueTracks(s.retries, c.mode, c.workflow, fired, id);
      case StartupOne(other, mode, t) => StartupTracks(s, other, mode, t, fired, id);
      case RemoveAllQueued => UnqueueAllTracks(s.retries, fired, id);
      case _ =>
    }
  }

  // ---- runs of one instance ----

  ghost predicate FiredSince(fired: bool, s: State, es: seq<Event>, id: WorkflowId)
    decreases |es|
  {
    if es == [] then fired
    else FiredAfter(FiredSince(fired, s, es[..|es| - 1], id), After(s, es[..|es| - 1]), es[|es| - 1], id)
  }

  lemma {:induction false} RunTracks(s: State, es: seq<Event>, fired: bool, id: WorkflowId)
    requires s.multiMain && StoredByOwnId(s) && Tracks(s.retries, fired, id)
    ensures var t := After(s, es);
            t.multiMain && StoredByOwnId(t) && Tracks(t.retries, FiredSince(fired, s, es, id), id)
    decreases |es|
  {
    if es != [] {
      var front := es[..|es| - 1];
      RunTracks(s, front, fired, id);
      StepFrames(After(s, front), es[|es| - 1]);
      StepTracks(After(s, front), es[|es| - 1], FiredSince(fired, s, front, id), id);
    }
  }

  // From an empty queue, whatever happens: a queued workflow will be retried if and only if its timer
  // did not fire since it was queued anew last.
  lemma RetriedOnceIff(s: State, es: seq<Event>, id: WorkflowId)
    requires s.multiMain && StoredByOwnId(s) && s.retries.queue == map[] && s.retries.timers == map[]
    ensures var r := After(s, es).retries;
            Backed(r) && (id in r.queue ==> (Retryable(r, id) <==> !FiredSince(false, s, es, id)))
  {
    RunTracks(s, es, false, id);
  }

  ghost predicate NeverRequeues(s: State, es: seq<Event>, id: WorkflowId) {
    es == [] || (NeverRequeues(s, es[..|es| - 1], id) && !Requeues(After(s, es[..|es| - 1]), es[|es| - 1], id))
  }

  lemma {:induction false} StaysFired(s: State, es: seq<Event>, id: WorkflowId)
    requires NeverRequeues(s, es, id)
    ensures FiredSince(true, s, es, id)
    decreases |es|
  {
    if es != [] {
      StaysFired(s, es[..|es| - 1], id);
    }
  }

  // Such an entry is reachable: the activation of a workflow at startup fails, its timer fires, and the
  // entry is left without one in every continuation that does not queue the workflow anew.
  lemma RetriedOnceRun(s: State, w: Workflow, t: Tried, more: seq<Event>)
    requires s.multiMain && s.leader && StoredByOwnId(s) && s.retries.queue == map[] && s.retries.timers == map[]
    requires Get(s.stored, w.id) == Some(w) && FailsToStart(w, t)
    ensures var mid := After(s, [StartupOne(w.id, Init, t), TimerFires(s.retries.next, t)]);
            && w.id in mid.retries.queue && !Retryable(mid.retries, w.id)
            && (NeverRequeues(mid, more, w.id) ==> !Retryable(After(mid, more).retries, w.id))
  {
    var one, two := StartupOne(w.id, Init, t), TimerFires(s.retries.next, t);
    var queued := QueuedAtStartup(s, w, t);
    AfterTwo(s, one, two);
    RunTracks(s, [one, two], false, w.id);
    FireFrames(queued, s.retries.next, t);
    var mid := After(s, [one, two]);
    RunTracks(mid, more, true, w.id);
    if NeverRequeues(mid, more, w.id) {
      StaysFired(mid, more, w.id);
    }
  }

  // ---- runs of several instances ----

  ghost predicate FiredInPass(fired: bool, s: State, order: seq<WorkflowId>, ts: WorkflowId -> Tried, id: WorkflowId)
    decreases |order|
  {
    if order == [] then fired
    else
      var front, last := order[..|order| - 1], order[|order| - 1];
      FiredAfter(FiredInPass(fired, s, front, ts, id), ActivateAll(s, front, LeadershipChange, ts),
                 StartupOne(last, LeadershipChange, ts(last)), id)
  }

  lemma {:induction false} PassTracks(s: State, order: seq<WorkflowId>, ts: WorkflowId -> Tried, fired: bool,
                                      id: WorkflowId)
    requires StoredByOwnId(s) && Tracks(s.retries, fired, id)
    ensures Tracks(ActivateAll(s, order, LeadershipChange, ts).retries, FiredInPass(fired, s, order, ts, id), id)
    decreases |order|
  {
    if order != [] {
      var front, last := order[..|order| - 1], order[|order| - 1];
      PassTracks(s, front, ts, fired, id);
      PassFrames(s, front, LeadershipChange, ts);
      StartupTracks(ActivateAll(s, front, LeadershipChange, ts), last, LeadershipChange, ts(last),
                    FiredInPass(fired, s, front, ts, id), id);
    }
  }

  // The same for the entry of `id` on instance `n`. Only its own steps count, and the pass it makes when
  // it takes over.
  ghost predicate FiredOn(c: Cluster, es: seq<ClusterEvent>, n: NodeId, id: WorkflowId)
    decreases |es|
  {
    if es == [] then false
    else
      var before, e := ClusterAfter(c, es[..|es| - 1]), es[|es| - 1];
      var fired := FiredOn(c, es[..|es| - 1], n, id);
      if e.node != n || n !in before.nodes then fired
      else
        match e
        case On(_, event) => FiredAfter(fired, View(before, n), event, id)
        case StepDown(_, _) => fired
        case TakeOver(_, order, ts) => FiredInPass(fired, View(Promoted(before, n), n), order, ts, id)
  }

  ghost predicate NodeTracks(c: Cluster, n: NodeId, fired: bool, id: WorkflowId) {
    && (forall i :: i in c.stored ==> c.stored[i].id == i)
    && (n in c.nodes ==> Tracks(c.nodes[n].retries, fired, id))
  }

  lemma ClusterStepStored(c: Cluster, e: ClusterEvent)
    requires forall i :: i in c.stored ==> c.stored[i].id == i
    ensures var c' := ClusterStep(c, e);
            && (forall i :: i in c'.stored ==> c'.stored[i].id == i)
            && c'.nodes.Keys == c.nodes.Keys
            && (forall n :: n in c.nodes && n != e.node ==> c'.nodes[n] == c.nodes[n])
  {
    if e.node in c.nodes {
      match e
      case On(n, event) => StepFrames(View(c, n), event);
      case StepDown(_, _) =>
      case TakeOver(n, order, ts) => PassFrames(View(Promoted(c, n), n), order, LeadershipChange, ts);
    }
  }

  lemma {:induction false} ClusterRunTracks(c: Cluster, es: seq<ClusterEvent>, n: NodeId, id: WorkflowId)
    requires (forall i :: i in c.stored ==> c.stored[i].id == i) && n in c.nodes
    requires c.nodes[n].retries.queue == map[] && c.nodes[n].retries.timers == map[]
    ensures n in ClusterAfter(c, es).nodes && NodeTracks(ClusterAfter(c, es), n, FiredOn(c, es, n, id), id)
    decreases |es|
  {
    if es != [] {
      var before, e := ClusterAfter(c, es[..|es| - 1]), es[|es| - 1];
      var fired := FiredOn(c, es[..|es| - 1], n, id);
      ClusterRunTracks(c, es[..|es| - 1], n, id);
      ClusterStepStored(before, e);
      if e.node == n {
        match e
        case On(_, event) => StepTracks(View(before, n), event, fired, id);
        case StepDown(_, _) =>
        case TakeOver(_, order, ts) => PassTracks(View(Promoted(before, n), n), order, ts, fired, id);
      }
    }
  }

  // Over any run of any number of instances, leadership changes of any kind included: an entry on an
  // instance that started with an empty queue will be retried by it if and only if the entry's timer did
  // not fire since the workflow was queued there anew last.
  lemma ClusterRetriedOnceIff(c: Cluster, es: seq<ClusterEvent>, n: NodeId, id: WorkflowId)
    requires (forall i :: i in c.stored ==> c.stored[i].id == i) && n in c.nodes
    requires c.nodes[n].retries.queue == map[] && c.nodes[n].retries.timers == map[]
    ensures n in ClusterAfter(c, es).nodes
    ensures var r := ClusterAfter(c, es).nodes[n].retries;
            Backed(r) && (id in r.queue ==> (Retryable(r, id) <==> !FiredOn(c, es, n, id)))
  {
    ClusterRunTracks(c, es, n, id);
  }
}
