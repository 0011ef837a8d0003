// Several main instances: they share the database and the recorded errors, each has its own
// workflows in memory and its own queue, and at most one believes to be the leader.
module ActivationCluster {
  import opened Wrappers
  import opened Webhooks
  import opened WorkflowActivation
  import opened ActivationStartup

  type NodeId = nat

  datatype Node = Node(leader: bool, memory: set<WorkflowId>, issued: set<Closure>, retries: Retries)

  datatype Cluster = Cluster(
    stored: map<WorkflowId, Workflow>, rows: Rows, errors: map<WorkflowId, Message>, nodes: map<NodeId, Node>)

  // The state as one instance sees it.
  function View(c: Cluster, n: NodeId): State
    requires n in c.nodes
  {
    var node := c.nodes[n];
    State(true, node.leader, c.stored, c.rows, node.memory, node.issued, c.errors, node.retries)
  }

  function Put(c: Cluster, n: NodeId, s: State): Cluster {
    Cluster(s.stored, s.rows, s.errors, c.nodes[n := Node(s.leader, s.memory, s.issued, s.retries)])
  }

  datatype ClusterEvent =
    | On(node: NodeId, event: Event)
    | StepDown(node: NodeId, stuck: set<WorkflowId>)   // `stuck`: triggers that did not close
    | TakeOver(node: NodeId, order: seq<WorkflowId>, ts: WorkflowId -> Tried)

  function SteppedDown(c: Cluster, n: NodeId, stuck: set<WorkflowId>): Cluster
    requires n in c.nodes
  {
    c.(nodes := c.nodes[n := c.nodes[n].(leader := false, memory := c.nodes[n].memory * stuck)])
  }

  function Promoted(c: Cluster, n: NodeId): Cluster
    requires n in c.nodes
  {
    c.(nodes := c.nodes[n := c.nodes[n].(leader := true)])
  }

  function TakenOver(c: Cluster, n: NodeId, order: seq<WorkflowId>, ts: WorkflowId -> Tried): Cluster
    requires n in c.nodes
  {
    Put(Promoted(c, n), n, ActivateAll(View(Promoted(c, n), n), order, LeadershipChange, ts))
  }

  ghost function ClusterStep(c: Cluster, e: ClusterEvent): Cluster {
    if e.node !in c.nodes then c
    else
      match e
      case On(n, event) => Put(c, n, Step(View(c, n), event).state)
      case StepDown(n, stuck) => SteppedDown(c, n, stuck)
      case TakeOver(n, order, ts) => TakenOver(c, n, order, ts)
  }

  ghost function ClusterAfter(c: Cluster, es: seq<ClusterEvent>): Cluster {
    if es == [] then c else ClusterStep(ClusterAfter(c, es[..|es| - 1]), es[|es| - 1])
  }

  // ---- leader exclusivity ----

  ghost predicate FollowersIdle(c: Cluster) {
    forall n :: n in c.nodes && !c.nodes[n].leader ==> c.nodes[n].memory == {}
  }

  ghost predicate OneLeader(c: Cluster) {
    forall m, n :: m in c.nodes && n in c.nodes && c.nodes[m].leader && c.nodes[n].leader ==> m == n
  }

  ghost predicate Exclusive(c: Cluster) {
    FollowersIdle(c) && OneLeader(c) && forall id :: id in c.stored ==> c.stored[id].id == id
  }

  // An instance takes over when no other still believes to be the leader, and one that steps down
  // closes all its triggers.
  ghost predicate Orderly(c: Cluster, e: ClusterEvent) {
    match e
    case On(_, _) => true
    case StepDown(_, stuck) => stuck == {}
    case TakeOver(n, _, _) => forall m :: m in c.nodes && m != n ==> !c.nodes[m].leader
  }

  lemma FireFrames(s: State, timer: TimerId, t: Tried)
    requires s.multiMain && timer in s.retries.timers
    ensures Fire(s, timer, t) == Result(Fired(s, timer), Published)
  {
  }

  // No step of an instance promotes it, and none registers a workflow in a follower's memory.
  lemma StepFrames(s: State, e: Event)
    requires s.multiMain && StoredByOwnId(s)
    ensures var s' := Step(s, e).state;
            && s'.leader == s.leader && s'.multiMain && StoredByOwnId(s') && (!s.leader ==> s'.memory <= s.memory)
  {
    if Possible(s, e) {
      match e
      case AddPublished(id, t) => AddSettles(s, id, Activate, None, false, t);
      case TimerFires(timer, t) => FireFrames(s, timer, t);
      case StartupOne(id, mode, t) => StartupFrames(s, id, mode, t);
      case _ =>
    }
  }

  lemma StartupFrames(s: State, id: WorkflowId, mode: Mode, t: Tried)
    requires StoredByOwnId(s)
    ensures var s' := ActivateOne(s, id, mode, t).state; Framed(s, s') && (!s.leader ==> s'.memory == s.memory)
  {
    if id in s.stored {
      AddSettles(s, id, mode, Some(s.stored[id]), false, t);
      AddStarts(s, id, mode, Some(s.stored[id]), false, t);
    }
  }

  lemma OnKeepsExclusive(c: Cluster, n: NodeId, e: Event)
    requires Exclusive(c) && n in c.nodes
    ensures Exclusive(ClusterStep(c, On(n, e)))
  {
    StepFrames(View(c, n), e);
  }

  lemma TakeOverKeepsExclusive(c: Cluster, n: NodeId, order: seq<WorkflowId>, ts: WorkflowId -> Tried)
    requires Exclusive(c) && n in c.nodes && Orderly(c, TakeOver(n, order, ts))
    ensures Exclusive(TakenOver(c, n, order, ts))
  {
    PassFrames(View(Promoted(c, n), n), order, LeadershipChange, ts);
  }

  lemma ExclusiveStep(c: Cluster, e: ClusterEvent)
    requires Exclusive(c) && Orderly(c, e)
    ensures Exclusive(ClusterStep(c, e))
  {
    if e.node in c.nodes {
      match e
      case On(n, event) => OnKeepsExclusive(c, n, event);
      case StepDown(_, _) =>
      case TakeOver(n, order, ts) => TakeOverKeepsExclusive(c, n, order, ts);
    }
  }

  ghost predicate OrderlyRun(c: Cluster, es: seq<ClusterEvent>) {
    es == [] || (OrderlyRun(c, es[..|es| - 1]) && Orderly(ClusterAfter(c, es[..|es| - 1]), es[|es| - 1]))
  }

  // Over any run of any number of instances with orderly leadership changes, followers have no workflow
  // registered in memory, so none is registered on two instances.
  lemma {:induction false} LeaderIsExclusive(c: Cluster, es: seq<ClusterEvent>)
    requires Exclusive(c) && OrderlyRun(c, es)
    ensures Exclusive(ClusterAfter(c, es))
    ensures var t := ClusterAfter(c, es);
            forall m, n :: m in t.nodes && n in t.nodes && m != n ==> t.nodes[m].memory !! t.nodes[n].memory
    decreases |es|
  {
    if es != [] {
      var front := es[..|es| - 1];
      LeaderIsExclusive(c, front);
      ExclusiveStep(ClusterAfter(c, front), es[|es| - 1]);
    }
    var t := ClusterAfter(c, es);
    forall m, n | m in t.nodes && n in t.nodes && m != n
      ensures t.nodes[m].memory !! t.nodes[n].memory
    {
      assert !t.nodes[m].leader || !t.nodes[n].leader;
    }
  }

  // A step leaves a follower with workflows in memory if and only if it is a leader stepping down with
  // triggers that do not close.
  lemma FollowerRunsIff(c: Cluster, e: ClusterEvent)
    requires Exclusive(c) && (e.TakeOver? ==> Orderly(c, e))
    ensures !FollowersIdle(ClusterStep(c, e))
            <==> e.StepDown? && e.node in c.nodes && c.nodes[e.node].memory * e.stuck != {}
  {
    if !e.StepDown? {
      ExclusiveStep(c, e);
    } else if e.node in c.nodes {
      assert ClusterStep(c, e).nodes[e.node].memory == c.nodes[e.node].memory * e.stuck;
    }
  }

  // If an instance takes over while another still believes to be the leader, the other keeps its
  // workflows in memory, and one of them is in memory on both if and only if its attempt in the pass
  // leaves it there.
  lemma EarlyTakeOverIff(c: Cluster, n: NodeId, m: NodeId, order: seq<WorkflowId>, ts: WorkflowId -> Tried,
                         id: WorkflowId)
    requires m in c.nodes && n in c.nodes && m != n && id in c.nodes[m].memory
    requires (forall i :: i in c.stored ==> c.stored[i].id == i) && Distinct(order)
    ensures var t := TakenOver(c, n, order, ts);
            && id in t.nodes[m].memory
            && (id in t.nodes[n].memory
                <==> if id in order && id in c.stored
                  then Runs(id in c.nodes[n].memory, true, c.stored[id], LeadershipChange, ts(id))
                     else id in c.nodes[n].memory)
  {
    var s := View(Promoted(c, n), n);
    if id in order {
      StartupPartitions(s, order, LeadershipChange, ts, id);
    } else {
      PassSpares(s, order, LeadershipChange, ts, id);
    }
  }

  // The rest of an attempt after its first await: it goes on with the leader flag it read before, whether
  // or not the instance is still the leader.
  function LateAttempt(c: Cluster, n: NodeId, w: Workflow, mode: Mode, t: Tried): Cluster
    requires n in c.nodes
  {
    var asLeader := View(c, n).(leader := true);
    var r := Attempted(asLeader, w, mode, t, Registered(asLeader, w, mode, t));
    Put(c, n, r.state.(leader := c.nodes[n].leader))
  }

  // A leader that steps down during an attempt, closing all its triggers, is left as a follower with a
  // workflow in memory if and only if the attempt gets that workflow's triggers going; and then with that
  // workflow only.
  lemma StepDownDuringAttemptIff(c: Cluster, n: NodeId, w: Workflow, mode: Mode, t: Tried)
    requires Exclusive(c) && n in c.nodes && w.startable && (AtStartup(mode) ==> w.active)
    ensures var late := LateAttempt(SteppedDown(c, n, {}), n, w, mode, t);
            && !late.nodes[n].leader
            && late.nodes[n].memory == (if Runs(false, true, w, mode, t) then {w.id} else {})
            && (FollowersIdle(late) <==> !Runs(false, true, w, mode, t))
  {
    var down := SteppedDown(c, n, {});
    var asLeader := View(down, n).(leader := true);
    var r := Registered(asLeader, w, mode, t);
    RegisteredFailure(asLeader, w, mode, t);
    AttemptedRuns(asLeader, w, mode, t, r);
    AttemptedStarts(asLeader, w, mode, t, r);
    OnlyMember(Attempted(asLeader, w, mode, t, r).state.memory, w.id);
  }

  lemma OnlyMember(memory: set<WorkflowId>, id: WorkflowId)
    requires memory - {id} == {}
    ensures memory == if id in memory then {id} else {}
  {
    forall x | x in memory
      ensures x == id
    {
      assert x in memory - {id} || x == id;
    }
  }

  // ---- leadership and webhooks ----

  lemma AddLeavesRows(s: State, id: WorkflowId, existing: Option<Workflow>, t: Tried)
    ensures Add(s, id, LeadershipChange, existing, false, t).state.rows == s.rows
  {
  }

  lemma {:induction false} PassLeavesRows(s: State, order: seq<WorkflowId>, ts: WorkflowId -> Tried)
    requires StoredByOwnId(s)
    ensures ActivateAll(s, order, LeadershipChange, ts).rows == s.rows
    decreases |order|
  {
    if order != [] {
      var front, last := order[..|order| - 1], order[|order| - 1];
      var before := ActivateAll(s, front, LeadershipChange, ts);
      PassLeavesRows(s, front, ts);
      if last in before.stored {
        AddLeavesRows(before, last, Some(before.stored[last]), ts(last));
      }
    }
  }

  // A change of leadership never alters the webhook table.
  lemma LeadershipLeavesWebhooks(c: Cluster, e: ClusterEvent)
    requires !e.On? && forall id :: id in c.stored ==> c.stored[id].id == id
    ensures ClusterStep(c, e).rows == c.rows
  {
    if e.TakeOver? && e.node in c.nodes {
      PassLeavesRows(View(Promoted(c, e.node), e.node), e.order, e.ts);
    }
  }
}
