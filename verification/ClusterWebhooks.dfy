// Several main instances and the shared webhook table: what a deactivation on one of them undoes for all,
// and which instance leads.
module ClusterWebhooks {
  import opened Wrappers
  import opened Webhooks
  import opened WorkflowActivation
  import opened ActivationStartup
  import opened ActivationCluster
  import opened ClusterRetries

  // ---- one deactivation ----

  // With several mains a deactivation deletes the rows of a stored workflow, once its webhooks could be
  // cleared, and changes nothing else: no queue, no recorded error, no instance's memory.
  lemma RemoveClearsRowsOnly(c: Cluster, n: NodeId, id: WorkflowId, clears: bool, closes: bool, k: Key)
    requires n in c.nodes
    ensures var c' := ClusterStep(c, On(n, RemoveWorkflow(id, clears, closes)));
            && c'.stored == c.stored && c'.errors == c.errors && c'.nodes == c.nodes
            && Get(c'.rows, k)
               == if clears && id in c.stored && Get(c.rows, k) == Some(id) then None else Get(c.rows, k)
  {
  }

  // ---- until it is activated again ----

  // Some instance registers the workflow's webhooks: the leader serves its activation, or an instance
  // starts up.
  predicate Activates(e: ClusterEvent, id: WorkflowId) {
    && e.On?
    && match e.event
       case AddPublished(other, _) => other == id
       case StartupOne(other, mode, _) => other == id && mode == Init
       case _ => false
  }

  ghost predicate OwnIds(c: Cluster) {
    forall i :: i in c.stored ==> c.stored[i].id == i
  }

  lemma StartupOfOther(s: State, other: WorkflowId, mode: Mode, t: Tried, id: WorkflowId)
    requires StoredByOwnId(s) && NoRows(s.rows, id) && (other != id || mode == LeadershipChange)
    ensures NoRows(ActivateOne(s, other, mode, t).state.rows, id)
  {
    if other in s.stored {
      if mode == LeadershipChange {
        RowsStayWhen(s, other, mode, Some(s.stored[other]), false, t);
      } else {
        AddOwnRows(s, other, mode, Some(s.stored[other]), false, t);
      }
    }
  }

  lemma NoRowsOn(s: State, e: Event, n: NodeId, id: WorkflowId)
    requires s.multiMain && StoredByOwnId(s) && NoRows(s.rows, id) && !Activates(On(n, e), id)
    ensures NoRows(Step(s, e).state.rows, id)
  {
    if Possible(s, e) {
      match e
      case AddPublished(other, t) => AddOwnRows(s, other, Activate, None, false, t);
      case TimerFires(timer, t) => FireFrames(s, timer, t);
      case StartupOne(other, mode, t) => StartupOfOther(s, other, mode, t, id);
      case _ =>
    }
  }

  lemma NoRowsStep(c: Cluster, e: ClusterEvent, id: WorkflowId)
    requires OwnIds(c) && NoRows(c.rows, id) && !Activates(e, id)
    ensures OwnIds(ClusterStep(c, e)) && NoRows(ClusterStep(c, e).rows, id)
  {
    ClusterStepStored(c, e);
    if e.node in c.nodes {
      if e.On? {
        NoRowsOn(View(c, e.node), e.event, e.node, id);
      } else {
        LeadershipLeavesWebhooks(c, e);
      }
    }
  }

  // After a deactivation whose clearing gets through, the table has no row of the workflow in any run of
  // any number of instances, until one of them activates it.
  lemma {:induction false} RemovedHasNoRows(c: Cluster, n: NodeId, id: WorkflowId, closes: bool, es: seq<ClusterEvent>)
    requires OwnIds(c) && n in c.nodes && id in c.stored && forall i :: 0 <= i < |es| ==> !Activates(es[i], id)
    ensures var t := ClusterAfter(ClusterStep(c, On(n, RemoveWorkflow(id, true, closes))), es);
            OwnIds(t) && NoRows(t.rows, id)
    decreases |es|
  {
    var removed := ClusterStep(c, On(n, RemoveWorkflow(id, true, closes)));
    if es == [] {
      forall k | k in removed.rows
        ensures removed.rows[k] != id
      {
        RemoveClearsRowsOnly(c, n, id, true, closes, k);
      }
      assert removed.stored == c.stored;
    } else {
      RemovedHasNoRows(c, n, id, closes, es[..|es| - 1]);
      NoRowsStep(ClusterAfter(removed, es[..|es| - 1]), es[|es| - 1], id);
    }
  }

  // ---- who leads ----

  // The instance's last change of leadership.
  ghost predicate Leads(c: Cluster, es: seq<ClusterEvent>, n: NodeId)
    requires n in c.nodes
    decreases |es|
  {
    if es == [] then c.nodes[n].leader
    else if es[|es| - 1].node != n || es[|es| - 1].On? then Leads(c, es[..|es| - 1], n)
    else es[|es| - 1].TakeOver?
  }

  // An instance leads from taking over until stepping down, whatever else happens.
  lemma {:induction false} LeadsAsTold(c: Cluster, es: seq<ClusterEvent>, n: NodeId)
    requires OwnIds(c) && n in c.nodes
    ensures var t := ClusterAfter(c, es); OwnIds(t) && n in t.nodes && (t.nodes[n].leader <==> Leads(c, es, n))
    decreases |es|
  {
    if es != [] {
      var before, e := ClusterAfter(c, es[..|es| - 1]), es[|es| - 1];
      LeadsAsTold(c, es[..|es| - 1], n);
      ClusterStepStored(before, e);
      if e.node == n {
        match e
        case On(_, event) => StepFrames(View(before, n), event);
        case StepDown(_, _) =>
        case TakeOver(_, order, ts) => PassFrames(View(Promoted(before, n), n), order, LeadershipChange, ts);
      }
    }
  }
}
