// The startup pass: batches of stored-active workflows, each activated, retried later, given up or
// skipped, whatever becomes of the others.
module ActivationStartup {
  import opened Wrappers
  import opened Webhooks
  import opened WorkflowActivation

  // ---- batches ----

  // The ids in batches of `size`; with size 0 there are none at all.
  function Chunk(ids: seq<WorkflowId>, size: nat): seq<seq<WorkflowId>>
    decreases |ids|
  {
    if ids == [] || size == 0 then []
    else if |ids| <= size then [ids]
    else [ids[..size]] + Chunk(ids[size..], size)
  }

  function Flatten(batches: seq<seq<WorkflowId>>): seq<WorkflowId>
    decreases |batches|
  {
    if batches == [] then [] else batches[0] + Flatten(batches[1..])
  }

  // The batches hold every id once, in order; none is empty or too long, and all but the last are full.
  lemma {:induction false} ChunkPartitions(ids: seq<WorkflowId>, size: nat)
    requires size > 0
    ensures Flatten(Chunk(ids, size)) == ids
    ensures forall i :: 0 <= i < |Chunk(ids, size)| ==> 0 < |Chunk(ids, size)[i]| <= size
    ensures forall i :: 0 <= i < |Chunk(ids, size)| - 1 ==> |Chunk(ids, size)[i]| == size
    decreases |ids|
  {
    if |ids| > size {
      ChunkPartitions(ids[size..], size);
      assert Chunk(ids, size)[1..] == Chunk(ids[size..], size);
      assert ids[..size] + ids[size..] == ids;
    } else if ids != [] {
      assert Chunk(ids, size)[1..] == [];
    }
  }

  // ---- the pass ----

  function ActivateAll(s: State, ids: seq<WorkflowId>, mode: Mode, ts: WorkflowId -> Tried): State
    decreases |ids|
  {
    if ids == [] then s
    else
      var last := ids[|ids| - 1];
      ActivateOne(ActivateAll(s, ids[..|ids| - 1], mode, ts), last, mode, ts(last)).state
  }

  // Two passes in a row are one.
  lemma {:induction false} ActivateMore(s: State, a: seq<WorkflowId>, b: seq<WorkflowId>, mode: Mode,
                                        ts: WorkflowId -> Tried)
    ensures ActivateAll(s, a + b, mode, ts) == ActivateAll(ActivateAll(s, a, mode, ts), b, mode, ts)
    decreases |b|
  {
    if b == [] {
      assert a + b == a;
    } else {
      ActivateMore(s, a, b[..|b| - 1], mode, ts);
      assert (a + b)[..|a + b| - 1] == a + b[..|b| - 1];
    }
  }

  datatype Verdict = Missing | Inactive | Activated | GivenUp(message: Message) | Retried(message: Message)

  // What becomes of one workflow: no other workflow has a say in it.
  function VerdictOf(leader: bool, stored: Option<Workflow>, mode: Mode, t: Tried): Verdict {
    if stored.None? then Missing
    else
      match AttemptOutcome(leader, stored.value, mode, t)
      case Done(_) => Activated
      case Threw(m) => if Authorization(m) then GivenUp(m) else Retried(m)
      case _ => Inactive
  }

  ghost predicate SameFor(s: State, s': State, id: WorkflowId) {
    && Get(s'.retries.queue, id) == Get(s.retries.queue, id) && Get(s'.errors, id) == Get(s.errors, id)
    && (id in s'.memory <==> id in s.memory)
  }

  // What the pass makes of `id`, given how its one attempt goes.
  ghost predicate Carried(s: State, s': State, id: WorkflowId, mode: Mode, t: Tried) {
    && Decided(s, s', id, VerdictOf(s.leader, Get(s.stored, id), mode, t))
    && (id in s'.memory
       <==> if id in s.stored then Runs(id in s.memory, s.leader, s.stored[id], mode, t) else id in s.memory)
  }

  // What each verdict means for the queue and the errors.
  ghost predicate Decided(s: State, s': State, id: WorkflowId, v: Verdict) {
    match v
    case Activated => id !in s'.retries.queue && id !in s'.errors
    case GivenUp(m) => Get(s'.retries.queue, id) == Get(s.retries.queue, id) && Get(s'.errors, id) == Some(m)
    case Retried(m) =>
      && id in s'.retries.queue && id in s.stored
      && s'.retries.queue[id].(timer := 0) == Queued(Init, INITIAL_TIMEOUT, 0, s.stored[id])
      && Get(s'.errors, id) == Some(m)
    case _ => Get(s'.retries.queue, id) == Get(s.retries.queue, id) && Get(s'.errors, id) == Get(s.errors, id)
  }

  // What the pass leaves alone.
  ghost predicate Framed(s: State, s': State) {
    s'.stored == s.stored && s'.leader == s.leader && s'.multiMain == s.multiMain
  }

  lemma OneCarried(s: State, id: WorkflowId, mode: Mode, t: Tried)
    requires StoredByOwnId(s)
    ensures Carried(s, ActivateOne(s, id, mode, t).state, id, mode, t)
    ensures Framed(s, ActivateOne(s, id, mode, t).state)
  {
    if id in s.stored {
      AddRuns(s, s.stored[id], mode, false, t);
      OneDecided(s, s.stored[id], mode, t);
    }
  }

  lemma OneDecided(s: State, w: Workflow, mode: Mode, t: Tried)
    requires StoredByOwnId(s) && Get(s.stored, w.id) == Some(w)
    ensures var s' := ActivateOne(s, w.id, mode, t).state;
            Decided(s, s', w.id, VerdictOf(s.leader, Some(w), mode, t)) && Framed(s, s')
  {
    AddSettles(s, w.id, mode, Some(w), false, t);
  }

  lemma OneSpares(s: State, id: WorkflowId, mode: Mode, t: Tried, other: WorkflowId)
    requires StoredByOwnId(s) && other != id
    ensures SameFor(s, ActivateOne(s, id, mode, t).state, other)
  {
    if id in s.stored {
      AddSettles(s, id, mode, Some(s.stored[id]), false, t);
      AddStarts(s, id, mode, Some(s.stored[id]), false, t);
      MemoryOther(s.memory, Add(s, id, mode, Some(s.stored[id]), false, t).state.memory, id, other);
    }
  }

  lemma MemoryOther(a: set<WorkflowId>, b: set<WorkflowId>, id: WorkflowId, other: WorkflowId)
    requires a - {id} == b - {id} && other != id
    ensures other in a <==> other in b
  {
    assert other in a - {id} <==> other in a;
    assert other in b - {id} <==> other in b;
  }

  lemma {:induction false} PassSpares(s: State, ids: seq<WorkflowId>, mode: Mode, ts: WorkflowId -> Tried,
                                      id: WorkflowId)
    requires StoredByOwnId(s) && id !in ids
    ensures var s' := ActivateAll(s, ids, mode, ts); Framed(s, s') && SameFor(s, s', id)
    decreases |ids|
  {
    if ids != [] {
      var front, last := ids[..|ids| - 1], ids[|ids| - 1];
      PassSpares(s, front, mode, ts, id);
      OneCarried(ActivateAll(s, front, mode, ts), last, mode, ts(last));
      OneSpares(ActivateAll(s, front, mode, ts), last, mode, ts(last), id);
    }
  }

  lemma {:induction false} PassFrames(s: State, ids: seq<WorkflowId>, mode: Mode, ts: WorkflowId -> Tried)
    requires StoredByOwnId(s)
    ensures Framed(s, ActivateAll(s, ids, mode, ts))
    decreases |ids|
  {
    if ids != [] {
      var front, last := ids[..|ids| - 1], ids[|ids| - 1];
      PassFrames(s, front, mode, ts);
      OneCarried(ActivateAll(s, front, mode, ts), last, mode, ts(last));
    }
  }

  lemma CarriedOn(s: State, before: State, after: State, id: WorkflowId, mode: Mode, t: Tried)
    requires Framed(s, before)
    requires (SameFor(s, before, id) && Carried(before, after, id, mode, t))
             || (Carried(s, before, id, mode, t) && SameFor(before, after, id))
    ensures Carried(s, after, id, mode, t)
  {
  }

  // A workflow that cannot be started, or whose base data cannot be loaded, is tried again later unless
  // the message of the failure mentions authorization.
  lemma RetriedUnlessUnauthorized(s: State, w: Workflow, mode: Mode, t: Tried, text: nat, authorization: bool)
    requires StoredByOwnId(s) && Get(s.stored, w.id) == Some(w) && w.active && w.id !in s.retries.queue
    requires mode == Init || mode == LeadershipChange
    ensures !w.startable ==> (w.id in ActivateOne(s, w.id, mode, t).state.retries.queue <==> !w.authorization)
    ensures w.startable && t.base == Some(Thrown(text, authorization)) ==>
              (w.id in ActivateOne(s, w.id, mode, t).state.retries.queue <==> !authorization)
  {
    AddSettles(s, w.id, mode, Some(w), false, t);
  }

  // The pass decides each workflow by its own verdict: activated, queued with the initial timeout,
  // given up, or left alone as missing or inactive. One failure never touches another workflow,
  // whatever order the batches complete in; and workflows outside the pass stay as they are.
  lemma {:induction false} StartupPartitions(s: State, ids: seq<WorkflowId>, mode: Mode, ts: WorkflowId -> Tried,
                                             id: WorkflowId)
    requires StoredByOwnId(s) && Distinct(ids) && id in ids
    ensures Carried(s, ActivateAll(s, ids, mode, ts), id, mode, ts(id))
    decreases |ids|
  {
    var front, last := ids[..|ids| - 1], ids[|ids| - 1];
    var before := ActivateAll(s, front, mode, ts);
    PassFrames(s, front, mode, ts);
    if last == id {
      PassSpares(s, front, mode, ts, id);
      OneCarried(before, id, mode, ts(id));
    } else {
      StartupPartitions(s, front, mode, ts, id);
      OneSpares(before, last, mode, ts(last), id);
    }
    CarriedOn(s, before, ActivateAll(s, ids, mode, ts), id, mode, ts(id));
  }

  // So neither the batch size nor the order within a batch decides who runs, who is queued, and
  // with which error.
  lemma OrderIsIrrelevant(s: State, a: seq<WorkflowId>, b: seq<WorkflowId>, mode: Mode, ts: WorkflowId -> Tried)
    requires StoredByOwnId(s) && Distinct(a) && Distinct(b) && forall id :: id in a <==> id in b
    ensures ActivateAll(s, a, mode, ts).memory == ActivateAll(s, b, mode, ts).memory
    ensures ActivateAll(s, a, mode, ts).errors == ActivateAll(s, b, mode, ts).errors
    ensures ActivateAll(s, a, mode, ts).retries.queue.Keys == ActivateAll(s, b, mode, ts).retries.queue.Keys
  {
    var x, y := ActivateAll(s, a, mode, ts), ActivateAll(s, b, mode, ts);
    forall id
      ensures Get(x.errors, id) == Get(y.errors, id) && (id in x.retries.queue <==> id in y.retries.queue)
      ensures id in x.memory <==> id in y.memory
    {
      if id in a {
        StartupPartitions(s, a, mode, ts, id);
        StartupPartitions(s, b, mode, ts, id);
      } else {
        PassSpares(s, a, mode, ts, id);
        PassSpares(s, b, mode, ts, id);
      }
    }
    SameMap(x.errors, y.errors);
  }

  lemma SameMap(a: map<WorkflowId, Message>, b: map<WorkflowId, Message>)
    requires forall id :: Get(a, id) == Get(b, id)
    ensures a == b
  {
    forall id
      ensures id in a <==> id in b
      ensures id in a && id in b ==> a[id] == b[id]
    {
      assert Get(a, id) == Get(b, id);
    }
  }
}
