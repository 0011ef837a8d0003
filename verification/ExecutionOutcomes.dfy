// How each run and each response ends, told from the steps alone: what settled its promise first, what
// was attached to it last, and which workflow runs were cancelled.
module ExecutionOutcomes {
  import opened Wrappers
  import opened Concurrency
  import opened ExecutionLifecycle
  import opened ExecutionShutdown
  import opened ExecutionRuns

  // ---- steps, by what they mean for one run ----

  // The run is the entry for `id`.
  ghost predicate Is(s: State, id: ExecutionId, h: Execution) {
    id in s.active && s.active[id] == h
  }

  // The pass of a shutdown cancels the run.
  ghost predicate PassCancels(s: State, e: Event, h: Execution)
    requires h in s.heap
  {
    e.Shutdown? && Possible(s, e) && (s.heap[h].response.Some? || (s.regular && e.cancelAll))
  }

  // The step stops the run while it does not wait.
  ghost predicate StopsRun(s: State, e: Event, h: Execution) {
    && h in s.heap && Is(s, s.heap[h].id, h) && s.heap[h].status != Waiting
    && (e == Stop(s.heap[h].id) || PassCancels(s, e, h))
  }

  ghost predicate FinishesRun(s: State, e: Event, h: Execution) {
    h in s.heap && Is(s, s.heap[h].id, h) && e == Finalize(s.heap[h].id)
  }

  // ---- what the steps do to one record ----

  // The record of a run after the pass: settled if the pass cancels it and it does not wait.
  lemma {:induction false} RecordAfterPass(s: State, cancelAll: bool, ids: seq<ExecutionId>, h: Execution)
    requires EntriesMatch(s) && h in s.heap && Distinct(ids)
    ensures var s', rec := ShutdownEntries(s, cancelAll, ids), s.heap[h];
            && h in s'.heap && EntriesMatch(s')
            && s'.heap[h] == if rec.id in ids && Is(s, rec.id, h) && rec.status != Waiting
                                && (rec.response.Some? || (s.regular && cancelAll))
                             then rec.(post := if rec.post == Pending then Rejected else rec.post) else rec
    decreases |ids|
  {
    if ids != [] {
      var front, last := ids[..|ids| - 1], ids[|ids| - 1];
      var before := ShutdownEntries(s, cancelAll, front);
      RecordAfterPass(s, cancelAll, front, h);
      ShutdownOthers(s, cancelAll, front, last);
      ShutdownEntryShrinks(before, cancelAll, last);
      ShrunkEntriesMatch(before, ShutdownEntry(before, cancelAll, last));
      RecordAfterOne(before, cancelAll, last, h);
    }
  }

  lemma RecordAfterOne(s: State, cancelAll: bool, id: ExecutionId, h: Execution)
    requires EntriesMatch(s) && h in s.heap
    ensures var s', rec := ShutdownEntry(s, cancelAll, id), s.heap[h];
            && h in s'.heap
            && s'.heap[h] == if rec.id == id && Is(s, id, h) && rec.status != Waiting
                                && (rec.response.Some? || (s.regular && cancelAll))
                             then rec.(post := if rec.post == Pending then Rejected else rec.post) else rec
  {
  }

  // The record of a run after any step.
  ghost function Told(s: State, e: Event, h: Execution): Rec
    requires h in s.heap
  {
    var rec := s.heap[h];
    Rec(rec.id, rec.mode, rec.startedAt,
        if e.SetStatus? && Is(s, e.id, h) then e.status else rec.status,
        if rec.post != Pending then rec.post
        else if FinishesRun(s, e, h) then Resolved
        else if StopsRun(s, e, h) then Rejected
        else Pending,
        if e.AttachResponse? && Is(s, e.id, h) then Some(e.response) else rec.response,
        if e.AttachWorkflow? && Is(s, e.id, h) then Some(e.workflow)
        else if e == Settle(h) && Possible(s, e) && rec.status == Waiting then None
        else rec.workflow)
  }

  lemma PassTells(s: State, e: Event, h: Execution)
    requires Sane(s) && h in s.heap && e.Shutdown? && Possible(s, e)
    ensures h in Next(s, e).heap && Next(s, e).heap[h] == Told(s, e, h)
  {
    RecordAfterPass(DisableControl(s), e.cancelAll, e.order, h);
  }

  lemma CallTells(s: State, e: Event, h: Execution)
    requires Sane(s) && h in s.heap && (e.AttachWorkflow? || e.AttachResponse? || e.SetStatus? || e.Finalize?)
    ensures h in Next(s, e).heap && Next(s, e).heap[h] == Told(s, e, h)
  {
  }

  lemma StopTells(s: State, e: Event, h: Execution)
    requires Sane(s) && h in s.heap && e.Stop?
    ensures h in Next(s, e).heap && Next(s, e).heap[h] == Told(s, e, h)
  {
  }

  lemma SettleTells(s: State, e: Event, h: Execution)
    requires Sane(s) && h in s.heap && e.Settle? && Possible(s, e)
    ensures h in Next(s, e).heap && Next(s, e).heap[h] == Told(s, e, h)
  {
  }

  lemma OtherTells(s: State, e: Event, h: Execution)
    requires Sane(s) && h in s.heap && Possible(s, e) && !e.Settle?
    requires !e.AttachWorkflow? && !e.AttachResponse? && !e.SetStatus? && !e.Finalize? && !e.Stop? && !e.Shutdown?
    ensures h in Next(s, e).heap && Next(s, e).heap[h] == Told(s, e, h)
  {
  }

  lemma StepTells(s: State, e: Event, h: Execution)
    requires Sane(s) && h in s.heap
    ensures h in Next(s, e).heap && Next(s, e).heap[h] == Told(s, e, h)
  {
    if e.AttachWorkflow? || e.AttachResponse? || e.SetStatus? || e.Finalize? {
      CallTells(s, e, h);
    } else if e.Stop? {
      StopTells(s, e, h);
    } else if Possible(s, e) {
      if e.Shutdown? {
        PassTells(s, e, h);
      } else if e.Settle? {
        SettleTells(s, e, h);
      } else {
        OtherTells(s, e, h);
      }
    }
  }

  // ---- the history of one run ----

  ghost predicate Inserts(s: State, e: Event, h: Execution) {
    e.Insert? && Possible(s, e) && e.run == h
  }

  // What settled the promise of the run first.
  ghost function Verdict(s: State, es: seq<Event>, h: Execution): Promise
    decreases |es|
  {
    if es == [] then Pending
    else
      var before, e := After(s, es[..|es| - 1]), es[|es| - 1];
      if Verdict(s, es[..|es| - 1], h) != Pending then Verdict(s, es[..|es| - 1], h)
      else if FinishesRun(before, e, h) then Resolved
      else if StopsRun(before, e, h) then Rejected
      else Pending
  }

  // The status set last while the run was the entry. It starts as running.
  ghost function StatusSet(s: State, es: seq<Event>, h: Execution): Status
    decreases |es|
  {
    if es == [] then Running
    else
      var before, e := After(s, es[..|es| - 1]), es[|es| - 1];
      if e.SetStatus? && Is(before, e.id, h) then e.status else StatusSet(s, es[..|es| - 1], h)
  }

  // The workflow run attached last while the run was the entry, unless its callback ran while it waited.
  ghost function Attached(s: State, es: seq<Event>, h: Execution): Option<WorkflowRun>
    decreases |es|
  {
    if es == [] then None
    else
      var before, e := After(s, es[..|es| - 1]), es[|es| - 1];
      if e.AttachWorkflow? && Is(before, e.id, h) then Some(e.workflow)
      else if e == Settle(h) && Possible(before, e) && StatusSet(s, es[..|es| - 1], h) == Waiting then None
      else Attached(s, es[..|es| - 1], h)
  }

  // Before a run exists nothing happens to it.
  lemma Untold(s: State, e: Event, h: Execution)
    requires Sane(s) && h !in s.heap
    ensures !FinishesRun(s, e, h) && !StopsRun(s, e, h) && !(e == Settle(h) && Possible(s, e))
    ensures forall id :: !Is(s, id, h)
    ensures h in Next(s, e).heap <==> Inserts(s, e, h)
    ensures h in Next(s, e).heap ==>
              var rec := Next(s, e).heap[h]; rec.status == Running && rec.post == Pending && rec.workflow == None
  {
    if !ChangesQueues(e) {
      OtherStepsShrink(s, e);
    }
  }

  // In every run of the program: the promise of a run is resolved if and only if the step that settled it
  // first was the one that finalized it while it was the entry, and rejected if and only if that step
  // stopped it, or was a pass that cancelled it, while it did not wait. Its status is the one set last and
  // its workflow the one attached last.
  lemma {:induction false} RunsEndAsTold(s: State, es: seq<Event>, h: Execution, limits: map<QueueType, int>)
    requires Initial(s, limits)
    ensures var t := After(s, es);
            if h in t.heap then
              && t.heap[h].post == Verdict(s, es, h)
              && t.heap[h].status == StatusSet(s, es, h)
              && t.heap[h].workflow == Attached(s, es, h)
            else
              Verdict(s, es, h) == Pending && StatusSet(s, es, h) == Running && Attached(s, es, h) == None
    decreases |es|
  {
    if es != [] {
      var front, last := es[..|es| - 1], es[|es| - 1];
      RunsEndAsTold(s, front, h, limits);
      RunsAreSane(s, front);
      if h in After(s, front).heap {
        StepTells(After(s, front), last, h);
      } else {
        Untold(After(s, front), last, h);
      }
    }
  }

  // ---- cancelled workflow runs ----

  // The step stops, while it does not wait, a run to which `w` is attached.
  ghost predicate Cuts(s: State, e: Event, w: WorkflowRun) {
    exists h :: h in s.heap && StopsRun(s, e, h) && s.heap[h].workflow == Some(w)
  }

  // The entry is one that the pass cancels while it runs `w`.
  ghost predicate CutByPass(s: State, cancelAll: bool, id: ExecutionId, w: WorkflowRun) {
    && id in s.active && s.active[id] in s.heap
    && var rec := s.heap[s.active[id]];
       rec.status != Waiting && rec.workflow == Some(w) && (rec.response.Some? || (s.regular && cancelAll))
  }

  lemma CanceledByOne(s: State, cancelAll: bool, id: ExecutionId, w: WorkflowRun)
    ensures w in ShutdownEntry(s, cancelAll, id).canceled <==> w in s.canceled || CutByPass(s, cancelAll, id, w)
  {
  }

  lemma {:induction false} CanceledByPass(s: State, cancelAll: bool, ids: seq<ExecutionId>, w: WorkflowRun)
    requires EntriesMatch(s) && Distinct(ids)
    ensures w in ShutdownEntries(s, cancelAll, ids).canceled
            <==> w in s.canceled || exists id :: id in ids && CutByPass(s, cancelAll, id, w)
    decreases |ids|
  {
    if ids != [] {
      var front, last := ids[..|ids| - 1], ids[|ids| - 1];
      CanceledByPass(s, cancelAll, front, w);
      ShutdownOthers(s, cancelAll, front, last);
      CanceledByOne(ShutdownEntries(s, cancelAll, front), cancelAll, last, w);
      assert CutByPass(ShutdownEntries(s, cancelAll, front), cancelAll, last, w) <==> CutByPass(s, cancelAll, last, w);
      assert forall id :: id in ids <==> id in front || id == last;
    }
  }

  lemma PassCuts(s: State, e: Event, w: WorkflowRun)
    requires Sane(s) && e.Shutdown? && Possible(s, e)
    ensures Cuts(s, e, w) <==> exists id :: id in e.order && CutByPass(DisableControl(s), e.cancelAll, id, w)
  {
    if Cuts(s, e, w) {
      var h :| h in s.heap && StopsRun(s, e, h) && s.heap[h].workflow == Some(w);
      assert CutByPass(DisableControl(s), e.cancelAll, s.heap[h].id, w);
    }
    if id :| id in e.order && CutByPass(DisableControl(s), e.cancelAll, id, w) {
      assert StopsRun(s, e, s.active[id]);
    }
  }

  lemma StopCuts(s: State, e: Event, w: WorkflowRun)
    requires Sane(s) && e.Stop?
    ensures w in Next(s, e).canceled <==> w in s.canceled || Cuts(s, e, w)
  {
    if e.id in s.active {
      var h := s.active[e.id];
      assert StopsRun(s, e, h) <==> s.heap[h].status != Waiting;
    }
  }

  lemma CanceledStep(s: State, e: Event, w: WorkflowRun)
    requires Sane(s)
    ensures w in Next(s, e).canceled <==> w in s.canceled || Cuts(s, e, w)
  {
    if e.Stop? {
      StopCuts(s, e, w);
    } else if e.Shutdown? && Possible(s, e) {
      CanceledByPass(DisableControl(s), e.cancelAll, e.order, w);
      PassCuts(s, e, w);
    } else {
      OtherStepsCutNothing(s, e, w);
    }
  }

  lemma OtherStepsCutNothing(s: State, e: Event, w: WorkflowRun)
    requires !e.Stop? && (e.Shutdown? ==> !Possible(s, e))
    ensures Next(s, e).canceled == s.canceled && !Cuts(s, e, w)
  {
  }

  ghost predicate CutLast(s: State, front: seq<Event>, last: Event, w: WorkflowRun) {
    var before := After(s, front);
    exists h :: h in before.heap && StopsRun(before, last, h) && Attached(s, front, h) == Some(w)
  }

  // Some step of the run stopped an execution that did not wait while `w` was the workflow run attached
  // to its current run last.
  ghost predicate CutIn(s: State, es: seq<Event>, w: WorkflowRun)
    decreases |es|
  {
    && es != []
    && (CutIn(s, es[..|es| - 1], w) || CutLast(s, es[..|es| - 1], es[|es| - 1], w))
  }

  // A workflow run is cancelled in exactly those cases.
  lemma {:induction false} CanceledIffCut(s: State, es: seq<Event>, w: WorkflowRun, limits: map<QueueType, int>)
    requires Initial(s, limits)
    ensures w in After(s, es).canceled <==> CutIn(s, es, w)
    decreases |es|
  {
    if es != [] {
      var front, last := es[..|es| - 1], es[|es| - 1];
      CanceledIffCut(s, front, w, limits);
      RunsAreSane(s, front);
      CanceledStep(After(s, front), last, w);
      CutsAsTold(s, front, last, w, limits);
    }
  }

  lemma CutsAsTold(s: State, front: seq<Event>, last: Event, w: WorkflowRun, limits: map<QueueType, int>)
    requires Initial(s, limits)
    ensures Cuts(After(s, front), last, w) <==> CutLast(s, front, last, w)
  {
    forall h | h in After(s, front).heap && StopsRun(After(s, front), last, h)
      ensures After(s, front).heap[h].workflow == Attached(s, front, h)
    {
      RunsEndAsTold(s, front, h, limits);
    }
  }

  // ---- responses ----

  ghost predicate Owes(s: State, id: ExecutionId, r: ResponseId) {
    id in s.active && s.active[id] in s.heap && s.heap[s.active[id]].response == Some(r)
  }

  // A response is answered for the execution that owes it, or cleaned up when that does not wait.
  ghost predicate Answers(s: State, e: Event, r: ResponseId) {
    match e
    case ResolveResponse(id) => Owes(s, id, r)
    case CleanResponse(id) => Owes(s, id, r) && s.heap[s.active[id]].status != Waiting
    case _ => false
  }

  // It is refused when that execution is stopped, waiting or not, and in every pass.
  ghost predicate Refuses(s: State, e: Event, r: ResponseId) {
    match e
    case Stop(id) => Owes(s, id, r)
    case Shutdown(_, _) => Possible(s, e) && exists id :: Owes(s, id, r)
    case _ => false
  }

  ghost predicate Brings(s: State, e: Event, r: ResponseId) {
    e.AttachResponse? && e.response == r && e.id in s.active
  }

  // Which step settled the response first, once it was attached to an execution.
  ghost function Reply(s: State, es: seq<Event>, r: ResponseId): Option<Promise>
    decreases |es|
  {
    if es == [] then None
    else
      var before, e, was := After(s, es[..|es| - 1]), es[|es| - 1], Reply(s, es[..|es| - 1], r);
      if was == None then if Brings(before, e, r) then Some(Pending) else None
      else if was != Some(Pending) then was
      else if Answers(before, e, r) then Some(Resolved)
      else if Refuses(before, e, r) then Some(Rejected)
      else Some(Pending)
  }

  // Only attached responses are owed.
  ghost predicate OwedKnown(s: State) {
    forall h :: h in s.heap && s.heap[h].response.Some? ==> s.heap[h].response.value in s.responses
  }

  lemma PassReplies(s: State, e: Event, r: ResponseId)
    requires Sane(s) && e.Shutdown? && Possible(s, e) && r in s.responses
    ensures Get(Next(s, e).responses, r)
         == Some(if s.responses[r] == Pending && Refuses(s, e, r) then Rejected else s.responses[r])
  {
    ShutdownRejects(DisableControl(s), e.cancelAll, e.order, r);
    OwedInPass(s, e, r);
  }

  lemma OwedInPass(s: State, e: Event, r: ResponseId)
    requires Sane(s) && e.Shutdown? && Possible(s, e)
    ensures OwedBy(DisableControl(s), e.order, r) <==> Refuses(s, e, r)
  {
    if Refuses(s, e, r) {
      var id :| Owes(s, id, r);
      assert id in e.order && Entry(DisableControl(s), id).Some?;
    }
    if OwedBy(DisableControl(s), e.order, r) {
      var id :| id in e.order && Entry(DisableControl(s), id).Some?
        && Entry(DisableControl(s), id).value.response == Some(r);
      assert Owes(s, id, r);
    }
  }

  lemma {:induction false} PassKeepsUnknown(s: State, cancelAll: bool, ids: seq<ExecutionId>)
    ensures ShutdownEntries(s, cancelAll, ids).responses.Keys == s.responses.Keys
    decreases |ids|
  {
    if ids != [] {
      PassKeepsUnknown(s, cancelAll, ids[..|ids| - 1]);
    }
  }

  // What a step makes of a response.
  ghost predicate Replies(s: State, e: Event, r: ResponseId) {
    Get(Next(s, e).responses, r)
    == if r !in s.responses then if Brings(s, e, r) then Some(Pending) else None
       else if s.responses[r] != Pending then Some(s.responses[r])
       else if Answers(s, e, r) then Some(Resolved)
       else if Refuses(s, e, r) then Some(Rejected)
       else Some(Pending)
  }

  lemma CallReplies(s: State, e: Event, r: ResponseId)
    requires Sane(s) && OwedKnown(s) && (e.AttachResponse? || e.ResolveResponse? || e.CleanResponse? || e.Stop?)
    ensures Replies(s, e, r)
  {
  }

  lemma OtherStepsReplyNothing(s: State, e: Event, r: ResponseId)
    requires !e.AttachResponse? && !e.ResolveResponse? && !e.CleanResponse? && !e.Stop?
    requires e.Shutdown? ==> !Possible(s, e)
    ensures Replies(s, e, r)
  {
  }

  lemma StepReplies(s: State, e: Event, r: ResponseId)
    requires Sane(s) && OwedKnown(s)
    ensures Replies(s, e, r)
  {
    if e.Shutdown? && Possible(s, e) {
      PassKeepsUnknown(DisableControl(s), e.cancelAll, e.order);
      if r in s.responses {
        PassReplies(s, e, r);
      }
    } else if e.AttachResponse? || e.ResolveResponse? || e.CleanResponse? || e.Stop? {
      CallReplies(s, e, r);
    } else {
      OtherStepsReplyNothing(s, e, r);
    }
  }

  lemma OwedKnownStep(s: State, e: Event)
    requires Sane(s) && OwedKnown(s)
    ensures OwedKnown(Next(s, e))
  {
    forall h | h in Next(s, e).heap && Next(s, e).heap[h].response.Some?
      ensures Next(s, e).heap[h].response.value in Next(s, e).responses
    {
      var r := Next(s, e).heap[h].response.value;
      StepReplies(s, e, r);
      if h in s.heap {
        StepTells(s, e, h);
      } else {
        InheritsResponse(s, e, h);
      }
    }
  }

  // A run starts with the response of the entry it replaces, or with none.
  lemma InheritsResponse(s: State, e: Event, h: Execution)
    requires Sane(s) && h !in s.heap && h in Next(s, e).heap
    ensures var id, response := Next(s, e).heap[h].id, Next(s, e).heap[h].response;
            response == if id in s.active then s.heap[s.active[id]].response else None
  {
    Untold(s, e, h);
  }

  // In every run of the program: a response is known once it was attached to an execution that has an
  // entry; it is resolved if and only if the step that settled it first answered it for the execution
  // that owes it, and rejected if and only if that step stopped the execution or was a shutdown pass.
  lemma {:induction false} ResponsesEndAsTold(s: State, es: seq<Event>, r: ResponseId, limits: map<QueueType, int>)
    requires Initial(s, limits)
    ensures OwedKnown(After(s, es)) && Get(After(s, es).responses, r) == Reply(s, es, r)
    decreases |es|
  {
    if es != [] {
      var front, last := es[..|es| - 1], es[|es| - 1];
      ResponsesEndAsTold(s, front, r, limits);
      RunsAreSane(s, front);
      StepReplies(After(s, front), last, r);
      OwedKnownStep(After(s, front), last);
    }
  }
}
