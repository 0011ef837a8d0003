// The shutdown pass over the entries of the map: what becomes of each run and of each response
// somebody still waits for.
module ExecutionShutdown {
  import opened Wrappers
  import opened Concurrency
  import opened ExecutionLifecycle

  // What the pass makes of one entry, wherever in the pass its turn comes.
  function Handled(regular: bool, cancelAll: bool, entry: Option<Rec>): Option<Rec> {
    if entry.None? then None
    else if entry.value.response.Some? || (regular && cancelAll) then
      if entry.value.status == Waiting then None else Some(entry.value.(post := SettleOnce(entry.value.post, Rejected)))
    else if entry.value.status == Waiting || entry.value.status == New then None
    else entry
  }

  lemma EntryHandled(s: State, cancelAll: bool, id: ExecutionId)
    requires EntriesMatch(s)
    ensures Entry(ShutdownEntry(s, cancelAll, id), id) == Handled(s.regular, cancelAll, Entry(s, id))
  {
  }

  lemma ShutdownOther(s: State, cancelAll: bool, other: ExecutionId, id: ExecutionId)
    requires EntriesMatch(s) && other != id
    ensures var s' := ShutdownEntry(s, cancelAll, other);
            Get(s'.active, id) == Get(s.active, id) && Entry(s', id) == Entry(s, id)
  {
  }

  lemma ShrunkEntriesMatch(s: State, s': State)
    requires EntriesMatch(s) && Shrinks(s, s')
    ensures EntriesMatch(s')
  {
  }

  lemma {:induction false} ShutdownOthers(s: State, cancelAll: bool, ids: seq<ExecutionId>, id: ExecutionId)
    requires EntriesMatch(s) && id !in ids
    ensures var s' := ShutdownEntries(s, cancelAll, ids);
            EntriesMatch(s') && s'.regular == s.regular && Get(s'.active, id) == Get(s.active, id)
              && Entry(s', id) == Entry(s, id)
    decreases |ids|
  {
    if ids != [] {
      var before := ShutdownEntries(s, cancelAll, ids[..|ids| - 1]);
      ShutdownOthers(s, cancelAll, ids[..|ids| - 1], id);
      ShutdownEntryShrinks(before, cancelAll, ids[|ids| - 1]);
      ShutdownOther(before, cancelAll, ids[|ids| - 1], id);
    }
  }

  // The entry of `id` ends up as if the pass had handled it alone.
  lemma {:induction false} ShutdownHandles(s: State, cancelAll: bool, ids: seq<ExecutionId>, id: ExecutionId)
    requires EntriesMatch(s) && id in ids && Distinct(ids)
    ensures Entry(ShutdownEntries(s, cancelAll, ids), id) == Handled(s.regular, cancelAll, Entry(s, id))
    decreases |ids|
  {
    var front, last := ids[..|ids| - 1], ids[|ids| - 1];
    var before := ShutdownEntries(s, cancelAll, front);
    ShutdownShrinks(s, cancelAll, front);
    ShrunkEntriesMatch(s, before);
    if last == id {
      ShutdownOthers(s, cancelAll, front, id);
      EntryHandled(before, cancelAll, id);
    } else {
      ShutdownHandles(s, cancelAll, front, id);
      ShutdownOther(before, cancelAll, last, id);
    }
  }

  lemma ShutdownDrops(s: State, cancelAll: bool, order: seq<ExecutionId>, id: ExecutionId)
    requires Sane(s) && Entry(s, id).Some? && Entry(s, id).value.status != New
    requires Possible(s, Shutdown(cancelAll, order))
    ensures var s' := ShutdownEntries(s, cancelAll, order);
            && (id in s'.active <==> Entry(s, id).value.status != Waiting)
            && (id in s'.active ==> s'.active[id] == s.active[id])
            && Shrinks(s, s')
  {
    ShutdownHandles(s, cancelAll, order, id);
    ShutdownShrinks(s, cancelAll, order);
  }

  // ---- the partition ----

  // The ids the pass reports as cancelled, in its order.
  function ToCancel(s: State, cancelAll: bool, ids: seq<ExecutionId>): seq<ExecutionId>
    decreases |ids|
  {
    if ids == [] then []
    else
      var last := ids[|ids| - 1];
      ToCancel(s, cancelAll, ids[..|ids| - 1])
      + if Entry(s, last).Some? && Cancels(s, cancelAll, Entry(s, last).value) then [last] else []
  }

  lemma {:induction false} CanceledIff(s: State, cancelAll: bool, ids: seq<ExecutionId>, id: ExecutionId)
    ensures id in ToCancel(s, cancelAll, ids)
            <==> id in ids && Entry(s, id).Some? && Cancels(s, cancelAll, Entry(s, id).value)
    decreases |ids|
  {
    if ids != [] {
      CanceledIff(s, cancelAll, ids[..|ids| - 1], id);
    }
  }

  // Every entry is cancelled, forgotten or left alone. Cancelled are exactly the entries that owe
  // a response (in regular mode with `cancelAll`, all of them); forgotten are the waiting ones and
  // those of the others that are new; whatever else was there stays the very same run, and unless
  // it was left alone its promise is settled.
  lemma ShutdownPartitions(s: State, cancelAll: bool, order: seq<ExecutionId>, id: ExecutionId)
    requires Sane(s) && id in s.active && Possible(s, Shutdown(cancelAll, order))
    ensures var rec, s' := s.heap[s.active[id]], Next(s, Shutdown(cancelAll, order));
            var canceled := id in ToCancel(s, cancelAll, order);
            && (canceled <==> rec.response.Some? || (s.regular && cancelAll))
            && (id in s'.active <==> rec.status != Waiting && (canceled || rec.status != New))
            && (id in s'.active ==> s'.active[id] == s.active[id] && s.active[id] in s'.heap
                                    && s'.heap[s.active[id]]
                                       == if canceled then rec.(post := SettleOnce(rec.post, Rejected)) else rec)
  {
    var s0 := DisableControl(s);
    CanceledIff(s, cancelAll, order, id);
    ShutdownHandles(s0, cancelAll, order, id);
    ShutdownShrinks(s0, cancelAll, order);
  }

  // No entry appears during the pass.
  lemma ShutdownAddsNothing(s: State, cancelAll: bool, order: seq<ExecutionId>)
    requires Sane(s)
    ensures Next(s, Shutdown(cancelAll, order)).active.Keys <= s.active.Keys
    ensures Next(s, Shutdown(cancelAll, order)).pending == s.pending
  {
    OtherStepsShrink(s, Shutdown(cancelAll, order));
  }

  // ---- responses ----

  ghost predicate OwedBy(s: State, ids: seq<ExecutionId>, r: ResponseId) {
    exists id :: id in ids && Entry(s, id).Some? && Entry(s, id).value.response == Some(r)
  }

  // One iteration rejects the response its entry owes and no other.
  lemma EntryRejects(s: State, cancelAll: bool, id: ExecutionId, r: ResponseId)
    requires r in s.responses
    ensures var s' := ShutdownEntry(s, cancelAll, id);
            r in s'.responses && s'.responses[r]
              == if Entry(s, id).Some? && Entry(s, id).value.response == Some(r)
                then SettleOnce(s.responses[r], Rejected)
                 else s.responses[r]
  {
  }

  // The pass rejects the open responses some entry owes and touches no other.
  lemma {:induction false} ShutdownRejects(s: State, cancelAll: bool, ids: seq<ExecutionId>, r: ResponseId)
    requires EntriesMatch(s) && r in s.responses && Distinct(ids)
    ensures var s' := ShutdownEntries(s, cancelAll, ids);
            r in s'.responses
            && s'.responses[r] == if OwedBy(s, ids, r) then SettleOnce(s.responses[r], Rejected) else s.responses[r]
    decreases |ids|
  {
    if ids != [] {
      var front, last := ids[..|ids| - 1], ids[|ids| - 1];
      ShutdownRejects(s, cancelAll, front, r);
      ShutdownOthers(s, cancelAll, front, last);
      EntryRejects(ShutdownEntries(s, cancelAll, front), cancelAll, last, r);
      OwedByLast(s, ids, r);
    }
  }

  lemma OwedByLast(s: State, ids: seq<ExecutionId>, r: ResponseId)
    requires ids != []
    ensures OwedBy(s, ids, r) <==>
            OwedBy(s, ids[..|ids| - 1], r)
              || (Entry(s, ids[|ids| - 1]).Some? && Entry(s, ids[|ids| - 1]).value.response == Some(r))
  {
  }

  // After the pass the limits are off, so `removeAll` leaves the queues and cancels no id in storage,
  // in every mode and whatever the pass collected.
  lemma NothingCanceledInStorage(s: State, cancelAll: bool, order: seq<ExecutionId>, ids: seq<ExecutionId>)
    requires Sane(s) && Possible(s, Shutdown(cancelAll, order))
    ensures var c := Next(s, Shutdown(cancelAll, order)).control; RemovedAll(c) == c && CanceledBy(c, ids) == []
  {
    ShutdownShrinks(DisableControl(s), cancelAll, order);
  }
}
