// Registration of a workflow's webhooks (packages/cli/src/active-workflow-manager.ts, addWebhooks
// and clearWebhooks) over the table of packages/cli/src/webhooks/webhook.service.ts: it is not a
// transaction, a failure is compensated by deleting the workflow's rows.
module Webhooks {
  import opened Wrappers

  type WorkflowId = nat

  // A method and path, which is what the table is unique on.
  type Key = nat

  // The table: which workflow answers to a key.
  type Rows = map<Key, WorkflowId>

  // Error messages matter only for whether they mention authorization.
  datatype Message = NotFound(id: WorkflowId) | NotStartable(id: WorkflowId, authorization: bool)
                   | Thrown(text: nat, authorization: bool)

  // How one webhook fares: its row is written and the external service accepts it, or one of the
  // two throws, possibly as a database query error.
  datatype Attempt = Accepted | StoreFailed(query: bool, message: Message) | CreateFailed(query: bool, message: Message)

  predicate Breaks(init: bool, a: Attempt) {
    !a.Accepted? && !(init && a.query)
  }

  function Head(attempts: seq<Attempt>): Attempt {
    if attempts == [] then Accepted else attempts[0]
  }

  function Tail(attempts: seq<Attempt>): seq<Attempt> {
    if attempts == [] then [] else attempts[1..]
  }

  // The message the loop throws, if it does.
  function LoopFailure(keys: seq<Key>, init: bool, attempts: seq<Attempt>): Option<Message>
    decreases |keys|
  {
    if keys == [] then None
    else if Breaks(init, Head(attempts)) then Some(Head(attempts).message)
    else LoopFailure(keys[1..], init, Tail(attempts))
  }

  // The table as the loop leaves it. Writing a row replaces whatever row has its key.
  function Register(rows: Rows, id: WorkflowId, keys: seq<Key>, init: bool, attempts: seq<Attempt>): Rows
    decreases |keys|
  {
    if keys == [] then rows
    else
      var after := if Head(attempts).StoreFailed? then rows else rows[keys[0] := id];
      if Breaks(init, Head(attempts)) then after else Register(after, id, keys[1..], init, Tail(attempts))
  }

  function Cleared(rows: Rows, id: WorkflowId): Rows {
    map k | k in rows && rows[k] != id :: rows[k]
  }

  datatype Registration = Registration(rows: Rows, failure: Option<Message>)

  // `tail` is the failure of the calls after the loop, which nothing compensates; `clears` says
  // whether the compensating clear gets through.
  function AddWebhooks(rows: Rows, id: WorkflowId, keys: seq<Key>, init: bool, attempts: seq<Attempt>,
                       tail: Option<Message>, clears: bool): Registration {
    var after := Register(rows, id, keys, init, attempts);
    var failure := LoopFailure(keys, init, attempts);
    if keys == [] then Registration(rows, None)
    else if failure.Some? then Registration(if clears then Cleared(after, id) else after, failure)
    else Registration(after, tail)
  }

  // ---- what the loop writes ----

  // The keys whose rows the loop writes before it ends or breaks off.
  function Written(keys: seq<Key>, init: bool, attempts: seq<Attempt>): set<Key>
    decreases |keys|
  {
    if keys == [] then {}
    else
      (if Head(attempts).StoreFailed? then {} else {keys[0]})
      + if Breaks(init, Head(attempts)) then {} else Written(keys[1..], init, Tail(attempts))
  }

  lemma {:induction false} RegisterWrites(rows: Rows, id: WorkflowId, keys: seq<Key>, init: bool,
                                          attempts: seq<Attempt>)
    ensures forall k ::
              Get(Register(rows, id, keys, init, attempts), k)
              == if k in Written(keys, init, attempts) then Some(id) else Get(rows, k)
    decreases |keys|
  {
    if keys != [] {
      var after := if Head(attempts).StoreFailed? then rows else rows[keys[0] := id];
      if !Breaks(init, Head(attempts)) {
        RegisterWrites(after, id, keys[1..], init, Tail(attempts));
      }
    }
  }

  lemma {:induction false} AllWritten(keys: seq<Key>, attempts: seq<Attempt>)
    requires LoopFailure(keys, false, attempts).None?
    ensures forall i :: 0 <= i < |keys| ==> keys[i] in Written(keys, false, attempts)
    decreases |keys|
  {
    if keys != [] {
      AllWritten(keys[1..], Tail(attempts));
      forall i | 0 <= i < |keys|
        ensures keys[i] in Written(keys, false, attempts)
      {
        assert i > 0 ==> keys[1..][i - 1] == keys[i];
      }
    }
  }

  // ---- the same, attempt by attempt ----

  // How the webhook at position `i` fares.
  function AttemptAt(attempts: seq<Attempt>, i: nat): Attempt {
    if i < |attempts| then attempts[i] else Accepted
  }

  // The loop goes on after it: nothing failed, or a database query did during startup.
  predicate GoesOn(init: bool, attempts: seq<Attempt>, i: nat) {
    var a := AttemptAt(attempts, i);
    a == Accepted || (init && a.query)
  }

  lemma TailAt(init: bool, attempts: seq<Attempt>, i: nat)
    ensures AttemptAt(Tail(attempts), i) == AttemptAt(attempts, i + 1)
    ensures GoesOn(init, Tail(attempts), i) == GoesOn(init, attempts, i + 1)
  {
  }

  // The loop breaks off at the first webhook it does not go on after, and throws what that threw; without
  // one it throws nothing.
  lemma {:induction false} LoopStopsAt(keys: seq<Key>, init: bool, attempts: seq<Attempt>) returns (i: nat)
    ensures i <= |keys| && forall j :: 0 <= j < i ==> GoesOn(init, attempts, j)
    ensures i < |keys| ==> !GoesOn(init, attempts, i)
    ensures LoopFailure(keys, init, attempts) == if i < |keys| then Some(AttemptAt(attempts, i).message) else None
    decreases |keys|
  {
    i := 0;
    if keys != [] && GoesOn(init, attempts, 0) {
      var k := LoopStopsAt(keys[1..], init, Tail(attempts));
      i := k + 1;
      TailAt(init, attempts, k);
      forall j | 0 <= j < i
        ensures GoesOn(init, attempts, j)
      {
        if j > 0 {
          TailAt(init, attempts, j - 1);
          assert GoesOn(init, Tail(attempts), j - 1);
        }
      }
    }
  }

  // The webhook at position `i` is reached and its row is written.
  predicate Stores(init: bool, attempts: seq<Attempt>, i: nat) {
    !AttemptAt(attempts, i).StoreFailed? && forall j :: 0 <= j < i ==> GoesOn(init, attempts, j)
  }

  lemma {:induction false} StoredIsWritten(keys: seq<Key>, init: bool, attempts: seq<Attempt>, i: nat)
    requires i < |keys| && Stores(init, attempts, i)
    ensures keys[i] in Written(keys, init, attempts)
    decreases |keys|
  {
    if i > 0 {
      assert GoesOn(init, attempts, 0);
      forall j | 0 <= j < i - 1
        ensures GoesOn(init, Tail(attempts), j)
      {
        TailAt(init, attempts, j);
      }
      TailAt(init, attempts, i - 1);
      StoredIsWritten(keys[1..], init, Tail(attempts), i - 1);
    }
  }

  lemma {:induction false} WrittenIsStored(keys: seq<Key>, init: bool, attempts: seq<Attempt>, k: Key) returns (i: nat)
    requires k in Written(keys, init, attempts)
    ensures i < |keys| && keys[i] == k && Stores(init, attempts, i)
    decreases |keys|
  {
    i := 0;
    if keys[0] != k || Head(attempts).StoreFailed? {
      var later := WrittenIsStored(keys[1..], init, Tail(attempts), k);
      i := later + 1;
      TailAt(init, attempts, later);
      forall j | 0 <= j < i
        ensures GoesOn(init, attempts, j)
      {
        if j > 0 {
          TailAt(init, attempts, j - 1);
          assert GoesOn(init, Tail(attempts), j - 1);
        }
      }
    }
  }

  // The table after the loop, webhook by webhook: a key is the workflow's if some webhook with it was
  // reached and stored, and is as before otherwise.
  lemma RegisterStores(rows: Rows, id: WorkflowId, keys: seq<Key>, init: bool, attempts: seq<Attempt>, k: Key)
    ensures Get(Register(rows, id, keys, init, attempts), k)
         == if exists i :: 0 <= i < |keys| && keys[i] == k && Stores(init, attempts, i) then Some(id) else Get(rows, k)
  {
    RegisterWrites(rows, id, keys, init, attempts);
    if k in Written(keys, init, attempts) {
      var i := WrittenIsStored(keys, init, attempts, k);
    }
    if i :| 0 <= i < |keys| && keys[i] == k && Stores(init, attempts, i) {
      StoredIsWritten(keys, init, attempts, i);
    }
  }

  predicate NoRows(rows: Rows, id: WorkflowId) {
    forall k :: k in rows ==> rows[k] != id
  }

  // ---- all or nothing, and when not ----

  // Outside of startup, a registration that returns has every webhook of the workflow in the table.
  lemma RegisteredWhole(rows: Rows, id: WorkflowId, keys: seq<Key>, attempts: seq<Attempt>, tail: Option<Message>,
                        clears: bool)
    requires AddWebhooks(rows, id, keys, false, attempts, tail, clears).failure.None?
    ensures var after := AddWebhooks(rows, id, keys, false, attempts, tail, clears).rows;
            forall i :: 0 <= i < |keys| ==> Get(after, keys[i]) == Some(id)
  {
    if keys != [] {
      AllWritten(keys, attempts);
      RegisterWrites(rows, id, keys, false, attempts);
    }
  }

  // A registration leaves no row of the workflow if and only if the loop broke off and its clear
  // got through, or there was no row before and none was written. So a failure of the calls after
  // the loop leaves the workflow's rows in the table.
  lemma NoRowsLeftIff(rows: Rows, id: WorkflowId, keys: seq<Key>, init: bool, attempts: seq<Attempt>,
                      tail: Option<Message>, clears: bool)
    ensures NoRows(AddWebhooks(rows, id, keys, init, attempts, tail, clears).rows, id)
            <==> (LoopFailure(keys, init, attempts).Some? && clears)
                 || (NoRows(rows, id) && Written(keys, init, attempts) == {})
  {
    var after := Register(rows, id, keys, init, attempts);
    RegisterWrites(rows, id, keys, init, attempts);
    NoRowsIff(rows, after, id, Written(keys, init, attempts));
  }

  lemma NoRowsIff(rows: Rows, after: Rows, id: WorkflowId, written: set<Key>)
    requires forall k :: Get(after, k) == if k in written then Some(id) else Get(rows, k)
    ensures NoRows(after, id) <==> NoRows(rows, id) && written == {}
  {
    if NoRows(after, id) {
      forall k | k in rows
        ensures rows[k] != id
      {
        assert Get(after, k) == if k in written then Some(id) else Get(rows, k);
      }
      forall k
        ensures k !in written
      {
        assert Get(after, k) == if k in written then Some(id) else Get(rows, k);
      }
    } else {
      var k :| k in after && after[k] == id;
      assert Get(after, k) == if k in written then Some(id) else Get(rows, k);
    }
  }

  // What a registration promises: every webhook of the workflow stored, or an error and no row of it.
  predicate AllOrNothing(r: Registration, id: WorkflowId, keys: seq<Key>) {
    if r.failure.None? then forall i :: 0 <= i < |keys| ==> Get(r.rows, keys[i]) == Some(id) else NoRows(r.rows, id)
  }

  // Outside of startup, whatever rows were there and whatever fails, a registration is all or nothing
  // if and only if nothing fails, or the loop broke off and its clear got through, or there was no row
  // of the workflow before and none was written.
  lemma AllOrNothingIff(rows: Rows, id: WorkflowId, keys: seq<Key>, attempts: seq<Attempt>, tail: Option<Message>,
                        clears: bool)
    ensures var r := AddWebhooks(rows, id, keys, false, attempts, tail, clears);
            AllOrNothing(r, id, keys)
            <==> r.failure.None?
                 || (LoopFailure(keys, false, attempts).Some? && clears)
                 || (NoRows(rows, id) && Written(keys, false, attempts) == {})
  {
    if AddWebhooks(rows, id, keys, false, attempts, tail, clears).failure.None? {
      RegisteredWhole(rows, id, keys, attempts, tail, clears);
    } else {
      NoRowsLeftIff(rows, id, keys, false, attempts, tail, clears);
    }
  }

  // ---- rows of other workflows ----

  predicate SameOthers(rows: Rows, rows': Rows, id: WorkflowId) {
    && (forall k :: k in rows && rows[k] != id ==> k in rows' && rows'[k] == rows[k])
    && (forall k :: k in rows' && rows'[k] != id ==> k in rows && rows[k] == rows'[k])
  }

  // No key that gets written belongs to another workflow.
  predicate FreeOfOthers(rows: Rows, id: WorkflowId, keys: set<Key>) {
    forall k :: k in keys && k in rows ==> rows[k] == id
  }

  // A write takes over a row that another workflow has under the same key: the rows of the others
  // stay as they are if and only if no written key is theirs, whether the registration returns,
  // throws, or throws without clearing.
  lemma OthersKeptIff(rows: Rows, id: WorkflowId, keys: seq<Key>, init: bool, attempts: seq<Attempt>,
                      tail: Option<Message>, clears: bool)
    ensures SameOthers(rows, AddWebhooks(rows, id, keys, init, attempts, tail, clears).rows, id)
            <==> FreeOfOthers(rows, id, Written(keys, init, attempts))
  {
    var after := Register(rows, id, keys, init, attempts);
    RegisterWrites(rows, id, keys, init, attempts);
    SameOthersIff(rows, after, id, Written(keys, init, attempts));
    assert SameOthers(rows, after, id) <==> SameOthers(rows, Cleared(after, id), id);
  }

  lemma SameOthersIff(rows: Rows, after: Rows, id: WorkflowId, written: set<Key>)
    requires forall k :: Get(after, k) == if k in written then Some(id) else Get(rows, k)
    ensures SameOthers(rows, after, id) <==> FreeOfOthers(rows, id, written)
  {
    forall k | k in written
      ensures k in after && after[k] == id
    {
      assert Get(after, k) == if k in written then Some(id) else Get(rows, k);
    }
    forall k | k !in written
      ensures k in after <==> k in rows
      ensures k in rows ==> after[k] == rows[k]
    {
      assert Get(after, k) == if k in written then Some(id) else Get(rows, k);
    }
  }

  // A registration never writes a row for a workflow other than its own.
  lemma WritesOwnRows(rows: Rows, id: WorkflowId, keys: seq<Key>, init: bool, attempts: seq<Attempt>,
                      tail: Option<Message>, clears: bool)
    ensures var after := AddWebhooks(rows, id, keys, init, attempts, tail, clears).rows;
            forall k :: k in after && after[k] != id ==> k in rows && rows[k] == after[k]
  {
    RegisterWrites(rows, id, keys, init, attempts);
    OwnRows(rows, Register(rows, id, keys, init, attempts), id, Written(keys, init, attempts));
  }

  lemma OwnRows(rows: Rows, after: Rows, id: WorkflowId, written: set<Key>)
    requires forall k :: Get(after, k) == if k in written then Some(id) else Get(rows, k)
    ensures forall k :: k in after && after[k] != id ==> k in rows && rows[k] == after[k]
  {
    forall k | k in after && after[k] != id
      ensures k in rows && rows[k] == after[k]
    {
      assert Get(after, k) == if k in written then Some(id) else Get(rows, k);
    }
  }

  // A row taken over is gone for good once the registration that took it fails and clears.
  lemma TakenRowsAreLost(rows: Rows, id: WorkflowId, keys: seq<Key>, init: bool, attempts: seq<Attempt>, k: Key)
    requires LoopFailure(keys, init, attempts).Some? && k in Written(keys, init, attempts)
    ensures k !in AddWebhooks(rows, id, keys, init, attempts, None, true).rows
  {
    RegisterWrites(rows, id, keys, init, attempts);
    assert Get(Register(rows, id, keys, init, attempts), k) == Some(id);
    assert keys != [];
    assert k !in Cleared(Register(rows, id, keys, init, attempts), id);
  }
}
