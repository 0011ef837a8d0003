// packages/cli/src/credentials-overwrites.ts: operator-supplied field values for credential types,
// inherited along `extends` in two stages.
module CredentialsOverwrites {
  import opened Wrappers
  import opened FirstOccurrences
  import opened CredentialGraph
  import opened CredentialTypes

  datatype Field = Field(name: string)

  datatype Value = Null | Undefined | Text(s: string) | Other(id: nat)

  type Fields = map<Field, Value>
  type Overwrites = map<CredType, Fields>

  function OrEmpty(o: Option<Fields>): Fields {
    if o.Some? then o.value else map[]
  }

  ghost predicate Has(o: Overwrites, t: CredType, f: Field) {
    t in o && f in o[t]
  }

  // ---- first stage: the memoised merge that fills the stored overwrites ----

  datatype Resolution = Resolution(done: seq<CredType>, result: Option<Fields>)

  // What getOverwrites returns and which types it leaves marked as resolved.
  ghost function Resolve(d: Declared, o: Overwrites, done: seq<CredType>, t: CredType, rank: Ranks): Resolution
    requires Ranked(d, rank)
    decreases Rank(rank, t), |Parents(d, t)| + 1
  {
    if t in done then Resolution(done, Get(o, t))
    else if t !in d then Resolution(done, None)
    else if d[t].None? then Resolution(done + [t], Get(o, t))
    else
      var inherited := ResolveParents(d, o, done, t, |Parents(d, t)|, rank);
      Resolution(inherited.done + [t], Some(OrEmpty(inherited.result) + OrEmpty(Get(o, t))))
  }

  ghost function ResolveParents(d: Declared, o: Overwrites, done: seq<CredType>, t: CredType, i: nat,
                                rank: Ranks): Resolution
    requires Ranked(d, rank) && i <= |Parents(d, t)|
    decreases Rank(rank, t), i
  {
    if i == 0 then
      Resolution(done, Some(map[]))
    else
      assert Parents(d, t)[i - 1] in Parents(d, t);
      var before := ResolveParents(d, o, done, t, i - 1, rank);
      var parent := Resolve(d, o, before.done, Parents(d, t)[i - 1], rank);
      Resolution(parent.done, Some(OrEmpty(before.result) + OrEmpty(parent.result)))
  }

  datatype Store = Store(overwrites: Overwrites, done: seq<CredType>)

  // The stored overwrites after setData handled the first `i` keys.
  ghost function Filled(d: Declared, data: Overwrites, order: seq<CredType>, i: nat, rank: Ranks): Store
    requires Ranked(d, rank) && i <= |order|
  {
    if i == 0 then
      Store(data, [])
    else
      var s := Filled(d, data, order, i - 1, rank);
      var r := Resolve(d, s.overwrites, s.done, order[i - 1], rank);
      var stores := r.result.Some? && r.result.value != map[];
      Store(if stores then s.overwrites[order[i - 1] := r.result.value] else s.overwrites, r.done)
  }

  // `order` enumerates the keys of `data`, each once.
  ghost predicate Enumerates(order: seq<CredType>, data: Overwrites) {
    (forall t :: t in order <==> t in data) && Distinct(order)
  }

  ghost function SetDataResult(d: Declared, data: Overwrites, order: seq<CredType>, rank: Ranks): Overwrites
    requires Ranked(d, rank)
  {
    Filled(d, data, order, |order|, rank).overwrites
  }

  // ---- second stage: the merge over the parent types ----

  function AssignAll(acc: Fields, types: seq<CredType>, o: Overwrites): Fields
    decreases |types|
  {
    if types == [] then acc else AssignAll(acc + OrEmpty(Get(o, types[0])), types[1..], o)
  }

  function Merge(types: seq<CredType>, o: Overwrites): Fields {
    AssignAll(map[], Reverse(types), o)
  }

  ghost function Providers(o: Overwrites, f: Field): set<CredType> {
    set t | t in o && f in o[t]
  }

  lemma {:induction false} AssignAllLast(acc: Fields, types: seq<CredType>, last: CredType, o: Overwrites)
    ensures AssignAll(acc, types + [last], o) == AssignAll(acc, types, o) + OrEmpty(Get(o, last))
    decreases |types|
  {
    if types == [] {
      assert [last][1..] == [];
    } else {
      assert (types + [last])[1..] == types[1..] + [last];
      AssignAllLast(acc + OrEmpty(Get(o, types[0])), types[1..], last, o);
    }
  }

  // Assigning from the back lets the first provider of each field win.
  lemma {:induction false} MergeTakesFirst(types: seq<CredType>, o: Overwrites, f: Field)
    ensures var first := First(types, Providers(o, f));
            Get(Merge(types, o), f) == if first.Some? then Some(o[first.value][f]) else None
  {
    if types != [] {
      MergeTakesFirst(types[1..], o, f);
      AssignAllLast(map[], Reverse(types[1..]), types[0], o);
    }
  }

  // What get(t) returns after the callers in `ops` ran.
  ghost function Lookup(d: Declared, o: Overwrites, ops: seq<Op>, t: CredType, rank: Ranks): Fields
    requires Ranked(d, rank)
  {
    Merge([t] + Stored(Visit(History(d, ops, rank), t, rank), t), o)
  }

  ghost predicate NoReversal(ops: seq<Op>) {
    forall i :: 0 <= i < |ops| ==> ops[i].LookUp?
  }

  // Whatever was looked up before, in any order and however often, a lookup returns the same.
  lemma LookupIsHistoryIndependent(d: Declared, o: Overwrites, ops: seq<Op>, ops': seq<Op>, t: CredType, rank: Ranks)
    requires Ranked(d, rank) && NoReversal(ops) && NoReversal(ops')
    ensures Lookup(d, o, ops, t, rank) == Lookup(d, o, ops', t, rank)
  {
    var a, b := Lookup(d, o, ops, t, rank), Lookup(d, o, ops', t, rank);
    forall f: Field
      ensures Get(a, f) == Get(b, f)
    {
      LookupTakesFirst(d, o, ops, t, f, rank);
      LookupTakesFirst(d, o, ops', t, f, rank);
    }
    SameFields(a, b);
  }

  lemma SameFields(a: Fields, b: Fields)
    requires forall f :: Get(a, f) == Get(b, f)
    ensures a == b
  {
    forall f
      ensures f in a <==> f in b
      ensures f in a ==> f in b && a[f] == b[f]
    {
      assert Get(a, f) == Get(b, f);
    }
  }

  lemma LookupTakesFirst(d: Declared, o: Overwrites, ops: seq<Op>, t: CredType, f: Field, rank: Ranks)
    requires Ranked(d, rank) && NoReversal(ops)
    ensures var first := FirstFrom(d, t, Providers(o, f), rank);
            Get(Lookup(d, o, ops, t, rank), f) == if first.Some? then Some(o[first.value][f]) else None
  {
    var listed := Stored(Visit(History(d, ops, rank), t, rank), t);
    MergeTakesFirst([t] + listed, o, f);
    LookUpOrderIsFixed(d, ops, t, Providers(o, f), rank);
    assert ([t] + listed)[1..] == listed;
  }

  // `t` itself if wanted, else the first ancestor.
  ghost function FirstFrom(d: Declared, t: CredType, wanted: set<CredType>, rank: Ranks): (r: Option<CredType>)
    requires Ranked(d, rank)
    ensures r.Some? ==> r.value in wanted
  {
    if t in wanted then Some(t) else FirstAbove(d, t, wanted, rank)
  }

  // ---- what the first stage stores ----

  // A claim about where field values come from that holds of a type's own values and is
  // inherited by the types extending it.
  ghost predicate Inherited(d: Declared, data: Overwrites, claim: (CredType, Field, Value) -> bool) {
    && (forall t, f :: Has(data, t, f) ==> claim(t, f, data[t][f]))
    && (forall t, p, f, v :: p in Parents(d, t) && claim(p, f, v) && !Has(data, t, f) ==> claim(t, f, v))
  }

  ghost predicate Claimed(fields: Fields, t: CredType, claim: (CredType, Field, Value) -> bool) {
    forall f {:trigger f in fields} :: f in fields ==> claim(t, f, fields[f])
  }

  ghost predicate Keeps(own: Fields, fields: Fields) {
    forall f {:trigger f in fields} :: f in own ==> f in fields && fields[f] == own[f]
  }

  // Stored overwrites have the original keys, keep the original values and satisfy the claim.
  ghost predicate Stable(data: Overwrites, o: Overwrites, claim: (CredType, Field, Value) -> bool) {
    && o.Keys == data.Keys
    && (forall t :: t in data ==> Keeps(data[t], o[t]) && Claimed(o[t], t, claim))
  }

  lemma {:induction false} ResolveClaimed(d: Declared, data: Overwrites, o: Overwrites, done: seq<CredType>,
                                          t: CredType, claim: (CredType, Field, Value) -> bool, rank: Ranks)
    requires Ranked(d, rank) && Inherited(d, data, claim) && Stable(data, o, claim)
    ensures var r := Resolve(d, o, done, t, rank).result;
            r.Some? ==> Claimed(r.value, t, claim) && (t in data ==> Keeps(data[t], r.value))
    decreases Rank(rank, t), |Parents(d, t)| + 1
  {
    if t !in done && t in d && d[t].Some? {
      var n := |Parents(d, t)|;
      var inherited := OrEmpty(ResolveParents(d, o, done, t, n, rank).result);
      ResolveParentsClaimed(d, data, o, done, t, n, claim, rank);
      OverlayClaimed(data, o, inherited, t, claim);
    }
  }

  // Fields inherited from parents satisfy the claim at `t` unless `t` sets them itself.
  ghost predicate ClaimedUnlessOwn(data: Overwrites, fields: Fields, t: CredType,
                                   claim: (CredType, Field, Value) -> bool) {
    forall f {:trigger f in fields} :: f in fields && !Has(data, t, f) ==> claim(t, f, fields[f])
  }

  lemma OverlayClaimed(data: Overwrites, o: Overwrites, inherited: Fields, t: CredType,
                       claim: (CredType, Field, Value) -> bool)
    requires Stable(data, o, claim) && ClaimedUnlessOwn(data, inherited, t, claim)
    ensures Claimed(inherited + OrEmpty(Get(o, t)), t, claim)
    ensures t in data ==> Keeps(data[t], inherited + OrEmpty(Get(o, t)))
  {
  }

  lemma {:induction false} ResolveParentsClaimed(d: Declared, data: Overwrites, o: Overwrites, done: seq<CredType>,
                                                 t: CredType, i: nat, claim: (CredType, Field, Value) -> bool,
                                                 rank: Ranks)
    requires Ranked(d, rank) && Inherited(d, data, claim) && Stable(data, o, claim) && i <= |Parents(d, t)|
    ensures ClaimedUnlessOwn(data, OrEmpty(ResolveParents(d, o, done, t, i, rank).result), t, claim)
    decreases Rank(rank, t), i
  {
    if i > 0 {
      var p := Parents(d, t)[i - 1];
      assert p in Parents(d, t);
      ResolveParentsClaimed(d, data, o, done, t, i - 1, claim, rank);
      var before := ResolveParents(d, o, done, t, i - 1, rank);
      ResolveClaimed(d, data, o, before.done, p, claim, rank);
    }
  }

  lemma {:induction false} FilledStable(d: Declared, data: Overwrites, order: seq<CredType>, i: nat,
                                        claim: (CredType, Field, Value) -> bool, rank: Ranks)
    requires Ranked(d, rank) && Inherited(d, data, claim) && i <= |order|
    requires forall t :: t in order ==> t in data
    ensures Stable(data, Filled(d, data, order, i, rank).overwrites, claim)
  {
    if i == 0 {
      forall t | t in data
        ensures Keeps(data[t], data[t]) && Claimed(data[t], t, claim)
      {
        forall f | f in data[t]
          ensures claim(t, f, data[t][f])
        {
          assert Has(data, t, f);
        }
      }
    } else {
      FilledStable(d, data, order, i - 1, claim, rank);
      var s := Filled(d, data, order, i - 1, rank);
      ResolveClaimed(d, data, s.overwrites, s.done, order[i - 1], claim, rank);
    }
  }

  // ---- any acyclic graph: where the values of a lookup come from ----

  ghost predicate SelfOrAbove(d: Declared, rank: Ranks, a: CredType, t: CredType)
    requires Ranked(d, rank)
  {
    a == t || Above(d, rank, a, t)
  }

  // Some type among `t` and its ancestors was configured with value `v` for `f`.
  ghost predicate ComesFrom(d: Declared, data: Overwrites, t: CredType, f: Field, v: Value, rank: Ranks)
    requires Ranked(d, rank)
  {
    exists a :: SelfOrAbove(d, rank, a, t) && Has(data, a, f) && data[a][f] == v
  }

  lemma ComesFromInherited(d: Declared, data: Overwrites, rank: Ranks)
    requires Ranked(d, rank)
    ensures Inherited(d, data, (t, f, v) => ComesFrom(d, data, t, f, v, rank))
  {
  }

  // For every acyclic graph, key order and history of lookups (in-place reversals included):
  // a lookup has exactly the fields configured for the type or an ancestor, every value is one
  // of theirs, and the type's own values win.
  lemma LookupProvenance(d: Declared, data: Overwrites, order: seq<CredType>, ops: seq<Op>, t: CredType, f: Field,
                         rank: Ranks)
    requires Ranked(d, rank) && Enumerates(order, data)
    ensures var fields := Lookup(d, SetDataResult(d, data, order, rank), ops, t, rank);
            && (f in fields <==> exists a :: SelfOrAbove(d, rank, a, t) && Has(data, a, f))
            && (f in fields ==> ComesFrom(d, data, t, f, fields[f], rank))
            && (Has(data, t, f) ==> f in fields && fields[f] == data[t][f])
  {
    var claim := (u, g, v) => ComesFrom(d, data, u, g, v, rank);
    ComesFromInherited(d, data, rank);
    FilledStable(d, data, order, |order|, claim, rank);
    var o := SetDataResult(d, data, order, rank);
    var listed := Stored(Visit(History(d, ops, rank), t, rank), t);
    HistorySound(d, ops, rank);
    VisitListsAncestors(d, History(d, ops, rank), t, rank);
    ProvenanceOfMerge(d, data, o, listed, t, f, rank);
  }

  lemma ProvenanceOfMerge(d: Declared, data: Overwrites, o: Overwrites, listed: seq<CredType>, t: CredType, f: Field,
                          rank: Ranks)
    requires Ranked(d, rank) && Stable(data, o, (u, g, v) => ComesFrom(d, data, u, g, v, rank))
    requires forall a :: a in listed <==> Above(d, rank, a, t)
    ensures var fields := Merge([t] + listed, o);
            && (f in fields <==> exists a :: SelfOrAbove(d, rank, a, t) && Has(data, a, f))
            && (f in fields ==> ComesFrom(d, data, t, f, fields[f], rank))
            && (Has(data, t, f) ==> f in fields && fields[f] == data[t][f])
  {
    var types, fields := [t] + listed, Merge([t] + listed, o);
    MergeTakesFirst(types, o, f);
    if f in fields {
      var a := First(types, Providers(o, f)).value;
      assert Claimed(o[a], a, (u, g, v) => ComesFrom(d, data, u, g, v, rank));
      var b :| SelfOrAbove(d, rank, b, a) && Has(data, b, f) && data[b][f] == fields[f];
      if b != a && a != t {
        AboveTransitive(d, rank, b, a, t);
      }
      assert SelfOrAbove(d, rank, b, t);
    }
    if a :| SelfOrAbove(d, rank, a, t) && Has(data, a, f) {
      assert Keeps(data[a], o[a]);
      assert a in types && a in Providers(o, f);
    }
    if Has(data, t, f) {
      assert Keeps(data[t], o[t]);
      assert types[0] in Providers(o, f);
    }
  }

  // ---- single inheritance: the nearest configured value ----

  // Neither `t` nor any of its ancestors extends two different types.
  ghost predicate SingleFrom(d: Declared, t: CredType, rank: Ranks)
    requires Ranked(d, rank)
  {
    forall u, p, q :: SelfOrAbove(d, rank, u, t) && p in Parents(d, u) && q in Parents(d, u) ==> p == q
  }

  lemma SingleFromParent(d: Declared, t: CredType, p: CredType, rank: Ranks)
    requires Ranked(d, rank) && SingleFrom(d, t, rank) && p in Parents(d, t)
    ensures SingleFrom(d, p, rank)
  {
  }

  // The value configured nearest to `t` on the chain t, parent, grandparent, ...
  ghost function Nearest(d: Declared, data: Overwrites, t: CredType, f: Field, rank: Ranks): Option<Value>
    requires Ranked(d, rank)
    decreases Rank(rank, t)
  {
    if Has(data, t, f) then Some(data[t][f])
    else if Parents(d, t) == [] then None
    else
      assert Parents(d, t)[0] in Parents(d, t);
      Nearest(d, data, Parents(d, t)[0], f, rank)
  }

  // The claim that a stored value is the nearest one, for `root` and its ancestors.
  ghost predicate NearestFrom(d: Declared, data: Overwrites, root: CredType, t: CredType, f: Field, v: Value,
                              rank: Ranks)
    requires Ranked(d, rank)
  {
    SelfOrAbove(d, rank, t, root) ==> Nearest(d, data, t, f, rank) == Some(v)
  }

  lemma NearestInherited(d: Declared, data: Overwrites, root: CredType, rank: Ranks)
    requires Ranked(d, rank) && SingleFrom(d, root, rank)
    ensures Inherited(d, data, (t, f, v) => NearestFrom(d, data, root, t, f, v, rank))
  {
    forall t, p, f, v | p in Parents(d, t) && NearestFrom(d, data, root, p, f, v, rank) && !Has(data, t, f)
      ensures NearestFrom(d, data, root, t, f, v, rank)
    {
      if SelfOrAbove(d, rank, t, root) {
        AboveParent(d, rank, p, t, root);
        assert Parents(d, t)[0] in Parents(d, t);
      }
    }
  }

  lemma AboveParent(d: Declared, rank: Ranks, p: CredType, t: CredType, root: CredType)
    requires Ranked(d, rank) && p in Parents(d, t) && SelfOrAbove(d, rank, t, root)
    ensures SelfOrAbove(d, rank, p, root)
  {
    if t != root {
      AboveTransitive(d, rank, p, t, root);
    }
  }

  lemma {:induction false} SingleParentFirst(d: Declared, t: CredType, i: nat, wanted: set<CredType>, rank: Ranks)
    requires Ranked(d, rank) && SingleFrom(d, t, rank) && 0 < i <= |Parents(d, t)|
    ensures FirstAboveParents(d, t, i, wanted, rank) == FirstAbove(d, Parents(d, t)[0], wanted, rank)
    decreases i
  {
    assert SelfOrAbove(d, rank, t, t);
    assert Parents(d, t)[0] in Parents(d, t) && Parents(d, t)[i - 1] in Parents(d, t);
    if i > 1 {
      SingleParentFirst(d, t, i - 1, wanted, rank);
    }
  }

  lemma FirstOfSame(ps: seq<CredType>, p: CredType, wanted: set<CredType>)
    requires ps != [] && forall q :: q in ps ==> q == p
    ensures First(ps, wanted) == if p in wanted then Some(p) else None
  {
    assert ps[0] in ps;
  }

  // With one parent the first match is the type itself or else the first match from its parent.
  lemma SingleStep(d: Declared, t: CredType, wanted: set<CredType>, rank: Ranks)
    requires Ranked(d, rank) && SingleFrom(d, t, rank) && Parents(d, t) != []
    ensures FirstAbove(d, t, wanted, rank) == FirstFrom(d, Parents(d, t)[0], wanted, rank)
  {
    assert SelfOrAbove(d, rank, t, t);
    assert Parents(d, t)[0] in Parents(d, t);
    SingleParentFirst(d, t, |Parents(d, t)|, wanted, rank);
    FirstOfSame(Parents(d, t), Parents(d, t)[0], wanted);
  }

  // Along a chain the first provider in the stored overwrites holds the nearest original value.
  lemma {:induction false} FirstProviderIsNearest(d: Declared, data: Overwrites, o: Overwrites, root: CredType,
                                                  t: CredType, f: Field, rank: Ranks)
    requires Ranked(d, rank) && SingleFrom(d, t, rank) && SelfOrAbove(d, rank, t, root)
    requires Stable(data, o, (u, g, v) => NearestFrom(d, data, root, u, g, v, rank))
    ensures var first := FirstFrom(d, t, Providers(o, f), rank);
            Nearest(d, data, t, f, rank) == if first.Some? then Some(o[first.value][f]) else None
    decreases Rank(rank, t)
  {
    if t in Providers(o, f) {
      assert Claimed(o[t], t, (u, g, v) => NearestFrom(d, data, root, u, g, v, rank));
    } else {
      if t in data {
        assert Keeps(data[t], o[t]);
      }
      if Parents(d, t) == [] {
        assert FirstAbove(d, t, Providers(o, f), rank) == None;
      } else {
        var p := Parents(d, t)[0];
        assert p in Parents(d, t);
        SingleFromParent(d, t, p, rank);
        AboveParent(d, rank, p, t, root);
        FirstProviderIsNearest(d, data, o, root, p, f, rank);
        SingleStep(d, t, Providers(o, f), rank);
        assert Nearest(d, data, t, f, rank) == Nearest(d, data, p, f, rank);
      }
    }
  }

  // For every acyclic graph in which `t` inherits along a single chain, every configuration,
  // every key order and every history of lookups, each field gets its nearest configured value.
  lemma LookupIsNearest(d: Declared, data: Overwrites, order: seq<CredType>, ops: seq<Op>, t: CredType, f: Field,
                        rank: Ranks)
    requires Ranked(d, rank) && SingleFrom(d, t, rank) && Enumerates(order, data) && NoReversal(ops)
    ensures Get(Lookup(d, SetDataResult(d, data, order, rank), ops, t, rank), f) == Nearest(d, data, t, f, rank)
  {
    NearestInherited(d, data, t, rank);
    FilledStable(d, data, order, |order|, (u, g, v) => NearestFrom(d, data, t, u, g, v, rank), rank);
    var o := SetDataResult(d, data, order, rank);
    FirstProviderIsNearest(d, data, o, t, t, f, rank);
    LookupTakesFirst(d, o, ops, t, f, rank);
  }

  // ---- unrecognised parents ----

  ghost predicate Recognised(d: Declared, done: seq<CredType>) {
    forall t :: t in done ==> t in d
  }

  lemma {:induction false} ResolveRecognised(d: Declared, o: Overwrites, done: seq<CredType>, t: CredType, rank: Ranks)
    requires Ranked(d, rank) && Recognised(d, done)
    ensures Recognised(d, Resolve(d, o, done, t, rank).done)
    decreases Rank(rank, t), |Parents(d, t)| + 1
  {
    if t !in done && t in d && d[t].Some? {
      ResolveParentsRecognised(d, o, done, t, |Parents(d, t)|, rank);
    }
  }

  lemma {:induction false} ResolveParentsRecognised(d: Declared, o: Overwrites, done: seq<CredType>, t: CredType,
                                                    i: nat, rank: Ranks)
    requires Ranked(d, rank) && Recognised(d, done) && i <= |Parents(d, t)|
    ensures Recognised(d, ResolveParents(d, o, done, t, i, rank).done)
    decreases Rank(rank, t), i
  {
    if i > 0 {
      assert Parents(d, t)[i - 1] in Parents(d, t);
      ResolveParentsRecognised(d, o, done, t, i - 1, rank);
      ResolveRecognised(d, o, ResolveParents(d, o, done, t, i - 1, rank).done, Parents(d, t)[i - 1], rank);
    }
  }

  lemma {:induction false} UnrecognisedGiveNothing(d: Declared, o: Overwrites, done: seq<CredType>, t: CredType, i: nat,
                                                   rank: Ranks)
    requires Ranked(d, rank) && Recognised(d, done) && i <= |Parents(d, t)|
    requires forall p :: p in Parents(d, t) ==> p !in d
    ensures ResolveParents(d, o, done, t, i, rank) == Resolution(done, Some(map[]))
    decreases i
  {
    if i > 0 {
      assert Parents(d, t)[i - 1] in Parents(d, t);
      UnrecognisedGiveNothing(d, o, done, t, i - 1, rank);
    }
  }

  lemma {:induction false} FilledKeepsOwn(d: Declared, data: Overwrites, order: seq<CredType>, i: nat, t: CredType,
                                          rank: Ranks)
    requires Ranked(d, rank) && i <= |order| && t in data && forall p :: p in Parents(d, t) ==> p !in d
    ensures var s := Filled(d, data, order, i, rank);
            Recognised(d, s.done) && Get(s.overwrites, t) == Some(data[t])
    decreases i
  {
    if i > 0 {
      var s := Filled(d, data, order, i - 1, rank);
      FilledKeepsOwn(d, data, order, i - 1, t, rank);
      ResolveRecognised(d, s.overwrites, s.done, order[i - 1], rank);
      if order[i - 1] == t {
        UnrecognisedGiveNothing(d, s.overwrites, s.done, t, |Parents(d, t)|, rank);
        assert map[] + data[t] == data[t];
      }
    }
  }

  // The first stage takes nothing from types that are not recognised: a type all of whose parents are such
  // is stored as configured, whatever is configured for them.
  lemma UnrecognisedAddNothing(d: Declared, data: Overwrites, order: seq<CredType>, t: CredType, rank: Ranks)
    requires Ranked(d, rank) && t in data && forall p :: p in Parents(d, t) ==> p !in d
    ensures Get(SetDataResult(d, data, order, rank), t) == Some(data[t])
  {
    FilledKeepsOwn(d, data, order, |order|, t, rank);
  }

  // ---- filling in a credential ----

  // No data counts as set when it is absent, null, undefined or the empty string.
  predicate IsBlank(v: Option<Value>) {
    v.None? || v.value.Null? || v.value.Undefined? || v.value == Text("")
  }

  function FilledIn(overwrites: Fields, data: Fields): Fields {
    map f | f in data.Keys + overwrites.Keys ::
      if f in overwrites && IsBlank(Get(data, f)) then overwrites[f] else data[f]
  }

  // A field takes its overwrite if it is missing, null, undefined or the empty string, and otherwise only
  // if it has that value already.
  lemma FilledIff(overwrites: Fields, data: Fields, f: Field)
    requires f in overwrites
    ensures Get(FilledIn(overwrites, data), f) == Some(overwrites[f])
            <==> f !in data || data[f] in {Null, Undefined, Text(""), overwrites[f]}
  {
  }

  // Along a single chain, applying the overwrites keeps every value the user set, fills a blank
  // field with its nearest configured value, and leaves the fields nobody configured.
  lemma FilledFromNearest(d: Declared, data: Overwrites, order: seq<CredType>, ops: seq<Op>, t: CredType,
                          credential: Fields, f: Field, rank: Ranks)
    requires Ranked(d, rank) && SingleFrom(d, t, rank) && Enumerates(order, data) && NoReversal(ops)
    ensures var nearest := Nearest(d, data, t, f, rank);
            Get(FilledIn(Lookup(d, SetDataResult(d, data, order, rank), ops, t, rank), credential), f)
            == if IsBlank(Get(credential, f)) && nearest.Some? then nearest else Get(credential, f)
  {
    LookupIsNearest(d, data, order, ops, t, f, rank);
  }

  // Filling a credential a second time changes nothing, whatever was looked up in between.
  lemma FillingTwice(d: Declared, o: Overwrites, ops: seq<Op>, ops': seq<Op>, t: CredType, data: Fields, rank: Ranks)
    requires Ranked(d, rank) && NoReversal(ops) && NoReversal(ops')
    ensures var once := FilledIn(Lookup(d, o, ops, t, rank), data);
            FilledIn(Lookup(d, o, ops', t, rank), once) == once
  {
    LookupIsHistoryIndependent(d, o, ops, ops', t, rank);
    var fields := Lookup(d, o, ops, t, rank);
    SameFieldsTwice(fields, data);
  }

  lemma SameFieldsTwice(fields: Fields, data: Fields)
    ensures FilledIn(fields, FilledIn(fields, data)) == FilledIn(fields, data)
  {
  }

  // ---- the service ----

  class CredentialsOverwrites {
    var overwriteData: Overwrites
    var resolvedTypes: seq<CredType>
    const credentialTypes: CredentialTypes

    ghost predicate Valid()
      reads this, credentialTypes
    {
      credentialTypes.Valid()
    }

    constructor (credentialTypes: CredentialTypes, data: Overwrites, order: seq<CredType>)
      requires credentialTypes.Valid() && Enumerates(order, data)
      ensures Valid() && this.credentialTypes == credentialTypes
      ensures overwriteData == SetDataResult(credentialTypes.declared, data, order, credentialTypes.rank)
    {
      this.credentialTypes := credentialTypes;
      overwriteData := map[];
      resolvedTypes := [];
      new;
      SetData(data, order);
    }

    // `order` is the order in which the keys of `data` are enumerated.
    method SetData(data: Overwrites, order: seq<CredType>)
      requires Valid() && Enumerates(order, data)
      modifies this
      ensures Valid()
      ensures overwriteData == SetDataResult(credentialTypes.declared, data, order, credentialTypes.rank)
    {
      resolvedTypes := [];
      overwriteData := data;
      var i := 0;
      while i < |order|
        invariant 0 <= i <= |order|
        invariant Store(overwriteData, resolvedTypes)
               == Filled(credentialTypes.declared, data, order, i, credentialTypes.rank)
      {
        var overwrites := GetOverwrites(order[i]);
        if overwrites.Some? && overwrites.value != map[] {
          overwriteData := overwriteData[order[i] := overwrites.value];
        }
        i := i + 1;
      }
    }

    method GetOverwrites(t: CredType) returns (result: Option<Fields>)
      requires Valid()
      modifies this`resolvedTypes
      ensures Resolution(resolvedTypes, result)
              == Resolve(credentialTypes.declared, overwriteData, old(resolvedTypes), t, credentialTypes.rank)
      decreases Rank(credentialTypes.rank, t)
    {
      if t in resolvedTypes {
        return Get(overwriteData, t);
      }
      if !credentialTypes.Recognizes(t) {
        return None;
      }
      var extended := credentialTypes.declared[t];
      if extended.None? {
        resolvedTypes := resolvedTypes + [t];
        return Get(overwriteData, t);
      }
      var overwrites: Fields := map[];
      var i := 0;
      while i < |extended.value|
        invariant 0 <= i <= |extended.value|
        invariant Resolution(resolvedTypes, Some(overwrites))
               == ResolveParents(credentialTypes.declared, overwriteData, old(resolvedTypes), t, i,
                                 credentialTypes.rank)
      {
        assert extended.value[i] in Parents(credentialTypes.declared, t);
        var inherited := GetOverwrites(extended.value[i]);
        overwrites := overwrites + OrEmpty(inherited);
        i := i + 1;
      }
      if t in overwriteData {
        overwrites := overwrites + overwriteData[t];
      } else {
        assert overwrites + map[] == overwrites;
      }
      resolvedTypes := resolvedTypes + [t];
      return Some(overwrites);
    }

    method GetFor(name: CredType) returns (fields: Fields)
      requires Valid()
      modifies credentialTypes`known
      ensures Valid() && credentialTypes.known == Visit(old(credentialTypes.known), name, credentialTypes.rank)
      ensures fields == Merge([name] + Stored(credentialTypes.known, name), overwriteData)
    {
      var parentTypes := credentialTypes.GetParentTypes(name);
      fields := Merge([name] + parentTypes, overwriteData);
    }

    method ApplyOverwrite(t: CredType, data: Fields) returns (result: Fields)
      requires Valid()
      modifies credentialTypes`known
      ensures Valid() && credentialTypes.known == Visit(old(credentialTypes.known), t, credentialTypes.rank)
      ensures result == FilledIn(Merge([t] + Stored(credentialTypes.known, t), overwriteData), data)
    {
      var overwrites := GetFor(t);
      result := FillBlanks(overwrites, data);
    }

    static method FillBlanks(overwrites: Fields, data: Fields) returns (result: Fields)
      ensures result == FilledIn(overwrites, data)
    {
      result := data;
      var keys := overwrites.Keys;
      while keys != {}
        invariant keys <= overwrites.Keys
        invariant forall f: Field ::
                    Get(result, f) == if f in keys then Get(data, f) else Get(FilledIn(overwrites, data), f)
        decreases |keys|
      {
        var key :| key in keys;
        if IsBlank(Get(result, key)) {
          result := result[key := overwrites[key]];
        }
        keys := keys - {key};
      }
      SameFields(result, FilledIn(overwrites, data));
    }
  }
}
