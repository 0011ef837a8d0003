// When the two stages of a credential overwrite agree on types that extend several others.
module OverwriteOrder {
  import opened Wrappers
  import opened FirstOccurrences
  import opened CredentialGraph
  import opened CredentialTypes
  import opened CredentialsOverwrites

  // The configured value of the type itself or of the first listed ancestor that has one.
  ghost function Configured(d: Declared, data: Overwrites, t: CredType, f: Field, rank: Ranks): Option<Value>
    requires Ranked(d, rank)
  {
    var first := FirstFrom(d, t, Providers(data, f), rank);
    if first.Some? then Some(data[first.value][f]) else None
  }

  lemma ConfiguredIsNearest(d: Declared, data: Overwrites, t: CredType, f: Field, rank: Ranks)
    requires Ranked(d, rank) && SingleFrom(d, t, rank)
    ensures Configured(d, data, t, f, rank) == Nearest(d, data, t, f, rank)
  {
    var claim := (u, g, v) => NearestFrom(d, data, t, u, g, v, rank);
    NearestInherited(d, data, t, rank);
    FilledStable(d, data, [], 0, claim, rank);
    FirstProviderIsNearest(d, data, data, t, t, f, rank);
  }

  // The first type on the way up from `t` that does not extend exactly one other.
  ghost function Fork(d: Declared, t: CredType, rank: Ranks): CredType
    requires Ranked(d, rank)
    decreases Rank(rank, t)
  {
    if |Parents(d, t)| != 1 then t
    else
      assert Parents(d, t)[0] in Parents(d, t);
      Fork(d, Parents(d, t)[0], rank)
  }

  lemma {:induction false} ForkIsAbove(d: Declared, t: CredType, rank: Ranks)
    requires Ranked(d, rank)
    ensures SelfOrAbove(d, rank, Fork(d, t, rank), t)
    decreases Rank(rank, t)
  {
    if |Parents(d, t)| == 1 {
      var parent := Parents(d, t)[0];
      assert parent in Parents(d, t);
      ForkIsAbove(d, parent, rank);
      assert SelfOrAbove(d, rank, Fork(d, parent, rank), t);
    }
  }

  lemma {:induction false} ForkHasSeveral(d: Declared, t: CredType, u: CredType, p: CredType, q: CredType, rank: Ranks)
    requires Ranked(d, rank) && SelfOrAbove(d, rank, u, t) && p in Parents(d, u) && q in Parents(d, u) && p != q
    ensures |Parents(d, Fork(d, t, rank))| > 1
    decreases Rank(rank, t)
  {
    if |Parents(d, t)| == 1 {
      var parent := Parents(d, t)[0];
      assert parent in Parents(d, t);
      assert u != t;
      assert SelfOrAbove(d, rank, u, parent);
      ForkHasSeveral(d, parent, u, p, q, rank);
    }
  }

  // The fork's last parent is a recognised type and not its first one.
  ghost predicate WellForked(d: Declared, t: CredType, rank: Ranks)
    requires Ranked(d, rank)
  {
    var ps := Parents(d, Fork(d, t, rank));
    |ps| > 1 ==> ps[0] != ps[|ps| - 1] && ps[|ps| - 1] in d
  }

  // Nothing wanted lies on the chain below the fork, so the search starts at the fork.
  lemma {:induction false} SearchStartsAtFork(d: Declared, t: CredType, wanted: set<CredType>, rank: Ranks)
    requires Ranked(d, rank) && forall u :: u in wanted ==> Rank(rank, u) <= Rank(rank, Fork(d, t, rank))
    ensures FirstFrom(d, t, wanted, rank) == FirstFrom(d, Fork(d, t, rank), wanted, rank)
    decreases Rank(rank, t)
  {
    if |Parents(d, t)| == 1 {
      var parent := Parents(d, t)[0];
      assert parent in Parents(d, t);
      SearchStartsAtFork(d, parent, wanted, rank);
      ForkIsAbove(d, parent, rank);
      ForkRanks(d, t, parent, rank);
      assert t !in wanted;
      OnlyParent(d, t, parent, wanted, rank);
    }
  }

  lemma ForkRanks(d: Declared, t: CredType, parent: CredType, rank: Ranks)
    requires Ranked(d, rank) && Parents(d, t) == [parent]
    ensures Rank(rank, Fork(d, t, rank)) < Rank(rank, t)
  {
    assert parent in Parents(d, t);
    ForkIsAbove(d, parent, rank);
    if Fork(d, parent, rank) != parent {
      AboveRanksLower(d, rank, Fork(d, parent, rank), parent);
    }
  }

  lemma OnlyParent(d: Declared, t: CredType, parent: CredType, wanted: set<CredType>, rank: Ranks)
    requires Ranked(d, rank) && Parents(d, t) == [parent]
    ensures FirstAbove(d, t, wanted, rank) == FirstFrom(d, parent, wanted, rank)
  {
    assert FirstAboveParents(d, t, 0 + 1, wanted, rank) == FirstAbove(d, parent, wanted, rank);
    assert First([parent], wanted) == if parent in wanted then Some(parent) else None;
  }

  // The configuration on which the two stages disagree below a fork: an empty entry for the
  // fork itself, and different values for its first and its last parent.
  ghost function ForkData(c: CredType, first: CredType, last: CredType, f: Field): Overwrites {
    map[c := map[], first := map[f := Text("first")], last := map[f := Text("last")]]
  }

  lemma ResolveKeepsOwn(d: Declared, data: Overwrites, done: seq<CredType>, t: CredType, f: Field, rank: Ranks)
    requires Ranked(d, rank) && t in d && Has(data, t, f)
    ensures Get(OrEmpty(Resolve(d, data, done, t, rank).result), f) == Some(data[t][f])
  {
  }

  // In the first stage the parent listed last overrides the others, whatever they inherit, in every
  // field the type does not configure itself.
  lemma LastParentWins(d: Declared, data: Overwrites, done: seq<CredType>, t: CredType, f: Field, rank: Ranks)
    requires Ranked(d, rank) && Parents(d, t) != [] && t !in done && !Has(data, t, f)
    requires var last := Parents(d, t)[|Parents(d, t)| - 1]; last in d && Has(data, last, f)
    ensures var last := Parents(d, t)[|Parents(d, t)| - 1];
            Get(OrEmpty(Resolve(d, data, done, t, rank).result), f) == Some(data[last][f])
  {
    var n := |Parents(d, t)|;
    var last := Parents(d, t)[n - 1];
    assert last in Parents(d, t);
    var before := ResolveParents(d, data, done, t, n - 1, rank);
    ResolveKeepsOwn(d, data, before.done, last, f, rank);
    var fields := OrEmpty(ResolveParents(d, data, done, t, n, rank).result);
    assert Get(fields, f) == Some(data[last][f]);
    assert Get(fields + OrEmpty(Get(data, t)), f) == Get(fields, f);
  }

  lemma ForkStored(d: Declared, c: CredType, a: CredType, b: CredType, f: Field, rank: Ranks)
    requires Ranked(d, rank) && b in d && c != a && c != b && a != b
    requires |Parents(d, c)| > 1 && a == Parents(d, c)[0] && b == Parents(d, c)[|Parents(d, c)| - 1]
    ensures var o := SetDataResult(d, ForkData(c, a, b, f), [c, a, b], rank);
            c in o && Get(o[c], f) == Some(Text("last"))
  {
    var data, order := ForkData(c, a, b, f), [c, a, b];
    LastParentWins(d, data, [], c, f, rank);
    KeepsOthers(d, data, order, c, rank);
  }

  // Handling later keys leaves the entry of the first key alone.
  lemma KeepsOthers(d: Declared, data: Overwrites, order: seq<CredType>, c: CredType, rank: Ranks)
    requires Ranked(d, rank) && |order| == 3 && order[0] == c && order[1] != c && order[2] != c && c in data
    requires var r := Resolve(d, data, [], c, rank).result; r.Some? && r.value != map[]
    ensures Get(SetDataResult(d, data, order, rank), c) == Resolve(d, data, [], c, rank).result
  {
    var s0, s1, s2 := Filled(d, data, order, 0, rank), Filled(d, data, order, 1, rank), Filled(d, data, order, 2, rank);
    assert s0 == Store(data, []);
    assert Get(s1.overwrites, c) == Resolve(d, data, [], c, rank).result;
    assert Get(s2.overwrites, c) == Get(s1.overwrites, c);
  }

  // Below a fork some configuration is resolved differently from its listed order.
  lemma StagesDisagree(d: Declared, t: CredType, rank: Ranks) returns (data: Overwrites, order: seq<CredType>, f: Field)
    requires Ranked(d, rank) && WellForked(d, t, rank) && !SingleFrom(d, t, rank)
    ensures Enumerates(order, data)
    ensures Get(Lookup(d, SetDataResult(d, data, order, rank), [], t, rank), f) != Configured(d, data, t, f, rank)
  {
    var u, p, q :| SelfOrAbove(d, rank, u, t) && p in Parents(d, u) && q in Parents(d, u) && p != q;
    ForkHasSeveral(d, t, u, p, q, rank);
    data, order, f := ForkDisagrees(d, t, rank);
  }

  lemma ForkDisagrees(d: Declared, t: CredType, rank: Ranks) returns (data: Overwrites, order: seq<CredType>, f: Field)
    requires Ranked(d, rank) && WellForked(d, t, rank) && |Parents(d, Fork(d, t, rank))| > 1
    ensures Enumerates(order, data)
    ensures Get(Lookup(d, SetDataResult(d, data, order, rank), [], t, rank), f) != Configured(d, data, t, f, rank)
  {
    f := Field("user");
    var c := Fork(d, t, rank);
    var a, b := Parents(d, c)[0], Parents(d, c)[|Parents(d, c)| - 1];
    ForkDistinct(d, c, a, b, rank);
    data, order := ForkData(c, a, b, f), [c, a, b];
    var o := SetDataResult(d, data, order, rank);
    ForkStored(d, c, a, b, f, rank);
    ForkLookup(d, t, a, b, f, rank);
    LookupTakesFirst(d, o, [], t, f, rank);
    assert Get(Lookup(d, o, [], t, rank), f) == Some(Text("last"));
  }

  lemma ForkDistinct(d: Declared, c: CredType, a: CredType, b: CredType, rank: Ranks)
    requires Ranked(d, rank) && |Parents(d, c)| > 1
    requires a == Parents(d, c)[0] && b == Parents(d, c)[|Parents(d, c)| - 1]
    ensures a in Parents(d, c) && b in Parents(d, c) && c != a && c != b
  {
    assert Rank(rank, a) < Rank(rank, c) && Rank(rank, b) < Rank(rank, c);
  }

  lemma KeysKept(d: Declared, data: Overwrites, order: seq<CredType>, rank: Ranks)
    requires Ranked(d, rank) && Enumerates(order, data)
    ensures SetDataResult(d, data, order, rank).Keys == data.Keys
  {
    ComesFromInherited(d, data, rank);
    FilledStable(d, data, order, |order|, (u, g, v) => ComesFrom(d, data, u, g, v, rank), rank);
  }

  lemma ForkLookup(d: Declared, t: CredType, a: CredType, b: CredType, f: Field, rank: Ranks)
    requires Ranked(d, rank) && a in Parents(d, Fork(d, t, rank)) && b in Parents(d, Fork(d, t, rank)) && a != b
    requires Parents(d, Fork(d, t, rank))[0] == a
    requires var c := Fork(d, t, rank);
             var o := SetDataResult(d, ForkData(c, a, b, f), [c, a, b], rank); c in o && f in o[c]
    ensures var c := Fork(d, t, rank);
            var data := ForkData(c, a, b, f);
            FirstFrom(d, t, Providers(SetDataResult(d, data, [c, a, b], rank), f), rank) == Some(c)
            && Configured(d, data, t, f, rank) == Some(Text("first"))
  {
    var c := Fork(d, t, rank);
    var data := ForkData(c, a, b, f);
    var o := SetDataResult(d, data, [c, a, b], rank);
    assert Rank(rank, a) < Rank(rank, c) && Rank(rank, b) < Rank(rank, c);
    KeysKept(d, data, [c, a, b], rank);
    assert forall u :: u in data ==> Rank(rank, u) <= Rank(rank, c);
    SearchStartsAtFork(d, t, Providers(o, f), rank);
    ForkConfigured(d, t, a, b, f, rank);
  }

  lemma ForkConfigured(d: Declared, t: CredType, a: CredType, b: CredType, f: Field, rank: Ranks)
    requires Ranked(d, rank) && a in Parents(d, Fork(d, t, rank)) && b in Parents(d, Fork(d, t, rank)) && a != b
    requires Parents(d, Fork(d, t, rank))[0] == a
    ensures Configured(d, ForkData(Fork(d, t, rank), a, b, f), t, f, rank) == Some(Text("first"))
  {
    var c := Fork(d, t, rank);
    var data := ForkData(c, a, b, f);
    SearchStartsAtFork(d, t, Providers(data, f), rank);
    assert First(Parents(d, c), Providers(data, f)) == Some(a);
  }

  // Whatever the rest of the graph lists: the two stages together resolve every configuration of `t` to
  // the first listed provider if and only if `t` inherits along a single chain.
  lemma StagesAgreeIff(d: Declared, t: CredType, rank: Ranks)
    requires Ranked(d, rank) && WellForked(d, t, rank)
    ensures (forall data, order, f :: Enumerates(order, data) ==>
               Get(Lookup(d, SetDataResult(d, data, order, rank), [], t, rank), f) == Configured(d, data, t, f, rank))
       <==> SingleFrom(d, t, rank)
  {
    if SingleFrom(d, t, rank) {
      forall data, order, f | Enumerates(order, data)
        ensures Get(Lookup(d, SetDataResult(d, data, order, rank), [], t, rank), f) == Configured(d, data, t, f, rank)
      {
        LookupIsNearest(d, data, order, [], t, f, rank);
        ConfiguredIsNearest(d, data, t, f, rank);
      }
    } else {
      var data, order, f := StagesDisagree(d, t, rank);
    }
  }
}
