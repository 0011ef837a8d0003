// Callers that reverse the array a lookup of parent types returns, and with it the stored one
// (packages/cli/src/services/frontend.service.ts): when that changes which overwrite wins.
module OverwriteReversal {
  import opened Wrappers
  import opened FirstOccurrences
  import opened CredentialGraph
  import opened CredentialTypes
  import opened CredentialsOverwrites

  // What a lookup of `t` lists after the callers in `ops` ran.
  ghost function Listed(d: Declared, ops: seq<Op>, t: CredType, rank: Ranks): seq<CredType>
    requires Ranked(d, rank)
  {
    Stored(Visit(History(d, ops, rank), t, rank), t)
  }

  // ---- farther ancestors are listed last ----

  // What is pushed lists exactly the ancestors of `p`.
  ghost predicate ListsAbove(d: Declared, rank: Ranks, more: seq<CredType>, p: CredType)
    requires Ranked(d, rank)
  {
    forall x {:trigger x in more} :: x in more <==> Above(d, rank, x, p)
  }

  // Of two types, the farther is last among what is pushed for `p`, or else it was last before.
  lemma PushLeavesFarther(d: Declared, rank: Ranks, was: Option<CredType>, more: seq<CredType>, p: CredType,
                          a: CredType, b: CredType)
    requires Ranked(d, rank) && Above(d, rank, a, b) && ListsAbove(d, rank, more, p)
    requires Above(d, rank, b, p) ==> Last(more, {a, b}) == Some(a)
    requires b == p || Above(d, rank, b, p) || was == Some(a)
    ensures OrElse(Last(more, {a, b}), was) == Some(a)
  {
    LastMember(more, {a, b});
    AboveRanksLower(d, rank, a, b);
    if b == p {
      if Above(d, rank, b, b) {
        AboveRanksLower(d, rank, b, b);
      }
      assert a in more && b !in more;
    }
  }

  // In any lookup, of two ancestors one of which is an ancestor of the other, the farther is last.
  lemma {:induction false} FartherIsLast(d: Declared, k: Known, t: CredType, a: CredType, b: CredType, rank: Ranks)
    requires Ranked(d, rank) && Sound(d, k, rank) && Grounded(k, rank)
    requires Above(d, rank, a, b) && Above(d, rank, b, t)
    ensures Last(Stored(Visit(k, t, rank), t), {a, b}) == Some(a)
    decreases Rank(rank, t), |Stored(k, t)| + 1
  {
    var j := Reaches(d, k, t, b, rank);
    FartherIsLastOfFirst(d, k, t, |Stored(k, t)|, j, a, b, rank);
  }

  lemma Reaches(d: Declared, k: Known, t: CredType, b: CredType, rank: Ranks) returns (j: nat)
    requires Ranked(d, rank) && Sound(d, k, rank) && Above(d, rank, b, t)
    ensures j < |Stored(k, t)| && SelfOrAbove(d, rank, b, Stored(k, t)[j])
  {
    var p :| p in Parents(d, t) && (b == p || Above(d, rank, b, p));
    assert p in Stored(k, t);
    j :| 0 <= j < |Stored(k, t)| && Stored(k, t)[j] == p;
  }

  // The element `j` is `b` or extends it.
  lemma {:induction false} FartherIsLastOfFirst(d: Declared, k: Known, t: CredType, i: nat, j: nat, a: CredType,
                                                b: CredType, rank: Ranks)
    requires Ranked(d, rank) && Sound(d, k, rank) && Grounded(k, rank) && j < i <= |Stored(k, t)|
    requires Above(d, rank, a, b) && SelfOrAbove(d, rank, b, Stored(k, t)[j])
    ensures Last(Stored(VisitFirst(k, t, i, rank), t), {a, b}) == Some(a)
    decreases Rank(rank, t), i
  {
    var p, before, after := PushStep(d, k, t, i, rank);
    if j < i - 1 {
      FartherIsLastOfFirst(d, k, t, i - 1, j, a, b, rank);
      FartherStaysLast(d, before, t, p, a, b, rank);
    } else {
      FartherBecomesLast(d, before, t, p, a, b, rank);
    }
  }

  lemma {:induction false} FartherBecomesLast(d: Declared, before: Known, t: CredType, p: CredType, a: CredType,
                                              b: CredType, rank: Ranks)
    requires Ranked(d, rank) && Sound(d, before, rank) && Grounded(before, rank) && Rank(rank, p) < Rank(rank, t)
    requires Above(d, rank, a, b) && SelfOrAbove(d, rank, b, p)
    ensures Last(Stored(Pushed(before, t, p, rank), t), {a, b}) == Some(a)
    decreases Rank(rank, p), |Stored(before, p)| + 2
  {
    VisitListsAncestors(d, before, p, rank);
    if Above(d, rank, b, p) {
      FartherIsLast(d, before, p, a, b, rank);
    }
    PushLeavesFarther(d, rank, Last(Stored(before, t), {a, b}), Stored(Visit(before, p, rank), p), p, a, b);
    PushedAt(before, t, p, rank);
    LastOfPush(Stored(before, t), Stored(Visit(before, p, rank), p), {a, b});
  }

  lemma {:induction false} FartherStaysLast(d: Declared, before: Known, t: CredType, p: CredType, a: CredType,
                                            b: CredType, rank: Ranks)
    requires Ranked(d, rank) && Sound(d, before, rank) && Grounded(before, rank) && Rank(rank, p) < Rank(rank, t)
    requires Above(d, rank, a, b) && Last(Stored(before, t), {a, b}) == Some(a)
    ensures Last(Stored(Pushed(before, t, p, rank), t), {a, b}) == Some(a)
    decreases Rank(rank, p), |Stored(before, p)| + 2
  {
    VisitListsAncestors(d, before, p, rank);
    if Above(d, rank, b, p) {
      FartherIsLast(d, before, p, a, b, rank);
    }
    PushLeavesFarther(d, rank, Last(Stored(before, t), {a, b}), Stored(Visit(before, p, rank), p), p, a, b);
    PushedAt(before, t, p, rank);
    LastOfPush(Stored(before, t), Stored(Visit(before, p, rank), p), {a, b});
  }

  // ---- nearest ancestors are never listed again ----

  // No ancestor of `w` has a member of `wanted` above it.
  ghost predicate Immediate(d: Declared, rank: Ranks, w: CredType, wanted: set<CredType>)
    requires Ranked(d, rank)
  {
    forall x, u {:trigger Above(d, rank, x, w), Above(d, rank, u, x)} ::
      u in wanted && Above(d, rank, x, w) ==> !Above(d, rank, u, x)
  }

  // So no lookup of any type changes which of them is last in the array of `w`.
  lemma {:induction false} VisitKeepsLast(d: Declared, k: Known, t: CredType, w: CredType, wanted: set<CredType>,
                                          rank: Ranks)
    requires Ranked(d, rank) && Sound(d, k, rank) && Grounded(k, rank) && Immediate(d, rank, w, wanted)
    ensures Last(Stored(Visit(k, t, rank), w), wanted) == Last(Stored(k, w), wanted)
    decreases Rank(rank, t), |Stored(k, t)| + 1
  {
    VisitFirstKeepsLast(d, k, t, |Stored(k, t)|, w, wanted, rank);
  }

  lemma {:induction false} VisitFirstKeepsLast(d: Declared, k: Known, t: CredType, i: nat, w: CredType,
                                               wanted: set<CredType>, rank: Ranks)
    requires Ranked(d, rank) && Sound(d, k, rank) && Grounded(k, rank) && i <= |Stored(k, t)|
    requires Immediate(d, rank, w, wanted)
    ensures Last(Stored(VisitFirst(k, t, i, rank), w), wanted) == Last(Stored(k, w), wanted)
    decreases Rank(rank, t), i
  {
    if i > 0 {
      var p, before, after := PushStep(d, k, t, i, rank);
      VisitFirstKeepsLast(d, k, t, i - 1, w, wanted, rank);
      PushKeepsLast(d, before, t, p, w, wanted, rank);
    }
  }

  lemma {:induction false} PushKeepsLast(d: Declared, before: Known, t: CredType, p: CredType, w: CredType,
                                         wanted: set<CredType>, rank: Ranks)
    requires Ranked(d, rank) && Sound(d, before, rank) && Grounded(before, rank) && Immediate(d, rank, w, wanted)
    requires Above(d, rank, p, t) && Rank(rank, p) < Rank(rank, t)
    ensures Last(Stored(Pushed(before, t, p, rank), w), wanted) == Last(Stored(before, w), wanted)
    decreases Rank(rank, p), |Stored(before, p)| + 2
  {
    if t == w {
      VisitListsAncestors(d, before, p, rank);
      NoneAbove(d, rank, Stored(Visit(before, p, rank), p), p, w, wanted);
      PushedAt(before, t, p, rank);
      LastOfPush(Stored(before, t), Stored(Visit(before, p, rank), p), wanted);
    } else {
      VisitKeepsLast(d, before, p, w, wanted, rank);
    }
  }

  lemma NoneAbove(d: Declared, rank: Ranks, more: seq<CredType>, p: CredType, w: CredType, wanted: set<CredType>)
    requires Ranked(d, rank) && Above(d, rank, p, w) && ListsAbove(d, rank, more, p) && Immediate(d, rank, w, wanted)
    ensures Last(more, wanted) == None
  {
    LastMember(more, wanted);
  }

  // ---- one reversal ----

  // After its own reversal an array is listed from its other end.
  lemma AfterReversal(d: Declared, ops: seq<Op>, t: CredType, wanted: set<CredType>, rank: Ranks)
    requires Ranked(d, rank) && Last(Listed(d, ops, t, rank), wanted).Some?
    ensures First(Listed(d, ops + [LookUpReversed(t)], t, rank), wanted) == Last(Listed(d, ops, t, rank), wanted)
  {
    var op := LookUpReversed(t);
    var k := History(d, ops, rank);
    assert (ops + [op])[..|ops|] == ops;
    assert History(d, ops + [op], rank) == Apply(k, op, rank);
    ReverseExchanges(Listed(d, ops, t, rank), wanted);
    assert Stored(Apply(k, op, rank), t) == Reverse(Listed(d, ops, t, rank));
    VisitGrows(Apply(k, op, rank), t, rank);
    FirstOfPrefix(Reverse(Listed(d, ops, t, rank)), Listed(d, ops + [op], t, rank), wanted);
  }

  // After lookups without reversal the declared parents come first.
  lemma DeclaredFirst(d: Declared, ops: seq<Op>, t: CredType, wanted: set<CredType>, rank: Ranks)
    requires Ranked(d, rank) && NoReversal(ops) && First(Parents(d, t), wanted).Some?
    ensures First(Listed(d, ops, t, rank), wanted) == First(Parents(d, t), wanted)
  {
    HistoryKeepsDeclared(d, ops, t, rank);
    VisitGrows(History(d, ops, rank), t, rank);
    FirstOfPrefix(Parents(d, t), Listed(d, ops, t, rank), wanted);
  }

  lemma ListedIsExact(d: Declared, ops: seq<Op>, t: CredType, a: CredType, rank: Ranks)
    requires Ranked(d, rank)
    ensures a in Listed(d, ops, t, rank) <==> Above(d, rank, a, t)
  {
    HistorySound(d, ops, rank);
    VisitListsAncestors(d, History(d, ops, rank), t, rank);
  }

  // ---- reversals that change nothing ----

  // Of any two ancestors one is above the other, and `t` lists it before the other among its parents.
  // So `t` extends all its ancestors itself, the farthest first.
  ghost predicate FarthestFirst(d: Declared, t: CredType) {
    forall a, b ::
      IsAncestor(d, a, t) && IsAncestor(d, b, t) && a != b ==> FartherListed(d, t, a, b) || FartherListed(d, t, b, a)
  }

  ghost predicate FartherListed(d: Declared, t: CredType, a: CredType, b: CredType) {
    IsAncestor(d, a, b) && First(Parents(d, t), {a, b}) == Some(a)
  }

  // Then no history, reversals of any arrays included, moves the nearer of two before the farther.
  lemma {:induction false} PairStays(d: Declared, ops: seq<Op>, t: CredType, a: CredType, b: CredType, rank: Ranks)
    requires Ranked(d, rank) && Above(d, rank, a, b) && Above(d, rank, b, t) && First(Parents(d, t), {a, b}) == Some(a)
    ensures First(Stored(History(d, ops, rank), t), {a, b}) == Some(a)
    decreases |ops|
  {
    if ops == [] {
      InitialStored(d);
    } else {
      var before, op := History(d, ops[..|ops| - 1], rank), ops[|ops| - 1];
      PairStays(d, ops[..|ops| - 1], t, a, b, rank);
      HistorySound(d, ops[..|ops| - 1], rank);
      VisitGrows(before, op.t, rank);
      FirstOfPrefix(Stored(before, t), Stored(Visit(before, op.t, rank), t), {a, b});
      if op == LookUpReversed(t) {
        FartherIsLast(d, before, t, a, b, rank);
        ReverseExchanges(Stored(Visit(before, t, rank), t), {a, b});
      }
    }
  }

  lemma PairListed(d: Declared, ops: seq<Op>, t: CredType, a: CredType, b: CredType, rank: Ranks)
    requires Ranked(d, rank) && FartherListed(d, t, a, b) && IsAncestor(d, b, t)
    ensures First(Listed(d, ops, t, rank), {a, b}) == Some(a)
  {
    AboveIsAncestor(d, rank, a, b);
    AboveIsAncestor(d, rank, b, t);
    PairStays(d, ops, t, a, b, rank);
    VisitGrows(History(d, ops, rank), t, rank);
    FirstOfPrefix(Stored(History(d, ops, rank), t), Listed(d, ops, t, rank), {a, b});
  }

  // No history changes which of any two ancestors comes first, so it changes no lookup.
  ghost predicate PairsKept(d: Declared, ops: seq<Op>, t: CredType, rank: Ranks)
    requires Ranked(d, rank)
  {
    forall x, y :: IsAncestor(d, x, t) && IsAncestor(d, y, t) && x != y ==> SameFirst(d, ops, t, x, y, rank)
  }

  ghost predicate SameFirst(d: Declared, ops: seq<Op>, t: CredType, x: CredType, y: CredType, rank: Ranks)
    requires Ranked(d, rank)
  {
    First(Listed(d, ops, t, rank), {x, y}) == First(Listed(d, [], t, rank), {x, y})
  }

  lemma SameWinner(d: Declared, ops: seq<Op>, t: CredType, wanted: set<CredType>, rank: Ranks)
    requires Ranked(d, rank) && PairsKept(d, ops, t, rank)
    ensures First(Listed(d, ops, t, rank), wanted) == First(Listed(d, [], t, rank), wanted)
  {
    SameMembers(d, ops, t, rank);
    forall x, y | x in Listed(d, ops, t, rank) && y in Listed(d, ops, t, rank) && x != y
      ensures First(Listed(d, ops, t, rank), {x, y}) == First(Listed(d, [], t, rank), {x, y})
    {
      assert SameFirst(d, ops, t, x, y, rank);
    }
    FirstByPairs(Listed(d, ops, t, rank), Listed(d, [], t, rank), wanted);
  }

  lemma KeptIsSame(d: Declared, o: Overwrites, ops: seq<Op>, t: CredType, rank: Ranks)
    requires Ranked(d, rank) && PairsKept(d, ops, t, rank)
    ensures SameLookup(d, o, ops, t, rank)
  {
    var a, b := Lookup(d, o, ops, t, rank), Lookup(d, o, [], t, rank);
    forall f: Field
      ensures Get(a, f) == Get(b, f)
    {
      SameWinner(d, ops, t, Providers(o, f), rank);
      LookupFirst(d, o, ops, t, f, rank);
      LookupFirst(d, o, [], t, f, rank);
    }
    SameFields(a, b);
  }

  lemma SameMembers(d: Declared, ops: seq<Op>, t: CredType, rank: Ranks)
    requires Ranked(d, rank)
    ensures forall a {:trigger a in Listed(d, ops, t, rank)} ::
              a in Listed(d, ops, t, rank) <==> a in Listed(d, [], t, rank)
    ensures forall a {:trigger a in Listed(d, ops, t, rank)} :: a in Listed(d, ops, t, rank) ==> IsAncestor(d, a, t)
    ensures forall a {:trigger a in Listed(d, [], t, rank)} :: a in Listed(d, [], t, rank) ==> IsAncestor(d, a, t)
    ensures forall a {:trigger a in Listed(d, [], t, rank)} ::
              a in Listed(d, [], t, rank) <==> a in Listed(d, ops, t, rank)
  {
    forall a
      ensures a in Listed(d, ops, t, rank) <==> IsAncestor(d, a, t)
      ensures a in Listed(d, [], t, rank) <==> IsAncestor(d, a, t)
    {
      LookUpIsExact(d, ops, t, a, t, rank);
      LookUpIsExact(d, [], t, a, t, rank);
    }
  }

  lemma OneWinner(d: Declared, ops: seq<Op>, t: CredType, x: CredType, y: CredType, rank: Ranks)
    requires Ranked(d, rank) && FarthestFirst(d, t) && IsAncestor(d, x, t) && IsAncestor(d, y, t) && x != y
    ensures SameFirst(d, ops, t, x, y, rank)
  {
    assert {x, y} == {y, x};
    if FartherListed(d, t, x, y) {
      PairListed(d, ops, t, x, y, rank);
      PairListed(d, [], t, x, y, rank);
    } else {
      PairListed(d, ops, t, y, x, rank);
      PairListed(d, [], t, y, x, rank);
    }
  }

  // A type that lists all its ancestors itself, the farthest first, is looked up the same after any
  // history, whatever was reversed, and on any stored overwrites.
  lemma ReversalHarmless(d: Declared, o: Overwrites, ops: seq<Op>, t: CredType, rank: Ranks)
    requires Ranked(d, rank) && FarthestFirst(d, t)
    ensures Lookup(d, o, ops, t, rank) == Lookup(d, o, [], t, rank)
  {
    forall x, y | IsAncestor(d, x, t) && IsAncestor(d, y, t) && x != y
      ensures SameFirst(d, ops, t, x, y, rank)
    {
      OneWinner(d, ops, t, x, y, rank);
    }
    KeptIsSame(d, o, ops, t, rank);
  }

  lemma LookupFirst(d: Declared, o: Overwrites, ops: seq<Op>, t: CredType, f: Field, rank: Ranks)
    requires Ranked(d, rank)
    ensures var wanted := Providers(o, f);
            var first := if t in wanted then Some(t) else First(Listed(d, ops, t, rank), wanted);
            Get(Lookup(d, o, ops, t, rank), f) == if first.Some? then Some(o[first.value][f]) else None
  {
    MergeTakesFirst([t] + Listed(d, ops, t, rank), o, f);
    assert ([t] + Listed(d, ops, t, rank))[1..] == Listed(d, ops, t, rank);
  }

  // ---- reversals that show ----

  // Two ancestors that two histories list in different orders, told apart by a configuration.
  ghost function PairData(u: CredType, v: CredType, f: Field): Overwrites {
    map[u := map[f := Text("u")], v := map[f := Text("v")]]
  }

  lemma PairStored(d: Declared, u: CredType, v: CredType, f: Field, rank: Ranks)
    requires Ranked(d, rank) && u != v
    ensures var o := SetDataResult(d, PairData(u, v, f), [u, v], rank);
            o.Keys == {u, v} && Get(o[u], f) == Some(Text("u")) && Get(o[v], f) == Some(Text("v"))
  {
    var data := PairData(u, v, f);
    ComesFromInherited(d, data, rank);
    FilledStable(d, data, [u, v], 2, (x, g, y) => ComesFrom(d, data, x, g, y, rank), rank);
    PairKept(data, SetDataResult(d, data, [u, v], rank), u, v, f);
  }

  lemma PairKept(data: Overwrites, o: Overwrites, u: CredType, v: CredType, f: Field)
    requires u != v && data == PairData(u, v, f)
    requires o.Keys == data.Keys && forall x :: x in data ==> Keeps(data[x], o[x])
    ensures o.Keys == {u, v} && Get(o[u], f) == Some(Text("u")) && Get(o[v], f) == Some(Text("v"))
  {
    assert Keeps(data[u], o[u]) && Keeps(data[v], o[v]) && f in data[u] && f in data[v];
  }

  // The histories list some two ancestors of `t` in different orders.
  ghost predicate Flips(d: Declared, h1: seq<Op>, h2: seq<Op>, t: CredType, u: CredType, v: CredType, rank: Ranks)
    requires Ranked(d, rank)
  {
    && Above(d, rank, u, t) && Above(d, rank, v, t) && u != v
    && First(Listed(d, h1, t, rank), {u, v}) != First(Listed(d, h2, t, rank), {u, v})
  }

  lemma FlipShows(d: Declared, h1: seq<Op>, h2: seq<Op>, t: CredType, u: CredType, v: CredType, rank: Ranks)
    returns (data: Overwrites, order: seq<CredType>, f: Field)
    requires Ranked(d, rank) && Flips(d, h1, h2, t, u, v, rank)
    ensures Enumerates(order, data)
    ensures var o := SetDataResult(d, data, order, rank);
            Get(Lookup(d, o, h1, t, rank), f) != Get(Lookup(d, o, h2, t, rank), f)
  {
    f := Field("user");
    data, order := PairData(u, v, f), [u, v];
    var o := SetDataResult(d, data, order, rank);
    PairStored(d, u, v, f, rank);
    TellsFirst(d, o, h1, t, u, v, f, rank);
    TellsFirst(d, o, h2, t, u, v, f, rank);
  }

  // With those overwrites a lookup tells which of the two comes first.
  lemma TellsFirst(d: Declared, o: Overwrites, ops: seq<Op>, t: CredType, u: CredType, v: CredType, f: Field,
                   rank: Ranks)
    requires Ranked(d, rank) && Above(d, rank, u, t) && Above(d, rank, v, t) && u != v
    requires o.Keys == {u, v} && Get(o[u], f) == Some(Text("u")) && Get(o[v], f) == Some(Text("v"))
    ensures First(Listed(d, ops, t, rank), {u, v}).Some?
    ensures Get(Lookup(d, o, ops, t, rank), f)
         == Some(if First(Listed(d, ops, t, rank), {u, v}) == Some(u) then Text("u") else Text("v"))
  {
    assert Providers(o, f) == {u, v};
    AboveRanksLower(d, rank, u, t);
    AboveRanksLower(d, rank, v, t);
    LookupFirst(d, o, ops, t, f, rank);
    ListedIsExact(d, ops, t, u, rank);
  }

  // A nearer ancestor listed before a farther one changes place when the array is reversed.
  lemma NearerFirstFlips(d: Declared, t: CredType, a: CredType, b: CredType, rank: Ranks)
    requires Ranked(d, rank) && Above(d, rank, a, b) && Above(d, rank, b, t)
    requires First(Listed(d, [], t, rank), {a, b}) != Some(a)
    ensures Flips(d, [], [LookUpReversed(t)], t, a, b, rank)
  {
    AboveTransitive(d, rank, a, b, t);
    AboveRanksLower(d, rank, a, b);
    HistorySound(d, [], rank);
    FartherIsLast(d, History(d, [], rank), t, a, b, rank);
    AfterReversal(d, [], t, {a, b}, rank);
    assert [] + [LookUpReversed(t)] == [LookUpReversed(t)];
  }

  // An ancestor that is not itself a parent lies above one, which a lookup without history lists earlier.
  lemma UnlistedFlips(d: Declared, t: CredType, b: CredType, rank: Ranks) returns (p: CredType)
    requires Ranked(d, rank) && Above(d, rank, b, t) && b !in Parents(d, t)
    ensures Flips(d, [], [LookUpReversed(t)], t, b, p, rank)
  {
    p :| p in Parents(d, t) && Above(d, rank, b, p);
    FirstMember(Parents(d, t), p, b);
    DeclaredFirst(d, [], t, {b, p}, rank);
    AboveRanksLower(d, rank, b, p);
    NearerFirstFlips(d, t, b, p, rank);
  }

  lemma FirstMember(s: seq<CredType>, p: CredType, b: CredType)
    requires p in s && b !in s
    ensures First(s, {b, p}) == Some(p)
  {
  }

  // Two ancestors one above the other that are not listed farthest first.
  lemma ComparableFlips(d: Declared, t: CredType, a: CredType, b: CredType, rank: Ranks)
    returns (u: CredType, v: CredType)
    requires Ranked(d, rank) && Above(d, rank, a, b) && Above(d, rank, b, t) && First(Parents(d, t), {a, b}) != Some(a)
    ensures Flips(d, [], [LookUpReversed(t)], t, u, v, rank)
  {
    if First(Parents(d, t), {a, b}).Some? {
      DeclaredFirst(d, [], t, {a, b}, rank);
      NearerFirstFlips(d, t, a, b, rank);
      u, v := a, b;
    } else {
      u := b;
      v := UnlistedFlips(d, t, b, rank);
    }
  }

  // ---- ancestors neither of which is above the other ----

  // `u` and `v` are nearest ancestors of `w`, and everything on the way from `t` to them passes `w`.
  ghost predicate ForkAt(d: Declared, t: CredType, w: CredType, u: CredType, v: CredType, rank: Ranks)
    requires Ranked(d, rank)
  {
    && SelfOrAbove(d, rank, w, t) && u in Parents(d, w) && v in Parents(d, w) && u != v
    && Immediate(d, rank, w, {u, v})
    && PassesFork(d, t, w, {u, v}, rank)
  }

  ghost predicate PassesFork(d: Declared, t: CredType, w: CredType, wanted: set<CredType>, rank: Ranks)
    requires Ranked(d, rank)
  {
    forall x, y {:trigger Above(d, rank, x, t), Above(d, rank, y, x)} ::
      y in wanted && Above(d, rank, x, t) && Above(d, rank, y, x) ==> x == w || Above(d, rank, w, x)
  }

  // No parent of `t` has `p` above it.
  ghost predicate NearestParent(d: Declared, t: CredType, p: CredType, rank: Ranks)
    requires Ranked(d, rank)
  {
    p in Parents(d, t) && forall q {:trigger Above(d, rank, p, q)} :: q in Parents(d, t) ==> !Above(d, rank, p, q)
  }

  lemma {:induction false} NearestBelow(d: Declared, t: CredType, p: CredType, rank: Ranks) returns (m: CredType)
    requires Ranked(d, rank) && p in Parents(d, t)
    ensures NearestParent(d, t, m, rank) && SelfOrAbove(d, rank, p, m)
    decreases Rank(rank, t) - Rank(rank, p)
  {
    if NearestParent(d, t, p, rank) {
      m := p;
    } else {
      var q :| q in Parents(d, t) && Above(d, rank, p, q);
      AboveRanksLower(d, rank, p, q);
      m := NearestBelow(d, t, q, rank);
      if q != m {
        assert Above(d, rank, q, m);
        AboveTransitive(d, rank, p, q, m);
      }
    }
  }

  lemma NearestIsImmediate(d: Declared, t: CredType, u: CredType, v: CredType, rank: Ranks)
    requires Ranked(d, rank) && NearestParent(d, t, u, rank) && NearestParent(d, t, v, rank)
    ensures Immediate(d, rank, t, {u, v}) && PassesFork(d, t, t, {u, v}, rank)
  {
    forall x, y | y in {u, v} && Above(d, rank, x, t)
      ensures !Above(d, rank, y, x)
    {
      var q :| q in Parents(d, t) && SelfOrAbove(d, rank, x, q);
      assert SelfOrAbove(d, rank, x, q);
      if Above(d, rank, y, x) && x != q {
        assert Above(d, rank, x, q);
        AboveTransitive(d, rank, y, x, q);
      }
    }
  }

  lemma {:induction false} FindFork(d: Declared, t: CredType, a: CredType, b: CredType, rank: Ranks)
    returns (w: CredType, u: CredType, v: CredType)
    requires Ranked(d, rank) && Above(d, rank, a, t) && Above(d, rank, b, t) && a != b
    requires !Above(d, rank, a, b) && !Above(d, rank, b, a)
    ensures ForkAt(d, t, w, u, v, rank)
    decreases Rank(rank, t)
  {
    var p :| p in Parents(d, t) && SelfOrAbove(d, rank, a, p);
    var m := NearestBelow(d, t, p, rank);
    if n :| NearestParent(d, t, n, rank) && n != m {
      NearestIsImmediate(d, t, m, n, rank);
      w, u, v := t, m, n;
    } else {
      AllAboveOne(d, t, m, a, rank);
      AllAboveOne(d, t, m, b, rank);
      w, u, v := FindFork(d, m, a, b, rank);
      ForkFromBelow(d, t, m, w, u, v, rank);
    }
  }

  // With one nearest parent, every other ancestor is above it.
  lemma AllAboveOne(d: Declared, t: CredType, m: CredType, a: CredType, rank: Ranks)
    requires Ranked(d, rank) && NearestParent(d, t, m, rank) && Above(d, rank, a, t)
    requires forall n :: NearestParent(d, t, n, rank) ==> n == m
    ensures SelfOrAbove(d, rank, a, m)
  {
    var p :| p in Parents(d, t) && SelfOrAbove(d, rank, a, p);
    var n := NearestBelow(d, t, p, rank);
    assert n == m;
    if a != p && p != m {
      assert SelfOrAbove(d, rank, a, p);
      assert SelfOrAbove(d, rank, p, m);
      assert Above(d, rank, a, p);
      assert Above(d, rank, p, m);
      AboveTransitive(d, rank, a, p, m);
    }
  }

  lemma ForkFromBelow(d: Declared, t: CredType, m: CredType, w: CredType, u: CredType, v: CredType, rank: Ranks)
    requires Ranked(d, rank) && NearestParent(d, t, m, rank) && ForkAt(d, m, w, u, v, rank)
    requires forall n :: NearestParent(d, t, n, rank) ==> n == m
    ensures ForkAt(d, t, w, u, v, rank)
  {
    forall x, y | y in {u, v} && Above(d, rank, x, t) && Above(d, rank, y, x)
      ensures x == w || Above(d, rank, w, x)
    {
      AllAboveOne(d, t, m, x, rank);
    }
    if w != m {
      AboveTransitive(d, rank, w, m, t);
    }
  }

  // ---- a fork shows ----

  // What is last in the array of `w` when its turn comes is last in the array of `t`.
  lemma ForkDecides(d: Declared, before: Known, t: CredType, w: CredType, wanted: set<CredType>, rank: Ranks)
    requires Ranked(d, rank) && Sound(d, before, rank) && Grounded(before, rank) && Rank(rank, w) < Rank(rank, t)
    requires Immediate(d, rank, w, wanted) && Last(Stored(before, w), wanted).Some?
    ensures Last(Stored(Pushed(before, t, w, rank), t), wanted) == Last(Stored(before, w), wanted)
  {
    VisitKeepsLast(d, before, w, w, wanted, rank);
    PushedAt(before, t, w, rank);
    LastOfPush(Stored(before, t), Stored(Visit(before, w, rank), w), wanted);
  }

  ghost predicate NoneWanted(d: Declared, rank: Ranks, p: CredType, wanted: set<CredType>)
    requires Ranked(d, rank)
  {
    forall u :: u in wanted ==> !Above(d, rank, u, p)
  }

  lemma OthersPass(d: Declared, before: Known, t: CredType, p: CredType, wanted: set<CredType>, rank: Ranks)
    requires Ranked(d, rank) && Sound(d, before, rank) && Grounded(before, rank) && Rank(rank, p) < Rank(rank, t)
    requires NoneWanted(d, rank, p, wanted)
    ensures Last(Stored(Pushed(before, t, p, rank), t), wanted) == Last(Stored(before, t), wanted)
  {
    VisitListsAncestors(d, before, p, rank);
    PushedAt(before, t, p, rank);
    LastOfPush(Stored(before, t), Stored(Visit(before, p, rank), p), wanted);
    LastMember(Stored(Visit(before, p, rank), p), wanted);
  }

  // The element `j` is `w`, and no later one has a wanted type above it.
  ghost predicate LastTurn(d: Declared, listed: seq<CredType>, w: CredType, j: nat, wanted: set<CredType>, rank: Ranks)
    requires Ranked(d, rank)
  {
    j < |listed| && listed[j] == w && forall m :: j < m < |listed| ==> NoneWanted(d, rank, listed[m], wanted)
  }

  lemma {:induction false} ForkDecidesFirst(d: Declared, k: Known, t: CredType, i: nat, j: nat, w: CredType,
                                            wanted: set<CredType>, rank: Ranks)
    requires Ranked(d, rank) && Sound(d, k, rank) && Grounded(k, rank) && j < i <= |Stored(k, t)|
    requires Immediate(d, rank, w, wanted) && Last(Stored(k, w), wanted).Some?
    requires LastTurn(d, Stored(k, t), w, j, wanted, rank)
    ensures Last(Stored(VisitFirst(k, t, i, rank), t), wanted) == Last(Stored(k, w), wanted)
    decreases i
  {
    var p, before, after := PushStep(d, k, t, i, rank);
    if j < i - 1 {
      ForkDecidesFirst(d, k, t, i - 1, j, w, wanted, rank);
      OthersPass(d, before, t, p, wanted, rank);
    } else {
      VisitFirstKeepsLast(d, k, t, j, w, wanted, rank);
      ForkDecides(d, before, t, w, wanted, rank);
    }
  }

  // Every type that extends the fork comes before it for the last time.
  ghost predicate ForkIsLast(d: Declared, listed: seq<CredType>, t: CredType, w: CredType, rank: Ranks)
    requires Ranked(d, rank)
  {
    w in listed && forall b :: Above(d, rank, w, b) && Above(d, rank, b, t) ==> Last(listed, {w, b}) == Some(w)
  }

  lemma LastTurnOf(d: Declared, listed: seq<CredType>, t: CredType, w: CredType, wanted: set<CredType>, rank: Ranks)
    returns (j: nat)
    requires Ranked(d, rank) && (forall a :: a in listed ==> Above(d, rank, a, t)) && ForkIsLast(d, listed, t, w, rank)
    requires Immediate(d, rank, w, wanted) && PassesFork(d, t, w, wanted, rank)
    ensures LastTurn(d, listed, w, j, wanted, rank)
  {
    LastMember(listed, {w});
    j := LastIndex(listed, {w});
    forall m | j < m < |listed|
      ensures NoneWanted(d, rank, listed[m], wanted)
    {
      var b := listed[m];
      assert b in listed && b != w;
      if Above(d, rank, w, b) {
        LastMember(listed, {w, b});
        var n := LastIndex(listed, {w, b});
      }
    }
  }

  lemma ForkIsLastOnce(d: Declared, k: Known, t: CredType, w: CredType, rank: Ranks)
    requires Ranked(d, rank) && Sound(d, k, rank) && Grounded(k, rank) && Above(d, rank, w, t)
    ensures ForkIsLast(d, Stored(Visit(k, t, rank), t), t, w, rank)
  {
    VisitListsAncestors(d, k, t, rank);
    forall b | Above(d, rank, w, b) && Above(d, rank, b, t)
      ensures Last(Stored(Visit(k, t, rank), t), {w, b}) == Some(w)
    {
      FartherIsLast(d, k, t, w, b, rank);
    }
  }

  // Once `t` was looked up, the array of the fork decides which of the two a lookup lists last.
  lemma ForkDecidesLookup(d: Declared, k: Known, t: CredType, w: CredType, wanted: set<CredType>, rank: Ranks)
    requires Ranked(d, rank) && Sound(d, k, rank) && Grounded(k, rank) && ForkIsLast(d, Stored(k, t), t, w, rank)
    requires Immediate(d, rank, w, wanted) && PassesFork(d, t, w, wanted, rank) && Last(Stored(k, w), wanted).Some?
    ensures Last(Stored(Visit(k, t, rank), t), wanted) == Last(Stored(k, w), wanted)
  {
    var j := LastTurnOf(d, Stored(k, t), t, w, wanted, rank);
    ForkDecidesFirst(d, k, t, |Stored(k, t)|, j, w, wanted, rank);
  }

  lemma OneOp(d: Declared, op: Op, rank: Ranks)
    requires Ranked(d, rank)
    ensures Grounded(Initial(d), rank) && History(d, [op], rank) == Apply(Initial(d), op, rank)
  {
    assert [op][..0] == [];
    assert History(d, [], rank) == Initial(d);
  }

  lemma MoreOps(d: Declared, ops: seq<Op>, op: Op, rank: Ranks)
    requires Ranked(d, rank)
    ensures History(d, ops + [op], rank) == Apply(History(d, ops, rank), op, rank)
  {
    assert (ops + [op])[..|ops|] == ops;
  }

  // A lookup of `t` leaves the declared order of the fork's nearest parents at its last place.
  lemma AfterOne(d: Declared, t: CredType, w: CredType, wanted: set<CredType>, rank: Ranks)
    requires Ranked(d, rank) && Above(d, rank, w, t) && Immediate(d, rank, w, wanted)
    ensures var k := History(d, [LookUp(t)], rank);
            ForkIsLast(d, Stored(k, t), t, w, rank) && Last(Stored(k, w), wanted) == Last(Parents(d, w), wanted)
  {
    OneOp(d, LookUp(t), rank);
    InitialSound(d, rank);
    InitialStored(d);
    ForkIsLastOnce(d, Initial(d), t, w, rank);
    VisitKeepsLast(d, Initial(d), t, w, wanted, rank);
  }

  // Reversing the array of the fork puts the first declared there.
  lemma AfterTwo(d: Declared, t: CredType, w: CredType, wanted: set<CredType>, rank: Ranks)
    requires Ranked(d, rank) && Above(d, rank, w, t) && Immediate(d, rank, w, wanted)
    requires First(Parents(d, w), wanted).Some?
    ensures var k := History(d, [LookUp(t), LookUpReversed(w)], rank);
            ForkIsLast(d, Stored(k, t), t, w, rank) && Last(Stored(k, w), wanted) == First(Parents(d, w), wanted)
  {
    var before := History(d, [LookUp(t)], rank);
    AfterOne(d, t, w, wanted, rank);
    MoreOps(d, [LookUp(t)], LookUpReversed(w), rank);
    assert [LookUp(t)] + [LookUpReversed(w)] == [LookUp(t), LookUpReversed(w)];
    AboveRanksLower(d, rank, w, t);
    VisitGrows(before, w, rank);
    DeclaredFirst(d, [LookUp(t)], w, wanted, rank);
    ReverseExchanges(Stored(Visit(before, w, rank), w), wanted);
  }

  // The histories that tell a fork above `t`, and one at `t` itself.
  ghost function Probes(t: CredType, w: CredType): (seq<Op>, seq<Op>) {
    if w == t then ([], [LookUpReversed(t)])
    else ([LookUp(t), LookUpReversed(t)], [LookUp(t), LookUpReversed(w), LookUpReversed(t)])
  }

  lemma ForkFlips(d: Declared, t: CredType, w: CredType, u: CredType, v: CredType, rank: Ranks)
    requires Ranked(d, rank) && ForkAt(d, t, w, u, v, rank) && NoneReturns(Parents(d, w))
    ensures Flips(d, Probes(t, w).0, Probes(t, w).1, t, u, v, rank)
  {
    LastMember(Parents(d, w), {u, v});
    if w == t {
      ForkAtSelf(d, t, {u, v}, rank);
    } else {
      AboveTransitive(d, rank, u, w, t);
      AboveTransitive(d, rank, v, w, t);
      ForkBelow(d, t, w, {u, v}, rank);
    }
  }

  lemma ForkAtSelf(d: Declared, t: CredType, wanted: set<CredType>, rank: Ranks)
    requires Ranked(d, rank) && Immediate(d, rank, t, wanted) && First(Parents(d, t), wanted).Some?
    requires Last(Parents(d, t), wanted).Some?
    ensures First(Listed(d, [], t, rank), wanted) == First(Parents(d, t), wanted)
    ensures First(Listed(d, [LookUpReversed(t)], t, rank), wanted) == Last(Parents(d, t), wanted)
  {
    DeclaredFirst(d, [], t, wanted, rank);
    HistorySound(d, [], rank);
    InitialStored(d);
    VisitKeepsLast(d, History(d, [], rank), t, t, wanted, rank);
    AfterReversal(d, [], t, wanted, rank);
    assert [] + [LookUpReversed(t)] == [LookUpReversed(t)];
  }

  // Reversing the array of `t` shows what the array of the fork has last.
  lemma ForkProbed(d: Declared, ops: seq<Op>, t: CredType, w: CredType, wanted: set<CredType>, rank: Ranks)
    requires Ranked(d, rank) && Immediate(d, rank, w, wanted) && PassesFork(d, t, w, wanted, rank)
    requires var k := History(d, ops, rank); ForkIsLast(d, Stored(k, t), t, w, rank) && Last(Stored(k, w), wanted).Some?
    ensures First(Listed(d, ops + [LookUpReversed(t)], t, rank), wanted)
         == Last(Stored(History(d, ops, rank), w), wanted)
  {
    HistorySound(d, ops, rank);
    ForkDecidesLookup(d, History(d, ops, rank), t, w, wanted, rank);
    AfterReversal(d, ops, t, wanted, rank);
  }

  lemma ForkBelow(d: Declared, t: CredType, w: CredType, wanted: set<CredType>, rank: Ranks)
    requires Ranked(d, rank) && Above(d, rank, w, t) && Immediate(d, rank, w, wanted)
    requires PassesFork(d, t, w, wanted, rank)
    requires First(Parents(d, w), wanted).Some? && Last(Parents(d, w), wanted).Some?
    ensures First(Listed(d, Probes(t, w).0, t, rank), wanted) == Last(Parents(d, w), wanted)
    ensures First(Listed(d, Probes(t, w).1, t, rank), wanted) == First(Parents(d, w), wanted)
  {
    AboveRanksLower(d, rank, w, t);
    AfterOne(d, t, w, wanted, rank);
    ForkProbed(d, [LookUp(t)], t, w, wanted, rank);
    AfterTwo(d, t, w, wanted, rank);
    ForkProbed(d, [LookUp(t), LookUpReversed(w)], t, w, wanted, rank);
    assert [LookUp(t)] + [LookUpReversed(t)] == Probes(t, w).0;
    assert [LookUp(t), LookUpReversed(w)] + [LookUpReversed(t)] == Probes(t, w).1;
  }

  // ---- exactly when ----

  // No history, reversals of any arrays included, changes any lookup of `t`, whatever is configured.
  ghost predicate ReversalSafe(d: Declared, t: CredType, rank: Ranks)
    requires Ranked(d, rank)
  {
    forall data, order, ops ::
      Enumerates(order, data) ==> SameLookup(d, SetDataResult(d, data, order, rank), ops, t, rank)
  }

  ghost predicate SameLookup(d: Declared, o: Overwrites, ops: seq<Op>, t: CredType, rank: Ranks)
    requires Ranked(d, rank)
  {
    Lookup(d, o, ops, t, rank) == Lookup(d, o, [], t, rank)
  }

  lemma SafeNeverFlips(d: Declared, h1: seq<Op>, h2: seq<Op>, t: CredType, u: CredType, v: CredType, rank: Ranks)
    requires Ranked(d, rank) && Flips(d, h1, h2, t, u, v, rank)
    ensures !ReversalSafe(d, t, rank)
  {
    var data, order, f := FlipShows(d, h1, h2, t, u, v, rank);
    var o := SetDataResult(d, data, order, rank);
    assert !SameLookup(d, o, h1, t, rank) || !SameLookup(d, o, h2, t, rank);
  }

  lemma UnorderedShows(d: Declared, t: CredType, a: CredType, b: CredType, rank: Ranks)
    requires Ranked(d, rank) && Above(d, rank, a, t) && Above(d, rank, b, t) && a != b
    requires forall w :: SelfOrAbove(d, rank, w, t) ==> NoneReturns(Parents(d, w))
    requires !FartherListed(d, t, a, b) && !FartherListed(d, t, b, a)
    ensures !ReversalSafe(d, t, rank)
  {
    AboveIsAncestor(d, rank, a, b);
    AboveIsAncestor(d, rank, b, a);
    if Above(d, rank, a, b) {
      var u, v := ComparableFlips(d, t, a, b, rank);
      SafeNeverFlips(d, [], [LookUpReversed(t)], t, u, v, rank);
    } else if Above(d, rank, b, a) {
      var u, v := ComparableFlips(d, t, b, a, rank);
      SafeNeverFlips(d, [], [LookUpReversed(t)], t, u, v, rank);
    } else {
      var w, u, v := FindFork(d, t, a, b, rank);
      ForkFlips(d, t, w, u, v, rank);
      SafeNeverFlips(d, Probes(t, w).0, Probes(t, w).1, t, u, v, rank);
    }
  }

  // Where no parent is listed again after another: reversals never show if and only if of any two
  // ancestors one extends the other, and `t` lists them all itself, the farthest first.
  lemma ReversalHarmlessIff(d: Declared, t: CredType, rank: Ranks)
    requires Ranked(d, rank) && forall w :: SelfOrAbove(d, rank, w, t) ==> NoneReturns(Parents(d, w))
    ensures ReversalSafe(d, t, rank) <==> FarthestFirst(d, t)
  {
    if FarthestFirst(d, t) {
      forall data, order, ops | Enumerates(order, data)
        ensures SameLookup(d, SetDataResult(d, data, order, rank), ops, t, rank)
      {
        ReversalHarmless(d, SetDataResult(d, data, order, rank), ops, t, rank);
      }
    } else {
      var a, b :| IsAncestor(d, a, t) && IsAncestor(d, b, t) && a != b && !FartherListed(d, t, a, b)
        && !FartherListed(d, t, b, a);
      AboveIsAncestor(d, rank, a, t);
      AboveIsAncestor(d, rank, b, t);
      UnorderedShows(d, t, a, b, rank);
    }
  }

  lemma AllSameNoneReturns(d: Declared, t: CredType, rank: Ranks)
    requires Ranked(d, rank) && SingleFrom(d, t, rank)
    ensures forall w :: SelfOrAbove(d, rank, w, t) ==> NoneReturns(Parents(d, w))
  {
  }

  lemma FarthestOnChain(d: Declared, t: CredType, a: CredType, b: CredType, rank: Ranks)
    requires Ranked(d, rank) && SingleFrom(d, t, rank) && FartherListed(d, t, a, b)
    ensures !IsAncestor(d, b, t)
  {
    AboveIsAncestor(d, rank, a, b);
    AboveIsAncestor(d, rank, b, t);
    AboveRanksLower(d, rank, a, b);
    if Above(d, rank, b, t) {
      var p :| p in Parents(d, t) && SelfOrAbove(d, rank, b, p);
      assert SelfOrAbove(d, rank, t, t);
      assert p == a;
      if b != p {
        AboveRanksLower(d, rank, b, p);
      }
    }
  }

  // On a single chain every lookup is the nearest configured value after every history, whatever
  // was reversed, if and only if the type has at most one ancestor.
  lemma ChainReversalHarmlessIff(d: Declared, t: CredType, rank: Ranks)
    requires Ranked(d, rank) && SingleFrom(d, t, rank)
    ensures (forall data, order, ops, f :: Enumerates(order, data) ==>
               Get(Lookup(d, SetDataResult(d, data, order, rank), ops, t, rank), f) == Nearest(d, data, t, f, rank))
       <==> (forall a, b :: IsAncestor(d, a, t) && IsAncestor(d, b, t) ==> a == b)
  {
    AllSameNoneReturns(d, t, rank);
    ReversalHarmlessIff(d, t, rank);
    forall a, b | FartherListed(d, t, a, b)
      ensures !IsAncestor(d, b, t)
    {
      FarthestOnChain(d, t, a, b, rank);
    }
    SafeIsNearest(d, t, rank);
  }

  lemma SafeIsNearest(d: Declared, t: CredType, rank: Ranks)
    requires Ranked(d, rank) && SingleFrom(d, t, rank)
    ensures ReversalSafe(d, t, rank) <==>
            (forall data, order, ops, f :: Enumerates(order, data) ==>
               Get(Lookup(d, SetDataResult(d, data, order, rank), ops, t, rank), f) == Nearest(d, data, t, f, rank))
  {
    forall data, order, f | Enumerates(order, data)
      ensures Get(Lookup(d, SetDataResult(d, data, order, rank), [], t, rank), f) == Nearest(d, data, t, f, rank)
    {
      LookupIsNearest(d, data, order, [], t, f, rank);
    }
    if forall data, order, ops, f :: Enumerates(order, data) ==>
         Get(Lookup(d, SetDataResult(d, data, order, rank), ops, t, rank), f) == Nearest(d, data, t, f, rank) {
      forall data, order, ops | Enumerates(order, data)
        ensures SameLookup(d, SetDataResult(d, data, order, rank), ops, t, rank)
      {
        var o := SetDataResult(d, data, order, rank);
        SameFields(Lookup(d, o, ops, t, rank), Lookup(d, o, [], t, rank));
      }
    } else {
      var data, order, ops, f :| Enumerates(order, data)
        && Get(Lookup(d, SetDataResult(d, data, order, rank), ops, t, rank), f) != Nearest(d, data, t, f, rank);
      assert !SameLookup(d, SetDataResult(d, data, order, rank), ops, t, rank);
    }
  }

  // ---- a parent listed again after another one ----

  // If the declared parents have the same one of two at both ends, and neither is listed anywhere else,
  // no history changes which is at either end.
  lemma {:induction false} EndsStay(d: Declared, ops: seq<Op>, t: CredType, wanted: set<CredType>, a: CredType,
                                    rank: Ranks)
    requires Ranked(d, rank) && Immediate(d, rank, t, wanted)
    requires First(Parents(d, t), wanted) == Some(a) && Last(Parents(d, t), wanted) == Some(a)
    ensures var s := Stored(History(d, ops, rank), t); First(s, wanted) == Some(a) && Last(s, wanted) == Some(a)
    decreases |ops|
  {
    if ops == [] {
      InitialStored(d);
    } else {
      var before, op := History(d, ops[..|ops| - 1], rank), ops[|ops| - 1];
      EndsStay(d, ops[..|ops| - 1], t, wanted, a, rank);
      HistorySound(d, ops[..|ops| - 1], rank);
      VisitGrows(before, op.t, rank);
      FirstOfPrefix(Stored(before, t), Stored(Visit(before, op.t, rank), t), wanted);
      VisitKeepsLast(d, before, op.t, t, wanted, rank);
      if op == LookUpReversed(t) {
        ReverseExchanges(Stored(Visit(before, t, rank), t), wanted);
      }
    }
  }

  lemma EndsListed(d: Declared, ops: seq<Op>, t: CredType, wanted: set<CredType>, a: CredType, rank: Ranks)
    requires Ranked(d, rank) && Immediate(d, rank, t, wanted)
    requires First(Parents(d, t), wanted) == Some(a) && Last(Parents(d, t), wanted) == Some(a)
    ensures First(Listed(d, ops, t, rank), wanted) == Some(a)
  {
    EndsStay(d, ops, t, wanted, a, rank);
    VisitGrows(History(d, ops, rank), t, rank);
    FirstOfPrefix(Stored(History(d, ops, rank), t), Listed(d, ops, t, rank), wanted);
  }

  // So without that hypothesis the equivalence fails: reversals never show for a type that extends
  // `[u, v, u]`, where neither `u` nor `v` extends anything.
  lemma ReturningParentHarmless(d: Declared, t: CredType, u: CredType, v: CredType, rank: Ranks)
    requires Ranked(d, rank) && Parents(d, t) == [u, v, u] && u != v && Parents(d, u) == [] && Parents(d, v) == []
    ensures ReversalSafe(d, t, rank) && !FarthestFirst(d, t)
  {
    OnlyTwoAbove(d, t, u, v, rank);
    NothingAbove(d, u, rank);
    NothingAbove(d, v, rank);
    SameEnds(u, v);
    assert Immediate(d, rank, t, {u, v});
    forall data, order, ops | Enumerates(order, data)
      ensures SameLookup(d, SetDataResult(d, data, order, rank), ops, t, rank)
    {
      EndsKept(d, ops, t, u, v, rank);
      KeptIsSame(d, SetDataResult(d, data, order, rank), ops, t, rank);
    }
    assert IsAncestor(d, u, t) && IsAncestor(d, v, t) && !FartherListed(d, t, u, v) && !FartherListed(d, t, v, u);
  }

  lemma EndsKept(d: Declared, ops: seq<Op>, t: CredType, u: CredType, v: CredType, rank: Ranks)
    requires Ranked(d, rank) && Immediate(d, rank, t, {u, v})
    requires First(Parents(d, t), {u, v}) == Some(u) && Last(Parents(d, t), {u, v}) == Some(u)
    requires forall x :: IsAncestor(d, x, t) <==> x == u || x == v
    ensures PairsKept(d, ops, t, rank)
  {
    EndsListed(d, ops, t, {u, v}, u, rank);
    EndsListed(d, [], t, {u, v}, u, rank);
    assert {u, v} == {v, u};
  }

  lemma NothingAbove(d: Declared, u: CredType, rank: Ranks)
    requires Ranked(d, rank) && Parents(d, u) == []
    ensures forall x :: !Above(d, rank, x, u) && !IsAncestor(d, x, u)
  {
    forall x
      ensures !Above(d, rank, x, u) && !IsAncestor(d, x, u)
    {
      AboveIsAncestor(d, rank, x, u);
    }
  }

  lemma OnlyTwoAbove(d: Declared, t: CredType, u: CredType, v: CredType, rank: Ranks)
    requires Ranked(d, rank) && Parents(d, t) == [u, v, u] && Parents(d, u) == [] && Parents(d, v) == []
    ensures forall x :: IsAncestor(d, x, t) <==> x == u || x == v
    ensures forall x :: Above(d, rank, x, t) <==> x == u || x == v
  {
    NothingAbove(d, u, rank);
    NothingAbove(d, v, rank);
    var ps := Parents(d, t);
    assert ps[0] == u && ps[1] == v && forall p :: p in ps ==> p == u || p == v;
    forall x
      ensures Above(d, rank, x, t) <==> x == u || x == v
      ensures IsAncestor(d, x, t) <==> x == u || x == v
    {
      AboveIsAncestor(d, rank, x, t);
    }
  }

  lemma SameEnds(u: CredType, v: CredType)
    ensures First([u, v, u], {u, v}) == Some(u) && Last([u, v, u], {u, v}) == Some(u)
  {
  }
}
