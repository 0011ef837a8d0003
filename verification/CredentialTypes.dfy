// packages/cli/src/credential-types.ts: the lookup of all parent types, which grows the stored
// `extends` arrays while it reads them.
module CredentialTypes {
  import opened Wrappers
  import opened FirstOccurrences
  import opened CredentialGraph

  // The stored `extends` arrays, keyed by type. A type without one has no key.
  type Known = map<CredType, seq<CredType>>

  function Stored(k: Known, t: CredType): seq<CredType> {
    if t in k then k[t] else []
  }

  function Initial(d: Declared): Known {
    map t | t in d && d[t].Some? :: d[t].value
  }

  // Every stored array lists the declared parents and nothing but ancestors.
  ghost predicate Sound(d: Declared, k: Known, rank: Ranks)
    requires Ranked(d, rank)
  {
    && (forall t, p {:trigger p in Stored(k, t)} :: p in Parents(d, t) ==> p in Stored(k, t))
    && (forall t, a {:trigger a in Stored(k, t)} :: a in Stored(k, t) ==> Above(d, rank, a, t))
  }

  ghost predicate Grounded(k: Known, rank: Ranks) {
    forall t, a {:trigger a in Stored(k, t)} :: a in Stored(k, t) ==> Rank(rank, a) < Rank(rank, t)
  }

  lemma SoundIsGrounded(d: Declared, k: Known, rank: Ranks)
    requires Ranked(d, rank) && Sound(d, k, rank)
    ensures Grounded(k, rank)
  {
    forall t, a | a in Stored(k, t)
      ensures Rank(rank, a) < Rank(rank, t)
    {
      AboveRanksLower(d, rank, a, t);
    }
  }

  lemma InitialSound(d: Declared, rank: Ranks)
    requires Ranked(d, rank)
    ensures Sound(d, Initial(d), rank)
  {
  }

  // ---- one lookup ----

  // Arrays only grow at their end, and only those of `t` and of types ranking below it.
  ghost predicate Grows(k: Known, k': Known, t: CredType, rank: Ranks) {
    && (forall u {:trigger Stored(k', u)} :: Rank(rank, u) >= Rank(rank, t) && u != t ==> Stored(k', u) == Stored(k, u))
    && (forall u :: Stored(k, u) <= Stored(k', u))
  }

  ghost function Append(k: Known, t: CredType, more: seq<CredType>): Known {
    k[t := Push(Stored(k, t), more)]
  }

  // The stored arrays after one lookup of `t`.
  ghost function Visit(k: Known, t: CredType, rank: Ranks): (k': Known)
    requires Grounded(k, rank)
    ensures Grounded(k', rank)
    ensures forall u {:trigger Stored(k', u)} :: |Stored(k, u)| <= |Stored(k', u)|
    decreases Rank(rank, t), |Stored(k, t)| + 1
  {
    VisitFirst(k, t, |Stored(k, t)|, rank)
  }

  // The stored arrays after the first `i` elements of the array of `t` were processed. The
  // iteration covers the array as it was when it started; what it appends is not visited.
  ghost function VisitFirst(k: Known, t: CredType, i: nat, rank: Ranks): (k': Known)
    requires Grounded(k, rank) && i <= |Stored(k, t)|
    ensures Grounded(k', rank)
    ensures forall u {:trigger Stored(k', u)} :: |Stored(k, u)| <= |Stored(k', u)|
    decreases Rank(rank, t), i
  {
    if i == 0 then
      k
    else
      assert Stored(k, t)[i - 1] in Stored(k, t);
      var during := Visit(VisitFirst(k, t, i - 1, rank), Stored(k, t)[i - 1], rank);
      AppendGrounded(during, t, Stored(k, t)[i - 1], rank);
      AppendLonger(k, VisitFirst(k, t, i - 1, rank), during, t, Stored(during, Stored(k, t)[i - 1]));
      Append(during, t, Stored(during, Stored(k, t)[i - 1]))
  }

  lemma AppendGrounded(k: Known, t: CredType, p: CredType, rank: Ranks)
    requires Rank(rank, p) < Rank(rank, t) && Grounded(k, rank)
    ensures Grounded(Append(k, t, Stored(k, p)), rank)
  {
    var after := Append(k, t, Stored(k, p));
    forall u, a | a in Stored(after, u)
      ensures Rank(rank, a) < Rank(rank, u)
    {
      PushMember(Stored(k, t), Stored(k, p), a);
      assert a in Stored(k, u) || (u == t && a in Stored(k, p));
    }
  }

  lemma AppendLonger(k: Known, before: Known, during: Known, t: CredType, more: seq<CredType>)
    requires forall u :: |Stored(k, u)| <= |Stored(before, u)|
    requires forall u :: |Stored(before, u)| <= |Stored(during, u)|
    ensures forall u {:trigger Stored(Append(during, t, more), u)} ::
            |Stored(k, u)| <= |Stored(Append(during, t, more), u)|
  {
    forall u
      ensures |Stored(k, u)| <= |Stored(Append(during, t, more), u)|
    {
      PushKeeps(Stored(during, t), more);
      assert |Stored(k, u)| <= |Stored(before, u)| <= |Stored(during, u)|;
    }
  }

  // A lookup of `t` only appends, and only to the arrays of `t` and of types ranking below it.
  lemma {:induction false} VisitGrows(k: Known, t: CredType, rank: Ranks)
    requires Grounded(k, rank)
    ensures Grows(k, Visit(k, t, rank), t, rank)
    decreases Rank(rank, t), |Stored(k, t)| + 1
  {
    VisitFirstGrows(k, t, |Stored(k, t)|, rank);
  }

  lemma {:induction false} VisitFirstGrows(k: Known, t: CredType, i: nat, rank: Ranks)
    requires Grounded(k, rank) && i <= |Stored(k, t)|
    ensures Grows(k, VisitFirst(k, t, i, rank), t, rank)
    decreases Rank(rank, t), i
  {
    if i > 0 {
      assert Stored(k, t)[i - 1] in Stored(k, t);
      VisitFirstGrows(k, t, i - 1, rank);
      var before := VisitFirst(k, t, i - 1, rank);
      VisitGrows(before, Stored(k, t)[i - 1], rank);
      AppendGrows(k, before, Visit(before, Stored(k, t)[i - 1], rank), t, Stored(k, t)[i - 1], rank);
    }
  }

  lemma AppendGrows(k: Known, before: Known, during: Known, t: CredType, p: CredType, rank: Ranks)
    requires Rank(rank, p) < Rank(rank, t)
    requires Grows(k, before, t, rank) && Grows(before, during, p, rank)
    ensures Grows(k, Append(during, t, Stored(during, p)), t, rank)
  {
    PushKeeps(Stored(during, t), Stored(during, p));
  }

  // ---- which types a lookup lists ----

  lemma AppendSound(d: Declared, k: Known, t: CredType, p: CredType, rank: Ranks)
    requires Ranked(d, rank) && Sound(d, k, rank) && Above(d, rank, p, t)
    ensures Sound(d, Append(k, t, Stored(k, p)), rank)
  {
    var after := Append(k, t, Stored(k, p));
    forall u, q | q in Parents(d, u)
      ensures q in Stored(after, u)
    {
      assert q in Stored(k, u);
      PushMember(Stored(k, t), Stored(k, p), q);
    }
    forall u, a | a in Stored(after, u)
      ensures Above(d, rank, a, u)
    {
      PushMember(Stored(k, t), Stored(k, p), a);
      if a !in Stored(k, u) {
        AboveTransitive(d, rank, a, p, t);
      }
    }
  }

  // `listed` has every ancestor of the first `i` types in `ps`.
  ghost predicate Covers(d: Declared, rank: Ranks, listed: seq<CredType>, ps: seq<CredType>, i: nat)
    requires Ranked(d, rank) && i <= |ps|
  {
    forall j, a {:trigger Above(d, rank, a, ps[j])} :: 0 <= j < i && Above(d, rank, a, ps[j]) ==> a in listed
  }

  lemma CoversMore(d: Declared, rank: Ranks, listed: seq<CredType>, more: seq<CredType>, ps: seq<CredType>, i: nat)
    requires Ranked(d, rank) && 0 < i <= |ps| && Covers(d, rank, listed, ps, i - 1)
    requires forall a :: Above(d, rank, a, ps[i - 1]) ==> a in more
    ensures Covers(d, rank, Push(listed, more), ps, i)
  {
    PushIsConcat(listed, more);
  }

  lemma CoversStep(d: Declared, before: Known, during: Known, t: CredType, ps: seq<CredType>, i: nat, rank: Ranks)
    requires Ranked(d, rank) && Sound(d, during, rank) && 0 < i <= |ps|
    requires Above(d, rank, ps[i - 1], t)
    requires Stored(during, t) == Stored(before, t) && Covers(d, rank, Stored(before, t), ps, i - 1)
    requires var p := ps[i - 1]; forall a :: Above(d, rank, a, p) ==> a in Stored(during, p)
    ensures Sound(d, Append(during, t, Stored(during, ps[i - 1])), rank)
    ensures Covers(d, rank, Stored(Append(during, t, Stored(during, ps[i - 1])), t), ps, i)
  {
    AppendSound(d, during, t, ps[i - 1], rank);
    CoversMore(d, rank, Stored(before, t), Stored(during, ps[i - 1]), ps, i);
  }

  // A lookup lists exactly the proper ancestors, whatever earlier lookups left in the arrays.
  lemma {:induction false} VisitListsAncestors(d: Declared, k: Known, t: CredType, rank: Ranks)
    requires Ranked(d, rank) && Sound(d, k, rank) && Grounded(k, rank)
    ensures Sound(d, Visit(k, t, rank), rank)
    ensures forall a :: a in Stored(Visit(k, t, rank), t) <==> Above(d, rank, a, t)
    decreases Rank(rank, t), |Stored(k, t)| + 1
  {
    var k' := Visit(k, t, rank);
    VisitGrows(k, t, rank);
    VisitFirstListsAncestors(d, k, t, |Stored(k, t)|, rank);
    forall a | Above(d, rank, a, t)
      ensures a in Stored(k', t)
    {
      var p :| p in Parents(d, t) && (a == p || Above(d, rank, a, p));
      assert p in Stored(k, t);
      var j :| 0 <= j < |Stored(k, t)| && Stored(k, t)[j] == p;
      assert p in Stored(k', t);
    }
  }

  lemma {:induction false} VisitFirstListsAncestors(d: Declared, k: Known, t: CredType, i: nat, rank: Ranks)
    requires Ranked(d, rank) && Sound(d, k, rank) && Grounded(k, rank) && i <= |Stored(k, t)|
    ensures Sound(d, VisitFirst(k, t, i, rank), rank)
    ensures Covers(d, rank, Stored(VisitFirst(k, t, i, rank), t), Stored(k, t), i)
    decreases Rank(rank, t), i
  {
    if i > 0 {
      VisitFirstListsAncestors(d, k, t, i - 1, rank);
      var p := Stored(k, t)[i - 1];
      assert p in Stored(k, t);
      var before := VisitFirst(k, t, i - 1, rank);
      VisitListsAncestors(d, before, p, rank);
      VisitGrows(before, p, rank);
      assert Stored(Visit(before, p, rank), t) == Stored(before, t);
      CoversStep(d, before, Visit(before, p, rank), t, Stored(k, t), i, rank);
    }
  }

  lemma VisitFirstSound(d: Declared, k: Known, t: CredType, i: nat, rank: Ranks)
    requires Ranked(d, rank) && Sound(d, k, rank) && Grounded(k, rank) && i <= |Stored(k, t)|
    ensures Sound(d, VisitFirst(k, t, i, rank), rank)
  {
    VisitFirstListsAncestors(d, k, t, i, rank);
  }

  // ---- in which order ----

  // The ancestor of `t` in `wanted` that is listed first: a parent, in declared order, or else
  // what the first parent with an answer lists first.
  ghost function FirstAbove(d: Declared, t: CredType, wanted: set<CredType>, rank: Ranks): (r: Option<CredType>)
    requires Ranked(d, rank)
    ensures r.Some? ==> r.value in wanted
    decreases Rank(rank, t), |Parents(d, t)| + 1
  {
    OrElse(First(Parents(d, t), wanted), FirstAboveParents(d, t, |Parents(d, t)|, wanted, rank))
  }

  ghost function FirstAboveParents(d: Declared, t: CredType, i: nat, wanted: set<CredType>,
                                   rank: Ranks): (r: Option<CredType>)
    requires Ranked(d, rank) && i <= |Parents(d, t)|
    ensures r.Some? ==> r.value in wanted
    decreases Rank(rank, t), i
  {
    if i == 0 then
      None
    else
      assert Parents(d, t)[i - 1] in Parents(d, t);
      OrElse(FirstAboveParents(d, t, i - 1, wanted, rank), FirstAbove(d, Parents(d, t)[i - 1], wanted, rank))
  }

  // An array is either as declared or, once its type was looked up, agrees with FirstAbove.
  ghost predicate OrderedAt(d: Declared, k: Known, t: CredType, wanted: set<CredType>, rank: Ranks)
    requires Ranked(d, rank)
  {
    || Stored(k, t) == Parents(d, t)
    || (Complete(d, k, t, rank) && First(Stored(k, t), wanted) == FirstAbove(d, t, wanted, rank))
  }

  ghost predicate Complete(d: Declared, k: Known, t: CredType, rank: Ranks)
    requires Ranked(d, rank)
  {
    forall a {:trigger a in Stored(k, t)} :: Above(d, rank, a, t) ==> a in Stored(k, t)
  }

  ghost predicate Ordered(d: Declared, k: Known, wanted: set<CredType>, rank: Ranks)
    requires Ranked(d, rank)
  {
    forall t :: OrderedAt(d, k, t, wanted, rank)
  }

  ghost predicate OrderedBelow(d: Declared, k: Known, t: CredType, wanted: set<CredType>, rank: Ranks)
    requires Ranked(d, rank)
  {
    forall u {:trigger OrderedAt(d, k, u, wanted, rank)} ::
      Rank(rank, u) < Rank(rank, t) ==> OrderedAt(d, k, u, wanted, rank)
  }

  // The first match of a lookup never depends on how often the in-place appends ran before.
  lemma {:induction false} VisitIsOrdered(d: Declared, k: Known, t: CredType, wanted: set<CredType>, rank: Ranks)
    requires Ranked(d, rank) && Sound(d, k, rank) && Grounded(k, rank)
    requires OrderedAt(d, k, t, wanted, rank) && OrderedBelow(d, k, t, wanted, rank)
    ensures OrderedAt(d, Visit(k, t, rank), t, wanted, rank)
    ensures OrderedBelow(d, Visit(k, t, rank), t, wanted, rank)
    ensures First(Stored(Visit(k, t, rank), t), wanted) == FirstAbove(d, t, wanted, rank)
    decreases Rank(rank, t), |Stored(k, t)| + 1
  {
    VisitListsAncestors(d, k, t, rank);
    VisitFirstBelow(d, k, t, |Stored(k, t)|, wanted, rank);
    if Stored(k, t) == Parents(d, t) {
      var after := VisitFirstAgrees(d, k, t, |Stored(k, t)|, wanted, rank);
    } else {
      VisitFirstKeeps(d, k, t, |Stored(k, t)|, wanted, rank);
    }
  }

  lemma {:induction false} VisitFirstBelow(d: Declared, k: Known, t: CredType, i: nat, wanted: set<CredType>,
                                           rank: Ranks)
    requires Ranked(d, rank) && Sound(d, k, rank) && Grounded(k, rank) && i <= |Stored(k, t)|
    requires OrderedBelow(d, k, t, wanted, rank)
    ensures OrderedBelow(d, VisitFirst(k, t, i, rank), t, wanted, rank)
    decreases Rank(rank, t), i, 1
  {
    if i > 0 {
      VisitFirstBelow(d, k, t, i - 1, wanted, rank);
      var p, before, after := PushStep(d, k, t, i, rank);
      BelowAfterPush(d, before, t, p, wanted, rank);
    }
  }

  // The first lookup of a type.
  lemma {:induction false} VisitFirstAgrees(d: Declared, k: Known, t: CredType, i: nat, wanted: set<CredType>,
                                            rank: Ranks)
    returns (after: Known)
    requires Ranked(d, rank) && Sound(d, k, rank) && Grounded(k, rank) && i <= |Stored(k, t)|
    requires OrderedBelow(d, k, t, wanted, rank) && Stored(k, t) == Parents(d, t)
    ensures after == VisitFirst(k, t, i, rank) && OrderedBelow(d, after, t, wanted, rank)
    ensures First(Stored(after, t), wanted) == FirstUpTo(d, t, i, wanted, rank)
    decreases Rank(rank, t), i, 2
  {
    if i == 0 {
      after := k;
    } else {
      var p, before;
      p, before, after := PushStep(d, k, t, i, rank);
      var same := VisitFirstAgrees(d, k, t, i - 1, wanted, rank);
      BelowAfterPush(d, before, t, p, wanted, rank);
      UpToAfterPush(d, before, t, i, p, wanted, rank);
    }
  }

  // FirstAbove, with only the first `i` parents asked for theirs.
  ghost function FirstUpTo(d: Declared, t: CredType, i: nat, wanted: set<CredType>, rank: Ranks): Option<CredType>
    requires Ranked(d, rank) && i <= |Parents(d, t)|
  {
    OrElse(First(Parents(d, t), wanted), FirstAboveParents(d, t, i, wanted, rank))
  }

  lemma {:induction false} UpToAfterPush(d: Declared, before: Known, t: CredType, i: nat, p: CredType,
                                         wanted: set<CredType>, rank: Ranks)
    requires Ranked(d, rank) && Sound(d, before, rank) && Grounded(before, rank)
    requires OrderedBelow(d, before, t, wanted, rank)
    requires 0 < i <= |Parents(d, t)| && p == Parents(d, t)[i - 1] && Rank(rank, p) < Rank(rank, t)
    requires First(Stored(before, t), wanted) == FirstUpTo(d, t, i - 1, wanted, rank)
    ensures First(Stored(Pushed(before, t, p, rank), t), wanted) == FirstUpTo(d, t, i, wanted, rank)
    decreases Rank(rank, p), |Stored(before, p)| + 3
  {
    FirstAfterPush(d, before, t, p, wanted, rank);
  }

  // A later lookup appends nothing new.
  lemma {:induction false} VisitFirstKeeps(d: Declared, k: Known, t: CredType, i: nat, wanted: set<CredType>,
                                           rank: Ranks)
    requires Ranked(d, rank) && Sound(d, k, rank) && Grounded(k, rank) && i <= |Stored(k, t)| && Complete(d, k, t, rank)
    ensures First(Stored(VisitFirst(k, t, i, rank), t), wanted) == First(Stored(k, t), wanted)
  {
    VisitFirstGrows(k, t, i, rank);
    VisitFirstSound(d, k, t, i, rank);
    AlreadyListed(d, Stored(k, t), Stored(VisitFirst(k, t, i, rank), t), t, wanted, rank);
  }

  lemma AlreadyListed(d: Declared, was: seq<CredType>, now: seq<CredType>, t: CredType, wanted: set<CredType>,
                      rank: Ranks)
    requires Ranked(d, rank) && was <= now
    requires forall a {:trigger a in was} :: Above(d, rank, a, t) ==> a in was
    requires forall a {:trigger a in now} :: a in now ==> Above(d, rank, a, t)
    ensures First(now, wanted) == First(was, wanted)
  {
    var more := now[|was|..];
    forall a | a in more
      ensures a in was
    {
      assert a in now;
    }
    assert now == was + more;
    PushIsConcat(was, more);
    FirstAbsorbs(was, more, wanted);
  }

  // After a lookup of `p` that started from `before`, its array is pushed onto that of `t`.
  ghost function Pushed(before: Known, t: CredType, p: CredType, rank: Ranks): Known
    requires Grounded(before, rank)
  {
    var during := Visit(before, p, rank);
    Append(during, t, Stored(during, p))
  }

  // One step of the iteration, for the element `i - 1`.
  lemma PushStep(d: Declared, k: Known, t: CredType, i: nat, rank: Ranks)
    returns (p: CredType, before: Known, after: Known)
    requires Ranked(d, rank) && Sound(d, k, rank) && Grounded(k, rank) && 0 < i <= |Stored(k, t)|
    ensures p == Stored(k, t)[i - 1] && Above(d, rank, p, t) && Rank(rank, p) < Rank(rank, t)
    ensures before == VisitFirst(k, t, i - 1, rank) && Sound(d, before, rank) && Grounded(before, rank)
    ensures after == Pushed(before, t, p, rank) && after == VisitFirst(k, t, i, rank)
  {
    p, before := Stored(k, t)[i - 1], VisitFirst(k, t, i - 1, rank);
    assert p in Stored(k, t);
    VisitFirstSound(d, k, t, i - 1, rank);
    after := Pushed(before, t, p, rank);
    PushNext(k, t, i - 1, rank);
  }

  lemma PushNext(k: Known, t: CredType, i: nat, rank: Ranks)
    requires Grounded(k, rank) && i < |Stored(k, t)|
    ensures VisitFirst(k, t, i + 1, rank) == Pushed(VisitFirst(k, t, i, rank), t, Stored(k, t)[i], rank)
  {
    assert Stored(k, t)[i] in Stored(k, t);
  }

  lemma PushedAt(before: Known, t: CredType, p: CredType, rank: Ranks)
    requires Grounded(before, rank) && Rank(rank, p) < Rank(rank, t)
    ensures Stored(Pushed(before, t, p, rank), t) == Push(Stored(before, t), Stored(Visit(before, p, rank), p))
  {
    VisitGrows(before, p, rank);
  }

  lemma {:induction false} BelowAfterPush(d: Declared, before: Known, t: CredType, p: CredType, wanted: set<CredType>,
                                          rank: Ranks)
    requires Ranked(d, rank) && Sound(d, before, rank) && Grounded(before, rank) && Rank(rank, p) < Rank(rank, t)
    requires OrderedBelow(d, before, t, wanted, rank)
    ensures OrderedBelow(d, Pushed(before, t, p, rank), t, wanted, rank)
    decreases Rank(rank, p), |Stored(before, p)| + 2
  {
    BelowCovers(d, before, t, p, wanted, rank);
    VisitIsOrdered(d, before, p, wanted, rank);
    VisitGrows(before, p, rank);
    BelowAfterAppend(d, before, Visit(before, p, rank), t, p, wanted, rank);
  }

  lemma {:induction false} FirstAfterPush(d: Declared, before: Known, t: CredType, p: CredType, wanted: set<CredType>,
                                          rank: Ranks)
    requires Ranked(d, rank) && Sound(d, before, rank) && Grounded(before, rank) && Rank(rank, p) < Rank(rank, t)
    requires OrderedBelow(d, before, t, wanted, rank)
    ensures First(Stored(Pushed(before, t, p, rank), t), wanted)
         == OrElse(First(Stored(before, t), wanted), FirstAbove(d, p, wanted, rank))
    decreases Rank(rank, p), |Stored(before, p)| + 2
  {
    BelowCovers(d, before, t, p, wanted, rank);
    VisitIsOrdered(d, before, p, wanted, rank);
    PushedAt(before, t, p, rank);
    FirstOfPush(Stored(before, t), Stored(Visit(before, p, rank), p), wanted);
  }

  lemma BelowCovers(d: Declared, k: Known, t: CredType, p: CredType, wanted: set<CredType>, rank: Ranks)
    requires Ranked(d, rank) && Rank(rank, p) < Rank(rank, t) && OrderedBelow(d, k, t, wanted, rank)
    ensures OrderedAt(d, k, p, wanted, rank) && OrderedBelow(d, k, p, wanted, rank)
  {
  }

  lemma BelowAfterAppend(d: Declared, before: Known, during: Known, t: CredType, p: CredType, wanted: set<CredType>,
                         rank: Ranks)
    requires Ranked(d, rank) && Rank(rank, p) < Rank(rank, t)
    requires Grows(before, during, p, rank) && OrderedBelow(d, before, t, wanted, rank)
    requires OrderedAt(d, during, p, wanted, rank) && OrderedBelow(d, during, p, wanted, rank)
    ensures OrderedBelow(d, Append(during, t, Stored(during, p)), t, wanted, rank)
  {
    var after := Append(during, t, Stored(during, p));
    forall u | Rank(rank, u) < Rank(rank, t)
      ensures OrderedAt(d, after, u, wanted, rank)
    {
      assert Stored(after, u) == Stored(during, u);
      assert OrderedAt(d, before, u, wanted, rank);
      if u != p && Rank(rank, u) >= Rank(rank, p) {
        assert Stored(during, u) == Stored(before, u);
      } else {
        assert OrderedAt(d, during, u, wanted, rank);
      }
    }
  }

  lemma VisitKeepsOrder(d: Declared, k: Known, t: CredType, wanted: set<CredType>, rank: Ranks)
    requires Ranked(d, rank) && Sound(d, k, rank) && Grounded(k, rank) && Ordered(d, k, wanted, rank)
    ensures Ordered(d, Visit(k, t, rank), wanted, rank)
  {
    VisitIsOrdered(d, k, t, wanted, rank);
    VisitGrows(k, t, rank);
    var k' := Visit(k, t, rank);
    forall u
      ensures OrderedAt(d, k', u, wanted, rank)
    {
      assert OrderedAt(d, k, u, wanted, rank);
      if u != t && Rank(rank, u) >= Rank(rank, t) {
        assert Stored(k', u) == Stored(k, u);
      }
    }
  }

  // ---- any sequence of lookups ----

  // Callers of a lookup receive the stored array itself. Reversed: the caller reverses it in
  // place, as the credential list of the editor does.
  datatype Op = LookUp(t: CredType) | LookUpReversed(t: CredType)

  ghost function Apply(k: Known, op: Op, rank: Ranks): (k': Known)
    requires Grounded(k, rank)
    ensures Grounded(k', rank)
  {
    var seen := Visit(k, op.t, rank);
    if op.LookUpReversed? && Stored(seen, op.t) != [] then
      ReverseGrounded(seen, op.t, rank);
      seen[op.t := Reverse(Stored(seen, op.t))]
    else
      seen
  }

  lemma ReverseGrounded(k: Known, t: CredType, rank: Ranks)
    requires Grounded(k, rank)
    ensures Grounded(k[t := Reverse(Stored(k, t))], rank)
  {
    var k' := k[t := Reverse(Stored(k, t))];
    forall u, a | a in Stored(k', u)
      ensures Rank(rank, a) < Rank(rank, u)
    {
      ReverseMembers(Stored(k, t), a);
      assert a in Stored(k, u);
    }
  }

  ghost function History(d: Declared, ops: seq<Op>, rank: Ranks): (k: Known)
    requires Ranked(d, rank)
    ensures Grounded(k, rank)
  {
    if ops == [] then
      InitialSound(d, rank);
      SoundIsGrounded(d, Initial(d), rank);
      Initial(d)
    else
      Apply(History(d, ops[..|ops| - 1], rank), ops[|ops| - 1], rank)
  }

  lemma ApplySound(d: Declared, k: Known, op: Op, rank: Ranks)
    requires Ranked(d, rank) && Sound(d, k, rank) && Grounded(k, rank)
    ensures Sound(d, Apply(k, op, rank), rank)
  {
    VisitListsAncestors(d, k, op.t, rank);
    var seen, k' := Visit(k, op.t, rank), Apply(k, op, rank);
    if op.LookUpReversed? && Stored(seen, op.t) != [] {
      forall u, p | p in Parents(d, u)
        ensures p in Stored(k', u)
      {
        assert p in Stored(seen, u);
        ReverseMembers(Stored(seen, op.t), p);
      }
      forall u, a | a in Stored(k', u)
        ensures Above(d, rank, a, u)
      {
        ReverseMembers(Stored(seen, op.t), a);
        assert a in Stored(seen, u);
      }
    }
  }

  // Whatever callers did before, the arrays list the declared parents and only ancestors.
  lemma {:induction false} HistorySound(d: Declared, ops: seq<Op>, rank: Ranks)
    requires Ranked(d, rank)
    ensures Sound(d, History(d, ops, rank), rank)
  {
    if ops == [] {
      InitialSound(d, rank);
    } else {
      HistorySound(d, ops[..|ops| - 1], rank);
      ApplySound(d, History(d, ops[..|ops| - 1], rank), ops[|ops| - 1], rank);
    }
  }

  // After any history, a lookup returns exactly the types reached by following `extends`, and
  // every stored array keeps what it held as a prefix.
  lemma LookUpIsExact(d: Declared, ops: seq<Op>, t: CredType, a: CredType, u: CredType, rank: Ranks)
    requires Ranked(d, rank)
    ensures a in Stored(Visit(History(d, ops, rank), t, rank), t) <==> IsAncestor(d, a, t)
    ensures Stored(History(d, ops, rank), u) <= Stored(Visit(History(d, ops, rank), t, rank), u)
  {
    HistorySound(d, ops, rank);
    VisitListsAncestors(d, History(d, ops, rank), t, rank);
    VisitGrows(History(d, ops, rank), t, rank);
    AboveIsAncestor(d, rank, a, t);
  }

  // After any lookups without reversal, each stored array starts with the declared parents.
  lemma {:induction false} HistoryKeepsDeclared(d: Declared, ops: seq<Op>, t: CredType, rank: Ranks)
    requires Ranked(d, rank)
    requires forall i :: 0 <= i < |ops| ==> ops[i].LookUp?
    ensures Parents(d, t) <= Stored(History(d, ops, rank), t)
  {
    if ops != [] {
      var before := ops[..|ops| - 1];
      HistoryKeepsDeclared(d, before, t, rank);
      VisitGrows(History(d, before, rank), ops[|ops| - 1].t, rank);
    }
  }

  lemma {:induction false} HistoryOrdered(d: Declared, ops: seq<Op>, wanted: set<CredType>, rank: Ranks)
    requires Ranked(d, rank)
    requires forall i :: 0 <= i < |ops| ==> ops[i].LookUp?
    ensures Ordered(d, History(d, ops, rank), wanted, rank)
  {
    if ops == [] {
      InitialStored(d);
    } else {
      var before := ops[..|ops| - 1];
      HistoryOrdered(d, before, wanted, rank);
      HistorySound(d, before, rank);
      VisitKeepsOrder(d, History(d, before, rank), ops[|ops| - 1].t, wanted, rank);
    }
  }

  lemma InitialStored(d: Declared)
    ensures forall t :: Stored(Initial(d), t) == Parents(d, t)
  {
  }

  // After any history without in-place reversal, the first listed ancestor in any set of types
  // is the one the declarations determine.
  lemma LookUpOrderIsFixed(d: Declared, ops: seq<Op>, t: CredType, wanted: set<CredType>, rank: Ranks)
    requires Ranked(d, rank)
    requires forall i :: 0 <= i < |ops| ==> ops[i].LookUp?
    ensures First(Stored(Visit(History(d, ops, rank), t, rank), t), wanted) == FirstAbove(d, t, wanted, rank)
  {
    HistoryOrdered(d, ops, wanted, rank);
    HistorySound(d, ops, rank);
    var k := History(d, ops, rank);
    assert OrderedAt(d, k, t, wanted, rank);
    VisitIsOrdered(d, k, t, wanted, rank);
  }

  // ---- the service ----

  class CredentialTypes {
    const declared: Declared
    var known: Known
    ghost const rank: Ranks

    ghost predicate Valid()
      reads this
    {
      Ranked(declared, rank) && Sound(declared, known, rank) && Grounded(known, rank)
    }

    constructor (declared: Declared, ghost rank: Ranks)
      requires Ranked(declared, rank)
      ensures Valid() && this.declared == declared && this.rank == rank && known == Initial(declared)
    {
      this.declared := declared;
      this.rank := rank;
      known := Initial(declared);
      InitialSound(declared, rank);
      SoundIsGrounded(declared, Initial(declared), rank);
    }

    predicate Recognizes(t: CredType) {
      t in declared
    }

    method GetParentTypes(t: CredType) returns (parents: seq<CredType>)
      requires Valid()
      modifies this`known
      ensures Valid() && known == Visit(old(known), t, rank) && parents == Stored(known, t)
      decreases Rank(rank, t)
    {
      ghost var before := known;
      var initial := Stored(known, t);
      var i := 0;
      while i < |initial|
        invariant 0 <= i <= |initial|
        invariant known == VisitFirst(before, t, i, rank)
      {
        ghost var p, start, after := PushStep(declared, before, t, i + 1, rank);
        var more := GetParentTypes(initial[i]);
        known := known[t := Push(Stored(known, t), more)];
        i := i + 1;
      }
      VisitListsAncestors(declared, before, t, rank);
      parents := Stored(known, t);
    }
  }
}
