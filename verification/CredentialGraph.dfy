// The `extends` relation between credential types, as the loaded type definitions declare it.
module CredentialGraph {
  import opened Wrappers

  datatype CredType = CredType(name: string)

  // The recognised types. None: the definition has no `extends` at all.
  type Declared = map<CredType, Option<seq<CredType>>>

  function Parents(d: Declared, t: CredType): seq<CredType> {
    if t in d && d[t].Some? then d[t].value else []
  }

  // A rank for each declared type; all others rank lowest.
  type Ranks = map<CredType, nat>

  function Rank(rank: Ranks, t: CredType): nat {
    if t in rank then rank[t] else 0
  }

  // The graph is acyclic: every type ranks above each type it extends.
  ghost predicate Ranked(d: Declared, rank: Ranks) {
    forall t, p :: p in Parents(d, t) ==> Rank(rank, p) < Rank(rank, t)
  }

  ghost predicate IsPath(d: Declared, path: seq<CredType>) {
    forall i, j :: 0 <= i && j == i + 1 < |path| ==> path[j] in Parents(d, path[i])
  }

  // `a` is reached from `t` by following `extends` one or more times.
  ghost predicate IsAncestor(d: Declared, a: CredType, t: CredType) {
    exists path :: IsPath(d, path) && |path| >= 2 && path[0] == t && path[|path| - 1] == a
  }

  // The same relation by recursion on the rank, which is what the proofs work with.
  ghost predicate Above(d: Declared, rank: Ranks, a: CredType, t: CredType)
    requires Ranked(d, rank)
    decreases Rank(rank, t)
  {
    a in Parents(d, t) || exists p :: p in Parents(d, t) && Above(d, rank, a, p)
  }

  lemma {:induction false} AboveTransitive(d: Declared, rank: Ranks, a: CredType, b: CredType, t: CredType)
    requires Ranked(d, rank) && Above(d, rank, a, b) && Above(d, rank, b, t)
    ensures Above(d, rank, a, t)
    decreases Rank(rank, t)
  {
    if b !in Parents(d, t) {
      var p :| p in Parents(d, t) && Above(d, rank, b, p);
      AboveTransitive(d, rank, a, b, p);
    }
  }

  // No type is its own ancestor.
  lemma {:induction false} AboveRanksLower(d: Declared, rank: Ranks, a: CredType, t: CredType)
    requires Ranked(d, rank) && Above(d, rank, a, t)
    ensures Rank(rank, a) < Rank(rank, t)
    decreases Rank(rank, t)
  {
    if a !in Parents(d, t) {
      var p :| p in Parents(d, t) && Above(d, rank, a, p);
      AboveRanksLower(d, rank, a, p);
    }
  }

  lemma {:induction false} AboveHasPath(d: Declared, rank: Ranks, a: CredType, t: CredType)
    returns (path: seq<CredType>)
    requires Ranked(d, rank) && Above(d, rank, a, t)
    ensures IsPath(d, path) && |path| >= 2 && path[0] == t && path[|path| - 1] == a
    decreases Rank(rank, t)
  {
    if a in Parents(d, t) {
      path := [t, a];
    } else {
      var p :| p in Parents(d, t) && Above(d, rank, a, p);
      var rest := AboveHasPath(d, rank, a, p);
      path := [t] + rest;
    }
  }

  lemma {:induction false} PathIsAbove(d: Declared, rank: Ranks, path: seq<CredType>)
    requires Ranked(d, rank) && IsPath(d, path) && |path| >= 2
    ensures Above(d, rank, path[|path| - 1], path[0])
    decreases |path|
  {
    assert path[1] in Parents(d, path[0]);
    if |path| > 2 {
      PathIsAbove(d, rank, path[1..]);
    }
  }

  lemma AboveIsAncestor(d: Declared, rank: Ranks, a: CredType, t: CredType)
    requires Ranked(d, rank)
    ensures Above(d, rank, a, t) <==> IsAncestor(d, a, t)
  {
    if Above(d, rank, a, t) {
      var path := AboveHasPath(d, rank, a, t);
    }
    if IsAncestor(d, a, t) {
      var path :| IsPath(d, path) && |path| >= 2 && path[0] == t && path[|path| - 1] == a;
      PathIsAbove(d, rank, path);
    }
  }
}
