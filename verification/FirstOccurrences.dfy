// Lists read by their first match, and by their last.
module FirstOccurrences {
  import opened Wrappers

  function Reverse<T>(s: seq<T>): (r: seq<T>)
    ensures |r| == |s|
    ensures forall i :: 0 <= i < |s| ==> r[i] == s[|s| - 1 - i]
  {
    if s == [] then [] else Reverse(s[1..]) + [s[0]]
  }

  lemma ReverseMembers<T>(s: seq<T>, x: T)
    ensures x in Reverse(s) <==> x in s
  {
  }

  // The first element of `s` that lies in `wanted`.
  ghost function First<T(!new)>(s: seq<T>, wanted: set<T>): (r: Option<T>)
    ensures r.Some? ==> r.value in s && r.value in wanted
    ensures r.None? ==> forall x :: x in s ==> x !in wanted
  {
    if s == [] then None
    else if s[0] in wanted then Some(s[0])
    else First(s[1..], wanted)
  }

  function OrElse<T>(a: Option<T>, b: Option<T>): Option<T> {
    if a.Some? then a else b
  }

  lemma {:induction false} FirstConcat<T(!new)>(a: seq<T>, b: seq<T>, wanted: set<T>)
    ensures First(a + b, wanted) == OrElse(First(a, wanted), First(b, wanted))
  {
    if a == [] {
      assert a + b == b;
    } else {
      assert (a + b)[1..] == a[1..] + b;
      FirstConcat(a[1..], b, wanted);
    }
  }

  // Appending several elements in place.
  function Push<T>(s: seq<T>, more: seq<T>): seq<T>
    decreases |more|
  {
    if more == [] then s else Push(s, more[..|more| - 1]) + [more[|more| - 1]]
  }

  lemma {:induction false} PushIsConcat<T>(s: seq<T>, more: seq<T>)
    ensures Push(s, more) == s + more
    decreases |more|
  {
    if more != [] {
      PushIsConcat(s, more[..|more| - 1]);
    }
  }

  lemma PushMember<T>(s: seq<T>, more: seq<T>, x: T)
    ensures x in Push(s, more) <==> x in s || x in more
  {
    PushIsConcat(s, more);
  }

  lemma PushKeeps<T>(s: seq<T>, more: seq<T>)
    ensures s <= Push(s, more) && |Push(s, more)| == |s| + |more|
  {
    PushIsConcat(s, more);
  }

  lemma FirstOfPush<T(!new)>(s: seq<T>, more: seq<T>, wanted: set<T>)
    ensures First(Push(s, more), wanted) == OrElse(First(s, wanted), First(more, wanted))
  {
    PushIsConcat(s, more);
    FirstConcat(s, more, wanted);
  }

  // Listing again what is already listed does not change the first match.
  lemma FirstAbsorbs<T(!new)>(a: seq<T>, b: seq<T>, wanted: set<T>)
    requires forall x :: x in b ==> x in a
    ensures First(Push(a, b), wanted) == First(a, wanted)
  {
    FirstOfPush(a, b, wanted);
  }

  // What is listed first stays first when the list grows at its end.
  lemma FirstOfPrefix<T(!new)>(a: seq<T>, b: seq<T>, wanted: set<T>)
    requires a <= b && First(a, wanted).Some?
    ensures First(b, wanted) == First(a, wanted)
  {
    assert b == a + b[|a|..];
    FirstConcat(a, b[|a|..], wanted);
  }

  lemma {:induction false} FirstIndex<T(!new)>(s: seq<T>, wanted: set<T>) returns (i: nat)
    requires First(s, wanted).Some?
    ensures i < |s| && First(s, wanted) == Some(s[i]) && forall k :: 0 <= k < i ==> s[k] !in wanted
  {
    if s[0] in wanted {
      i := 0;
    } else {
      var j := FirstIndex(s[1..], wanted);
      i := j + 1;
      forall k | 0 <= k < i
        ensures s[k] !in wanted
      {
        assert k > 0 ==> s[k] == s[1..][k - 1];
      }
    }
  }

  // The first of several is also the first of it and any other of them.
  lemma FirstOfTwo<T(!new)>(s: seq<T>, wanted: set<T>, x: T, y: T)
    requires First(s, wanted) == Some(x) && y in wanted
    ensures First(s, {x, y}) == Some(x)
  {
    var i := FirstIndex(s, wanted);
    var j := FirstIndex(s, {x, y});
  }

  // Two lists of the same elements that agree on which of any two comes first agree on every first match.
  lemma FirstByPairs<T(!new)>(a: seq<T>, b: seq<T>, wanted: set<T>)
    requires forall x :: x in a <==> x in b
    requires forall x, y :: x in a && y in a && x != y ==> First(a, {x, y}) == First(b, {x, y})
    ensures First(a, wanted) == First(b, wanted)
  {
    if First(a, wanted).Some? && First(b, wanted).Some? {
      var x, y := First(a, wanted).value, First(b, wanted).value;
      assert {x, y} == {y, x};
      FirstOfTwo(a, wanted, x, y);
      FirstOfTwo(b, wanted, y, x);
    }
  }

  // The last element of `s` that lies in `wanted`.
  ghost function Last<T(!new)>(s: seq<T>, wanted: set<T>): (r: Option<T>) {
    if s == [] then None
    else if s[|s| - 1] in wanted then Some(s[|s| - 1])
    else Last(s[..|s| - 1], wanted)
  }

  lemma {:induction false} LastMember<T(!new)>(s: seq<T>, wanted: set<T>)
    ensures var r := Last(s, wanted);
            if r.Some? then r.value in s && r.value in wanted else forall x :: x in s ==> x !in wanted
  {
    if s != [] {
      LastMember(s[..|s| - 1], wanted);
    }
  }

  lemma {:induction false} LastConcat<T(!new)>(a: seq<T>, b: seq<T>, wanted: set<T>)
    ensures Last(a + b, wanted) == OrElse(Last(b, wanted), Last(a, wanted))
  {
    if b == [] {
      assert a + b == a;
    } else {
      assert (a + b)[..|a + b| - 1] == a + b[..|b| - 1];
      LastConcat(a, b[..|b| - 1], wanted);
    }
  }

  lemma LastOfPush<T(!new)>(s: seq<T>, more: seq<T>, wanted: set<T>)
    ensures Last(Push(s, more), wanted) == OrElse(Last(more, wanted), Last(s, wanted))
  {
    PushIsConcat(s, more);
    LastConcat(s, more, wanted);
  }

  lemma {:induction false} LastIndex<T(!new)>(s: seq<T>, wanted: set<T>) returns (i: nat)
    requires Last(s, wanted).Some?
    ensures i < |s| && Last(s, wanted) == Some(s[i]) && forall k :: i < k < |s| ==> s[k] !in wanted
  {
    if s[|s| - 1] in wanted {
      i := |s| - 1;
    } else {
      i := LastIndex(s[..|s| - 1], wanted);
    }
  }

  // Reversal exchanges the two.
  lemma {:induction false} ReverseExchanges<T(!new)>(s: seq<T>, wanted: set<T>)
    ensures First(Reverse(s), wanted) == Last(s, wanted) && Last(Reverse(s), wanted) == First(s, wanted)
  {
    if s != [] {
      ReverseExchanges(s[1..], wanted);
      FirstConcat(Reverse(s[1..]), [s[0]], wanted);
      LastConcat(Reverse(s[1..]), [s[0]], wanted);
      assert [s[0]] + s[1..] == s;
      LastConcat([s[0]], s[1..], wanted);
      OneMatch(s[0], wanted);
    }
  }

  lemma OneMatch<T(!new)>(x: T, wanted: set<T>)
    ensures First([x], wanted) == Last([x], wanted) == if x in wanted then Some(x) else None
  {
  }

  // No element is listed both before and after another one.
  ghost predicate NoneReturns<T(!new)>(s: seq<T>) {
    forall x, y :: x in s && y in s && x != y ==> First(s, {x, y}) != Last(s, {x, y})
  }

  // A list without repetitions is such a list.
  lemma TwoEnds<T(!new)>(s: seq<T>)
    requires Distinct(s)
    ensures NoneReturns(s)
  {
    forall x, y | x in s && y in s && x != y
      ensures First(s, {x, y}) != Last(s, {x, y})
    {
      LastMember(s, {x, y});
      var i := FirstIndex(s, {x, y});
      var j := LastIndex(s, {x, y});
    }
  }
}
