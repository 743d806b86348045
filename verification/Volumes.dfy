/** The data-volume diff (internal/util/cloudserver_util.go). */
module Volumes {

  /** The entries of xs that do not occur in ys, with their order and multiplicity. */
  function Without<T(==)>(xs: seq<T>, ys: seq<T>): seq<T> {
    if xs == [] then []
    else Without(xs[..|xs|-1], ys) + (if xs[|xs|-1] in ys then [] else [xs[|xs|-1]])
  }

  function Elements<T>(xs: seq<T>): set<T> {
    set x | x in xs
  }

  /** What a set of attached volumes becomes when a diff is applied to it. */
  function Apply<T>(attached: set<T>, toAttach: seq<T>, toDetach: seq<T>): set<T> {
    (attached - Elements(toDetach)) + Elements(toAttach)
  }

  /** Without is the filter: it acts entry by entry ... */
  lemma {:induction false} WithoutActsEntrywise<T>(xs: seq<T>, xs': seq<T>, ys: seq<T>)
    ensures Without(xs + xs', ys) == Without(xs, ys) + Without(xs', ys)
  {
    if xs' == [] {
      assert xs + xs' == xs;
    } else {
      var n := |xs'| - 1;
      assert (xs + xs')[..|xs + xs'| - 1] == xs + xs'[..n];
      WithoutActsEntrywise(xs, xs'[..n], ys);
    }
  }

  /** ... and keeps every occurrence of a value that is not in ys, and none of the others. */
  lemma {:induction false} WithoutCounts<T>(xs: seq<T>, ys: seq<T>, x: T)
    ensures multiset(Without(xs, ys))[x] == if x in ys then 0 else multiset(xs)[x]
  {
    if xs != [] {
      var n := |xs| - 1;
      assert xs == xs[..n] + [xs[n]];
      assert multiset(xs)[x] == multiset(xs[..n])[x] + multiset([xs[n]])[x];
      WithoutCounts(xs[..n], ys, x);
    }
  }

  lemma {:induction false} WithoutMembers<T>(xs: seq<T>, ys: seq<T>)
    ensures forall x :: x in Without(xs, ys) <==> x in xs && x !in ys
  {
    if xs != [] {
      var n := |xs| - 1;
      WithoutMembers(xs[..n], ys);
      assert forall x :: x in xs <==> x in xs[..n] || x == xs[n];
    }
  }

  lemma ElementsMember<T>(xs: seq<T>, x: T)
    ensures x in Elements(xs) <==> x in xs
  {
  }

  lemma WithoutElements<T>(xs: seq<T>, ys: seq<T>)
    ensures Elements(Without(xs, ys)) == Elements(xs) - Elements(ys)
    ensures |Without(xs, ys)| == 0 <==> Elements(xs) <= Elements(ys)
  {
    WithoutMembers(xs, ys);
    var rest := Without(xs, ys);
    assert Elements(rest) == Elements(xs) - Elements(ys) by {
      forall x: T ensures x in Elements(rest) <==> x in Elements(xs) - Elements(ys) {
        ElementsMember(rest, x);
        ElementsMember(xs, x);
        ElementsMember(ys, x);
      }
    }
    if |rest| > 0 {
      ElementsMember(rest, rest[0]);
    }
  }

  /** The two lists are disjoint, applying them to the current set gives the desired set, and
      there is nothing to do exactly when the two sets already agree. */
  lemma DiffReachesDesired<T>(desired: seq<T>, current: seq<T>)
    ensures var toAttach, toDetach := Without(desired, current), Without(current, desired);
            && Elements(toAttach) !! Elements(toDetach)
            && Apply(Elements(current), toAttach, toDetach) == Elements(desired)
            && (|toAttach| == 0 && |toDetach| == 0 <==> Elements(desired) == Elements(current))
  {
    WithoutElements(desired, current);
    WithoutElements(current, desired);
  }

  /** A diff computed against `recorded` but applied to a different set `attached` (the write
      that should have recorded an earlier diff was lost) still gives the desired set exactly
      when every surplus volume was on record and no volume believed attached is missing. */
  lemma DiffAgainstStaleRecord<T>(desired: seq<T>, recorded: seq<T>, attached: set<T>)
    ensures (Apply(attached, Without(desired, recorded), Without(recorded, desired)) == Elements(desired)) <==>
            (&& attached - Elements(desired) <= Elements(recorded)
             && Elements(desired) * Elements(recorded) <= attached)
  {
    WithoutElements(desired, recorded);
    WithoutElements(recorded, desired);
    var D, R := Elements(desired), Elements(recorded);
    var after := Apply(attached, Without(desired, recorded), Without(recorded, desired));
    assert after == (attached - (R - D)) + (D - R);
    if after == D {
      forall x | x in attached - D ensures x in R {
        assert x in after || x in R;
      }
      forall x | x in D * R ensures x in attached {
        assert x in after;
      }
    }
  }

  /** The operator's four loops: two fill membership maps, two filter. */
  method CalculateVolumeChanges(desired: seq<string>, current: seq<string>)
    returns (toAttach: seq<string>, toDetach: seq<string>)
    ensures toAttach == Without(desired, current)
    ensures toDetach == Without(current, desired)
  {
    var desiredMap: map<string, bool> := map[];
    var currentMap: map<string, bool> := map[];
    for i := 0 to |desired|
      invariant forall x :: x in desiredMap <==> x in desired[..i]
      invariant forall x :: x in desiredMap ==> desiredMap[x]
    {
      desiredMap := desiredMap[desired[i] := true];
      assert desired[..i+1] == desired[..i] + [desired[i]];
    }
    assert desired[..|desired|] == desired;
    for i := 0 to |current|
      invariant forall x :: x in currentMap <==> x in current[..i]
      invariant forall x :: x in currentMap ==> currentMap[x]
    {
      currentMap := currentMap[current[i] := true];
      assert current[..i+1] == current[..i] + [current[i]];
    }
    assert current[..|current|] == current;
    toAttach, toDetach := [], [];
    for i := 0 to |desired|
      invariant toAttach == Without(desired[..i], current)
    {
      assert desired[..i+1][..i] == desired[..i];
      if !(desired[i] in currentMap && currentMap[desired[i]]) {
        toAttach := toAttach + [desired[i]];
      }
    }
    for i := 0 to |current|
      invariant toAttach == Without(desired, current)
      invariant toDetach == Without(current[..i], desired)
    {
      assert current[..i+1][..i] == current[..i];
      if !(current[i] in desiredMap && desiredMap[current[i]]) {
        toDetach := toDetach + [current[i]];
      }
    }
  }
}
