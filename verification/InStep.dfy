// Two lists in step: the second says, in order and one for one, what the wanted elements of the first mean.
module InStep {

  predicate Mirrors<A(!new), B(!new)>(xs: seq<A>, bs: seq<B>, wanted: A -> bool, says: (A, B) -> bool) {
    if xs == [] then bs == []
    else if !wanted(xs[|xs|-1]) then Mirrors(xs[..|xs|-1], bs, wanted, says)
    else bs != [] && says(xs[|xs|-1], bs[|bs|-1]) && Mirrors(xs[..|xs|-1], bs[..|bs|-1], wanted, says)
  }

  // One more element, and what it says if it is wanted.
  lemma MirrorsSnoc<A(!new), B(!new)>(xs: seq<A>, bs: seq<B>, wanted: A -> bool, says: (A, B) -> bool, x: A,
                                      more: seq<B>)
    requires Mirrors(xs, bs, wanted, says)
    requires if wanted(x) then |more| == 1 && says(x, more[0]) else more == []
    ensures Mirrors(xs + [x], bs + more, wanted, says)
  {
    assert (xs + [x])[..|xs|] == xs;
    if wanted(x) {
      assert (bs + more)[..|bs|] == bs;
    } else {
      assert bs + more == bs;
    }
  }

  // The k-th element of bs belongs to the element of xs at position at[k], and every wanted element has its place.
  predicate PlacedAt<A(!new), B(!new)>(xs: seq<A>, bs: seq<B>, wanted: A -> bool, says: (A, B) -> bool, at: seq<nat>) {
    && |at| == |bs|
    && (forall i, k | 0 <= i < k < |at| :: at[i] < at[k])
    && (forall k | 0 <= k < |at| :: at[k] < |xs| && wanted(xs[at[k]]) && says(xs[at[k]], bs[k]))
    && (forall i | 0 <= i < |xs| && wanted(xs[i]) :: i in at)
  }

  // What being in step means, position by position.
  lemma {:induction false} MirrorPlaces<A(!new), B(!new)>(xs: seq<A>, bs: seq<B>, wanted: A -> bool,
                                                          says: (A, B) -> bool)
    returns (at: seq<nat>)
    requires Mirrors(xs, bs, wanted, says)
    ensures PlacedAt(xs, bs, wanted, says, at)
  {
    if xs == [] {
      at := [];
    } else {
      var front, x := xs[..|xs|-1], xs[|xs|-1];
      assert xs == front + [x];
      if wanted(x) {
        at := MirrorPlaces(front, bs[..|bs|-1], wanted, says);
        PlacedNext(front, bs[..|bs|-1], wanted, says, x, bs[|bs|-1], at);
        assert bs == bs[..|bs|-1] + [bs[|bs|-1]];
        at := at + [|front|];
      } else {
        at := MirrorPlaces(front, bs, wanted, says);
        PlacedSkip(front, bs, wanted, says, x, at);
      }
    }
  }

  lemma PlacedSkip<A(!new), B(!new)>(xs: seq<A>, bs: seq<B>, wanted: A -> bool, says: (A, B) -> bool, x: A,
                                     at: seq<nat>)
    requires PlacedAt(xs, bs, wanted, says, at) && !wanted(x)
    ensures PlacedAt(xs + [x], bs, wanted, says, at)
  {
    var ys := xs + [x];
    assert forall i | 0 <= i < |xs| :: ys[i] == xs[i];
    forall k | 0 <= k < |at| ensures at[k] < |ys| && wanted(ys[at[k]]) && says(ys[at[k]], bs[k]) {
      assert ys[at[k]] == xs[at[k]];
    }
    forall i | 0 <= i < |ys| && wanted(ys[i]) ensures i in at { assert i < |xs|; }
  }

  lemma PlacedNext<A(!new), B(!new)>(xs: seq<A>, bs: seq<B>, wanted: A -> bool, says: (A, B) -> bool, x: A, b: B,
                                     at: seq<nat>)
    requires PlacedAt(xs, bs, wanted, says, at) && wanted(x) && says(x, b)
    ensures PlacedAt(xs + [x], bs + [b], wanted, says, at + [|xs|])
  {
    var ys, cs, bt := xs + [x], bs + [b], at + [|xs|];
    forall k | 0 <= k < |bt| ensures bt[k] < |ys| && wanted(ys[bt[k]]) && says(ys[bt[k]], cs[k]) {
      if k < |at| { assert ys[bt[k]] == xs[at[k]] && cs[k] == bs[k]; }
    }
    forall i | 0 <= i < |ys| && wanted(ys[i]) ensures i in bt {
      if i < |xs| { assert ys[i] == xs[i] && i in at; } else { assert bt[|at|] == i; }
    }
  }

  // Where each element can say one thing only, there is only one list in step.
  lemma {:induction false} MirrorIsUnique<A(!new), B(!new)>(xs: seq<A>, bs: seq<B>, cs: seq<B>, wanted: A -> bool,
                                                            says: (A, B) -> bool)
    requires Mirrors(xs, bs, wanted, says) && Mirrors(xs, cs, wanted, says)
    requires forall x, b, c | says(x, b) && says(x, c) :: b == c
    ensures bs == cs
  {
    if xs != [] {
      var front := xs[..|xs|-1];
      if wanted(xs[|xs|-1]) {
        MirrorIsUnique(front, bs[..|bs|-1], cs[..|cs|-1], wanted, says);
        assert bs == bs[..|bs|-1] + [bs[|bs|-1]] && cs == cs[..|cs|-1] + [cs[|cs|-1]];
      } else {
        MirrorIsUnique(front, bs, cs, wanted, says);
      }
    }
  }
}
