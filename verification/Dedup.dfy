/** First occurrences: what a list filled under a `seen` set comes to. */
module Dedup {
  import opened Seqs

  /** `xs` appended to `out`, each value only where it is not there yet. */
  function Fresh<T(==)>(out: seq<T>, xs: seq<T>): seq<T>
    decreases |xs|
  {
    if xs == [] then out
    else
      var n := |xs| - 1;
      var before := Fresh(out, xs[..n]);
      if xs[n] in before then before else before + [xs[n]]
  }

  /** What is listed, without repeats, what was listed staying in place. */
  lemma {:induction false} FreshLists<T>(out: seq<T>, xs: seq<T>)
    ensures out <= Fresh(out, xs)
    ensures forall x :: x in Fresh(out, xs) <==> x in out || x in xs
    ensures Distinct(out) ==> Distinct(Fresh(out, xs))
    decreases |xs|
  {
    if xs != [] {
      var n := |xs| - 1;
      FreshLists(out, xs[..n]);
      assert xs == xs[..n] + [xs[n]];
    }
  }

  /** The places where `xs` has something new: not listed before, and not earlier in `xs`. */
  ghost predicate NewAt<T>(out: seq<T>, xs: seq<T>, p: int) {
    0 <= p < |xs| && xs[p] !in out && xs[p] !in xs[..p]
  }

  /** Exactly: the list as it was, and after it what is new, each at its first place and in order. */
  ghost predicate Firsts<T>(out: seq<T>, xs: seq<T>, places: seq<nat>, all: seq<T>) {
    && (forall k :: 0 <= k < |places| ==> NewAt(out, xs, places[k]))
    && (forall j, k :: 0 <= j < k < |places| ==> places[j] < places[k])
    && (forall p :: NewAt(out, xs, p) ==> p in places)
    && |all| == |out| + |places| && all[..|out|] == out
    && (forall k :: 0 <= k < |places| ==> all[|out| + k] == xs[places[k]])
  }

  lemma {:induction false} NewBefore<T>(out: seq<T>, xs: seq<T>, x: T, p: int)
    requires p != |xs|
    ensures NewAt(out, xs + [x], p) <==> NewAt(out, xs, p)
  {
    if 0 <= p < |xs| {
      assert (xs + [x])[..p] == xs[..p];
    }
  }

  lemma {:induction false} NewLast<T>(out: seq<T>, xs: seq<T>, x: T)
    ensures NewAt(out, xs + [x], |xs|) <==> x !in out && x !in xs
  {
    assert (xs + [x])[..|xs|] == xs;
  }

  lemma {:induction false} FirstsGrow<T>(out: seq<T>, xs: seq<T>, x: T, places: seq<nat>, all: seq<T>)
    requires Firsts(out, xs, places, all) && (x in all <==> x in out || x in xs)
    ensures if x in all then Firsts(out, xs + [x], places, all) else Firsts(out, xs + [x], places + [|xs|], all + [x])
  {
    NewLast(out, xs, x);
    forall p | p != |xs|
      ensures NewAt(out, xs + [x], p) <==> NewAt(out, xs, p)
    {
      NewBefore(out, xs, x, p);
    }
    assert x !in all ==> (all + [x])[..|out|] == out;
  }

  lemma {:induction false} FreshIsFirsts<T>(out: seq<T>, xs: seq<T>) returns (places: seq<nat>)
    ensures Firsts(out, xs, places, Fresh(out, xs))
    decreases |xs|
  {
    if xs == [] {
      places := [];
    } else {
      var n := |xs| - 1;
      places := FreshIsFirsts(out, xs[..n]);
      FreshLists(out, xs[..n]);
      FirstsGrow(out, xs[..n], xs[n], places, Fresh(out, xs[..n]));
      assert xs == xs[..n] + [xs[n]];
      places := if xs[n] in Fresh(out, xs[..n]) then places else places + [n];
    }
  }

  /** Appending in one go or in two comes to the same, and removing repeats beforehand
      changes nothing. */
  lemma {:induction false} FreshAssoc<T>(a: seq<T>, b: seq<T>, c: seq<T>)
    ensures Fresh(a, Fresh(b, c)) == Fresh(Fresh(a, b), c)
    decreases |c|
  {
    if c != [] {
      var n := |c| - 1;
      var before := Fresh(b, c[..n]);
      FreshAssoc(a, b, c[..n]);
      FreshLists(a, before);
      if c[n] !in before {
        assert (before + [c[n]])[..|before|] == before;
      }
    }
  }

  /** The loop the source writes three times: a list, and the set of what is in it. */
  method Extend<T(==)>(out: seq<T>, seen: set<T>, xs: seq<T>) returns (longer: seq<T>, all: set<T>)
    requires forall x :: x in out <==> x in seen
    ensures longer == Fresh(out, xs)
    ensures forall x :: x in longer <==> x in all
  {
    longer, all := out, seen;
    for i := 0 to |xs|
      invariant longer == Fresh(out, xs[..i])
      invariant forall x :: x in longer <==> x in all
    {
      assert xs[..i + 1][..i] == xs[..i];
      if xs[i] !in all {
        all := all + {xs[i]};
        longer := longer + [xs[i]];
      }
    }
    assert xs[..|xs|] == xs;
  }
}
