/**
  Spans over a text: the union of overlapping ones, and the greedy choice among
  overlapping findings.
 */
module Spans {
  import opened Numbers

  // ---- a stable sort

  /** Any two of these elements compare, and so do any three, transitively. */
  ghost predicate TotalOn<T>(le: (T, T) -> bool, s: seq<T>) {
    && (forall x, y :: x in s && y in s ==> le(x, y) || le(y, x))
    && (forall x, y, z :: x in s && y in s && z in s && le(x, y) && le(y, z) ==> le(x, z))
  }

  ghost predicate SortedBy<T>(s: seq<T>, le: (T, T) -> bool) {
    forall i, j :: 0 <= i < j < |s| ==> le(s[i], s[j])
  }

  function Insert<T>(x: T, s: seq<T>, le: (T, T) -> bool): (r: seq<T>)
    ensures multiset(r) == multiset{x} + multiset(s)
    ensures |r| == |s| + 1
  {
    if s == [] || le(x, s[0]) then
      assert multiset([x] + s) == multiset{x} + multiset(s);
      [x] + s
    else
      assert s == [s[0]] + s[1..];
      [s[0]] + Insert(x, s[1..], le)
  }

  function Sorted<T>(s: seq<T>, le: (T, T) -> bool): (r: seq<T>)
    ensures multiset(r) == multiset(s)
    ensures |r| == |s|
  {
    if s == [] then []
    else
      assert s == [s[0]] + s[1..];
      Insert(s[0], Sorted(s[1..], le), le)
  }

  lemma {:induction false} InsertSorted<T>(x: T, s: seq<T>, le: (T, T) -> bool)
    requires TotalOn(le, [x] + s) && SortedBy(s, le)
    ensures SortedBy(Insert(x, s, le), le)
  {
    if s != [] && !le(x, s[0]) {
      assert x in [x] + s && s[0] in [x] + s;
      InsertSorted(x, s[1..], le);
      var rest := Insert(x, s[1..], le);
      forall j | 0 <= j < |rest|
        ensures le(s[0], rest[j])
      {
        assert rest[j] in multiset(rest);
        assert rest[j] == x || rest[j] in s[1..];
      }
    } else if s != [] {
      forall j | 0 <= j < |s|
        ensures le(x, s[j])
      {
        assert x in [x] + s && s[0] in [x] + s && s[j] in [x] + s;
      }
    }
  }

  lemma {:induction false} TotalOnPart<T>(le: (T, T) -> bool, s: seq<T>, part: seq<T>)
    requires TotalOn(le, s) && forall x :: x in part ==> x in s
    ensures TotalOn(le, part)
  {
  }

  lemma {:induction false} SortedIsSorted<T>(s: seq<T>, le: (T, T) -> bool)
    requires TotalOn(le, s)
    ensures SortedBy(Sorted(s, le), le)
  {
    if s != [] {
      TotalOnPart(le, s, s[1..]);
      SortedIsSorted(s[1..], le);
      var rest := Sorted(s[1..], le);
      SameMembers(s[1..], rest);
      forall x | x in [s[0]] + rest
        ensures x in s
      {
        if x in rest {
          assert x in multiset(rest);
          assert x in multiset(s[1..]);
        }
      }
      TotalOnPart(le, s, [s[0]] + rest);
      InsertSorted(s[0], rest, le);
    }
  }

  /** Nothing moves where no element is to go before the one it follows. */
  lemma {:induction false} SortedInPlace<T>(s: seq<T>, le: (T, T) -> bool)
    requires forall i, j :: 0 <= i < j < |s| && j == i + 1 ==> le(s[i], s[j])
    ensures Sorted(s, le) == s
  {
    if s != [] {
      assert forall i, j :: 0 <= i < j < |s[1..]| && j == i + 1 ==> s[1..][i] == s[i + 1] && s[1..][j] == s[j + 1];
      SortedInPlace(s[1..], le);
    }
  }

  lemma {:induction false} SameMembers<T>(s: seq<T>, r: seq<T>)
    requires multiset(r) == multiset(s)
    ensures forall x :: x in r <==> x in s
  {
    forall x
      ensures x in r <==> x in s
    {
      assert x in r <==> x in multiset(r);
      assert x in s <==> x in multiset(s);
    }
  }

  // ---- the union of spans

  datatype Span = Span(start: int, end: int)

  predicate TupleLe(a: Span, b: Span) {
    a.start < b.start || (a.start == b.start && a.end <= b.end)
  }

  predicate Inside(a: Span, b: Span) { b.start <= a.start && a.end <= b.end }

  ghost predicate Covers(spans: seq<Span>, p: int) {
    exists i :: 0 <= i < |spans| && spans[i].start <= p < spans[i].end
  }

  ghost predicate Proper(spans: seq<Span>) {
    forall i :: 0 <= i < |spans| ==> spans[i].start <= spans[i].end
  }

  ghost predicate AscendingDisjoint(spans: seq<Span>) {
    forall i, j :: 0 <= i < j < |spans| ==> spans[i].end <= spans[j].start
  }

  /** `a` lies inside one of the merged spans. */
  ghost predicate Housed(a: Span, merged: seq<Span>) {
    exists j :: 0 <= j < |merged| && Inside(a, merged[j])
  }

  function Last(merged: seq<Span>): Span
    requires merged != []
  {
    merged[|merged| - 1]
  }

  /** One more span, starting no earlier than the last: it widens the last one or follows it. */
  function Added(merged: seq<Span>, s: Span): seq<Span> {
    if merged != [] && s.start < Last(merged).end then
      merged[..|merged| - 1] + [Span(Last(merged).start, if Last(merged).end < s.end then s.end else Last(merged).end)]
    else merged + [s]
  }

  lemma {:induction false} AddedIsDisjoint(merged: seq<Span>, s: Span)
    requires Proper(merged) && AscendingDisjoint(merged) && s.start <= s.end
    requires merged != [] ==> Last(merged).start <= s.start
    ensures Proper(Added(merged, s)) && AscendingDisjoint(Added(merged, s))
    ensures Added(merged, s) != [] && Last(Added(merged, s)).start <= s.start
  {
  }

  lemma {:induction false} AddedKeepsInside(merged: seq<Span>, s: Span, a: Span, j: nat)
    requires j < |merged| && Inside(a, merged[j])
    ensures Housed(a, Added(merged, s))
  {
    assert Inside(a, Added(merged, s)[j]);
  }

  lemma {:induction false} AddedHoldsIt(merged: seq<Span>, s: Span)
    requires merged != [] ==> Last(merged).start <= s.start
    ensures Inside(s, Last(Added(merged, s)))
  {
  }

  lemma {:induction false} AddedCovers(merged: seq<Span>, s: Span, p: int)
    requires Proper(merged) && s.start <= s.end
    requires merged != [] ==> Last(merged).start <= s.start
    ensures Covers(Added(merged, s), p) <==> Covers(merged, p) || s.start <= p < s.end
  {
    var now := Added(merged, s);
    if Covers(merged, p) {
      var i :| 0 <= i < |merged| && merged[i].start <= p < merged[i].end;
      assert now[i].start <= p < now[i].end;
    }
    if s.start <= p < s.end {
      assert Last(now).start <= p < Last(now).end;
    }
    if Covers(now, p) {
      var i :| 0 <= i < |now| && now[i].start <= p < now[i].end;
      if i < |merged| && merged[i].start <= p < merged[i].end {
      } else {
        assert s.start <= p < s.end;
      }
    }
  }

  lemma {:induction false} CoversPermuted(s: seq<Span>, r: seq<Span>, p: int)
    requires multiset(r) == multiset(s)
    ensures Covers(r, p) <==> Covers(s, p)
  {
    SameMembers(s, r);
    if Covers(r, p) {
      var i :| 0 <= i < |r| && r[i].start <= p < r[i].end;
      assert r[i] in s;
    }
    if Covers(s, p) {
      var i :| 0 <= i < |s| && s[i].start <= p < s[i].end;
      assert s[i] in r;
    }
  }

  lemma {:induction false} CoversOneMore(s: seq<Span>, k: nat, p: int)
    requires k < |s|
    ensures Covers(s[..k + 1], p) <==> Covers(s[..k], p) || s[k].start <= p < s[k].end
  {
    if Covers(s[..k], p) {
      var i :| 0 <= i < k && s[..k][i].start <= p < s[..k][i].end;
      assert s[..k + 1][i] == s[..k][i];
    }
    if s[k].start <= p < s[k].end {
      assert s[..k + 1][k] == s[k];
    }
    if Covers(s[..k + 1], p) {
      var i :| 0 <= i <= k && s[..k + 1][i].start <= p < s[..k + 1][i].end;
      assert i < k ==> s[..k][i] == s[..k + 1][i];
    }
  }

  /** The union of the spans, as ascending spans that do not overlap: the same characters
      are covered, and each span given lies inside one of them. */
  method MergeSpans(spans: seq<Span>) returns (merged: seq<Span>)
    requires Proper(spans)
    ensures Proper(merged) && AscendingDisjoint(merged)
    ensures forall p :: Covers(merged, p) <==> Covers(spans, p)
    ensures forall i :: 0 <= i < |spans| ==> Housed(spans[i], merged)
  {
    var s := Sorted(spans, TupleLe);
    SortedIsSorted(spans, TupleLe);
    SameMembers(spans, s);
    merged := [];
    for k := 0 to |s|
      invariant Proper(merged) && AscendingDisjoint(merged)
      invariant merged != [] ==> k > 0 && Last(merged).start <= s[k - 1].start
      invariant forall p :: Covers(merged, p) <==> Covers(s[..k], p)
      invariant forall i :: 0 <= i < k ==> Housed(s[i], merged)
    {
      assert s[k] in spans;
      MergeStep(s, k, merged);
      if merged != [] && s[k].start < Last(merged).end {
        var last := Last(merged);
        merged := merged[..|merged| - 1] + [Span(last.start, if last.end < s[k].end then s[k].end else last.end)];
      } else {
        merged := merged + [s[k]];
      }
    }
    assert s[..|s|] == s;
    forall p
      ensures Covers(merged, p) <==> Covers(spans, p)
    {
      CoversPermuted(spans, s, p);
    }
    forall i | 0 <= i < |spans|
      ensures Housed(spans[i], merged)
    {
      assert spans[i] in s;
    }
  }

  lemma {:induction false} MergeStep(s: seq<Span>, k: nat, merged: seq<Span>)
    requires k < |s| && SortedBy(s, TupleLe) && s[k].start <= s[k].end
    requires Proper(merged) && AscendingDisjoint(merged)
    requires merged != [] ==> k > 0 && Last(merged).start <= s[k - 1].start
    requires forall p :: Covers(merged, p) <==> Covers(s[..k], p)
    requires forall i :: 0 <= i < k ==> Housed(s[i], merged)
    ensures var now := Added(merged, s[k]);
            && Proper(now) && AscendingDisjoint(now) && now != [] && Last(now).start <= s[k].start
            && (forall p :: Covers(now, p) <==> Covers(s[..k + 1], p))
            && (forall i :: 0 <= i <= k ==> Housed(s[i], now))
  {
    var now := Added(merged, s[k]);
    assert k > 0 ==> TupleLe(s[k - 1], s[k]);
    AddedIsDisjoint(merged, s[k]);
    forall p
      ensures Covers(now, p) <==> Covers(s[..k + 1], p)
    {
      AddedCovers(merged, s[k], p);
      CoversOneMore(s, k, p);
    }
    forall i | 0 <= i <= k
      ensures Housed(s[i], now)
    {
      if i == k {
        AddedHoldsIt(merged, s[k]);
        assert Inside(s[i], now[|now| - 1]);
      } else {
        var j :| 0 <= j < |merged| && Inside(s[i], merged[j]);
        AddedKeepsInside(merged, s[k], s[i], j);
      }
    }
  }

  // ---- the greedy choice among findings

  datatype Finding = Finding(text: seq<nat>, category: string, start: int, end: int, score: Number)

  predicate Overlaps(a: Finding, b: Finding) { a.start < b.end && b.start < a.end }

  /** `a` goes first: the higher score, then the longer span, then the earlier one. A score that
      is not a number goes before nothing, and nothing goes before it. */
  predicate Before(a: Finding, b: Finding) {
    var la, lb := a.end - a.start, b.end - b.start;
    && !a.score.NaN? && !b.score.NaN?
    && (Less(b.score, a.score) || (a.score == b.score && (la > lb || (la == lb && a.start < b.start))))
  }

  /** `a` is of no lower priority than `b`. */
  predicate PriorityLe(a: Finding, b: Finding) { !a.score.NaN? && !b.score.NaN? && !Before(b, a) }

  /** By score, then length, then place, said of numbers. */
  lemma {:induction false} PriorityByScore(a: Finding, b: Finding, x: real, y: real)
    requires a.score == Finite(x) && b.score == Finite(y)
    ensures x > y ==> Before(a, b)
    ensures x == y && a.end - a.start > b.end - b.start ==> Before(a, b)
    ensures x == y && a.end - a.start == b.end - b.start && a.start < b.start ==> Before(a, b)
    ensures Before(a, b) ==> !Before(b, a) && PriorityLe(a, b)
    ensures PriorityLe(a, b) || PriorityLe(b, a)
  {
  }

  predicate StartLe(a: Finding, b: Finding) { a.start <= b.start }

  predicate Scored(fs: seq<Finding>) {
    forall f :: f in fs ==> !f.score.NaN?
  }

  // ---- the order they are taken in

  /** What `sorted` with the priority key makes of a list: an order of its elements; by priority
      when every score is a number; and the list as it is when no element goes before the one it
      follows. How it orders other lists is left open. */
  ghost predicate SortsAs(fs: seq<Finding>, prio: seq<Finding>) {
    && multiset(prio) == multiset(fs)
    && (Scored(fs) ==> SortedBy(prio, PriorityLe))
    && (InPlace(fs) ==> prio == fs)
  }

  ghost predicate InPlace(fs: seq<Finding>) {
    forall i, j :: 0 <= i < j < |fs| && j == i + 1 ==> NotAfter(fs[i], fs[j])
  }

  predicate NotAfter(a: Finding, b: Finding) { !Before(b, a) }

  lemma {:induction false} ScoredSorts(fs: seq<Finding>)
    requires Scored(fs)
    ensures SortedBy(Sorted(fs, NotAfter), PriorityLe)
  {
    var prio := Sorted(fs, NotAfter);
    assert TotalOn(NotAfter, fs);
    SortedIsSorted(fs, NotAfter);
    SameMembers(fs, prio);
    forall i, j | 0 <= i < j < |prio|
      ensures PriorityLe(prio[i], prio[j])
    {
      assert prio[i] in fs && prio[j] in fs;
    }
  }

  method SortByPriority(fs: seq<Finding>) returns (prio: seq<Finding>)
    ensures SortsAs(fs, prio)
  {
    prio := Sorted(fs, NotAfter);
    if Scored(fs) {
      ScoredSorts(fs);
    }
    if InPlace(fs) {
      SortedInPlace(fs, NotAfter);
    }
  }

  ghost predicate Disjoint(fs: seq<Finding>) {
    forall i, j :: 0 <= i < j < |fs| ==> !Overlaps(fs[i], fs[j])
  }

  lemma {:induction false} InsertDisjoint(x: Finding, s: seq<Finding>, le: (Finding, Finding) -> bool)
    requires Disjoint(s) && forall i :: 0 <= i < |s| ==> !Overlaps(x, s[i])
    ensures Disjoint(Insert(x, s, le))
  {
    if s != [] && !le(x, s[0]) {
      InsertDisjoint(x, s[1..], le);
      var rest := Insert(x, s[1..], le);
      forall j | 0 <= j < |rest|
        ensures !Overlaps(s[0], rest[j])
      {
        assert rest[j] in multiset(rest);
        assert rest[j] == x || rest[j] in s[1..];
      }
    }
  }

  lemma {:induction false} SortedDisjoint(s: seq<Finding>, le: (Finding, Finding) -> bool)
    requires Disjoint(s)
    ensures Disjoint(Sorted(s, le))
  {
    if s != [] {
      var rest := Sorted(s[1..], le);
      SortedDisjoint(s[1..], le);
      SameMembers(s[1..], rest);
      forall i | 0 <= i < |rest|
        ensures !Overlaps(s[0], rest[i])
      {
        assert rest[i] in s[1..];
      }
      InsertDisjoint(s[0], rest, le);
    }
  }

  /** A kept finding overlaps `f`. */
  ghost predicate Crossed(f: Finding, kept: seq<Finding>) {
    exists g :: g in kept && Overlaps(f, g)
  }

  /** A kept finding of equal or higher priority overlaps `f`. */
  ghost predicate Beaten(f: Finding, kept: seq<Finding>) {
    exists g :: g in kept && Overlaps(f, g) && PriorityLe(g, f)
  }

  /** The greedy choice: each finding in turn, unless it overlaps one taken before. */
  ghost function Kept(prio: seq<Finding>): seq<Finding> {
    if prio == [] then []
    else
      var kept, f := Kept(prio[..|prio| - 1]), prio[|prio| - 1];
      if Crossed(f, kept) then kept else kept + [f]
  }

  lemma {:induction false} KeptAreDisjoint(prio: seq<Finding>)
    ensures Disjoint(Kept(prio)) && forall f :: f in Kept(prio) ==> f in prio
  {
    if prio != [] {
      var kept, f := Kept(prio[..|prio| - 1]), prio[|prio| - 1];
      KeptAreDisjoint(prio[..|prio| - 1]);
      forall i, j | 0 <= i < j < |Kept(prio)|
        ensures !Overlaps(Kept(prio)[i], Kept(prio)[j])
      {
        if j == |kept| {
          assert kept[i] in kept;
        }
      }
    }
  }

  lemma {:induction false} LeftOutIsCrossed(prio: seq<Finding>)
    ensures forall f :: f in prio ==> f in Kept(prio) || Crossed(f, Kept(prio))
  {
    if prio != [] {
      var rest := prio[..|prio| - 1];
      LeftOutIsCrossed(rest);
      forall f | f in prio
        ensures f in Kept(prio) || Crossed(f, Kept(prio))
      {
        if f in rest && f !in Kept(rest) {
          var g :| g in Kept(rest) && Overlaps(f, g);
          assert g in Kept(prio);
        }
      }
    }
  }

  lemma {:induction false} LeftOutIsBeaten(prio: seq<Finding>)
    requires SortedBy(prio, PriorityLe)
    ensures forall f :: f in prio ==> f in Kept(prio) || Beaten(f, Kept(prio))
  {
    if prio != [] {
      var rest, last := prio[..|prio| - 1], prio[|prio| - 1];
      LeftOutIsBeaten(rest);
      KeptAreDisjoint(rest);
      forall f | f in prio
        ensures f in Kept(prio) || Beaten(f, Kept(prio))
      {
        if f in rest && f !in Kept(rest) {
          var g :| g in Kept(rest) && Overlaps(f, g) && PriorityLe(g, f);
          assert g in Kept(prio);
        } else if f == last && Crossed(f, Kept(rest)) {
          var g :| g in Kept(rest) && Overlaps(f, g);
          assert g in rest;
        }
      }
    }
  }

  method OverlapsAny(f: Finding, kept: seq<Finding>) returns (hit: bool)
    ensures hit <==> Crossed(f, kept)
  {
    hit := false;
    for j := 0 to |kept|
      invariant hit <==> exists g :: g in kept[..j] && Overlaps(f, g)
    {
      assert kept[..j + 1] == kept[..j] + [kept[j]];
      if Overlaps(f, kept[j]) {
        assert kept[j] in kept[..j + 1];
        hit := true;
      }
    }
    assert kept[..|kept|] == kept;
  }

  /** The greedy pass over findings in the order given. */
  method Choose(prio: seq<Finding>) returns (kept: seq<Finding>)
    ensures kept == Kept(prio)
  {
    kept := [];
    for k := 0 to |prio|
      invariant kept == Kept(prio[..k])
    {
      assert prio[..k + 1][..k] == prio[..k];
      var hit := OverlapsAny(prio[k], kept);
      if !hit {
        kept := kept + [prio[k]];
      }
    }
    assert prio[..|prio|] == prio;
  }

  /** The greedy choice over some order of the findings, put in the order of the text. */
  ghost predicate Deduplicated(findings: seq<Finding>, result: seq<Finding>) {
    exists prio :: SortsAs(findings, prio) && result == Sorted(Kept(prio), StartLe)
  }

  /** Overlapping findings are removed: what is kept is in order and pairwise disjoint, and
      whatever is removed overlaps a kept finding; one of no lower priority, if every score is
      a number. */
  method Deduplicate(findings: seq<Finding>) returns (result: seq<Finding>)
    ensures SortedBy(result, StartLe) && Disjoint(result)
    ensures forall f :: f in result ==> f in findings
    ensures forall f :: f in findings ==> f in result || Crossed(f, result)
    ensures Scored(findings) ==> forall f :: f in findings ==> f in result || Beaten(f, result)
    ensures Deduplicated(findings, result)
  {
    var prio := SortByPriority(findings);
    var kept := Choose(prio);
    result := Sorted(kept, StartLe);
    SortedIsSorted(kept, StartLe);
    KeptAreDisjoint(prio);
    SortedDisjoint(kept, StartLe);
    SameMembers(findings, prio);
    SameMembers(kept, result);
    LeftOutIsCrossed(prio);
    if Scored(findings) {
      LeftOutIsBeaten(prio);
    }
    BackInOrder(findings, kept, result);
  }

  lemma {:induction false} BackInOrder(fs: seq<Finding>, kept: seq<Finding>, result: seq<Finding>)
    requires forall f :: f in kept <==> f in result
    ensures forall f :: f in fs && Crossed(f, kept) ==> Crossed(f, result)
    ensures forall f :: f in fs && Beaten(f, kept) ==> Beaten(f, result)
  {
  }

  lemma {:induction false} InPlaceStays(fs: seq<Finding>, result: seq<Finding>)
    requires InPlace(fs) && Deduplicated(fs, result)
    ensures forall f :: f in result <==> f in Kept(fs)
  {
    var prio :| SortsAs(fs, prio) && result == Sorted(Kept(prio), StartLe);
    SameMembers(Kept(prio), result);
  }

  lemma {:induction false} FirstOfThree(a: Finding, b: Finding, c: Finding)
    requires Overlaps(a, c)
    ensures a in Kept([a, b, c]) && Kept([a, b, c]) == Kept([a, b])
  {
    assert [a, b, c][..2] == [a, b] && [a, b][..1] == [a] && [a][..0] == [];
    assert Kept([a]) == [a];
    assert a in Kept([a, b]);
    assert Crossed(c, Kept([a, b]));
  }

  /** A score that is not a number hides what is around it: of two findings that overlap, the
      weaker one is kept when it comes first and the other is next after such a score. */
  lemma {:induction false} NotANumberHidesTheStronger(
    weaker: Finding, between: Finding, stronger: Finding, result: seq<Finding>)
    requires Overlaps(weaker, stronger) && Before(stronger, weaker) && between.score.NaN?
    requires Deduplicated([weaker, between, stronger], result)
    ensures weaker in result && stronger !in result && !Beaten(stronger, result)
  {
    var fs := [weaker, between, stronger];
    InPlaceStays(fs, result);
    FirstOfThree(weaker, between, stronger);
    KeptAreDisjoint([weaker, between]);
  }

  /** Three findings the service can report, the first and the last over the same word. */
  lemma {:induction false} WeakerFindingIsKept(text: seq<nat>, result: seq<Finding>)
    ensures
      var weaker := Finding(text, "PERSON", 0, 4, Finite(0.5));
      var between := Finding(text, "PERSON", 9, 13, NaN);
      var stronger := Finding(text, "SECRET", 0, 4, Finite(0.9));
      Deduplicated([weaker, between, stronger], result) ==> weaker in result && stronger !in result
  {
    var weaker := Finding(text, "PERSON", 0, 4, Finite(0.5));
    var between := Finding(text, "PERSON", 9, 13, NaN);
    var stronger := Finding(text, "SECRET", 0, 4, Finite(0.9));
    if Deduplicated([weaker, between, stronger], result) {
      NotANumberHidesTheStronger(weaker, between, stronger, result);
    }
  }
}
