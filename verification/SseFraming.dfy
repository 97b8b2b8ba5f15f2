/**
  Event-stream framing, fed chunk by chunk.

  The restorer works on decoded text and the usage tap on bytes; both search for the same
  three boundaries, so both are sequences of code units here.
 */
module SseFraming {
  import opened Wrappers
  import opened Seqs

  type Unit = nat
  const CR: Unit := 13
  const LF: Unit := 10

  /** The length of the boundary that starts at `i`, or 0. */
  function BoundaryAt(s: seq<Unit>, i: nat): (n: nat)
    ensures n > 0 ==> n >= 2 && i + n <= |s|
  {
    if i + 4 <= |s| && s[i] == CR && s[i + 1] == LF && s[i + 2] == CR && s[i + 3] == LF then 4
    else if i + 2 <= |s| && s[i] == LF && s[i + 1] == LF then 2
    else if i + 2 <= |s| && s[i] == CR && s[i + 1] == CR then 2
    else 0
  }

  /** The leftmost boundary at or after `i`. */
  function SearchFrom(s: seq<Unit>, i: nat): (r: Option<nat>)
    requires i <= |s|
    ensures r.Some? ==> i <= r.value < |s| && BoundaryAt(s, r.value) > 0
    ensures r.Some? ==> forall j :: i <= j < r.value ==> BoundaryAt(s, j) == 0
    ensures r.None? ==> forall j :: i <= j < |s| ==> BoundaryAt(s, j) == 0
    decreases |s| - i
  {
    if i == |s| then None
    else if BoundaryAt(s, i) > 0 then Some(i)
    else SearchFrom(s, i + 1)
  }

  /** Where the first event of `s` ends, boundary included. */
  function EventEnd(s: seq<Unit>): (r: Option<nat>)
    ensures r.Some? ==> 2 <= r.value <= |s|
  {
    match SearchFrom(s, 0)
    case None => None
    case Some(i) => Some(i + BoundaryAt(s, i))
  }

  datatype Frames = Frames(events: seq<seq<Unit>>, rest: seq<Unit>)

  /** The whole stream split once: its complete events, and what is left open. */
  function Split(s: seq<Unit>): Frames
    decreases |s|
  {
    match EventEnd(s)
    case None => Frames([], s)
    case Some(end) =>
      var tail := Split(s[end..]);
      Frames([s[..end]] + tail.events, tail.rest)
  }

  // ---- what the split is

  /** A complete event: its only boundary is the one it ends with. */
  ghost predicate Event(e: seq<Unit>) {
    EventEnd(e) == Some(|e|)
  }

  /** Splitting loses nothing. */
  lemma {:induction false} SplitConserves(s: seq<Unit>)
    ensures Concat(Split(s).events) + Split(s).rest == s
    decreases |s|
  {
    var end := EventEnd(s);
    if end.Some? {
      var head, tail := s[..end.value], s[end.value..];
      var frames := Split(tail);
      calc {
        Concat(Split(s).events) + Split(s).rest;
        { ConcatCons(head, frames.events); }
        (head + Concat(frames.events)) + frames.rest;
        { Assoc(head, Concat(frames.events), frames.rest); }
        head + (Concat(frames.events) + frames.rest);
        { SplitConserves(tail); }
        head + tail;
        s;
      }
    }
  }

  /** Every event of a split is complete, and the rest holds no boundary. */
  lemma {:induction false} SplitEvents(s: seq<Unit>)
    ensures forall i :: 0 <= i < |Split(s).events| ==> Event(Split(s).events[i])
    ensures EventEnd(Split(s).rest) == None
    decreases |s|
  {
    var end := EventEnd(s);
    if end.Some? {
      SplitEvents(s[end.value..]);
      FirstEventComplete(s, end.value);
    }
  }

  lemma {:induction false} FirstEventComplete(s: seq<Unit>, end: nat)
    requires EventEnd(s) == Some(end)
    ensures Event(s[..end])
  {
    var i := SearchFrom(s, 0).value;
    var e := s[..end];
    forall j | 0 <= j < i
      ensures BoundaryAt(e, j) == 0
    {
      assert BoundaryAt(s, j) == 0;
    }
    assert BoundaryAt(e, i) == BoundaryAt(s, i);
    SearchFinds(e, 0, i);
  }

  lemma {:induction false} SearchFinds(s: seq<Unit>, from: nat, i: nat)
    requires from <= i < |s| && BoundaryAt(s, i) > 0
    requires forall j :: from <= j < i ==> BoundaryAt(s, j) == 0
    ensures SearchFrom(s, from) == Some(i)
  {
  }

  // ---- what a boundary is

  predicate EndsWith(s: seq<Unit>, t: seq<Unit>) { |t| <= |s| && s[|s| - |t|..] == t }

  /** It ends with one of the three blank lines: CR LF CR LF, LF LF or CR CR. */
  predicate EndsInBlankLine(s: seq<Unit>) {
    EndsWith(s, [13, 10, 13, 10]) || EndsWith(s, [10, 10]) || EndsWith(s, [13, 13])
  }

  /** The first `e` units are the shortest beginning of `s` that ends in a blank line. */
  ghost predicate Shortest(s: seq<Unit>, e: nat) {
    e <= |s| && EndsInBlankLine(s[..e]) && forall d: nat :: d < e ==> !EndsInBlankLine(s[..d])
  }

  lemma {:induction false} BoundaryEnds(s: seq<Unit>, i: nat)
    requires BoundaryAt(s, i) > 0
    ensures EndsInBlankLine(s[..i + BoundaryAt(s, i)])
  {
    var n := BoundaryAt(s, i);
    var t := s[..i + n];
    assert t[|t| - n..] == s[i..i + n];
    assert n == 4 ==> s[i..i + 4] == [13, 10, 13, 10];
    assert n == 2 ==> s[i..i + 2] == [10, 10] || s[i..i + 2] == [13, 13];
  }

  lemma {:induction false} EndsWithAt(s: seq<Unit>, e: nat, t: seq<Unit>, k: nat)
    requires e <= |s| && EndsWith(s[..e], t) && k < |t|
    ensures |t| <= e && s[e - |t| + k] == t[k]
  {
    assert s[..e][e - |t|..][k] == s[e - |t| + k];
  }

  /** And a blank line is a boundary, where it starts. */
  lemma {:induction false} EndIsBoundary(s: seq<Unit>, e: nat) returns (i: nat)
    requires e <= |s| && EndsInBlankLine(s[..e])
    ensures i < e && BoundaryAt(s, i) == e - i
  {
    if EndsWith(s[..e], [13, 10, 13, 10]) {
      forall k: nat | k < 4
        ensures 4 <= e && s[e - 4 + k] == [13, 10, 13, 10][k]
      {
        EndsWithAt(s, e, [13, 10, 13, 10], k);
      }
      i := e - 4;
      assert s[i + 0] == 13 && s[i + 1] == 10 && s[i + 2] == 13 && s[i + 3] == 10;
    } else {
      var t := if EndsWith(s[..e], [10, 10]) then [10, 10] else [13, 13];
      EndsWithAt(s, e, t, 0);
      EndsWithAt(s, e, t, 1);
      i := e - 2;
    }
  }

  lemma {:induction false} NothingEndsEarlier(s: seq<Unit>, i: nat, d: nat)
    requires SearchFrom(s, 0) == Some(i) && d < i + BoundaryAt(s, i)
    ensures !EndsInBlankLine(s[..d])
  {
    if EndsInBlankLine(s[..d]) {
      var j := EndIsBoundary(s, d);
      Crossing(s, i, j);
    }
  }

  /** Two boundaries that start at different places end in that order. */
  lemma {:induction false} Crossing(s: seq<Unit>, i: nat, j: nat)
    requires BoundaryAt(s, i) > 0 && BoundaryAt(s, j) > 0 && i < j
    ensures i + BoundaryAt(s, i) <= j + BoundaryAt(s, j)
  {
  }

  lemma {:induction false} FoundIsShortest(s: seq<Unit>, e: nat)
    requires EventEnd(s) == Some(e)
    ensures Shortest(s, e)
  {
    var i := SearchFrom(s, 0).value;
    BoundaryEnds(s, i);
    forall d: nat | d < e
      ensures !EndsInBlankLine(s[..d])
    {
      NothingEndsEarlier(s, i, d);
    }
  }

  lemma {:induction false} NoneFound(s: seq<Unit>, d: nat)
    requires EventEnd(s) == None && d <= |s|
    ensures !EndsInBlankLine(s[..d])
  {
    if EndsInBlankLine(s[..d]) {
      var j := EndIsBoundary(s, d);
    }
  }

  lemma {:induction false} OneShortest(s: seq<Unit>, d: nat, e: nat)
    requires Shortest(s, d) && Shortest(s, e)
    ensures d == e
  {
  }

  /** The first event of a stream ends with its first blank line. */
  lemma {:induction false} EventEndExactly(s: seq<Unit>, e: nat)
    ensures EventEnd(s) == Some(e) <==> Shortest(s, e)
  {
    if Shortest(s, e) {
      if EventEnd(s) == None {
        NoneFound(s, e);
      } else {
        FoundIsShortest(s, EventEnd(s).value);
        OneShortest(s, EventEnd(s).value, e);
      }
    } else if EventEnd(s) == Some(e) {
      FoundIsShortest(s, e);
    }
  }

  ghost predicate NoBlankLine(s: seq<Unit>) {
    forall d: nat :: d <= |s| ==> !EndsInBlankLine(s[..d])
  }

  /** And there is none while the stream has no blank line. */
  lemma {:induction false} NoEventExactly(s: seq<Unit>)
    ensures EventEnd(s) == None <==> NoBlankLine(s)
  {
    if EventEnd(s).Some? {
      FoundIsShortest(s, EventEnd(s).value);
    } else {
      forall d: nat | d <= |s|
        ensures !EndsInBlankLine(s[..d])
      {
        NoneFound(s, d);
      }
    }
  }

  /** The events of a stream, exactly: each ends with its only blank line, and what is left over has
      none. There is one way only to cut a stream so. */
  ghost predicate CutAtBlankLines(events: seq<seq<Unit>>, rest: seq<Unit>) {
    && (forall i :: 0 <= i < |events| ==> Shortest(events[i], |events[i]|))
    && NoBlankLine(rest)
  }

  lemma {:induction false} SplitExactly(s: seq<Unit>, events: seq<seq<Unit>>, rest: seq<Unit>)
    ensures Split(s) == Frames(events, rest) <==> Concat(events) + rest == s && CutAtBlankLines(events, rest)
  {
    if Split(s) == Frames(events, rest) {
      SplitConserves(s);
      SplitEvents(s);
      NoEventExactly(rest);
      forall i | 0 <= i < |events|
        ensures Shortest(events[i], |events[i]|)
      {
        EventEndExactly(events[i], |events[i]|);
      }
    }
    if Concat(events) + rest == s && CutAtBlankLines(events, rest) {
      OnlyCut(s, events, rest);
    }
  }

  lemma {:induction false} FirstIsCut(event: seq<Unit>, more: seq<Unit>)
    requires Shortest(event, |event|)
    ensures Split(event + more) == Frames([event] + Split(more).events, Split(more).rest)
  {
    EventEndExactly(event, |event|);
    LeftmostStays(event, more);
    assert (event + more)[..|event|] == event && (event + more)[|event|..] == more;
  }

  lemma {:induction false} OnlyCut(s: seq<Unit>, events: seq<seq<Unit>>, rest: seq<Unit>)
    requires Concat(events) + rest == s && CutAtBlankLines(events, rest)
    ensures Split(s) == Frames(events, rest)
    decreases |events|
  {
    if events == [] {
      assert s == rest;
      NoEventExactly(rest);
    } else {
      var more := Concat(events[1..]) + rest;
      OnlyCut(more, events[1..], rest);
      Assoc(events[0], Concat(events[1..]), rest);
      FirstIsCut(events[0], more);
      assert events == [events[0]] + events[1..];
    }
  }

  // ---- cutting the stream

  /** A boundary found in a prefix is still the leftmost after any extension. The one
      overlap that could beat it, a CRLF pair reaching past the end, starts with units
      that already rule out the boundary found. */
  lemma {:induction false} LeftmostStays(s: seq<Unit>, more: seq<Unit>)
    requires EventEnd(s).Some?
    ensures EventEnd(s + more) == EventEnd(s)
  {
    var i := SearchFrom(s, 0).value;
    var whole := s + more;
    assert BoundaryAt(whole, i) == BoundaryAt(s, i);
    forall j | 0 <= j < i
      ensures BoundaryAt(whole, j) == 0
    {
      assert BoundaryAt(s, j) == 0;
    }
    SearchFinds(whole, 0, i);
  }

  /** Splitting a stream is splitting what came first, then the rest with what came after. */
  lemma {:induction false} SplitExtends(s: seq<Unit>, more: seq<Unit>)
    ensures var first := Split(s);
            var later := Split(first.rest + more);
            Split(s + more) == Frames(first.events + later.events, later.rest)
    decreases |s|
  {
    var end := EventEnd(s);
    if end.None? {
      var all := Split(s + more);
      assert [] + all.events == all.events;
    } else {
      LeftmostStays(s, more);
      var tail := s[end.value..];
      assert (s + more)[..end.value] == s[..end.value];
      assert (s + more)[end.value..] == tail + more;
      SplitExtends(tail, more);
      var later := Split(Split(tail).rest + more);
      Assoc([s[..end.value]], Split(tail).events, later.events);
    }
  }

  /** Feeding chunks one by one: each is appended to the open rest and split. */
  function FeedAll(rest: seq<Unit>, chunks: seq<seq<Unit>>): Frames
    decreases |chunks|
  {
    if chunks == [] then Frames([], rest)
    else
      var first := Split(rest + chunks[0]);
      var later := FeedAll(first.rest, chunks[1..]);
      Frames(first.events + later.events, later.rest)
  }

  /** However a stream is cut into chunks, feeding them yields the events of the whole. */
  lemma {:induction false} ChunkInvariant(chunks: seq<seq<Unit>>)
    ensures FeedAll([], chunks) == Split(Concat(chunks))
  {
    FeedAllSplits([], chunks);
    assert [] + Concat(chunks) == Concat(chunks);
  }

  lemma {:induction false} FeedAllSplits(rest: seq<Unit>, chunks: seq<seq<Unit>>)
    requires EventEnd(rest) == None
    ensures FeedAll(rest, chunks) == Split(rest + Concat(chunks))
    decreases |chunks|
  {
    if chunks == [] {
      assert rest + Concat(chunks) == rest;
    } else {
      var head, more := rest + chunks[0], Concat(chunks[1..]);
      var first := Split(head);
      calc {
        Split(rest + Concat(chunks));
        { Assoc(rest, chunks[0], more); }
        Split(head + more);
        { SplitExtends(head, more); }
        Frames(first.events + Split(first.rest + more).events, Split(first.rest + more).rest);
        { SplitEvents(head); FeedAllSplits(first.rest, chunks[1..]); }
        FeedAll(rest, chunks);
      }
    }
  }
}
