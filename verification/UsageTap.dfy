/**
  The usage tap of a response that is not restored: it reads each event of a 2xx stream as
  it passes, and drops the usage artifacts of a stream whose client did not ask for them.
 */
module UsageTap {
  import opened Seqs
  import opened SseFraming

  const USAGE_EVENT_CAP: nat := 8 * 1024 * 1024

  /** Whether an event is a usage artifact; reading one that cannot be read says no. */
  type Artifact = seq<Unit> -> bool

  /** `read` is every event handed to the usage reader so far. */
  datatype Tap = Tap(drops: bool, buffer: seq<Unit>, over: bool, read: seq<seq<Unit>>)

  /** The events that go out: all of them but the artifacts. */
  function Kept(artifact: Artifact, events: seq<seq<Unit>>): seq<Unit> {
    if events == [] then []
    else (if artifact(events[0]) then [] else events[0]) + Kept(artifact, events[1..])
  }

  lemma {:induction false} KeptAppends(artifact: Artifact, a: seq<seq<Unit>>, b: seq<seq<Unit>>)
    ensures Kept(artifact, a + b) == Kept(artifact, a) + Kept(artifact, b)
  {
    if a == [] {
      assert a + b == b;
    } else {
      assert (a + b)[0] == a[0] && (a + b)[1..] == a[1..] + b;
      KeptAppends(artifact, a[1..], b);
      Assoc(if artifact(a[0]) then [] else a[0], Kept(artifact, a[1..]), Kept(artifact, b));
    }
  }

  /** Each event goes out in its place, whole, or not at all if it is an artifact. */
  lemma {:induction false} KeptExactly(
    artifact: Artifact, before: seq<seq<Unit>>, event: seq<Unit>, after: seq<seq<Unit>>)
    ensures Kept(artifact, before + [event] + after) ==
      Kept(artifact, before) + (if artifact(event) then [] else event) + Kept(artifact, after)
    ensures (forall i :: 0 <= i < |before| ==> !artifact(before[i])) ==> Kept(artifact, before) == Concat(before)
  {
    KeptAppends(artifact, before + [event], after);
    KeptAppends(artifact, before, [event]);
    assert [event][1..] == [];
    if forall i :: 0 <= i < |before| ==> !artifact(before[i]) {
      KeptAll(artifact, before);
    }
  }

  lemma {:induction false} KeptAll(artifact: Artifact, events: seq<seq<Unit>>)
    requires forall i :: 0 <= i < |events| ==> !artifact(events[i])
    ensures Kept(artifact, events) == Concat(events)
  {
    if events != [] {
      KeptAll(artifact, events[1..]);
    }
  }

  /** At the end of a stream what is still open counts as an event. */
  function AllEvents(frames: Frames): seq<seq<Unit>> {
    if frames.rest == [] then frames.events else frames.events + [frames.rest]
  }

  lemma {:induction false} AllEventsConserve(s: seq<Unit>)
    ensures Concat(AllEvents(Split(s))) == s
  {
    var frames := Split(s);
    SplitConserves(s);
    ConcatAppends(frames.events, [frames.rest]);
    ConcatCons(frames.rest, []);
    assert [frames.rest] + [] == [frames.rest];
  }

  datatype Fed = Fed(tap: Tap, out: seq<Unit>)

  /** `_feed_sse`: what goes out for one chunk. */
  function Feed(artifact: Artifact, tap: Tap, chunk: seq<Unit>, final: bool): Fed {
    if tap.over then Fed(tap, chunk)
    else
      var frames := Split(tap.buffer + chunk);
      var events := if final then AllEvents(frames) else frames.events;
      var held := if final then [] else frames.rest;
      var trips := |held| > USAGE_EVENT_CAP;
      var out := Kept(artifact, events) + (if trips then held else []);
      Fed(Tap(tap.drops, if trips then [] else held, trips, tap.read + events), if tap.drops then out else chunk)
  }

  /** All chunks but the final one through a new tap. */
  function Through(artifact: Artifact, drops: bool, chunks: seq<seq<Unit>>): Fed
    decreases |chunks|
  {
    if chunks == [] then Fed(Tap(drops, [], false, []), [])
    else
      var before := Through(artifact, drops, chunks[..|chunks| - 1]);
      var one := Feed(artifact, before.tap, chunks[|chunks| - 1], false);
      Fed(one.tap, before.out + one.out)
  }

  lemma {:induction false} ConcatLast(chunks: seq<seq<Unit>>)
    requires chunks != []
    ensures Concat(chunks) == Concat(chunks[..|chunks| - 1]) + chunks[|chunks| - 1]
  {
    var init, last := chunks[..|chunks| - 1], chunks[|chunks| - 1];
    assert chunks == init + [last];
    ConcatAppends(init, [last]);
    ConcatCons(last, []);
    assert [last] + [] == [last];
  }

  /** Without dropping, every chunk goes out as it came in. */
  lemma {:induction false} UntouchedWithoutDropping(
    artifact: Artifact, chunks: seq<seq<Unit>>, chunk: seq<Unit>, final: bool)
    ensures Through(artifact, false, chunks).out == Concat(chunks)
    ensures !Through(artifact, false, chunks).tap.drops
    ensures Feed(artifact, Through(artifact, false, chunks).tap, chunk, final).out == chunk
    decreases |chunks|
  {
    if chunks != [] {
      UntouchedWithoutDropping(artifact, chunks[..|chunks| - 1], chunks[|chunks| - 1], false);
      ConcatLast(chunks);
    }
  }

  /** The cap trips at a chunk's end, when the event still open there is too long. */
  ghost predicate TripsAt(chunks: seq<seq<Unit>>, n: nat)
    requires n <= |chunks|
  {
    |Split(Concat(chunks[..n])).rest| > 8 * 1024 * 1024
  }

  /** Below the cap the input is the events read and the buffer held, and the output is
      those events minus exactly the artifacts. */
  lemma {:induction false} BytesConserved(artifact: Artifact, chunks: seq<seq<Unit>>)
    requires forall n :: 0 <= n <= |chunks| ==> !TripsAt(chunks, n)
    ensures var fed := Through(artifact, true, chunks);
            var frames := Split(Concat(chunks));
            && fed.tap == Tap(true, frames.rest, false, frames.events)
            && Concat(fed.tap.read) + fed.tap.buffer == Concat(chunks)
            && fed.out == Kept(artifact, fed.tap.read)
    decreases |chunks|
  {
    if chunks != [] {
      var init, last := chunks[..|chunks| - 1], chunks[|chunks| - 1];
      forall n | 0 <= n <= |init|
        ensures !TripsAt(init, n)
      {
        assert init[..n] == chunks[..n];
        assert !TripsAt(chunks, n);
      }
      BytesConserved(artifact, init);
      ConcatLast(chunks);
      SplitExtends(Concat(init), last);
      assert chunks[..|chunks|] == chunks && !TripsAt(chunks, |chunks|);
      KeptAppends(artifact, Split(Concat(init)).events, Split(Split(Concat(init)).rest + last).events);
    }
    SplitConserves(Concat(chunks));
  }

  /** The final chunk of a stream below the cap: what is still open counts as an event, and
      nothing is held any more. The whole output does not depend on how the stream was cut. */
  lemma {:induction false} NothingHeldAtTheEnd(artifact: Artifact, chunks: seq<seq<Unit>>, final: seq<Unit>)
    requires forall n :: 0 <= n <= |chunks| ==> !TripsAt(chunks, n)
    ensures var fed := Through(artifact, true, chunks);
            var end := Feed(artifact, fed.tap, final, true);
            var frames := Split(Concat(chunks) + final);
            && end.tap == Tap(true, [], false, AllEvents(frames))
            && fed.out + end.out == Kept(artifact, AllEvents(frames))
            && Concat(end.tap.read) == Concat(chunks) + final
  {
    BytesConserved(artifact, chunks);
    var before := Split(Concat(chunks));
    var here := Split(before.rest + final);
    SplitExtends(Concat(chunks), final);
    Assoc(before.events, here.events, [here.rest]);
    assert before.events + AllEvents(here) == AllEvents(Split(Concat(chunks) + final));
    KeptAppends(artifact, before.events, AllEvents(here));
    AllEventsConserve(Concat(chunks) + final);
    assert Kept(artifact, AllEvents(here)) + [] == Kept(artifact, AllEvents(here));
  }

  /** Once an event still open at a chunk's end passes the cap, what was held goes out, and
      from there on every byte does: only events completed before can have been dropped. */
  lemma {:induction false} PassesOnceOver(
    artifact: Artifact, chunks: seq<seq<Unit>>, n: nat, chunk: seq<Unit>, final: bool)
    requires n <= |chunks| && TripsAt(chunks, n) && forall m :: 0 <= m < n ==> !TripsAt(chunks, m)
    ensures var fed := Through(artifact, true, chunks);
            var frames := Split(Concat(chunks[..n]));
            && fed.tap == Tap(true, [], true, frames.events)
            && fed.out == (Kept(artifact, frames.events) + frames.rest) + Concat(chunks[n..])
            && Feed(artifact, fed.tap, chunk, final) == Fed(fed.tap, chunk)
    decreases |chunks|
  {
    assert chunks != [] by { assert chunks[..0] == []; assert Split(Concat(chunks[..0])).rest == []; }
    var init, last := chunks[..|chunks| - 1], chunks[|chunks| - 1];
    if n == |chunks| {
      TripsHere(artifact, chunks);
      assert chunks[..n] == chunks && Concat(chunks[n..]) == [];
    } else {
      assert init[..n] == chunks[..n];
      forall m | 0 <= m < n
        ensures !TripsAt(init, m)
      {
        assert init[..m] == chunks[..m] && !TripsAt(chunks, m);
      }
      PassesOnceOver(artifact, init, n, last, false);
      ConcatLast(chunks[n..]);
      assert chunks[n..][..|chunks[n..]| - 1] == init[n..];
      var frames := Split(Concat(chunks[..n]));
      Assoc(Kept(artifact, frames.events) + frames.rest, Concat(init[n..]), last);
    }
  }

  lemma {:induction false} TripsHere(artifact: Artifact, chunks: seq<seq<Unit>>)
    requires chunks != [] && TripsAt(chunks, |chunks|) && forall m :: 0 <= m < |chunks| ==> !TripsAt(chunks, m)
    ensures var fed := Through(artifact, true, chunks);
            var frames := Split(Concat(chunks));
            && fed.tap == Tap(true, [], true, frames.events)
            && fed.out == Kept(artifact, frames.events) + frames.rest
  {
    var init, last := chunks[..|chunks| - 1], chunks[|chunks| - 1];
    forall m | 0 <= m <= |init|
      ensures !TripsAt(init, m)
    {
      assert init[..m] == chunks[..m] && !TripsAt(chunks, m);
    }
    BytesConserved(artifact, init);
    ConcatLast(chunks);
    assert chunks[..|chunks|] == chunks;
    var before := Split(Concat(init));
    var here := Split(before.rest + last);
    SplitExtends(Concat(init), last);
    KeptAppends(artifact, before.events, here.events);
    Assoc(Kept(artifact, before.events), Kept(artifact, here.events), here.rest);
  }

  // ---- the object

  class UsageTap {
    const artifact: Artifact
    const drops: bool
    var buffer: seq<Unit>
    var over: bool
    ghost var read: seq<seq<Unit>>

    ghost function Abs(): Tap
      reads this
    {
      Tap(drops, buffer, over, read)
    }

    constructor (artifact: Artifact, drops: bool)
      ensures this.artifact == artifact && Abs() == Through(artifact, drops, []).tap
    {
      this.artifact, this.drops := artifact, drops;
      buffer, over, read := [], false, [];
    }

    /** Every complete event of the buffer: read, and kept unless it is an artifact. */
    method ReadEvents() returns (out: seq<Unit>)
      modifies this`buffer, this`read
      ensures var frames := Split(old(buffer));
              && buffer == frames.rest && read == old(read) + frames.events
              && out == Kept(artifact, frames.events)
    {
      ghost var frames := Split(buffer);
      out := [];
      while EventEnd(buffer).Some?
        invariant Split(buffer).rest == frames.rest
        invariant read + Split(buffer).events == old(read) + frames.events
        invariant out + Kept(artifact, Split(buffer).events) == Kept(artifact, frames.events)
        decreases |buffer|
      {
        var end := EventEnd(buffer).value;
        var event := buffer[..end];
        ghost var after := Split(buffer[end..]).events;
        Assoc(read, [event], after);
        Assoc(out, if artifact(event) then [] else event, Kept(artifact, after));
        assert ([event] + after)[1..] == after;
        buffer := buffer[end..];
        out := out + if artifact(event) then [] else event;
        read := read + [event];
      }
      assert read + [] == read && out + [] == out;
    }

    /** The events of the buffer, and at the end of the stream what is still open. */
    method ReadAll(final: bool) returns (out: seq<Unit>)
      modifies this`buffer, this`read
      ensures var frames := Split(old(buffer));
              var events := if final then AllEvents(frames) else frames.events;
              && buffer == (if final then [] else frames.rest)
              && read == old(read) + events && out == Kept(artifact, events)
    {
      ghost var frames := Split(buffer);
      out := ReadEvents();
      if final && buffer != [] {
        Assoc(old(read), frames.events, [buffer]);
        KeptAppends(artifact, frames.events, [buffer]);
        out := out + if artifact(buffer) then [] else buffer;
        read := read + [buffer];
        buffer := [];
      }
    }

    method FeedSse(chunk: seq<Unit>, final: bool) returns (out: seq<Unit>)
      modifies this`buffer, this`over, this`read
      ensures Fed(Abs(), out) == Feed(artifact, old(Abs()), chunk, final)
    {
      if over {
        return chunk;
      }
      buffer := buffer + chunk;
      out := ReadAll(final);
      if |buffer| > USAGE_EVENT_CAP {
        over := true;
        out := out + buffer;
        buffer := [];
      }
      if !drops {
        out := chunk;
      }
    }
  }
}
