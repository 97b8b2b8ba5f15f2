/**
  The stream restorer: complete events in, restored events out.

  The adapters that restore one event are opaque: an adapter state and an event give the
  next state and the text to send, or raise. Decoding is left to the caller, so a chunk is
  the text it decodes to.
 */
module SseRestorer {
  import opened Wrappers
  import opened Seqs
  import opened SseFraming

  datatype Reply<A> = Restored(next: A, text: seq<Unit>) | Raised

  /** One event, or the adapters' held tails at the end of the stream. */
  type Handler<!A> = (A, seq<Unit>) -> Reply<A>
  type Flusher<!A> = A -> Reply<A>

  /** How far restoration got: the text sent or ready so far, and the adapter unless it raised. */
  datatype Progress<A> = Going(adapter: A, text: seq<Unit>) | Broken(text: seq<Unit>)

  function Handle<A>(handler: Handler<A>, p: Progress<A>, event: seq<Unit>): Progress<A> {
    match p
    case Broken(_) => p
    case Going(adapter, text) =>
      match handler(adapter, event)
      case Raised => Broken(text)
      case Restored(next, more) => Going(next, text + more)
  }

  function HandleAll<A>(handler: Handler<A>, p: Progress<A>, events: seq<seq<Unit>>): Progress<A>
    decreases |events|
  {
    if events == [] then p else HandleAll(handler, Handle(handler, p, events[0]), events[1..])
  }

  lemma {:induction false} HandleAllAppends<A>(
    handler: Handler<A>, p: Progress<A>, a: seq<seq<Unit>>, b: seq<seq<Unit>>)
    ensures HandleAll(handler, p, a + b) == HandleAll(handler, HandleAll(handler, p, a), b)
    decreases |a|
  {
    if a == [] {
      assert a + b == b;
    } else {
      assert (a + b)[0] == a[0] && (a + b)[1..] == a[1..] + b;
      HandleAllAppends(handler, Handle(handler, p, a[0]), a[1..], b);
    }
  }

  lemma {:induction false} BrokenStays<A>(handler: Handler<A>, p: Progress<A>, events: seq<seq<Unit>>)
    requires p.Broken?
    ensures HandleAll(handler, p, events) == p
    decreases |events|
  {
    if events != [] {
      BrokenStays(handler, p, events[1..]);
    }
  }

  function Flush<A>(flusher: Flusher<A>, p: Progress<A>): Progress<A> {
    match p
    case Broken(_) => p
    case Going(adapter, text) =>
      match flusher(adapter)
      case Raised => Broken(text)
      case Restored(next, more) => Going(next, text + more)
  }

  /** The adapters: one event, then at the end the Responses tails and the chat tails. */
  datatype Adapters<!A> = Adapters(event: Handler<A>, responsesTails: Flusher<A>, chatTails: Flusher<A>)

  /** The open rest, if any, is the last event; then the held tails. */
  function Finish<A>(ad: Adapters<A>, p: Progress<A>, rest: seq<Unit>): Progress<A> {
    var last := if rest == [] then p else Handle(ad.event, p, rest);
    Flush(ad.chatTails, Flush(ad.responsesTails, last))
  }

  /** Restoring the whole stream in one piece. */
  function RestoreWhole<A>(ad: Adapters<A>, adapter: A, stream: seq<Unit>): Progress<A> {
    var frames := Split(stream);
    Finish(ad, HandleAll(ad.event, Going(adapter, []), frames.events), frames.rest)
  }

  datatype Stage<A> = Stage(progress: Progress<A>, rest: seq<Unit>)

  /** Feeding the stream chunk by chunk; a broken restorer is fed no more. */
  function FeedChunks<A>(handler: Handler<A>, s: Stage<A>, chunks: seq<seq<Unit>>): Stage<A>
    decreases |chunks|
  {
    if chunks == [] || s.progress.Broken? then s
    else
      var frames := Split(s.rest + chunks[0]);
      FeedChunks(handler, Stage(HandleAll(handler, s.progress, frames.events), frames.rest), chunks[1..])
  }

  lemma {:induction false} FeedChunksHandles<A>(handler: Handler<A>, s: Stage<A>, chunks: seq<seq<Unit>>)
    requires EventEnd(s.rest) == None
    ensures var all := FeedAll(s.rest, chunks);
            var end := FeedChunks(handler, s, chunks);
            && end.progress == HandleAll(handler, s.progress, all.events)
            && (end.progress.Going? ==> end.rest == all.rest)
    decreases |chunks|
  {
    if s.progress.Broken? {
      BrokenStays(handler, s.progress, FeedAll(s.rest, chunks).events);
    } else if chunks != [] {
      var frames := Split(s.rest + chunks[0]);
      SplitEvents(s.rest + chunks[0]);
      FeedChunksHandles(handler, Stage(HandleAll(handler, s.progress, frames.events), frames.rest), chunks[1..]);
      HandleAllAppends(handler, s.progress, frames.events, FeedAll(frames.rest, chunks[1..]).events);
    }
  }

  /** However the stream is cut, the client gets the same restored text: all of it, or, if
      an event cannot be restored, what the events before that one give. */
  lemma {:induction false} RestoredTextIsChunkInvariant<A>(ad: Adapters<A>, adapter: A, chunks: seq<seq<Unit>>)
    ensures var end := FeedChunks(ad.event, Stage(Going(adapter, []), []), chunks);
            Finish(ad, end.progress, end.rest) == RestoreWhole(ad, adapter, Concat(chunks))
  {
    ChunkInvariant(chunks);
    FeedChunksHandles(ad.event, Stage(Going(adapter, []), []), chunks);
  }

  /** Restored text is only ever added to. */
  lemma {:induction false} TextGrows<A>(handler: Handler<A>, p: Progress<A>, events: seq<seq<Unit>>)
    ensures p.text <= HandleAll(handler, p, events).text
    decreases |events|
  {
    if events != [] {
      TextGrows(handler, Handle(handler, p, events[0]), events[1..]);
    }
  }

  // ---- event by event

  /** The adapter goes through these states, and answers each event with this text. */
  ghost predicate Answers<A>(handler: Handler<A>, states: seq<A>, events: seq<seq<Unit>>, texts: seq<seq<Unit>>) {
    && |states| == |events| + 1 && |texts| == |events|
    && forall i, j :: 0 <= i < |events| && j == i + 1 ==> handler(states[i], events[i]) == Restored(states[j], texts[i])
  }

  lemma {:induction false} HandledInTurn<A>(
    handler: Handler<A>, states: seq<A>, events: seq<seq<Unit>>, texts: seq<seq<Unit>>, text: seq<Unit>)
    requires Answers(handler, states, events, texts)
    ensures HandleAll(handler, Going(states[0], text), events) == Going(states[|events|], text + Concat(texts))
    decreases |events|
  {
    if events == [] {
      assert text + [] == text;
    } else {
      assert handler(states[0], events[0]) == Restored(states[1], texts[0]);
      forall i, j | 0 <= i < |events[1..]| && j == i + 1
        ensures handler(states[1..][i], events[1..][i]) == Restored(states[1..][j], texts[1..][i])
      {
        assert handler(states[i + 1], events[i + 1]) == Restored(states[j + 1], texts[i + 1]);
      }
      HandledInTurn(handler, states[1..], events[1..], texts[1..], text + texts[0]);
      Assoc(text, texts[0], Concat(texts[1..]));
    }
  }

  /** The events of a stream that ends: what is still open is the last of them. */
  function EventsOf(events: seq<seq<Unit>>, rest: seq<Unit>): seq<seq<Unit>> {
    if rest == [] then events else events + [rest]
  }

  /** A stream restored whole is its events' answers, in order, and the tails: first the Responses
      adapter's, then the other one's. */
  lemma {:induction false} RestoredEventByEvent<A>(
    ad: Adapters<A>, events: seq<seq<Unit>>, rest: seq<Unit>, states: seq<A>, texts: seq<seq<Unit>>)
    requires CutAtBlankLines(events, rest) && Answers(ad.event, states, EventsOf(events, rest), texts)
    ensures var p := RestoreWhole(ad, states[0], Concat(events) + rest);
            var last := states[|states| - 1];
            match ad.responsesTails(last)
            case Raised => p == Broken(Concat(texts))
            case Restored(next, tail) =>
              match ad.chatTails(next)
              case Raised => p == Broken(Concat(texts) + tail)
              case Restored(end, tail') => p == Going(end, (Concat(texts) + tail) + tail')
  {
    OnlyCut(Concat(events) + rest, events, rest);
    HandledInTurn(ad.event, states, EventsOf(events, rest), texts, []);
    assert [] + Concat(texts) == Concat(texts);
    HandleAllAppends(ad.event, Going(states[0], []), events, [rest]);
    var p := HandleAll(ad.event, Going(states[0], []), events);
    assert HandleAll(ad.event, p, [rest]) == Handle(ad.event, p, rest);
  }

  /** If an event cannot be restored, the client has the answers to those before it, and no tails. */
  lemma {:induction false} BrokenAtAnEvent<A>(
    ad: Adapters<A>, events: seq<seq<Unit>>, rest: seq<Unit>, k: nat, states: seq<A>, texts: seq<seq<Unit>>)
    requires CutAtBlankLines(events, rest) && k < |EventsOf(events, rest)|
    requires Answers(ad.event, states, EventsOf(events, rest)[..k], texts)
    requires ad.event(states[k], EventsOf(events, rest)[k]) == Raised
    ensures RestoreWhole(ad, states[0], Concat(events) + rest) == Broken(Concat(texts))
  {
    var all := EventsOf(events, rest);
    OnlyCut(Concat(events) + rest, events, rest);
    HandledInTurn(ad.event, states, all[..k], texts, []);
    assert [] + Concat(texts) == Concat(texts);
    assert all == all[..k] + all[k..];
    HandleAllAppends(ad.event, Going(states[0], []), all[..k], all[k..]);
    BrokenStays(ad.event, Broken(Concat(texts)), all[k + 1..]);
    assert all[k..][1..] == all[k + 1..];
    HandleAllAppends(ad.event, Going(states[0], []), events, [rest]);
    var p := HandleAll(ad.event, Going(states[0], []), events);
    assert HandleAll(ad.event, p, [rest]) == Handle(ad.event, p, rest);
  }

  // ---- the object

  class Restorer<A> {
    const adapters: Adapters<A>
    var buffer: seq<Unit>
    var ready: seq<Unit>
    var adapter: A

    constructor (adapters: Adapters<A>, adapter: A)
      ensures this.adapters == adapters
      ensures buffer == [] && ready == [] && this.adapter == adapter
    {
      this.adapters, this.adapter := adapters, adapter;
      buffer, ready := [], [];
    }

    /** Handles the events the chunk completes. What the earlier ones gave is kept when one
        of them cannot be restored. */
    method Feed(chunk: seq<Unit>) returns (ok: bool)
      modifies this
      ensures var frames := Split(old(buffer) + chunk);
              && HandleAll(adapters.event, Going(old(adapter), old(ready)), frames.events)
                 == (if ok then Going(adapter, ready) else Broken(ready))
              && (ok ==> buffer == frames.rest)
    {
      buffer := buffer + chunk;
      ghost var frames := Split(buffer);
      ghost var whole := HandleAll(adapters.event, Going(adapter, ready), frames.events);
      while EventEnd(buffer).Some?
        invariant Split(buffer).rest == frames.rest
        invariant HandleAll(adapters.event, Going(adapter, ready), Split(buffer).events) == whole
        decreases |buffer|
      {
        var end := EventEnd(buffer).value;
        var event := buffer[..end];
        ghost var after := Split(buffer[end..]).events;
        assert ([event] + after)[1..] == after;
        buffer := buffer[end..];
        match adapters.event(adapter, event) {
          case Raised =>
            BrokenStays(adapters.event, Broken(ready), after);
            return false;
          case Restored(next, text) =>
            adapter, ready := next, ready + text;
        }
      }
      return true;
    }

    method FlushTails() returns (ok: bool)
      modifies this
      ensures Finish(adapters, Going(old(adapter), old(ready)), old(buffer))
              == (if ok then Going(adapter, ready) else Broken(ready))
      ensures buffer == []
    {
      var event := buffer;
      buffer := [];
      if event != [] {
        match adapters.event(adapter, event) {
          case Raised => return false;
          case Restored(next, text) => adapter, ready := next, ready + text;
        }
      }
      match adapters.responsesTails(adapter) {
        case Raised => return false;
        case Restored(next, text) => adapter, ready := next, ready + text;
      }
      match adapters.chatTails(adapter) {
        case Raised => return false;
        case Restored(next, text) => adapter, ready := next, ready + text;
      }
      return true;
    }

    method Take() returns (text: seq<Unit>)
      modifies this`ready
      ensures text == old(ready) && ready == []
    {
      text := ready;
      ready := [];
    }
  }
}
