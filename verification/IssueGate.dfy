/**
  Token issuance behind its two bounds: a cap on the requests being served, and a token
  bucket on their rate. Tokens and times are real numbers; the clock never runs backwards.
 */
module IssueGate {

  // ---- the bucket

  datatype Bucket = Bucket(tokens: real, at: real)

  /** How much it holds, and how much flows in a second. */
  datatype Flow = Flow(capacity: real, rate: real)

  function PerMinute(n: int): Flow { Flow(n as real, n as real / 60.0) }

  /** An empty bucket is full again after exactly a minute. */
  lemma {:induction false} MinuteRefills(n: int, at: real, now: real)
    requires n > 0 && at <= now
    ensures PerMinute(n).capacity == n as real
    ensures Refilled(PerMinute(n), Bucket(0.0, at), now) == n as real <==> now >= at + 60.0
  {
    var rate := n as real / 60.0;
    assert 60.0 * rate == n as real;
    if now < at + 60.0 {
      Flows(rate, at, now, at + 60.0);
      Product(rate, at + 60.0 - now);
    } else {
      Flows(rate, at, at + 60.0, now);
    }
  }

  lemma {:induction false} Product(x: real, y: real)
    requires x > 0.0 && y > 0.0
    ensures x * y > 0.0
  {
  }

  function Refilled(f: Flow, b: Bucket, now: real): real {
    var more := b.tokens + (now - b.at) * f.rate;
    if more < f.capacity then more else f.capacity
  }

  predicate Grants(f: Flow, b: Bucket, now: real) { Refilled(f, b, now) >= 1.0 }

  function Taken(f: Flow, b: Bucket, now: real): Bucket {
    Bucket(Refilled(f, b, now) - (if Grants(f, b, now) then 1.0 else 0.0), now)
  }

  class TokenBucket {
    const capacity: real
    const perSecond: real
    var tokens: real
    var at: real

    constructor (perMinute: int, now: real)
      ensures Through() == PerMinute(perMinute) && Abs() == Bucket(capacity, now)
    {
      capacity := perMinute as real;
      perSecond := perMinute as real / 60.0;
      tokens := perMinute as real;
      at := now;
    }

    ghost function Abs(): Bucket
      reads this
    {
      Bucket(tokens, at)
    }

    ghost function Through(): Flow { Flow(capacity, perSecond) }

    method Take(now: real) returns (granted: bool)
      modifies this
      ensures granted == Grants(Through(), old(Abs()), now) && Abs() == Taken(Through(), old(Abs()), now)
    {
      var more := tokens + (now - at) * perSecond;
      tokens := if more < capacity then more else capacity;
      at := now;
      assert tokens == Refilled(Through(), old(Abs()), now);
      if tokens < 1.0 {
        return false;
      }
      tokens := tokens - 1.0;
      return true;
    }
  }

  // ---- the gate

  datatype Verdict = Admitted | Busy | Throttled

  class Gate {
    const maxInflight: int
    const bucket: TokenBucket
    var inflight: int

    constructor (maxInflight: int, bucket: TokenBucket)
      ensures this.maxInflight == maxInflight && this.bucket == bucket && inflight == 0
    {
      this.maxInflight, this.bucket, inflight := maxInflight, bucket, 0;
    }

    /** A request comes in. The cap is looked at first, so that a request refused for it spends
        no token. */
    method Arrive(now: real) returns (verdict: Verdict)
      modifies this, bucket
      ensures verdict.Busy? <==> old(inflight) >= maxInflight
      ensures verdict.Busy? ==> inflight == old(inflight) && bucket.Abs() == old(bucket.Abs())
      ensures !verdict.Busy? ==> bucket.Abs() == Taken(bucket.Through(), old(bucket.Abs()), now)
      ensures !verdict.Busy? ==> (verdict.Admitted? <==> Grants(bucket.Through(), old(bucket.Abs()), now))
      ensures inflight == old(inflight) + (if verdict.Admitted? then 1 else 0)
    {
      if inflight >= maxInflight {
        return Busy;
      }
      var granted := bucket.Take(now);
      if !granted {
        return Throttled;
      }
      inflight := inflight + 1;
      return Admitted;
    }

    /** A request leaves, however it ended. */
    method Leave()
      modifies this
      ensures inflight == old(inflight) - 1
    {
      inflight := inflight - 1;
    }
  }

  // ---- runs

  type Request = nat

  datatype Bounds = Bounds(maxInflight: int, flow: Flow) {
    predicate Positive() { maxInflight > 0 && flow.capacity > 0.0 && flow.rate > 0.0 }
  }

  datatype System = System(bucket: Bucket, inflight: int, serving: set<Request>, clock: real, admitted: seq<real>)

  datatype Action = Arrives(request: Request, now: real) | Leaves(request: Request, now: real)

  predicate Enabled(s: System, a: Action) {
    s.clock <= a.now && (a.request in s.serving <==> a.Leaves?)
  }

  function Next(w: Bounds, s: System, a: Action): System {
    if a.Leaves? then s.(inflight := s.inflight - 1, serving := s.serving - {a.request}, clock := a.now)
    else if s.inflight >= w.maxInflight then s.(clock := a.now)
    else if !Grants(w.flow, s.bucket, a.now) then s.(bucket := Taken(w.flow, s.bucket, a.now), clock := a.now)
    else System(Taken(w.flow, s.bucket, a.now), s.inflight + 1, s.serving + {a.request}, a.now, s.admitted + [a.now])
  }

  /** How many of the times are in [from, to]. */
  function Within(times: seq<real>, from: real, to: real): nat {
    if times == [] then 0
    else Within(times[..|times| - 1], from, to) + (if from <= times[|times| - 1] <= to then 1 else 0)
  }

  lemma {:induction false} WithinOneMore(times: seq<real>, now: real, from: real, to: real)
    ensures Within(times + [now], from, to) == Within(times, from, to) + (if from <= now <= to then 1 else 0)
  {
    assert (times + [now])[..|times|] == times;
  }

  ghost predicate Counted(w: Bounds, s: System) {
    s.inflight == |s.serving| && s.inflight <= w.maxInflight
  }

  ghost predicate Filled(w: Bounds, s: System) {
    && 0.0 <= s.bucket.tokens <= w.flow.capacity && s.bucket.at <= s.clock
    && forall i :: 0 <= i < |s.admitted| ==> s.admitted[i] <= s.bucket.at
  }

  /** What has been let through from `from` on, with what is left in the bucket, is no more than
      a full bucket and what has flowed in since. */
  ghost predicate Budget(f: Flow, b: Bucket, n: nat, from: real, to: real) {
    && (b.at < from ==> n == 0)
    && (from <= b.at <= to ==> n as real + b.tokens <= f.capacity + (b.at - from) * f.rate)
    && (to < b.at ==> n as real <= f.capacity + (to - from) * f.rate)
  }

  ghost predicate Invariant(w: Bounds, s: System) {
    && Counted(w, s) && Filled(w, s)
    && forall from, to :: from <= to ==> Budget(w.flow, s.bucket, Within(s.admitted, from, to), from, to)
  }

  lemma {:induction false} Flows(rate: real, a: real, b: real, c: real)
    requires rate >= 0.0 && a <= b <= c
    ensures (b - a) * rate + (c - b) * rate == (c - a) * rate
    ensures 0.0 <= (b - a) * rate && 0.0 <= (c - b) * rate && 0.0 <= (c - a) * rate
  {
  }

  lemma {:induction false} TakeStaysFilled(f: Flow, b: Bucket, now: real)
    requires f.capacity > 0.0 && f.rate > 0.0 && 0.0 <= b.tokens && b.at <= now
    ensures 0.0 <= Taken(f, b, now).tokens <= f.capacity
  {
    Flows(f.rate, b.at, b.at, now);
    var x := (now - b.at) * f.rate;
    assert Refilled(f, b, now) == if b.tokens + x < f.capacity then b.tokens + x else f.capacity;
  }

  /** One take, at `now`: `n` were let through in the window before it. */
  lemma {:induction false} TakeStaysInBudget(f: Flow, b: Bucket, now: real, n: nat, from: real, to: real)
    requires f.capacity > 0.0 && f.rate > 0.0 && 0.0 <= b.tokens && b.at <= now && from <= to
    requires Budget(f, b, n, from, to)
    ensures Budget(f, Taken(f, b, now), n + (if Grants(f, b, now) && from <= now <= to then 1 else 0), from, to)
  {
    if now < from {
    } else if now <= to {
      if b.at < from {
        Flows(f.rate, from, from, now);
      } else {
        Flows(f.rate, from, b.at, now);
      }
    } else if b.at < from {
      Flows(f.rate, from, from, to);
    } else if b.at <= to {
      Flows(f.rate, from, b.at, to);
    }
  }

  lemma {:induction false} StepKeeps(w: Bounds, s: System, a: Action)
    requires w.Positive() && Invariant(w, s) && Enabled(s, a)
    ensures Invariant(w, Next(w, s, a))
  {
    var t := Next(w, s, a);
    if a.Arrives? && s.inflight < w.maxInflight {
      TakeStaysFilled(w.flow, s.bucket, a.now);
      forall from, to | from <= to
        ensures Budget(w.flow, t.bucket, Within(t.admitted, from, to), from, to)
      {
        WithinOneMore(s.admitted, a.now, from, to);
        TakeStaysInBudget(w.flow, s.bucket, a.now, Within(s.admitted, from, to), from, to);
      }
    }
  }

  ghost predicate Step(w: Bounds, s: System, a: Action, t: System) { Enabled(s, a) && t == Next(w, s, a) }

  ghost predicate IsRun(w: Bounds, start: real, states: seq<System>, actions: seq<Action>) {
    && |states| == |actions| + 1
    && states[0] == System(Bucket(w.flow.capacity, start), 0, {}, start, [])
    && forall i, j :: 0 <= i < |actions| && j == i + 1 ==> Step(w, states[i], actions[i], states[j])
  }

  lemma {:induction false} StartOk(w: Bounds, start: real)
    requires w.Positive()
    ensures Invariant(w, System(Bucket(w.flow.capacity, start), 0, {}, start, []))
  {
    forall from, to | from <= to
      ensures Budget(w.flow, Bucket(w.flow.capacity, start), Within([], from, to), from, to)
    {
      Flows(w.flow.rate, from, from, to);
      if from <= start {
        Flows(w.flow.rate, from, from, start);
      }
    }
  }

  lemma {:induction false} RunInvariant(w: Bounds, start: real, states: seq<System>, actions: seq<Action>, i: nat)
    requires w.Positive() && IsRun(w, start, states, actions) && i < |states|
    ensures Invariant(w, states[i])
  {
    if i == 0 {
      StartOk(w, start);
    } else {
      RunInvariant(w, start, states, actions, i - 1);
      assert Step(w, states[i - 1], actions[i - 1], states[i - 1 + 1]);
      StepKeeps(w, states[i - 1], actions[i - 1]);
    }
  }

  /** In any window of time, of any run, no more requests are let through than a full bucket and
      what flows into it in that time. */
  lemma {:induction false} AdmissionsAreBounded(
    w: Bounds, start: real, states: seq<System>, actions: seq<Action>, i: nat, from: real, to: real)
    requires w.Positive() && IsRun(w, start, states, actions) && i < |states| && from <= to
    ensures Within(states[i].admitted, from, to) as real <= w.flow.capacity + (to - from) * w.flow.rate
  {
    RunInvariant(w, start, states, actions, i);
    var s := states[i];
    assert Budget(w.flow, s.bucket, Within(s.admitted, from, to), from, to);
    Flows(w.flow.rate, from, from, to);
    if from <= s.bucket.at <= to {
      Flows(w.flow.rate, from, s.bucket.at, to);
    }
  }

  // ---- and no fewer

  /** What is left at `now` of a bucket that was full at `full` and has not run over since. */
  function Left(f: Flow, admitted: seq<real>, full: real, now: real): real {
    f.capacity + (now - full) * f.rate - Within(admitted, full, now) as real
  }

  ghost predicate FullAt(f: Flow, b: Bucket, admitted: seq<real>, full: real) {
    full <= b.at && b.tokens == Left(f, admitted, full, b.at)
  }

  ghost predicate FullOnce(f: Flow, b: Bucket, admitted: seq<real>) {
    exists full :: FullAt(f, b, admitted, full)
  }

  lemma {:induction false} WithinLater(times: seq<real>, from: real, at: real, to: real)
    requires at <= to && forall i :: 0 <= i < |times| ==> times[i] <= at
    ensures Within(times, from, to) == if at < from then 0 else Within(times, from, at)
  {
    if times != [] {
      WithinLater(times[..|times| - 1], from, at, to);
    }
  }

  lemma {:induction false} Passed(rate: real, at: real, now: real)
    requires rate > 0.0 && (now - at) * rate > 0.0
    ensures at < now
  {
    if now <= at {
      Flows(rate, now, now, at);
    }
  }

  /** Just before a take: either nothing has run over since `full`, or the bucket is full now. */
  lemma {:induction false} BeforeTake(f: Flow, b: Bucket, admitted: seq<real>, full: real, now: real)
    returns (since: real)
    requires f.rate > 0.0 && b.tokens <= f.capacity && b.at <= now && FullAt(f, b, admitted, full)
    requires forall i :: 0 <= i < |admitted| ==> admitted[i] <= b.at
    ensures since <= now && Refilled(f, b, now) == Left(f, admitted, since, now)
  {
    var x := (now - b.at) * f.rate;
    if b.tokens + x <= f.capacity {
      since := full;
      Flows(f.rate, full, b.at, now);
      WithinLater(admitted, full, b.at, now);
    } else {
      since := now;
      Passed(f.rate, b.at, now);
      WithinLater(admitted, now, b.at, now);
    }
  }

  /** Just after one: `r` was there. */
  lemma {:induction false} AfterTake(f: Flow, r: real, admitted: seq<real>, since: real, now: real)
    requires since <= now && r == Left(f, admitted, since, now)
    ensures FullAt(f, Bucket(r, now), admitted, since) && FullAt(f, Bucket(r - 1.0, now), admitted + [now], since)
  {
    WithinOneMore(admitted, now, since, now);
  }

  lemma {:induction false} TakeKeepsFull(f: Flow, b: Bucket, admitted: seq<real>, now: real)
    requires f.rate > 0.0 && b.tokens <= f.capacity && b.at <= now && FullOnce(f, b, admitted)
    requires forall i :: 0 <= i < |admitted| ==> admitted[i] <= b.at
    ensures FullOnce(f, Taken(f, b, now), if Grants(f, b, now) then admitted + [now] else admitted)
  {
    var full :| FullAt(f, b, admitted, full);
    var since := BeforeTake(f, b, admitted, full, now);
    AfterTake(f, Refilled(f, b, now), admitted, since, now);
  }

  lemma {:induction false} RunFull(w: Bounds, start: real, states: seq<System>, actions: seq<Action>, i: nat)
    requires w.Positive() && IsRun(w, start, states, actions) && i < |states|
    ensures Invariant(w, states[i]) && FullOnce(w.flow, states[i].bucket, states[i].admitted)
  {
    RunInvariant(w, start, states, actions, i);
    if i == 0 {
      assert FullAt(w.flow, states[0].bucket, [], start);
    } else {
      RunFull(w, start, states, actions, i - 1);
      assert Step(w, states[i - 1], actions[i - 1], states[i - 1 + 1]);
      StepKeepsFull(w, states[i - 1], actions[i - 1]);
    }
  }

  lemma {:induction false} StepKeepsFull(w: Bounds, s: System, a: Action)
    requires w.Positive() && Filled(w, s) && Enabled(s, a) && FullOnce(w.flow, s.bucket, s.admitted)
    ensures FullOnce(w.flow, Next(w, s, a).bucket, Next(w, s, a).admitted)
  {
    if a.Arrives? && s.inflight < w.maxInflight {
      TakeKeepsFull(w.flow, s.bucket, s.admitted, a.now);
    }
  }

  /** One request more, at `now`, is within the bound over the window from `from` on. */
  ghost predicate HasRoom(f: Flow, admitted: seq<real>, from: real, now: real) {
    Within(admitted, from, now) as real + 1.0 <= f.capacity + (now - from) * f.rate
  }

  /** And over every window that ends then. */
  ghost predicate Affordable(f: Flow, admitted: seq<real>, now: real) {
    forall from :: from <= now ==> HasRoom(f, admitted, from, now)
  }

  lemma {:induction false} GrantHasRoom(f: Flow, b: Bucket, admitted: seq<real>, from: real, now: real)
    requires f.capacity > 0.0 && f.rate > 0.0 && 0.0 <= b.tokens && b.at <= now && from <= now
    requires Budget(f, b, Within(admitted, from, now), from, now) && Grants(f, b, now)
    ensures HasRoom(f, admitted, from, now)
  {
    TakeStaysFilled(f, b, now);
    TakeStaysInBudget(f, b, now, Within(admitted, from, now), from, now);
  }

  lemma {:induction false} RoomIsLeft(f: Flow, admitted: seq<real>, from: real, now: real)
    ensures HasRoom(f, admitted, from, now) <==> Left(f, admitted, from, now) >= 1.0
  {
  }

  /** The window that begins when the bucket was last full has no room for a request it refuses. */
  lemma {:induction false} AffordableIsGranted(f: Flow, b: Bucket, admitted: seq<real>, now: real)
    requires f.rate > 0.0 && b.tokens <= f.capacity && b.at <= now && FullOnce(f, b, admitted)
    requires forall i :: 0 <= i < |admitted| ==> admitted[i] <= b.at
    requires Affordable(f, admitted, now)
    ensures Grants(f, b, now)
  {
    var full :| FullAt(f, b, admitted, full);
    var since := BeforeTake(f, b, admitted, full, now);
    RoomIsLeft(f, admitted, since, now);
    assert HasRoom(f, admitted, since, now);
  }

  /** Neither too strict nor too lax: a request the cap does not refuse is let through if and only
      if that keeps to the bound over every window that ends with it. */
  lemma {:induction false} AdmissionIsExact(w: Bounds, start: real, states: seq<System>, actions: seq<Action>, i: nat)
    requires w.Positive() && IsRun(w, start, states, actions) && i < |actions|
    requires actions[i].Arrives? && states[i].inflight < w.maxInflight
    ensures actions[i].request in states[i + 1].serving <==> Affordable(w.flow, states[i].admitted, actions[i].now)
  {
    RunFull(w, start, states, actions, i);
    assert Step(w, states[i], actions[i], states[i + 1]);
    ArrivalIsExact(w, states[i], actions[i]);
  }

  lemma {:induction false} ArrivalIsExact(w: Bounds, s: System, a: Action)
    requires w.Positive() && Invariant(w, s) && FullOnce(w.flow, s.bucket, s.admitted)
    requires Enabled(s, a) && a.Arrives? && s.inflight < w.maxInflight
    ensures a.request in Next(w, s, a).serving <==> Affordable(w.flow, s.admitted, a.now)
  {
    if Grants(w.flow, s.bucket, a.now) {
      forall from | from <= a.now
        ensures HasRoom(w.flow, s.admitted, from, a.now)
      {
        GrantHasRoom(w.flow, s.bucket, s.admitted, from, a.now);
      }
    } else if Affordable(w.flow, s.admitted, a.now) {
      AffordableIsGranted(w.flow, s.bucket, s.admitted, a.now);
    }
  }

  /** The counter is the number of requests being served, never over the cap; the bucket never
      holds less than nothing or more than it can. */
  lemma {:induction false} CounterIsExact(w: Bounds, start: real, states: seq<System>, actions: seq<Action>, i: nat)
    requires w.Positive() && IsRun(w, start, states, actions) && i < |states|
    ensures states[i].inflight == |states[i].serving| <= w.maxInflight
    ensures 0.0 <= states[i].bucket.tokens <= w.flow.capacity
  {
    RunInvariant(w, start, states, actions, i);
  }

  /** A request refused for the cap spends no token, and takes no place. */
  lemma {:induction false} BusySpendsNothing(w: Bounds, start: real, states: seq<System>, actions: seq<Action>, i: nat)
    requires w.Positive() && IsRun(w, start, states, actions) && i < |actions|
    requires actions[i].Arrives? && |states[i].serving| == w.maxInflight
    ensures states[i + 1] == states[i].(clock := actions[i].now)
  {
    RunInvariant(w, start, states, actions, i);
    assert Step(w, states[i], actions[i], states[i + 1]);
  }
}
