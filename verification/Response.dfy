/**
  One response on its way to the client: withheld and restored whole (unary JSON), restored
  event by event (a stream), or passed through.

  A call of `send` runs up to its first await at once and fixes the messages it will send;
  that list is its plan. Between two of its sends the ticket can close, and the call can be
  cut short. The code after an await never looks at the mode again, so the plan stands.
 */
module Response {
  import opened Wrappers
  import opened Seqs
  import opened SseFraming
  import opened SseRestorer
  import Usage = UsageTap

  datatype Content = EventStream | Json | OtherContent

  datatype Header = ContentLength(n: nat) | Plain(name: string)

  /** `identity` says the body is not content-encoded. */
  datatype Start = Start(status: int, content: Content, identity: bool, headers: seq<Header>)

  datatype AppMessage = AppStart(start: Start) | AppBody(bytes: seq<Unit>, more: bool)

  datatype Out = OutStart(status: int, headers: seq<Header>) | OutBody(bytes: seq<Unit>, more: bool)

  datatype Mode = Unstarted | Pass | Unary | Sse | Closed

  /** What the response is served with. A restorer that cannot be built has no adapter. */
  datatype Config<!A> = Config(
    adapters: Adapters<A>,
    adapter: Option<A>,
    restoreJson: seq<Unit> -> Option<seq<Unit>>,
    artifact: Usage.Artifact,
    dropsUsage: bool,
    errorBody: seq<Unit>)

  /** `store` is the mapping held for the ticket: Some(false) is one without pairs. */
  datatype State<A> = State(
    mode: Mode,
    store: Option<bool>,
    start: Option<Start>,
    body: seq<Unit>,
    stage: Option<Stage<A>>,
    tap: Option<Usage.Tap>)

  datatype Reaction<A> = Reaction(state: State<A>, plan: seq<Out>)

  function CloseResponse<A>(s: State<A>): State<A> {
    State(Closed, None, None, [], None, None)
  }

  function WithoutLength(headers: seq<Header>): (r: seq<Header>)
    ensures forall h :: h in r <==> h in headers && !h.ContentLength?
  {
    if headers == [] then []
    else (if headers[0].ContentLength? then [] else [headers[0]]) + WithoutLength(headers[1..])
  }

  predicate Success(status: int) { 200 <= status < 300 }

  function InternalError<A>(cfg: Config<A>, s: State<A>): Reaction<A> {
    Reaction(CloseResponse(s),
             [OutStart(500, [Plain("content-type"), ContentLength(|cfg.errorBody|)]),
              OutBody(cfg.errorBody, false)])
  }

  function OnStart<A>(cfg: Config<A>, s: State<A>, start: Start): Reaction<A> {
    var asIs := [OutStart(start.status, start.headers)];
    var stripped := [OutStart(start.status, WithoutLength(start.headers))];
    if s.store != Some(true) || !Success(start.status) || !start.identity then
      var tap := if Success(start.status) && start.identity && start.content == EventStream
                 then Some(Usage.Tap(cfg.dropsUsage, [], false, [])) else None;
      Reaction(s.(mode := Pass, store := None, tap := tap), if tap.Some? && tap.value.drops then stripped else asIs)
    else
      match start.content
      case EventStream =>
        (match cfg.adapter
         case None => InternalError(cfg, s)
         case Some(adapter) => Reaction(s.(mode := Sse, stage := Some(Stage(Going(adapter, []), []))), stripped))
      case Json => Reaction(s.(mode := Unary, start := Some(start)), [])
      case OtherContent => Reaction(s.(mode := Pass, store := None), asIs)
  }

  function FinishUnary<A>(cfg: Config<A>, s: State<A>, start: Start): Reaction<A> {
    match cfg.restoreJson(s.body)
    case None => InternalError(cfg, s)
    case Some(body) =>
      Reaction(CloseResponse(s),
               [OutStart(start.status, WithoutLength(start.headers) + [ContentLength(|body|)]), OutBody(body, false)])
  }

  /** The restorer after one more chunk, and at the end its flush. */
  function Advance<A>(cfg: Config<A>, stage: Stage<A>, chunk: seq<Unit>, more: bool): Stage<A> {
    var fed := FeedChunks(cfg.adapters.event, stage, [chunk]);
    if more then fed else Stage(Finish(cfg.adapters, fed.progress, fed.rest), [])
  }

  /** What `take()` hands out: the text restored since the last one. */
  function NewText<A>(before: Stage<A>, after: Stage<A>): seq<Unit> {
    if |before.progress.text| <= |after.progress.text| then after.progress.text[|before.progress.text|..] else []
  }

  function OnSse<A>(cfg: Config<A>, s: State<A>, stage: Stage<A>, chunk: seq<Unit>, more: bool): Reaction<A> {
    var after := Advance(cfg, stage, chunk, more);
    var out := NewText(stage, after);
    if after.progress.Broken? then
      Reaction(CloseResponse(s), (if out == [] then [] else [OutBody(out, true)]) + [OutBody([], false)])
    else if !more then Reaction(CloseResponse(s), [OutBody(out, false)])
    else Reaction(s.(stage := Some(after)), [OutBody(out, true)])
  }

  function OnPass<A>(cfg: Config<A>, s: State<A>, bytes: seq<Unit>, more: bool): Reaction<A> {
    var fed := match s.tap
               case Some(tap) =>
                 var f := Usage.Feed(cfg.artifact, tap, bytes, !more);
                 (Some(f.tap), if tap.drops then f.out else bytes)
               case None => (None, bytes);
    Reaction(if more then s.(tap := fed.0) else CloseResponse(s), [OutBody(fed.1, more)])
  }

  /** One `send` of the app. */
  function OnMessage<A>(cfg: Config<A>, s: State<A>, m: AppMessage): Reaction<A> {
    if s.mode == Closed then Reaction(s, [])
    else
      match m
      case AppStart(start) => OnStart(cfg, s, start)
      case AppBody(bytes, more) =>
        match s.mode
        case Unstarted => Reaction(s, [OutBody(bytes, more)])
        case Pass => OnPass(cfg, s, bytes, more)
        case Unary =>
          var gathered := s.(body := s.body + bytes);
          if !more && s.start.Some? then FinishUnary(cfg, gathered, s.start.value) else Reaction(gathered, [])
        case _ =>
          match s.stage
          case Some(stage) => OnSse(cfg, s, stage, bytes, more)
          case None => Reaction(s, [])
  }

  /** The app raised: the restored tails of a stream still go out. */
  function OnAppFailed<A>(cfg: Config<A>, s: State<A>): Reaction<A> {
    var tail := if s.mode == Sse && s.stage.Some? then
                  NewText(s.stage.value, Stage(Finish(cfg.adapters, s.stage.value.progress, s.stage.value.rest), []))
                else [];
    Reaction(CloseResponse(s), if tail == [] then [] else [OutBody(tail, true)])
  }

  // ---- every run

  /** `Gone`: a call of the app was cut short, and it sends no more. `Over`: it has raised. */
  datatype Phase = BeforeStart | Streaming | Finished | Gone | Over

  datatype System<A> = System(state: State<A>, plan: seq<Out>, sent: seq<Out>, phase: Phase)

  datatype Action =
    | Register(pairs: bool)      // the pre-call offers a mapping for the ticket
    | AppSends(m: AppMessage)
    | AppFails                   // the app raises, between two calls or at an await of one
    | Emit                       // the running call's next send succeeds
    | Close                      // the ticket closes, or the request unwinds
    | Cut                        // the running call is cut short at an await

  function Init<A>(): System<A> {
    System(State(Unstarted, None, None, [], None, None), [], [], BeforeStart)
  }

  /** An ASGI app sends one start, then bodies, the last one marked; one call at a time. */
  predicate Enabled<A>(s: System<A>, a: Action) {
    match a
    case Register(_) => s.phase == BeforeStart && s.state.mode == Unstarted
    case AppSends(AppStart(_)) => s.plan == [] && s.phase == BeforeStart
    case AppSends(AppBody(_, _)) => s.plan == [] && s.phase == Streaming
    case AppFails => s.phase != Over
    case Emit => s.plan != []
    case Close => true
    case Cut => true
  }

  function Next<A>(cfg: Config<A>, s: System<A>, a: Action): System<A>
    requires Enabled(s, a)
  {
    match a
    case Register(pairs) => s.(state := s.state.(store := Some(pairs)))
    case AppSends(m) =>
      var r := OnMessage(cfg, s.state, m);
      s.(state := r.state, plan := r.plan, phase := if m.AppBody? && !m.more then Finished else Streaming)
    case AppFails =>
      var r := OnAppFailed(cfg, s.state);
      s.(state := r.state, plan := r.plan, phase := Over)
    case Emit => s.(sent := s.sent + [s.plan[0]], plan := s.plan[1..])
    case Close => s.(state := CloseResponse(s.state))
    case Cut => s.(plan := [], phase := if s.phase == Over then Over else Gone)
  }

  /** A prefix of: one start, bodies with more to come, one final body. */
  ghost predicate Conforming(messages: seq<Out>) {
    forall i :: 0 <= i < |messages| ==>
      && (messages[i].OutStart? <==> i == 0)
      && (messages[i].OutBody? && !messages[i].more ==> i == |messages| - 1)
  }

  predicate Final(m: Out) { m.OutBody? && !m.more }

  ghost predicate Ended(messages: seq<Out>) {
    messages != [] && Final(messages[|messages| - 1])
  }

  /** The restorer of a stream nothing has been fed to yet, and what its flush gives. */
  function Unfed<A>(adapter: A): Stage<A> { Stage(Going(adapter, []), []) }

  function UnfedTails<A>(cfg: Config<A>): seq<Unit> {
    if cfg.adapter.None? then [] else Finish(cfg.adapters, Going(cfg.adapter.value, []), []).text
  }

  /** The app raises before the start of a stream went out, and the flush gives something:
      that goes out with no start before it. */
  ghost predicate Loose<A>(cfg: Config<A>, s: System<A>, a: Action) {
    a.AppFails? && s.sent == [] && OnAppFailed(cfg, s.state).plan != []
  }

  /** What each mode holds: a closed response holds nothing any more. */
  ghost predicate StateOk<A>(s: State<A>) {
    && (s.mode == Unary ==> s.start.Some?)
    && (s.mode == Sse ==> s.stage.Some?)
    && (s.mode == Pass ==> s.store == None)
    && (s.mode == Closed ==> s == CloseResponse(s))
  }

  ghost predicate PhaseOk<A>(s: System<A>) {
    var all := s.sent + s.plan;
    // Nothing goes out before the start is decided; an open response has not ended.
    && (s.state.mode in {Unstarted, Unary} ==> all == [])
    && (s.state.mode in {Pass, Sse} ==> !Ended(all) && (all != [] || s.phase == Gone))
    && (s.phase == BeforeStart ==> s.state.mode in {Unstarted, Closed} && all == [])
    && (s.phase == Streaming ==> s.state.mode != Unstarted)
    && (s.phase in {Finished, Over} ==> s.state.mode == Closed)
    // A final body, planned or sent, finds the mapping released.
    && (Ended(all) ==> s.state.store == None)
  }

  ghost predicate Invariant<A>(cfg: Config<A>, s: System<A>, loose: bool) {
    var all := s.sent + s.plan;
    && StateOk(s.state) && PhaseOk(s)
    && (s.state.mode == Sse && s.sent == [] ==> cfg.adapter.Some? && s.state.stage == Some(Unfed(cfg.adapter.value)))
    && if loose then s.phase == Over && (all == [] || all == [OutBody(UnfedTails(cfg), true)]) && UnfedTails(cfg) != []
       else Conforming(all)
  }

  /** A planned sequence that continues an open response. */
  ghost predicate Continues(plan: seq<Out>) {
    forall i :: 0 <= i < |plan| ==> plan[i].OutBody? && (!plan[i].more ==> i == |plan| - 1)
  }

  lemma {:induction false} ContinuedConforms(sent: seq<Out>, plan: seq<Out>)
    requires Conforming(sent) && sent != [] && !Final(sent[|sent| - 1]) && Continues(plan)
    ensures Conforming(sent + plan)
  {
  }

  /** What a send plans: from the first start on it continues what went out before, it ends
      the response only after letting go of the mapping, and it keeps an open one open. */
  ghost predicate Planned<A>(before: State<A>, r: Reaction<A>) {
    var ends := r.plan != [] && Final(r.plan[|r.plan| - 1]);
    && (before.mode in {Pass, Sse} ==> Continues(r.plan))
    && (before.mode in {Unstarted, Unary} ==> Conforming(r.plan))
    && (ends ==> r.state.mode == Closed)
    && (r.state.mode in {Unstarted, Unary} ==> r.plan == [] && before.mode in {Unstarted, Unary})
    && (r.state.mode in {Pass, Sse} ==> r.plan != [] && !ends)
    && StateOk(r.state)
  }

  lemma {:induction false} SendsPlanned<A>(cfg: Config<A>, s: State<A>, m: AppMessage)
    requires StateOk(s)
    requires if m.AppStart? then s.mode == Unstarted else s.mode in {Pass, Unary, Sse}
    ensures Planned(s, OnMessage(cfg, s, m))
    ensures m.AppBody? && !m.more ==> OnMessage(cfg, s, m).state.mode == Closed
  {
  }

  lemma {:induction false} StartIsUnfed<A>(cfg: Config<A>, s: State<A>, start: Start)
    requires s.mode == Unstarted
    ensures var r := OnMessage(cfg, s, AppStart(start)).state;
            r.mode == Sse ==> cfg.adapter.Some? && r.stage == Some(Unfed(cfg.adapter.value))
  {
  }

  lemma {:induction false} AppSendsKeeps<A>(cfg: Config<A>, s: System<A>, m: AppMessage)
    requires Invariant(cfg, s, false) && Enabled(s, AppSends(m))
    ensures Invariant(cfg, Next(cfg, s, AppSends(m)), false)
  {
    assert s.sent + s.plan == s.sent;
    if s.state.mode == Closed {
      assert s.sent + [] == s.sent;
    } else {
      SendsPlanned(cfg, s.state, m);
      if m.AppStart? {
        StartIsUnfed(cfg, s.state, m.start);
      }
      PlanAdded(s, OnMessage(cfg, s.state, m));
    }
  }

  lemma {:induction false} PlanAdded<A>(s: System<A>, r: Reaction<A>)
    requires StateOk(s.state) && PhaseOk(s) && s.plan == [] && s.phase != Gone && Conforming(s.sent)
    requires s.state.mode != Closed && Planned(s.state, r)
    ensures Conforming(s.sent + r.plan)
    ensures r.state.mode in {Unstarted, Unary} ==> s.sent + r.plan == []
    ensures r.state.mode in {Pass, Sse} ==> s.sent + r.plan != [] && !Ended(s.sent + r.plan)
    ensures Ended(s.sent + r.plan) ==> r.state.mode == Closed
  {
    assert s.sent + s.plan == s.sent;
    if s.state.mode in {Pass, Sse} {
      ContinuedConforms(s.sent, r.plan);
      assert r.plan != [] ==> (s.sent + r.plan)[|s.sent + r.plan| - 1] == r.plan[|r.plan| - 1];
    } else {
      assert s.sent + r.plan == r.plan;
    }
    assert r.plan == [] ==> s.sent + r.plan == s.sent;
  }

  lemma {:induction false} PrefixConforms(sent: seq<Out>, plan: seq<Out>)
    requires Conforming(sent + plan)
    ensures Conforming(sent)
    ensures Ended(sent) ==> plan == []
    ensures plan != [] && Final(plan[0]) ==> Ended(sent + plan)
    ensures plan != [] && plan[0].OutStart? ==> sent == []
  {
    var all := sent + plan;
    assert forall j :: 0 <= j < |sent| ==> sent[j] == all[j];
    assert plan != [] ==> plan[0] == all[|sent|];
  }

  /** What an app failure plans: at most one body, and of a stream nothing was fed to, its tails. */
  lemma {:induction false} FailurePlan<A>(cfg: Config<A>, s: State<A>)
    ensures var plan := OnAppFailed(cfg, s).plan;
            && (plan == [] || (|plan| == 1 && plan[0].OutBody? && plan[0].more && s.mode == Sse))
            && (s.mode == Sse && cfg.adapter.Some? && s.stage == Some(Unfed(cfg.adapter.value)) ==>
                  plan == if UnfedTails(cfg) == [] then [] else [OutBody(UnfedTails(cfg), true)])
  {
    assert UnfedTails(cfg)[0..] == UnfedTails(cfg);
  }

  /** Without its plan an open response is a conforming one that has not ended. */
  lemma {:induction false} OpenSoFar<A>(s: System<A>)
    requires PhaseOk(s) && Conforming(s.sent + s.plan)
    ensures Conforming(s.sent)
    ensures s.state.mode == Sse ==> !Ended(s.sent)
    ensures Ended(s.sent) ==> s.state.store == None
  {
    PrefixConforms(s.sent, s.plan);
    assert s.plan == [] ==> s.sent + s.plan == s.sent;
  }

  lemma {:induction false} AppFailsKeeps<A>(cfg: Config<A>, s: System<A>)
    requires Invariant(cfg, s, false) && Enabled(s, AppFails)
    ensures Invariant(cfg, Next(cfg, s, AppFails), Loose(cfg, s, AppFails))
  {
    OpenSoFar(s);
    FailurePlan(cfg, s.state);
    FailureAdded(cfg, s.sent, OnAppFailed(cfg, s.state).plan);
  }

  lemma {:induction false} FailureAdded<A>(cfg: Config<A>, sent: seq<Out>, plan: seq<Out>)
    requires Conforming(sent) && (plan == [] || (|plan| == 1 && plan[0].OutBody? && plan[0].more && !Ended(sent)))
    ensures sent != [] || plan == [] ==> Conforming(sent + plan)
    ensures sent == [] ==> sent + plan == plan
    ensures Ended(sent + plan) ==> Ended(sent)
  {
    if plan == [] {
      assert sent + plan == sent;
    } else if sent != [] {
      ContinuedConforms(sent, plan);
    }
  }

  lemma {:induction false} StepKeeps<A>(cfg: Config<A>, s: System<A>, a: Action, loose: bool)
    requires Invariant(cfg, s, loose) && Enabled(s, a)
    ensures Invariant(cfg, Next(cfg, s, a), loose || Loose(cfg, s, a))
  {
    match a
    case Register(_) =>
    case AppSends(m) => AppSendsKeeps(cfg, s, m);
    case AppFails => AppFailsKeeps(cfg, s);
    case Emit =>
      assert (s.sent + [s.plan[0]]) + s.plan[1..] == s.sent + s.plan;
    case Close =>
    case Cut => CutKeeps(cfg, s, loose);
  }

  lemma {:induction false} CutKeeps<A>(cfg: Config<A>, s: System<A>, loose: bool)
    requires Invariant(cfg, s, loose)
    ensures Invariant(cfg, Next(cfg, s, Cut), loose)
  {
    assert s.sent + [] == s.sent;
    if loose {
      assert s.sent != [] ==> s.sent[0] == (s.sent + s.plan)[0] && s.plan == [];
    } else {
      PrefixConforms(s.sent, s.plan);
      assert s.plan == [] ==> s.sent + s.plan == s.sent;
    }
  }

  ghost predicate Step<A(!new)>(cfg: Config<A>, s: System<A>, a: Action, t: System<A>) {
    Enabled(s, a) && t == Next(cfg, s, a)
  }

  ghost predicate IsRun<A(!new)>(cfg: Config<A>, states: seq<System<A>>, actions: seq<Action>) {
    && |states| == |actions| + 1
    && states[0] == Init()
    && forall i, j :: 0 <= i < |actions| && j == i + 1 ==> Step(cfg, states[i], actions[i], states[j])
  }

  /** The app raised too early at some step before the `i`-th state. */
  ghost predicate EverLoose<A(!new)>(cfg: Config<A>, states: seq<System<A>>, actions: seq<Action>, i: nat)
    requires i <= |actions| && i <= |states|
  {
    exists j :: 0 <= j < i && Loose(cfg, states[j], actions[j])
  }

  lemma {:induction false} EverLooseGrows<A(!new)>(cfg: Config<A>, states: seq<System<A>>, actions: seq<Action>, i: nat)
    requires 0 < i <= |actions| && i <= |states|
    ensures EverLoose(cfg, states, actions, i) <==>
      EverLoose(cfg, states, actions, i - 1) || Loose(cfg, states[i - 1], actions[i - 1])
  {
  }

  lemma {:induction false} RunInvariant<A(!new)>(cfg: Config<A>, states: seq<System<A>>, actions: seq<Action>, i: nat)
    requires IsRun(cfg, states, actions) && i < |states|
    ensures Invariant(cfg, states[i], EverLoose(cfg, states, actions, i))
  {
    if i > 0 {
      RunInvariant(cfg, states, actions, i - 1);
      assert Step(cfg, states[i - 1], actions[i - 1], states[i - 1 + 1]);
      StepKeeps(cfg, states[i - 1], actions[i - 1], EverLoose(cfg, states, actions, i - 1));
      EverLooseGrows(cfg, states, actions, i);
    } else {
      assert Init<A>().sent + Init<A>().plan == [];
    }
  }

  /** In every run the client sees a prefix of one conforming response, unless the app raised
      before the start of a stream went out and the flush gave something, and that was sent.
      The mapping is gone by the time a final body goes out; a 500 of our own is never a
      second start; and a closed response holds nothing. */
  lemma {:induction false} ResponsesConform<A(!new)>(
    cfg: Config<A>, states: seq<System<A>>, actions: seq<Action>, i: nat)
    requires IsRun(cfg, states, actions) && i < |states|
    ensures Conforming(states[i].sent) <==> !EverLoose(cfg, states, actions, i) || states[i].sent == []
    ensures UnfedTails(cfg) == [] ==> Conforming(states[i].sent)
    ensures Ended(states[i].sent) ==> states[i].state.store == None && states[i].plan == []
    ensures states[i].plan != [] && Final(states[i].plan[0]) ==> states[i].state.store == None
    ensures states[i].plan != [] && states[i].plan[0].OutStart? ==> states[i].sent == []
    ensures states[i].state.mode == Closed ==> states[i].state == CloseResponse(states[i].state)
  {
    RunInvariant(cfg, states, actions, i);
    var s := states[i];
    if EverLoose(cfg, states, actions, i) {
      assert s.sent != [] ==> s.sent[0] == (s.sent + s.plan)[0];
      assert s.plan != [] ==> s.plan[0] == (s.sent + s.plan)[|s.sent|];
    } else {
      PrefixConforms(s.sent, s.plan);
      assert s.plan == [] ==> s.sent + s.plan == s.sent;
    }
  }

  lemma {:induction false} StreamBegins<A>(cfg: Config<A>, s: State<A>, start: Start)
    requires s.mode == Unstarted && s.store == Some(true) && cfg.adapter.Some?
    requires Success(start.status) && start.identity && start.content == EventStream
    ensures OnMessage(cfg, s, AppStart(start)) ==
      Reaction(s.(mode := Sse, stage := Some(Unfed(cfg.adapter.value))),
        [OutStart(start.status, WithoutLength(start.headers))])
  {
  }

  /** Why that condition is needed: a stream whose start is cut short at its send, and then the
      app raises. Nothing else than tails held before any event can get ahead of the start. */
  lemma {:induction false} BodyBeforeStart<A(!new)>(cfg: Config<A>)
    returns (states: seq<System<A>>, actions: seq<Action>)
    requires UnfedTails(cfg) != []
    ensures IsRun(cfg, states, actions) && |states| == 6
    ensures states[5].sent == [OutBody(UnfedTails(cfg), true)] && !Conforming(states[5].sent)
  {
    var planned, acts := StartPlanned(cfg);
    states, actions := StartCut(cfg, planned, acts);
    assert states[5].sent[0].OutBody?;
  }

  lemma {:induction false} RunGrows<A(!new)>(
    cfg: Config<A>, states: seq<System<A>>, actions: seq<Action>, a: Action, t: System<A>)
    requires IsRun(cfg, states, actions) && Step(cfg, states[|states| - 1], a, t)
    ensures IsRun(cfg, states + [t], actions + [a])
  {
    var more, acts := states + [t], actions + [a];
    forall i, j | 0 <= i < |acts| && j == i + 1
      ensures Step(cfg, more[i], acts[i], more[j])
    {
      if i < |actions| {
        assert Step(cfg, states[i], actions[i], states[j]);
      }
    }
  }

  const STREAM: Start := Start(200, EventStream, true, [])

  lemma {:induction false} StartPlanned<A(!new)>(cfg: Config<A>) returns (states: seq<System<A>>, actions: seq<Action>)
    requires cfg.adapter.Some?
    ensures IsRun(cfg, states, actions) && |states| == 3
    ensures states[2].sent == [] && states[2].phase == Streaming && states[2].state.mode == Sse
    ensures states[2].state.stage == Some(Unfed(cfg.adapter.value))
  {
    var s0: System<A> := Init();
    states, actions := [s0], [];
    var s1 := Next(cfg, s0, Register(true));
    RunGrows(cfg, states, actions, Register(true), s1);
    states, actions := states + [s1], actions + [Register(true)];
    StreamBegins(cfg, s1.state, STREAM);
    var s2 := Next(cfg, s1, AppSends(AppStart(STREAM)));
    RunGrows(cfg, states, actions, AppSends(AppStart(STREAM)), s2);
    states, actions := states + [s2], actions + [AppSends(AppStart(STREAM))];
  }

  lemma {:induction false} StartCut<A(!new)>(cfg: Config<A>, planned: seq<System<A>>, acts: seq<Action>)
    returns (states: seq<System<A>>, actions: seq<Action>)
    requires UnfedTails(cfg) != [] && IsRun(cfg, planned, acts) && |planned| == 3
    requires planned[2].sent == [] && planned[2].phase == Streaming && planned[2].state.mode == Sse
    requires planned[2].state.stage == Some(Unfed(cfg.adapter.value))
    ensures IsRun(cfg, states, actions) && |states| == 6
    ensures states[5].sent == [OutBody(UnfedTails(cfg), true)]
  {
    var s3 := Next(cfg, planned[2], Cut);
    RunGrows(cfg, planned, acts, Cut, s3);
    states, actions := planned + [s3], acts + [Cut];
    FailurePlan(cfg, s3.state);
    var s4 := Next(cfg, s3, AppFails);
    RunGrows(cfg, states, actions, AppFails, s4);
    states, actions := states + [s4], actions + [AppFails];
    var s5 := Next(cfg, s4, Emit);
    RunGrows(cfg, states, actions, Emit, s5);
    states, actions := states + [s5], actions + [Emit];
    assert [] + [s4.plan[0]] == s4.plan;
  }

  /** Exactly: every run conforms if and only if a restorer fed nothing has nothing to flush. */
  lemma {:induction false} ConformsExactly<A(!new)>(cfg: Config<A>)
    ensures UnfedTails(cfg) == [] <==>
      forall states: seq<System<A>>, actions: seq<Action>, i: nat ::
        IsRun(cfg, states, actions) && i < |states| ==> Conforming(states[i].sent)
  {
    if UnfedTails(cfg) == [] {
      forall states: seq<System<A>>, actions: seq<Action>, i: nat | IsRun(cfg, states, actions) && i < |states|
        ensures Conforming(states[i].sent)
      {
        ResponsesConform(cfg, states, actions, i);
      }
    } else {
      var states, actions := BodyBeforeStart(cfg);
    }
  }

  /** An adapter as it is made: no event is buffered and no tail is held. */
  ghost predicate HoldsNothing<A>(ad: Adapters<A>, adapter: A) {
    ad.responsesTails(adapter) == Restored(adapter, []) && ad.chatTails(adapter) == Restored(adapter, [])
  }

  /** With an adapter that holds nothing when it is made, every run conforms. */
  lemma {:induction false} FreshAdapterConforms<A(!new)>(
    cfg: Config<A>, states: seq<System<A>>, actions: seq<Action>, i: nat)
    requires cfg.adapter.Some? ==> HoldsNothing(cfg.adapters, cfg.adapter.value)
    requires IsRun(cfg, states, actions) && i < |states|
    ensures Conforming(states[i].sent)
  {
    assert UnfedTails(cfg) == [];
    ConformsExactly(cfg);
  }

  // ---- what the client gets

  function Payload(plan: seq<Out>): seq<Unit> {
    if plan == [] then []
    else (if plan[0].OutBody? then plan[0].bytes else []) + Payload(plan[1..])
  }

  lemma {:induction false} PayloadFirst(m: Out, rest: seq<Out>)
    ensures Payload([m] + rest) == (if m.OutBody? then m.bytes else []) + Payload(rest)
  {
    assert ([m] + rest)[1..] == rest;
  }

  lemma {:induction false} PayloadAppends(a: seq<Out>, b: seq<Out>)
    ensures Payload(a + b) == Payload(a) + Payload(b)
  {
    if a == [] {
      assert a + b == b;
    } else {
      var first := if a[0].OutBody? then a[0].bytes else [];
      calc {
        Payload(a + b);
        { assert a + b == [a[0]] + (a[1..] + b); PayloadFirst(a[0], a[1..] + b); }
        first + Payload(a[1..] + b);
        { PayloadAppends(a[1..], b); }
        first + (Payload(a[1..]) + Payload(b));
        { Assoc(first, Payload(a[1..]), Payload(b)); }
        Payload(a) + Payload(b);
      }
    }
  }

  /** The body in chunks, the last one final. */
  function Bodies(chunks: seq<seq<Unit>>): seq<AppMessage> {
    if chunks == [] then [] else [AppBody(chunks[0], |chunks| > 1)] + Bodies(chunks[1..])
  }

  function Replies<A>(cfg: Config<A>, s: State<A>, messages: seq<AppMessage>): Reaction<A>
    decreases |messages|
  {
    if messages == [] then Reaction(s, [])
    else
      var first := OnMessage(cfg, s, messages[0]);
      var others := Replies(cfg, first.state, messages[1..]);
      Reaction(others.state, first.plan + others.plan)
  }

  lemma {:induction false} ClosedRepliesNothing<A>(cfg: Config<A>, s: State<A>, messages: seq<AppMessage>)
    requires s.mode == Closed
    ensures Replies(cfg, s, messages) == Reaction(s, [])
    decreases |messages|
  {
    if messages != [] {
      ClosedRepliesNothing(cfg, s, messages[1..]);
    }
  }

  lemma {:induction false} FeedGrows<A>(handler: Handler<A>, s: Stage<A>, chunks: seq<seq<Unit>>)
    ensures s.progress.text <= FeedChunks(handler, s, chunks).progress.text
    decreases |chunks|
  {
    if chunks != [] && s.progress.Going? {
      var frames := Split(s.rest + chunks[0]);
      TextGrows(handler, s.progress, frames.events);
      FeedGrows(handler, Stage(HandleAll(handler, s.progress, frames.events), frames.rest), chunks[1..]);
    }
  }

  lemma {:induction false} FeedFirst<A>(handler: Handler<A>, s: Stage<A>, chunks: seq<seq<Unit>>)
    requires chunks != [] && s.progress.Going?
    ensures var first := FeedChunks(handler, s, [chunks[0]]);
            && FeedChunks(handler, s, chunks) == FeedChunks(handler, first, chunks[1..])
            && (first.progress.Broken? || |chunks| == 1 ==> FeedChunks(handler, s, chunks) == first)
  {
    var frames := Split(s.rest + chunks[0]);
    var first := Stage(HandleAll(handler, s.progress, frames.events), frames.rest);
    assert FeedChunks(handler, s, [chunks[0]]) == FeedChunks(handler, first, []) == first;
  }

  lemma {:induction false} TextAdds<T>(a: seq<T>, b: seq<T>, c: seq<T>)
    requires a <= b <= c
    ensures b[|a|..] + c[|b|..] == c[|a|..]
  {
  }

  /** The payload is the text the restorer has yet to give for `chunks`, and ends there. */
  ghost predicate Delivers<A>(cfg: Config<A>, stage: Stage<A>, chunks: seq<seq<Unit>>, r: Reaction<A>) {
    var fed := FeedChunks(cfg.adapters.event, stage, chunks);
    var end := Finish(cfg.adapters, fed.progress, fed.rest);
    && stage.progress.text <= end.text
    && Payload(r.plan) == end.text[|stage.progress.text|..]
    && Ended(r.plan) && r.state.mode == Closed
  }

  /** A stream from any point on. */
  lemma {:induction false} SseReplies<A>(cfg: Config<A>, s: State<A>, stage: Stage<A>, chunks: seq<seq<Unit>>)
    requires s.mode == Sse && s.stage == Some(stage) && stage.progress.Going? && chunks != []
    ensures Delivers(cfg, stage, chunks, Replies(cfg, s, Bodies(chunks)))
    decreases |chunks|
  {
    var more := |chunks| > 1;
    var first := OnSse(cfg, s, stage, chunks[0], more);
    var after := Advance(cfg, stage, chunks[0], more);
    FirstReply(cfg, s, stage, chunks[0], more);
    FeedFirst(cfg.adapters.event, stage, chunks);
    assert Bodies(chunks)[1..] == Bodies(chunks[1..]);
    if !more || after.progress.Broken? {
      ClosedRepliesNothing(cfg, first.state, Bodies(chunks[1..]));
      assert first.plan + [] == first.plan;
    } else {
      SseReplies(cfg, first.state, after, chunks[1..]);
      SseJoin(cfg, stage, after, chunks, first, Replies(cfg, first.state, Bodies(chunks[1..])));
    }
  }

  lemma {:induction false} SseJoin<A>(
    cfg: Config<A>, stage: Stage<A>, after: Stage<A>, chunks: seq<seq<Unit>>, first: Reaction<A>, others: Reaction<A>)
    requires stage.progress.Going? && chunks != []
    requires after == Advance(cfg, stage, chunks[0], true) && after.progress.Going?
    requires stage.progress.text <= after.progress.text
    requires Payload(first.plan) == after.progress.text[|stage.progress.text|..]
    requires Delivers(cfg, after, chunks[1..], others)
    ensures Delivers(cfg, stage, chunks, Reaction(others.state, first.plan + others.plan))
  {
    PayloadAppends(first.plan, others.plan);
    var fed := FeedChunks(cfg.adapters.event, after, chunks[1..]);
    FeedFirst(cfg.adapters.event, stage, chunks);
    TextAdds(stage.progress.text, after.progress.text, Finish(cfg.adapters, fed.progress, fed.rest).text);
  }

  lemma {:induction false} FirstReply<A>(cfg: Config<A>, s: State<A>, stage: Stage<A>, chunk: seq<Unit>, more: bool)
    requires stage.progress.Going?
    ensures var after := Advance(cfg, stage, chunk, more);
            var r := OnSse(cfg, s, stage, chunk, more);
            && stage.progress.text <= after.progress.text
            && Payload(r.plan) == after.progress.text[|stage.progress.text|..]
            && (after.progress.Broken? || !more ==> Ended(r.plan) && r.state.mode == Closed)
  {
    FeedGrows(cfg.adapters.event, stage, [chunk]);
    BodyPayloads(NewText(stage, Advance(cfg, stage, chunk, more)), more);
  }

  lemma {:induction false} BodyPayloads(out: seq<Unit>, more: bool)
    ensures Payload([OutBody(out, more)]) == out
    ensures [OutBody(out, true)] + [OutBody([], false)] == [OutBody(out, true), OutBody([], false)]
    ensures Payload([OutBody(out, true), OutBody([], false)]) == out
    ensures [] + [OutBody([], false)] == [OutBody([], false)] && Payload([OutBody([], false)]) == []
  {
    assert [OutBody(out, more)][1..] == [] && [OutBody([], false)][1..] == [];
    assert [OutBody(out, true), OutBody([], false)][1..] == [OutBody([], false)];
  }

  /** End to end: the app's stream, however cut, reaches the client as the whole stream
      restored at once, and the response is ended. */
  lemma {:induction false} StreamIsRestoredWhole<A>(cfg: Config<A>, s: State<A>, start: Start, chunks: seq<seq<Unit>>)
    requires s.mode == Unstarted && s.store == Some(true) && 200 <= start.status < 300 && start.identity
    requires start.content == EventStream && cfg.adapter.Some? && chunks != []
    ensures var r := Replies(cfg, s, [AppStart(start)] + Bodies(chunks));
            && Payload(r.plan) == RestoreWhole(cfg.adapters, cfg.adapter.value, Concat(chunks)).text
            && Ended(r.plan) && r.state.mode == Closed && OwnStart(r.plan[0], start, true)
  {
    var first := OnMessage(cfg, s, AppStart(start));
    var others := Replies(cfg, first.state, Bodies(chunks));
    StreamBegins(cfg, s, start);
    SseReplies(cfg, first.state, Unfed(cfg.adapter.value), chunks);
    RestoredTextIsChunkInvariant(cfg.adapters, cfg.adapter.value, chunks);
    RepliesFirst(cfg, s, AppStart(start), Bodies(chunks));
    AfterStart(first.plan[0], others.plan);
  }

  lemma {:induction false} RepliesFirst<A>(cfg: Config<A>, s: State<A>, m: AppMessage, messages: seq<AppMessage>)
    ensures var first := OnMessage(cfg, s, m);
            var others := Replies(cfg, first.state, messages);
            Replies(cfg, s, [m] + messages) == Reaction(others.state, first.plan + others.plan)
  {
    assert ([m] + messages)[0] == m && ([m] + messages)[1..] == messages;
  }

  lemma {:induction false} AfterStart(start: Out, plan: seq<Out>)
    requires start.OutStart? && Ended(plan)
    ensures Payload([start] + plan) == Payload(plan) && Ended([start] + plan)
  {
    PayloadFirst(start, plan);
    assert [] + Payload(plan) == Payload(plan);
  }

  /** The one content-length among the headers, the last of them, is `n`. */
  ghost predicate DeclaresLength(headers: seq<Header>, n: nat) {
    && headers != [] && headers[|headers| - 1] == ContentLength(n)
    && forall i :: 0 <= i < |headers| - 1 ==> !headers[i].ContentLength?
  }

  lemma {:induction false} LengthDeclared(headers: seq<Header>, n: nat)
    ensures DeclaresLength(WithoutLength(headers) + [ContentLength(n)], n)
    ensures forall h :: h in headers && !h.ContentLength? ==> h in WithoutLength(headers) + [ContentLength(n)]
  {
    var plain := WithoutLength(headers);
    assert forall i :: 0 <= i < |plain| ==> plain[i] in plain;
  }

  lemma {:induction false} UnaryReplies<A>(cfg: Config<A>, s: State<A>, start: Start, chunks: seq<seq<Unit>>)
    requires s.mode == Unary && s.start == Some(start) && chunks != []
    ensures Replies(cfg, s, Bodies(chunks)) == FinishUnary(cfg, s.(body := s.body + Concat(chunks)), start)
    decreases |chunks|
  {
    var first := OnMessage(cfg, s, AppBody(chunks[0], |chunks| > 1));
    assert Bodies(chunks)[1..] == Bodies(chunks[1..]);
    if |chunks| == 1 {
      assert chunks == [chunks[0]] && Concat(chunks[1..]) == [] && Bodies(chunks[1..]) == [];
      assert first.plan + [] == first.plan;
      assert s.body + Concat(chunks) == s.body + chunks[0];
    } else {
      UnaryReplies(cfg, first.state, start, chunks[1..]);
      Assoc(s.body, chunks[0], Concat(chunks[1..]));
    }
  }

  /** End to end: a JSON body is withheld until it is complete; then it goes out restored,
      with its own length, or a 500 does in its place. Nothing went out before. */
  lemma {:induction false} UnaryIsRestoredWhole<A>(cfg: Config<A>, s: State<A>, start: Start, chunks: seq<seq<Unit>>)
    requires s.mode == Unstarted && s.store == Some(true) && 200 <= start.status < 300 && start.identity
    requires start.content == Json && chunks != [] && s.body == []
    ensures var r := Replies(cfg, s, [AppStart(start)] + Bodies(chunks));
            var restored := cfg.restoreJson(Concat(chunks));
            && r.state.mode == Closed && |r.plan| == 2
            && r.plan[0].OutStart?
            && r.plan[1] == OutBody(if restored.Some? then restored.value else cfg.errorBody, false)
            && r.plan[0].status == (if restored.Some? then start.status else 500)
            && DeclaresLength(r.plan[0].headers, |r.plan[1].bytes|)
            && (restored.Some? ==> forall h :: h in start.headers && !h.ContentLength? ==> h in r.plan[0].headers)
  {
    var first := OnMessage(cfg, s, AppStart(start));
    assert first == Reaction(s.(mode := Unary, start := Some(start)), []);
    RepliesFirst(cfg, s, AppStart(start), Bodies(chunks));
    UnaryReplies(cfg, first.state, start, chunks);
    assert [] + Concat(chunks) == Concat(chunks);
    UnaryAnswer(cfg, first.state.(body := Concat(chunks)), start);
    var others := FinishUnary(cfg, first.state.(body := Concat(chunks)), start);
    assert [] + others.plan == others.plan;
  }

  lemma {:induction false} UnaryAnswer<A>(cfg: Config<A>, s: State<A>, start: Start)
    ensures var r := FinishUnary(cfg, s, start);
            var restored := cfg.restoreJson(s.body);
            && r.state.mode == Closed && |r.plan| == 2
            && r.plan[0].OutStart?
            && r.plan[1] == OutBody(if restored.Some? then restored.value else cfg.errorBody, false)
            && r.plan[0].status == (if restored.Some? then start.status else 500)
            && DeclaresLength(r.plan[0].headers, |r.plan[1].bytes|)
            && (restored.Some? ==> forall h :: h in start.headers && !h.ContentLength? ==> h in r.plan[0].headers)
  {
    var restored := cfg.restoreJson(s.body);
    if restored.Some? {
      LengthDeclared(start.headers, |restored.value|);
    }
  }

  // ---- and what is not restored

  /** The app's body messages that are not the last. */
  function OpenBodies(chunks: seq<seq<Unit>>): (m: seq<AppMessage>)
    ensures |m| == |chunks| && forall i :: 0 <= i < |chunks| ==> m[i] == AppBody(chunks[i], true)
  {
    seq(|chunks|, i requires 0 <= i < |chunks| => AppBody(chunks[i], true))
  }

  lemma {:induction false} BodiesEnd(chunks: seq<seq<Unit>>)
    requires chunks != []
    ensures Bodies(chunks) == OpenBodies(chunks[..|chunks| - 1]) + [AppBody(chunks[|chunks| - 1], false)]
  {
    if |chunks| > 1 {
      BodiesEnd(chunks[1..]);
      assert chunks[1..][..|chunks| - 2] == chunks[1..|chunks| - 1];
    }
  }

  lemma {:induction false} RepliesLast<A>(cfg: Config<A>, s: State<A>, messages: seq<AppMessage>, m: AppMessage)
    ensures var before := Replies(cfg, s, messages);
            var last := OnMessage(cfg, before.state, m);
            Replies(cfg, s, messages + [m]) == Reaction(last.state, before.plan + last.plan)
    decreases |messages|
  {
    if messages == [] {
      assert [m][1..] == [];
      assert [] + [m] == [m];
    } else {
      var first := OnMessage(cfg, s, messages[0]);
      assert (messages + [m])[0] == messages[0] && (messages + [m])[1..] == messages[1..] + [m];
      RepliesLast(cfg, first.state, messages[1..], m);
      var before := Replies(cfg, first.state, messages[1..]);
      Assoc(first.plan, before.plan, OnMessage(cfg, before.state, m).plan);
    }
  }

  /** The start is not one whose body is restored. */
  predicate Passes<A>(s: State<A>, start: Start) {
    s.store != Some(true) || !(200 <= start.status < 300) || !start.identity || start.content == OtherContent
  }

  /** Its usage is read: it is a stream that succeeds, with no mapping to restore. */
  predicate Tapped<A>(s: State<A>, start: Start) {
    s.store != Some(true) && 200 <= start.status < 300 && start.identity && start.content == EventStream
  }

  /** What the tap, if there is one, has let out for the chunks so far. */
  ghost predicate PassedSoFar<A>(cfg: Config<A>, s: State<A>, tapped: bool, chunks: seq<seq<Unit>>, r: Reaction<A>) {
    var fed := Usage.Through(cfg.artifact, cfg.dropsUsage, chunks);
    && r.state == s.(tap := if tapped then Some(fed.tap) else None) && |r.plan| == |chunks|
    && (forall i :: 0 <= i < |chunks| ==> r.plan[i].OutBody? && r.plan[i].more)
    && (if tapped && cfg.dropsUsage then Payload(r.plan) == fed.out
        else forall i :: 0 <= i < |chunks| ==> r.plan[i].bytes == chunks[i])
    && (tapped ==> fed.tap.drops == cfg.dropsUsage)
  }

  lemma {:induction false} OpenBodiesPass<A>(cfg: Config<A>, s: State<A>, tapped: bool, chunks: seq<seq<Unit>>)
    requires s.mode == Pass && s.tap == if tapped then Some(Usage.Tap(cfg.dropsUsage, [], false, [])) else None
    ensures PassedSoFar(cfg, s, tapped, chunks, Replies(cfg, s, OpenBodies(chunks)))
  {
    if chunks != [] {
      var init, last := chunks[..|chunks| - 1], chunks[|chunks| - 1];
      OpenBodiesPass(cfg, s, tapped, init);
      var before := Replies(cfg, s, OpenBodies(init));
      assert OpenBodies(chunks) == OpenBodies(init) + [AppBody(last, true)];
      RepliesLast(cfg, s, OpenBodies(init), AppBody(last, true));
      OneBodyMore(cfg, s, tapped, chunks, before);
    }
  }

  lemma {:induction false} OneBodyMore<A>(
    cfg: Config<A>, s: State<A>, tapped: bool, chunks: seq<seq<Unit>>, before: Reaction<A>)
    requires s.mode == Pass && chunks != [] && PassedSoFar(cfg, s, tapped, chunks[..|chunks| - 1], before)
    ensures var last := OnMessage(cfg, before.state, AppBody(chunks[|chunks| - 1], true));
            PassedSoFar(cfg, s, tapped, chunks, Reaction(last.state, before.plan + last.plan))
  {
    var last := OnMessage(cfg, before.state, AppBody(chunks[|chunks| - 1], true));
    PayloadAppends(before.plan, last.plan);
    BodyPayloads(last.plan[0].bytes, true);
  }

  /** The last body goes out too, and nothing is held. */
  ghost predicate PassedWhole<A>(cfg: Config<A>, tapped: bool, chunks: seq<seq<Unit>>, r: Reaction<A>)
    requires chunks != []
  {
    && r.state.mode == Closed && BodiesOf(r.plan, |chunks|)
    && (if tapped && cfg.dropsUsage then Payload(r.plan) == Tap(cfg, chunks)
        else forall i :: 0 <= i < |chunks| ==> r.plan[i].bytes == chunks[i])
  }

  lemma {:induction false} LastBodyPasses<A>(
    cfg: Config<A>, s: State<A>, tapped: bool, chunks: seq<seq<Unit>>, before: Reaction<A>)
    requires s.mode == Pass && chunks != [] && PassedSoFar(cfg, s, tapped, chunks[..|chunks| - 1], before)
    ensures var last := OnMessage(cfg, before.state, AppBody(chunks[|chunks| - 1], false));
            PassedWhole(cfg, tapped, chunks, Reaction(last.state, before.plan + last.plan))
  {
    var last := OnMessage(cfg, before.state, AppBody(chunks[|chunks| - 1], false));
    PayloadAppends(before.plan, last.plan);
    BodyPayloads(last.plan[0].bytes, false);
  }

  lemma {:induction false} BodiesPass<A>(cfg: Config<A>, s: State<A>, tapped: bool, chunks: seq<seq<Unit>>)
    requires s.mode == Pass && chunks != []
    requires s.tap == if tapped then Some(Usage.Tap(cfg.dropsUsage, [], false, [])) else None
    ensures PassedWhole(cfg, tapped, chunks, Replies(cfg, s, Bodies(chunks)))
  {
    var init, last := chunks[..|chunks| - 1], chunks[|chunks| - 1];
    OpenBodiesPass(cfg, s, tapped, init);
    BodiesEnd(chunks);
    RepliesLast(cfg, s, OpenBodies(init), AppBody(last, false));
    LastBodyPasses(cfg, s, tapped, chunks, Replies(cfg, s, OpenBodies(init)));
  }

  /** `n` bodies, the last one final. */
  ghost predicate BodiesOf(plan: seq<Out>, n: nat) {
    |plan| == n && forall i :: 0 <= i < n ==> plan[i].OutBody? && (plan[i].more <==> i < n - 1)
  }

  /** The start of a response that passes: the app's own, its length left out only where the tap
      drops something. */
  ghost predicate OwnStart(out: Out, start: Start, drops: bool) {
    && out.OutStart? && out.status == start.status
    && (if drops then forall h :: h in out.headers <==> h in start.headers && !h.ContentLength?
        else out.headers == start.headers)
  }

  lemma {:induction false} PassStarts<A>(cfg: Config<A>, s: State<A>, start: Start)
    requires s.mode == Unstarted && s.tap == None && Passes(s, start)
    ensures var r := OnMessage(cfg, s, AppStart(start));
            && r.state.mode == Pass && |r.plan| == 1 && OwnStart(r.plan[0], start, Tapped(s, start) && cfg.dropsUsage)
            && r.state.tap == if Tapped(s, start) then Some(Usage.Tap(cfg.dropsUsage, [], false, [])) else None
  {
  }

  /** End to end: a response that is not restored reaches the client as the app sent it, message by
      message. Only a stream whose usage the client did not ask for differs, and it by no more than
      the artifacts the tap takes out. */
  lemma {:induction false} PassesThrough<A>(cfg: Config<A>, s: State<A>, start: Start, chunks: seq<seq<Unit>>)
    requires s.mode == Unstarted && s.tap == None && Passes(s, start) && chunks != []
    ensures var r := Replies(cfg, s, [AppStart(start)] + Bodies(chunks));
            var drops := Tapped(s, start) && cfg.dropsUsage;
            && r.state.mode == Closed && |r.plan| == |chunks| + 1
            && OwnStart(r.plan[0], start, drops) && BodiesOf(r.plan[1..], |chunks|)
            && (!drops ==> forall i :: 0 <= i < |chunks| ==> r.plan[1..][i].bytes == chunks[i])
            && (drops ==> Payload(r.plan) == Tap(cfg, chunks))
  {
    var tapped := Tapped(s, start);
    PassStarts(cfg, s, start);
    var first := OnMessage(cfg, s, AppStart(start));
    RepliesFirst(cfg, s, AppStart(start), Bodies(chunks));
    BodiesPass(cfg, first.state, tapped, chunks);
    var others := Replies(cfg, first.state, Bodies(chunks));
    PayloadFirst(first.plan[0], others.plan);
    assert first.plan + others.plan == [first.plan[0]] + others.plan;
    assert (first.plan + others.plan)[1..] == others.plan;
  }

  /** All that a dropping tap lets out for a stream that ends. */
  ghost function Tap<A>(cfg: Config<A>, chunks: seq<seq<Unit>>): seq<Unit>
    requires chunks != []
  {
    var fed := Usage.Through(cfg.artifact, true, chunks[..|chunks| - 1]);
    fed.out + Usage.Feed(cfg.artifact, fed.tap, chunks[|chunks| - 1], true).out
  }

  /** That is the events of the whole stream but the artifacts, however it was cut... */
  lemma {:induction false} TapTakesOutArtifacts<A>(cfg: Config<A>, chunks: seq<seq<Unit>>)
    requires chunks != [] && forall n :: 0 <= n < |chunks| ==> !Usage.TripsAt(chunks, n)
    ensures Tap(cfg, chunks) == Usage.Kept(cfg.artifact, Usage.AllEvents(Split(Concat(chunks))))
  {
    var init, last := chunks[..|chunks| - 1], chunks[|chunks| - 1];
    forall n | 0 <= n <= |init|
      ensures !Usage.TripsAt(init, n)
    {
      assert init[..n] == chunks[..n] && !Usage.TripsAt(chunks, n);
    }
    Usage.ConcatLast(chunks);
    Usage.NothingHeldAtTheEnd(cfg.artifact, init, last);
  }

  /** ...and where an event open at the end of a chunk is over the cap, it and all that follows go
      out as they came. */
  lemma {:induction false} TapGivesUp<A>(cfg: Config<A>, chunks: seq<seq<Unit>>, n: nat)
    requires n < |chunks| && Usage.TripsAt(chunks, n) && forall m :: 0 <= m < n ==> !Usage.TripsAt(chunks, m)
    ensures var frames := Split(Concat(chunks[..n]));
            Tap(cfg, chunks) == Usage.Kept(cfg.artifact, frames.events) + frames.rest + Concat(chunks[n..])
  {
    var init, last := chunks[..|chunks| - 1], chunks[|chunks| - 1];
    forall m | 0 <= m <= n
      ensures Usage.TripsAt(init, m) == Usage.TripsAt(chunks, m)
    {
      assert init[..m] == chunks[..m];
    }
    Usage.PassesOnceOver(cfg.artifact, init, n, last, true);
    assert init[..n] == chunks[..n];
    Usage.ConcatLast(chunks[n..]);
    assert chunks[n..][..|chunks[n..]| - 1] == init[n..];
    var frames := Split(Concat(chunks[..n]));
    Assoc(Usage.Kept(cfg.artifact, frames.events) + frames.rest, Concat(init[n..]), last);
  }

  /** Each header stays in its place, but for the lengths. */
  lemma {:induction false} OtherHeadersStay(before: seq<Header>, h: Header, after: seq<Header>)
    ensures WithoutLength(before + ([h] + after)) ==
      WithoutLength(before) + ((if h.ContentLength? then [] else [h]) + WithoutLength(after))
  {
    HeadersInOrder(before, [h] + after);
    assert ([h] + after)[1..] == after;
  }

  lemma {:induction false} HeadersInOrder(a: seq<Header>, b: seq<Header>)
    ensures WithoutLength(a + b) == WithoutLength(a) + WithoutLength(b)
  {
    if a == [] {
      assert a + b == b;
    } else {
      assert (a + b)[0] == a[0] && (a + b)[1..] == a[1..] + b;
      HeadersInOrder(a[1..], b);
      Assoc(if a[0].ContentLength? then [] else [a[0]], WithoutLength(a[1..]), WithoutLength(b));
    }
  }

  /** A body before any start goes on as it is; the app is off the protocol there, not the gateway. */
  lemma {:induction false} BodyBeforeAnyStart<A>(cfg: Config<A>, s: State<A>, bytes: seq<Unit>, more: bool)
    requires s.mode == Unstarted
    ensures OnMessage(cfg, s, AppBody(bytes, more)) == Reaction(s, [OutBody(bytes, more)])
  {
  }

  /** End to end: a stream that should be restored, and no restorer can be made for it: the client
      gets a 500 in its place, complete, and nothing of the stream. */
  lemma {:induction false} StreamWithoutRestorer<A>(cfg: Config<A>, s: State<A>, start: Start, chunks: seq<seq<Unit>>)
    requires s.mode == Unstarted && s.store == Some(true) && 200 <= start.status < 300 && start.identity
    requires start.content == EventStream && cfg.adapter.None?
    ensures var r := Replies(cfg, s, [AppStart(start)] + Bodies(chunks));
            && r.state.mode == Closed && |r.plan| == 2
            && r.plan[0].OutStart? && r.plan[0].status == 500 && r.plan[1] == OutBody(cfg.errorBody, false)
            && DeclaresLength(r.plan[0].headers, |cfg.errorBody|)
  {
    var first := OnMessage(cfg, s, AppStart(start));
    RepliesFirst(cfg, s, AppStart(start), Bodies(chunks));
    ClosedRepliesNothing(cfg, first.state, Bodies(chunks));
    assert first.plan + [] == first.plan;
  }

  // ---- a stream its app gives up

  lemma {:induction false} FeedAppends<A>(handler: Handler<A>, s: Stage<A>, chunks: seq<seq<Unit>>, chunk: seq<Unit>)
    ensures FeedChunks(handler, s, chunks + [chunk]) == FeedChunks(handler, FeedChunks(handler, s, chunks), [chunk])
    decreases |chunks|
  {
    if chunks == [] {
      assert [] + [chunk] == [chunk];
    } else if s.progress.Going? {
      assert (chunks + [chunk])[0] == chunks[0] && (chunks + [chunk])[1..] == chunks[1..] + [chunk];
      var frames := Split(s.rest + chunks[0]);
      FeedAppends(handler, Stage(HandleAll(handler, s.progress, frames.events), frames.rest), chunks[1..], chunk);
    }
  }

  /** The client has what was restored of the chunks so far; the stream goes on unless that broke. */
  ghost predicate RestoredSoFar<A>(cfg: Config<A>, s: State<A>, adapter: A, chunks: seq<seq<Unit>>, r: Reaction<A>) {
    var fed := FeedChunks(cfg.adapters.event, Unfed(adapter), chunks);
    && Payload(r.plan) == fed.progress.text
    && (if fed.progress.Going? then r.state == s.(stage := Some(fed)) else r.state.mode == Closed)
  }

  lemma {:induction false} SseSoFar<A>(cfg: Config<A>, s: State<A>, adapter: A, chunks: seq<seq<Unit>>)
    requires s.mode == Sse && s.stage == Some(Unfed(adapter))
    ensures RestoredSoFar(cfg, s, adapter, chunks, Replies(cfg, s, OpenBodies(chunks)))
  {
    if chunks != [] {
      var init, last := chunks[..|chunks| - 1], chunks[|chunks| - 1];
      SseSoFar(cfg, s, adapter, init);
      assert OpenBodies(chunks) == OpenBodies(init) + [AppBody(last, true)] && chunks == init + [last];
      RepliesLast(cfg, s, OpenBodies(init), AppBody(last, true));
      OneChunkMore(cfg, s, adapter, init, last, Replies(cfg, s, OpenBodies(init)));
    }
  }

  lemma {:induction false} OneChunkMore<A>(
    cfg: Config<A>, s: State<A>, adapter: A, chunks: seq<seq<Unit>>, chunk: seq<Unit>, before: Reaction<A>)
    requires s.mode == Sse && RestoredSoFar(cfg, s, adapter, chunks, before)
    ensures var last := OnMessage(cfg, before.state, AppBody(chunk, true));
            RestoredSoFar(cfg, s, adapter, chunks + [chunk], Reaction(last.state, before.plan + last.plan))
  {
    var fed := FeedChunks(cfg.adapters.event, Unfed(adapter), chunks);
    var last := OnMessage(cfg, before.state, AppBody(chunk, true));
    FeedAppends(cfg.adapters.event, Unfed(adapter), chunks, chunk);
    PayloadAppends(before.plan, last.plan);
    if fed.progress.Going? {
      FirstReply(cfg, before.state, fed, chunk, true);
    } else {
      assert before.plan + [] == before.plan;
    }
  }

  /** End to end: when the app gives up in the middle of a stream, the client still gets all of what
      the app sent, restored as if the stream had ended there. */
  lemma {:induction false} GivenUpStreamIsRestored<A>(cfg: Config<A>, s: State<A>, adapter: A, chunks: seq<seq<Unit>>)
    requires s.mode == Sse && s.stage == Some(Unfed(adapter))
    ensures var sent := Replies(cfg, s, OpenBodies(chunks));
            var failed := OnAppFailed(cfg, sent.state);
            && Payload(sent.plan + failed.plan) == RestoreWhole(cfg.adapters, adapter, Concat(chunks)).text
            && failed.state.mode == Closed
  {
    SseSoFar(cfg, s, adapter, chunks);
    RestoredTextIsChunkInvariant(cfg.adapters, adapter, chunks);
    FailureFlushes(cfg, s, adapter, chunks, Replies(cfg, s, OpenBodies(chunks)));
  }

  lemma {:induction false} FailureFlushes<A>(
    cfg: Config<A>, s: State<A>, adapter: A, chunks: seq<seq<Unit>>, sent: Reaction<A>)
    requires s.mode == Sse && RestoredSoFar(cfg, s, adapter, chunks, sent)
    ensures var fed := FeedChunks(cfg.adapters.event, Unfed(adapter), chunks);
            var failed := OnAppFailed(cfg, sent.state);
            Payload(sent.plan + failed.plan) == Finish(cfg.adapters, fed.progress, fed.rest).text
  {
    var fed := FeedChunks(cfg.adapters.event, Unfed(adapter), chunks);
    var failed := OnAppFailed(cfg, sent.state);
    PayloadAppends(sent.plan, failed.plan);
    FinishGrows(cfg.adapters, fed.progress, fed.rest);
    BodyPayloads(NewText(fed, Stage(Finish(cfg.adapters, fed.progress, fed.rest), [])), true);
  }

  lemma {:induction false} FinishGrows<A>(ad: Adapters<A>, p: Progress<A>, rest: seq<Unit>)
    ensures p.text <= Finish(ad, p, rest).text && (p.Broken? ==> Finish(ad, p, rest) == p)
  {
  }

  // ---- the object

  /** Text restored before, put in front. */
  function After<A>(before: seq<Unit>, p: Progress<A>): Progress<A> {
    match p
    case Going(adapter, text) => Going(adapter, before + text)
    case Broken(text) => Broken(before + text)
  }

  lemma {:induction false} HandleAfter<A>(handler: Handler<A>, before: seq<Unit>, p: Progress<A>, event: seq<Unit>)
    ensures Handle(handler, After(before, p), event) == After(before, Handle(handler, p, event))
  {
    if p.Going? && handler(p.adapter, event).Restored? {
      Assoc(before, p.text, handler(p.adapter, event).text);
    }
  }

  lemma {:induction false} HandleAllAfter<A>(
    handler: Handler<A>, before: seq<Unit>, p: Progress<A>, events: seq<seq<Unit>>)
    ensures HandleAll(handler, After(before, p), events) == After(before, HandleAll(handler, p, events))
    decreases |events|
  {
    if events != [] {
      HandleAfter(handler, before, p, events[0]);
      HandleAllAfter(handler, before, Handle(handler, p, events[0]), events[1..]);
    }
  }

  lemma {:induction false} FlushAfter<A>(flusher: Flusher<A>, before: seq<Unit>, p: Progress<A>)
    ensures Flush(flusher, After(before, p)) == After(before, Flush(flusher, p))
  {
    if p.Going? && flusher(p.adapter).Restored? {
      Assoc(before, p.text, flusher(p.adapter).text);
    }
  }

  lemma {:induction false} FinishAfter<A>(ad: Adapters<A>, before: seq<Unit>, p: Progress<A>, rest: seq<Unit>)
    ensures Finish(ad, After(before, p), rest) == After(before, Finish(ad, p, rest))
  {
    HandleAfter(ad.event, before, p, rest);
    var last := if rest == [] then p else Handle(ad.event, p, rest);
    FlushAfter(ad.responsesTails, before, last);
    FlushAfter(ad.chatTails, before, Flush(ad.responsesTails, last));
  }

  /** What a drained restorer gives for one more chunk, and at the end its flush. */
  function Drained<A>(cfg: Config<A>, adapter: A, buffer: seq<Unit>, chunk: seq<Unit>, more: bool): Progress<A> {
    var frames := Split(buffer + chunk);
    var fed := HandleAll(cfg.adapters.event, Going(adapter, []), frames.events);
    if more || fed.Broken? then fed else Finish(cfg.adapters, fed, frames.rest)
  }

  /** The text a drained restorer has ready is exactly the text that is new: `take()` hands out
      what `NewText` says, whatever was handed out before. */
  lemma {:induction false} DrainedIsNew<A>(
    cfg: Config<A>, given: seq<Unit>, adapter: A, buffer: seq<Unit>, chunk: seq<Unit>, more: bool)
    ensures var stage := Stage(Going(adapter, given), buffer);
            var after := Advance(cfg, stage, chunk, more);
            && after.progress == After(given, Drained(cfg, adapter, buffer, chunk, more))
            && NewText(stage, after) == Drained(cfg, adapter, buffer, chunk, more).text
            && (more && after.progress.Going? ==> after.rest == Split(buffer + chunk).rest)
  {
    var stage := Stage(Going(adapter, given), buffer);
    var frames := Split(buffer + chunk);
    var fed := HandleAll(cfg.adapters.event, Going(adapter, []), frames.events);
    assert given + [] == given;
    HandleAllAfter(cfg.adapters.event, given, Going(adapter, []), frames.events);
    var next := Stage(After(given, fed), frames.rest);
    assert FeedChunks(cfg.adapters.event, stage, [chunk]) == FeedChunks(cfg.adapters.event, next, []) == next;
    FinishAfter(cfg.adapters, given, fed, frames.rest);
    if fed.Broken? {
      FinishBroken(cfg.adapters, After(given, fed), frames.rest);
    }
    var all := Drained(cfg, adapter, buffer, chunk, more);
    assert (given + all.text)[|given|..] == all.text;
  }

  lemma {:induction false} FinishBroken<A>(ad: Adapters<A>, p: Progress<A>, rest: seq<Unit>)
    requires p.Broken?
    ensures Finish(ad, p, rest) == p
  {
  }

  lemma {:induction false} TailsAreNew<A>(cfg: Config<A>, given: seq<Unit>, adapter: A, buffer: seq<Unit>)
    ensures var stage := Stage(Going(adapter, given), buffer);
            NewText(stage, Stage(Finish(cfg.adapters, stage.progress, buffer), [])) ==
              Finish(cfg.adapters, Going(adapter, []), buffer).text
  {
    assert given + [] == given;
    FinishAfter(cfg.adapters, given, Going(adapter, []), buffer);
    var tail := Finish(cfg.adapters, Going(adapter, []), buffer).text;
    assert (given + tail)[|given|..] == tail;
  }

  class ResponseObject<A> {
    const cfg: Config<A>
    var mode: Mode
    var store: Option<bool>
    var start: Option<Start>
    var body: seq<Unit>
    var sse: Restorer?<A>
    var tap: Usage.UsageTap?
    ghost var given: seq<Unit>    // what the restorer has handed out

    ghost function Parts(): set<object>
      reads this
    {
      {this} + (if sse == null then {} else {sse}) + (if tap == null then {} else {tap})
    }

    /** Between two calls the restorer is drained. */
    ghost predicate Valid()
      reads this, Parts()
    {
      && (sse != null ==> sse.adapters == cfg.adapters && sse.ready == [])
      && (tap != null ==> tap.artifact == cfg.artifact)
      && (mode == Unary ==> start.Some?)
    }

    ghost function Abs(): State<A>
      reads this, Parts()
    {
      State(mode, store, start, body,
            if sse == null then None else Some(Stage(Going(sse.adapter, given), sse.buffer)),
            if tap == null then None else Some(tap.Abs()))
    }

    constructor (cfg: Config<A>, store: Option<bool>)
      ensures this.cfg == cfg && Valid() && Abs() == State(Unstarted, store, None, [], None, None)
    {
      this.cfg, this.store := cfg, store;
      mode, start, body, sse, tap := Unstarted, None, [], null, null;
    }

    method CloseAll()
      modifies this
      ensures Valid() && sse == null && tap == null && Abs() == CloseResponse(old(Abs()))
    {
      mode, store, start, sse, tap := Closed, None, None, null, null;
      body := [];
    }

    method Fail() returns (plan: seq<Out>)
      modifies this
      ensures Valid() && Reaction(Abs(), plan) == InternalError(cfg, old(Abs()))
    {
      CloseAll();
      plan := [OutStart(500, [Plain("content-type"), ContentLength(|cfg.errorBody|)]), OutBody(cfg.errorBody, false)];
    }

    /** The response is not restored: its usage is read, or nothing is. */
    method PassOn(message: Start) returns (plan: seq<Out>)
      requires Valid() && (store != Some(true) || !Success(message.status) || !message.identity)
      modifies this
      ensures Valid() && Reaction(Abs(), plan) == OnStart(cfg, old(Abs()), message)
      ensures fresh(Parts() - old(Parts()))
    {
      mode, store, tap := Pass, None, null;
      if Success(message.status) && message.identity && message.content == EventStream {
        tap := new Usage.UsageTap(cfg.artifact, cfg.dropsUsage);
      }
      if tap != null && tap.drops {
        return [OutStart(message.status, WithoutLength(message.headers))];
      }
      return [OutStart(message.status, message.headers)];
    }

    method SendStart(message: Start) returns (plan: seq<Out>)
      requires Valid()
      modifies this
      ensures Valid() && Reaction(Abs(), plan) == OnStart(cfg, old(Abs()), message)
      ensures fresh(Parts() - old(Parts()))
    {
      if store != Some(true) || !Success(message.status) || !message.identity {
        plan := PassOn(message);
        return;
      }
      match message.content {
        case EventStream =>
          if cfg.adapter.None? {
            plan := Fail();
            return;
          }
          sse := new Restorer(cfg.adapters, cfg.adapter.value);
          given := [];
          mode := Sse;
          return [OutStart(message.status, WithoutLength(message.headers))];
        case Json =>
          mode, start := Unary, Some(message);
          return [];
        case OtherContent =>
          mode, store := Pass, None;
          return [OutStart(message.status, message.headers)];
      }
    }

    method SendPassed(bytes: seq<Unit>, more: bool) returns (plan: seq<Out>)
      requires Valid()
      modifies this, tap
      ensures Valid() && Reaction(Abs(), plan) == OnPass(cfg, old(Abs()), bytes, more)
      ensures Parts() <= old(Parts())
    {
      var out := bytes;
      if tap != null {
        out := tap.FeedSse(bytes, !more);
        if !tap.drops {
          out := bytes;
        }
      }
      if !more {
        CloseAll();
      }
      return [OutBody(out, more)];
    }

    method SendUnary(bytes: seq<Unit>, more: bool) returns (plan: seq<Out>)
      requires Valid() && mode == Unary
      modifies this
      ensures Valid() && Reaction(Abs(), plan) == OnMessage(cfg, old(Abs()), AppBody(bytes, more))
      ensures Parts() <= old(Parts())
    {
      body := body + bytes;
      if more {
        return [];
      }
      var message := start.value;
      var restored := cfg.restoreJson(body);
      CloseAll();
      if restored.None? {
        plan := Fail();
        return;
      }
      var headers := WithoutLength(message.headers) + [ContentLength(|restored.value|)];
      return [OutStart(message.status, headers), OutBody(restored.value, false)];
    }

    /** The restorer fed, flushed at the end, and drained. */
    method FeedAndTake(chunk: seq<Unit>, more: bool) returns (ok: bool, out: seq<Unit>)
      requires Valid() && sse != null
      modifies sse, this`given
      ensures Valid() && unchanged(this`sse, this`mode, this`store, this`start, this`body, this`tap)
      ensures Drained(cfg, old(sse.adapter), old(sse.buffer), chunk, more) ==
        (if ok then Going(sse.adapter, out) else Broken(out))
      ensures ok && more ==> sse.buffer == Split(old(sse.buffer) + chunk).rest
      ensures given == old(given) + out
    {
      ok := sse.Feed(chunk);
      if ok && !more {
        ok := sse.FlushTails();
      }
      out := sse.Take();
      given := given + out;
    }

    method SendSse(chunk: seq<Unit>, more: bool) returns (plan: seq<Out>)
      requires Valid() && mode == Sse && sse != null
      modifies this, sse
      ensures Valid() && Reaction(Abs(), plan) == OnMessage(cfg, old(Abs()), AppBody(chunk, more))
      ensures Parts() <= old(Parts())
    {
      DrainedIsNew(cfg, given, sse.adapter, sse.buffer, chunk, more);
      var ok, out := FeedAndTake(chunk, more);
      if !ok {
        CloseAll();
        return (if out == [] then [] else [OutBody(out, true)]) + [OutBody([], false)];
      }
      if !more {
        CloseAll();
        return [OutBody(out, false)];
      }
      return [OutBody(out, true)];
    }

    /** `send`, as the app calls it. */
    method Send(m: AppMessage) returns (plan: seq<Out>)
      requires Valid()
      modifies Parts()
      ensures Valid() && Reaction(Abs(), plan) == OnMessage(cfg, old(Abs()), m)
      ensures fresh(Parts() - old(Parts()))
    {
      if mode == Closed {
        return [];
      }
      match m {
        case AppStart(message) => plan := SendStart(message);
        case AppBody(bytes, more) =>
          if mode == Unstarted {
            return [OutBody(bytes, more)];
          }
          if mode == Pass {
            plan := SendPassed(bytes, more);
          } else if mode == Unary {
            plan := SendUnary(bytes, more);
          } else if sse != null {
            plan := SendSse(bytes, more);
          } else {
            plan := [];
          }
      }
    }

    method AppFailed() returns (plan: seq<Out>)
      requires Valid()
      modifies this, sse
      ensures Valid() && Reaction(Abs(), plan) == OnAppFailed(cfg, old(Abs()))
    {
      var restorer := if mode == Sse then sse else null;
      ghost var before := given;
      CloseAll();
      if restorer == null {
        return [];
      }
      TailsAreNew(cfg, before, restorer.adapter, restorer.buffer);
      var ok := restorer.FlushTails();
      var out := restorer.Take();
      return if out == [] then [] else [OutBody(out, true)];
    }
  }
}
