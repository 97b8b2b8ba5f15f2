/**
  What a log event can still write for a request its pre-call handed over to its ticket.

  The proxy calls the guardrail under a discipline: the response mappings are bound, a call id
  belongs to one pre-call of one ticket, a ticket is cancelled only while it is open, and the
  cancel hook starts in the context of a cancelled ticket, still open, that knows the id. A
  ticket can be handed several requests; its facts are those of the last. So a handed-over id is
  guarded by its ticket's facts while they are its own, and by the two FIFOs while they remember
  it; and once its ticket has closed, with no cancel of it under way, it needs no guard.
 */
module HandOverTheorem {
  import opened Wrappers
  import opened OrderedDict
  import opened Guardrail
  import opened AuditRuns
  import opened AuditTheorems

  ghost predicate Proxied(s: System, a: Action) {
    match a
    case OpenTicket(_, gatewayId) =>
      gatewayId !in s.handed && forall t :: t in s.tickets ==> gatewayId !in s.tickets[t].callIds
    case Register(id, ctx, _) =>
      && id !in s.handed
      && forall t :: t in s.tickets ==> s.tickets[t].gatewayId != id && (id in s.tickets[t].callIds ==> ctx == Some(t))
    case HandOver(id, t) => t in s.tickets && id in s.tickets[t].callIds && id !in s.handed
    case CancelTicket(t) => t in s.tickets && !s.tickets[t].closed
    case StartCancel(_, id, ctx, _) =>
      && ctx.Some? && ctx.value in s.tickets && id in s.tickets[ctx.value].RequestIds()
      && s.tickets[ctx.value].cancelled && !s.tickets[ctx.value].closed
    case _ => true
  }

  /** A call id is known to one ticket, and is no ticket's own id. */
  ghost predicate CallIdsUnique(tickets: map<TicketId, Ticket>) {
    && (forall t, t', id :: t in tickets && t' in tickets && id in tickets[t].callIds && id in tickets[t'].callIds
          ==> t == t')
    && (forall t, t' :: t in tickets && t' in tickets ==> tickets[t'].gatewayId !in tickets[t].callIds)
  }

  ghost predicate Knows(tickets: map<TicketId, Ticket>, t: TicketId, id: Id) {
    t in tickets && id in tickets[t].callIds
  }

  /** A handed-over id is a call id of a ticket. */
  ghost predicate Placed(s: System) {
    forall id :: id in s.handed ==> exists t :: Knows(s.tickets, t, id)
  }

  /** A cancel for `id` is under way, or left counts behind. */
  ghost predicate Cancelling(s: System, id: Id) {
    || id in s.tables.pending.at
    || exists k :: k in s.tasks && s.tasks[k].id == id
                   && (s.tasks[k].pc.WritingCancel? || (s.tasks[k].kind.Cancel? && s.tasks[k].pc.Waiting?))
  }

  ghost predicate TicketGone(tickets: map<TicketId, Ticket>, id: Id) {
    exists t :: t in tickets && tickets[t].cancelled && (id in tickets[t].callIds || tickets[t].gatewayId == id)
  }

  ghost predicate Quiet(s: System) {
    && (forall id :: Cancelling(s, id) ==> TicketGone(s.tickets, id))
    && (forall id :: id in s.handed ==> id !in s.tables.reqState)
  }

  ghost predicate ProxyInvariant(s: System) {
    s.tables.mappingsBound && CallIdsUnique(s.tickets) && Placed(s) && Quiet(s)
  }

  // ---- the proxy's own steps

  lemma {:induction false} OpenTicketKeeps(s: System, t: TicketId, gatewayId: Id)
    requires ProxyInvariant(s) && Proxied(s, OpenTicket(t, gatewayId)) && t !in s.tickets
    ensures ProxyInvariant(s.(tickets := s.tickets[t := Ticket(gatewayId, [], false, false, None)]))
  {
    var s' := s.(tickets := s.tickets[t := Ticket(gatewayId, [], false, false, None)]);
    TicketsGrow(s, s');
  }

  /** Tickets only learn: a step that keeps every ticket's ids and flags keeps the rest. */
  lemma {:induction false} TicketsGrow(s: System, s': System)
    requires Placed(s) && Quiet(s)
    requires forall t :: t in s.tickets ==>
               && t in s'.tickets && s'.tickets[t].gatewayId == s.tickets[t].gatewayId
               && (forall id :: id in s.tickets[t].callIds ==> id in s'.tickets[t].callIds)
               && (s.tickets[t].cancelled ==> s'.tickets[t].cancelled)
    requires s'.tasks == s.tasks && s'.tables.pending == s.tables.pending && s'.handed == s.handed
    requires forall id :: id in s'.tables.reqState ==> id in s.tables.reqState || id !in s.handed
    ensures Placed(s') && Quiet(s')
  {
    forall id | id in s'.handed
      ensures exists t :: Knows(s'.tickets, t, id)
    {
      var t :| Knows(s.tickets, t, id);
      assert Knows(s'.tickets, t, id);
    }
    forall id | Cancelling(s', id)
      ensures TicketGone(s'.tickets, id)
    {
      assert Cancelling(s, id);
      var t :| t in s.tickets && s.tickets[t].cancelled && (id in s.tickets[t].callIds || s.tickets[t].gatewayId == id);
      assert t in s'.tickets;
    }
  }

  lemma {:induction false} BoundUnique(tickets: map<TicketId, Ticket>, t: TicketId, id: Id)
    requires CallIdsUnique(tickets) && t in tickets
    requires forall t' :: t' in tickets ==> tickets[t'].gatewayId != id && (id in tickets[t'].callIds ==> t == t')
    ensures CallIdsUnique(Bound(tickets, t, id))
  {
  }

  lemma {:induction false} RegisterKeeps(s: System, id: Id, ctx: Option<TicketId>, state: RequestState)
    requires s.tables.pending.Valid() && s.tables.owned.Valid() && ProxyInvariant(s)
    requires Enabled(s, Register(id, ctx, state)) && Proxied(s, Register(id, ctx, state))
    ensures ProxyInvariant(Next(s, Register(id, ctx, state)))
  {
    if ctx.Some? {
      BoundUnique(s.tickets, ctx.value, id);
    }
    TicketsGrow(s, Next(s, Register(id, ctx, state)));
  }

  lemma {:induction false} CancelTicketKeeps(s: System, t: TicketId)
    requires s.tables.pending.Valid() && s.tables.owned.Valid() && ProxyInvariant(s) && Enabled(s, CancelTicket(t))
    ensures ProxyInvariant(Next(s, CancelTicket(t)))
  {
    TicketsGrow(s, Next(s, CancelTicket(t)));
  }

  lemma {:induction false} CloseTicketKeeps(s: System, t: TicketId)
    requires TablesOk(s) && ProxyInvariant(s) && Enabled(s, CloseTicket(t))
    ensures ProxyInvariant(Next(s, CloseTicket(t)))
  {
    var closed := s.(tickets := s.tickets[t := s.tickets[t].(closed := true)]);
    ReleasingMoves(closed, t, s.tickets[t].RequestIds());
    TicketsGrow(s, closed);
    ClosedUnique(s.tickets, t);
    assert ProxyInvariant(closed);
    MovedKeeps(closed, Next(s, CloseTicket(t)));
  }

  lemma {:induction false} ClosedUnique(tickets: map<TicketId, Ticket>, t: TicketId)
    requires CallIdsUnique(tickets) && t in tickets
    ensures CallIdsUnique(tickets[t := tickets[t].(closed := true)])
  {
  }

  lemma {:induction false} MovedKeeps(s: System, s': System)
    requires ProxyInvariant(s)
    requires s'.tickets == s.tickets && s'.tasks == s.tasks && s'.handed == s.handed
    requires s'.tables.pending == s.tables.pending && s'.tables.reqState == s.tables.reqState
    requires s'.tables.mappingsBound
    ensures ProxyInvariant(s')
  {
    forall id | Cancelling(s', id)
      ensures Cancelling(s, id)
    {
    }
  }

  /** The ticket is not cancelled and the id is its own, so no cancel for it can be under way. */
  lemma {:induction false} HandOverIsQuiet(s: System, id: Id, t: TicketId)
    requires CallIdsUnique(s.tickets) && Quiet(s)
    requires t in s.tickets && !s.tickets[t].cancelled && id in s.tickets[t].callIds
    ensures !Cancelling(s, id)
  {
  }

  lemma {:induction false} HandOverKeepsQuiet(s: System, id: Id, t: TicketId)
    requires s.tables.pending.Valid() && s.tables.owned.Valid() && ProxyInvariant(s)
    requires Enabled(s, HandOver(id, t)) && Proxied(s, HandOver(id, t))
    ensures ProxyInvariant(Next(s, HandOver(id, t)))
  {
    var s' := Next(s, HandOver(id, t));
    var known := s'.(handed := s.handed);
    TicketsGrow(s, known);
    FactsUnique(s.tickets, t, id);
    HandedOneMore(known, s', t, id);
  }

  lemma {:induction false} FactsUnique(tickets: map<TicketId, Ticket>, t: TicketId, id: Id)
    requires CallIdsUnique(tickets) && t in tickets
    ensures CallIdsUnique(tickets[t := tickets[t].(facts := Some(id))])
  {
  }

  lemma {:induction false} HandedOneMore(s: System, s': System, t: TicketId, id: Id)
    requires Placed(s) && Quiet(s) && s' == s.(handed := s.handed + {id})
    requires Knows(s.tickets, t, id) && id !in s.tables.reqState
    ensures Placed(s') && Quiet(s')
  {
    forall x | Cancelling(s', x)
      ensures TicketGone(s'.tickets, x)
    {
      assert Cancelling(s, x);
    }
  }

  // ---- the tasks' steps

  /** A task's step touches its own id only, and starts a cancel only where it may. */
  lemma {:induction false} TaskKeeps(s: System, k: TaskId, task: Task, seg: Segment)
    requires ProxyInvariant(s) && Framed(s.tables, task.id, seg.tables)
    requires k in s.tasks ==> s.tasks[k].id == task.id
    requires task.id in seg.tables.pending.at || seg.pc.WritingCancel? || (task.kind.Cancel? && seg.pc.Waiting?) ==>
               TicketGone(s.tickets, task.id)
    ensures ProxyInvariant(Stepped(s, k, task, seg))
  {
    var s' := Stepped(s, k, task, seg);
    forall x | Cancelling(s', x)
      ensures TicketGone(s'.tickets, x)
    {
      if x != task.id {
        if x in s'.tables.pending.at {
          assert x in s.tables.pending.at;
        } else {
          var j :| j in s'.tasks && s'.tasks[j].id == x
                   && (s'.tasks[j].pc.WritingCancel? || (s'.tasks[j].kind.Cancel? && s'.tasks[j].pc.Waiting?));
          assert j in s.tasks && s.tasks[j] == s'.tasks[j];
        }
        assert Cancelling(s, x);
      } else if x !in s'.tables.pending.at {
        var j :| j in s'.tasks && s'.tasks[j].id == x
                 && (s'.tasks[j].pc.WritingCancel? || (s'.tasks[j].kind.Cancel? && s'.tasks[j].pc.Waiting?));
        if j != k {
          assert Cancelling(s, x);
        }
      }
    }
  }

  lemma {:induction false} StartAuditKeeps(s: System, a: Action)
    requires Invariant(s) && ProxyInvariant(s) && Enabled(s, a) && a.StartAudit?
    ensures ProxyInvariant(Next(s, a))
  {
    var facts, cancelled := FactsOf(s, a.ctx), TicketCancelled(s, a.ctx);
    var seg := AuditStart(s.tables, a.k, a.id, facts, cancelled, a.logEvent);
    AuditStartBegins(s.tables, a.k, a.id, facts, cancelled, a.logEvent);
    assert a.id in seg.tables.pending.at || seg.pc.WritingCancel? ==> Cancelling(s, a.id);
    TaskKeeps(s, a.k, Task(Audit(a.logEvent), a.id, a.ctx, Ended(Owned)), seg);
  }

  lemma {:induction false} StartCancelKeeps(s: System, a: Action)
    requires Invariant(s) && ProxyInvariant(s) && Enabled(s, a) && a.StartCancel? && Proxied(s, a)
    ensures ProxyInvariant(Next(s, a))
  {
    var facts, reaches := FactsOf(s, a.ctx), Reaches(s, a.id, a.ctx);
    var seg := CancelStart(s.tables, a.k, a.id, facts, reaches, a.latencyMs);
    CancelStartBegins(s.tables, a.k, a.id, facts, reaches, a.latencyMs);
    assert TicketGone(s.tickets, a.id);
    TaskKeeps(s, a.k, Task(Cancel(OwnRecord(s.tables, a.id, a.latencyMs)), a.id, a.ctx, Ended(Owned)), seg);
  }

  lemma {:induction false} WakeKeepsQuiet(s: System, k: TaskId)
    requires Invariant(s) && ProxyInvariant(s) && Enabled(s, Wake(k))
    ensures ProxyInvariant(Next(s, Wake(k)))
  {
    var task := s.tasks[k];
    match task.kind
    case Audit(logEvent) =>
      var seg := AuditResume(s.tables, k, task.id, TicketCancelled(s, task.ctx), logEvent);
      AuditResumeBegins(s.tables, k, task.id, TicketCancelled(s, task.ctx), logEvent);
      assert task.id in seg.tables.pending.at || seg.pc.WritingCancel? ==> Cancelling(s, task.id);
      TaskKeeps(s, k, task, seg);
    case Cancel(own) =>
      CancelResumeBegins(s.tables, k, task.id, own);
      assert Cancelling(s, task.id);
      TaskKeeps(s, k, task, CancelResume(s.tables, k, task.id, own));
  }

  lemma {:induction false} CutWaitKeepsQuiet(s: System, k: TaskId)
    requires Invariant(s) && ProxyInvariant(s) && Enabled(s, CutWait(k))
    ensures ProxyInvariant(Next(s, CutWait(k)))
  {
    var task := s.tasks[k];
    match task.kind
    case Audit(_) =>
      assert task.id in s.tables.pending.at ==> Cancelling(s, task.id);
      TaskKeeps(s, k, task, Segment(s.tables, Ended(CutShort)));
    case Cancel(own) =>
      CancelCutBegins(s.tables, k, task.id, own);
      assert Cancelling(s, task.id);
      TaskKeeps(s, k, task, CancelCut(s.tables, task.id, own));
  }

  lemma {:induction false} CancelledResolveKeepsQuiet(s: System, k: TaskId, outcome: SinkOutcome)
    requires Invariant(s) && ProxyInvariant(s) && k in s.tasks && s.tasks[k].pc.WritingCancel?
    ensures ProxyInvariant(Stepped(s, k, s.tasks[k],
      CancelledResolve(s.tables, k, s.tasks[k].id, s.tasks[k].pc.record, outcome)))
  {
    var task := s.tasks[k];
    CancelledResolveEnds(s.tables, k, task.id, task.pc.record, outcome);
    assert Cancelling(s, task.id);
    TaskKeeps(s, k, task, CancelledResolve(s.tables, k, task.id, task.pc.record, outcome));
  }

  lemma {:induction false} AuditResolveKeepsQuiet(s: System, k: TaskId, outcome: SinkOutcome)
    requires Invariant(s) && ProxyInvariant(s) && k in s.tasks && s.tasks[k].pc.WritingAudit?
    ensures ProxyInvariant(Stepped(s, k, s.tasks[k], AuditResolve(s.tables, k, s.tasks[k].id, outcome)))
  {
    var task := s.tasks[k];
    var seg := AuditResolve(s.tables, k, task.id, outcome);
    AuditResolveEnds(s.tables, k, task.id, outcome);
    assert task.id in seg.tables.pending.at ==> Cancelling(s, task.id);
    TaskKeeps(s, k, task, seg);
  }

  lemma {:induction false} ResolveKeepsQuiet(s: System, k: TaskId, outcome: SinkOutcome)
    requires Invariant(s) && ProxyInvariant(s) && Enabled(s, Resolve(k, outcome))
    ensures ProxyInvariant(Next(s, Resolve(k, outcome)))
  {
    if s.tasks[k].pc.WritingCancel? {
      CancelledResolveKeepsQuiet(s, k, outcome);
      AckKeepsQuiet(Stepped(s, k, s.tasks[k],
        CancelledResolve(s.tables, k, s.tasks[k].id, s.tasks[k].pc.record, outcome)), s, s.tasks[k].id);
    } else {
      AuditResolveKeepsQuiet(s, k, outcome);
      AckKeepsQuiet(Stepped(s, k, s.tasks[k], AuditResolve(s.tables, k, s.tasks[k].id, outcome)), s, s.tasks[k].id);
    }
  }

  lemma {:induction false} AckKeepsQuiet(next: System, s: System, id: Id)
    requires ProxyInvariant(next)
    ensures ProxyInvariant(Acknowledging(next, s, id))
  {
    MovedKeeps(next, Acknowledging(next, s, id));
  }

  lemma {:induction false} StepKeepsQuiet(s: System, a: Action)
    requires Invariant(s) && ProxyInvariant(s) && Enabled(s, a) && Proxied(s, a)
    ensures ProxyInvariant(Next(s, a))
  {
    match a
    case OpenTicket(t, gatewayId) => OpenTicketKeeps(s, t, gatewayId);
    case Register(id, ctx, state) => RegisterKeeps(s, id, ctx, state);
    case HandOver(id, t) => HandOverKeepsQuiet(s, id, t);
    case CancelTicket(t) => CancelTicketKeeps(s, t);
    case CloseTicket(t) => CloseTicketKeeps(s, t);
    case StartAudit(_, _, _, _) => StartAuditKeeps(s, a);
    case StartCancel(_, _, _, _) => StartCancelKeeps(s, a);
    case Wake(k) => WakeKeepsQuiet(s, k);
    case CutWait(k) => CutWaitKeepsQuiet(s, k);
    case Resolve(k, outcome) => ResolveKeepsQuiet(s, k, outcome);
  }

  // ---- the theorem

  ghost predicate IsProxiedRun(states: seq<System>, actions: seq<Action>) {
    && IsRun(states, actions)
    && states[0].tables.mappingsBound
    && forall i :: 0 <= i < |actions| ==> Proxied(states[i], actions[i])
  }

  lemma {:induction false} InitIsQuiet()
    ensures ProxyInvariant(Init(true))
  {
  }

  lemma {:induction false} ProxiedRunInvariant(states: seq<System>, actions: seq<Action>, i: nat)
    requires IsProxiedRun(states, actions) && i < |states|
    ensures ProxyInvariant(states[i])
  {
    if i == 0 {
      var bound :| states[0] == Init(bound);
      InitIsQuiet();
    } else {
      ProxiedRunInvariant(states, actions, i - 1);
      RunInvariant(states, actions, i - 1);
      assert Step(states[i - 1], actions[i - 1], states[i - 1 + 1]);
      StepKeepsQuiet(states[i - 1], actions[i - 1]);
    }
  }

  // ---- what guards a handed-over id

  /** The facts of its ticket are still its own. */
  ghost predicate FactsAreIts(s: System, id: Id) {
    exists t :: Knows(s.tickets, t, id) && s.tickets[t].facts == Some(id)
  }

  /** Its ticket answers for it: by its facts, or because the hand-over FIFO remembers. */
  ghost predicate Claimed(s: System, id: Id) {
    FactsAreIts(s, id) || id in s.tables.owned.at
  }

  ghost predicate Guarded(s: System, id: Id) {
    Claimed(s, id) || id in s.tables.audited
  }

  /** A cancel of the id that waits for a write, or one that writes. */
  ghost predicate CancelWaits(s: System, id: Id) {
    exists k :: k in s.tasks && s.tasks[k].id == id && s.tasks[k].kind.Cancel? && s.tasks[k].pc.Waiting?
  }

  ghost predicate CancelWrites(s: System, id: Id) {
    exists k :: k in s.tasks && s.tasks[k].id == id && s.tasks[k].pc.WritingCancel?
  }

  /** Nothing of a cancel is left to write from; one may wait, but not while the ticket owns the id. */
  ghost predicate Silent(s: System, id: Id) {
    id in s.handed ==>
      && id !in s.tables.pending.at && !CancelWrites(s, id)
      && (CancelWaits(s, id) ==> !Claimed(s, id))
  }

  predicate TaskStep(a: Action) { a.StartAudit? || a.StartCancel? || a.Wake? || a.CutWait? || a.Resolve? }

  /** A task's step leaves the tickets and the hand-over FIFO alone. */
  lemma {:induction false} TaskStepFrames(s: System, a: Action)
    requires TablesOk(s) && Enabled(s, a) && TaskStep(a)
    ensures Next(s, a).tickets == s.tickets && Next(s, a).tables.owned == s.tables.owned
      && Next(s, a).handed == s.handed
  {
    if a.StartAudit? || a.StartCancel? {
    } else if a.Resolve? {
      ResolveFrames(s, a.k, a.outcome);
    } else {
      GoingOnFrames(s, a);
    }
  }

  lemma {:induction false} ResolveFrames(s: System, k: TaskId, outcome: SinkOutcome)
    requires TablesOk(s) && Enabled(s, Resolve(k, outcome))
    ensures var s' := Next(s, Resolve(k, outcome));
            s'.tickets == s.tickets && s'.tables.owned == s.tables.owned && s'.handed == s.handed
  {
    var task := s.tasks[k];
    if task.pc.WritingCancel? {
      ResolvedOwned(s.tables, k, task.id, task.pc.record, outcome);
    } else {
      ResolvedOwned(s.tables, k, task.id, CancelRecord("", 0, 0), outcome);
    }
  }

  lemma {:induction false} ResolvedOwned(t: Tables, k: TaskId, id: Id, record: CancelRecord, outcome: SinkOutcome)
    requires t.pending.Valid()
    ensures AuditResolve(t, k, id, outcome).tables.owned == t.owned
    ensures CancelledResolve(t, k, id, record, outcome).tables.owned == t.owned
  {
  }

  lemma {:induction false} GoingOnFrames(s: System, a: Action)
    requires TablesOk(s) && Enabled(s, a) && (a.Wake? || a.CutWait?)
    ensures var s' := Next(s, a);
            s'.tickets == s.tickets && s'.tables.owned == s.tables.owned && s'.handed == s.handed
  {
  }

  /** A ticket never claims a handed-over id again. */
  lemma {:induction false} NotClaimedAgain(s: System, a: Action, id: Id)
    requires TablesOk(s) && CallIdsUnique(s.tickets) && Enabled(s, a) && Proxied(s, a)
    requires id in s.handed && Placed(s) && !Claimed(s, id)
    ensures !Claimed(Next(s, a), id)
  {
    var s' := Next(s, a);
    if TaskStep(a) {
      TaskStepFrames(s, a);
    } else if a.HandOver? {
      s.tables.owned.PutTrim(a.id, a.t, AUDIT_DEDUP_CAP);
    } else if a.CloseTicket? {
      ReleasingMoves(s.(tickets := s.tickets[a.t := s.tickets[a.t].(closed := true)]), a.t,
        s.tickets[a.t].RequestIds());
    }
    var home :| Knows(s.tickets, home, id);
    forall t | Knows(s'.tickets, t, id)
      ensures s'.tickets[t].facts != Some(id)
    {
      if t in s.tickets && Knows(s.tickets, t, id) {
        assert s.tickets[t].facts != Some(id);
      }
    }
  }

  // ---- silence

  /** A handed-over id the ticket claims finds its cancel owned: the cancel runs in the context
      of a ticket that knows the id, and there is only one. */
  lemma {:induction false} ClaimedCancelIsOwned(s: System, id: Id, t: TicketId)
    requires CallIdsUnique(s.tickets) && Placed(s) && id in s.handed && Claimed(s, id)
    requires t in s.tickets && id in s.tickets[t].RequestIds()
    ensures OwnedByTicket(s.tables, s.tickets[t].facts, id)
  {
    var home :| Knows(s.tickets, home, id);
    assert Knows(s.tickets, t, id);
  }

  /** The step of a task for another id. */
  lemma {:induction false} OthersKeepSilent(s: System, k: TaskId, task: Task, seg: Segment, id: Id)
    requires Framed(s.tables, task.id, seg.tables) && task.id != id && (k in s.tasks ==> s.tasks[k].id == task.id)
    requires id !in s.tables.pending.at && !CancelWrites(s, id)
    ensures var s' := Stepped(s, k, task, seg);
            id !in s'.tables.pending.at && !CancelWrites(s', id) && (CancelWaits(s', id) ==> CancelWaits(s, id))
  {
    var s' := Stepped(s, k, task, seg);
    forall j | j in s'.tasks && s'.tasks[j].id == id
      ensures j in s.tasks && s'.tasks[j] == s.tasks[j]
    {
    }
  }

  /** The step of a task for the id itself, one that leaves nothing to write from. */
  lemma {:induction false} OwnKeepsSilent(s: System, k: TaskId, task: Task, seg: Segment)
    requires task.id !in s.tables.pending.at && !CancelWrites(s, task.id)
    requires task.id !in seg.tables.pending.at && !seg.pc.WritingCancel?
    ensures var s' := Stepped(s, k, task, seg);
            && task.id !in s'.tables.pending.at && !CancelWrites(s', task.id)
            && (CancelWaits(s', task.id) ==> CancelWaits(s, task.id) || (task.kind.Cancel? && seg.pc.Waiting?))
  {
    var s' := Stepped(s, k, task, seg);
    forall j | j in s'.tasks && j != k
      ensures j in s.tasks && s'.tasks[j] == s.tasks[j]
    {
    }
  }

  /** Nothing is left to write from, and who waits waits because the ticket does not claim the id. */
  ghost predicate NothingLeft(s: System, s': System, id: Id) {
    && id !in s'.tables.pending.at && !CancelWrites(s', id)
    && (CancelWaits(s', id) ==> !Claimed(s, id))
  }

  lemma {:induction false} AuditLeavesNothing(s: System, k: TaskId, task: Task, seg: Segment, id: Id)
    requires id in s.handed && Silent(s, id) && task.kind.Audit? && Framed(s.tables, task.id, seg.tables)
    requires k in s.tasks ==> s.tasks[k].id == task.id
    requires task.id == id ==> seg.tables.pending == s.tables.pending && !seg.pc.WritingCancel?
    ensures NothingLeft(s, Stepped(s, k, task, seg), id)
  {
    if task.id == id {
      OwnKeepsSilent(s, k, task, seg);
    } else {
      OthersKeepSilent(s, k, task, seg, id);
    }
  }

  lemma {:induction false} CancelLeavesNothing(s: System, k: TaskId, task: Task, seg: Segment, id: Id)
    requires id in s.handed && Silent(s, id) && Framed(s.tables, task.id, seg.tables)
    requires k in s.tasks ==> s.tasks[k].id == task.id
    requires task.id == id ==>
               id !in seg.tables.pending.at && !seg.pc.WritingCancel? && (seg.pc.Waiting? ==> !Claimed(s, id))
    ensures NothingLeft(s, Stepped(s, k, task, seg), id)
  {
    if task.id == id {
      OwnKeepsSilent(s, k, task, seg);
    } else {
      OthersKeepSilent(s, k, task, seg, id);
    }
  }

  lemma {:induction false} StartAuditSilent(s: System, a: Action, id: Id)
    requires TablesOk(s) && Enabled(s, a) && a.StartAudit? && id in s.handed && Silent(s, id)
    ensures NothingLeft(s, Next(s, a), id)
  {
    var facts, cancelled := FactsOf(s, a.ctx), TicketCancelled(s, a.ctx);
    AuditStartBegins(s.tables, a.k, a.id, facts, cancelled, a.logEvent);
    AuditLeavesNothing(s, a.k, Task(Audit(a.logEvent), a.id, a.ctx, Ended(Owned)),
                       AuditStart(s.tables, a.k, a.id, facts, cancelled, a.logEvent), id);
  }

  lemma {:induction false} StartCancelSilent(s: System, a: Action, id: Id)
    requires TablesOk(s) && CallIdsUnique(s.tickets) && Placed(s) && Enabled(s, a) && Proxied(s, a) && a.StartCancel?
    requires id in s.handed && Silent(s, id) && Guarded(s, id) && id !in s.tables.reqState
    ensures NothingLeft(s, Next(s, a), id)
  {
    var facts, reaches := FactsOf(s, a.ctx), Reaches(s, a.id, a.ctx);
    CancelStartBegins(s.tables, a.k, a.id, facts, reaches, a.latencyMs);
    if a.id == id && Claimed(s, id) {
      ClaimedCancelIsOwned(s, id, a.ctx.value);
    }
    CancelLeavesNothing(s, a.k, Task(Cancel(OwnRecord(s.tables, a.id, a.latencyMs)), a.id, a.ctx, Ended(Owned)),
                        CancelStart(s.tables, a.k, a.id, facts, reaches, a.latencyMs), id);
  }

  lemma {:induction false} WakeSilent(s: System, k: TaskId, id: Id)
    requires TablesOk(s) && Enabled(s, Wake(k)) && id in s.handed && Silent(s, id) && Guarded(s, id)
    ensures NothingLeft(s, Next(s, Wake(k)), id)
  {
    var task := s.tasks[k];
    match task.kind
    case Audit(logEvent) =>
      AuditResumeBegins(s.tables, k, task.id, TicketCancelled(s, task.ctx), logEvent);
      AuditLeavesNothing(s, k, task, AuditResume(s.tables, k, task.id, TicketCancelled(s, task.ctx), logEvent), id);
    case Cancel(own) =>
      CancelResumeBegins(s.tables, k, task.id, own);
      assert task.id == id ==> CancelWaits(s, id);
      CancelLeavesNothing(s, k, task, CancelResume(s.tables, k, task.id, own), id);
  }

  lemma {:induction false} CutWaitSilent(s: System, k: TaskId, id: Id)
    requires TablesOk(s) && Enabled(s, CutWait(k)) && id in s.handed && Silent(s, id) && Guarded(s, id)
    ensures NothingLeft(s, Next(s, CutWait(k)), id)
  {
    var task := s.tasks[k];
    match task.kind
    case Audit(_) => AuditLeavesNothing(s, k, task, Segment(s.tables, Ended(CutShort)), id);
    case Cancel(own) =>
      CancelCutBegins(s.tables, k, task.id, own);
      assert task.id == id ==> CancelWaits(s, id);
      CancelLeavesNothing(s, k, task, CancelCut(s.tables, task.id, own), id);
  }

  lemma {:induction false} ResolveSilent(s: System, k: TaskId, outcome: SinkOutcome, id: Id)
    requires Invariant(s) && Enabled(s, Resolve(k, outcome)) && id in s.handed && Silent(s, id)
    ensures NothingLeft(s, Next(s, Resolve(k, outcome)), id)
  {
    if s.tasks[k].pc.WritingCancel? {
      CancelledSilent(s, k, outcome, id);
    } else {
      AuditedSilent(s, k, outcome, id);
    }
  }

  lemma {:induction false} CancelledSilent(s: System, k: TaskId, outcome: SinkOutcome, id: Id)
    requires TablesOk(s) && WritersOk(s) && id in s.handed && Silent(s, id)
    requires k in s.tasks && s.tasks[k].pc.WritingCancel?
    ensures NothingLeft(s,
      Stepped(s, k, s.tasks[k], CancelledResolve(s.tables, k, s.tasks[k].id, s.tasks[k].pc.record, outcome)), id)
  {
    var task := s.tasks[k];
    assert task.id != id;
    CancelledResolveEnds(s.tables, k, task.id, task.pc.record, outcome);
    OthersKeepSilent(s, k, task, CancelledResolve(s.tables, k, task.id, task.pc.record, outcome), id);
  }

  lemma {:induction false} AuditedSilent(s: System, k: TaskId, outcome: SinkOutcome, id: Id)
    requires TablesOk(s) && WritersOk(s) && id in s.handed && Silent(s, id)
    requires k in s.tasks && s.tasks[k].pc.WritingAudit?
    ensures NothingLeft(s, Stepped(s, k, s.tasks[k], AuditResolve(s.tables, k, s.tasks[k].id, outcome)), id)
  {
    var task := s.tasks[k];
    var seg := AuditResolve(s.tables, k, task.id, outcome);
    AuditResolveEnds(s.tables, k, task.id, outcome);
    if task.id == id {
      OwnKeepsSilent(s, k, task, seg);
    } else {
      OthersKeepSilent(s, k, task, seg, id);
    }
  }

  /** A step that finds the id guarded leaves it silent. */
  lemma {:induction false} StepKeepsSilent(s: System, a: Action, id: Id)
    requires Invariant(s) && ProxyInvariant(s) && Enabled(s, a) && Proxied(s, a)
    requires Silent(s, id) && (id in s.handed ==> Guarded(s, id))
    ensures Silent(Next(s, a), id)
  {
    if id in s.handed {
      if TaskStep(a) {
        TaskStepSilent(s, a, id);
      } else {
        ProxyStepSilent(s, a, id);
      }
      ClaimStaysGone(s, a, id);
    } else {
      HandedOverSilent(s, a, id);
    }
  }

  lemma {:induction false} ClaimStaysGone(s: System, a: Action, id: Id)
    requires TablesOk(s) && CallIdsUnique(s.tickets) && Enabled(s, a) && Proxied(s, a) && id in s.handed && Placed(s)
    ensures Claimed(Next(s, a), id) ==> Claimed(s, id)
  {
    if !Claimed(s, id) {
      NotClaimedAgain(s, a, id);
    }
  }

  /** The ticket is not cancelled at the hand-over, so no cancel of the id is under way. */
  lemma {:induction false} HandedOverSilent(s: System, a: Action, id: Id)
    requires TablesOk(s) && CallIdsUnique(s.tickets) && Quiet(s) && Enabled(s, a) && Proxied(s, a) && id !in s.handed
    ensures Silent(Next(s, a), id)
  {
    var s' := Next(s, a);
    if TaskStep(a) {
      TaskStepFrames(s, a);
    } else if a.CloseTicket? {
      ReleasingMoves(s.(tickets := s.tickets[a.t := s.tickets[a.t].(closed := true)]), a.t,
        s.tickets[a.t].RequestIds());
    } else if a.HandOver? && a.id == id {
      HandOverIsQuiet(s, id, a.t);
      assert !CancelWrites(s, id) && !CancelWaits(s, id);
      assert s'.tasks == s.tasks && s'.tables.pending == s.tables.pending;
    }
  }

  lemma {:induction false} TaskStepSilent(s: System, a: Action, id: Id)
    requires Invariant(s) && ProxyInvariant(s) && Enabled(s, a) && Proxied(s, a) && TaskStep(a)
    requires id in s.handed && Silent(s, id) && Guarded(s, id)
    ensures NothingLeft(s, Next(s, a), id)
  {
    if a.StartAudit? {
      StartAuditSilent(s, a, id);
    } else if a.StartCancel? {
      StartCancelSilent(s, a, id);
    } else if a.Wake? {
      WakeSilent(s, a.k, id);
    } else if a.CutWait? {
      CutWaitSilent(s, a.k, id);
    } else {
      ResolveSilent(s, a.k, a.outcome, id);
    }
  }

  lemma {:induction false} ProxyStepSilent(s: System, a: Action, id: Id)
    requires TablesOk(s) && Enabled(s, a) && !TaskStep(a) && id in s.handed && Silent(s, id)
    ensures NothingLeft(s, Next(s, a), id)
  {
    var s' := Next(s, a);
    if a.CloseTicket? {
      ReleasingMoves(s.(tickets := s.tickets[a.t := s.tickets[a.t].(closed := true)]), a.t,
        s.tickets[a.t].RequestIds());
    }
    assert s'.tasks == s.tasks && s'.tables.pending == s.tables.pending;
  }

  // ---- the theorems

  predicate LogEventWrites(s: System, k: TaskId, id: Id) {
    k in s.tasks && s.tasks[k].kind == Audit(true) && s.tasks[k].id == id && s.tasks[k].pc.Writing()
  }

  /** With no queued counts and no request state there is nothing to write from. */
  lemma {:induction false} OrphanEnds(t: Tables, k: TaskId, id: Id, cancelled: bool)
    requires id !in t.pending.at && id !in t.reqState && t.mappingsBound
    ensures !AuditResume(t, k, id, cancelled, true).pc.Writing()
  {
  }

  /** A step other than an audit's start or wake makes no task write. */
  lemma {:induction false} OtherStepsWriteNothing(s: System, a: Action, k: TaskId, id: Id)
    requires TablesOk(s) && Enabled(s, a) && !a.StartAudit? && !a.Wake? && !a.StartCancel?
    requires LogEventWrites(Next(s, a), k, id)
    ensures LogEventWrites(s, k, id)
  {
    if a.CloseTicket? {
      var closed := s.(tickets := s.tickets[a.t := s.tickets[a.t].(closed := true)]);
      ReleasingMoves(closed, a.t, s.tickets[a.t].RequestIds());
    }
  }

  lemma {:induction false} SilentLogEventEnds(s: System, a: Action, k: TaskId, id: Id)
    requires TablesOk(s) && s.tables.mappingsBound && Enabled(s, a)
    requires id !in s.tables.pending.at && id !in s.tables.reqState
    requires LogEventWrites(Next(s, a), k, id)
    ensures LogEventWrites(s, k, id)
  {
    if a.StartAudit? {
      OrphanEnds(s.tables, a.k, id, TicketCancelled(s, a.ctx));
    } else if a.Wake? {
      OrphanEnds(s.tables, a.k, id, TicketCancelled(s, s.tasks[a.k].ctx));
    } else if !a.StartCancel? {
      OtherStepsWriteNothing(s, a, k, id);
    }
  }

  /** Since it was handed over the id has been guarded in every state before the `i`-th. */
  ghost predicate GuardedUpTo(states: seq<System>, i: nat, id: Id)
    requires i <= |states|
  {
    forall m :: 0 <= m < i && id in states[m].handed ==> Guarded(states[m], id)
  }

  lemma {:induction false} RunSilent(states: seq<System>, actions: seq<Action>, i: nat, id: Id)
    requires IsProxiedRun(states, actions) && i < |states| && GuardedUpTo(states, i, id)
    ensures Silent(states[i], id)
  {
    if i == 0 {
      var bound :| states[0] == Init(bound);
    } else {
      RunSilent(states, actions, i - 1, id);
      RunInvariant(states, actions, i - 1);
      ProxiedRunInvariant(states, actions, i - 1);
      assert Step(states[i - 1], actions[i - 1], states[i - 1 + 1]);
      StepKeepsSilent(states[i - 1], actions[i - 1], id);
    }
  }

  /** As long as its ticket's facts are its own or a FIFO remembers it, no step of a proxied run
      makes a log event write a record for an id handed over before. */
  lemma {:induction false} SilentWhileGuarded(states: seq<System>, actions: seq<Action>, i: nat, k: TaskId, id: Id)
    requires IsProxiedRun(states, actions) && i < |actions| && id in states[i].handed && GuardedUpTo(states, i, id)
    requires !LogEventWrites(states[i], k, id)
    ensures !LogEventWrites(states[i + 1], k, id)
  {
    RunSilent(states, actions, i, id);
    ProxiedRunInvariant(states, actions, i);
    RunStep(states, actions, i);
    if LogEventWrites(states[i + 1], k, id) {
      SilentLogEventEnds(states[i], actions[i], k, id);
    }
  }

  // ---- one request per ticket

  /** No other request is handed to the ticket of `id`. */
  ghost predicate HandedAlone(states: seq<System>, actions: seq<Action>, i: nat, id: Id)
    requires i <= |actions| && i <= |states|
  {
    forall m :: 0 <= m < i && actions[m].HandOver? && Knows(states[m].tickets, actions[m].t, id) ==> actions[m].id == id
  }

  lemma {:induction false} FactsStay(s: System, a: Action, id: Id)
    requires TablesOk(s) && Enabled(s, a) && Proxied(s, a) && (id in s.handed ==> FactsAreIts(s, id))
    requires a.HandOver? && Knows(s.tickets, a.t, id) ==> a.id == id
    ensures id in Next(s, a).handed ==> FactsAreIts(Next(s, a), id)
  {
    var s' := Next(s, a);
    if TaskStep(a) {
      TaskStepFrames(s, a);
    } else if a.CloseTicket? {
      ReleasingMoves(s.(tickets := s.tickets[a.t := s.tickets[a.t].(closed := true)]), a.t,
        s.tickets[a.t].RequestIds());
    }
    if id in s.handed {
      var t :| Knows(s.tickets, t, id) && s.tickets[t].facts == Some(id);
      assert Knows(s'.tickets, t, id) && s'.tickets[t].facts == Some(id);
    } else if id in s'.handed {
      assert Knows(s'.tickets, a.t, id) && s'.tickets[a.t].facts == Some(id);
    }
  }

  lemma {:induction false} FactsAreKept(states: seq<System>, actions: seq<Action>, i: nat, id: Id)
    requires IsProxiedRun(states, actions) && i < |states| && HandedAlone(states, actions, i, id)
    ensures id in states[i].handed ==> FactsAreIts(states[i], id)
  {
    if i == 0 {
      var bound :| states[0] == Init(bound);
    } else {
      FactsAreKept(states, actions, i - 1, id);
      RunStep(states, actions, i - 1);
      FactsStay(states[i - 1], actions[i - 1], id);
    }
  }

  // ---- after the close

  /** Its ticket has closed, and no cancel of the id waits, writes or left counts behind. */
  ghost predicate Settled(s: System, id: Id) {
    && id in s.handed && (exists t :: Knows(s.tickets, t, id) && s.tickets[t].closed)
    && !Cancelling(s, id)
  }

  lemma {:induction false} NoCancelOf(s: System, id: Id)
    ensures Cancelling(s, id) <==> id in s.tables.pending.at || CancelWrites(s, id) || CancelWaits(s, id)
  {
  }

  /** The step of a task: one for another id, or one for the id that leaves nothing of a cancel. */
  lemma {:induction false} TaskStaysSettled(s: System, k: TaskId, task: Task, seg: Segment, id: Id)
    requires !Cancelling(s, id) && Framed(s.tables, task.id, seg.tables) && (k in s.tasks ==> s.tasks[k].id == task.id)
    requires task.id == id ==> task.kind.Audit? && id !in seg.tables.pending.at && !seg.pc.WritingCancel?
    ensures !Cancelling(Stepped(s, k, task, seg), id)
  {
    NoCancelOf(s, id);
    NoCancelOf(Stepped(s, k, task, seg), id);
    if task.id == id {
      OwnKeepsSilent(s, k, task, seg);
    } else {
      OthersKeepSilent(s, k, task, seg, id);
    }
  }

  /** No cancel of the id can start: the only ticket that knows it has closed. */
  lemma {:induction false} NoCancelStarts(s: System, a: Action, id: Id)
    requires CallIdsUnique(s.tickets) && Settled(s, id) && a.StartCancel? && Proxied(s, a)
    ensures a.id != id
  {
  }

  lemma {:induction false} StartStaysSettled(s: System, a: Action, id: Id)
    requires TablesOk(s) && CallIdsUnique(s.tickets) && Settled(s, id) && Enabled(s, a) && Proxied(s, a)
    requires a.StartAudit? || a.StartCancel?
    ensures !Cancelling(Next(s, a), id)
  {
    if a.StartAudit? {
      var facts, cancelled := FactsOf(s, a.ctx), TicketCancelled(s, a.ctx);
      AuditStartBegins(s.tables, a.k, a.id, facts, cancelled, a.logEvent);
      TaskStaysSettled(s, a.k, Task(Audit(a.logEvent), a.id, a.ctx, Ended(Owned)),
                       AuditStart(s.tables, a.k, a.id, facts, cancelled, a.logEvent), id);
    } else {
      NoCancelStarts(s, a, id);
      var facts, reaches := FactsOf(s, a.ctx), Reaches(s, a.id, a.ctx);
      CancelStartBegins(s.tables, a.k, a.id, facts, reaches, a.latencyMs);
      TaskStaysSettled(s, a.k, Task(Cancel(OwnRecord(s.tables, a.id, a.latencyMs)), a.id, a.ctx, Ended(Owned)),
                       CancelStart(s.tables, a.k, a.id, facts, reaches, a.latencyMs), id);
    }
  }

  lemma {:induction false} GoingOnStaysSettled(s: System, a: Action, id: Id)
    requires TablesOk(s) && Settled(s, id) && Enabled(s, a) && (a.Wake? || a.CutWait?)
    ensures !Cancelling(Next(s, a), id)
  {
    var task := s.tasks[a.k];
    if task.kind.Audit? {
      var cancelled, logEvent := TicketCancelled(s, task.ctx), task.kind.logEvent;
      AuditResumeBegins(s.tables, a.k, task.id, cancelled, logEvent);
      TaskStaysSettled(s, a.k, task, if a.Wake? then AuditResume(s.tables, a.k, task.id, cancelled, logEvent)
                                     else Segment(s.tables, Ended(CutShort)), id);
    } else {
      var own := task.kind.own;
      CancelResumeBegins(s.tables, a.k, task.id, own);
      CancelCutBegins(s.tables, a.k, task.id, own);
      TaskStaysSettled(s, a.k, task, if a.Wake? then CancelResume(s.tables, a.k, task.id, own)
                                     else CancelCut(s.tables, task.id, own), id);
    }
  }

  lemma {:induction false} ResolveStaysSettled(s: System, k: TaskId, outcome: SinkOutcome, id: Id)
    requires TablesOk(s) && WritersOk(s) && Settled(s, id) && Enabled(s, Resolve(k, outcome))
    ensures !Cancelling(Next(s, Resolve(k, outcome)), id)
  {
    var task := s.tasks[k];
    if task.pc.WritingCancel? {
      CancelledResolveEnds(s.tables, k, task.id, task.pc.record, outcome);
      TaskStaysSettled(s, k, task, CancelledResolve(s.tables, k, task.id, task.pc.record, outcome), id);
    } else {
      AuditResolveEnds(s.tables, k, task.id, outcome);
      TaskStaysSettled(s, k, task, AuditResolve(s.tables, k, task.id, outcome), id);
    }
  }

  lemma {:induction false} ClosedStaysClosed(s: System, a: Action, id: Id)
    requires TablesOk(s) && Enabled(s, a) && id in s.handed
    requires exists t :: Knows(s.tickets, t, id) && s.tickets[t].closed
    ensures id in Next(s, a).handed && exists t :: Knows(Next(s, a).tickets, t, id) && Next(s, a).tickets[t].closed
  {
    var t :| Knows(s.tickets, t, id) && s.tickets[t].closed;
    if TaskStep(a) {
      TaskStepFrames(s, a);
    } else if a.CloseTicket? {
      ReleasingMoves(s.(tickets := s.tickets[a.t := s.tickets[a.t].(closed := true)]), a.t,
        s.tickets[a.t].RequestIds());
    }
    assert Knows(Next(s, a).tickets, t, id) && Next(s, a).tickets[t].closed;
  }

  /** A settled id stays settled, whatever the FIFOs forget. */
  lemma {:induction false} StepKeepsSettled(s: System, a: Action, id: Id)
    requires Invariant(s) && ProxyInvariant(s) && Settled(s, id) && Enabled(s, a) && Proxied(s, a)
    ensures Settled(Next(s, a), id)
  {
    ClosedStaysClosed(s, a, id);
    if a.StartAudit? || a.StartCancel? {
      StartStaysSettled(s, a, id);
    } else if a.Wake? || a.CutWait? {
      GoingOnStaysSettled(s, a, id);
    } else if a.Resolve? {
      ResolveStaysSettled(s, a.k, a.outcome, id);
    } else {
      ProxyStepKeepsTasks(s, a);
      NoCancelOf(s, id);
      NoCancelOf(Next(s, a), id);
    }
  }

  lemma {:induction false} ProxyStepKeepsTasks(s: System, a: Action)
    requires TablesOk(s) && Enabled(s, a) && !TaskStep(a)
    ensures Next(s, a).tasks == s.tasks && Next(s, a).tables.pending == s.tables.pending
  {
    if a.CloseTicket? {
      ReleasingMoves(s.(tickets := s.tickets[a.t := s.tickets[a.t].(closed := true)]), a.t,
        s.tickets[a.t].RequestIds());
    }
  }

  lemma {:induction false} SettledStep(states: seq<System>, actions: seq<Action>, i: nat, id: Id)
    requires IsProxiedRun(states, actions) && i < |actions| && Settled(states[i], id)
    ensures Settled(states[i + 1], id)
  {
    RunInvariant(states, actions, i);
    ProxiedRunInvariant(states, actions, i);
    RunStep(states, actions, i);
    StepKeepsSettled(states[i], actions[i], id);
  }

  lemma {:induction false} SettledForGood(states: seq<System>, actions: seq<Action>, j: nat, i: nat, id: Id)
    requires IsProxiedRun(states, actions) && j <= i < |states| && Settled(states[j], id)
    ensures Settled(states[i], id)
    decreases i
  {
    if j < i {
      SettledForGood(states, actions, j, i - 1, id);
      SettledStep(states, actions, i - 1, id);
    }
  }

  /** The ticket of an id guarded so far has closed, and no cancel waits: the id is settled. */
  lemma {:induction false} ClosedWhileGuarded(states: seq<System>, actions: seq<Action>, i: nat, t: TicketId, id: Id)
    requires IsProxiedRun(states, actions) && i < |states| && id in states[i].handed && GuardedUpTo(states, i, id)
    requires Knows(states[i].tickets, t, id) && states[i].tickets[t].closed && !CancelWaits(states[i], id)
    ensures Settled(states[i], id)
  {
    RunSilent(states, actions, i, id);
    NoCancelOf(states[i], id);
  }

  ghost predicate SettledBy(states: seq<System>, i: nat, id: Id)
    requires i < |states|
  {
    exists j :: 0 <= j <= i && Settled(states[j], id)
  }

  lemma {:induction false} SilentOnceSettled(states: seq<System>, actions: seq<Action>, i: nat, k: TaskId, id: Id)
    requires IsProxiedRun(states, actions) && i < |actions| && SettledBy(states, i, id)
    requires !LogEventWrites(states[i], k, id)
    ensures !LogEventWrites(states[i + 1], k, id)
  {
    var j :| 0 <= j <= i && Settled(states[j], id);
    SettledForGood(states, actions, j, i, id);
    ProxiedRunInvariant(states, actions, i);
    RunStep(states, actions, i);
    if LogEventWrites(states[i + 1], k, id) {
      SilentLogEventEnds(states[i], actions[i], k, id);
    }
  }

  /** No step of a proxied run makes a log event write a record for an id handed over before: not
      while the id is guarded; not for good, once its ticket has closed with no cancel of it under
      way, also when both FIFOs have forgotten it; and not at all when it is the only id handed to
      its ticket. */
  lemma {:induction false} NoLogRecordAfterHandOver(
    states: seq<System>, actions: seq<Action>, i: nat, k: TaskId, id: Id)
    requires IsProxiedRun(states, actions) && i < |actions| && id in states[i].handed
    requires GuardedUpTo(states, i, id) || SettledBy(states, i, id) || HandedAlone(states, actions, i, id)
    requires !LogEventWrites(states[i], k, id)
    ensures !LogEventWrites(states[i + 1], k, id)
  {
    if SettledBy(states, i, id) {
      SilentOnceSettled(states, actions, i, k, id);
    } else {
      if HandedAlone(states, actions, i, id) {
        forall m | 0 <= m < i && id in states[m].handed
          ensures Guarded(states[m], id)
        {
          FactsAreKept(states, actions, m, id);
        }
      }
      SilentWhileGuarded(states, actions, i, k, id);
    }
  }

  // ---- and otherwise

  lemma {:induction false} ProxiedRunGrows(states: seq<System>, actions: seq<Action>, a: Action)
    requires IsProxiedRun(states, actions)
    requires var s := states[|states| - 1]; TablesOk(s) && Enabled(s, a) && Proxied(s, a)
    ensures IsProxiedRun(states + [Next(states[|states| - 1], a)], actions + [a])
  {
    var s := states[|states| - 1];
    var more, acts := states + [Next(s, a)], actions + [a];
    forall i, j | 0 <= i < |acts| && j == i + 1
      ensures Step(more[i], acts[i], more[j])
    {
      if i < |actions| {
        assert Step(states[i], actions[i], states[j]);
      }
    }
    forall i | 0 <= i < |acts|
      ensures Proxied(more[i], acts[i])
    {
      if i < |actions| {
        assert Proxied(states[i], actions[i]);
      }
    }
  }
}
