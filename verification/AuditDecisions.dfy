/**
  What a task does with what it finds: which audit writes and what, how it ends otherwise, and
  what becomes of the counts of a cancel. Stated on the states of a run alone: a write under way
  is a task at one, and the dedup FIFO is the last ids that entered it.
 */
module AuditDecisions {
  import opened Wrappers
  import opened OrderedDict
  import opened Guardrail
  import opened AuditRuns
  import opened AuditTheorems

  // ---- what a task finds

  ghost predicate BeingWritten(s: System, id: Id) {
    exists w :: WritesFor(s, w, id)
  }

  /** One of the last 4096 ids that entered the dedup FIFO. */
  ghost predicate Remembered(s: System, id: Id) {
    exists p: nat :: p < |s.entered| <= p + 4096 && s.entered[p] == id
  }

  /** The caller's own ticket holds facts for the id, or the hand-over FIFO holds it. */
  ghost predicate TicketOwns(s: System, id: Id, ctx: Option<TicketId>) {
    (ctx.Some? && ctx.value in s.tickets && s.tickets[ctx.value].facts == Some(id)) || id in s.tables.owned.at
  }

  ghost predicate ClientGone(s: System, ctx: Option<TicketId>) {
    ctx.Some? && ctx.value in s.tickets && s.tickets[ctx.value].cancelled
  }

  ghost function StateOf(s: System, id: Id): Option<RequestState> {
    if id in s.tables.reqState then Some(s.tables.reqState[id]) else None
  }

  lemma {:induction false} SlotsAreWriters(s: System, id: Id)
    requires WritersOk(s)
    ensures InFlight(s.tables, id).Some? <==> BeingWritten(s, id)
    ensures InFlight(s.tables, id).Some? ==> WritesFor(s, InFlight(s.tables, id).value, id)
  {
    if InFlight(s.tables, id).Some? {
      assert WritesFor(s, InFlight(s.tables, id).value, id);
    }
  }

  lemma {:induction false} AuditedIsRemembered(s: System, id: Id)
    requires TablesOk(s)
    ensures id in s.tables.audited <==> Remembered(s, id)
  {
    NewestHas(s.entered, id);
    if id in s.tables.audited {
      var p: nat :| AmongNewest(s.entered, id, p);
      assert p < |s.entered| <= p + 4096 && s.entered[p] == id;
    }
    if Remembered(s, id) {
      var p: nat :| p < |s.entered| <= p + 4096 && s.entered[p] == id;
      assert AmongNewest(s.entered, id, p);
    }
  }

  // ---- audits

  /** Whose request it was and its redactions, or an unknown one's when no state is registered. */
  ghost predicate TellsOf(r: AuditRecord, state: Option<RequestState>) {
    match state
    case None => r.userId == "unknown" && r.redactions == 0
    case Some(st) => r.userId == st.userId && r.redactions == st.redactions
  }

  /** Where an audit is after it has looked. `owned` is the look at the ticket, on starting only. */
  ghost predicate AuditOutcome(s: System, owned: bool, id: Id, ctx: Option<TicketId>, logEvent: bool, pc: Pc) {
    var free := !owned && !BeingWritten(s, id) && !Remembered(s, id);
    var unqueued := free && id !in s.tables.pending.at;
    && (pc == Ended(Owned) <==> owned)
    && (pc.Waiting? <==> !owned && BeingWritten(s, id))
    && (pc.Waiting? ==> WritesFor(s, pc.on, id))
    && (pc == Ended(Deduped) <==> !owned && !BeingWritten(s, id) && Remembered(s, id))
    && (pc.WritingCancel? <==> free && id in s.tables.pending.at)
    && (pc.WritingCancel? ==> pc.record == s.tables.pending.at[id])
    && (pc == Ended(Deferred) <==> unqueued && ClientGone(s, ctx))
    && (pc.WritingAudit? <==>
          unqueued && !ClientGone(s, ctx) && (id in s.tables.reqState || !logEvent || !s.tables.mappingsBound))
    && (pc.WritingAudit? ==> TellsOf(pc.written, StateOf(s, id)))
    && (pc == Ended(Orphan) <==>
          unqueued && !ClientGone(s, ctx) && id !in s.tables.reqState && logEvent && s.tables.mappingsBound)
  }

  lemma {:induction false} AuditStarts(s: System, k: TaskId, id: Id, ctx: Option<TicketId>, logEvent: bool)
    requires TablesOk(s) && WritersOk(s) && Enabled(s, StartAudit(k, id, ctx, logEvent))
    ensures var s' := Next(s, StartAudit(k, id, ctx, logEvent));
            && k in s'.tasks && s'.tasks[k] == Task(Audit(logEvent), id, ctx, s'.tasks[k].pc)
            && AuditOutcome(s, TicketOwns(s, id, ctx), id, ctx, logEvent, s'.tasks[k].pc)
  {
    SlotsAreWriters(s, id);
    AuditedIsRemembered(s, id);
  }

  lemma {:induction false} AuditGoesOn(s: System, k: TaskId)
    requires TablesOk(s) && WritersOk(s) && Enabled(s, Wake(k)) && s.tasks[k].kind.Audit?
    ensures var task, s' := s.tasks[k], Next(s, Wake(k));
            && k in s'.tasks && s'.tasks[k] == task.(pc := s'.tasks[k].pc)
            && AuditOutcome(s, false, task.id, task.ctx, task.kind.logEvent, s'.tasks[k].pc)
  {
    SlotsAreWriters(s, s.tasks[k].id);
    AuditedIsRemembered(s, s.tasks[k].id);
  }

  /** In every run, an audit that starts or wakes decides by what it finds, and by nothing else:
      it writes if and only if no ticket owns the id, no write of it is under way or remembered,
      no counts of it are queued, its client is there, and it has something to write from or no
      other record can come; and the record it writes tells of its request. */
  lemma {:induction false} AuditDecides(states: seq<System>, actions: seq<Action>, i: nat)
    requires IsRun(states, actions) && i < |actions|
    requires actions[i].StartAudit? || (actions[i].Wake? && actions[i].k in states[i].tasks
                                        && states[i].tasks[actions[i].k].kind.Audit?)
    ensures var s, s', a := states[i], states[i + 1], actions[i];
            && a.k in s'.tasks && s'.tasks[a.k].kind.Audit?
            && (a.StartAudit? ==> s'.tasks[a.k] == Task(Audit(a.logEvent), a.id, a.ctx, s'.tasks[a.k].pc))
            && var task := s'.tasks[a.k];
               AuditOutcome(s, a.StartAudit? && TicketOwns(s, task.id, task.ctx), task.id, task.ctx,
                            task.kind.logEvent, task.pc)
  {
    RunInvariant(states, actions, i);
    assert Step(states[i], actions[i], states[i + 1]);
    var a := actions[i];
    if a.StartAudit? {
      AuditStarts(states[i], a.k, a.id, a.ctx, a.logEvent);
    } else {
      AuditGoesOn(states[i], a.k);
    }
  }

  // ---- cancels

  /** The counts a cancel finds under its id. */
  ghost predicate CountsOf(r: CancelRecord, state: Option<RequestState>, latencyMs: int) {
    && r.latencyMs == (if latencyMs < 0 then 0 else latencyMs)
    && match state
       case None => r.userId == "unknown" && r.redactions == 0
       case Some(st) => r.userId == st.userId && r.redactions == st.redactions
  }

  /** A cancel may end the state that is registered: it has no ticket, the canceller's own, or,
      for one without a ticket, a cancelled one. */
  ghost predicate MayEnd(s: System, state: Option<RequestState>, ctx: Option<TicketId>) {
    state.Some? && state.value.ticket.Some? ==>
      if ctx.Some? then ctx == state.value.ticket else ClientGone(s, state.value.ticket)
  }

  /** Where a cancel is after it has looked: `owned` and `foreign` are looked at on starting. */
  ghost predicate CancelOutcome(s: System, owned: bool, foreign: bool, id: Id, own: CancelRecord, pc: Pc) {
    var goes := !owned && !foreign;
    && (pc == Ended(Owned) <==> owned)
    && (pc == Ended(Mismatch) <==> !owned && foreign)
    && (pc.Waiting? <==> goes && BeingWritten(s, id))
    && (pc.Waiting? ==> WritesFor(s, pc.on, id))
    && (pc == Ended(Deduped) <==> goes && !BeingWritten(s, id) && Remembered(s, id))
    && (pc.WritingCancel? <==> goes && !BeingWritten(s, id) && !Remembered(s, id))
    && (pc.WritingCancel? ==> pc.record == if id in s.tables.pending.at then s.tables.pending.at[id] else own)
  }

  /** What it leaves in the queue: nothing of its id where another record settles it, and else all
      that was there. */
  ghost predicate CancelLeaves(s: System, s': System, id: Id, pc: Pc) {
    if pc == Ended(Owned) || pc == Ended(Deduped) then id !in s'.tables.pending.at
    else s'.tables.pending == s.tables.pending
  }

  lemma {:induction false} CancelFinds(s: System, k: TaskId, id: Id, ctx: Option<TicketId>, latencyMs: int)
    requires TablesOk(s) && WritersOk(s) && Enabled(s, StartCancel(k, id, ctx, latencyMs))
    ensures var s' := Next(s, StartCancel(k, id, ctx, latencyMs));
            && k in s'.tasks && s'.tasks[k].kind.Cancel? && s'.tasks[k].id == id && s'.tasks[k].ctx == ctx
            && CountsOf(s'.tasks[k].kind.own, StateOf(s, id), latencyMs)
            && CancelOutcome(s, TicketOwns(s, id, ctx), !MayEnd(s, StateOf(s, id), ctx), id,
                             s'.tasks[k].kind.own, s'.tasks[k].pc)
            && CancelLeaves(s, s', id, s'.tasks[k].pc)
  {
    SlotsAreWriters(s, id);
    AuditedIsRemembered(s, id);
  }

  lemma {:induction false} CancelWakes(s: System, k: TaskId)
    requires TablesOk(s) && WritersOk(s) && Enabled(s, Wake(k)) && s.tasks[k].kind.Cancel?
    ensures var task, s' := s.tasks[k], Next(s, Wake(k));
            && k in s'.tasks && s'.tasks[k] == task.(pc := s'.tasks[k].pc)
            && CancelOutcome(s, false, false, task.id, task.kind.own, s'.tasks[k].pc)
            && CancelLeaves(s, s', task.id, s'.tasks[k].pc)
  {
    SlotsAreWriters(s, s.tasks[k].id);
    AuditedIsRemembered(s, s.tasks[k].id);
  }

  /** In every run, a cancel that starts or wakes decides by what it finds: it writes its own
      counts, or those queued for its id before it. */
  lemma {:induction false} CancelDecides(states: seq<System>, actions: seq<Action>, i: nat)
    requires IsRun(states, actions) && i < |actions|
    requires actions[i].StartCancel? || (actions[i].Wake? && actions[i].k in states[i].tasks
                                         && states[i].tasks[actions[i].k].kind.Cancel?)
    ensures var s, s', a := states[i], states[i + 1], actions[i];
            && a.k in s'.tasks && s'.tasks[a.k].kind.Cancel?
            && (a.StartCancel? ==> s'.tasks[a.k].id == a.id && s'.tasks[a.k].ctx == a.ctx
                                   && CountsOf(s'.tasks[a.k].kind.own, StateOf(s, a.id), a.latencyMs))
            && CancelLeaves(s, s', s'.tasks[a.k].id, s'.tasks[a.k].pc)
            && var task := s'.tasks[a.k];
               CancelOutcome(s, a.StartCancel? && TicketOwns(s, task.id, task.ctx),
                             a.StartCancel? && !MayEnd(s, StateOf(s, task.id), task.ctx), task.id,
                             task.kind.own, task.pc)
  {
    RunInvariant(states, actions, i);
    assert Step(states[i], actions[i], states[i + 1]);
    var a := actions[i];
    if a.StartCancel? {
      CancelFinds(states[i], a.k, a.id, a.ctx, a.latencyMs);
    } else {
      CancelWakes(states[i], a.k);
    }
  }

  // ---- waiting

  /** In every run, a task wakes only when the write it waited for is over, and an audit cut short
      while it waits leaves everything as it was. */
  lemma {:induction false} WaitEnds(states: seq<System>, actions: seq<Action>, i: nat)
    requires IsRun(states, actions) && i < |actions| && (actions[i].Wake? || actions[i].CutWait?)
    ensures var s, s', k := states[i], states[i + 1], actions[i].k;
            && k in s.tasks && s.tasks[k].pc.Waiting?
            && (actions[i].Wake? ==> !WritesFor(s, s.tasks[k].pc.on, s.tasks[k].id))
            && (actions[i].CutWait? && s.tasks[k].kind.Audit? ==>
                  s' == s.(tasks := s.tasks[k := s.tasks[k].(pc := Ended(CutShort))]))
  {
    RunStep(states, actions, i);
  }
}
