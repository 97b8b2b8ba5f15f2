/**
  What the records say: the counts of a request from its registration to the record that tells of
  it, through every cancel that is refused, cut short or queued.
 */
module AuditRecords {
  import opened Wrappers
  import opened OrderedDict
  import opened Guardrail
  import opened AuditRuns
  import opened AuditTheorems
  import opened AuditDecisions

  /** A task's own step, and the id it is for. */
  predicate TaskAction(s: System, a: Action) {
    a.StartAudit? || a.StartCancel? || ((a.Wake? || a.CutWait? || a.Resolve?) && a.k in s.tasks)
  }

  function IdOf(s: System, a: Action): Id
    requires TaskAction(s, a)
  {
    if a.StartAudit? || a.StartCancel? then a.id else s.tasks[a.k].id
  }

  predicate Delivered(outcome: SinkOutcome) { outcome.Confirmed? || outcome.Ambiguous? }

  // ---- writes

  /** A write the sink has or may have makes its id remembered, and leaves nothing to write again;
      after any other the state is there for a retry, and a cancel's record is queued. */
  ghost predicate Landed(s: System, s': System, k: TaskId, outcome: SinkOutcome)
    requires k in s.tasks && k in s'.tasks
  {
    var id := s.tasks[k].id;
    && s'.tasks[k] == s.tasks[k].(pc := Ended(if Delivered(outcome) then Acknowledged
                                              else if outcome.Refused? then Failed else CutShort))
    && !BeingWritten(s', id)
    && (Delivered(outcome) ==> Remembered(s', id) && StateOf(s', id) == None && id !in s'.tables.pending.at
                               && |s'.acks| == |s.acks| + 1 && s'.acks[|s.acks|].id == id)
    && (!Delivered(outcome) ==> s'.entered == s.entered && s'.acks == s.acks && StateOf(s', id) == StateOf(s, id))
    && (!Delivered(outcome) && s.tasks[k].pc.WritingAudit? ==> s'.tables.pending == s.tables.pending)
    && (!Delivered(outcome) && s.tasks[k].pc.WritingCancel? ==>
          id in s'.tables.pending.at && s'.tables.pending.at[id] == s.tasks[k].pc.record)
  }

  lemma {:induction false} AuditLands(s: System, k: TaskId, outcome: SinkOutcome)
    requires Invariant(s) && Enabled(s, Resolve(k, outcome)) && s.tasks[k].pc.WritingAudit?
    ensures k in Next(s, Resolve(k, outcome)).tasks && Landed(s, Next(s, Resolve(k, outcome)), k, outcome)
  {
    var s', id := Next(s, Resolve(k, outcome)), s.tasks[k].id;
    StepKeeps(s, Resolve(k, outcome));
    AuditResolveEnds(s.tables, k, id, outcome);
    SlotsAreWriters(s', id);
    AuditedIsRemembered(s', id);
  }

  lemma {:induction false} CancelLands(s: System, k: TaskId, outcome: SinkOutcome)
    requires Invariant(s) && Enabled(s, Resolve(k, outcome)) && s.tasks[k].pc.WritingCancel?
    ensures k in Next(s, Resolve(k, outcome)).tasks && Landed(s, Next(s, Resolve(k, outcome)), k, outcome)
  {
    var s', id := Next(s, Resolve(k, outcome)), s.tasks[k].id;
    StepKeeps(s, Resolve(k, outcome));
    CancelledResolveEnds(s.tables, k, id, s.tasks[k].pc.record, outcome);
    s.tables.pending.PutTrim(id, s.tasks[k].pc.record, CANCEL_PENDING_CAP);
    SlotsAreWriters(s', id);
    AuditedIsRemembered(s', id);
  }

  lemma {:induction false} WriteLands(states: seq<System>, actions: seq<Action>, i: nat)
    requires IsRun(states, actions) && i < |actions| && actions[i].Resolve?
    ensures actions[i].k in states[i].tasks && actions[i].k in states[i + 1].tasks
    ensures Landed(states[i], states[i + 1], actions[i].k, actions[i].outcome)
  {
    RunInvariant(states, actions, i);
    assert Step(states[i], actions[i], states[i + 1]);
    if states[i].tasks[actions[i].k].pc.WritingAudit? {
      AuditLands(states[i], actions[i].k, actions[i].outcome);
    } else {
      CancelLands(states[i], actions[i].k, actions[i].outcome);
    }
  }

  // ---- the registered state

  /** The steps that drop the state of `x`: its hand-over, a record of it delivered, and a cancel
      of it that may. */
  ghost predicate Drops(s: System, a: Action, x: Id) {
    || (a.HandOver? && a.id == x)
    || (a.Resolve? && a.k in s.tasks && s.tasks[a.k].id == x && Delivered(a.outcome))
    || (a.StartCancel? && a.id == x && !TicketOwns(s, x, a.ctx) && MayEnd(s, StateOf(s, x), a.ctx))
  }

  /** No other step changes it, but its registration. */
  lemma {:induction false} StateChanges(s: System, a: Action, x: Id)
    requires TablesOk(s) && Enabled(s, a)
    ensures StateOf(Next(s, a), x) ==
      if a.Register? && a.id == x then Some(a.state) else if Drops(s, a, x) then None else StateOf(s, x)
  {
    if a.StartCancel? {
      StartChangesState(s, a.k, a.id, a.ctx, a.latencyMs, x);
    } else if a.Resolve? {
      ResolveChangesState(s, a.k, a.outcome, x);
    } else if TaskAction(s, a) {
      OtherTasksKeepState(s, a);
    } else if a.CloseTicket? {
      ReleasingMoves(s.(tickets := s.tickets[a.t := s.tickets[a.t].(closed := true)]), a.t,
        s.tickets[a.t].RequestIds());
    }
  }

  lemma {:induction false} StartChangesState(
    s: System, k: TaskId, id: Id, ctx: Option<TicketId>, latencyMs: int, x: Id)
    requires TablesOk(s) && Enabled(s, StartCancel(k, id, ctx, latencyMs))
    ensures var a := StartCancel(k, id, ctx, latencyMs);
            StateOf(Next(s, a), x) == if Drops(s, a, x) then None else StateOf(s, x)
  {
    WaitersKeepState(s.tables.(reqState := s.tables.reqState - {id}), k, id, OwnRecord(s.tables, id, latencyMs));
  }

  lemma {:induction false} ResolveChangesState(s: System, k: TaskId, outcome: SinkOutcome, x: Id)
    requires TablesOk(s) && Enabled(s, Resolve(k, outcome))
    ensures StateOf(Next(s, Resolve(k, outcome)), x) ==
      if s.tasks[k].id == x && Delivered(outcome) then None else StateOf(s, x)
  {
    if s.tasks[k].pc.WritingCancel? {
      ResolvedState(s.tables, k, s.tasks[k].id, s.tasks[k].pc.record, outcome);
    } else {
      ResolvedState(s.tables, k, s.tasks[k].id, CancelRecord("", 0, 0), outcome);
    }
  }

  lemma {:induction false} ResolvedState(t: Tables, me: TaskId, id: Id, record: CancelRecord, outcome: SinkOutcome)
    requires t.pending.Valid()
    ensures var left := if Delivered(outcome) then t.reqState - {id} else t.reqState;
            && AuditResolve(t, me, id, outcome).tables.reqState == left
            && CancelledResolve(t, me, id, record, outcome).tables.reqState == left
  {
  }

  lemma {:induction false} OtherTasksKeepState(s: System, a: Action)
    requires TablesOk(s) && Enabled(s, a) && (a.StartAudit? || a.Wake? || a.CutWait?)
    ensures Next(s, a).tables.reqState == s.tables.reqState
  {
    if a.StartAudit? {
      AuditsKeepState(s.tables, a.k, a.id, FactsOf(s, a.ctx), TicketCancelled(s, a.ctx), a.logEvent);
    } else if s.tasks[a.k].kind.Audit? {
      AuditsKeepState(s.tables, a.k, s.tasks[a.k].id, None, TicketCancelled(s, s.tasks[a.k].ctx),
                      s.tasks[a.k].kind.logEvent);
    } else {
      WaitersKeepState(s.tables, a.k, s.tasks[a.k].id, s.tasks[a.k].kind.own);
    }
  }

  lemma {:induction false} AuditsKeepState(
    t: Tables, me: TaskId, id: Id, facts: Option<Id>, cancelled: bool, logEvent: bool)
    ensures AuditStart(t, me, id, facts, cancelled, logEvent).tables.reqState == t.reqState
    ensures AuditResume(t, me, id, cancelled, logEvent).tables.reqState == t.reqState
  {
  }

  lemma {:induction false} WaitersKeepState(t: Tables, me: TaskId, id: Id, own: CancelRecord)
    requires t.pending.Valid()
    ensures CancelResume(t, me, id, own).tables.reqState == t.reqState
    ensures CancelCut(t, id, own).tables.reqState == t.reqState
  {
  }

  /** The request registered at step `r` is not dropped or registered anew up to state `i`. */
  ghost predicate LeftAlone(states: seq<System>, actions: seq<Action>, r: nat, i: nat)
    requires r < i < |states| == |actions| + 1 && actions[r].Register?
  {
    forall m :: r < m < i ==>
      !(actions[m].Register? && actions[m].id == actions[r].id) && !Drops(states[m], actions[m], actions[r].id)
  }

  /** In every run, an audit of an id that was registered, and not dropped or registered anew since,
      writes what was registered, if it writes its own record at all. */
  lemma {:induction false} AuditTellsOfItsRequest(states: seq<System>, actions: seq<Action>, r: nat, i: nat)
    requires IsRun(states, actions) && r < i < |actions| && actions[r].Register?
    requires LeftAlone(states, actions, r, i)
    requires actions[i].StartAudit? || (actions[i].Wake? && actions[i].k in states[i].tasks
                                        && states[i].tasks[actions[i].k].kind.Audit?)
    ensures actions[i].k in states[i + 1].tasks
    ensures var task, st := states[i + 1].tasks[actions[i].k], actions[r].state;
            task.id == actions[r].id && task.pc.WritingAudit? ==>
              task.pc.written.userId == st.userId && task.pc.written.redactions == st.redactions
  {
    StateStays(states, actions, r, i);
    AuditDecides(states, actions, i);
  }

  lemma {:induction false} StateStep(states: seq<System>, actions: seq<Action>, i: nat, x: Id)
    requires IsRun(states, actions) && i < |actions|
    ensures var a := actions[i];
            StateOf(states[i + 1], x) ==
            if a.Register? && a.id == x then Some(a.state)
            else if Drops(states[i], a, x) then None else StateOf(states[i], x)
  {
    RunStep(states, actions, i);
    StateChanges(states[i], actions[i], x);
  }

  lemma {:induction false} StateStaysOnce(states: seq<System>, actions: seq<Action>, r: nat, i: nat)
    requires IsRun(states, actions) && r < i < |actions| && actions[r].Register?
    requires LeftAlone(states, actions, r, i + 1) && StateOf(states[i], actions[r].id) == Some(actions[r].state)
    ensures StateOf(states[i + 1], actions[r].id) == Some(actions[r].state)
  {
    StateStep(states, actions, i, actions[r].id);
  }

  lemma {:induction false} StateStays(states: seq<System>, actions: seq<Action>, r: nat, i: nat)
    requires IsRun(states, actions) && r < i < |states| && actions[r].Register?
    requires LeftAlone(states, actions, r, i)
    ensures StateOf(states[i], actions[r].id) == Some(actions[r].state)
  {
    if r == i - 1 {
      StateStep(states, actions, r, actions[r].id);
    } else {
      StateStays(states, actions, r, i - 1);
      StateStaysOnce(states, actions, r, i - 1);
    }
  }

  // ---- the queue

  /** A cancel's write of `x` ends undelivered. */
  ghost predicate Undelivers(s: System, a: Action, x: Id) {
    && a.Resolve? && a.k in s.tasks && s.tasks[a.k].id == x && s.tasks[a.k].pc.WritingCancel?
    && !Delivered(a.outcome)
  }

  /** What is queued for `x` after a step: the record of a write that ended undelivered, or else
      what was queued, or else the counts of a cancel cut short while it waited. */
  lemma {:induction false} QueueChanges(s: System, a: Action, x: Id)
    requires TablesOk(s) && Enabled(s, a) && x in Next(s, a).tables.pending.at
    ensures var now := Next(s, a).tables.pending.at[x];
            if Undelivers(s, a, x) then now == s.tasks[a.k].pc.record
            else if x in s.tables.pending.at then now == s.tables.pending.at[x]
            else a.CutWait? && s.tasks[a.k].kind.Cancel? && s.tasks[a.k].id == x && now == s.tasks[a.k].kind.own
  {
    if a.CutWait? {
      CutChangesQueue(s, a.k, x);
    } else if a.Resolve? {
      ResolveChangesQueue(s, a.k, a.outcome, x);
    } else if TaskAction(s, a) {
      OtherTasksKeepQueue(s, a, x);
    } else if a.CloseTicket? {
      ReleasingMoves(s.(tickets := s.tickets[a.t := s.tickets[a.t].(closed := true)]), a.t,
        s.tickets[a.t].RequestIds());
    }
  }

  lemma {:induction false} CutChangesQueue(s: System, k: TaskId, x: Id)
    requires TablesOk(s) && Enabled(s, CutWait(k)) && x in Next(s, CutWait(k)).tables.pending.at
    ensures var now := Next(s, CutWait(k)).tables.pending.at[x];
            if x in s.tables.pending.at then now == s.tables.pending.at[x]
            else s.tasks[k].kind.Cancel? && s.tasks[k].id == x && now == s.tasks[k].kind.own
  {
    if s.tasks[k].kind.Cancel? {
      CutQueue(s.tables, s.tasks[k].id, s.tasks[k].kind.own, x);
    }
  }

  lemma {:induction false} CutQueue(t: Tables, id: Id, own: CancelRecord, x: Id)
    requires t.pending.Valid() && |t.pending.order| <= CANCEL_PENDING_CAP
    requires x in CancelCut(t, id, own).tables.pending.at
    ensures var now := CancelCut(t, id, own).tables.pending.at[x];
            if x in t.pending.at then now == t.pending.at[x] else x == id && now == own
  {
    t.pending.PutTrim(id, own, CANCEL_PENDING_CAP);
  }

  lemma {:induction false} ResolveChangesQueue(s: System, k: TaskId, outcome: SinkOutcome, x: Id)
    requires TablesOk(s) && Enabled(s, Resolve(k, outcome)) && x in Next(s, Resolve(k, outcome)).tables.pending.at
    ensures var now := Next(s, Resolve(k, outcome)).tables.pending.at[x];
            if Undelivers(s, Resolve(k, outcome), x) then now == s.tasks[k].pc.record
            else x in s.tables.pending.at && now == s.tables.pending.at[x]
  {
    if s.tasks[k].pc.WritingCancel? {
      ResolvedQueue(s.tables, k, s.tasks[k].id, s.tasks[k].pc.record, outcome);
      s.tables.pending.PutTrim(s.tasks[k].id, s.tasks[k].pc.record, CANCEL_PENDING_CAP);
    } else {
      ResolvedQueue(s.tables, k, s.tasks[k].id, CancelRecord("", 0, 0), outcome);
    }
  }

  lemma {:induction false} ResolvedQueue(t: Tables, me: TaskId, id: Id, r: CancelRecord, outcome: SinkOutcome)
    requires t.pending.Valid()
    ensures t.pending.Put(id, r).Valid()
    ensures AuditResolve(t, me, id, outcome).tables.pending ==
      if Delivered(outcome) then t.pending.Pop(id) else t.pending
    ensures CancelledResolve(t, me, id, r, outcome).tables.pending ==
      if Delivered(outcome) then t.pending.Pop(id) else t.pending.Put(id, r).Trim(CANCEL_PENDING_CAP)
  {
    t.pending.PutValid(id, r);
  }

  lemma {:induction false} OtherTasksKeepQueue(s: System, a: Action, x: Id)
    requires TablesOk(s) && Enabled(s, a) && (a.StartAudit? || a.StartCancel? || a.Wake?)
    requires x in Next(s, a).tables.pending.at
    ensures x in s.tables.pending.at && Next(s, a).tables.pending.at[x] == s.tables.pending.at[x]
  {
    if a.StartAudit? {
      AuditsKeepQueue(s.tables, a.k, a.id, FactsOf(s, a.ctx), TicketCancelled(s, a.ctx), a.logEvent);
    } else if a.StartCancel? {
      CancelsShrinkQueue(s.tables, a.k, a.id, FactsOf(s, a.ctx), Reaches(s, a.id, a.ctx), a.latencyMs,
                         OwnRecord(s.tables, a.id, a.latencyMs));
    } else if s.tasks[a.k].kind.Audit? {
      AuditsKeepQueue(s.tables, a.k, s.tasks[a.k].id, None, TicketCancelled(s, s.tasks[a.k].ctx),
                      s.tasks[a.k].kind.logEvent);
    } else {
      CancelsShrinkQueue(s.tables, a.k, s.tasks[a.k].id, None, true, 0, s.tasks[a.k].kind.own);
    }
  }

  lemma {:induction false} AuditsKeepQueue(
    t: Tables, me: TaskId, id: Id, facts: Option<Id>, cancelled: bool, logEvent: bool)
    ensures AuditStart(t, me, id, facts, cancelled, logEvent).tables.pending == t.pending
    ensures AuditResume(t, me, id, cancelled, logEvent).tables.pending == t.pending
  {
  }

  lemma {:induction false} CancelsShrinkQueue(
    t: Tables, me: TaskId, id: Id, facts: Option<Id>, reaches: bool, latencyMs: int, own: CancelRecord)
    ensures CancelStart(t, me, id, facts, reaches, latencyMs).tables.pending in {t.pending, t.pending.Pop(id)}
    ensures CancelResume(t, me, id, own).tables.pending in {t.pending, t.pending.Pop(id)}
  {
  }

  /** Whatever cancel of `x` is being written carries the record that is queued. */
  ghost predicate Agreed(s: System, x: Id) {
    x in s.tables.pending.at ==>
      forall w :: w in s.tasks && s.tasks[w].id == x && s.tasks[w].pc.WritingCancel? ==>
        s.tasks[w].pc.record == s.tables.pending.at[x]
  }

  /** A task that comes to a cancel's write of an id with counts queued carries those counts. */
  lemma {:induction false} WriterCarries(s: System, a: Action, w: TaskId)
    requires Invariant(s) && Enabled(s, a) && w in Next(s, a).tasks && Next(s, a).tasks[w].pc.WritingCancel?
    ensures var task := Next(s, a).tasks[w];
            || (w in s.tasks && s.tasks[w] == task)
            || (TaskAction(s, a) && Brought(s, a, w, task))
  {
    if TaskAction(s, a) {
      TaskMoves(s, a, w);
    } else if a.CloseTicket? {
      ReleasingMoves(s.(tickets := s.tickets[a.t := s.tickets[a.t].(closed := true)]), a.t,
        s.tickets[a.t].RequestIds());
    }
  }

  /** Task `w` was at this write before, or its step just brought it there with what is queued. */
  ghost predicate Brought(s: System, a: Action, w: TaskId, task: Task)
    requires TaskAction(s, a)
  {
    || (w in s.tasks && s.tasks[w] == task)
    || (a.k == w && IdOf(s, a) == task.id
        && (task.id in s.tables.pending.at ==>
              task.pc.WritingCancel? && task.pc.record == s.tables.pending.at[task.id]))
  }

  lemma {:induction false} TaskMoves(s: System, a: Action, w: TaskId)
    requires Invariant(s) && Enabled(s, a) && TaskAction(s, a)
    requires w in Next(s, a).tasks && Next(s, a).tasks[w].pc.WritingCancel?
    ensures Brought(s, a, w, Next(s, a).tasks[w])
  {
    if a.StartAudit? || a.StartCancel? {
      StartMoves(s, a, w);
    } else if a.Wake? {
      WakeMoves(s, a, w);
    }
  }

  lemma {:induction false} StartMoves(s: System, a: Action, w: TaskId)
    requires TablesOk(s) && WritersOk(s) && Enabled(s, a) && (a.StartAudit? || a.StartCancel?)
    requires w in Next(s, a).tasks && Next(s, a).tasks[w].pc.WritingCancel?
    ensures Brought(s, a, w, Next(s, a).tasks[w])
  {
    if a.StartAudit? {
      AuditStarts(s, a.k, a.id, a.ctx, a.logEvent);
    } else {
      CancelFinds(s, a.k, a.id, a.ctx, a.latencyMs);
    }
  }

  lemma {:induction false} WakeMoves(s: System, a: Action, w: TaskId)
    requires TablesOk(s) && WritersOk(s) && Enabled(s, a) && a.Wake?
    requires w in Next(s, a).tasks && Next(s, a).tasks[w].pc.WritingCancel?
    ensures Brought(s, a, w, Next(s, a).tasks[w])
  {
    if s.tasks[a.k].kind.Audit? {
      AuditGoesOn(s, a.k);
    } else {
      CancelWakes(s, a.k);
    }
  }

  /** A record that is queued, and agreed on, stays as it is while it is queued, and whoever comes
      to write for its id carries exactly it. */
  lemma {:induction false} AgreedStays(s: System, a: Action, x: Id)
    requires Invariant(s) && Enabled(s, a) && Agreed(s, x)
    requires x in s.tables.pending.at && x in Next(s, a).tables.pending.at
    ensures Agreed(Next(s, a), x) && Next(s, a).tables.pending.at[x] == s.tables.pending.at[x]
  {
    var s' := Next(s, a);
    QueueChanges(s, a, x);
    forall w | w in s'.tasks && s'.tasks[w].id == x && s'.tasks[w].pc.WritingCancel?
      ensures s'.tasks[w].pc.record == s.tables.pending.at[x]
    {
      WriterCarries(s, a, w);
    }
  }

  ghost predicate StaysQueued(states: seq<System>, i: nat, j: nat, x: Id)
    requires i <= j < |states|
  {
    forall m :: i <= m <= j ==> x in states[m].tables.pending.at
  }

  /** `r` is queued for `x`, and agreed on. */
  ghost predicate Held(s: System, x: Id, r: CancelRecord) {
    x in s.tables.pending.at && s.tables.pending.at[x] == r && Agreed(s, x)
  }

  lemma {:induction false} QueuedRecordStays(
    states: seq<System>, actions: seq<Action>, i: nat, j: nat, x: Id, r: CancelRecord)
    requires IsRun(states, actions) && i <= j < |states| && Held(states[i], x, r) && StaysQueued(states, i, j, x)
    ensures Held(states[j], x, r)
    decreases j
  {
    if i < j {
      QueuedRecordStays(states, actions, i, j - 1, x, r);
      HeldOn(states, actions, j - 1, x, r);
    }
  }

  lemma {:induction false} HeldOn(states: seq<System>, actions: seq<Action>, i: nat, x: Id, r: CancelRecord)
    requires IsRun(states, actions) && i < |actions| && Held(states[i], x, r) && x in states[i + 1].tables.pending.at
    ensures Held(states[i + 1], x, r)
  {
    RunInvariant(states, actions, i);
    RunStep(states, actions, i);
    AgreedStays(states[i], actions[i], x);
  }

  /** A record queued by a write that ended undelivered is agreed on: no other write is under way. */
  lemma {:induction false} UndeliveredIsAgreed(states: seq<System>, actions: seq<Action>, i: nat, x: Id)
    requires IsRun(states, actions) && i < |actions| && Undelivers(states[i], actions[i], x)
    ensures Held(states[i + 1], x, states[i].tasks[actions[i].k].pc.record)
  {
    WriteLands(states, actions, i);
    UnwrittenIsAgreed(states[i + 1], x);
  }

  lemma {:induction false} UnwrittenIsAgreed(s: System, x: Id)
    requires !BeingWritten(s, x)
    ensures Agreed(s, x)
  {
    if !Agreed(s, x) {
      var w :| w in s.tasks && s.tasks[w].id == x && s.tasks[w].pc.WritingCancel?;
      assert WritesFor(s, w, x);
    }
  }

  /** The other half: a queued record a write under way does not carry is replaced when that write
      is refused. */
  lemma {:induction false} DisagreedIsReplaced(states: seq<System>, actions: seq<Action>, x: Id) returns (w: TaskId)
    requires IsRun(states, actions) && !Agreed(states[|states| - 1], x)
    ensures var s := states[|states| - 1];
            && TablesOk(s) && Enabled(s, Resolve(w, Refused)) && x in s.tables.pending.at
            && x in Next(s, Resolve(w, Refused)).tables.pending.at
            && Next(s, Resolve(w, Refused)).tables.pending.at[x] != s.tables.pending.at[x]
  {
    var s := states[|states| - 1];
    RunInvariant(states, actions, |states| - 1);
    w :| w in s.tasks && s.tasks[w].id == x && s.tasks[w].pc.WritingCancel?
      && s.tasks[w].pc.record != s.tables.pending.at[x];
    CancelLands(s, w, Refused);
  }

  // ---- the counts of one cancel

  /** A task stays what it was started as. */
  lemma {:induction false} TaskStays(s: System, a: Action, k: TaskId)
    requires TablesOk(s) && Enabled(s, a) && k in s.tasks
    ensures k in Next(s, a).tasks
    ensures Next(s, a).tasks[k].kind == s.tasks[k].kind && Next(s, a).tasks[k].id == s.tasks[k].id
  {
    if a.CloseTicket? {
      ReleasingMoves(s.(tickets := s.tickets[a.t := s.tickets[a.t].(closed := true)]), a.t,
        s.tickets[a.t].RequestIds());
    }
  }

  ghost predicate WasQueued(states: seq<System>, i: nat, j: nat, id: Id, r: CancelRecord)
    requires i <= j < |states|
  {
    exists m :: i <= m < j && id in states[m].tables.pending.at && states[m].tables.pending.at[id] == r
  }

  /** Task `k`, a cancel of `id` that started at step `i`, keeps its own counts up to state `j`, and
      writes them, or what was queued for the id when it came to write. */
  ghost predicate Keeps(states: seq<System>, i: nat, j: nat, k: TaskId, id: Id, own: CancelRecord)
    requires i < j < |states|
  {
    && k in states[j].tasks && states[j].tasks[k].id == id && states[j].tasks[k].kind == Cancel(own)
    && (states[j].tasks[k].pc.WritingCancel? ==>
          states[j].tasks[k].pc.record == own || WasQueued(states, i, j, id, states[j].tasks[k].pc.record))
  }

  /** In every run, what a cancel writes is the counts of the state it found when it started, with
      its latency, or what was queued for its id. */
  lemma {:induction false} CancelWritesItsCounts(states: seq<System>, actions: seq<Action>, i: nat, j: nat)
    returns (own: CancelRecord)
    requires IsRun(states, actions) && i < |actions| && i < j < |states| && actions[i].StartCancel?
    ensures CountsOf(own, StateOf(states[i], actions[i].id), actions[i].latencyMs)
    ensures Keeps(states, i, j, actions[i].k, actions[i].id, own)
    decreases j
  {
    if j == i + 1 {
      CancelDecides(states, actions, i);
      own := states[j].tasks[actions[i].k].kind.own;
      WritesOrQueued(states, i, i, actions[i].k, own);
    } else {
      own := CancelWritesItsCounts(states, actions, i, j - 1);
      KeepsOn(states, actions, i, j - 1, actions[i].k, actions[i].id, own);
    }
  }

  lemma {:induction false} WritesOrQueued(states: seq<System>, i: nat, j: nat, k: TaskId, own: CancelRecord)
    requires i <= j && j + 1 < |states| && k in states[j + 1].tasks
    requires var task, queued := states[j + 1].tasks[k], states[j].tables.pending.at;
             task.pc.WritingCancel? ==> task.pc.record == if task.id in queued then queued[task.id] else own
    ensures var task := states[j + 1].tasks[k];
            task.pc.WritingCancel? ==> task.pc.record == own || WasQueued(states, i, j + 1, task.id, task.pc.record)
  {
  }

  lemma {:induction false} KeepsOn(
    states: seq<System>, actions: seq<Action>, i: nat, j: nat, k: TaskId, id: Id, own: CancelRecord)
    requires IsRun(states, actions) && i < j < |actions| && Keeps(states, i, j, k, id, own)
    ensures Keeps(states, i, j + 1, k, id, own)
  {
    RunStep(states, actions, j);
    TaskStays(states[j], actions[j], k);
    if actions[j] == Wake(k) {
      CancelDecides(states, actions, j);
      WritesOrQueued(states, i, j, k, own);
    } else {
      KeepsRecord(states[j], actions[j], k);
      var r := states[j].tasks[k].pc;
      if r.WritingCancel? && r.record != own {
        var m :| i <= m < j && id in states[m].tables.pending.at && states[m].tables.pending.at[id] == r.record;
        assert WasQueued(states, i, j + 1, id, r.record);
      }
    }
  }

  lemma {:induction false} KeepsRecord(s: System, a: Action, k: TaskId)
    requires TablesOk(s) && Enabled(s, a) && k in s.tasks && a != Wake(k)
    ensures k in Next(s, a).tasks
    ensures Next(s, a).tasks[k].pc == s.tasks[k].pc || Next(s, a).tasks[k].pc.Ended?
  {
    if a.CloseTicket? {
      ReleasingMoves(s.(tickets := s.tickets[a.t := s.tickets[a.t].(closed := true)]), a.t,
        s.tickets[a.t].RequestIds());
    }
  }

  /** And when it ends without its record delivered, its counts are queued: what it wrote, if it
      came to write; if it was cut short while it waited, its own, unless others are queued or a
      record is remembered. */
  lemma {:induction false} CutCancelLeavesItsCounts(states: seq<System>, actions: seq<Action>, i: nat)
    requires IsRun(states, actions) && i < |actions| && actions[i].CutWait?
    requires actions[i].k in states[i].tasks && states[i].tasks[actions[i].k].kind.Cancel?
    ensures LeavesCounts(states[i], states[i + 1], actions[i].k)
  {
    RunInvariant(states, actions, i);
    RunStep(states, actions, i);
    CutLeavesCounts(states[i], actions[i].k);
  }

  ghost predicate LeavesCounts(s: System, s': System, k: TaskId)
    requires k in s.tasks && s.tasks[k].kind.Cancel?
  {
    var id, queued, queued' := s.tasks[k].id, s.tables.pending, s'.tables.pending;
    && k in s'.tasks && s'.tasks[k].pc == Ended(CutShort)
    && (id in queued.at || Remembered(s, id) ==> queued' == queued)
    && (id !in queued.at && !Remembered(s, id) ==> id in queued'.at && queued'.at[id] == s.tasks[k].kind.own)
  }

  lemma {:induction false} CutLeavesCounts(s: System, k: TaskId)
    requires TablesOk(s) && Enabled(s, CutWait(k)) && s.tasks[k].kind.Cancel?
    ensures LeavesCounts(s, Next(s, CutWait(k)), k)
  {
    AuditedIsRemembered(s, s.tasks[k].id);
    s.tables.pending.PutTrim(s.tasks[k].id, s.tasks[k].kind.own, CANCEL_PENDING_CAP);
  }
}
