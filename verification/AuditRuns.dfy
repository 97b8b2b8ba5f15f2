/**
  Every interleaving of the tasks that race to write one audit record per request id.

  An action is the code a task runs between two awaits, a sink answering a write, a task
  being cut short, or something the proxy around the guardrail does (a pre-call registers
  or hands over a request, a ticket is cancelled or closed). A run is any sequence of
  enabled actions. The last three fields of the state are history, for the theorems only.
 */
module AuditRuns {
  import opened Wrappers
  import opened OrderedDict
  import opened Guardrail

  datatype Ticket = Ticket(gatewayId: Id, callIds: seq<Id>, cancelled: bool, closed: bool, facts: Option<Id>)
  {
    function RequestIds(): seq<Id> { if callIds == [] then [gatewayId] else callIds }
  }

  datatype Kind = Audit(logEvent: bool) | Cancel(own: CancelRecord)

  datatype Task = Task(kind: Kind, id: Id, ctx: Option<TicketId>, pc: Pc) {
    /** A cancel that was for this request's own state and is over. */
    predicate CancelOver() {
      kind.Cancel? && pc.Ended? && pc.how != Owned && pc.how != Mismatch
    }
  }

  /** An acknowledged write: where its id stands in the dedup FIFO's history, and how long
      that history was once the write was acknowledged. */
  datatype Ack = Ack(id: Id, pos: nat, at: nat)

  datatype System = System(
    tables: Tables,
    tickets: map<TicketId, Ticket>,
    tasks: map<TaskId, Task>,
    entered: seq<Id>,    // every id that ever entered the dedup FIFO, in order
    acks: seq<Ack>,      // every acknowledged write, in order
    handed: set<Id>)     // ids ever handed over to a ticket

  datatype Action =
    | OpenTicket(t: TicketId, gatewayId: Id)
    | Register(id: Id, ctx: Option<TicketId>, state: RequestState)
    | HandOver(id: Id, t: TicketId)
    | CancelTicket(t: TicketId)
    | CloseTicket(t: TicketId)
    | StartAudit(k: TaskId, id: Id, ctx: Option<TicketId>, logEvent: bool)
    | StartCancel(k: TaskId, id: Id, ctx: Option<TicketId>, latencyMs: int)
    | Wake(k: TaskId)
    | CutWait(k: TaskId)
    | Resolve(k: TaskId, outcome: SinkOutcome)

  function Init(mappingsBound: bool): System {
    System(Tables(map[], [], Dict([], map[]), map[], map[], Dict([], map[]), mappingsBound),
           map[], map[], [], [], {})
  }

  // ---- the steps

  function FactsOf(s: System, ctx: Option<TicketId>): Option<Id> {
    if ctx.Some? && ctx.value in s.tickets then s.tickets[ctx.value].facts else None
  }

  predicate TicketCancelled(s: System, ctx: Option<TicketId>) {
    ctx.Some? && ctx.value in s.tickets && s.tickets[ctx.value].cancelled
  }

  /** `_cancel_reaches` for the state registered under `id`, if any. */
  predicate Reaches(s: System, id: Id, ctx: Option<TicketId>) {
    id in s.tables.reqState ==>
      var owner := s.tables.reqState[id].ticket;
      owner == None || (if ctx.Some? then ctx == owner else TicketCancelled(s, owner))
  }

  predicate KnownContext(s: System, ctx: Option<TicketId>) {
    ctx.Some? ==> ctx.value in s.tickets
  }

  predicate Enabled(s: System, a: Action) {
    match a
    case OpenTicket(t, _) => t !in s.tickets
    case Register(id, ctx, state) => KnownContext(s, ctx) && state.ticket == ctx
    // A deposit is refused on a cancelled or closed ticket, and then nothing is handed over.
    case HandOver(id, t) => t in s.tickets && !s.tickets[t].cancelled && !s.tickets[t].closed
    case CancelTicket(t) => t in s.tickets
    case CloseTicket(t) => t in s.tickets && !s.tickets[t].closed
    case StartAudit(k, id, ctx, _) => k !in s.tasks && KnownContext(s, ctx)
    case StartCancel(k, id, ctx, _) => k !in s.tasks && KnownContext(s, ctx)
    // An Event is set once, when its writer leaves the table.
    case Wake(k) => k in s.tasks && s.tasks[k].pc.Waiting? && Resolved(s, s.tasks[k].pc.on)
    case CutWait(k) => k in s.tasks && s.tasks[k].pc.Waiting?
    case Resolve(k, _) => k in s.tasks && s.tasks[k].pc.Writing()
  }

  predicate Resolved(s: System, event: TaskId) {
    event in s.tasks && !s.tasks[event].pc.Writing()
  }

  function Next(s: System, a: Action): System
    requires Enabled(s, a)
    requires s.tables.pending.Valid() && s.tables.owned.Valid()
  {
    match a
    case OpenTicket(t, gatewayId) =>
      s.(tickets := s.tickets[t := Ticket(gatewayId, [], false, false, None)])
    case Register(id, ctx, state) =>
      s.(tables := s.tables.(reqState := s.tables.reqState[id := state]),
         tickets := if ctx.Some? then Bound(s.tickets, ctx.value, id) else s.tickets)
    case HandOver(id, t) =>
      s.(tables := HandedOver(s.tables, id, t),
         tickets := s.tickets[t := s.tickets[t].(facts := Some(id))],
         handed := s.handed + {id})
    case CancelTicket(t) =>
      s.(tickets := s.tickets[t := s.tickets[t].(cancelled := true)])
    case CloseTicket(t) =>
      Releasing(s.(tickets := s.tickets[t := s.tickets[t].(closed := true)]), t, s.tickets[t].RequestIds())
    case StartAudit(k, id, ctx, logEvent) =>
      Stepped(s, k, Task(Audit(logEvent), id, ctx, Ended(Owned)),
              AuditStart(s.tables, k, id, FactsOf(s, ctx), TicketCancelled(s, ctx), logEvent))
    case StartCancel(k, id, ctx, latencyMs) =>
      Stepped(s, k, Task(Cancel(OwnRecord(s.tables, id, latencyMs)), id, ctx, Ended(Owned)),
              CancelStart(s.tables, k, id, FactsOf(s, ctx), Reaches(s, id, ctx), latencyMs))
    case Wake(k) =>
      var task := s.tasks[k];
      Stepped(s, k, task,
              match task.kind
              case Audit(logEvent) => AuditResume(s.tables, k, task.id, TicketCancelled(s, task.ctx), logEvent)
              case Cancel(own) => CancelResume(s.tables, k, task.id, own))
    case CutWait(k) =>
      var task := s.tasks[k];
      Stepped(s, k, task,
              match task.kind
              case Audit(_) => Segment(s.tables, Ended(CutShort))
              case Cancel(own) => CancelCut(s.tables, task.id, own))
    case Resolve(k, outcome) =>
      var task := s.tasks[k];
      var seg := match task.pc
                 case WritingCancel(record) => CancelledResolve(s.tables, k, task.id, record, outcome)
                 case _ => AuditResolve(s.tables, k, task.id, outcome);
      var next := Stepped(s, k, task, seg);
      if seg.pc == Ended(Acknowledged) then Acknowledging(next, s, task.id) else next
  }

  /** `bind_call_id` */
  function Bound(tickets: map<TicketId, Ticket>, t: TicketId, id: Id): map<TicketId, Ticket>
    requires t in tickets
  {
    if id in tickets[t].callIds then tickets
    else tickets[t := tickets[t].(callIds := tickets[t].callIds + [id])]
  }

  function Stepped(s: System, k: TaskId, task: Task, seg: Segment): System {
    s.(tables := seg.tables, tasks := s.tasks[k := task.(pc := seg.pc)])
  }

  /** History: the id enters the dedup FIFO unless it is in it already. */
  function Acknowledging(next: System, s: System, id: Id): System {
    var entered := if id in s.tables.audited then s.entered else s.entered + [id];
    next.(entered := entered, acks := s.acks + [Ack(id, LastIndex(entered, id), |entered|)])
  }

  function Releasing(s: System, t: TicketId, ids: seq<Id>): System
    decreases |ids|
  {
    if ids == [] then s else Releasing(ReleasingOne(s, t, ids[0]), t, ids[1..])
  }

  function ReleasingOne(s: System, t: TicketId, id: Id): System {
    s.(tables := ReleasedOne(s.tables, t, id),
       entered := if id in s.tables.owned.at && s.tables.owned.at[id] == t && id !in s.tables.audited
                  then s.entered + [id] else s.entered)
  }

  /** The last place of `x` in `s`, or 0. */
  function LastIndex(s: seq<Id>, x: Id): (i: nat)
    ensures x in s ==> i < |s| && s[i] == x && x !in s[i + 1..]
  {
    if s == [] then 0
    else if s[|s| - 1] == x then |s| - 1
    else
      assert x in s ==> x in s[..|s| - 1];
      var i := LastIndex(s[..|s| - 1], x);
      assert x in s ==> s[i + 1..] == s[..|s| - 1][i + 1..] + [s[|s| - 1]];
      i
  }

  // ---- what every step keeps

  /** The dedup FIFO is the newest ids of its history... */
  function Newest(s: seq<Id>): seq<Id> {
    if |s| > AUDIT_DEDUP_CAP then s[|s| - AUDIT_DEDUP_CAP..] else s
  }

  /** ...and no id enters again before as many others as the FIFO holds have entered. */
  ghost predicate Spaced(entered: seq<Id>) {
    forall i, j :: 0 <= i < j < |entered| && j - i <= AUDIT_DEDUP_CAP ==> entered[i] != entered[j]
  }

  ghost predicate TablesOk(s: System) {
    && s.tables.pending.Valid() && |s.tables.pending.order| <= CANCEL_PENDING_CAP
    && s.tables.owned.Valid() && |s.tables.owned.order| <= AUDIT_DEDUP_CAP
    && s.tables.audited == Newest(s.entered)
    && Spaced(s.entered)
  }

  type Slots = map<Id, TaskId>

  ghost predicate Holds(slots: Slots, tasks: map<TaskId, Task>, cancel: bool) {
    && (forall id :: id in slots ==> slots[id] in tasks && tasks[slots[id]].id == id
                                     && if cancel then tasks[slots[id]].pc.WritingCancel?
                                        else tasks[slots[id]].pc.WritingAudit?)
    && (forall k :: k in tasks && (if cancel then tasks[k].pc.WritingCancel? else tasks[k].pc.WritingAudit?) ==>
          tasks[k].id in slots && slots[tasks[k].id] == k)
  }

  ghost predicate WaitersOk(tasks: map<TaskId, Task>) {
    && (forall k :: k in tasks && tasks[k].pc.Waiting? ==>
          var e := tasks[k].pc.on;
          e in tasks && tasks[e].id == tasks[k].id && !tasks[e].pc.Waiting?)
    && (forall k :: k in tasks && tasks[k].pc.WritingAudit? ==> tasks[k].kind.Audit?)
  }

  /** The being-written tables hold exactly the tasks at a write, one table or the other;
      every waiter waits on a task that wrote, or still writes, its id. */
  ghost predicate WritersOk(s: System) {
    && Holds(s.tables.auditEmitting, s.tasks, false)
    && Holds(s.tables.cancelEmitting, s.tasks, true)
    && s.tables.auditEmitting.Keys !! s.tables.cancelEmitting.Keys
    && WaitersOk(s.tasks)
  }

  lemma {:induction false} OutOfWindow(entered: seq<Id>, pos: nat)
    requires pos < |entered| && entered[pos] !in Newest(entered)
    ensures pos + AUDIT_DEDUP_CAP < |entered|
  {
  }

  lemma {:induction false} NewestGrows(entered: seq<Id>, id: Id)
    requires id !in Newest(entered)
    ensures Entered(Newest(entered), id) == Newest(entered + [id])
  {
    var more := entered + [id];
    if |entered| > AUDIT_DEDUP_CAP {
      var n := |entered| - AUDIT_DEDUP_CAP;
      assert more[n..] == entered[n..] + [id];
      assert more[n..][1..] == more[n + 1..];
    }
  }

  lemma {:induction false} EnteredNewest(entered: seq<Id>, id: Id)
    requires Spaced(entered) && id !in Newest(entered)
    ensures Spaced(entered + [id]) && Entered(Newest(entered), id) == Newest(entered + [id])
  {
    NewestGrows(entered, id);
    var more := entered + [id];
    forall i, j | 0 <= i < j < |more| && j - i <= AUDIT_DEDUP_CAP
      ensures more[i] != more[j]
    {
      if j == |entered| && entered[i] == id {
        OutOfWindow(entered, i);
      }
    }
  }

  /** A closing ticket only moves ids it owns from the hand-over FIFO to the dedup FIFO. */
  ghost predicate Moved(s: System, s': System) {
    && TablesOk(s')
    && s' == s.(tables := s.tables.(owned := s'.tables.owned, audited := s'.tables.audited), entered := s'.entered)
    && s.entered <= s'.entered
    && s'.tables.owned.at.Keys <= s.tables.owned.at.Keys
    && (forall x :: x in s'.tables.audited ==> x in s.tables.audited || x in s.tables.owned.at)
  }

  lemma {:induction false} ReleasingOneMoves(s: System, t: TicketId, id: Id)
    requires TablesOk(s)
    ensures Moved(s, ReleasingOne(s, t, id))
  {
    if id in s.tables.owned.at && s.tables.owned.at[id] == t {
      s.tables.owned.PopValid(id);
      if id !in s.tables.audited {
        EnteredNewest(s.entered, id);
      }
    } else {
      assert ReleasingOne(s, t, id) == s;
    }
  }

  lemma {:induction false} ReleasingMoves(s: System, t: TicketId, ids: seq<Id>)
    requires TablesOk(s)
    ensures Moved(s, Releasing(s, t, ids))
    decreases |ids|
  {
    if ids != [] {
      ReleasingOneMoves(s, t, ids[0]);
      ReleasingMoves(ReleasingOne(s, t, ids[0]), t, ids[1..]);
    }
  }

  // ---- what one segment does to the tables

  /** Only `id`'s own entries change, except for the queue's oldest when it overflows. */
  ghost predicate Framed(t: Tables, id: Id, t': Tables) {
    && t'.owned == t.owned && t'.mappingsBound == t.mappingsBound
    && t'.reqState.Keys <= t.reqState.Keys
    && t'.pending.Valid() && |t'.pending.order| <= CANCEL_PENDING_CAP
    && (forall x :: x in t'.pending.at && x != id ==> x in t.pending.at && t'.pending.at[x] == t.pending.at[x])
  }

  /** A segment that starts, waits or gives up, and takes at most the free slot of `id`. */
  ghost predicate Begins(t: Tables, me: TaskId, id: Id, seg: Segment) {
    && Framed(t, id, seg.tables)
    && seg.tables.audited == t.audited
    && match seg.pc
       case Waiting(event) =>
         && InFlight(t, id) == Some(event)
         && seg.tables.pending == t.pending
         && seg.tables.auditEmitting == t.auditEmitting && seg.tables.cancelEmitting == t.cancelEmitting
       case WritingAudit(_) =>
         && InFlight(t, id) == None && id !in t.audited
         && seg.tables.pending == t.pending
         && seg.tables.auditEmitting == t.auditEmitting[id := me]
         && seg.tables.cancelEmitting == t.cancelEmitting
       case WritingCancel(_) =>
         && InFlight(t, id) == None && id !in t.audited
         && seg.tables.pending == t.pending
         && seg.tables.auditEmitting == t.auditEmitting
         && seg.tables.cancelEmitting == t.cancelEmitting[id := me]
       case Ended(how) =>
         && how != Acknowledged
         && seg.tables.auditEmitting == t.auditEmitting && seg.tables.cancelEmitting == t.cancelEmitting
         && (id in seg.tables.pending.at ==> id in t.pending.at || id !in t.audited)
         && (id in t.pending.at && id !in seg.tables.pending.at ==> how == Owned || id in t.audited)
  }

  /** A write of `id` resolving: its slot is freed, and an acknowledged one is marked. */
  ghost predicate Ends(t: Tables, id: Id, seg: Segment) {
    && Framed(t, id, seg.tables)
    && seg.tables.auditEmitting == t.auditEmitting - {id}
    && seg.tables.cancelEmitting == t.cancelEmitting - {id}
    && seg.pc.Ended?
    && (seg.pc.how == Acknowledged ==>
          seg.tables.audited == Entered(t.audited, id) && id !in seg.tables.pending.at)
    && (seg.pc.how != Acknowledged ==>
          seg.tables.audited == t.audited && (id in t.pending.at ==> id in seg.tables.pending.at))
  }

  /** However a cancel ends, its id is audited or its counts are queued. */
  ghost predicate Settles(id: Id, seg: Segment) {
    && !seg.pc.WritingAudit?
    && (seg.pc.Ended? && seg.pc.how != Owned && seg.pc.how != Mismatch ==>
      id in seg.tables.audited || id in seg.tables.pending.at)
  }

  lemma {:induction false} AuditResumeBegins(t: Tables, me: TaskId, id: Id, cancelled: bool, logEvent: bool)
    requires t.pending.Valid() && |t.pending.order| <= CANCEL_PENDING_CAP
    ensures Begins(t, me, id, AuditResume(t, me, id, cancelled, logEvent))
  {
  }

  lemma {:induction false} AuditStartBegins(
    t: Tables, me: TaskId, id: Id, facts: Option<Id>, cancelled: bool, logEvent: bool)
    requires t.pending.Valid() && |t.pending.order| <= CANCEL_PENDING_CAP
    ensures Begins(t, me, id, AuditStart(t, me, id, facts, cancelled, logEvent))
  {
    if !OwnedByTicket(t, facts, id) {
      AuditResumeBegins(t, me, id, cancelled, logEvent);
    }
  }

  lemma {:induction false} CancelResumeBegins(t: Tables, me: TaskId, id: Id, own: CancelRecord)
    requires t.pending.Valid() && |t.pending.order| <= CANCEL_PENDING_CAP
    ensures Begins(t, me, id, CancelResume(t, me, id, own))
    ensures Settles(id, CancelResume(t, me, id, own))
  {
    t.pending.PopValid(id);
  }

  lemma {:induction false} CancelStartBegins(
    t: Tables, me: TaskId, id: Id, facts: Option<Id>, reaches: bool, latencyMs: int)
    requires t.pending.Valid() && |t.pending.order| <= CANCEL_PENDING_CAP
    ensures Begins(t, me, id, CancelStart(t, me, id, facts, reaches, latencyMs))
    ensures Settles(id, CancelStart(t, me, id, facts, reaches, latencyMs))
  {
    if OwnedByTicket(t, facts, id) {
      t.pending.PopValid(id);
    } else if id !in t.reqState || reaches {
      var dropped := t.(reqState := t.reqState - {id});
      var seg := CancelResume(dropped, me, id, OwnRecord(t, id, latencyMs));
      CancelResumeBegins(dropped, me, id, OwnRecord(t, id, latencyMs));
      BeginsWithoutState(t, me, id, seg);
    }
  }

  lemma {:induction false} BeginsWithoutState(t: Tables, me: TaskId, id: Id, seg: Segment)
    requires Begins(t.(reqState := t.reqState - {id}), me, id, seg)
    ensures Begins(t, me, id, seg)
  {
  }

  lemma {:induction false} QueuedFramed(t: Tables, id: Id, record: CancelRecord)
    requires t.pending.Valid() && |t.pending.order| <= CANCEL_PENDING_CAP
    ensures Framed(t, id, Queued(t, id, record)) && id in Queued(t, id, record).pending.at
  {
    t.pending.PutTrim(id, record, CANCEL_PENDING_CAP);
  }

  lemma {:induction false} MarkedFramed(t: Tables, id: Id)
    requires t.pending.Valid() && |t.pending.order| <= CANCEL_PENDING_CAP
    ensures Framed(t, id, Marked(t, id)) && id !in Marked(t, id).pending.at
    ensures |t.audited| <= AUDIT_DEDUP_CAP ==> id in Marked(t, id).audited
  {
    t.pending.PopValid(id);
    var all := t.audited + [id];
    assert all[|all| - 1] == id;
    assert t.audited != [] ==> all[1..][|all| - 2] == id;
  }

  lemma {:induction false} CancelCutBegins(t: Tables, me: TaskId, id: Id, own: CancelRecord)
    requires t.pending.Valid() && |t.pending.order| <= CANCEL_PENDING_CAP
    ensures Begins(t, me, id, CancelCut(t, id, own))
    ensures Settles(id, CancelCut(t, id, own))
  {
    QueuedFramed(t, id, own);
  }

  lemma {:induction false} AuditResolveEnds(t: Tables, me: TaskId, id: Id, outcome: SinkOutcome)
    requires t.pending.Valid() && |t.pending.order| <= CANCEL_PENDING_CAP
    requires id in t.auditEmitting && t.auditEmitting[id] == me && id !in t.cancelEmitting
    ensures Ends(t, id, AuditResolve(t, me, id, outcome))
  {
    assert t.cancelEmitting - {id} == t.cancelEmitting;
    MarkedFramed(t.(auditEmitting := t.auditEmitting - {id}), id);
  }

  lemma {:induction false} CancelledResolveEnds(
    t: Tables, me: TaskId, id: Id, record: CancelRecord, outcome: SinkOutcome)
    requires t.pending.Valid() && |t.pending.order| <= CANCEL_PENDING_CAP && |t.audited| <= AUDIT_DEDUP_CAP
    requires id in t.cancelEmitting && t.cancelEmitting[id] == me && id !in t.auditEmitting
    ensures Ends(t, id, CancelledResolve(t, me, id, record, outcome))
    ensures Settles(id, CancelledResolve(t, me, id, record, outcome))
  {
    assert t.auditEmitting - {id} == t.auditEmitting;
    MarkedFramed(t, id);
    QueuedFramed(t, id, record);
  }

  // ---- the writers

  lemma {:induction false} SlotTaken(slots: Slots, tasks: map<TaskId, Task>, cancel: bool, k: TaskId, task: Task)
    requires Holds(slots, tasks, cancel)
    requires k in tasks ==> !tasks[k].pc.Writing()
    requires if cancel then task.pc.WritingCancel? else task.pc.WritingAudit?
    requires task.id !in slots
    ensures Holds(slots[task.id := k], tasks[k := task], cancel)
  {
  }

  lemma {:induction false} SlotFreed(slots: Slots, tasks: map<TaskId, Task>, cancel: bool, k: TaskId, task: Task)
    requires Holds(slots, tasks, cancel)
    requires k in tasks && tasks[k].id == task.id && !task.pc.Writing()
    requires task.id in slots ==> slots[task.id] == k
    requires tasks[k].pc.Writing()
    ensures Holds(slots - {task.id}, tasks[k := task], cancel)
  {
  }

  lemma {:induction false} SlotsKept(slots: Slots, tasks: map<TaskId, Task>, cancel: bool, k: TaskId, task: Task)
    requires Holds(slots, tasks, cancel)
    requires k in tasks ==> !tasks[k].pc.Writing()
    requires if cancel then !task.pc.WritingCancel? else !task.pc.WritingAudit?
    ensures Holds(slots, tasks[k := task], cancel)
  {
  }

  lemma {:induction false} BeginKeepsWriters(s: System, k: TaskId, task: Task, seg: Segment)
    requires WritersOk(s) && Begins(s.tables, k, task.id, seg)
    requires k in s.tasks ==> s.tasks[k].id == task.id && s.tasks[k].pc.Waiting?
    requires seg.pc.WritingAudit? ==> task.kind.Audit?
    ensures WritersOk(Stepped(s, k, task, seg))
  {
    BeginKeepsSlots(s, k, task, seg);
    BeginKeepsWaiters(s, k, task, seg);
  }

  lemma {:induction false} BeginKeepsSlots(s: System, k: TaskId, task: Task, seg: Segment)
    requires WritersOk(s) && Begins(s.tables, k, task.id, seg)
    requires k in s.tasks ==> s.tasks[k].id == task.id && s.tasks[k].pc.Waiting?
    ensures var tasks := s.tasks[k := task.(pc := seg.pc)];
            Holds(seg.tables.auditEmitting, tasks, false) && Holds(seg.tables.cancelEmitting, tasks, true)
  {
    var now := task.(pc := seg.pc);
    if seg.pc.WritingAudit? {
      SlotTaken(s.tables.auditEmitting, s.tasks, false, k, now);
    } else {
      SlotsKept(s.tables.auditEmitting, s.tasks, false, k, now);
    }
    if seg.pc.WritingCancel? {
      SlotTaken(s.tables.cancelEmitting, s.tasks, true, k, now);
    } else {
      SlotsKept(s.tables.cancelEmitting, s.tasks, true, k, now);
    }
  }

  lemma {:induction false} BeginKeepsWaiters(s: System, k: TaskId, task: Task, seg: Segment)
    requires WritersOk(s) && Begins(s.tables, k, task.id, seg)
    requires k in s.tasks ==> s.tasks[k].id == task.id && s.tasks[k].pc.Waiting?
    requires seg.pc.WritingAudit? ==> task.kind.Audit?
    ensures seg.tables.auditEmitting.Keys !! seg.tables.cancelEmitting.Keys
    ensures WaitersOk(s.tasks[k := task.(pc := seg.pc)])
  {
  }

  lemma {:induction false} EndKeepsWriters(s: System, k: TaskId, seg: Segment)
    requires WritersOk(s) && k in s.tasks && s.tasks[k].pc.Writing() && Ends(s.tables, s.tasks[k].id, seg)
    ensures WritersOk(Stepped(s, k, s.tasks[k], seg))
  {
    var now := s.tasks[k].(pc := seg.pc);
    SlotFreed(s.tables.auditEmitting, s.tasks, false, k, now);
    SlotFreed(s.tables.cancelEmitting, s.tasks, true, k, now);
  }

  // ---- the acknowledged writes

  lemma {:induction false} OneWriter(s: System, k: TaskId, k': TaskId)
    requires WritersOk(s)
    requires k in s.tasks && k' in s.tasks && s.tasks[k].pc.Writing() && s.tasks[k'].pc.Writing()
    requires s.tasks[k].id == s.tasks[k'].id
    ensures k == k'
  {
  }

  /** Each acknowledged write stands for its own entry of the dedup FIFO. An id that was
      never handed over to a ticket enters the FIFO by that very write. */
  ghost predicate AcksOk(entered: seq<Id>, acks: seq<Ack>, handed: set<Id>) {
    && (forall i :: 0 <= i < |acks| ==>
          acks[i].pos < acks[i].at <= |entered| && entered[acks[i].pos] == acks[i].id)
    && (forall i :: 0 <= i < |acks| && acks[i].id !in handed ==> acks[i].pos + 1 == acks[i].at)
    && (forall i, j :: 0 <= i < j < |acks| && acks[i].id == acks[j].id ==> acks[i].pos < acks[j].pos)
  }

  /** A write only starts once every earlier acknowledged one left the dedup FIFO. */
  ghost predicate WritersLate(s: System) {
    forall k, i :: k in s.tasks && s.tasks[k].pc.Writing() && 0 <= i < |s.acks| && s.acks[i].id == s.tasks[k].id ==>
      s.acks[i].pos + AUDIT_DEDUP_CAP < |s.entered|
  }

  ghost predicate WritersUnmarked(s: System) {
    forall k :: k in s.tasks && s.tasks[k].pc.Writing() && s.tasks[k].id in s.tables.audited ==>
      s.tasks[k].id in s.handed
  }

  ghost predicate Acked(acks: seq<Ack>, id: Id) {
    exists i :: 0 <= i < |acks| && acks[i].id == id
  }

  ghost predicate Owners(s: System) {
    && (forall x :: x in s.tables.owned.at ==> x in s.handed)
    && (forall t :: t in s.tickets && s.tickets[t].facts.Some? ==> s.tickets[t].facts.value in s.handed)
  }

  ghost predicate AuditedOk(s: System) {
    && (forall x :: x in s.tables.audited ==> x in s.handed || Acked(s.acks, x))
    && (forall x :: x in s.tables.audited && x in s.tables.pending.at ==> x in s.handed)
  }

  ghost predicate Invariant(s: System) {
    && TablesOk(s) && WritersOk(s)
    && AcksOk(s.entered, s.acks, s.handed) && WritersLate(s) && WritersUnmarked(s)
    && Owners(s) && AuditedOk(s)
  }

  /** A step that takes a task to its next wait, write or end. */
  lemma {:induction false} BeginKeeps(s: System, k: TaskId, task: Task, seg: Segment)
    requires Invariant(s) && Begins(s.tables, k, task.id, seg)
    requires k in s.tasks ==> s.tasks[k].id == task.id && s.tasks[k].pc.Waiting?
    requires seg.pc.WritingAudit? ==> task.kind.Audit?
    ensures Invariant(Stepped(s, k, task, seg))
  {
    BeginKeepsWriters(s, k, task, seg);
    BeginKeepsLate(s, k, task, seg);
  }

  lemma {:induction false} BeginKeepsLate(s: System, k: TaskId, task: Task, seg: Segment)
    requires TablesOk(s) && AcksOk(s.entered, s.acks, s.handed) && WritersLate(s) && WritersUnmarked(s)
    requires Begins(s.tables, k, task.id, seg)
    ensures WritersLate(Stepped(s, k, task, seg)) && WritersUnmarked(Stepped(s, k, task, seg))
  {
    if seg.pc.Writing() {
      forall i | 0 <= i < |s.acks| && s.acks[i].id == task.id
        ensures s.acks[i].pos + AUDIT_DEDUP_CAP < |s.entered|
      {
        OutOfWindow(s.entered, s.acks[i].pos);
      }
    }
  }

  /** A write that was refused or cut off leaves its id out of the dedup FIFO. */
  lemma {:induction false} UnackedEndKeeps(s: System, k: TaskId, seg: Segment)
    requires Invariant(s) && k in s.tasks && s.tasks[k].pc.Writing() && Ends(s.tables, s.tasks[k].id, seg)
    requires seg.pc.how != Acknowledged
    ensures Invariant(Stepped(s, k, s.tasks[k], seg))
  {
    EndKeepsWriters(s, k, seg);
  }

  /** An acknowledged write is the only one of its id, and takes a new place in the history. */
  lemma {:induction false} AckedEndKeepsAcks(s: System, id: Id)
    requires TablesOk(s) && AcksOk(s.entered, s.acks, s.handed)
    requires forall i :: 0 <= i < |s.acks| && s.acks[i].id == id ==> s.acks[i].pos + AUDIT_DEDUP_CAP < |s.entered|
    requires id in s.tables.audited ==> id in s.handed
    ensures var s' := Acknowledging(s, s, id);
            && AcksOk(s'.entered, s'.acks, s'.handed)
            && Spaced(s'.entered) && Entered(s.tables.audited, id) == Newest(s'.entered)
            && s.entered <= s'.entered
  {
    if id in s.tables.audited {
      InWindow(s.entered, id);
      AckAdded(s.entered, s.entered, s.acks, s.handed, id);
    } else {
      EnteredNewest(s.entered, id);
      AckAdded(s.entered, s.entered + [id], s.acks, s.handed, id);
    }
  }

  /** One more acknowledged write, standing after every earlier one of its id. */
  lemma {:induction false} AckAdded(entered: seq<Id>, more: seq<Id>, acks: seq<Ack>, handed: set<Id>, id: Id)
    requires AcksOk(entered, acks, handed) && entered <= more && id in more
    requires forall i :: 0 <= i < |acks| && acks[i].id == id ==> acks[i].pos + AUDIT_DEDUP_CAP < |entered|
    requires LastIndex(more, id) + AUDIT_DEDUP_CAP >= |entered|
    requires id !in handed ==> more == entered + [id]
    ensures AcksOk(more, acks + [Ack(id, LastIndex(more, id), |more|)], handed)
  {
    assert more == entered + [id] ==> more[|entered|] == id;
  }

  lemma {:induction false} InWindow(entered: seq<Id>, id: Id)
    requires id in Newest(entered)
    ensures id in entered && LastIndex(entered, id) + AUDIT_DEDUP_CAP >= |entered|
  {
    var j :| 0 <= j < |Newest(entered)| && Newest(entered)[j] == id;
    var i := if |entered| > AUDIT_DEDUP_CAP then j + |entered| - AUDIT_DEDUP_CAP else j;
    assert entered[i] == id;
  }

  lemma {:induction false} AckedEndKeeps(s: System, k: TaskId, seg: Segment)
    requires Invariant(s) && k in s.tasks && s.tasks[k].pc.Writing() && Ends(s.tables, s.tasks[k].id, seg)
    requires seg.pc.how == Acknowledged
    ensures Invariant(Acknowledging(Stepped(s, k, s.tasks[k], seg), s, s.tasks[k].id))
  {
    var s' := Acknowledging(Stepped(s, k, s.tasks[k], seg), s, s.tasks[k].id);
    EndKeepsWriters(s, k, seg);
    assert WritersOk(s');
    AckedEndKeepsTables(s, k, seg);
    AckedEndKeepsWriters(s, k, s');
    AckedEndKeepsAudited(s, k, seg);
  }

  lemma {:induction false} AckedEndKeepsTables(s: System, k: TaskId, seg: Segment)
    requires TablesOk(s) && AcksOk(s.entered, s.acks, s.handed) && WritersLate(s) && WritersUnmarked(s) && Owners(s)
    requires k in s.tasks && s.tasks[k].pc.Writing() && Ends(s.tables, s.tasks[k].id, seg)
    requires seg.pc.how == Acknowledged
    ensures var s' := Acknowledging(Stepped(s, k, s.tasks[k], seg), s, s.tasks[k].id);
            && TablesOk(s') && AcksOk(s'.entered, s'.acks, s'.handed) && Owners(s')
            && |s.entered| <= |s'.entered| && s'.acks[..|s.acks|] == s.acks
            && (forall x :: x in s'.tables.audited ==> x in s.tables.audited || x == s.tasks[k].id)
  {
    AckedEndKeepsAcks(s, s.tasks[k].id);
  }

  lemma {:induction false} AckedEndKeepsAudited(s: System, k: TaskId, seg: Segment)
    requires TablesOk(s) && AuditedOk(s)
    requires k in s.tasks && s.tasks[k].pc.Writing() && Ends(s.tables, s.tasks[k].id, seg)
    requires seg.pc.how == Acknowledged
    ensures var s' := Acknowledging(Stepped(s, k, s.tasks[k], seg), s, s.tasks[k].id);
            AuditedOk(s')
  {
    var id := s.tasks[k].id;
    var s' := Acknowledging(Stepped(s, k, s.tasks[k], seg), s, id);
    forall x | Acked(s.acks, x) || x == id
      ensures Acked(s'.acks, x)
    {
      if x == id {
        assert s'.acks[|s.acks|].id == x;
      } else {
        var i :| 0 <= i < |s.acks| && s.acks[i].id == x;
        assert s'.acks[i].id == x;
      }
    }
  }

  lemma {:induction false} AckedEndKeepsWriters(s: System, k: TaskId, s': System)
    requires WritersOk(s) && WritersLate(s) && WritersUnmarked(s)
    requires k in s.tasks && s.tasks[k].pc.Writing()
    requires s'.tasks.Keys == s.tasks.Keys && (forall j :: j in s.tasks && j != k ==> s'.tasks[j] == s.tasks[j])
    requires s'.tasks[k].id == s.tasks[k].id && !s'.tasks[k].pc.Writing()
    requires |s.entered| <= |s'.entered| && |s'.acks| == |s.acks| + 1 && s'.acks[..|s.acks|] == s.acks
    requires s'.acks[|s.acks|].id == s.tasks[k].id && s'.handed == s.handed
    requires forall x :: x in s'.tables.audited ==> x in s.tables.audited || x == s.tasks[k].id
    ensures WritersLate(s') && WritersUnmarked(s')
  {
    forall j | j in s'.tasks && s'.tasks[j].pc.Writing()
      ensures s'.tasks[j].id != s.tasks[k].id
    {
      if s'.tasks[j].id == s.tasks[k].id {
        OneWriter(s, k, j);
      }
    }
  }

  lemma {:induction false} HandOverKeeps(s: System, id: Id, t: TicketId)
    requires Invariant(s) && Enabled(s, HandOver(id, t))
    ensures Invariant(Next(s, HandOver(id, t)))
  {
    s.tables.owned.PutTrim(id, t, AUDIT_DEDUP_CAP);
  }

  lemma {:induction false} CloseKeeps(s: System, t: TicketId)
    requires Invariant(s) && Enabled(s, CloseTicket(t))
    ensures Invariant(Next(s, CloseTicket(t)))
  {
    var s0 := s.(tickets := s.tickets[t := s.tickets[t].(closed := true)]);
    ReleasingMoves(s0, t, s.tickets[t].RequestIds());
  }

  lemma {:induction false} StepKeeps(s: System, a: Action)
    requires Invariant(s) && Enabled(s, a)
    ensures Invariant(Next(s, a))
  {
    var t := s.tables;
    match a
    case OpenTicket(_, _) => CalmKeeps(s, a);
    case Register(_, _, _) => CalmKeeps(s, a);
    case CancelTicket(_) => CalmKeeps(s, a);
    case HandOver(id, t) => HandOverKeeps(s, id, t);
    case CloseTicket(t) => CloseKeeps(s, t);
    case StartAudit(k, id, ctx, logEvent) =>
      AuditStartBegins(t, k, id, FactsOf(s, ctx), TicketCancelled(s, ctx), logEvent);
      BeginKeeps(s, k, Task(Audit(logEvent), id, ctx, Ended(Owned)),
                 AuditStart(t, k, id, FactsOf(s, ctx), TicketCancelled(s, ctx), logEvent));
    case StartCancel(k, id, ctx, latencyMs) =>
      CancelStartBegins(t, k, id, FactsOf(s, ctx), Reaches(s, id, ctx), latencyMs);
      BeginKeeps(s, k, Task(Cancel(OwnRecord(t, id, latencyMs)), id, ctx, Ended(Owned)),
                 CancelStart(t, k, id, FactsOf(s, ctx), Reaches(s, id, ctx), latencyMs));
    case Wake(k) => WakeKeeps(s, k);
    case CutWait(k) => CutWaitKeeps(s, k);
    case Resolve(k, outcome) => ResolveKeeps(s, k, outcome);
  }

  lemma {:induction false} CalmKeeps(s: System, a: Action)
    requires Invariant(s) && Enabled(s, a) && (a.OpenTicket? || a.Register? || a.CancelTicket?)
    ensures Invariant(Next(s, a))
  {
  }

  lemma {:induction false} WakeKeeps(s: System, k: TaskId)
    requires Invariant(s) && Enabled(s, Wake(k))
    ensures Invariant(Next(s, Wake(k)))
  {
    var task := s.tasks[k];
    match task.kind
    case Audit(logEvent) =>
      AuditResumeBegins(s.tables, k, task.id, TicketCancelled(s, task.ctx), logEvent);
      BeginKeeps(s, k, task, AuditResume(s.tables, k, task.id, TicketCancelled(s, task.ctx), logEvent));
    case Cancel(own) =>
      CancelResumeBegins(s.tables, k, task.id, own);
      BeginKeeps(s, k, task, CancelResume(s.tables, k, task.id, own));
  }

  lemma {:induction false} CutWaitKeeps(s: System, k: TaskId)
    requires Invariant(s) && Enabled(s, CutWait(k))
    ensures Invariant(Next(s, CutWait(k)))
  {
    var task := s.tasks[k];
    match task.kind
    case Audit(_) =>
      BeginKeeps(s, k, task, Segment(s.tables, Ended(CutShort)));
    case Cancel(own) =>
      CancelCutBegins(s.tables, k, task.id, own);
      BeginKeeps(s, k, task, CancelCut(s.tables, task.id, own));
  }

  lemma {:induction false} ResolveKeeps(s: System, k: TaskId, outcome: SinkOutcome)
    requires Invariant(s) && Enabled(s, Resolve(k, outcome))
    ensures Invariant(Next(s, Resolve(k, outcome)))
  {
    var task := s.tasks[k];
    if task.pc.WritingCancel? {
      CancelledResolveEnds(s.tables, k, task.id, task.pc.record, outcome);
      EndKeeps(s, k, CancelledResolve(s.tables, k, task.id, task.pc.record, outcome));
    } else {
      AuditResolveEnds(s.tables, k, task.id, outcome);
      EndKeeps(s, k, AuditResolve(s.tables, k, task.id, outcome));
    }
  }

  lemma {:induction false} EndKeeps(s: System, k: TaskId, seg: Segment)
    requires Invariant(s) && k in s.tasks && s.tasks[k].pc.Writing() && Ends(s.tables, s.tasks[k].id, seg)
    ensures var next := Stepped(s, k, s.tasks[k], seg);
            Invariant(if seg.pc == Ended(Acknowledged) then Acknowledging(next, s, s.tasks[k].id) else next)
  {
    if seg.pc.how == Acknowledged {
      AckedEndKeeps(s, k, seg);
    } else {
      UnackedEndKeeps(s, k, seg);
    }
  }
}
