/**
  The guardrail's per-request tables and the code that runs between two awaits of
  `audit()` and `on_request_cancelled()`.

  Each segment is a function from the tables to the new tables and the point where the
  task stops next. The class below holds the tables as mutable fields and runs the same
  segments in place.
 */
module Guardrail {
  import opened Wrappers
  import opened OrderedDict

  type TicketId = nat
  // A task enters the being-written tables at most once, so its id also names the
  // asyncio.Event it publishes there.
  type TaskId = nat

  const AUDIT_DEDUP_CAP: nat := 4096
  const CANCEL_PENDING_CAP: nat := 4096

  /** What `_req_state` keeps of a request, as far as its audit record needs it. */
  datatype RequestState = RequestState(ticket: Option<TicketId>, userId: string, redactions: nat)

  /** A `cancelled` record: identity and counts, no content. */
  datatype CancelRecord = CancelRecord(userId: string, redactions: nat, latencyMs: nat)

  function RecordOf(state: Option<RequestState>, latencyMs: int): CancelRecord {
    var latency := if latencyMs < 0 then 0 else latencyMs;
    match state
    case None => CancelRecord("unknown", 0, latency)
    case Some(st) => CancelRecord(st.userId, st.redactions, latency)
  }

  /** An audit's own record: whose request it was, and its redactions. */
  datatype AuditRecord = AuditRecord(userId: string, redactions: nat)

  datatype Tables = Tables(
    reqState: map<Id, RequestState>,
    audited: seq<Id>,
    pending: Dict<CancelRecord>,
    cancelEmitting: map<Id, TaskId>,
    auditEmitting: map<Id, TaskId>,
    owned: Dict<TicketId>,
    mappingsBound: bool)

  /** Why a task is over. Owned and Mismatch are the cancels that are not this request's. */
  datatype Ending = Owned | Mismatch | Deduped | Deferred | Orphan | Acknowledged | Failed | CutShort

  /** Where a task stops: at a wait, at a sink write, or for good. */
  datatype Pc =
    | Waiting(on: TaskId)
    | WritingAudit(written: AuditRecord)
    | WritingCancel(record: CancelRecord)
    | Ended(how: Ending)
  {
    predicate Writing() { WritingAudit? || WritingCancel? }
  }

  /** How the sink answers a write; CutOff is a CancelledError raised at the write. */
  datatype SinkOutcome = Confirmed | Ambiguous | Refused | CutOff

  datatype Segment = Segment(tables: Tables, pc: Pc)

  // ---- the synchronous helpers

  /** The dedup FIFO after one more id: an id already in it keeps its place. */
  function Entered(audited: seq<Id>, id: Id): (r: seq<Id>)
    ensures forall x :: x in r ==> x in audited || x == id
  {
    if id in audited then audited
    else if |audited| + 1 > AUDIT_DEDUP_CAP then (audited + [id])[1..]
    else audited + [id]
  }

  function Marked(t: Tables, id: Id): Tables {
    t.(reqState := t.reqState - {id}, pending := t.pending.Pop(id), audited := Entered(t.audited, id))
  }

  function Queued(t: Tables, id: Id, record: CancelRecord): Tables
    requires t.pending.Valid()
  {
    t.pending.PutValid(id, record);
    t.(pending := t.pending.Put(id, record).Trim(CANCEL_PENDING_CAP))
  }

  /** `_hand_over`, on a ticket that accepts the close hook because it is still open. */
  function HandedOver(t: Tables, id: Id, ticket: TicketId): Tables
    requires t.owned.Valid()
  {
    t.owned.PutValid(id, ticket);
    t.(owned := t.owned.Put(id, ticket).Trim(AUDIT_DEDUP_CAP), reqState := t.reqState - {id})
  }

  /** `_release_owned`: the closing ticket's ids leave the hand-over FIFO for the dedup FIFO. */
  function Released(t: Tables, ticket: TicketId, ids: seq<Id>): Tables
    decreases |ids|
  {
    if ids == [] then t else Released(ReleasedOne(t, ticket, ids[0]), ticket, ids[1..])
  }

  function ReleasedOne(t: Tables, ticket: TicketId, id: Id): Tables {
    if id in t.owned.at && t.owned.at[id] == ticket then
      t.(owned := t.owned.Pop(id), audited := Entered(t.audited, id))
    else t
  }

  /** Releasing touches no request state. */
  lemma {:induction false} ReleasedWithState(t: Tables, reqState: map<Id, RequestState>, ticket: TicketId, ids: seq<Id>)
    ensures Released(t.(reqState := reqState), ticket, ids) == Released(t, ticket, ids).(reqState := reqState)
    ensures Released(t, ticket, ids).reqState == t.reqState
    decreases |ids|
  {
    if ids != [] {
      ReleasedWithState(ReleasedOne(t, ticket, ids[0]), reqState, ticket, ids[1..]);
    }
  }

  /** `_terminal_owner`: `facts` is the request id the caller's own ticket holds facts for. */
  predicate OwnedByTicket(t: Tables, facts: Option<Id>, id: Id) {
    facts == Some(id) || id in t.owned.at
  }

  /** The write `_emits_resolved` waits for, if one is in flight. */
  function InFlight(t: Tables, id: Id): Option<TaskId> {
    if id in t.cancelEmitting then Some(t.cancelEmitting[id])
    else if id in t.auditEmitting then Some(t.auditEmitting[id])
    else None
  }

  // ---- audit()

  function AuditRecordOf(t: Tables, id: Id): AuditRecord {
    if id in t.reqState then AuditRecord(t.reqState[id].userId, t.reqState[id].redactions)
    else AuditRecord("unknown", 0)
  }

  function AuditStart(t: Tables, me: TaskId, id: Id, facts: Option<Id>, cancelled: bool, logEvent: bool): Segment {
    if OwnedByTicket(t, facts, id) then Segment(t, Ended(Owned))
    else AuditResume(t, me, id, cancelled, logEvent)
  }

  /** From the wait on: `cancelled` is the flag of the caller's own ticket. */
  function AuditResume(t: Tables, me: TaskId, id: Id, cancelled: bool, logEvent: bool): Segment {
    match InFlight(t, id)
    case Some(event) => Segment(t, Waiting(event))
    case None =>
      if id in t.audited then Segment(t, Ended(Deduped))
      else if id in t.pending.at then
        Segment(t.(cancelEmitting := t.cancelEmitting[id := me]), WritingCancel(t.pending.at[id]))
      else if cancelled then Segment(t, Ended(Deferred))
      else if id !in t.reqState && logEvent && t.mappingsBound then Segment(t, Ended(Orphan))
      else Segment(t.(auditEmitting := t.auditEmitting[id := me]), WritingAudit(AuditRecordOf(t, id)))
  }

  /** The `with _emitting(...)` block closes before the handlers run. */
  function AuditResolve(t: Tables, me: TaskId, id: Id, outcome: SinkOutcome): Segment {
    var freed := if id in t.auditEmitting && t.auditEmitting[id] == me
                 then t.(auditEmitting := t.auditEmitting - {id}) else t;
    match outcome
    case Confirmed => Segment(Marked(freed, id), Ended(Acknowledged))
    case Ambiguous => Segment(Marked(freed, id), Ended(Acknowledged))
    case Refused => Segment(freed, Ended(Failed))
    case CutOff => Segment(freed, Ended(CutShort))
  }

  // ---- on_request_cancelled()

  /** `reaches` is `_cancel_reaches` of the registered state's ticket. */
  function CancelStart(t: Tables, me: TaskId, id: Id, facts: Option<Id>, reaches: bool, latencyMs: int): Segment {
    if OwnedByTicket(t, facts, id) then Segment(t.(pending := t.pending.Pop(id)), Ended(Owned))
    else if id in t.reqState && !reaches then Segment(t, Ended(Mismatch))
    else CancelResume(t.(reqState := t.reqState - {id}), me, id, OwnRecord(t, id, latencyMs))
  }

  function OwnRecord(t: Tables, id: Id, latencyMs: int): CancelRecord {
    RecordOf(if id in t.reqState then Some(t.reqState[id]) else None, latencyMs)
  }

  function CancelResume(t: Tables, me: TaskId, id: Id, own: CancelRecord): Segment {
    match InFlight(t, id)
    case Some(event) => Segment(t, Waiting(event))
    case None =>
      if id in t.audited then Segment(t.(pending := t.pending.Pop(id)), Ended(Deduped))
      else Segment(t.(cancelEmitting := t.cancelEmitting[id := me]),
                   WritingCancel(if id in t.pending.at then t.pending.at[id] else own))
  }

  /** The route gate's deadline ended the wait. */
  function CancelCut(t: Tables, id: Id, own: CancelRecord): Segment
    requires t.pending.Valid()
  {
    Segment(if id !in t.audited && id !in t.pending.at then Queued(t, id, own) else t, Ended(CutShort))
  }

  /** A `cancelled` record's write resolves, whichever coroutine wrote it. */
  function CancelledResolve(t: Tables, me: TaskId, id: Id, record: CancelRecord, outcome: SinkOutcome): Segment
    requires t.pending.Valid()
  {
    var marked := match outcome
                  case Confirmed => Marked(t, id)
                  case Ambiguous => Marked(t, id)
                  case Refused => Queued(t, id, record)
                  case CutOff => Queued(t, id, record);
    var freed := if id in marked.cancelEmitting && marked.cancelEmitting[id] == me
                 then marked.(cancelEmitting := marked.cancelEmitting - {id}) else marked;
    Segment(freed, Ended(match outcome
                         case Confirmed => Acknowledged
                         case Ambiguous => Acknowledged
                         case Refused => Failed
                         case CutOff => CutShort))
  }

  // ---- the object

  /** The guardrail object: the same tables, updated in place by the running coroutines. */
  class CorpLlmGuardrail {
    var reqState: map<Id, RequestState>
    var audited: seq<Id>
    var pending: Dict<CancelRecord>
    var cancelEmitting: map<Id, TaskId>
    var auditEmitting: map<Id, TaskId>
    var owned: Dict<TicketId>
    var mappingsBound: bool

    ghost function Abs(): Tables
      reads this
    {
      Tables(reqState, audited, pending, cancelEmitting, auditEmitting, owned, mappingsBound)
    }

    ghost predicate Valid()
      reads this
    {
      pending.Valid() && owned.Valid()
    }

    constructor (mappingsBound: bool)
      ensures Valid()
      ensures Abs() == Tables(map[], [], Dict([], map[]), map[], map[], Dict([], map[]), mappingsBound)
    {
      reqState, audited, pending := map[], [], Dict([], map[]);
      cancelEmitting, auditEmitting, owned := map[], map[], Dict([], map[]);
      this.mappingsBound := mappingsBound;
    }

    method MarkAudited(id: Id)
      requires Valid()
      modifies this
      ensures Valid()
      ensures Abs() == Marked(old(Abs()), id)
    {
      pending.PopValid(id);
      reqState := reqState - {id};
      pending := pending.Pop(id);
      if id !in audited {
        audited := audited + [id];
        if |audited| > AUDIT_DEDUP_CAP {
          audited := audited[1..];
        }
      }
    }

    method QueueCancelled(id: Id, record: CancelRecord)
      requires Valid()
      modifies this
      ensures Valid()
      ensures Abs() == Queued(old(Abs()), id, record)
    {
      pending.PutValid(id, record);
      pending := pending.Put(id, record);
      while |pending.order| > CANCEL_PENDING_CAP
        invariant Valid()
        invariant Abs().(pending := old(pending)) == old(Abs())
        invariant pending.Trim(CANCEL_PENDING_CAP) == Queued(old(Abs()), id, record).pending
        decreases |pending.order|
      {
        pending := pending.PopFirst();
      }
    }

    /** A ticket that is closed already refuses the close hook, and is released at once. */
    method HandOver(id: Id, ticket: TicketId, closed: bool, ids: seq<Id>)
      requires Valid()
      modifies this
      ensures Valid()
      ensures Abs() == if closed then Released(HandedOver(old(Abs()), id, ticket), ticket, ids)
                       else HandedOver(old(Abs()), id, ticket)
    {
      owned.PutValid(id, ticket);
      owned := owned.Put(id, ticket);
      while |owned.order| > AUDIT_DEDUP_CAP
        invariant Valid()
        invariant Abs().(owned := old(owned)) == old(Abs())
        invariant owned.Trim(AUDIT_DEDUP_CAP) == HandedOver(old(Abs()), id, ticket).owned
        decreases |owned.order|
      {
        owned := owned.PopFirst();
      }
      if closed {
        ReleasedWithState(Abs(), reqState - {id}, ticket, ids);
        ReleaseOwned(ticket, ids);
      }
      reqState := reqState - {id};
    }

    method ReleaseOwned(ticket: TicketId, ids: seq<Id>)
      requires Valid()
      modifies this
      ensures Valid()
      ensures Abs() == Released(old(Abs()), ticket, ids)
    {
      var rest := ids;
      while rest != []
        invariant Valid()
        invariant Released(Abs(), ticket, rest) == Released(old(Abs()), ticket, ids)
        decreases |rest|
      {
        var id := rest[0];
        if id in owned.at && owned.at[id] == ticket {
          owned.PopValid(id);
          owned := owned.Pop(id);
          if id !in audited {
            audited := audited + [id];
            if |audited| > AUDIT_DEDUP_CAP {
              audited := audited[1..];
            }
          }
        }
        rest := rest[1..];
      }
    }

    /** audit() up to its first suspension; `me` is the Event it would publish. */
    method Audit(me: TaskId, id: Id, facts: Option<Id>, cancelled: bool, logEvent: bool) returns (pc: Pc)
      requires Valid()
      modifies this
      ensures Valid()
      ensures Segment(Abs(), pc) == AuditStart(old(Abs()), me, id, facts, cancelled, logEvent)
    {
      if facts == Some(id) || id in owned.at {
        return Ended(Owned);
      }
      pc := AuditWakes(me, id, cancelled, logEvent);
    }

    /** audit() from `_emits_resolved` to its next suspension. */
    method AuditWakes(me: TaskId, id: Id, cancelled: bool, logEvent: bool) returns (pc: Pc)
      requires Valid()
      modifies this
      ensures Valid()
      ensures Segment(Abs(), pc) == AuditResume(old(Abs()), me, id, cancelled, logEvent)
    {
      if id in cancelEmitting {
        return Waiting(cancelEmitting[id]);
      }
      if id in auditEmitting {
        return Waiting(auditEmitting[id]);
      }
      if id in audited {
        return Ended(Deduped);
      }
      if id in pending.at {
        cancelEmitting := cancelEmitting[id := me];
        return WritingCancel(pending.at[id]);
      }
      if cancelled {
        return Ended(Deferred);
      }
      if id !in reqState && logEvent && mappingsBound {
        return Ended(Orphan);
      }
      auditEmitting := auditEmitting[id := me];
      return WritingAudit(if id in reqState then AuditRecord(reqState[id].userId, reqState[id].redactions)
                          else AuditRecord("unknown", 0));
    }

    /** on_request_cancelled() up to its first suspension, and the record it keeps. */
    method OnRequestCancelled(me: TaskId, id: Id, facts: Option<Id>, reaches: bool, latencyMs: int)
      returns (pc: Pc, own: CancelRecord)
      requires Valid()
      modifies this
      ensures Valid()
      ensures Segment(Abs(), pc) == CancelStart(old(Abs()), me, id, facts, reaches, latencyMs)
      ensures own == OwnRecord(old(Abs()), id, latencyMs)
    {
      var state := if id in reqState then Some(reqState[id]) else None;
      own := RecordOf(state, latencyMs);
      if facts == Some(id) || id in owned.at {
        pending.PopValid(id);
        pending := pending.Pop(id);
        return Ended(Owned), own;
      }
      if state.Some? && !reaches {
        return Ended(Mismatch), own;
      }
      reqState := reqState - {id};
      pc := CancelWakes(me, id, own);
    }

    /** on_request_cancelled() from `_emits_resolved` to its next suspension. */
    method CancelWakes(me: TaskId, id: Id, own: CancelRecord) returns (pc: Pc)
      requires Valid()
      modifies this
      ensures Valid()
      ensures Segment(Abs(), pc) == CancelResume(old(Abs()), me, id, own)
    {
      if id in cancelEmitting {
        return Waiting(cancelEmitting[id]);
      }
      if id in auditEmitting {
        return Waiting(auditEmitting[id]);
      }
      if id in audited {
        pending.PopValid(id);
        pending := pending.Pop(id);
        return Ended(Deduped);
      }
      cancelEmitting := cancelEmitting[id := me];
      return WritingCancel(if id in pending.at then pending.at[id] else own);
    }

    /** A cancel cut short while it waits keeps its counts for a later writer. */
    method CancelCutShort(id: Id, own: CancelRecord) returns (pc: Pc)
      requires Valid()
      modifies this
      ensures Valid()
      ensures Segment(Abs(), pc) == CancelCut(old(Abs()), id, own)
    {
      if id !in audited && id !in pending.at {
        QueueCancelled(id, own);
      }
      return Ended(CutShort);
    }

    /** The end of a `cancelled` record's write: mark or queue, then free the Event. */
    method EmitCancelledEnds(me: TaskId, id: Id, record: CancelRecord, outcome: SinkOutcome) returns (pc: Pc)
      requires Valid()
      modifies this
      ensures Valid()
      ensures Segment(Abs(), pc) == CancelledResolve(old(Abs()), me, id, record, outcome)
    {
      match outcome {
        case Confirmed => MarkAudited(id); pc := Ended(Acknowledged);
        case Ambiguous => MarkAudited(id); pc := Ended(Acknowledged);
        case Refused => QueueCancelled(id, record); pc := Ended(Failed);
        case CutOff => QueueCancelled(id, record); pc := Ended(CutShort);
      }
      if id in cancelEmitting && cancelEmitting[id] == me {
        cancelEmitting := cancelEmitting - {id};
      }
    }

    /** The end of audit()'s own write: free the Event, then mark on an acknowledged one. */
    method EmitAuditEnds(me: TaskId, id: Id, outcome: SinkOutcome) returns (pc: Pc)
      requires Valid()
      modifies this
      ensures Valid()
      ensures Segment(Abs(), pc) == AuditResolve(old(Abs()), me, id, outcome)
    {
      if id in auditEmitting && auditEmitting[id] == me {
        auditEmitting := auditEmitting - {id};
      }
      match outcome {
        case Confirmed => MarkAudited(id); pc := Ended(Acknowledged);
        case Ambiguous => MarkAudited(id); pc := Ended(Acknowledged);
        case Refused => pc := Ended(Failed);
        case CutOff => pc := Ended(CutShort);
      }
    }
  }
}
