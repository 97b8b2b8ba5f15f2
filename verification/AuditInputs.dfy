/**
  Where two properties of the audit protocol end: a handed-over id that nothing guards any more,
  and that is not settled, is written for again, and an acknowledged write can count from an entry older than itself.
  Each is shown by a run from the start.
 */
module AuditInputs {
  import opened Wrappers
  import opened OrderedDict
  import opened Guardrail
  import opened AuditRuns
  import opened AuditTheorems
  import opened HandOverTheorem
  import AuditRecords

  // ---- an id that nothing guards

  /** Nothing guards the handed-over id. */
  ghost predicate Bare(s: System, id: Id) {
    && id in s.handed && !FactsAreIts(s, id)
    && id !in s.tables.owned.at && id !in s.tables.audited && id !in s.tables.reqState
  }

  /** Its ticket is open, and no write for the id is in flight. */
  ghost predicate Open(s: System, id: Id, t: TicketId) {
    Bare(s, id) && InFlight(s.tables, id) == None && Knows(s.tickets, t, id) && !s.tickets[t].closed
  }

  /** Its counts are queued, and no write for the id is in flight. */
  ghost predicate Queue(s: System, id: Id) {
    Bare(s, id) && InFlight(s.tables, id) == None && id in s.tables.pending.at
  }

  lemma {:induction false} CancelStartsWriting(s: System, id: Id, t: TicketId, k: TaskId)
    requires TablesOk(s) && Open(s, id, t) && k !in s.tasks
    ensures Enabled(s, StartCancel(k, id, Some(t), 0))
    ensures var s' := Next(s, StartCancel(k, id, Some(t), 0));
            && s'.tickets == s.tickets && s'.handed == s.handed && s'.tasks.Keys == s.tasks.Keys + {k}
            && k in s'.tasks && s'.tasks[k].pc.WritingCancel? && s'.tasks[k].id == id
            && s'.tables == s.tables.(reqState := s'.tables.reqState,
                                      cancelEmitting := s.tables.cancelEmitting[id := k])
            && id !in s'.tables.reqState
  {
  }

  lemma {:induction false} RefusedIsQueued(s: System, id: Id, k: TaskId)
    requires TablesOk(s) && k in s.tasks && s.tasks[k].pc.WritingCancel? && s.tasks[k].id == id
    requires id in s.tables.cancelEmitting && s.tables.cancelEmitting[id] == k && id !in s.tables.auditEmitting
    requires Bare(s, id)
    ensures Enabled(s, Resolve(k, Refused))
    ensures var s' := Next(s, Resolve(k, Refused)); Queue(s', id) && s'.tasks.Keys == s.tasks.Keys
  {
    QueuedFramed(s.tables, id, s.tasks[k].pc.record);
  }

  lemma {:induction false} QueuedIsWritten(s: System, id: Id, k: TaskId)
    requires TablesOk(s) && Queue(s, id) && k !in s.tasks
    ensures Enabled(s, StartAudit(k, id, None, true))
    ensures LogEventWrites(Next(s, StartAudit(k, id, None, true)), k, id)
  {
  }

  lemma {:induction false} LastTables(states: seq<System>, actions: seq<Action>)
    requires IsProxiedRun(states, actions)
    ensures TablesOk(states[|states| - 1])
  {
    RunTables(states, actions, |states| - 1);
  }

  /** One action more, with the run it makes. */
  lemma {:induction false} Act(states: seq<System>, actions: seq<Action>, a: Action)
    returns (more: seq<System>, acts: seq<Action>)
    requires IsProxiedRun(states, actions)
    requires Enabled(states[|states| - 1], a) && Proxied(states[|states| - 1], a)
    ensures TablesOk(states[|states| - 1])
    ensures more == states + [Next(states[|states| - 1], a)] && acts == actions + [a]
    ensures IsProxiedRun(more, acts) && more[|more| - 1] == Next(states[|states| - 1], a) && TablesOk(more[|more| - 1])
  {
    LastTables(states, actions);
    ProxiedRunGrows(states, actions, a);
    more, acts := states + [Next(states[|states| - 1], a)], actions + [a];
    LastTables(more, acts);
  }

  /** The ticket is cancelled, and the cancel of the id refused by the sink. */
  lemma {:induction false} RefusedCancel(states: seq<System>, actions: seq<Action>, id: Id, t: TicketId, k: TaskId)
    returns (more: seq<System>, acts: seq<Action>)
    requires IsProxiedRun(states, actions) && Open(states[|states| - 1], id, t) && k !in states[|states| - 1].tasks
    ensures IsProxiedRun(more, acts) && states <= more && actions <= acts
    ensures Queue(more[|more| - 1], id) && more[|more| - 1].tasks.Keys == states[|states| - 1].tasks.Keys + {k}
  {
    more, acts := Act(states, actions, CancelTicket(t));
    CancelledIsOpen(states[|states| - 1], id, t);
    CancelStartsWriting(more[|more| - 1], id, t, k);
    more, acts := Act(more, acts, StartCancel(k, id, Some(t), 0));
    RefusedIsQueued(more[|more| - 1], id, k);
    more, acts := Act(more, acts, Resolve(k, Refused));
  }

  lemma {:induction false} CancelledIsOpen(s: System, id: Id, t: TicketId)
    requires TablesOk(s) && Open(s, id, t)
    ensures var s' := Next(s, CancelTicket(t)); Open(s', id, t) && s'.tickets[t].cancelled && s'.tasks == s.tasks
  {
  }

  /** A write in flight is refused: what is queued stays, and what a cancel wrote is queued. */
  lemma {:induction false} FlightRefused(s: System, id: Id, w: TaskId)
    requires Invariant(s) && InFlight(s.tables, id) == Some(w) && Bare(s, id)
    ensures Enabled(s, Resolve(w, Refused))
    ensures var s' := Next(s, Resolve(w, Refused));
            && Bare(s', id) && InFlight(s'.tables, id) == None && s'.tasks.Keys == s.tasks.Keys
            && s'.tickets == s.tickets
            && (id in s.tables.pending.at || CancelWrites(s, id) ==> id in s'.tables.pending.at)
  {
    if id in s.tables.cancelEmitting {
      CancelledResolveEnds(s.tables, w, id, s.tasks[w].pc.record, Refused);
      QueuedFramed(s.tables, id, s.tasks[w].pc.record);
    } else {
      AuditResolveEnds(s.tables, w, id, Refused);
    }
  }

  /** What is in flight for it, if anything, is refused. */
  lemma {:induction false} Landed(states: seq<System>, actions: seq<Action>, id: Id)
    returns (more: seq<System>, acts: seq<Action>)
    requires IsProxiedRun(states, actions) && Bare(states[|states| - 1], id)
    ensures IsProxiedRun(more, acts) && states <= more && actions <= acts
    ensures var s, s' := states[|states| - 1], more[|more| - 1];
            && Bare(s', id) && InFlight(s'.tables, id) == None && s'.tasks.Keys == s.tasks.Keys
            && s'.tickets == s.tickets
            && (id in s.tables.pending.at || CancelWrites(s, id) ==> id in s'.tables.pending.at)
  {
    var s := states[|states| - 1];
    RunInvariant(states, actions, |states| - 1);
    more, acts := states, actions;
    if InFlight(s.tables, id).Some? {
      FlightRefused(s, id, InFlight(s.tables, id).value);
      more, acts := Act(states, actions, Resolve(InFlight(s.tables, id).value, Refused));
    }
  }

  /** A waiting cancel that is cut short leaves its counts behind. */
  lemma {:induction false} CutIsQueued(s: System, id: Id, w: TaskId)
    requires TablesOk(s) && Bare(s, id) && id !in s.tables.pending.at
    requires w in s.tasks && s.tasks[w].id == id && s.tasks[w].kind.Cancel? && s.tasks[w].pc.Waiting?
    ensures Enabled(s, CutWait(w))
    ensures var s' := Next(s, CutWait(w)); Bare(s', id) && id in s'.tables.pending.at && s'.tasks.Keys == s.tasks.Keys
  {
    QueuedFramed(s.tables, id, s.tasks[w].kind.own);
  }

  /** A cancel under way ends with its counts queued. */
  lemma {:induction false} CancelQueues(states: seq<System>, actions: seq<Action>, id: Id)
    returns (more: seq<System>, acts: seq<Action>)
    requires IsProxiedRun(states, actions) && Bare(states[|states| - 1], id) && Cancelling(states[|states| - 1], id)
    ensures IsProxiedRun(more, acts) && states <= more && actions <= acts
    ensures Queue(more[|more| - 1], id) && more[|more| - 1].tasks.Keys == states[|states| - 1].tasks.Keys
  {
    var s := states[|states| - 1];
    LastTables(states, actions);
    NoCancelOf(s, id);
    more, acts := states, actions;
    if id !in s.tables.pending.at && !CancelWrites(s, id) {
      var w :| w in s.tasks && s.tasks[w].id == id && s.tasks[w].kind.Cancel? && s.tasks[w].pc.Waiting?;
      CutIsQueued(s, id, w);
      more, acts := Act(states, actions, CutWait(w));
    }
    more, acts := Landed(more, acts, id);
  }

  /** The other half: at any point of any run at which nothing guards a handed-over id, and its
      ticket is open or a cancel of it waits, writes or left counts behind, the run can go on to a
      log event that writes a record for it. */
  lemma {:induction false} UnguardedReopens(states: seq<System>, actions: seq<Action>, id: Id, k: TaskId, k': TaskId)
    returns (more: seq<System>, acts: seq<Action>)
    requires IsProxiedRun(states, actions)
    requires id in states[|states| - 1].handed && !Guarded(states[|states| - 1], id)
    requires !Settled(states[|states| - 1], id)
    requires k !in states[|states| - 1].tasks && k' !in states[|states| - 1].tasks && k != k'
    ensures IsProxiedRun(more, acts) && states <= more && actions <= acts
    ensures LogEventWrites(more[|more| - 1], k', id)
  {
    var s := states[|states| - 1];
    ProxiedRunInvariant(states, actions, |states| - 1);
    if Cancelling(s, id) {
      more, acts := CancelQueues(states, actions, id);
    } else {
      more, acts := Landed(states, actions, id);
      var t :| Knows(s.tickets, t, id) && !s.tickets[t].closed;
      more, acts := RefusedCancel(more, acts, id, t, k);
    }
    LastTables(more, acts);
    QueuedIsWritten(more[|more| - 1], id, k');
    more, acts := Act(more, acts, StartAudit(k', id, None, true));
  }

  // ---- a run that gets there

  /** As many ids as are needed: the dots of length `n`. */
  function Tag(n: nat): Id { seq(n, _ => '.') }

  const GATEWAY: Id := Tag(0)
  const FIRST: Id := Tag(1)
  const SECOND: Id := Tag(2)

  /** Every ticket and id so far is below `m`. */
  ghost predicate Below(s: System, m: nat) {
    && (forall x :: x in s.handed ==> |x| < m)
    && (forall t :: t in s.tickets ==>
          t < m && |s.tickets[t].gatewayId| < m && forall x :: x in s.tickets[t].callIds ==> |x| < m)
  }

  /** Ticket 0 was handed `FIRST`, then `SECOND`; `n` other tickets one request each. While the
      hand-over FIFO remembers `FIRST` it is the oldest there. */
  ghost predicate Flooded(s: System, n: nat) {
    && s.tasks == map[] && s.tables.audited == [] && FIRST in s.handed
    && 0 in s.tickets && FIRST in s.tickets[0].callIds && s.tickets[0].facts == Some(SECOND) && !s.tickets[0].closed
    && (FIRST in s.tables.owned.at ==> |s.tables.owned.order| == 2 + n && s.tables.owned.order[0] == FIRST)
  }

  lemma {:induction false} OldestGoes(d: Dict<TicketId>, x: Id, t: TicketId, first: Id, n: nat)
    requires d.Valid() && |d.order| <= AUDIT_DEDUP_CAP && x !in d.at && x != first
    requires first in d.at ==> |d.order| == n && d.order[0] == first
    ensures d.Put(x, t).Valid()
    ensures var e := d.Put(x, t).Trim(AUDIT_DEDUP_CAP);
            first in e.at ==> |e.order| == n + 1 && e.order[0] == first
  {
    d.PutTrim(x, t, AUDIT_DEDUP_CAP);
    d.PutValid(x, t);
    assert d.Put(x, t).order == d.order + [x];
    if first in d.at && |d.order| == AUDIT_DEDUP_CAP {
      assert d.Put(x, t).Trim(AUDIT_DEDUP_CAP) == d.Put(x, t).PopFirst();
    }
  }

  lemma {:induction false} Opens(s: System, n: nat, m: nat)
    requires TablesOk(s) && Flooded(s, n) && Below(s, m)
    ensures Enabled(s, OpenTicket(m, Tag(m))) && Proxied(s, OpenTicket(m, Tag(m)))
    ensures var s' := Next(s, OpenTicket(m, Tag(m)));
            && Flooded(s', n) && Below(s', m + 1) && s'.handed == s.handed && s'.tables == s.tables
            && s'.tickets == s.tickets[m := Ticket(Tag(m), [], false, false, None)]
  {
    assert m !in s.tickets;
  }

  lemma {:induction false} Registers(s: System, n: nat, m: nat)
    requires TablesOk(s) && Flooded(s, n) && Below(s, m + 1)
    requires m in s.tickets && s.tickets[m] == Ticket(Tag(m), [], false, false, None)
    ensures var a := Register(Tag(m + 1), Some(m), RequestState(Some(m), "", 0));
            var s' := Next(s, a);
            && Enabled(s, a) && Proxied(s, a)
            && Flooded(s', n) && Below(s', m + 2) && s'.handed == s.handed && s'.tables.owned == s.tables.owned
            && m in s'.tickets && s'.tickets[m] == Ticket(Tag(m), [Tag(m + 1)], false, false, None)
  {
    assert |Tag(m + 1)| == m + 1 && |Tag(m)| == m;
    assert [] + [Tag(m + 1)] == [Tag(m + 1)];
  }

  lemma {:induction false} HandsOver(s: System, n: nat, m: nat)
    requires TablesOk(s) && Owners(s) && Flooded(s, n) && Below(s, m + 2) && 0 < m && Tag(m + 1) !in s.handed
    requires m in s.tickets && s.tickets[m] == Ticket(Tag(m), [Tag(m + 1)], false, false, None)
    ensures var a := HandOver(Tag(m + 1), m);
            Enabled(s, a) && Proxied(s, a) && Flooded(Next(s, a), n + 1) && Below(Next(s, a), m + 2)
  {
    assert |Tag(m + 1)| == m + 1 && |FIRST| == 1;
    OldestGoes(s.tables.owned, Tag(m + 1), m, FIRST, 2 + n);
  }

  lemma {:induction false} StartRun() returns (states: seq<System>, actions: seq<Action>)
    ensures IsProxiedRun(states, actions) && |states| == 1 && states[0] == Init(true)
  {
    states, actions := [Init(true)], [];
  }

  const STATE: RequestState := RequestState(Some(0), "", 0)

  /** A state with one ticket, nothing running and nothing written. */
  function Calm(reqState: map<Id, RequestState>, owned: Dict<TicketId>, ticket: Ticket, handed: set<Id>): System {
    System(Tables(reqState, [], Dict([], map[]), map[], map[], owned, true), map[0 := ticket], map[], [], [], handed)
  }

  lemma {:induction false} CalmRegisters(s: System, id: Id, owned: Dict<TicketId>, ticket: Ticket, handed: set<Id>)
    requires owned.Valid() && s == Calm(map[], owned, ticket, handed)
    requires id !in handed && id !in ticket.callIds && ticket.gatewayId != id
    ensures Enabled(s, Register(id, Some(0), STATE)) && Proxied(s, Register(id, Some(0), STATE))
    ensures Next(s, Register(id, Some(0), STATE)) ==
      Calm(map[id := STATE], owned, ticket.(callIds := ticket.callIds + [id]), handed)
  {
  }

  lemma {:induction false} CalmHandsOver(s: System, id: Id, owned: Dict<TicketId>, ticket: Ticket, handed: set<Id>)
    requires owned.Valid() && |owned.order| < 3 && id !in owned.at && id in ticket.callIds && id !in handed
    requires s == Calm(map[id := STATE], owned, ticket, handed) && !ticket.cancelled && !ticket.closed
    ensures Enabled(s, HandOver(id, 0)) && Proxied(s, HandOver(id, 0))
    ensures Next(s, HandOver(id, 0)) ==
      Calm(map[], Dict(owned.order + [id], owned.at[id := 0]), ticket.(facts := Some(id)), handed + {id})
  {
    owned.PutValid(id, 0);
    assert owned.Put(id, 0).Trim(AUDIT_DEDUP_CAP) == owned.Put(id, 0);
    assert map[id := STATE] - {id} == map[];
  }

  lemma {:induction false} RegisteredAndHandedOver(
    states: seq<System>, actions: seq<Action>, id: Id, owned: Dict<TicketId>, ticket: Ticket, handed: set<Id>)
    returns (more: seq<System>, acts: seq<Action>)
    requires IsProxiedRun(states, actions) && states[|states| - 1] == Calm(map[], owned, ticket, handed)
    requires owned.Valid() && |owned.order| < 3 && id !in owned.at && id !in handed
    requires id !in ticket.callIds && ticket.gatewayId != id && !ticket.cancelled && !ticket.closed
    ensures IsProxiedRun(more, acts)
    ensures more[|more| - 1] == Calm(map[], Dict(owned.order + [id], owned.at[id := 0]),
                                     ticket.(callIds := ticket.callIds + [id], facts := Some(id)), handed + {id})
  {
    CalmRegisters(states[|states| - 1], id, owned, ticket, handed);
    more, acts := Act(states, actions, Register(id, Some(0), STATE));
    CalmHandsOver(more[|more| - 1], id, owned, ticket.(callIds := ticket.callIds + [id]), handed);
    more, acts := Act(more, acts, HandOver(id, 0));
  }

  /** A ticket that is handed two requests. */
  lemma {:induction false} TwoHandOvers() returns (states: seq<System>, actions: seq<Action>)
    ensures IsProxiedRun(states, actions)
    ensures Flooded(states[|states| - 1], 0) && Below(states[|states| - 1], 3)
  {
    assert |GATEWAY| == 0 && |FIRST| == 1 && |SECOND| == 2;
    states, actions := StartRun();
    states, actions := Act(states, actions, OpenTicket(0, GATEWAY));
    var none: Dict<TicketId> := Dict([], map[]);
    var ticket := Ticket(GATEWAY, [], false, false, None);
    states, actions := RegisteredAndHandedOver(states, actions, FIRST, none, ticket, {});
    var one := Dict(none.order + [FIRST], none.at[FIRST := 0]);
    var first := ticket.(callIds := ticket.callIds + [FIRST], facts := Some(FIRST));
    states, actions := RegisteredAndHandedOver(states, actions, SECOND, one, first, {} + {FIRST});
  }

  /** And `n` other tickets, one request each. */
  lemma {:induction false} Flood(n: nat) returns (states: seq<System>, actions: seq<Action>, m: nat)
    ensures IsProxiedRun(states, actions) && m > 0
    ensures Flooded(states[|states| - 1], n) && Below(states[|states| - 1], m)
  {
    if n == 0 {
      states, actions := TwoHandOvers();
      m := 3;
    } else {
      states, actions, m := Flood(n - 1);
      states, actions := OneTicketMore(states, actions, n - 1, m);
      m := m + 2;
    }
  }

  lemma {:induction false} OneTicketMore(states: seq<System>, actions: seq<Action>, n: nat, m: nat)
    returns (more: seq<System>, acts: seq<Action>)
    requires IsProxiedRun(states, actions) && Flooded(states[|states| - 1], n) && Below(states[|states| - 1], m)
    requires m > 0
    ensures IsProxiedRun(more, acts) && Flooded(more[|more| - 1], n + 1) && Below(more[|more| - 1], m + 2)
  {
    LastTables(states, actions);
    assert |Tag(m + 1)| == m + 1;
    Opens(states[|states| - 1], n, m);
    more, acts := Act(states, actions, OpenTicket(m, Tag(m)));
    Registers(more[|more| - 1], n, m);
    more, acts := Act(more, acts, Register(Tag(m + 1), Some(m), RequestState(Some(m), "", 0)));
    RunInvariant(more, acts, |more| - 1);
    HandsOver(more[|more| - 1], n, m);
    more, acts := Act(more, acts, HandOver(Tag(m + 1), m));
  }

  /** The failing input: a ticket handed two requests, and 4095 others after them. The first id
      is forgotten, its ticket's facts are the second's, and a refused cancel brings it back. */
  lemma {:induction false} SecondHandOverReopensTheFirst() returns (states: seq<System>, actions: seq<Action>)
    ensures IsProxiedRun(states, actions)
    ensures FIRST in states[|states| - 1].handed && LogEventWrites(states[|states| - 1], 1, FIRST)
  {
    var m;
    states, actions, m := Flood(4095);
    var s := states[|states| - 1];
    LastTables(states, actions);
    assert FIRST !in s.tables.owned.at;
    ProxiedRunInvariant(states, actions, |states| - 1);
    NotItsFacts(s);
    OpenIsNotSettled(s, FIRST, 0);
    var n := |states|;
    states, actions := UnguardedReopens(states, actions, FIRST, 0, 1);
    HandedGrows(states, actions, n - 1, |states| - 1);
  }

  lemma {:induction false} NotItsFacts(s: System)
    requires CallIdsUnique(s.tickets) && 0 in s.tickets && FIRST in s.tickets[0].callIds
      && s.tickets[0].facts == Some(SECOND)
    ensures !FactsAreIts(s, FIRST)
  {
    assert |FIRST| == 1 && |SECOND| == 2;
  }

  lemma {:induction false} OpenIsNotSettled(s: System, id: Id, t: TicketId)
    requires CallIdsUnique(s.tickets) && Knows(s.tickets, t, id) && !s.tickets[t].closed
    ensures !Settled(s, id)
  {
  }

  lemma {:induction false} HandedStep(states: seq<System>, actions: seq<Action>, i: nat)
    requires IsProxiedRun(states, actions) && i < |actions|
    ensures states[i].handed <= states[i + 1].handed
  {
    RunStep(states, actions, i);
    HandedStays(states[i], actions[i]);
  }

  lemma {:induction false} HandedGrows(states: seq<System>, actions: seq<Action>, i: nat, j: nat)
    requires IsProxiedRun(states, actions) && i <= j < |states|
    ensures states[i].handed <= states[j].handed
    decreases j
  {
    if i < j {
      HandedGrows(states, actions, i, j - 1);
      HandedStep(states, actions, j - 1);
    }
  }

  // ---- an acknowledged write that counts from an older entry

  /** Nothing is waiting, queued, owned or registered; what runs is over. */
  ghost predicate Idle(s: System) {
    && s.tables.reqState == map[] && s.tables.pending == Dict([], map[]) && s.tables.owned == Dict([], map[])
    && s.tables.auditEmitting == map[] && s.tables.cancelEmitting == map[]
  }

  /** An audit no ticket is behind, from its start to its acknowledgement. */
  lemma {:induction false} AuditsOnce(states: seq<System>, actions: seq<Action>, k: TaskId, id: Id)
    returns (more: seq<System>, acts: seq<Action>)
    requires IsProxiedRun(states, actions)
    requires var s := states[|states| - 1]; Idle(s) && k !in s.tasks && id !in s.tables.audited
    ensures IsProxiedRun(more, acts)
    ensures var s, s' := states[|states| - 1], more[|more| - 1];
            && Idle(s') && s'.tasks.Keys == s.tasks.Keys + {k} && s'.entered == s.entered + [id]
            && s'.acks == s.acks + [Ack(id, |s.entered|, |s.entered| + 1)]
  {
    LastTables(states, actions);
    AuditBegins(states[|states| - 1], k, id);
    more, acts := Act(states, actions, StartAudit(k, id, None, false));
    AuditEnds(more[|more| - 1], k, id);
    more, acts := Act(more, acts, Resolve(k, Confirmed));
  }

  lemma {:induction false} AuditBegins(s: System, k: TaskId, id: Id)
    requires TablesOk(s) && Idle(s) && k !in s.tasks && id !in s.tables.audited
    ensures Enabled(s, StartAudit(k, id, None, false))
    ensures Next(s, StartAudit(k, id, None, false)) ==
      s.(tables := s.tables.(auditEmitting := map[id := k]),
        tasks := s.tasks[k := Task(Audit(false), id, None, WritingAudit(AuditRecord("unknown", 0)))])
  {
  }

  lemma {:induction false} AuditEnds(s: System, k: TaskId, id: Id)
    requires TablesOk(s) && k in s.tasks && s.tasks[k].kind == Audit(false) && s.tasks[k].id == id
    requires s.tasks[k].pc.WritingAudit?
    requires Idle(s.(tables := s.tables.(auditEmitting := map[]))) && s.tables.auditEmitting == map[id := k]
    requires id !in s.tables.audited
    ensures Enabled(s, Resolve(k, Confirmed))
    ensures var s' := Next(s, Resolve(k, Confirmed));
            && Idle(s') && s'.tasks.Keys == s.tasks.Keys && s'.entered == s.entered + [id]
            && s'.acks == s.acks + [Ack(id, |s.entered|, |s.entered| + 1)]
  {
    assert map[id := k] - {id} == map[];
    assert (s.entered + [id])[|s.entered|] == id;
  }

  const NONE_OWNED: Dict<TicketId> := Dict([], map[])
  const FIRST_OWNED: Dict<TicketId> := Dict([FIRST], map[FIRST := 0])

  function Writing(id: Id): Task {
    Task(Audit(false), id, None, WritingAudit(AuditRecord(if id == FIRST then STATE.userId else "unknown", 0)))
  }

  /** The run up to the release: `FIRST` is being written when it is handed over. */
  lemma {:induction false} ReleasedWhileWritten() returns (states: seq<System>, actions: seq<Action>)
    ensures IsProxiedRun(states, actions)
    ensures var s := states[|states| - 1];
            && s.tables == Tables(map[], [FIRST], Dict([], map[]), map[], map[FIRST := 0], NONE_OWNED, true)
            && s.tasks == map[0 := Writing(FIRST)] && s.entered == [FIRST] && s.acks == []
  {
    var ticket := Ticket(GATEWAY, [FIRST], false, false, None);
    states, actions := HandedOverWhileWritten(ticket);
    ClosesAndReleases(states[|states| - 1], ticket);
    states, actions := Act(states, actions, CloseTicket(0));
  }

  lemma {:induction false} HandedOverWhileWritten(ticket: Ticket) returns (states: seq<System>, actions: seq<Action>)
    requires ticket == Ticket(GATEWAY, [FIRST], false, false, None)
    ensures IsProxiedRun(states, actions)
    ensures states[|states| - 1] == WhileWritten(map[], FIRST_OWNED, ticket.(facts := Some(FIRST)), {FIRST})
  {
    assert |GATEWAY| == 0 && |FIRST| == 1;
    states, actions := StartRun();
    states, actions := Act(states, actions, OpenTicket(0, GATEWAY));
    CalmRegisters(states[|states| - 1], FIRST, NONE_OWNED, Ticket(GATEWAY, [], false, false, None), {});
    states, actions := Act(states, actions, Register(FIRST, Some(0), STATE));
    assert [] + [FIRST] == [FIRST];
    RegisteredIsWritten(states[|states| - 1], ticket);
    states, actions := Act(states, actions, StartAudit(0, FIRST, None, false));
    WrittenIsHandedOver(states[|states| - 1], ticket);
    states, actions := Act(states, actions, HandOver(FIRST, 0));
  }

  function WhileWritten(
    reqState: map<Id, RequestState>, owned: Dict<TicketId>, ticket: Ticket, handed: set<Id>): System
  {
    System(Tables(reqState, [], Dict([], map[]), map[], map[FIRST := 0], owned, true), map[0 := ticket],
           map[0 := Writing(FIRST)], [], [], handed)
  }

  lemma {:induction false} RegisteredIsWritten(s: System, ticket: Ticket)
    requires s == Calm(map[FIRST := STATE], NONE_OWNED, ticket, {})
    ensures Enabled(s, StartAudit(0, FIRST, None, false)) && s.tables.pending.Valid() && s.tables.owned.Valid()
    ensures Next(s, StartAudit(0, FIRST, None, false)) == WhileWritten(map[FIRST := STATE], NONE_OWNED, ticket, {})
  {
  }

  lemma {:induction false} WrittenIsHandedOver(s: System, ticket: Ticket)
    requires s == WhileWritten(map[FIRST := STATE], NONE_OWNED, ticket, {})
      && ticket == Ticket(GATEWAY, [FIRST], false, false, None)
    ensures Enabled(s, HandOver(FIRST, 0)) && Proxied(s, HandOver(FIRST, 0))
    ensures s.tables.pending.Valid() && s.tables.owned.Valid()
    ensures Next(s, HandOver(FIRST, 0)) == WhileWritten(map[], FIRST_OWNED, ticket.(facts := Some(FIRST)), {FIRST})
  {
    NONE_OWNED.PutValid(FIRST, 0);
    assert NONE_OWNED.Put(FIRST, 0).order == [FIRST];
    assert map[FIRST := STATE] - {FIRST} == map[];
  }

  lemma {:induction false} ClosesAndReleases(s: System, ticket: Ticket)
    requires ticket == Ticket(GATEWAY, [FIRST], false, false, None)
    requires s == WhileWritten(map[], FIRST_OWNED, ticket.(facts := Some(FIRST)), {FIRST})
    ensures Enabled(s, CloseTicket(0)) && s.tables.pending.Valid() && s.tables.owned.Valid()
    ensures var s' := Next(s, CloseTicket(0));
            && s'.tables == Tables(map[], [FIRST], Dict([], map[]), map[], map[FIRST := 0], NONE_OWNED, true)
            && s'.tasks == map[0 := Writing(FIRST)] && s'.entered == [FIRST] && s'.acks == []
  {
    var closed := s.(tickets := s.tickets[0 := s.tickets[0].(closed := true)]);
    assert s.tickets[0].RequestIds() == [FIRST];
    assert FIRST_OWNED.Pop(FIRST) == NONE_OWNED;
    assert [] + [FIRST] == [FIRST] && [FIRST][1..] == [];
    var one := ReleasingOne(closed, 0, FIRST);
    assert Releasing(closed, 0, [FIRST]) == Releasing(one, 0, []) == one;
  }

  /** The failing input: a write under way, its id handed over and released, another record
      acknowledged, and then the write itself. It counts from the release: `pos + 1 < at`. */
  lemma {:induction false} CountsFromTheRelease() returns (states: seq<System>, actions: seq<Action>)
    ensures IsProxiedRun(states, actions)
    ensures var s := states[|states| - 1];
            && s.acks == [Ack(SECOND, 1, 2), Ack(FIRST, 0, 2)] && s.entered == [FIRST, SECOND]
            && Idle(s) && s.tasks.Keys == {0, 1}
  {
    assert |FIRST| == 1 && |SECOND| == 2;
    states, actions := ReleasedWhileWritten();
    SecondBegins(states[|states| - 1]);
    states, actions := Act(states, actions, StartAudit(1, SECOND, None, false));
    SecondEnds(states[|states| - 1]);
    states, actions := Act(states, actions, Resolve(1, Confirmed));
    FirstEnds(states[|states| - 1]);
    states, actions := Act(states, actions, Resolve(0, Confirmed));
  }

  lemma {:induction false} SecondBegins(s: System)
    requires s.tables == Tables(map[], [FIRST], Dict([], map[]), map[], map[FIRST := 0], NONE_OWNED, true)
    requires s.tasks == map[0 := Writing(FIRST)] && FIRST != SECOND
    ensures Enabled(s, StartAudit(1, SECOND, None, false)) && s.tables.pending.Valid() && s.tables.owned.Valid()
    ensures Next(s, StartAudit(1, SECOND, None, false)) ==
      s.(tables := s.tables.(auditEmitting := map[FIRST := 0, SECOND := 1]),
        tasks := map[0 := Writing(FIRST), 1 := Writing(SECOND)])
  {
  }

  lemma {:induction false} SecondEnds(s: System)
    requires s.tables == Tables(map[], [FIRST], Dict([], map[]), map[], map[FIRST := 0, SECOND := 1], NONE_OWNED, true)
    requires s.tasks == map[0 := Writing(FIRST), 1 := Writing(SECOND)] && FIRST != SECOND
    requires s.entered == [FIRST] && s.acks == []
    ensures Enabled(s, Resolve(1, Confirmed)) && s.tables.pending.Valid() && s.tables.owned.Valid()
    ensures var s' := Next(s, Resolve(1, Confirmed));
            && s'.tables == Tables(map[], [FIRST, SECOND], Dict([], map[]), map[], map[FIRST := 0], NONE_OWNED, true)
            && s'.tasks.Keys == {0, 1} && s'.tasks[0] == Writing(FIRST)
            && s'.entered == [FIRST, SECOND] && s'.acks == [Ack(SECOND, 1, 2)]
  {
    assert [FIRST] + [SECOND] == [FIRST, SECOND];
    assert map[FIRST := 0, SECOND := 1] - {SECOND} == map[FIRST := 0];
  }

  lemma {:induction false} FirstEnds(s: System)
    requires s.tables == Tables(map[], [FIRST, SECOND], Dict([], map[]), map[], map[FIRST := 0], NONE_OWNED, true)
    requires s.tasks.Keys == {0, 1} && s.tasks[0] == Writing(FIRST) && FIRST != SECOND
    requires s.entered == [FIRST, SECOND] && s.acks == [Ack(SECOND, 1, 2)]
    ensures Enabled(s, Resolve(0, Confirmed)) && s.tables.pending.Valid() && s.tables.owned.Valid()
    ensures var s' := Next(s, Resolve(0, Confirmed));
            && s'.acks == [Ack(SECOND, 1, 2), Ack(FIRST, 0, 2)] && s'.entered == [FIRST, SECOND]
            && Idle(s') && s'.tasks.Keys == {0, 1}
  {
    assert [FIRST, SECOND][..1] == [FIRST];
    assert LastIndex([FIRST, SECOND], FIRST) == 0;
    assert map[FIRST := 0] - {FIRST} == map[];
  }

  // ---- and so two records within 4096

  /** `n` more records after it, of ids below `m`. */
  ghost predicate Aged(s: System, n: nat, m: nat) {
    && Idle(s) && |s.entered| == 2 + n && s.entered[0] == FIRST && |s.acks| >= 2 && s.acks[1] == Ack(FIRST, 0, 2)
    && (forall p :: 1 <= p < |s.entered| ==> s.entered[p] != FIRST)
    && (forall p :: 0 <= p < |s.entered| ==> |s.entered[p]| < m)
    && (forall k :: k in s.tasks ==> k < m) && m > 2
  }

  lemma {:induction false} Age(n: nat) returns (states: seq<System>, actions: seq<Action>, m: nat)
    ensures IsProxiedRun(states, actions) && Aged(states[|states| - 1], n, m)
  {
    assert |FIRST| == 1 && |SECOND| == 2;
    if n == 0 {
      states, actions := CountsFromTheRelease();
      m := 3;
    } else {
      states, actions, m := Age(n - 1);
      var s := states[|states| - 1];
      LastTables(states, actions);
      NotYetAudited(s, n - 1, m);
      states, actions := AuditsOnce(states, actions, m, Tag(m));
      AgedOneMore(s, states[|states| - 1], n - 1, m);
      m := m + 1;
    }
  }

  lemma {:induction false} NotYetAudited(s: System, n: nat, m: nat)
    requires TablesOk(s) && Aged(s, n, m)
    ensures m !in s.tasks && Tag(m) !in s.tables.audited
  {
    assert |Tag(m)| == m;
    NewestHas(s.entered, Tag(m));
  }

  lemma {:induction false} AgedOneMore(s: System, s': System, n: nat, m: nat)
    requires Aged(s, n, m) && Idle(s') && s'.tasks.Keys == s.tasks.Keys + {m} && s'.entered == s.entered + [Tag(m)]
    requires s'.acks == s.acks + [Ack(Tag(m), |s.entered|, |s.entered| + 1)]
    ensures Aged(s', n + 1, m + 1)
  {
    assert |Tag(m)| == m && |FIRST| == 1;
  }

  /** Two acknowledged writes of one id with only 4095 others in between. */
  lemma {:induction false} TwoRecordsTooClose() returns (states: seq<System>, actions: seq<Action>, q: nat)
    ensures IsProxiedRun(states, actions)
    ensures var s := states[|states| - 1];
            && 1 < q < |s.acks| && s.acks[1].id == s.acks[q].id == FIRST
            && s.acks[q].pos - s.acks[1].at == 4095
  {
    var m;
    states, actions, m := Age(4095);
    var s := states[|states| - 1];
    LastTables(states, actions);
    NewestHas(s.entered, FIRST);
    q := |s.acks|;
    states, actions := AuditsOnce(states, actions, m, FIRST);
  }

  // ---- counts that are replaced in the queue

  const THREE: RequestState := RequestState(Some(0), "alice", 3)
  const FIVE: RequestState := RequestState(Some(0), "alice", 5)
  const COUNTS_THREE: CancelRecord := CancelRecord("alice", 3, 0)
  const COUNTS_FIVE: CancelRecord := CancelRecord("alice", 5, 0)

  /** Ticket 0, of which `FIRST` is a call id, is cancelled. */
  function Cancelled(
    reqState: map<Id, RequestState>, queued: Dict<CancelRecord>, writing: map<Id, TaskId>,
    tasks: map<TaskId, Task>): System
  {
    System(Tables(reqState, [], queued, writing, map[], NONE_OWNED, true),
           map[0 := Ticket(GATEWAY, [FIRST], true, false, None)], tasks, [], [], {})
  }

  function CancelTask(own: CancelRecord, pc: Pc): Task { Task(Cancel(own), FIRST, Some(0), pc) }

  const NONE_QUEUED: Dict<CancelRecord> := Dict([], map[])
  const WRITING_THREE: Task := CancelTask(COUNTS_THREE, WritingCancel(COUNTS_THREE))

  lemma {:induction false} WritesThree(s: System)
    requires s == Cancelled(map[FIRST := THREE], NONE_QUEUED, map[], map[])
    ensures Enabled(s, StartCancel(0, FIRST, Some(0), 0)) && Proxied(s, StartCancel(0, FIRST, Some(0), 0))
    ensures s.tables.pending.Valid() && s.tables.owned.Valid()
    ensures Next(s, StartCancel(0, FIRST, Some(0), 0)) ==
      Cancelled(map[], NONE_QUEUED, map[FIRST := 0], map[0 := WRITING_THREE])
  {
    assert map[FIRST := THREE] - {FIRST} == map[];
  }

  lemma {:induction false} WaitsWithFive(s: System)
    requires s == Cancelled(map[FIRST := FIVE], NONE_QUEUED, map[FIRST := 0], map[0 := WRITING_THREE])
    ensures Enabled(s, StartCancel(1, FIRST, Some(0), 0)) && Proxied(s, StartCancel(1, FIRST, Some(0), 0))
    ensures s.tables.pending.Valid() && s.tables.owned.Valid()
    ensures Next(s, StartCancel(1, FIRST, Some(0), 0)) ==
      Cancelled(map[], NONE_QUEUED, map[FIRST := 0], map[0 := WRITING_THREE, 1 := CancelTask(COUNTS_FIVE, Waiting(0))])
  {
    assert map[FIRST := FIVE] - {FIRST} == map[];
  }

  lemma {:induction false} QueuesFive(s: System)
    requires s == Cancelled(map[], NONE_QUEUED, map[FIRST := 0],
                            map[0 := WRITING_THREE, 1 := CancelTask(COUNTS_FIVE, Waiting(0))])
    ensures Enabled(s, CutWait(1)) && s.tables.pending.Valid() && s.tables.owned.Valid()
    ensures var s' := Next(s, CutWait(1));
            FIRST in s'.tables.pending.at && s'.tables.pending.at[FIRST] == COUNTS_FIVE
            && 0 in s'.tasks && s'.tasks[0] == WRITING_THREE
  {
    NONE_QUEUED.PutTrim(FIRST, COUNTS_FIVE, CANCEL_PENDING_CAP);
  }

  /** A cancel is being written, its request is registered again and cancelled again, and the second
      cancel is cut short while it waits: its five redactions are queued. Then the sink refuses the
      first, and its three take their place. */
  lemma {:induction false} CutCountsAreReplaced() returns (states: seq<System>, actions: seq<Action>, i: nat)
    ensures IsProxiedRun(states, actions) && |states| == i + 2
    ensures FIRST in states[i].tables.pending.at && states[i].tables.pending.at[FIRST] == COUNTS_FIVE
    ensures FIRST in states[i + 1].tables.pending.at && states[i + 1].tables.pending.at[FIRST] == COUNTS_THREE
  {
    assert |GATEWAY| == 0 && |FIRST| == 1;
    states, actions := StartRun();
    states, actions := Act(states, actions, OpenTicket(0, GATEWAY));
    states, actions := Act(states, actions, Register(FIRST, Some(0), THREE));
    assert [] + [FIRST] == [FIRST];
    states, actions := Act(states, actions, CancelTicket(0));
    WritesThree(states[|states| - 1]);
    states, actions := Act(states, actions, StartCancel(0, FIRST, Some(0), 0));
    states, actions := Act(states, actions, Register(FIRST, Some(0), FIVE));
    WaitsWithFive(states[|states| - 1]);
    states, actions := Act(states, actions, StartCancel(1, FIRST, Some(0), 0));
    QueuesFive(states[|states| - 1]);
    states, actions := Act(states, actions, CutWait(1));
    i := |states| - 1;
    ReplacesFive(states, actions);
    states, actions := Act(states, actions, Resolve(0, Refused));
  }

  lemma {:induction false} ReplacesFive(states: seq<System>, actions: seq<Action>)
    requires IsProxiedRun(states, actions)
    requires var s := states[|states| - 1]; 0 in s.tasks && s.tasks[0] == WRITING_THREE
    ensures var s := states[|states| - 1];
            && TablesOk(s) && Enabled(s, Resolve(0, Refused))
            && FIRST in Next(s, Resolve(0, Refused)).tables.pending.at
            && Next(s, Resolve(0, Refused)).tables.pending.at[FIRST] == COUNTS_THREE
  {
    RunInvariant(states, actions, |states| - 1);
    AuditRecords.CancelLands(states[|states| - 1], 0, Refused);
  }
}
