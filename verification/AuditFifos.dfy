/**
  How long the two bounded tables of the audit protocol remember: an id handed over guards its
  request, and the counts of a cancel wait, until 4096 others have come after them.
 */
module AuditFifos {
  import opened Wrappers
  import opened OrderedDict
  import opened Guardrail
  import opened AuditRuns
  import opened AuditTheorems
  import opened AuditDecisions
  import opened AuditRecords
  import HandOverTheorem

  // ---- the hand-over FIFO

  /** The other ids handed over after step `i`, up to state `j`. */
  ghost function OthersHanded(actions: seq<Action>, i: nat, j: nat, id: Id): set<Id>
    requires j <= |actions|
  {
    set m | i < m < j && actions[m].HandOver? && actions[m].id != id :: actions[m].id
  }

  /** The ticket that owned the id closed after step `i`. */
  ghost predicate OwnerClosed(states: seq<System>, actions: seq<Action>, i: nat, j: nat, id: Id)
    requires j <= |actions| < |states|
  {
    exists m :: i < m < j && id in states[m].tables.owned.at && actions[m] == CloseTicket(states[m].tables.owned.at[id])
  }

  /** Releasing takes out only what the closing ticket owns, and keeps the order of the rest. */
  lemma {:induction false} ReleasingKeepsOthers(s: System, t: TicketId, ids: seq<Id>, x: Id, behind: set<Id>)
    requires x in s.tables.owned.at && s.tables.owned.at[x] != t && Behind(s.tables.owned.order, x, behind)
    ensures var s' := Releasing(s, t, ids);
            && x in s'.tables.owned.at && s'.tables.owned.at[x] == s.tables.owned.at[x]
            && Behind(s'.tables.owned.order, x, behind)
    decreases |ids|
  {
    if ids != [] {
      var id := ids[0];
      if id in s.tables.owned.at && s.tables.owned.at[id] == t {
        PopBehind(s.tables.owned, id, x, behind);
      }
      ReleasingKeepsOthers(ReleasingOne(s, t, id), t, ids[1..], x, behind);
    }
  }

  /** One step: the id keeps its place behind the same ids, or one more. */
  lemma {:induction false} OwnedStep(s: System, a: Action, x: Id, behind: set<Id>)
    requires TablesOk(s) && Enabled(s, a) && x in s.tables.owned.at && Behind(s.tables.owned.order, x, behind)
    requires a != CloseTicket(s.tables.owned.at[x])
    ensures var now := Next(s, a).tables.owned;
            if a.HandOver? && a.id == x then x in now.at && Behind(now.order, x, {})
            else if a.HandOver? then
              if x in now.at then Behind(now.order, x, behind + {a.id}) else |behind + {a.id}| >= 4096
            else x in now.at && Behind(now.order, x, behind)
  {
    if a.HandOver? && a.id == x {
      PutIsNewest(s.tables.owned, x, a.t, AUDIT_DEDUP_CAP);
    } else if a.HandOver? {
      PutBehind(s.tables.owned, a.id, a.t, AUDIT_DEDUP_CAP, x, behind);
    } else if a.CloseTicket? {
      ReleasingKeepsOthers(s.(tickets := s.tickets[a.t := s.tickets[a.t].(closed := true)]), a.t,
        s.tickets[a.t].RequestIds(), x, behind);
    } else if TaskAction(s, a) {
      HandOverTheorem.TaskStepFrames(s, a);
    }
  }

  /** Where an id handed over at step `i` is in state `j`: in the FIFO behind the ids handed over
      since, or out of it because its ticket closed or 4096 others came. */
  ghost predicate Stands(states: seq<System>, actions: seq<Action>, i: nat, j: nat, id: Id)
    requires |states| == |actions| + 1 && j < |states|
  {
    || OwnerClosed(states, actions, i, j, id)
    || |OthersHanded(actions, i, j, id)| >= 4096
    || (id in states[j].tables.owned.at
        && Behind(states[j].tables.owned.order, id, OthersHanded(actions, i, j, id)))
  }

  /** In every run, an id handed over is in the hand-over FIFO until the ticket that owns it closes
      or 4096 other ids have been handed over. */
  lemma {:induction false} HandOverLasts(states: seq<System>, actions: seq<Action>, i: nat, j: nat, id: Id)
    requires IsRun(states, actions) && i < j < |states| && actions[i].HandOver? && actions[i].id == id
    ensures Stands(states, actions, i, j, id)
    decreases j
  {
    if j == i + 1 {
      JustHanded(states, actions, i, id);
    } else {
      HandOverLasts(states, actions, i, j - 1, id);
      StandsOn(states, actions, i, j - 1, id);
    }
  }

  lemma {:induction false} JustHanded(states: seq<System>, actions: seq<Action>, i: nat, id: Id)
    requires IsRun(states, actions) && i < |actions| && actions[i].HandOver? && actions[i].id == id
    ensures Stands(states, actions, i, i + 1, id)
  {
    RunStep(states, actions, i);
    PutIsNewest(states[i].tables.owned, id, actions[i].t, AUDIT_DEDUP_CAP);
    BehindMore(states[i + 1].tables.owned.order, id, {}, OthersHanded(actions, i, i + 1, id));
  }

  lemma {:induction false} BehindMore(order: seq<Id>, x: Id, ids: set<Id>, more: set<Id>)
    requires Behind(order, x, ids) && ids <= more
    ensures Behind(order, x, more)
  {
  }

  lemma {:induction false} Fewer(ids: set<Id>, more: set<Id>)
    requires ids <= more
    ensures |ids| <= |more|
  {
    assert ids + (more - ids) == more;
  }

  lemma {:induction false} OthersGrow(actions: seq<Action>, i: nat, j: nat, id: Id)
    requires i < j < |actions|
    ensures var a := actions[j];
            OthersHanded(actions, i, j + 1, id) ==
            OthersHanded(actions, i, j, id) + (if a.HandOver? && a.id != id then {a.id} else {})
  {
  }

  lemma {:induction false} StandsOn(states: seq<System>, actions: seq<Action>, i: nat, j: nat, id: Id)
    requires IsRun(states, actions) && i < j < |actions| && Stands(states, actions, i, j, id)
    ensures Stands(states, actions, i, j + 1, id)
  {
    var before, after := OthersHanded(actions, i, j, id), OthersHanded(actions, i, j + 1, id);
    OthersGrow(actions, i, j, id);
    if OwnerClosed(states, actions, i, j, id) {
      var m :| i < m < j && id in states[m].tables.owned.at && actions[m] == CloseTicket(states[m].tables.owned.at[id]);
      assert OwnerClosed(states, actions, i, j + 1, id);
    } else if |before| >= 4096 {
      Fewer(before, after);
    } else if actions[j] == CloseTicket(states[j].tables.owned.at[id]) {
      assert OwnerClosed(states, actions, i, j + 1, id);
    } else {
      RunStep(states, actions, j);
      OwnedStep(states[j], actions[j], id, before);
      if actions[j].HandOver? && actions[j].id == id {
        BehindMore(states[j + 1].tables.owned.order, id, {}, after);
      }
    }
  }

  // ---- the queue of counts

  /** The step queues counts for the id. */
  ghost predicate Queues(s: System, a: Action, id: Id) {
    || Undelivers(s, a, id)
    || (a.CutWait? && a.k in s.tasks && s.tasks[a.k].kind.Cancel? && s.tasks[a.k].id == id
        && id !in s.tables.pending.at && !Remembered(s, id))
  }

  /** The other ids counts were queued for after step `i`, up to state `j`. */
  ghost function OthersQueued(states: seq<System>, actions: seq<Action>, i: nat, j: nat, id: Id): set<Id>
    requires j <= |actions| < |states|
  {
    set m | i < m < j && QueuesOther(states[m], actions[m], id) :: IdOf(states[m], actions[m])
  }

  ghost predicate QueuesOther(s: System, a: Action, id: Id) {
    TaskAction(s, a) && IdOf(s, a) != id && Queues(s, a, IdOf(s, a))
  }

  /** What a task's step does to the queue: counts of its id are put in it, or at most taken out. */
  lemma {:induction false} QueueForm(s: System, a: Action) returns (r: CancelRecord)
    requires TablesOk(s) && Enabled(s, a) && TaskAction(s, a)
    ensures s.tables.pending.Put(IdOf(s, a), r).Valid()
    ensures var d, now, id := s.tables.pending, Next(s, a).tables.pending, IdOf(s, a);
            if Queues(s, a, id) then now == d.Put(id, r).Trim(CANCEL_PENDING_CAP) else now in {d, d.Pop(id)}
  {
    if a.CutWait? {
      r := CutForm(s, a.k);
    } else if a.Resolve? {
      r := ResolveForm(s, a.k, a.outcome);
    } else {
      r := CancelRecord("", 0, 0);
      s.tables.pending.PutValid(IdOf(s, a), r);
      ShrinkForm(s, a);
    }
  }

  lemma {:induction false} CutForm(s: System, k: TaskId) returns (r: CancelRecord)
    requires TablesOk(s) && Enabled(s, CutWait(k))
    ensures s.tables.pending.Put(s.tasks[k].id, r).Valid()
    ensures var d, now, id := s.tables.pending, Next(s, CutWait(k)).tables.pending, s.tasks[k].id;
            if Queues(s, CutWait(k), id) then now == d.Put(id, r).Trim(CANCEL_PENDING_CAP) else now == d
  {
    r := if s.tasks[k].kind.Cancel? then s.tasks[k].kind.own else CancelRecord("", 0, 0);
    s.tables.pending.PutValid(s.tasks[k].id, r);
    AuditedIsRemembered(s, s.tasks[k].id);
  }

  lemma {:induction false} ResolveForm(s: System, k: TaskId, outcome: SinkOutcome) returns (r: CancelRecord)
    requires TablesOk(s) && Enabled(s, Resolve(k, outcome))
    ensures s.tables.pending.Put(s.tasks[k].id, r).Valid()
    ensures var d, now, id := s.tables.pending, Next(s, Resolve(k, outcome)).tables.pending, s.tasks[k].id;
            if Queues(s, Resolve(k, outcome), id) then now == d.Put(id, r).Trim(CANCEL_PENDING_CAP)
            else now in {d, d.Pop(id)}
  {
    r := if s.tasks[k].pc.WritingCancel? then s.tasks[k].pc.record else CancelRecord("", 0, 0);
    s.tables.pending.PutValid(s.tasks[k].id, r);
    ResolvedQueue(s.tables, k, s.tasks[k].id, r, outcome);
  }

  lemma {:induction false} ShrinkForm(s: System, a: Action)
    requires TablesOk(s) && Enabled(s, a) && (a.StartAudit? || a.StartCancel? || (a.Wake? && a.k in s.tasks))
    ensures Next(s, a).tables.pending in {s.tables.pending, s.tables.pending.Pop(IdOf(s, a))}
  {
    if a.StartAudit? {
      AuditsKeepQueue(s.tables, a.k, a.id, FactsOf(s, a.ctx), TicketCancelled(s, a.ctx), a.logEvent);
    } else if a.StartCancel? {
      CancelsShrinkQueue(s.tables, a.k, a.id, FactsOf(s, a.ctx), Reaches(s, a.id, a.ctx), a.latencyMs,
                         OwnRecord(s.tables, a.id, a.latencyMs));
    } else if s.tasks[a.k].kind.Audit? {
      AuditsKeepQueue(s.tables, a.k, s.tasks[a.k].id, None, TicketCancelled(s, s.tasks[a.k].ctx),
                      s.tasks[a.k].kind.logEvent);
    } else {
      CancelsShrinkQueue(s.tables, a.k, s.tasks[a.k].id, None, true, 0, s.tasks[a.k].kind.own);
    }
  }

  /** Queued counts keep their place behind the same ids, or one more; they are pushed out only
      behind 4096. */
  ghost predicate KeepsPlace(s: System, a: Action, now: Dict<CancelRecord>, x: Id, behind: set<Id>) {
    if QueuesOther(s, a, x)
    then if x in now.at then Behind(now.order, x, behind + {IdOf(s, a)}) else |behind + {IdOf(s, a)}| >= 4096
    else x !in now.at || Behind(now.order, x, behind)
  }

  lemma {:induction false} QueuedStep(s: System, a: Action, x: Id, behind: set<Id>)
    requires TablesOk(s) && Enabled(s, a) && x in s.tables.pending.at && Behind(s.tables.pending.order, x, behind)
    ensures KeepsPlace(s, a, Next(s, a).tables.pending, x, behind)
  {
    if TaskAction(s, a) {
      var r := QueueForm(s, a);
      if IdOf(s, a) != x {
        PutBehind(s.tables.pending, IdOf(s, a), r, CANCEL_PENDING_CAP, x, behind);
        PopBehind(s.tables.pending, IdOf(s, a), x, behind);
      } else {
        PutIsNewest(s.tables.pending, x, r, CANCEL_PENDING_CAP);
      }
    } else if a.CloseTicket? {
      ReleasingMoves(s.(tickets := s.tickets[a.t := s.tickets[a.t].(closed := true)]), a.t,
        s.tickets[a.t].RequestIds());
    }
  }

  /** At this step a record of the id is delivered, or the id is a ticket's. */
  ghost predicate Served(s: System, s': System, id: Id) {
    id in s.handed || (|s'.acks| == |s.acks| + 1 && s'.acks[|s.acks|].id == id)
  }

  /** Counts taken out of the queue, and not pushed out of it, are not needed any more. */
  lemma {:induction false} TakenOut(s: System, a: Action, x: Id)
    requires Invariant(s) && Enabled(s, a) && !QueuesOther(s, a, x)
    requires x in s.tables.pending.at && x !in Next(s, a).tables.pending.at
    ensures Served(s, Next(s, a), x)
  {
    if TaskAction(s, a) {
      TaskTakesOut(s, a, x);
    } else if a.CloseTicket? {
      ReleasingMoves(s.(tickets := s.tickets[a.t := s.tickets[a.t].(closed := true)]), a.t,
        s.tickets[a.t].RequestIds());
    }
  }

  lemma {:induction false} TaskTakesOut(s: System, a: Action, x: Id)
    requires Invariant(s) && Enabled(s, a) && TaskAction(s, a) && !QueuesOther(s, a, x)
    requires x in s.tables.pending.at && x !in Next(s, a).tables.pending.at
    ensures Served(s, Next(s, a), x)
  {
    OwnStepTakesOut(s, a, x);
    if a.Resolve? && s.tasks[a.k].pc.WritingAudit? {
      AuditLands(s, a.k, a.outcome);
    } else if a.Resolve? {
      CancelLands(s, a.k, a.outcome);
    } else if a.StartCancel? {
      CancelLoses(s.tables, a.k, a.id, FactsOf(s, a.ctx), Reaches(s, a.id, a.ctx), a.latencyMs,
                  CancelRecord("", 0, 0), x);
    } else if a.Wake? && s.tasks[a.k].kind.Cancel? {
      CancelLoses(s.tables, a.k, s.tasks[a.k].id, None, false, 0, s.tasks[a.k].kind.own, x);
    }
  }

  lemma {:induction false} OwnStepTakesOut(s: System, a: Action, x: Id)
    requires TablesOk(s) && Enabled(s, a) && TaskAction(s, a) && !QueuesOther(s, a, x)
    requires x in s.tables.pending.at && x !in Next(s, a).tables.pending.at
    ensures IdOf(s, a) == x
  {
    var r := QueueForm(s, a);
  }

  ghost predicate ServedSince(states: seq<System>, i: nat, j: nat, id: Id)
    requires j < |states|
  {
    exists m :: i < m < j && Served(states[m], states[m + 1], id)
  }

  /** Where counts queued for `id` at step `i` are in state `j`. */
  ghost predicate Waits(states: seq<System>, actions: seq<Action>, i: nat, j: nat, id: Id)
    requires |states| == |actions| + 1 && j < |states|
  {
    || ServedSince(states, i, j, id)
    || |OthersQueued(states, actions, i, j, id)| >= 4096
    || (id in states[j].tables.pending.at
        && Behind(states[j].tables.pending.order, id, OthersQueued(states, actions, i, j, id)))
  }

  lemma {:induction false} QueuedGrow(states: seq<System>, actions: seq<Action>, i: nat, j: nat, id: Id)
    requires i < j < |actions| < |states|
    ensures OthersQueued(states, actions, i, j + 1, id) ==
      OthersQueued(states, actions, i, j, id)
      + (if QueuesOther(states[j], actions[j], id) then {IdOf(states[j], actions[j])} else {})
  {
  }

  lemma {:induction false} WaitsOn(states: seq<System>, actions: seq<Action>, i: nat, j: nat, id: Id)
    requires IsRun(states, actions) && i < j < |actions| && Waits(states, actions, i, j, id)
    ensures Waits(states, actions, i, j + 1, id)
  {
    var before, after := OthersQueued(states, actions, i, j, id), OthersQueued(states, actions, i, j + 1, id);
    QueuedGrow(states, actions, i, j, id);
    if ServedSince(states, i, j, id) {
      var m :| i < m < j && Served(states[m], states[m + 1], id);
      assert ServedSince(states, i, j + 1, id);
    } else if |before| >= 4096 {
      Fewer(before, after);
    } else {
      WaitsStep(states, actions, i, j, id);
    }
  }

  lemma {:induction false} WaitsStep(states: seq<System>, actions: seq<Action>, i: nat, j: nat, id: Id)
    requires IsRun(states, actions) && i < j < |actions| && id in states[j].tables.pending.at
    requires Behind(states[j].tables.pending.order, id, OthersQueued(states, actions, i, j, id))
    ensures Waits(states, actions, i, j + 1, id)
  {
    RunInvariant(states, actions, j);
    RunStep(states, actions, j);
    QueuedGrow(states, actions, i, j, id);
    QueuedStep(states[j], actions[j], id, OthersQueued(states, actions, i, j, id));
    if !QueuesOther(states[j], actions[j], id) && id !in states[j + 1].tables.pending.at {
      TakenOut(states[j], actions[j], id);
      assert ServedSince(states, i, j + 1, id);
    }
  }

  lemma {:induction false} JustQueued(states: seq<System>, actions: seq<Action>, i: nat, id: Id)
    requires IsRun(states, actions) && i < |actions| && Queues(states[i], actions[i], id)
    ensures Waits(states, actions, i, i + 1, id)
  {
    RunStep(states, actions, i);
    var r := QueueForm(states[i], actions[i]);
    PutIsNewest(states[i].tables.pending, id, r, CANCEL_PENDING_CAP);
    BehindMore(states[i + 1].tables.pending.order, id, {}, OthersQueued(states, actions, i, i + 1, id));
  }

  /** In every run, counts once queued wait until a record of their id is delivered, a ticket owns
      it, or counts of 4096 other ids have been queued after them. */
  lemma {:induction false} QueuedLasts(states: seq<System>, actions: seq<Action>, i: nat, j: nat, id: Id)
    requires IsRun(states, actions) && i < j < |states| && Queues(states[i], actions[i], id)
    ensures Waits(states, actions, i, j, id)
    decreases j
  {
    if j == i + 1 {
      JustQueued(states, actions, i, id);
    } else {
      QueuedLasts(states, actions, i, j - 1, id);
      WaitsOn(states, actions, i, j - 1, id);
    }
  }

  // ---- closing a ticket

  /** The id entered the dedup FIFO in between. */
  ghost predicate EnteredSince(s: System, s': System, x: Id) {
    exists p :: |s.entered| <= p < |s'.entered| && s'.entered[p] == x
  }

  /** A closing ticket lets go of every request it owns, and each of them is in the dedup FIFO or
      enters it. */
  lemma {:induction false} ReleasesItsOwn(s: System, t: TicketId, ids: seq<Id>, x: Id)
    requires x in ids && x in s.tables.owned.at && s.tables.owned.at[x] == t
    ensures var s' := Releasing(s, t, ids);
            x !in s'.tables.owned.at && s.entered <= s'.entered && (x in s.tables.audited || EnteredSince(s, s', x))
    decreases |ids|
  {
    var one := ReleasingOne(s, t, ids[0]);
    assert |s.entered| <= |one.entered|;
    if ids[0] == x {
      ReleasedStays(one, t, ids[1..], x);
      if x !in s.tables.audited {
        assert Releasing(one, t, ids[1..]).entered[|s.entered|] == x;
      }
    } else {
      ReleasesItsOwn(one, t, ids[1..], x);
      if x !in s.tables.audited {
        var s' := Releasing(one, t, ids[1..]);
        var p :| |one.entered| <= p < |s'.entered| && s'.entered[p] == x;
      }
    }
  }

  lemma {:induction false} ReleasedStays(s: System, t: TicketId, ids: seq<Id>, x: Id)
    requires x !in s.tables.owned.at
    ensures x !in Releasing(s, t, ids).tables.owned.at && s.entered <= Releasing(s, t, ids).entered
    decreases |ids|
  {
    if ids != [] {
      ReleasedStays(ReleasingOne(s, t, ids[0]), t, ids[1..], x);
    }
  }

  /** In every run, when a ticket closes, none of its requests is its any more, and every one that
      was is remembered by the dedup FIFO or has entered it since. */
  lemma {:induction false} CloseReleases(states: seq<System>, actions: seq<Action>, i: nat, x: Id)
    requires IsRun(states, actions) && i < |actions| && actions[i].CloseTicket? && actions[i].t in states[i].tickets
    requires var ticket := states[i].tickets[actions[i].t];
             if ticket.callIds == [] then x == ticket.gatewayId else x in ticket.callIds
    requires x in states[i].tables.owned.at && states[i].tables.owned.at[x] == actions[i].t
    ensures x !in states[i + 1].tables.owned.at
    ensures Remembered(states[i], x) || EnteredSince(states[i], states[i + 1], x)
  {
    RunStep(states, actions, i);
    TicketReleases(states[i], actions[i].t, x);
  }

  lemma {:induction false} TicketReleases(s: System, t: TicketId, x: Id)
    requires TablesOk(s) && Enabled(s, CloseTicket(t)) && x in s.tables.owned.at && s.tables.owned.at[x] == t
    requires if s.tickets[t].callIds == [] then x == s.tickets[t].gatewayId else x in s.tickets[t].callIds
    ensures var s' := Next(s, CloseTicket(t));
            x !in s'.tables.owned.at && (Remembered(s, x) || EnteredSince(s, s', x))
  {
    AuditedIsRemembered(s, x);
    ReleasesItsOwn(s.(tickets := s.tickets[t := s.tickets[t].(closed := true)]), t, s.tickets[t].RequestIds(), x);
  }
}
