/**
  What holds over whole runs of the audit protocol, whatever the interleaving.
 */
module AuditTheorems {
  import opened Wrappers
  import opened Seqs
  import opened OrderedDict
  import opened Guardrail
  import opened AuditRuns

  ghost predicate Step(s: System, a: Action, s': System) {
    s.tables.pending.Valid() && s.tables.owned.Valid() && Enabled(s, a) && s' == Next(s, a)
  }

  ghost predicate IsRun(states: seq<System>, actions: seq<Action>) {
    && |states| == |actions| + 1
    && (exists bound :: states[0] == Init(bound))
    && forall i, j :: 0 <= i < |actions| && j == i + 1 ==> Step(states[i], actions[i], states[j])
  }

  lemma {:induction false} RunInvariant(states: seq<System>, actions: seq<Action>, i: nat)
    requires IsRun(states, actions) && i < |states|
    ensures Invariant(states[i])
  {
    if i == 0 {
      var bound :| states[0] == Init(bound);
      assert Newest([]) == [];
    } else {
      RunInvariant(states, actions, i - 1);
      assert Step(states[i - 1], actions[i - 1], states[i - 1 + 1]);
      StepKeeps(states[i - 1], actions[i - 1]);
    }
  }

  /** At most one sink write of an id is in flight, across both being-written tables. */
  lemma {:induction false} OneWriteInFlight(states: seq<System>, actions: seq<Action>, i: nat, k: TaskId, k': TaskId)
    requires IsRun(states, actions) && i < |states|
    ensures var s := states[i];
            && s.tables.auditEmitting.Keys !! s.tables.cancelEmitting.Keys
            && (BothWrite(s, k, k') ==> k == k')
  {
    RunInvariant(states, actions, i);
    if BothWrite(states[i], k, k') {
      OneWriter(states[i], k, k');
    }
  }

  predicate BothWrite(s: System, k: TaskId, k': TaskId) {
    && k in s.tasks && s.tasks[k].pc.Writing()
    && k' in s.tasks && s.tasks[k'].pc.Writing()
    && s.tasks[k].id == s.tasks[k'].id
  }

  // ---- acknowledged writes and the dedup FIFO

  /** The acknowledged write counts from itself: its id was not in the dedup FIFO, or was its
      newest entry, when the sink answered. */
  predicate CountsFromItself(s: System, id: Id) {
    id !in s.tables.audited || (s.entered != [] && s.entered[|s.entered| - 1] == id)
  }

  /** The step at which the `p`-th write was acknowledged. */
  ghost predicate AckedAt(states: seq<System>, actions: seq<Action>, r: nat, p: nat)
    requires |states| == |actions| + 1
  {
    && r < |actions| && actions[r].Resolve? && actions[r].k in states[r].tasks
    && states[r].tasks[actions[r].k].pc.Writing()
    && |states[r].acks| == p && |states[r + 1].acks| == p + 1
    && states[r + 1].acks[p].id == states[r].tasks[actions[r].k].id
  }

  lemma {:induction false} LastIndexAt(s: seq<Id>, x: Id)
    requires x in s
    ensures LastIndex(s, x) + 1 == |s| <==> s[|s| - 1] == x
  {
  }

  lemma {:induction false} AcknowledgedStands(s: System, id: Id)
    requires TablesOk(s)
    ensures var s' := Acknowledging(s, s, id);
            var ack := s'.acks[|s.acks|];
            |s'.acks| == |s.acks| + 1 && s'.acks[..|s.acks|] == s.acks && ack.id == id
            && (ack.pos + 1 == ack.at <==> CountsFromItself(s, id))
  {
    if id in s.tables.audited {
      InWindow(s.entered, id);
      LastIndexAt(s.entered, id);
    } else {
      LastIndexAt(s.entered + [id], id);
    }
  }

  /** A step adds at most one acknowledged write, and only a write that resolves adds one. */
  lemma {:induction false} StepAcks(s: System, a: Action)
    requires TablesOk(s) && Enabled(s, a)
    ensures var s' := Next(s, a);
            || s'.acks == s.acks
            || (a.Resolve? && s.tasks[a.k].pc.Writing()
                && s'.acks == Acknowledging(s, s, s.tasks[a.k].id).acks
                && s'.entered == Acknowledging(s, s, s.tasks[a.k].id).entered)
  {
    if a.CloseTicket? {
      ReleasingMoves(s.(tickets := s.tickets[a.t := s.tickets[a.t].(closed := true)]), a.t,
        s.tickets[a.t].RequestIds());
    }
  }

  lemma {:induction false} NewAck(s: System, a: Action)
    requires TablesOk(s) && Enabled(s, a) && |Next(s, a).acks| > |s.acks|
    ensures var s' := Next(s, a);
            && a.Resolve? && s.tasks[a.k].pc.Writing() && |s'.acks| == |s.acks| + 1
            && var ack := s'.acks[|s.acks|];
            ack.id == s.tasks[a.k].id && (ack.pos + 1 == ack.at <==> CountsFromItself(s, ack.id))
  {
    StepAcks(s, a);
    AcknowledgedStands(s, s.tasks[a.k].id);
  }

  /** Step `r` acknowledged the `p`-th write, which is as it was, and counts as that step says. */
  ghost predicate AckFrom(states: seq<System>, actions: seq<Action>, i: nat, p: nat, r: nat)
    requires |states| == |actions| + 1 && i < |states| && p < |states[i].acks|
  {
    && r < i && AckedAt(states, actions, r, p) && states[r + 1].acks[p] == states[i].acks[p]
    && var ack := states[i].acks[p];
    ack.pos + 1 == ack.at <==> CountsFromItself(states[r], ack.id)
  }

  lemma {:induction false} NewAckAt(states: seq<System>, actions: seq<Action>, i: nat, p: nat)
    requires IsRun(states, actions) && i < |actions| && |states[i].acks| <= p < |states[i + 1].acks|
    ensures AckFrom(states, actions, i + 1, p, i)
  {
    RunStep(states, actions, i);
    NewAck(states[i], actions[i]);
  }

  lemma {:induction false} OldAckStays(states: seq<System>, actions: seq<Action>, i: nat, p: nat, r: nat)
    requires IsRun(states, actions) && i < |actions| && p < |states[i].acks| && AckFrom(states, actions, i, p, r)
    ensures p < |states[i + 1].acks| && AckFrom(states, actions, i + 1, p, r)
  {
    RunStep(states, actions, i);
    AcksStay(states[i], actions[i], p);
  }

  lemma {:induction false} NoAckYet(states: seq<System>, actions: seq<Action>)
    requires IsRun(states, actions)
    ensures states[0].acks == []
  {
  }

  lemma {:induction false} AckHasItsStep(states: seq<System>, actions: seq<Action>, i: nat, p: nat) returns (r: nat)
    requires IsRun(states, actions) && i < |states| && p < |states[i].acks|
    ensures AckFrom(states, actions, i, p, r)
  {
    NoAckYet(states, actions);
    if p < |states[i - 1].acks| {
      r := AckHasItsStep(states, actions, i - 1, p);
      OldAckStays(states, actions, i - 1, p, r);
    } else {
      r := i - 1;
      NewAckAt(states, actions, i - 1, p);
    }
  }

  lemma {:induction false} RunTables(states: seq<System>, actions: seq<Action>, i: nat)
    requires IsRun(states, actions) && i < |states|
    ensures TablesOk(states[i])
  {
    RunInvariant(states, actions, i);
  }

  lemma {:induction false} AcksStay(s: System, a: Action, p: nat)
    requires TablesOk(s) && Enabled(s, a) && p < |s.acks|
    ensures |s.acks| <= |Next(s, a).acks| && Next(s, a).acks[p] == s.acks[p]
  {
    StepAcks(s, a);
    if Next(s, a).acks != s.acks {
      AcknowledgedStands(s, s.tasks[a.k].id);
      assert Next(s, a).acks[..|s.acks|][p] == Next(s, a).acks[p];
    }
  }

  /** Between two acknowledged writes of one id, 4096 other ids, all different, enter the
      dedup FIFO after the entry of the first. They come after its acknowledgement too if and
      only if, when the sink answered, the id was not in the FIFO yet or was its newest. */
  lemma {:induction false} OneRecordUntilEvicted(states: seq<System>, actions: seq<Action>, i: nat, p: nat, q: nat)
    requires IsRun(states, actions) && i < |states|
    requires p < q < |states[i].acks| && states[i].acks[p].id == states[i].acks[q].id
    ensures var s := states[i];
            var first, second := s.acks[p], s.acks[q];
            && first.pos + AUDIT_DEDUP_CAP < second.pos < second.at <= |s.entered|
            && OthersEntered(s.entered, first)
            && (first.id !in s.handed ==> first.pos + 1 == first.at)
            && (first.pos + 1 == first.at <==>
                exists r: nat :: AckedAt(states, actions, r, p) && CountsFromItself(states[r], first.id))
  {
    RunInvariant(states, actions, i);
    OthersInBetween(states[i], p, q);
    AckStepIsExact(states, actions, i, p);
  }

  lemma {:induction false} AckStepIsExact(states: seq<System>, actions: seq<Action>, i: nat, p: nat)
    requires IsRun(states, actions) && i < |states| && p < |states[i].acks|
    ensures var ack := states[i].acks[p];
            ack.pos + 1 == ack.at <==>
              exists r: nat :: AckedAt(states, actions, r, p) && CountsFromItself(states[r], ack.id)
  {
    var r := AckHasItsStep(states, actions, i, p);
    forall r': nat | AckedAt(states, actions, r', p)
      ensures r' == r
    {
      AcksGrow(states, actions, if r < r' then r + 1 else r' + 1, if r < r' then r' else r);
    }
  }

  lemma {:induction false} AcksGrow(states: seq<System>, actions: seq<Action>, i: nat, j: nat)
    requires IsRun(states, actions) && j < |states|
    ensures i <= j ==> |states[i].acks| <= |states[j].acks| && states[i].entered <= states[j].entered
    decreases j
  {
    if i < j {
      AcksGrow(states, actions, i, j - 1);
      RunTables(states, actions, j - 1);
      assert Step(states[j - 1], actions[j - 1], states[j - 1 + 1]);
      StepAcks(states[j - 1], actions[j - 1]);
      StepEnters(states[j - 1], actions[j - 1]);
    }
  }

  lemma {:induction false} OthersInBetween(s: System, p: nat, q: nat)
    requires Invariant(s) && p < q < |s.acks| && s.acks[p].id == s.acks[q].id
    ensures var first, second := s.acks[p], s.acks[q];
            && first.pos + AUDIT_DEDUP_CAP < second.pos < second.at <= |s.entered|
            && OthersEntered(s.entered, first)
            && (first.id !in s.handed ==> first.pos + 1 == first.at)
  {
    var first, second := s.acks[p], s.acks[q];
    assert first.pos < second.pos && s.entered[first.pos] == s.entered[second.pos] == first.id;
    var others := s.entered[first.pos + 1..first.pos + 1 + AUDIT_DEDUP_CAP];
    forall j | 0 <= j < |others|
      ensures others[j] != first.id
    {
      assert others[j] == s.entered[first.pos + 1 + j];
    }
    forall j, j' | 0 <= j < j' < |others|
      ensures others[j] != others[j']
    {
      assert others[j] == s.entered[first.pos + 1 + j] && others[j'] == s.entered[first.pos + 1 + j'];
    }
  }

  // ---- how an id that is being written enters the FIFO

  /** The closing ticket owns the id, and releases it. */
  predicate Releases(s: System, a: Action, id: Id) {
    && a.CloseTicket? && a.t in s.tickets && id in s.tickets[a.t].RequestIds()
    && id in s.tables.owned.at && s.tables.owned.at[id] == a.t
  }

  lemma {:induction false} ReleasingEnters(s: System, t: TicketId, ids: seq<Id>)
    requires TablesOk(s)
    ensures s.entered <= Releasing(s, t, ids).entered
    ensures forall p :: |s.entered| <= p < |Releasing(s, t, ids).entered| ==>
              var x := Releasing(s, t, ids).entered[p];
              x in ids && x in s.tables.owned.at && s.tables.owned.at[x] == t
    decreases |ids|
  {
    if ids != [] {
      ReleasingOneMoves(s, t, ids[0]);
      ReleasingEnters(ReleasingOne(s, t, ids[0]), t, ids[1..]);
    }
  }

  /** An id enters the FIFO when its write is acknowledged or when its ticket releases it. */
  lemma {:induction false} StepEnters(s: System, a: Action)
    requires TablesOk(s) && Enabled(s, a)
    ensures s.entered <= Next(s, a).entered
    ensures forall p :: |s.entered| <= p < |Next(s, a).entered| ==>
              var x := Next(s, a).entered[p];
              Releases(s, a, x) || (a.Resolve? && s.tasks[a.k].pc.Writing() && s.tasks[a.k].id == x)
  {
    if a.CloseTicket? {
      ReleasingEnters(s.(tickets := s.tickets[a.t := s.tickets[a.t].(closed := true)]), a.t,
        s.tickets[a.t].RequestIds());
    }
  }

  lemma {:induction false} RunStep(states: seq<System>, actions: seq<Action>, i: nat)
    requires IsRun(states, actions) && i < |actions|
    ensures Step(states[i], actions[i], states[i + 1]) && TablesOk(states[i])
  {
    RunTables(states, actions, i);
    assert Step(states[i], actions[i], states[i + 1]);
  }

  /** Task `k` writes for `id` from the step after `j` up to state `i`. */
  ghost predicate WritesFrom(states: seq<System>, j: nat, i: nat, k: TaskId, id: Id)
    requires j < i < |states|
  {
    && !WritesFor(states[j], k, id)
    && forall m :: j < m <= i ==> WritesFor(states[m], k, id)
  }

  predicate WritesFor(s: System, k: TaskId, id: Id) {
    k in s.tasks && s.tasks[k].id == id && s.tasks[k].pc.Writing()
  }

  /** A write begins only for an id outside the dedup FIFO. */
  lemma {:induction false} WriteBegins(s: System, a: Action, k: TaskId, id: Id)
    requires TablesOk(s) && Enabled(s, a) && !WritesFor(s, k, id) && WritesFor(Next(s, a), k, id)
    ensures id !in s.tables.audited
  {
    if a.CloseTicket? {
      ReleasingMoves(s.(tickets := s.tickets[a.t := s.tickets[a.t].(closed := true)]), a.t,
        s.tickets[a.t].RequestIds());
    }
  }

  /** The step that brought the `p`-th entry of the FIFO's history. */
  lemma {:induction false} EntryHasItsStep(states: seq<System>, actions: seq<Action>, j: nat, i: nat, p: nat)
    returns (m: nat)
    requires IsRun(states, actions) && j <= i < |states| && |states[j].entered| <= p < |states[i].entered|
    ensures j <= m < i && |states[m].entered| <= p < |states[m + 1].entered|
    ensures states[m + 1].entered[p] == states[i].entered[p]
    decreases i - j
  {
    m := j;
    if j < i {
      AcksGrow(states, actions, j + 1, i);
      if p >= |states[j + 1].entered| {
        m := EntryHasItsStep(states, actions, j + 1, i, p);
      }
    }
  }

  /** Released at step `m`, and still among the newest 4096 in state `i`. */
  ghost predicate ReleasedAndKept(states: seq<System>, actions: seq<Action>, m: nat, i: nat, id: Id)
    requires |states| == |actions| + 1 && m < i < |states|
  {
    && Releases(states[m], actions[m], id)
    && exists p: nat :: |states[m].entered| <= p < |states[m + 1].entered| && AmongNewest(states[i].entered, id, p)
  }

  ghost predicate AmongNewest(entered: seq<Id>, id: Id, p: nat) {
    p < |entered| && entered[p] == id && |entered| <= p + AUDIT_DEDUP_CAP
  }

  lemma {:induction false} NewestHas(entered: seq<Id>, id: Id)
    ensures id in Newest(entered) <==> exists p: nat :: AmongNewest(entered, id, p)
  {
    var n := if |entered| > AUDIT_DEDUP_CAP then |entered| - AUDIT_DEDUP_CAP else 0;
    assert Newest(entered) == entered[n..];
    if id in Newest(entered) {
      var q :| 0 <= q < |Newest(entered)| && Newest(entered)[q] == id;
      assert AmongNewest(entered, id, n + q);
    }
    if p: nat :| AmongNewest(entered, id, p) {
      assert Newest(entered)[p - n] == id;
    }
  }

  /** While its write is under way an id enters the dedup FIFO in one way only: its ticket
      closes and releases it. So it is in there at the end if and only if that happened in
      between, and not so long ago that 4096 others pushed it out again. */
  lemma {:induction false} WrittenIdEntersByRelease(
    states: seq<System>, actions: seq<Action>, j: nat, i: nat, k: TaskId, id: Id)
    requires IsRun(states, actions) && j < i < |states| && WritesFrom(states, j, i, k, id)
    ensures id in states[i].tables.audited <==> exists m :: j < m < i && ReleasedAndKept(states, actions, m, i, id)
  {
    RunTables(states, actions, i);
    NewestHas(states[i].entered, id);
    if id in states[i].tables.audited {
      var p: nat :| AmongNewest(states[i].entered, id, p);
      var m := ReleasedInBetween(states, actions, j, i, k, id, p);
    }
  }

  lemma {:induction false} ReleasedInBetween(
    states: seq<System>, actions: seq<Action>, j: nat, i: nat, k: TaskId, id: Id, p: nat) returns (m: nat)
    requires IsRun(states, actions) && j < i < |states| && WritesFrom(states, j, i, k, id)
    requires AmongNewest(states[i].entered, id, p)
    ensures j < m < i && ReleasedAndKept(states, actions, m, i, id)
  {
    RunStep(states, actions, j);
    assert WritesFor(states[j + 1], k, id);
    WriteBegins(states[j], actions[j], k, id);
    NotEarlier(states, actions, j, i, p, id);
    m := EntryHasItsStep(states, actions, j, i, p);
    EnteredByRelease(states, actions, j, i, m, p, k, id);
  }

  /** The acknowledged write counts from itself exactly when its ticket did not release it since
      the write began (or 4096 others came after), or nothing entered after the release. */
  lemma {:induction false} AckCountsExactly(
    states: seq<System>, actions: seq<Action>, j: nat, i: nat, k: TaskId, id: Id, outcome: SinkOutcome)
    requires IsRun(states, actions) && j < i < |actions| && WritesFrom(states, j, i, k, id)
    requires actions[i] == Resolve(k, outcome) && |states[i + 1].acks| > |states[i].acks|
    ensures var s, ack := states[i], states[i + 1].acks[|states[i].acks|];
            && ack.id == id
            && (ack.pos + 1 == ack.at <==>
                  || !(exists m :: j < m < i && ReleasedAndKept(states, actions, m, i, id))
                  || (s.entered != [] && s.entered[|s.entered| - 1] == id))
  {
    RunStep(states, actions, i);
    NewAck(states[i], actions[i]);
    WrittenIdEntersByRelease(states, actions, j, i, k, id);
  }

  lemma {:induction false} NotEarlier(states: seq<System>, actions: seq<Action>, j: nat, i: nat, p: nat, id: Id)
    requires IsRun(states, actions) && j < i < |states| && id !in states[j].tables.audited
    requires AmongNewest(states[i].entered, id, p)
    ensures |states[j].entered| <= p
  {
    AcksGrow(states, actions, j, i);
    RunTables(states, actions, j);
    NewestHas(states[j].entered, id);
    assert p < |states[j].entered| ==> AmongNewest(states[j].entered, id, p);
  }

  lemma {:induction false} EnteredByRelease(
    states: seq<System>, actions: seq<Action>, j: nat, i: nat, m: nat, p: nat, k: TaskId, id: Id)
    requires IsRun(states, actions) && j <= m < i < |states| && WritesFrom(states, j, i, k, id)
    requires |states[m].entered| <= p < |states[m + 1].entered| && states[m + 1].entered[p] == id
    ensures j < m && Releases(states[m], actions[m], id)
  {
    RunStep(states, actions, m);
    StepEnters(states[m], actions[m]);
    assert WritesFor(states[m + 1], k, id);
    if !Releases(states[m], actions[m], id) {
      ResolvedStops(states[m], actions[m]);
      RunInvariant(states, actions, m);
      if m == j {
        WriteNotByResolve(states[m], actions[m], k, id);
      } else {
        assert WritesFor(states[m], k, id);
        OneWriter(states[m], k, actions[m].k);
      }
    } else if m == j {
      WriteNotByClose(states[m], actions[m], k, id);
    }
  }

  lemma {:induction false} ResolvedStops(s: System, a: Action)
    requires TablesOk(s) && Enabled(s, a) && a.Resolve?
    ensures a.k in Next(s, a).tasks && !Next(s, a).tasks[a.k].pc.Writing()
  {
  }

  lemma {:induction false} WriteNotByResolve(s: System, a: Action, k: TaskId, id: Id)
    requires TablesOk(s) && Enabled(s, a) && a.Resolve? && !WritesFor(s, k, id)
    ensures !WritesFor(Next(s, a), k, id)
  {
  }

  lemma {:induction false} WriteNotByClose(s: System, a: Action, k: TaskId, id: Id)
    requires TablesOk(s) && Enabled(s, a) && a.CloseTicket? && !WritesFor(s, k, id)
    ensures !WritesFor(Next(s, a), k, id)
  {
    ReleasingMoves(s.(tickets := s.tickets[a.t := s.tickets[a.t].(closed := true)]), a.t, s.tickets[a.t].RequestIds());
  }

  /** 4096 ids, all different and none of them the acknowledged one, entered after it. */
  ghost predicate OthersEntered(entered: seq<Id>, ack: Ack)
    requires ack.pos + AUDIT_DEDUP_CAP < |entered|
  {
    var others := entered[ack.pos + 1..ack.pos + 1 + AUDIT_DEDUP_CAP];
    Distinct(others) && ack.id !in others
  }

  // ---- cancels

  /** The full queue pushes out its oldest entry. */
  predicate PushedOut(s: System, s': System, id: Id) {
    && id in s.tables.pending.at && id !in s'.tables.pending.at
    && |s.tables.pending.order| == CANCEL_PENDING_CAP && s.tables.pending.order[0] == id
  }

  lemma {:induction false} QueuedLoses(t: Tables, id: Id, record: CancelRecord, x: Id)
    requires t.pending.Valid() && |t.pending.order| <= CANCEL_PENDING_CAP
    requires x in t.pending.at && x !in Queued(t, id, record).pending.at
    ensures |t.pending.order| == CANCEL_PENDING_CAP && t.pending.order[0] == x
  {
    t.pending.PutTrim(id, record, CANCEL_PENDING_CAP);
  }

  /** A cancel that starts or goes on takes only its own id out of the queue, and that one only
      when the id is a ticket's or in the dedup FIFO. */
  lemma {:induction false} CancelLoses(
    t: Tables, me: TaskId, id: Id, facts: Option<Id>, reaches: bool, latencyMs: int, own: CancelRecord, x: Id)
    requires x in t.pending.at
    ensures x !in CancelStart(t, me, id, facts, reaches, latencyMs).tables.pending.at ==>
              x == id && (OwnedByTicket(t, facts, id) || id in t.audited)
    ensures x !in CancelResume(t, me, id, own).tables.pending.at ==> x == id && id in t.audited
  {
  }

  lemma {:induction false} ResolveLoses(
    t: Tables, me: TaskId, id: Id, record: CancelRecord, outcome: SinkOutcome, x: Id)
    requires t.pending.Valid() && |t.pending.order| <= CANCEL_PENDING_CAP && x in t.pending.at
    ensures x !in AuditResolve(t, me, id, outcome).tables.pending.at ==>
              x == id && AuditResolve(t, me, id, outcome).pc == Ended(Acknowledged)
    ensures x !in CancelledResolve(t, me, id, record, outcome).tables.pending.at ==>
              || (x == id && CancelledResolve(t, me, id, record, outcome).pc == Ended(Acknowledged))
              || (|t.pending.order| == CANCEL_PENDING_CAP && t.pending.order[0] == x)
  {
    if x !in Queued(t, id, record).pending.at {
      QueuedLoses(t, id, record, x);
    }
  }

  /** Queued counts leave the queue when a record for the id is acknowledged, when the full
      queue pushes them out, or when the id is a ticket's. */
  lemma {:induction false} LeavesTheQueue(s: System, a: Action, x: Id)
    requires TablesOk(s) && Owners(s) && AuditedOk(s) && Enabled(s, a)
    requires x in s.tables.pending.at && x !in Next(s, a).tables.pending.at
    ensures x in s.handed || PushedOut(s, Next(s, a), x)
      || (a.Resolve? && s.tasks[a.k].id == x && |Next(s, a).acks| == |s.acks| + 1 && Next(s, a).acks[|s.acks|].id == x)
  {
    match a
    case CloseTicket(t) =>
      ReleasingMoves(s.(tickets := s.tickets[t := s.tickets[t].(closed := true)]), t, s.tickets[t].RequestIds());
    case StartCancel(k, id, ctx, latencyMs) =>
      CancelLoses(s.tables, k, id, FactsOf(s, ctx), Reaches(s, id, ctx), latencyMs, CancelRecord("", 0, 0), x);
    case Wake(k) =>
      if s.tasks[k].kind.Cancel? {
        CancelLoses(s.tables, k, s.tasks[k].id, None, false, 0, s.tasks[k].kind.own, x);
      }
    case CutWait(k) => CutLoses(s, k, x);
    case Resolve(k, outcome) => ResolvingLoses(s, k, outcome, x);
    case _ =>
  }

  lemma {:induction false} CutLoses(s: System, k: TaskId, x: Id)
    requires TablesOk(s) && Enabled(s, CutWait(k))
    requires x in s.tables.pending.at && x !in Next(s, CutWait(k)).tables.pending.at
    ensures PushedOut(s, Next(s, CutWait(k)), x)
  {
    if s.tasks[k].kind.Cancel? {
      QueuedLoses(s.tables, s.tasks[k].id, s.tasks[k].kind.own, x);
    }
  }

  lemma {:induction false} ResolvingLoses(s: System, k: TaskId, outcome: SinkOutcome, x: Id)
    requires TablesOk(s) && Enabled(s, Resolve(k, outcome))
    requires x in s.tables.pending.at && x !in Next(s, Resolve(k, outcome)).tables.pending.at
    ensures var s' := Next(s, Resolve(k, outcome));
            PushedOut(s, s', x) || (s.tasks[k].id == x && |s'.acks| == |s.acks| + 1 && s'.acks[|s.acks|].id == x)
  {
    if s.tasks[k].pc.WritingCancel? {
      CancelledLoses(s, k, outcome, x);
    } else {
      AuditedLoses(s, k, outcome, x);
    }
  }

  lemma {:induction false} CancelledLoses(s: System, k: TaskId, outcome: SinkOutcome, x: Id)
    requires TablesOk(s) && Enabled(s, Resolve(k, outcome)) && s.tasks[k].pc.WritingCancel?
    requires x in s.tables.pending.at && x !in Next(s, Resolve(k, outcome)).tables.pending.at
    ensures var s' := Next(s, Resolve(k, outcome));
            PushedOut(s, s', x) || (s.tasks[k].id == x && |s'.acks| == |s.acks| + 1 && s'.acks[|s.acks|].id == x)
  {
    ResolveLoses(s.tables, k, s.tasks[k].id, s.tasks[k].pc.record, outcome, x);
  }

  lemma {:induction false} AuditedLoses(s: System, k: TaskId, outcome: SinkOutcome, x: Id)
    requires TablesOk(s) && Enabled(s, Resolve(k, outcome)) && s.tasks[k].pc.WritingAudit?
    requires x in s.tables.pending.at && x !in Next(s, Resolve(k, outcome)).tables.pending.at
    ensures var s' := Next(s, Resolve(k, outcome));
            s.tasks[k].id == x && |s'.acks| == |s.acks| + 1 && s'.acks[|s.acks|].id == x
  {
    ResolveLoses(s.tables, k, s.tasks[k].id, CancelRecord("", 0, 0), outcome, x);
  }

  /** Task `k`, a cancel, ends at step `e`. */
  ghost predicate CancelEndsAt(states: seq<System>, e: nat, k: TaskId)
    requires e + 1 < |states|
  {
    && k in states[e + 1].tasks && states[e + 1].tasks[k].CancelOver()
    && !(k in states[e].tasks && states[e].tasks[k].CancelOver())
  }

  /** What became of the counts of a cancel of `id` that ended at step `e`, up to state `i`. */
  ghost predicate Accounted(states: seq<System>, e: nat, i: nat, id: Id)
    requires e + 1 <= i < |states|
  {
    || id in states[i].handed
    || (id in states[e + 1].tables.audited && Acked(states[e + 1].acks, id))
    || AckedSince(states[i].acks, |states[e].acks|, id)
    || id in states[i].tables.pending.at
    || exists m :: e < m < i && PushedOut(states[m], states[m + 1], id)
  }

  ghost predicate AckedSince(acks: seq<Ack>, n: nat, id: Id) {
    exists q :: n <= q < |acks| && acks[q].id == id
  }

  /** No cancel is lost: when it ended its id's record was out and in the
      dedup FIFO; or since then its record went out, its
      counts wait in the queue, or the full queue pushed them out. Only ids handed over to a
      ticket are exempt, and only they can be both audited and queued. */
  lemma {:induction false} NoCancelLost(states: seq<System>, actions: seq<Action>, e: nat, i: nat, k: TaskId)
    requires IsRun(states, actions) && e + 1 <= i < |states| && CancelEndsAt(states, e, k)
    ensures Accounted(states, e, i, states[e + 1].tasks[k].id)
    ensures var s, id := states[i], states[e + 1].tasks[k].id;
            id !in s.handed ==> !(id in s.tables.audited && id in s.tables.pending.at)
    ensures |states[i].tables.pending.order| <= CANCEL_PENDING_CAP
  {
    NotBoth(states, actions, i, states[e + 1].tasks[k].id);
    JustEnded(states, actions, e, k);
    AccountedFrom(states, actions, e, e + 1, i, states[e + 1].tasks[k].id);
  }

  lemma {:induction false} AccountedFrom(states: seq<System>, actions: seq<Action>, e: nat, j: nat, i: nat, id: Id)
    requires IsRun(states, actions) && e + 1 <= j <= i < |states| && Accounted(states, e, j, id)
    ensures Accounted(states, e, i, id)
    decreases i - j
  {
    if j < i {
      StaysAccounted(states, actions, e, j, id);
      AccountedFrom(states, actions, e, j + 1, i, id);
    }
  }

  lemma {:induction false} NotBoth(states: seq<System>, actions: seq<Action>, i: nat, id: Id)
    requires IsRun(states, actions) && i < |states|
    ensures var s := states[i]; id !in s.handed ==> !(id in s.tables.audited && id in s.tables.pending.at)
    ensures |states[i].tables.pending.order| <= CANCEL_PENDING_CAP
  {
    RunInvariant(states, actions, i);
  }

  lemma {:induction false} JustEnded(states: seq<System>, actions: seq<Action>, e: nat, k: TaskId)
    requires IsRun(states, actions) && e < |actions| && CancelEndsAt(states, e, k)
    ensures Accounted(states, e, e + 1, states[e + 1].tasks[k].id)
  {
    EndingSettles(states, actions, e, k);
    RunInvariant(states, actions, e + 1);
  }

  lemma {:induction false} StaysAccounted(states: seq<System>, actions: seq<Action>, e: nat, i: nat, id: Id)
    requires IsRun(states, actions) && e + 1 <= i < |actions| && Accounted(states, e, i, id)
    ensures Accounted(states, e, i + 1, id)
  {
    RunInvariant(states, actions, i);
    var s, s' := states[i], states[i + 1];
    assert Step(states[i], actions[i], states[i + 1]);
    HandedStays(s, actions[i]);
    AcksGrow(states, actions, e, i);
    if AckedSince(s.acks, |states[e].acks|, id) {
      var q :| |states[e].acks| <= q < |s.acks| && s.acks[q].id == id;
      AcksStay(s, actions[i], q);
      assert s'.acks[q].id == id;
    } else if id in s.tables.pending.at && id !in s'.tables.pending.at {
      LeavesTheQueue(s, actions[i], id);
      if !PushedOut(s, s', id) && id !in s.handed {
        assert s'.acks[|s.acks|].id == id;
      }
    }
  }

  lemma {:induction false} HandedStays(s: System, a: Action)
    requires TablesOk(s) && Enabled(s, a)
    ensures s.handed <= Next(s, a).handed
  {
    if a.CloseTicket? {
      ReleasingMoves(s.(tickets := s.tickets[a.t := s.tickets[a.t].(closed := true)]), a.t,
        s.tickets[a.t].RequestIds());
    }
  }

  /** What the step that takes the cancel task `k` on leaves behind. */
  ghost predicate CancelStepOk(s: System, s': System, k: TaskId)
    requires k in s'.tasks
  {
    var task := s'.tasks[k];
    // Whatever ended it, the id is audited or its counts are queued.
    && (task.CancelOver() ==> task.id in s'.tables.audited || task.id in s'.tables.pending.at)
    // From its first step on it has dropped the request's state...
    && (k !in s.tasks && task.pc != Ended(Owned) && task.pc != Ended(Mismatch) ==> task.id !in s'.tables.reqState)
    // ...unless that state is another request's: then nothing changes at all.
    && (k !in s.tasks && task.pc == Ended(Mismatch) ==> s'.tables == s.tables)
  }

  lemma {:induction false} CancelStarts(s: System, k: TaskId, id: Id, ctx: Option<TicketId>, latencyMs: int)
    requires Invariant(s) && Enabled(s, StartCancel(k, id, ctx, latencyMs))
    ensures CancelStepOk(s, Next(s, StartCancel(k, id, ctx, latencyMs)), k)
  {
    var t := s.tables;
    CancelStartBegins(t, k, id, FactsOf(s, ctx), Reaches(s, id, ctx), latencyMs);
    if !OwnedByTicket(t, FactsOf(s, ctx), id) && (id in t.reqState ==> Reaches(s, id, ctx)) {
      CancelResumeBegins(t.(reqState := t.reqState - {id}), k, id, OwnRecord(t, id, latencyMs));
    }
  }

  lemma {:induction false} CancelGoesOn(s: System, a: Action)
    requires Invariant(s) && Enabled(s, a) && (a.Wake? || a.CutWait? || a.Resolve?)
    requires s.tasks[a.k].kind.Cancel?
    ensures CancelStepOk(s, Next(s, a), a.k)
  {
    var task := s.tasks[a.k];
    if a.Wake? {
      CancelResumeBegins(s.tables, a.k, task.id, task.kind.own);
    } else if a.CutWait? {
      CancelCutBegins(s.tables, a.k, task.id, task.kind.own);
    } else {
      CancelledResolveEnds(s.tables, a.k, task.id, task.pc.record, a.outcome);
    }
  }

  /** The moment a cancel moves on or ends, in any run. */
  lemma {:induction false} CancelSettlesAtOnce(states: seq<System>, actions: seq<Action>, i: nat)
    requires IsRun(states, actions) && i < |actions|
    requires var a := actions[i];
             a.StartCancel? || ((a.Wake? || a.CutWait? || a.Resolve?)
                                && a.k in states[i].tasks && states[i].tasks[a.k].kind.Cancel?)
    ensures actions[i].k in states[i + 1].tasks && CancelStepOk(states[i], states[i + 1], actions[i].k)
  {
    RunInvariant(states, actions, i);
    assert Step(states[i], actions[i], states[i + 1]);
    var a := actions[i];
    if a.StartCancel? {
      CancelStarts(states[i], a.k, a.id, a.ctx, a.latencyMs);
    } else {
      CancelGoesOn(states[i], a);
    }
  }

  /** A cancel ends by its own step, and leaves its id audited or queued. */
  lemma {:induction false} EndingSettles(states: seq<System>, actions: seq<Action>, e: nat, k: TaskId)
    requires IsRun(states, actions) && e < |actions| && CancelEndsAt(states, e, k)
    ensures var s, id := states[e + 1], states[e + 1].tasks[k].id;
            id in s.tables.audited || id in s.tables.pending.at
  {
    RunStep(states, actions, e);
    EndsByOwnStep(states[e], actions[e], k);
    CancelSettlesAtOnce(states, actions, e);
  }

  lemma {:induction false} EndsByOwnStep(s: System, a: Action, k: TaskId)
    requires TablesOk(s) && Enabled(s, a)
    requires k in Next(s, a).tasks && Next(s, a).tasks[k].CancelOver() && !(k in s.tasks && s.tasks[k].CancelOver())
    ensures (a.StartCancel? || a.Wake? || a.CutWait? || a.Resolve?) && a.k == k
    ensures !a.StartCancel? ==> k in s.tasks && s.tasks[k].kind.Cancel?
  {
    if a.CloseTicket? {
      ReleasingMoves(s.(tickets := s.tickets[a.t := s.tickets[a.t].(closed := true)]), a.t,
        s.tickets[a.t].RequestIds());
    }
  }

  lemma {:induction false} WriterFrees(s: System, writer: TaskId, outcome: SinkOutcome)
    requires s.tables.pending.Valid() && s.tables.owned.Valid()
    requires writer in s.tasks && s.tasks[writer].pc.Writing()
    ensures var s' := Next(s, Resolve(writer, outcome));
            && s'.tasks.Keys == s.tasks.Keys && !s'.tasks[writer].pc.Writing()
            && (forall k :: k in s.tasks && k != writer ==> s'.tasks[k] == s.tasks[k])
  {
  }

  /** No waiter is stuck: it can go on, or the write it waits for can resolve, whatever the
      sink answers, and then it can. */
  lemma {:induction false} WaitersWake(
    states: seq<System>, actions: seq<Action>, i: nat, k: TaskId, outcome: SinkOutcome)
    requires IsRun(states, actions) && i < |states|
    requires k in states[i].tasks && states[i].tasks[k].pc.Waiting?
    ensures states[i].tables.pending.Valid() && states[i].tables.owned.Valid()
    ensures var s := states[i];
            var writer := s.tasks[k].pc.on;
            || Enabled(s, Wake(k))
            || (Enabled(s, Resolve(writer, outcome)) && Enabled(Next(s, Resolve(writer, outcome)), Wake(k)))
  {
    RunInvariant(states, actions, i);
    var s := states[i];
    if !Enabled(s, Wake(k)) {
      WriterFrees(s, s.tasks[k].pc.on, outcome);
    }
  }
}
