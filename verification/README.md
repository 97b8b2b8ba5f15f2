# Verified models of the corp LLM gateway

Dafny models of the parts of the gateway whose correctness is hardest to see by reading: the
protocol that writes one audit record per request, the middleware that restores streamed
responses, the offset map and the batching client of the NER detector, the span and checksum
code, the composition of profiles, the rules cache and the issuance bounds, and the gate every
audit record passes. `dafny verify dfyconfig.toml` checks all of it.

Where the source changes things step by step, the model does too: the guardrail, the response
object, the stream restorer, the usage tap, the `extends` resolver, the rules loader, the token
bucket and the issuance gate are classes whose methods are proved against functions of the old
state. Loops stay loops. What is proved about whole runs is proved about those functions, as
state machines in which one step is the code between two awaits.

| files | what they hold |
|---|---|
| `Guardrail`, `AuditRuns`, `AuditTheorems`, `AuditDecisions`, `AuditRecords`, `AuditFifos`, `HandOverTheorem`, `AuditInputs` | the terminal-audit protocol: its tables, its steps, what every step keeps, what holds over every run, what each task decides and what its record says, how long the bounded tables remember, and the runs where it ends |
| `SseFraming`, `SseRestorer`, `UsageTap`, `Response` | event framing, the restorer, the byte tap and the response state machine |
| `OffsetMap`, `NerBatches`, `NerClient`, `CorpNer` | NFC offsets mapped back, requests under three limits, answers read strictly, findings |
| `Spans`, `Checksums`, `Cards` | interval union, greedy de-overlap, Luhn and the account key, the card window scan |
| `Extends`, `Policy`, `Bundle`, `Dedup` | the `extends` graph flattened, the policy merge, the bundle |
| `RulesCache`, `IssueGate` | the single-flight TTL cache; the token bucket behind the in-flight cap |
| `Numbers`, `Nodes`, `NeverGate`, `NeverTheorems` | floats and record trees, the NEVER walk, the path-based definition it agrees with |
| `OrderedDict`, `Seqs`, `Texts`, `Wrappers` | shared |

## Findings

- **The depth limit of `extends` can be missed.** A profile already listed is not visited again,
  so a chain longer than the limit passes when its lower end was reached before by a shorter way
  (`Extends.SharedChainEscapesTheLimit`: with a limit of 1, roots `b, a` pass and `a, b` do not).
  The limit is exact over all orders: a graph is free of faults and over-long chains if and only if
  it resolves whatever the order of the roots and of each `extends` list. In a given order it is
  exact where no profile is reached by two chains (`Extends.DepthLimitExactly`).
- **A layer can lessen redaction.** `profiles/base.py` says that composition only ever adds
  redaction. The allow-list of a bundle is the union of its layers' lists, so it grows with each
  layer (`Bundle.OneMoreLayer`); the policy knobs do only tighten.
- **Layers replace the defaults**, so they may loosen them; `Policy.OverTheDefaults` says exactly
  when they do not.
- **An acknowledged record can count from an older FIFO entry.** If its ticket closes while the
  record is being written, the id enters the dedup FIFO at the release, and 4096 ids after that
  can be fewer after the acknowledgement: `AuditInputs.TwoRecordsTooClose` is a run with two
  acknowledged records of one id and 4095 others in between. The record counts from itself if and
  only if, when the sink answered, its id was not in the FIFO or was its newest entry
  (`AuditTheorems.OneRecordUntilEvicted`); it is in there exactly when its ticket released it since
  the write began and 4096 others have not come since (`AuditTheorems.WrittenIdEntersByRelease`).
- **A handed-over request can be written for again.** A ticket may be handed several requests, and
  its facts are those of the last. An earlier id is then guarded only by the two FIFOs. While its
  ticket's facts are its own, or a FIFO holds it, no log event writes for it; and none ever does
  once it is settled, that is, once its ticket has closed with no cancel of it waiting, being
  written or queued, whatever the FIFOs forget after that
  (`HandOverTheorem.NoLogRecordAfterHandOver`). Where neither holds, a cancel that the sink refuses
  leads to a log event that does write (`AuditInputs.UnguardedReopens`, with a run from the start in
  `AuditInputs.SecondHandOverReopensTheFirst`: a ticket still open when 4095 other hand-overs have
  pushed its first id out).
- **The counts of a cancel cut short can be replaced.** A cancel cut short while it waits queues its
  own counts. If the write it waited for was another cancel's and is refused, that one's counts take
  their place (`AuditInputs.CutCountsAreReplaced`). A queued record stays as it is, and whoever comes
  to write for its id carries exactly it, as long as no cancel of the id under way carries another
  (`AuditRecords.QueuedRecordStays`); where one does, its refusal replaces the record
  (`AuditRecords.DisagreedIsReplaced`).
- **A score that is not a number turns the choice among findings around.** The NER client accepts
  `NaN` for a score. Nothing sorts before it or after it, so a weaker finding listed before it can
  keep out a stronger one after it (`Spans.NotANumberHidesTheStronger`, with scores 0.5, NaN and 0.9
  in `Spans.WeakerFindingIsKept`). What is removed always overlaps something kept, and when every
  score is a number, something of no lower priority (`Spans.Deduplicate`).

## What the results rest on

- A response conforms in every run if and only if a restorer that was fed nothing has nothing to
  flush (`Response.ConformsExactly`). The gateway meets this: its adapters are made with no event
  buffered and no tail held (`sanitizer/streaming.py`, lines 228-233 and 466-480), and with such an
  adapter every run conforms (`Response.FreshAdapterConforms`). `Response.BodyBeforeStart` shows why
  the condition is there.
- The hand-over results rest on how the proxy calls the guardrail (`HandOverTheorem.Proxied`): call
  ids are unique, and the route gate marks a ticket and notifies its cancels before it closes it.
- `sorted` is taken to give an order of its elements: by key when the keys are ordered, and the list
  as it is when no element goes before the one it follows (`Spans.SortsAs`).

## Model

| member | source | states |
|---|---|---|
| `Guardrail.CorpLlmGuardrail.MarkAudited` | src/corp_llm_gateway/litellm_hook.py:1692-1700 | the request's state and queued counts go; the id enters the dedup FIFO, keeping its place if it is there, the oldest leaving over the cap |
| `Guardrail.CorpLlmGuardrail.QueueCancelled` | src/corp_llm_gateway/litellm_hook.py:1661-1665 | the counts of a cancelled request are queued, the oldest leaving over the cap |
| `Guardrail.CorpLlmGuardrail.HandOver` | src/corp_llm_gateway/litellm_hook.py:1237-1251 | the request's state goes and the id enters the hand-over FIFO as its newest, the oldest leaving over the cap; a ticket that is closed already is released at once |
| `Guardrail.CorpLlmGuardrail.ReleaseOwned` | src/corp_llm_gateway/litellm_hook.py:1253-1263 | the ids the closing ticket owns, and no other's, leave the hand-over FIFO for the dedup FIFO |
| `Guardrail.CorpLlmGuardrail.Audit` | src/corp_llm_gateway/litellm_hook.py:1467-1579 | the code of `audit` up to its first await, as the function `AuditStart` of the tables, whose outcomes `AuditDecisions.AuditDecides` states |
| `Guardrail.CorpLlmGuardrail.AuditWakes` | src/corp_llm_gateway/litellm_hook.py:1467-1579 | the code of `audit` from a wake-up to the next await, as the function `AuditResume` |
| `Guardrail.CorpLlmGuardrail.OnRequestCancelled` | src/corp_llm_gateway/litellm_hook.py:1606-1648 | the cancel hook up to its first await, as the function `CancelStart`, with the record it keeps; `AuditDecisions.CancelDecides` states its outcomes and its counts |
| `Guardrail.CorpLlmGuardrail.CancelWakes` | src/corp_llm_gateway/litellm_hook.py:1606-1655 | the cancel hook from a wake-up on |
| `Guardrail.CorpLlmGuardrail.CancelCutShort` | src/corp_llm_gateway/litellm_hook.py:1606-1648 | a cancel cut short while it waits queues its counts unless the id is audited or has counts queued |
| `Guardrail.CorpLlmGuardrail.EmitCancelledEnds` | src/corp_llm_gateway/litellm_hook.py:1657-1690 | a cancelled record's write resolves: the slot is freed, and the id is marked or its counts queued |
| `Guardrail.CorpLlmGuardrail.EmitAuditEnds` | src/corp_llm_gateway/litellm_hook.py:1547-1579 | an audit write resolves: the slot is freed, and the id is marked when the sink may have the record |
| `AuditRuns.StepKeeps` | src/corp_llm_gateway/litellm_hook.py:1467-1697 | every step of every task keeps the protocol's invariant |
| `AuditRuns.EnteredNewest` | src/corp_llm_gateway/litellm_hook.py:1692-1700 | the bounded FIFO is the set of the last distinct ids ever entered |
| `AuditRuns.OneWriter` | src/corp_llm_gateway/litellm_hook.py:2645-2654 | two tasks writing for one id are one task |
| `AuditTheorems.RunInvariant` | src/corp_llm_gateway/litellm_hook.py:1467-1697 | the invariant holds in every state of every run |
| `AuditTheorems.OneWriteInFlight` | src/corp_llm_gateway/litellm_hook.py:1467-1579 | in every state of every run the two being-written tables share no id, and at most one task writes for an id |
| `AuditTheorems.OneRecordUntilEvicted` | src/corp_llm_gateway/litellm_hook.py:1650-1700 | between two acknowledged writes of one id, 4096 other ids, all different, entered the dedup FIFO after the first one's entry; after its acknowledgement too if and only if its id was then outside the FIFO or its newest |
| `AuditTheorems.WrittenIdEntersByRelease` | src/corp_llm_gateway/litellm_hook.py:1253-1263 | an id being written is in the dedup FIFO if and only if its ticket released it since the write began and it is still among the newest 4096 |
| `AuditTheorems.AckCountsExactly` | src/corp_llm_gateway/litellm_hook.py:1547-1569 | a write counts from its own acknowledgement exactly when no such release happened, or nothing entered after it |
| `AuditInputs.CountsFromTheRelease` | src/corp_llm_gateway/litellm_hook.py:1253-1263 | a run in which an acknowledged write counts from an entry older than itself |
| `AuditInputs.TwoRecordsTooClose` | src/corp_llm_gateway/litellm_hook.py:1692-1697 | a run with two acknowledged writes of one id and only 4095 others between them |
| `AuditTheorems.NoCancelLost` | src/corp_llm_gateway/litellm_hook.py:1606-1690 | at every point after a cancel ended, its record was out and in the FIFO when it ended, or since then a record went out, its counts are queued, or the full queue pushed them out; audited and queued exclude each other; the queue is bounded |
| `AuditTheorems.CancelSettlesAtOnce` | src/corp_llm_gateway/litellm_hook.py:1606-1690 | whatever ends a cancel, at that very step the id is audited or queued and the request's state is gone, and another request's state is left untouched |
| `AuditTheorems.WaitersWake` | src/corp_llm_gateway/litellm_hook.py:1650-1655 | no waiter is stuck: it can go on, or the write it waits for can resolve, with any outcome, and then it can |
| `AuditDecisions.AuditDecides` | src/corp_llm_gateway/litellm_hook.py:1467-1549 | in every run, an audit that starts or wakes writes if and only if no ticket owns the id, no write of it is under way, it is not among the last 4096 entered, no counts of it are queued, its ticket is not cancelled, and it is registered, or no log event, or mappings are unbound; its record tells of the registered request; each other guard gives its own ending, and queued counts are written as they are queued |
| `AuditDecisions.CancelDecides` | src/corp_llm_gateway/litellm_hook.py:1606-1655 | in every run, a cancel that starts or wakes ends as owned, foreign or deduped, waits, or writes its own counts or those queued, exactly by what it finds; its own counts are the user and the redactions of the state it found, and its latency; where another record settles the id nothing of it stays queued |
| `AuditDecisions.WaitEnds` | src/corp_llm_gateway/litellm_hook.py:1650-1655 | in every run, a task wakes only once the write it waited for is over, and an audit cut short while it waits changes nothing |
| `AuditRecords.WriteLands` | src/corp_llm_gateway/litellm_hook.py:1547-1579 | in every run, a write the sink has or may have makes its id remembered and leaves no state and no counts of it; any other leaves the state for a retry, and a cancel's record queued |
| `AuditRecords.StateChanges` | src/corp_llm_gateway/litellm_hook.py:1237-1251 | the state of an id changes by its registration, its hand-over, a delivered record of it and a cancel that may end it, and by no other step |
| `AuditRecords.AuditTellsOfItsRequest` | src/corp_llm_gateway/litellm_hook.py:1523-1546 | in every run, the record an audit writes of a registered request has the user and the redactions that were registered |
| `AuditRecords.CancelWritesItsCounts` | src/corp_llm_gateway/litellm_hook.py:2553-2563 | in every run, what a cancel writes is the counts of the state it found and its latency, or what was queued for its id |
| `AuditRecords.CutCancelLeavesItsCounts` | src/corp_llm_gateway/litellm_hook.py:1638-1648 | in every run, a cancel cut short while it waits leaves its own counts queued, unless counts are queued or a record is remembered |
| `AuditRecords.QueueChanges` | src/corp_llm_gateway/litellm_hook.py:1661-1690 | what is queued for an id after any step: the record of its write that ended undelivered, else what was queued, else the counts of its cancel just cut short |
| `AuditRecords.QueuedRecordStays` | src/corp_llm_gateway/litellm_hook.py:1655-1690 | in every run, a queued record stays unchanged while queued, and every cancel that comes to write for the id carries exactly it, if none under way carries another |
| `AuditRecords.DisagreedIsReplaced` | src/corp_llm_gateway/litellm_hook.py:1671-1684 | the other half: a write under way that carries another record replaces the queued one when it is refused |
| `AuditInputs.CutCountsAreReplaced` | src/corp_llm_gateway/litellm_hook.py:1638-1684 | a run from the start in which five queued redactions are replaced by three |
| `AuditFifos.HandOverLasts` | src/corp_llm_gateway/litellm_hook.py:1237-1251 | in every run, an id handed over is in the hand-over FIFO until its ticket closes or 4096 other ids have been handed over after it |
| `AuditFifos.QueuedLasts` | src/corp_llm_gateway/litellm_hook.py:1661-1665 | in every run, queued counts wait until a record of their id is delivered, a ticket owns it, or counts of 4096 other ids have been queued after them |
| `AuditFifos.CloseReleases` | src/corp_llm_gateway/litellm_hook.py:1253-1263 | in every run, when a ticket closes each request it owns leaves the hand-over FIFO and is remembered by the dedup FIFO or enters it |
| `HandOverTheorem.ProxiedRunInvariant` | src/corp_llm_gateway/litellm_hook.py:1237-1276 | with unique call ids and cancels in the context of a cancelled ticket that is open, every cancel under way is of a cancelled ticket, and a handed-over id has a ticket and no request state |
| `HandOverTheorem.ClaimedCancelIsOwned` | src/corp_llm_gateway/litellm_hook.py:1265-1276 | a cancel of a handed-over id finds it owned while its ticket's facts are its own or the hand-over FIFO holds it |
| `HandOverTheorem.StepKeepsSilent` | src/corp_llm_gateway/litellm_hook.py:1606-1690 | a step of any kind that finds a handed-over id guarded leaves no counts and no cancelled record of it to write |
| `HandOverTheorem.NoLogRecordAfterHandOver` | src/corp_llm_gateway/litellm_hook.py:1478-1512 | no step makes a log event write for an id handed over before, as long as its ticket's facts are its own or a FIFO holds it; for good once its ticket has closed with no cancel of it under way, and when no other request is handed to its ticket |
| `HandOverTheorem.StepKeepsSettled` | src/corp_llm_gateway/route_gate/inflight.py:456-518 | a handed-over id whose ticket has closed, with no cancel of it waiting, writing or queued, stays so under every step, also when both FIFOs have forgotten it |
| `HandOverTheorem.ClosedWhileGuarded` | src/corp_llm_gateway/litellm_hook.py:1253-1276 | an id guarded until its ticket closed, with no cancel of it waiting, is settled |
| `AuditInputs.UnguardedReopens` | src/corp_llm_gateway/litellm_hook.py:1606-1690 | the other half: from any point at which nothing guards it and it is not settled (its ticket is open, or a cancel of it waits, writes or left counts), the run can go on to a log event that writes for it |
| `AuditInputs.SecondHandOverReopensTheFirst` | src/corp_llm_gateway/litellm_hook.py:1231-1251 | a run from the start: one ticket handed two requests, 4095 others after them, and the first id is written for again |
| `SseFraming.SplitConserves` | src/corp_llm_gateway/route_gate/desanitize_middleware.py:77-78 | the events and the rest of a split are the input, in order |
| `SseFraming.SplitEvents` | src/corp_llm_gateway/route_gate/desanitize_middleware.py:458-463 | every event of a split is complete and the rest holds no boundary, which `SplitExactly` says without the search |
| `SseFraming.EventEndExactly` | src/corp_llm_gateway/route_gate/desanitize_middleware.py:77-78 | an event ends after the first `e` units if and only if they end with CR LF CR LF, LF LF or CR CR and no shorter beginning does |
| `SseFraming.SplitExactly` | src/corp_llm_gateway/route_gate/desanitize_middleware.py:458-463 | the split of a stream is the one way to cut it into events that each end with their only blank line and a rest without one |
| `SseFraming.LeftmostStays` | src/corp_llm_gateway/route_gate/desanitize_middleware.py:77-78 | a boundary found in a prefix stays the leftmost after any extension |
| `SseFraming.ChunkInvariant` | src/corp_llm_gateway/route_gate/desanitize_middleware.py:458-471 | however a stream is cut, feeding the pieces gives the events of the whole |
| `SseRestorer.RestoredTextIsChunkInvariant` | src/corp_llm_gateway/route_gate/desanitize_middleware.py:439-500 | however a stream is cut, the restored text is that of the whole stream, also when an event cannot be restored |
| `SseRestorer.RestoredEventByEvent` | src/corp_llm_gateway/route_gate/desanitize_middleware.py:458-471 | a stream restored whole is the adapter's answers to its events in order, then the Responses tails, then the other adapter's |
| `SseRestorer.BrokenAtAnEvent` | src/corp_llm_gateway/route_gate/desanitize_middleware.py:458-463 | if an event cannot be restored the text is the answers to the events before it |
| `SseRestorer.Restorer.Feed` | src/corp_llm_gateway/route_gate/desanitize_middleware.py:458-463 | the buffer loop handles exactly the complete events, in order, and keeps the rest |
| `SseRestorer.Restorer.FlushTails` | src/corp_llm_gateway/route_gate/desanitize_middleware.py:465-471 | the end of the stream handles what is still open and the adapter's tails |
| `SseRestorer.Restorer.Take` | src/corp_llm_gateway/route_gate/desanitize_middleware.py:473-475 | hands out what is ready, once |
| `UsageTap.UntouchedWithoutDropping` | src/corp_llm_gateway/route_gate/desanitize_middleware.py:567-579 | a tap that does not drop passes every chunk as it is, and all of them together are the input |
| `UsageTap.KeptExactly` | src/corp_llm_gateway/route_gate/desanitize_middleware.py:593-611 | each event goes out whole and in its place, or not at all if it is an artifact; with no artifact everything goes out |
| `UsageTap.BytesConserved` | src/corp_llm_gateway/route_gate/desanitize_middleware.py:593-611 | below the cap, after any chunks, the input is the events read and the buffer held; the output is those events minus exactly the usage artifacts |
| `UsageTap.NothingHeldAtTheEnd` | src/corp_llm_gateway/route_gate/desanitize_middleware.py:593-624 | after the final chunk nothing is held, and the whole output does not depend on the cuts |
| `UsageTap.PassesOnceOver` | src/corp_llm_gateway/route_gate/desanitize_middleware.py:593-611 | once an open event passes the cap, what was held goes out and every later byte does |
| `UsageTap.UsageTap.ReadAll` | src/corp_llm_gateway/route_gate/desanitize_middleware.py:593-611 | the loop over the buffer reads exactly the complete events, at the end the open one too, and keeps all but the artifacts |
| `UsageTap.UsageTap.FeedSse` | src/corp_llm_gateway/route_gate/desanitize_middleware.py:593-611 | the object does what the function `Feed` says |
| `Response.ResponsesConform` | src/corp_llm_gateway/route_gate/desanitize_middleware.py:233-413 | in every run, with a close, a cut or an app failure at any await, the client sees a prefix of one start, bodies, one final body if and only if no app failure flushed a stream whose start had not gone out; no start after a start; the mapping is gone when a final body goes out |
| `Response.ConformsExactly` | src/corp_llm_gateway/route_gate/desanitize_middleware.py:277-341 | every run conforms if and only if a restorer that was fed nothing has nothing to flush |
| `Response.BodyBeforeStart` | src/corp_llm_gateway/route_gate/desanitize_middleware.py:332-333 | the condition of `ConformsExactly` is needed: for a restorer that holds tails before any event, which the gateway's adapters do not, a run of five steps sends a body with no start before it |
| `Response.FreshAdapterConforms` | src/corp_llm_gateway/sanitizer/streaming.py:466-529 | with an adapter that holds nothing when it is made, every run conforms |
| `Response.StreamIsRestoredWhole` | src/corp_llm_gateway/route_gate/desanitize_middleware.py:370-396 | an event stream, however cut, reaches the client as the whole stream restored at once, under its own status and headers without a length, and is ended |
| `Response.UnaryIsRestoredWhole` | src/corp_llm_gateway/route_gate/desanitize_middleware.py:343-368 | a JSON body is withheld until complete, then goes out restored, with its own length and the other headers, or a 500 does |
| `Response.PassesThrough` | src/corp_llm_gateway/route_gate/desanitize_middleware.py:243-275 | a response that is not restored reaches the client message by message as the app sent it, with its own status and headers; only a tapped stream that drops differs, in its content-length and by what the tap takes out |
| `Response.TapTakesOutArtifacts` | src/corp_llm_gateway/route_gate/desanitize_middleware.py:593-611 | below the cap, what a dropping tap lets out is the events of the whole stream minus the artifacts, however it was cut |
| `Response.TapGivesUp` | src/corp_llm_gateway/route_gate/desanitize_middleware.py:607-610 | past the cap, the open event and everything after it go out as they came |
| `Response.StreamWithoutRestorer` | src/corp_llm_gateway/route_gate/desanitize_middleware.py:318-331 | a stream no restorer can be made for is answered with a complete 500 and nothing of the stream |
| `Response.GivenUpStreamIsRestored` | src/corp_llm_gateway/route_gate/desanitize_middleware.py:277-300 | when the app raises in the middle of a stream the client has all of what it sent, restored as if it had ended there |
| `Response.LengthDeclared` | src/corp_llm_gateway/route_gate/desanitize_middleware.py:343-368 | the rewritten headers hold one content-length, the right one, and every other header |
| `Response.DrainedIsNew` | src/corp_llm_gateway/route_gate/desanitize_middleware.py:370-396 | what a drained restorer has ready after a chunk is exactly the text restored since the last one |
| `Response.ResponseObject.Send` | src/corp_llm_gateway/route_gate/desanitize_middleware.py:243-275 | a call of `send`, whatever the mode, is the function `OnMessage` |
| `Response.ResponseObject.SendStart` | src/corp_llm_gateway/route_gate/desanitize_middleware.py:302-341 | the object's start handling is the function `OnStart` |
| `Response.ResponseObject.SendPassed` | src/corp_llm_gateway/route_gate/desanitize_middleware.py:243-275 | passing a body through the tap object gives what `OnPass` says |
| `Response.ResponseObject.SendUnary` | src/corp_llm_gateway/route_gate/desanitize_middleware.py:343-368 | gathering and finishing a JSON body, against the function |
| `Response.ResponseObject.SendSse` | src/corp_llm_gateway/route_gate/desanitize_middleware.py:370-396 | feeding, flushing and draining the restorer object gives what `OnSse` says of the whole text |
| `Response.ResponseObject.AppFailed` | src/corp_llm_gateway/route_gate/desanitize_middleware.py:277-300 | flushing and draining the restorer object on an app failure gives what `OnAppFailed` says |
| `OffsetMap.ClusterEndLoop` | src/corp_llm_gateway/detectors/corp_ner.py:69-75 | the loop finds the end of a starter and its marks |
| `OffsetMap.ChunksCutSafely` | src/corp_llm_gateway/detectors/corp_ner.py:78-99 | the chunks tile the text; none ends before a combining mark, and a cut before a character that could compose is lossless |
| `OffsetMap.ChunkIsShortest` | src/corp_llm_gateway/detectors/corp_ner.py:78-99 | no cluster border inside a chunk is a safe cut, and there is none unless the second cluster could compose |
| `OffsetMap.Chunks` | src/corp_llm_gateway/detectors/corp_ner.py:78-99 | the two nested loops yield those chunks |
| `OffsetMap.BuildMap` | src/corp_llm_gateway/detectors/corp_ner.py:133-153 | a map is built exactly when the chunks normalise to the normalised text; its runs tile both texts, identity runs equal, changed runs one chunk each |
| `OffsetMap.MappedSpanIsNonEmpty` | src/corp_llm_gateway/detectors/corp_ner.py:118-130 | every non-empty span of the normalised text maps to a non-empty span within the text |
| `OffsetMap.MappedSpanIsExact` | src/corp_llm_gateway/detectors/corp_ner.py:118-130 | a character is in the mapped span if and only if the span touches it: a changed chunk whole, an identity run character by character |
| `OffsetMap.EveryCharacterInARun` | src/corp_llm_gateway/detectors/corp_ner.py:133-153 | every character of the text is in a run |
| `NerBatches.BodyIsCounted` | src/corp_llm_gateway/corp_ner/client.py:79-80 | the byte count kept while batching is the length of the serialised body |
| `NerBatches.BodyOnTheWire` | src/corp_llm_gateway/corp_ner/client.py:146-151 | the body is the bytes of an object with one array, its elements parted by commas |
| `NerBatches.CharsAreAll` | src/corp_llm_gateway/corp_ner/client.py:117-144 | the characters counted are those of all the texts |
| `NerBatches.GreedyIsFewest` | src/corp_llm_gateway/corp_ner/client.py:117-144 | under any limit that parts of a batch inherit, a split whose batches are full has the fewest batches of all order-preserving splits |
| `NerBatches.LimitsDecided` | src/corp_llm_gateway/corp_ner/client.py:126-138 | the counters decide exactly whether one more text fits a request within all three limits |
| `NerBatches.Place` | src/corp_llm_gateway/corp_ner/client.py:133-142 | one turn of the loop keeps the split greedy and the counters right |
| `NerBatches.Split` | src/corp_llm_gateway/corp_ner/client.py:117-144 | refused if and only if some text fits no request alone, a prefix having gone out; otherwise non-empty batches within the limits that concatenate to the input, as few as possible |
| `NerClient.ReadAnswer` | src/corp_llm_gateway/corp_ner/client.py:191-204 | what is accepted has the expected count and only spans with ordered offsets, known labels and known sources |
| `NerClient.ReadSpanExactly` | src/corp_llm_gateway/corp_ner/client.py:219-250 | a span is read from a dict if and only if it has its offsets, label and source, ordered and known, and its score as any number, null or left out |
| `NerClient.AnswerRoundTrip` | src/corp_llm_gateway/corp_ner/client.py:191-251 | every answer the contract allows is read back as it was meant |
| `NerClient.Analyze` | src/corp_llm_gateway/corp_ner/client.py:105-115 | one result per text in order, or none: that exactly when a text cannot be sent or a request is unanswered or answered off the contract |
| `NerClient.ResultOfText` | src/corp_llm_gateway/corp_ner/client.py:105-115 | the result for a text is the one at its place in the answer to its own request |
| `CorpNer.SpanBecomesFinding` | src/corp_llm_gateway/detectors/corp_ner.py:188-225 | a span within the text becomes a finding if and only if it is about something of the text, as every non-empty span is; its finding quotes the text, has its label and its score or 1.0, and covers exactly the characters it is about |
| `CorpNer.Findings` | src/corp_llm_gateway/detectors/corp_ner.py:188-225 | refused exactly when truncated, unmappable or past the end; otherwise disjoint findings that quote the text, each with the offsets of a span in a text in NFC form and else exactly the characters the span touches, its label by the table and its score or 1.0; every other span's finding overlaps one kept, of no lower priority if every score is a number |
| `CorpNer.DetectBatch` | src/corp_llm_gateway/detectors/corp_ner.py:163-185 | one list per text in order, blank texts empty and not sent, every other list an answer to its own text; any shortfall fails the batch |
| `CorpNer.AnswersQuote` | src/corp_llm_gateway/detectors/base.py:62-73 | the batch contract: offsets in bounds, the text quoted, findings disjoint |
| `Spans.MergeSpans` | src/corp_llm_gateway/detectors/regex_checksum.py:325-338 | ascending disjoint spans covering exactly the characters of the given ones, each given span inside one |
| `Spans.Deduplicate` | src/corp_llm_gateway/detectors/regex_checksum.py:412-423 | whatever the scores, sorted, pairwise disjoint findings from the input, each one removed overlapping a kept one; one of no lower priority, if every score is a number |
| `Spans.PriorityByScore` | src/corp_llm_gateway/detectors/regex_checksum.py:418-418 | the order of priority on numbers: the higher score, then the longer span, then the earlier one |
| `Spans.NotANumberHidesTheStronger` | src/corp_llm_gateway/detectors/regex_checksum.py:416-423 | of two overlapping findings with a score that is not a number between them, the weaker is kept if it comes first, and nothing kept beats the other |
| `Spans.WeakerFindingIsKept` | src/corp_llm_gateway/corp_ner/client.py:241-251 | the input: scores 0.5, NaN and 0.9, the first and the last over the same word; 0.5 is kept and 0.9 removed |
| `Checksums.LuhnOk` | src/corp_llm_gateway/detectors/regex_checksum.py:85-98 | the loop accepts exactly 13 to 19 digits with a sum divisible by ten |
| `Checksums.LuhnPlaces` | src/corp_llm_gateway/detectors/regex_checksum.py:85-98 | the last digit counts once, the one before it as the digits of its double, and so on by twos |
| `Checksums.LuhnCatchesSubstitution` | src/corp_llm_gateway/detectors/regex_checksum.py:85-98 | changing one digit of a valid number, of any length, makes it invalid, if and only if the digit changes |
| `Checksums.LuhnCatchesSwap` | src/corp_llm_gateway/detectors/regex_checksum.py:85-98 | swapping two neighbours keeps it valid if and only if they are equal or 0 and 9 |
| `Checksums.BankAccountKeyOk` | src/corp_llm_gateway/detectors/regex_checksum.py:184-189 | the loop accepts exactly 23 digits with a weighted sum divisible by ten |
| `Checksums.KeyPlaces` | src/corp_llm_gateway/detectors/regex_checksum.py:181-189 | the weights are 7, 1, 3 from the left and again |
| `Checksums.KeyCatchesSubstitution` | src/corp_llm_gateway/detectors/regex_checksum.py:175-189 | the account key catches every change of one digit |
| `Checksums.KeyCatchesSwap` | src/corp_llm_gateway/detectors/regex_checksum.py:175-189 | it misses a swap of neighbours if and only if they are equal or five apart |
| `Cards.WindowsAt` | src/corp_llm_gateway/detectors/regex_checksum.py:341-361 | all windows at one digit, and nothing else |
| `Cards.SpanHoldsItsDigits` | src/corp_llm_gateway/detectors/regex_checksum.py:341-361 | the span of a window runs from its first digit to its last and holds no other digit of the run |
| `Cards.CardCandidates` | src/corp_llm_gateway/detectors/regex_checksum.py:341-361 | ascending disjoint spans covering exactly the plausible, Luhn-valid windows at either end of the run, each window inside one span |
| `Cards.OffsetPointsAtDigit` | src/corp_llm_gateway/detectors/regex_checksum.py:341-361 | the offset of a digit points at that digit in the grouped text |
| `Extends.Resolver.VisitOne` | src/corp_llm_gateway/profiles/manifest.py:103-118 | the recursive visit, on the shared list and set, is the function `Visit`; it ends on every graph |
| `Extends.Resolver.ResolveExtends` | src/corp_llm_gateway/profiles/manifest.py:87-122 | resolving is the function `Resolve` |
| `Extends.VisitKeeps` | src/corp_llm_gateway/profiles/manifest.py:103-118 | a visit keeps the layers ordered, lists its profile and none of those being visited, or reports a real fault |
| `Extends.BasesComeFirst` | src/corp_llm_gateway/profiles/manifest.py:87-122 | a layer comes after everything it extends, directly or not |
| `Extends.SuccessListsTheReachable` | src/corp_llm_gateway/profiles/manifest.py:87-122 | success lists exactly the reachable profiles, once each; no chain is cyclic or ends in a missing profile; each has a chain within the limit |
| `Extends.FaultIsReal` | src/corp_llm_gateway/profiles/manifest.py:103-112 | a fault names a real chain from a root that ends in a missing profile, returns to itself, or is over the limit |
| `Extends.OrderlySucceeds` | src/corp_llm_gateway/profiles/manifest.py:87-122 | an acyclic, complete graph with all chains within the limit resolves |
| `Extends.DepthLimitExactly` | src/corp_llm_gateway/profiles/manifest.py:87-122 | the graph is orderly if and only if it resolves in every order of the roots and of each list; in the given order too where no profile is reached by two chains |
| `Extends.SharedChainEscapesTheLimit` | src/corp_llm_gateway/profiles/manifest.py:113-114 | a chain over the limit passes, or not, depending on the order of the roots |
| `Policy.IntersectProviders` | src/corp_llm_gateway/profiles/base.py:181-187 | the loop is the fold of meets, with no restriction as its identity |
| `Policy.UnionCanaries` | src/corp_llm_gateway/profiles/base.py:190-198 | the nested loops list first occurrences |
| `Policy.MergeFailPolicy` | src/corp_llm_gateway/profiles/base.py:205-217 | the loop gives the most closed of each policy |
| `Policy.LastWriter` | src/corp_llm_gateway/profiles/base.py:220-225 | the last value that is set, none if none is |
| `Policy.MergeLayers` | src/corp_llm_gateway/profiles/base.py:71-91 | merging with the loops is the function `Merge` |
| `Policy.GroupingIsFree` | src/corp_llm_gateway/profiles/base.py:71-91 | layers merged in non-empty groups, and the results merged, give the merge of all |
| `Policy.MergeIsAbove` | src/corp_llm_gateway/profiles/base.py:71-91 | the merge is as strict as each layer in every security knob |
| `Policy.MergeIsLeast` | src/corp_llm_gateway/profiles/base.py:71-91 | whatever is as strict as each layer is as strict as the merge |
| `Policy.MergeTakesTheWidestMode` | src/corp_llm_gateway/profiles/base.py:162-178 | the merged mode is the first among those that cover most: unknown, gazetteer hits, samples by their share, local findings, everything; a sample of all or nothing under its plain name |
| `Policy.AddingALayerTightens` | src/corp_llm_gateway/profiles/base.py:71-91 | a layer added anywhere loosens no security knob |
| `Policy.OverTheDefaults` | src/corp_llm_gateway/profiles/base.py:79-80 | a merge of layers is as strict as the defaults if and only if some threshold is no higher, some buffer policy closed and some mode known |
| `Policy.CanonicalOnce` | src/corp_llm_gateway/profiles/base.py:144-159 | a canonical oracle mode stays as it is |
| `Bundle.BuildDetectors` | src/corp_llm_gateway/profiles/registry.py:70-86 | refused exactly for an unknown name; otherwise each name once, in order, its detector at its place |
| `Bundle.Terms` | src/corp_llm_gateway/profiles/file_loader.py:107-111 | a term has the label of the most specific layer that has it |
| `Bundle.SpecificIsLast` | src/corp_llm_gateway/profiles/file_loader.py:107-111 | that layer is the last one with the term |
| `Bundle.ListedHolds` | src/corp_llm_gateway/profiles/file_loader.py:97-103 | the names listed are those of some layer, without repeats |
| `Bundle.RulesInOrder` | src/corp_llm_gateway/profiles/file_loader.py:106-106 | all rules of all layers in the order of the layers |
| `Bundle.BuildBundle` | src/corp_llm_gateway/profiles/file_loader.py:91-132 | refused for no layers or an unknown detector; otherwise names aligned with detectors, rules in order, terms, allow-list, merged policy and ids |
| `Bundle.TermsWithOneMore` | src/corp_llm_gateway/profiles/file_loader.py:107-111 | one more layer drops no term, and relabels only terms it has and no more specific layer has |
| `Bundle.OneMoreLayer` | src/corp_llm_gateway/profiles/file_loader.py:91-132 | one more layer, anywhere, adds exactly its detectors, rules and allow-list entries and loosens no knob |
| `Dedup.Extend` | src/corp_llm_gateway/profiles/file_loader.py:97-120 | the list-and-seen loop appends first occurrences |
| `Dedup.FreshLists` | src/corp_llm_gateway/profiles/base.py:190-198 | the result lists exactly what came in, without repeats, what was there staying in place |
| `Dedup.FreshIsFirsts` | src/corp_llm_gateway/profiles/base.py:190-198 | exactly the list as it was, and after it each new value at its first place, in order |
| `RulesCache.CachedRulesLoader.Call` | src/corp_llm_gateway/rules/cached.py:35-40 | the first check serves a live entry and changes nothing, or fetches the team's lock |
| `RulesCache.CachedRulesLoader.LockTaken` | src/corp_llm_gateway/rules/cached.py:40-44 | the second check under the lock: served and given back, or held for the load |
| `RulesCache.CachedRulesLoader.LoadEnded` | src/corp_llm_gateway/rules/cached.py:44-46 | the entry is stored with its expiry and the lock freed |
| `RulesCache.CachedRulesLoader.LoadFailed` | src/corp_llm_gateway/rules/cached.py:41-44 | the lock is freed and no entry changes |
| `RulesCache.RunInvariant` | src/corp_llm_gateway/rules/cached.py:35-55 | the invariant holds in every state of every interleaving |
| `RulesCache.OneLoadPerTeam` | src/corp_llm_gateway/rules/cached.py:40-46 | at most one inner load per team is under way |
| `RulesCache.ServedFreshLoadsApart` | src/corp_llm_gateway/rules/cached.py:35-46 | a cached value is that of a load of the team that finished less than the ttl before; a load begins at the earliest the ttl after every earlier finish |
| `RulesCache.CallDecides` | src/corp_llm_gateway/rules/cached.py:35-46 | in every run, a call, and one that gets the lock, is served at once if and only if a load of its team finished less than the ttl ago; else it goes to the lock, or begins a load |
| `RulesCache.FailureFreesTheLock` | src/corp_llm_gateway/rules/cached.py:41-44 | a failed or cancelled load leaves every entry and frees the lock for whoever waits |
| `RulesCache.WaitsOnlyForALoad` | src/corp_llm_gateway/rules/cached.py:40-46 | a waiting call can go on if and only if no load of its team is under way |
| `IssueGate.TokenBucket.Take` | src/corp_llm_gateway/healthz/server.py:86-93 | refill, cap and take, against the function `Taken` |
| `IssueGate.MinuteRefills` | src/corp_llm_gateway/healthz/server.py:76-93 | an empty bucket is full again after a minute and not before |
| `IssueGate.Gate.Arrive` | src/corp_llm_gateway/healthz/server.py:190-200 | the cap is looked at before the bucket; who is refused for it changes nothing |
| `IssueGate.Gate.Leave` | src/corp_llm_gateway/healthz/server.py:200-204 | the counter goes down however the request ends |
| `IssueGate.TakeStaysInBudget` | src/corp_llm_gateway/healthz/server.py:86-93 | one take keeps what was let through and what is left within a full bucket and the inflow |
| `IssueGate.AdmissionsAreBounded` | src/corp_llm_gateway/healthz/server.py:76-93 | in any window of any run at most the capacity plus the inflow of the window is let through |
| `IssueGate.AdmissionIsExact` | src/corp_llm_gateway/healthz/server.py:86-93 | in any run, a request the cap does not refuse is let through if and only if one more keeps to that bound over every window that ends with it |
| `IssueGate.CounterIsExact` | src/corp_llm_gateway/healthz/server.py:190-204 | the counter is the number of requests being served and never over the cap; the tokens stay between nothing and the capacity |
| `IssueGate.BusySpendsNothing` | src/corp_llm_gateway/healthz/server.py:193-196 | a request refused for the cap spends no token |
| `NeverTheorems.WalkAgrees` | src/corp_llm_gateway/audit/invariants.py:109-127 | the walk passes a record if and only if, by paths, no NEVER name is read as a field name at any depth and every guardrail field holds an allow-listed value |
| `NeverTheorems.ValuesAgree` | src/corp_llm_gateway/audit/invariants.py:130-146 | under a data-keyed field only the keys of that one dict are exempt |
| `NeverTheorems.GuardrailAgrees` | src/corp_llm_gateway/audit/invariants.py:149-195 | the guardrail check passes exactly the allow-list; the walk it starts with refuses nothing on the list |
| `NeverTheorems.WalkNamesTheKey` | src/corp_llm_gateway/audit/invariants.py:109-127 | a key reported as NEVER is in the record, read as a field name |
| `NeverTheorems.EverySpellingIsRefused` | src/corp_llm_gateway/audit/invariants.py:105-127 | a field that may never be recorded is refused and named however it is spelled |
| `NeverTheorems.SerializedEventPasses` | src/corp_llm_gateway/audit/logger.py:13-51 | the gate passes the serialisation of every audit event |
| `NeverTheorems.SerializedFieldIsRead` | src/corp_llm_gateway/audit/logger.py:18-51 | every set field of an event is read back from its record under its name, and the record holds no other |

## Left out

- The integration with LiteLLM, headers, metrics, logging, timestamps and latency and usage deposits of `litellm_hook.py`: plumbing around the protocol.
- Of a request's state, all but its ticket, its user and its redaction count: team, provider, model, labels, cache flag, block reason and profiles travel the same way.
- The sanitizer engine, the placeholder allocator, the stream adapters and JSON restoring: parameters that may fail.
- An app that goes on sending after one of its sends was cut short: it may raise, but it sends no more.
- Response.ResponsesConform: does not model a mapping registered after the start of the response, which `ResponseMappings.register` accepts for any open ticket; a pre-call comes before the response it is for.
- The in-flight limiter and the terminal-audit module of the route gate: tickets are abstract.
- Collection of tickets held by weak reference: a ticket stays until it is closed.
- The JSON half of the usage tap, which reads and never changes bytes.
- UTF-8 decoding, Unicode tables and case folding: the models start from decoded text, with the normaliser, the combining test and the folding as parameters.
- Digits other than the ASCII ones in the checksums and card runs.
- The regex tables of `regex_checksum.py` and of the payload classifier, and the patterns that find candidate runs.
- The HTTP exchange of the NER client: the service is a function from a request, with its number, to an answer or none.
- The reading of oracle mode strings (`Policy.Reader`), TOML manifests, gazetteer files, content hashes and signatures.
- The fairness of asyncio locks: any waiting call may take a free lock, which allows more runs than asyncio does.
- Floating-point rounding and overflow: the clock, the bucket and finite scores are real numbers.
- `asgi.py`, `serve.py`, `bootstrap.py`, settings, configuration and the command-line tools: boot sequence, environment and files.
- `pg_session.py`: it rests on private behaviour of asyncpg.
- `profiles/cached.py`: the algorithm of `rules/cached.py` again.
- `payload/quota.py`, the provider and extension registries, `route_gate/classify.py` and `audit/retention.py`: short lookups that would only add easy members.
