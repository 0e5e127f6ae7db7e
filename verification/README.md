# Verification of the coordination kernel

A Dafny model of the parts of this repository that decide *what happens in which order*: the
per-agent run scheduler and everything that is layered on it, the at-most-once send path, the wire
protocols, the multi-device store, and a few bounded protocols at the edges. `dafny verify
dfyconfig.toml` checks the whole project.

## How it is modelled

A stretch of code between two suspension points (an `await`, a timer, a microtask, a callback) is
one *step*. Each core has

* a value-level state machine (`Act`/`Allowed`/`Perform` or `Action`/`Enabled`/`Next`, and `Exec`
  for whole runs): calls, timers, lost answers, crashes and other clients are steps that may come
  in any order. Where a step is not possible, `Exec` either skips it or has no result; the main
  results are about every run that exists;
* an invariant kept by each step, and the results about all runs drawn from it;
* where the program updates objects, a class with the program's fields, whose methods are proved to
  take the steps of the machine. Most contracts equate the object's view with the step. Where an
  object holds only a part of the machine's state, or holds it in another form, as
  `AgentMessaging.Messaging`, `StoreSync.Backend`, `Supersede.SessionRuntime` and
  `Terminal.Terminal` do, a ghost argument gives a machine state, and the contract says that an
  object agreeing with that state before the call agrees with the state after the step.

Modules build on one another: `RunLifecycle`, `AgentMessaging` and `Supersede` all run on
`RunScheduler`'s machine, `MessageOrder` is the second half of `AgentMessaging`'s results, and
`GatewaySend` talks to `AcceptanceLedger`'s. `Prelude`, `Text` and
`Utf8` hold shared vocabulary.

Assumptions, all of them parameters or free steps of the model: a task's timers do not fire before
its own start microtask has run, which is all that is assumed about their order (a timer may
overtake a queued pump or a settling callback, which only adds runs; the runs exhibited as failures
have no such microtask left when a timer fires); clocks are inputs (monotone where a result says
so); a file is one value written whole; JSON is an injective codec whose texts contain no line break
and have no white space at their ends; lower-casing is a parameter; numbers in transcript ids are
doubles, and how they are printed is a parameter that must be readable below 10^21.

## What the code does not do

Some stronger statements, made by comments or easily assumed, are false of the code. For each, one
lemma gives a run or an input that shows it, and another says exactly when the statement does hold.

* *An idle agent with waiting work is always pumped.* A watchdog escape frees the slot without
  queueing a pump, so waiting work stands still behind a zombie (`StallIsReachable`,
  `EscapeStallsExactlyWhen`).
* *`drain` waits for everything known at the call to settle.* A task that is pending at the call is
  awaited only to its caller-facing promise, which an escape resolves early. The statement can be
  relied on exactly when nothing waits at the call, or the scheduler is disposed
  (`DrainLeavesATurnRunning`, `DrainSettlesAllExactlyWhen`).
* *The in-flight count equals the tracked tasks.* It drops when the body ends, the scheduler
  forgets the task a microtask later (`CountFallsShort`, `InFlightCountTracksScheduler`).
* *An aborted wake re-drives the remaining messages at least once.* A message that was re-driven
  before is dropped by the next abort at or before it, even if it never had a turn
  (`AMessageCanLeaveUnrun`, `AbortKeepsAllExactlyWhen`).
* *A queued message always has a reviver.* Not after its wake task has escaped, nor after a failed
  transcript append (`AMessageCanBeStranded`, `StrandsExactlyWhen`).
* *A nonce that is recorded stays recorded.* `clear` before the first load writes an empty ledger
  (`ClearBeforeLoadForgets`, `ClearKeepsOthersExactlyWhen`).
* *The retry goes to a base that is proven to deduplicate.* The proof is looked up for the base of
  the first attempt only, and not at all if that attempt had none (`RetryMayReachAnUnprovenBase`,
  `RetryIsProvenExactlyWhen`). Whether one call can be accepted twice depends on whether the bases
  share a ledger (`OneSendIsAcceptedOnceExactlyWhen`).
* *Conflicting updates are merged without loss.* The default merge keeps the local value. Nothing is
  lost exactly when merge is above both of its arguments (`DefaultMergeLosesAnUpdate`,
  `NothingIsLostExactlyWhen`, `DefaultMergeKeepsExactlyWhen`).
* *The mutation lock excludes.* Two sections whose grants both run are never inside together, unless
  a section outlives its grant and then leaves over another section of the same owner id
  (`SharedOwnerBreaksExclusion`, `ExclusionFailsExactlyWhen`). A section whose grant has run out is
  not counted there, and need not be alone (`AnOverrunLetsTheNextIn`, `OneIsInsideExactlyWhen`).
* *A new entry id is new.* Not when adding one to the turn's highest number makes no difference,
  which starts at 2^53, nor when the turn does not print readably (`FreshnessFailsAtSafe`,
  `FreshExactlyWhen`, `FreshExactlyForReadableTurns`).
* *A terminal viewer that attaches sees the replay.* The replay is bounded as UTF-8, the viewer's
  queue as JSON, which can be six times as long (`ReplayCanTurnEveryoneAway`,
  `NewcomerStaysExactlyWhen`).
* *A scheduled automation fires once in its minute.* A failing dispatch is repeated
  (`FailureFiresTwiceInAMinute`, `RefiresExactlyWhenUnrecorded`).
* *Closing a pane takes only that pane's room away.* Closing the main pane may bring its room back
  in place of another (`AClosedRoomComesBack`, `CloseRemovesItsRoomExactlyWhen`).
* *Closing a pane loses no typed text.* Closing the main pane loses that of the pane that moves up
  (`ADraftIsLost`, `CloseKeepsDraftsExactlyWhen`).

Two comments differ from their code; the model follows the code: ids of notices carry the letter
`s` although the comment at packages/state/src/transcript.ts:119-121 gives them `n`, and a shared
room's limit of 24 messages (packages/messaging/src/group-chat.ts:9) can never take effect in a run
that posts at most 10.

## Model

| member | source | states |
|---|---|---|
| RunScheduler.EveryTaskIsInOnePlace | packages/core/src/run-scheduler.ts:121-311 | in every reachable state each enqueued task is waiting in one lane, active, a zombie or settled, and only one of these; tasks are orphaned only by `dispose` |
| RunScheduler.RunsAreOrderedAndExclusive | packages/core/src/run-scheduler.ts:250-293 | over every run: each lane is first in, first out; no dispatch overtakes a higher lane; no task starts twice; two bodies overlap only if one has escaped |
| RunScheduler.QueueFollowsActions | packages/core/src/run-scheduler.ts:121-311 | over every run, told by its actions alone: numbering and lanes of tasks, which have settled, escaped, started, finished or are in grace, whose callers are released, and how many pumps are on their way |
| RunScheduler.StallsOnlyBehindZombies | packages/core/src/run-scheduler.ts:164-165 | no lost wake-up: if nothing is active, work waits and no pump is queued, there is a live zombie, and its settling or any enqueue queues a pump |
| RunScheduler.EscapeStallsExactlyWhen | packages/core/src/run-scheduler.ts:300-309 | exactly which step stalls a queue: an escape of the active task while other work waits and no pump is left over |
| RunScheduler.StallIsReachable | packages/core/src/run-scheduler.ts:295-311 | a run that ends with work waiting, nothing active and no pump queued |
| RunScheduler.PositionIsPlaceInDispatchOrder | packages/core/src/run-scheduler.ts:150-163 | the position reported at enqueue is the task's place in the order in which pumps dispatch |
| RunScheduler.DrainMeaning | packages/core/src/run-scheduler.ts:169-182 | a drain has resolved iff every task active or escaped at the call has settled and every task pending then has settled or escaped |
| RunScheduler.DrainSettlesAllExactlyWhen | packages/core/src/run-scheduler.ts:169-182 | every continuation in which a drain resolves settles everything known at the call, iff nothing waits at the call or the scheduler is disposed |
| RunScheduler.DrainLeavesATurnRunning | packages/core/src/run-scheduler.ts:169-182 | a run in which a drain resolves while a turn known at the call is still running |
| RunScheduler.Scheduler.EnqueueTask | packages/core/src/run-scheduler.ts:121-167 | takes the enqueue step on one agent's queue, reports the position, leaves other agents alone |
| RunScheduler.Scheduler.PumpTask | packages/core/src/run-scheduler.ts:250-267 | takes the pump step |
| RunScheduler.Scheduler.SettleTask | packages/core/src/run-scheduler.ts:269-292 | takes the settling step of an active or escaped task |
| RunScheduler.Scheduler.WatchdogTimer | packages/core/src/run-scheduler.ts:295-300 | takes the watchdog step |
| RunScheduler.Scheduler.GraceTimer | packages/core/src/run-scheduler.ts:300-309 | takes the escape step |
| RunScheduler.Scheduler.DisposeAll | packages/core/src/run-scheduler.ts:226-234 | takes the dispose step on every queue |
| RunLifecycle.WindowsAreTheWindows | packages/core/src/run-lifecycle.ts:48-72 | the listed windows are precisely the maximal stretches of a history with a run open, in order |
| RunLifecycle.OpenWindowIsHeld | packages/core/src/run-lifecycle.ts:48-56 | count, start time and sources held are those of the window open at the end of the history |
| RunLifecycle.OneCompletionPerWindow | packages/core/src/run-lifecycle.ts:58-72 | one completion per maximal window, in order, with its start time and exactly the sources begun in it |
| RunLifecycle.InFlightCountTracksScheduler | packages/core/src/run-lifecycle.ts:130-151 | attached to the scheduler: the count falls short of pending + active + zombie tasks by exactly the finished but unsettled ones; equality iff there is none; one completion per window of the run |
| RunLifecycle.AttachedRunIs | packages/core/src/run-lifecycle.ts:130-151 | the windows of a run are those of its submissions and finished bodies, under their own sources and times; the scheduler runs as if nothing were attached |
| RunLifecycle.CountFallsShort | packages/core/src/run-lifecycle.ts:139-146 | a run with a count of zero and an active task |
| RunLifecycle.BeginIsMark | packages/core/src/run-lifecycle.ts:48-56 | over the maps of all agents, beginning a run is the begin step of that agent and of no other |
| RunLifecycle.EndIsMark | packages/core/src/run-lifecycle.ts:58-72 | over the maps of all agents, ending a run is the end step of that agent and of no other |
| RunLifecycle.Lifecycle.BeginSessionRun | packages/core/src/run-lifecycle.ts:48-56 | opens a window at count zero, adds the source and counts, in the maps `BeginIsMark` speaks of |
| RunLifecycle.Lifecycle.EndSessionRun | packages/core/src/run-lifecycle.ts:58-72 | counts down, or closes the window and reports it, in the maps `EndIsMark` speaks of |
| AgentMessaging.MergeIsStable | packages/messaging/src/agent-messaging.ts:254-263 | merging inserts the deferred batch unchanged between queued priority and queued rest, keeping the order of both |
| AgentMessaging.MessagesAreConserved | packages/messaging/src/agent-messaging.ts:121-252 | over every run a sent message is in the system once or has left once; it runs at most twice and gets at most one transcript entry |
| AgentMessaging.MessagesLeaveForAReason | packages/messaging/src/agent-messaging.ts:178-252 | over every run a message has left with a fate iff a step of the run made it: its turn ended un-aborted, its batch threw, the recipient was missing, an append of its batch failed, or an abort at or before it found it handed back before; what left as delivered has completed a turn it had begun |
| AgentMessaging.WakesAreBounded | packages/messaging/src/agent-messaging.ts:158-252 | N sends cause at most 2N wakes and 2N turns, by the weight 2 per fresh and 1 per re-driven message |
| AgentMessaging.LedgerStep | packages/messaging/src/agent-messaging.ts:158-263 | each step keeps the balance of sent, present and departed messages, and the turns and entries still possible |
| AgentMessaging.QueueIsOrderedAndRevived | packages/messaging/src/agent-messaging.ts:158-176 | reachable queues have priority messages first, prioritizing is the identity on them, and messages wait without a reviver only after an escape or a failed append |
| AgentMessaging.StrandsExactlyWhen | packages/messaging/src/agent-messaging.ts:158-252 | exactly which steps leave messages without a reviver |
| AgentMessaging.AMessageCanBeStranded | packages/messaging/src/agent-messaging.ts:158-252 | a run that ends with a message queued and no reviver |
| AgentMessaging.AbortKeepsAllExactlyWhen | packages/messaging/src/agent-messaging.ts:231-243 | an abort drops nothing iff no remaining message was re-driven before |
| AgentMessaging.AMessageCanLeaveUnrun | packages/messaging/src/agent-messaging.ts:231-243 | a run in which a sent message leaves without ever having had a turn |
| MessageOrder.MessagesWaitInOrder | packages/messaging/src/agent-messaging.ts:129-176 | over every run, in the queue, in the batch the reviver has taken and in every wake: new priority messages first, latest first, then handed-back priority ones, handed-back others, and new others, earliest first; each with the priority it was sent with; what was handed back or had a turn has a transcript entry |
| MessageOrder.TurnsBeginExactlyWhen | packages/messaging/src/agent-messaging.ts:210-243 | turns begin one at a time and in batch order: the next begins iff the one before ended un-aborted and no priority message waits |
| MessageOrder.QueueChangesExactly | packages/messaging/src/agent-messaging.ts:121-263 | what each step of a run puts into the queue, and that a reviver takes all of it |
| MessageOrder.HistoriesAreRight | packages/messaging/src/agent-messaging.ts:191-243 | which turns count as completed, which messages get a transcript entry and which an abort hands back, step by step |
| MessageOrder.QueueIsTheSchedulers | packages/messaging/src/agent-messaging.ts:206-251 | the recipient's run queue is what the scheduler makes of the run's actions, wakes being tasks of the agent lane |
| AgentMessaging.Messaging.TakeNextBatch | packages/messaging/src/agent-messaging.ts:158-176 | the reviver's loop head: next prioritized batch, or the reviver is gone; the machine's `Resume` |
| AgentMessaging.Messaging.SendQueued | packages/messaging/src/agent-messaging.ts:121-136 | the queue after a send, and the batch a new reviver takes at once; the machine's `Send` |
| AgentMessaging.Messaging.YieldToPriority | packages/messaging/src/agent-messaging.ts:213-225 | hands the rest of a batch back iff a priority message waits, as the machine's `TurnEnds` does |
| AgentMessaging.Messaging.RedriveRest | packages/messaging/src/agent-messaging.ts:231-242 | hands back what was not re-driven before, as the machine's `GoneAnswered` does |
| Supersede.WaitingTurnsAreNewer | packages/runner/src/session-runtime.ts:204-227 | when a turn starts, the user lane holds exactly the turns of higher epoch, in increasing order |
| Supersede.SkippedExactlyWhenSuperseded | packages/runner/src/session-runtime.ts:218-227 | a turn skips itself iff a newer one waits behind it; one with nothing behind it reaches the runner |
| Supersede.PromptsAreRecordedOnce | packages/runner/src/session-runtime.ts:175-228 | each prompt is in the transcript once iff its append went through, has at most one turn, and a nonce has one send under way |
| Supersede.SendsFollowTheirSteps | packages/runner/src/session-runtime.ts:190-228 | over every run, told by its steps alone: which prompts are in the transcript, in which order, which have a turn, which sends are over and how; the queue is the scheduler's |
| Supersede.NoncesAreHeldWhileUnderWay | packages/runner/src/session-runtime.ts:175-188 | over every run a nonce is held iff a send with it is not over |
| Supersede.PromptMergesExactlyWhen | packages/runner/src/session-runtime.ts:175-188 | a call is merged into a send under way with its nonce, and starts a new send iff there is none |
| Supersede.ARetryIsANewSend | packages/runner/src/session-runtime.ts:180-186 | a run in which a failed prompt is sent again under its nonce as a new send |
| Supersede.SessionRuntime.SendUserPrompt | packages/runner/src/session-runtime.ts:175-188 | a duplicate nonce is merged into the send under way, another call starts a new one; the machine's `Prompt` |
| Supersede.SessionRuntime.SendSettles | packages/runner/src/session-runtime.ts:183-186 | a send that ends gives its nonce back and no other; the machine's `Answered` and `Failed` |
| Supersede.SessionRuntime.BumpAndEnqueue | packages/runner/src/session-runtime.ts:204-227 | bumps the agent's epoch and queues its turn on the user lane in one step; the machine's `Bump` |
| Sse.ChunkingIsIrrelevant | packages/transport/src/sse.ts:121-142 | what is handed out and what is kept depend only on the concatenation of the chunks; what is kept has no blank line |
| Sse.RoundTrip | packages/transport/src/sse.ts:121-157 | for any hints, heartbeats and events as the server writes them (526-541) and any chunking, the client receives exactly the subscribed events, in order, and its buffer ends empty |
| Sse.StreamDecodes | packages/transport/src/sse.ts:526-541 | the same of the undivided stream |
| Sse.BlockIsDecoded | packages/transport/src/sse.ts:144-159 | a block's event is decoded from what its data lines carry, joined by line feeds, whatever other fields it has; without a data line or a channel there is none |
| Sse.SseBlockDecoder.Push | packages/transport/src/sse.ts:126-141 | the decoding loop drains the buffer and hands out the trimmed blocks that are neither empty nor comments |
| AcceptanceLedger.AdmissionMeansFirstSight | packages/state/src/acceptance-ledger.ts:95-121 | across restarts an admission is first sight iff the nonce was not admitted since last cleared; otherwise it compares digests |
| AcceptanceLedger.AcceptedOnceBetweenClears | packages/state/src/acceptance-ledger.ts:95-121 | a nonce is accepted at most once between clears |
| AcceptanceLedger.DigestIsStable | packages/state/src/acceptance-ledger.ts:109-147 | a recorded nonce keeps its record's digest while it is not cleared, across marks, other sends and restarts |
| AcceptanceLedger.RecordTellsItsOperations | packages/state/src/acceptance-ledger.ts:77-153 | across restarts the record of a nonce, in memory or in the file, is what the admissions, marks and clears of that nonce make of it |
| AcceptanceLedger.ClearKeepsOthersExactlyWhen | packages/state/src/acceptance-ledger.ts:149-153 | a clear keeps every other nonce iff the ledger was loaded or the file held no other |
| AcceptanceLedger.ClearBeforeLoadForgets | packages/state/src/acceptance-ledger.ts:149-153 | a run in which a nonce is accepted twice because another was cleared before the first load |
| AcceptanceLedger.AcceptanceLedger.LoadFile | packages/state/src/acceptance-ledger.ts:77-91 | reads the file once |
| AcceptanceLedger.AcceptanceLedger.AdmitSend | packages/state/src/acceptance-ledger.ts:95-121 | answers first sight, duplicate or mismatch, and records the first sight |
| AcceptanceLedger.AcceptanceLedger.MarkAcceptedNonce | packages/state/src/acceptance-ledger.ts:124-132 | changes one record's state and writes the file |
| AcceptanceLedger.AcceptanceLedger.MarkRejectedNonce | packages/state/src/acceptance-ledger.ts:135-147 | changes one record's state and writes the file |
| AcceptanceLedger.AcceptanceLedger.ClearNonce | packages/state/src/acceptance-ledger.ts:150-153 | forgets one nonce and writes what is in memory |
| AcceptanceLedger.AcceptanceLedger.Reboot | packages/state/src/acceptance-ledger.ts:71-80 | a restart keeps the file and nothing else |
| GatewaySend.GatewayClient.SendPrompt | packages/transport/src/sse.ts:210-235 | over any calls: a second attempt is made iff the first failed without an answer, the nonce is not empty, the client is open, and the first never left or went to a base that has answered `accepted` by then; what is posted and answered |
| GatewaySend.GatewayClient.AttemptSend | packages/transport/src/sse.ts:237-284 | one attempt; over any calls the bases held as proven are exactly those that answered `accepted` |
| GatewaySend.OneSendIsAcceptedOnceExactlyWhen | packages/transport/src/sse.ts:210-235 | for the posts of one call and any ledgers behind the bases: in no world, whatever arrives and whatever else the ledgers do, is the call accepted twice, iff it makes at most one post or both go to bases that share a ledger |
| GatewaySend.RepeatIsRecognized | packages/state/src/acceptance-ledger.ts:95-121 | a ledger that gets both requests takes the second for a repeat, whatever it is asked in between |
| GatewaySend.RetryIsProvenExactlyWhen | packages/transport/src/sse.ts:215-233 | for any nonce and first attempt, every posted retry goes to a proven base iff the rule does not retry or all bases that connecting can give are proven |
| GatewaySend.RetryMayReachAnUnprovenBase | packages/transport/src/sse.ts:215-233 | the retry can be posted to a base nothing has proven to deduplicate |
| StoreSync.VersionsFormAChain | packages/state/src/agent-store-sync.ts:63-85 | over any interleaving each version is a mutation of, or a merge with, the one just before it |
| StoreSync.WritesHappenExactlyWhen | packages/state/src/agent-store-sync.ts:63-85 | over any interleaving every read finds the current version, a write happens iff nothing was written since its read, and the call then ends or goes on to its merge, whose failure ends it |
| StoreSync.NoLostUpdate | packages/state/src/agent-store-sync.ts:63-85 | with inflationary mutations and a merge above both arguments, the stored value is above what every successful call returned and above what its caller had made of the value it read |
| StoreSync.NothingIsLostExactlyWhen | packages/state/src/agent-store-sync.ts:63-85 | over all runs nothing acknowledged is lost iff merge is above both of its arguments |
| StoreSync.DefaultMergeKeepsExactlyWhen | packages/state/src/agent-store-sync.ts:59 | the default merge loses nothing iff all values are below one another |
| StoreSync.DefaultMergeLosesAnUpdate | packages/state/src/agent-store-sync.ts:59-85 | with the default merge one of two acknowledged additions is gone |
| StoreSync.LockExcludes | packages/state/src/agent-store-sync.ts:88-100 | whatever the owner ids, over every run in which no section leaves over another of its owner, no two unexpired sections overlap |
| StoreSync.TimelySectionsExclude | packages/state/src/agent-store-sync.ts:88-100 | so it is over every run in which each section leaves while its grant runs |
| StoreSync.DistinctOwnersExclude | packages/state/src/agent-store-sync.ts:88-100 | and over every run in which each granted call has its own owner id |
| StoreSync.ExclusionFailsExactlyWhen | packages/state/src/agent-store-sync.ts:131-143 | all runs after a step that have no disowning leave stay exclusive, iff the step is no such leave itself: one over another unexpired section of its owner |
| StoreSync.CoverFailsExactlyWhen | packages/state/src/agent-store-sync.ts:131-143 | that step is the only one that breaks exclusion together with the lock covering the running section |
| StoreSync.SharedOwnerBreaksExclusion | packages/state/src/agent-store-sync.ts:140-143 | a run with two unexpired sections inside |
| StoreSync.OneIsInsideExactlyWhen | packages/state/src/agent-store-sync.ts:88-100 | of all sections, over every run without a disowning leave: at most one is inside iff each that has overrun its grant is alone |
| StoreSync.AnOverrunLetsTheNextIn | packages/state/src/agent-store-sync.ts:131-139 | a run with no such leave and an overrun section inside beside the next one |
| StoreSync.Backend.Get | packages/state/src/agent-store-sync.ts:114-118 | reads a resource, dropping an expired lock; the machine's current etag and value |
| StoreSync.Backend.PutIf | packages/state/src/agent-store-sync.ts:119-130 | writes iff the expected etag is current, under a fresh etag, as the machine does |
| StoreSync.Backend.TryLock | packages/state/src/agent-store-sync.ts:131-139 | grants iff no unexpired lock is held; the machine's `Acquire` |
| StoreSync.Backend.Unlock | packages/state/src/agent-store-sync.ts:140-143 | releases the lock of that owner id only; the machine's `Leave` |
| Port.ServerKeepsProtocol | packages/transport/src/port.ts:49-138 | for any input the server posts a prefix of `(ready (reply or event)*)? shutdown?`, and nothing after settling |
| Port.NewServerOk | packages/transport/src/port.ts:49-55 | a new server is a state to which `ServerKeepsProtocol` applies |
| Port.RepliesMatchRequests | packages/transport/src/port.ts:151-280 | over every session a promise is settled or pending, never both; request k settles only by the outcome of the dispatch of request k; no request made before settlement stays outstanding after it |
| Port.DispatchesAreTheRequests | packages/transport/src/port.ts:101-113 | every dispatch under way is the request of that number, under its method, once |
| Port.SessionsEndExactlyWhen | packages/transport/src/port.ts:49-280 | over every session the client has ended iff it was closed or took a shutdown or a malformed frame; the server iff the channel was cut or it took a goodbye or a breach; when either is ready, and when the server ended cleanly |
| Port.RequestsAreServedExactlyWhen | packages/transport/src/port.ts:72-113 | a request the server has taken is dispatched iff nothing up to it has ended the server; a finished dispatch is answered while the server listens; the channel carries the requests asked for, in order |
| Port.StepSettlesExactlyWhen | packages/transport/src/port.ts:101-273 | a pending promise settles at a step iff its reply arrives, its time runs out or the step ends the client's session, which rejects all; and what the server posts at the step |
| Port.AnEarlyRequestEndsBoth | packages/transport/src/port.ts:92-97 | a run in which a request before the hello ends both sides and rejects its promise |
| Port.ARequestIsAnswered | packages/transport/src/port.ts:101-113 | a run in which a request is answered |
| Port.PromisesSettleOnce | packages/transport/src/port.ts:221-249 | a settled promise never changes |
| Port.PortServer.HandleMessage | packages/transport/src/port.ts:72-99 | takes the server's receive step, including the three breaches |
| Port.PortServer.FinishRequest | packages/transport/src/port.ts:101-113 | posts the reply unless settled |
| Port.PortServer.Publish | packages/transport/src/port.ts:119-126 | posts an event when ready and not settled |
| Port.PortClient.SettleSession | packages/transport/src/port.ts:165-173 | settles once and rejects every pending request |
| Port.PortClient.HandleMessage | packages/transport/src/port.ts:175-219 | takes the client's receive step |
| Port.PortClient.SendRequest | packages/transport/src/port.ts:221-249 | numbers, records and posts a request |
| Port.PortClient.Expire | packages/transport/src/port.ts:225-230 | a time-out rejects a request that is still pending |
| Port.PortClient.Close | packages/transport/src/port.ts:263-273 | says goodbye if ready, then settles |
| CrossUserRelay.BudgetAndBackoffHold | packages/messaging/src/cross-user-relay.ts:82-112 | under a monotone clock every half-open interval of the window's length holds at most the budget of calls, and no call starts within the backoff after a failure |
| CrossUserRelay.StoredResultsAreReplayed | packages/messaging/src/cross-user-relay.ts:83-84 | a stored result answers its nonce with no transport call, for ever |
| CrossUserRelay.DecisionsFollowThePast | packages/messaging/src/cross-user-relay.ts:82-112 | under a monotone clock every turn is answered as the past alone demands: the last result of its nonce, else a refusal during the last backoff or with the budget of calls younger than the window, else a call; pruning never shows |
| CrossUserRelay.Client.PruneWindow | packages/messaging/src/cross-user-relay.ts:110-112 | keeps exactly the times younger than the window |
| CrossUserRelay.Client.BeginTurn | packages/messaging/src/cross-user-relay.ts:82-94 | the decision up to the transport call |
| CrossUserRelay.Client.ResultArrives | packages/messaging/src/cross-user-relay.ts:97-103 | stores the capped result |
| CrossUserRelay.Client.CallFails | packages/messaging/src/cross-user-relay.ts:104-107 | starts the backoff |
| Transcript.FreshExactlyWhen | packages/state/src/transcript.ts:122-140 | for arbitrary ids with numerals of any size, the next id is new iff adding one to the turn's highest number makes a difference, or no id of that kind with that number is listed |
| Transcript.NextGrowsExactlyWhen | packages/state/src/transcript.ts:134 | adding one makes a difference below 2^53, for every other number up to 2^54, and never above |
| Transcript.FreshExactlyForReadableTurns | packages/state/src/transcript.ts:126-140 | for the lists that end in a given id and have room, freshness can be relied on iff that id's turn prints readably |
| Transcript.FreshBelowSafe | packages/state/src/transcript.ts:122-140 | below 2^53 the next id is always new |
| Transcript.NextIdFollowsHighest | packages/state/src/transcript.ts:122-135 | below 2^53 the next id is in the turn of the last one, with its kind's letter and the number after the turn's highest |
| Transcript.SeqIsReadExactlyWhen | packages/state/src/transcript.ts:130-132 | a number is read from exactly the ids of the form `t<digits><letter><digits>`, and which |
| Transcript.TurnIsRead | packages/state/src/transcript.ts:137-140 | the turn is that of the longest numeral behind the `t`, or 0 |
| Transcript.FreshnessFailsAtSafe | packages/state/src/transcript.ts:122-140 | a list whose next id it already holds |
| Transcript.ParseMade | packages/state/src/transcript.ts:122-140 | turn and number read back from a made id where they print readably |
| Transcript.DecimalPrints | packages/state/src/transcript.ts:134 | printing a number's own digits meets what is asked of printing |
| Transcript.FindNextEntryId | packages/state/src/transcript.ts:122-135 | the scanning loop computes the next id |
| Transcript.LoadRestoresMemory | packages/state/src/transcript.ts:171-282 | after any appends, batch appends, deletions and clears, loading the file gives exactly the entries in memory |
| Transcript.LoadsShowEffects | packages/state/src/transcript.ts:208-244 | after any operations, what a load finds after one more: an append is last, a batch follows in order, a delete takes out the first entry with that id and no other, after a clear nothing is left |
| Transcript.EntriesStayUntilDeleted | packages/state/src/transcript.ts:208-244 | up to the next clear, entries whose ids are not deleted stay, all of them, once each, in the order they were given |
| Transcript.TranscriptStore.AppendEntry | packages/state/src/transcript.ts:208-216 | appends to memory and file |
| Transcript.TranscriptStore.AppendEntries | packages/state/src/transcript.ts:218-228 | appends a batch to memory and file |
| Transcript.TranscriptStore.DeleteEntry | packages/state/src/transcript.ts:230-236 | removes the first entry of that id and rewrites the file, or changes nothing |
| Transcript.TranscriptStore.ClearAll | packages/state/src/transcript.ts:238-244 | empties memory and file |
| Utf8.DecodeFrom | apps/community/deploy/desktop/workspace-bridge.py:199 | decoding an encoded text from byte k on gives the text from the first character that starts at k or later |
| Terminal.ReplayIsLongestTail | apps/community/deploy/desktop/workspace-bridge.py:195-199 | after any run the replay is the longest suffix of all output, cut between characters, of at most 64 KiB |
| Terminal.TailIsIncremental | apps/community/deploy/desktop/workspace-bridge.py:199 | cutting as output arrives is cutting once at the end |
| Terminal.ViewersMissNothing | apps/community/deploy/desktop/workspace-bridge.py:141-162 | a viewer still watching has been given the replay at attach, then all later output, gap-free, then the exit; a stopped one a prefix; pending bytes are the queued bytes and bounded |
| Terminal.OutputIsWhatWasEmitted | apps/community/deploy/desktop/workspace-bridge.py:195-201 | over every run the output is what was emitted up to the exit, and the exit is the first |
| Terminal.ViewersGoOn | apps/community/deploy/desktop/workspace-bridge.py:141-162 | what each step of a run does to each viewer: an offer stops it iff 32 events or more than 128 KiB would be queued; an attach adds one iff fewer than four watch |
| Terminal.SizeIsJsonBytes | apps/community/deploy/desktop/workspace-bridge.py:144 | what is counted of an event is the size of its JSON text in UTF-8 |
| Terminal.NewcomerStaysExactlyWhen | apps/community/deploy/desktop/workspace-bridge.py:251-262 | what attaching queues (ready, replay if any, exit if there was one) stops a newcomer iff its JSON form does not fit the queue |
| Terminal.ReplayCanTurnEveryoneAway | apps/community/deploy/desktop/workspace-bridge.py:251-262 | ordinary-sized output after which every newcomer is stopped at once |
| Terminal.TerminalClient.OfferEvent | apps/community/deploy/desktop/workspace-bridge.py:141-149 | queues an event within both bounds, or stops the viewer |
| Terminal.TerminalClient.SendNext | apps/community/deploy/desktop/workspace-bridge.py:151-156 | takes the oldest event off the queue |
| Terminal.Terminal.EmitText | apps/community/deploy/desktop/workspace-bridge.py:195-201 | new replay, one offer to every viewer, stopped viewers forgotten; the machine's `Emit` |
| Terminal.Terminal.AttachViewer | apps/community/deploy/desktop/workspace-bridge.py:251-262 | at most four viewers; a newcomer is offered ready, replay and exit; the machine's `Attach` |
| Terminal.Terminal.ProcessExits | apps/community/deploy/desktop/workspace-bridge.py:265-273 | records the exit and offers it to every viewer; the machine's `Quit` |
| Terminal.Terminal.Feed | apps/community/deploy/desktop/workspace-bridge.py:234-242 | input is taken whole or refused whole, with the exact condition |
| GroupChat.OrderRotates | packages/messaging/src/group-chat.ts:38-45 | the i-th speaker of a round is the responder `round` places on, cyclically |
| GroupChat.OrderIsPermutation | packages/messaging/src/group-chat.ts:38-45 | every responder speaks once |
| GroupChat.HasMentionAt | packages/messaging/src/group-chat.ts:62-72 | the scan answers yes iff some occurrence of the handle is bounded by non-word characters |
| GroupChat.MentionsExactlyWhen | packages/messaging/src/group-chat.ts:58-72 | a handle is mentioned iff it stands behind an `@` with no letter or digit on either side |
| GroupChat.ParseMentions | packages/messaging/src/group-chat.ts:75-94 | the mentioned ids are exactly those of members with a mentioned handle, each once |
| GroupChat.RespondersAnswer | packages/messaging/src/group-chat.ts:97-109 | responders are never empty, are members, and are exactly the mentioned under a mention, all members otherwise |
| GroupChat.RespondersKeepOrder | packages/messaging/src/group-chat.ts:97-109 | they answer in the order of the members |
| GroupChat.HandlesOfName | packages/messaging/src/group-chat.ts:47-54 | a member is called by its name, by it without the gap, and by its first word |
| GroupChat.IsEveryoneExactlyWhen | packages/messaging/src/group-chat.ts:56 | a text is for everyone iff it has `@everyone` or `@all` in it as a word of its own |
| GroupChat.ResolveResponders | packages/messaging/src/group-chat.ts:97-109 | computes the responders |
| GroupChat.SinceIsLongest | packages/messaging/src/group-chat.ts:139-152 | what a member has not seen is the longest end of the history in which it does not speak |
| GroupChat.MessagesSince | packages/messaging/src/group-chat.ts:139-152 | the backward scan computes it |
| GroupRun.ConversationIsBounded | packages/messaging/src/group-orchestrator.ts:50-93 | for any behaviour: at most three turns a member and ten messages, history equals what was posted, exact stopping conditions, no turn after a failed currency check |
| GroupRun.TurnsFollowOrder | packages/messaging/src/group-orchestrator.ts:70-89 | a round's turns are a prefix of the speaking order, all of it unless the run ends |
| GroupRun.RoundsFollowEachOther | packages/messaging/src/group-orchestrator.ts:66-92 | a run is at most three rounds, each a check and the turns of those who answer from the one `round` places on; it goes on after a full round iff something was posted in it, and otherwise is settled |
| GroupRun.TurnsPostWhatIsSaid | packages/messaging/src/group-orchestrator.ts:71-126 | each check is asked in order; each turn is followed by exactly the posts of what it said, as far as ten allow; the run fails iff a turn threw |
| GroupRun.SpokenAreFirstTwo | packages/messaging/src/group-orchestrator.ts:117-125 | what is said is the first two texts, trimmed, that are neither empty nor a pass |
| GroupRun.TurnsAndPostsAreRight | packages/messaging/src/group-orchestrator.ts:95-126 | what each member is shown at its turn, and that only trimmed, non-empty, non-pass text is posted |
| GroupRun.AtMostTwoPerRound | packages/messaging/src/group-orchestrator.ts:117-124 | with distinct ids no member posts a third message in a round |
| GroupRun.RunConversation | packages/messaging/src/group-orchestrator.ts:50-93 | the nested loops compute the specified run |
| GroupRun.SpeakTurn | packages/messaging/src/group-orchestrator.ts:71-88 | one speaker's turn, its checks and its posts |
| GroupRun.SpokenOf | packages/messaging/src/group-orchestrator.ts:117-125 | the first two speakable messages, trimmed |
| Automations.OncePerDueMinute | packages/state/src/automations.ts:206-218 | a schedule is dispatched in its own minute only, and never twice for one minute with a recorded run between |
| Automations.RefiresExactlyWhenUnrecorded | packages/state/src/automations.ts:187-193 | within the minute of an earlier dispatch it is dispatched again iff no run was recorded since |
| Automations.FailureFiresTwiceInAMinute | packages/state/src/automations.ts:187-193 | a run with two dispatches in one minute |
| Automations.IntervalsAreKept | packages/state/src/automations.ts:201-205 | a dispatch comes at least the interval after every earlier recorded run |
| Automations.LookDispatchesExactlyWhen | packages/state/src/automations.ts:183-218 | the sweep dispatches its next automation iff it was enabled and due by the runs recorded so far |
| Automations.EveryDueIsDispatched | packages/state/src/automations.ts:177-196 | when a tick's sweep is over, all that was enabled and due at the tick has been dispatched, whatever happened meanwhile |
| Automations.StoreChangesExactly | packages/state/src/automations.ts:59-121 | what each step of a run makes of each automation, and that nothing else changes |
| Automations.StoreTellsRuns | packages/state/src/automations.ts:108-121 | the stored count and last time are those of the recorded runs |
| Automations.AutomationService.Advance | packages/state/src/automations.ts:183-188 | the sweep's loop up to the next dispatch or its end |
| Automations.ScanIsSteps | packages/state/src/automations.ts:183-188 | what the loop computes is a run of the machine's looks at one time |
| Automations.AutomationService.DispatchEnds | packages/state/src/automations.ts:108-121 | a successful dispatch of an automation that still exists is recorded |
| Automations.AutomationService.BeginTick | packages/state/src/automations.ts:177-182 | a tick starts a sweep unless one is under way |
| Automations.AutomationService.AddAutomation | packages/state/src/automations.ts:59-82 | stores a new automation under a new id |
| Automations.AutomationService.UpdateAutomation | packages/state/src/automations.ts:84-95 | patches the automation of that id, if any |
| Automations.AutomationService.DeleteAutomation | packages/state/src/automations.ts:97-102 | removes the automation of that id, if any |
| Sidebar.SidebarConverges | apps/community/public/app.js:349-389 | once no write of the epoch is left, what is shown is what was acknowledged last in it; until then the newest save |
| Sidebar.LeftoversDoNotInterfere | apps/community/public/app.js:371-386 | work of older epochs has no effect: within an epoch the page does what it would do without it |
| Sidebar.StepsDoTheirWork | apps/community/public/app.js:349-389 | what each step of a run shows, queues and sends: loads and saves are shown at once, the next write is sent iff it is of this epoch, its answer is shown unless a newer save waits |
| Sidebar.WritesAreSentInOrder | apps/community/public/app.js:372-388 | writes are sent one at a time, each once, in the order they were made |
| Sidebar.CleanIsStable | apps/community/public/app.js:356-358 | cleaning bounds the width and is the identity on what was cleaned |
| Sidebar.CleanIs | apps/community/public/app.js:356-358 | the width is the given one within 200 and 420, or 280; no group is lost |
| Sidebar.SidebarPage.EnterSession | apps/community/public/app.js:349-355 | starts an epoch |
| Sidebar.SidebarPage.ConfigLoaded | apps/community/public/app.js:359-366 | takes a load's answer, if it is still current |
| Sidebar.SidebarPage.SaveConfig | apps/community/public/app.js:367-372 | shows at once and queues the write |
| Sidebar.SidebarPage.BeginNextWrite | apps/community/public/app.js:372-375 | sends the next write or drops it |
| Sidebar.SidebarPage.WriteAnswered | apps/community/public/app.js:375-387 | confirms or rolls back |
| Dock.DockAlwaysTiles | apps/community/public/app.js:2113-2153 | after any splits, swaps and closes the rectangles tile the unit square: each point in exactly one, areas summing to one, one to eight panes |
| Dock.StartTiles | apps/community/public/app.js:13 | the single pane a page starts with tiles the unit square, so `DockAlwaysTiles` applies to every run |
| Dock.DropGoesToItsSide | apps/community/public/app.js:2140-2149 | a dropped room gets exactly the named half of the pane it was dropped on; the other panes stay |
| Dock.DropsAreTakenExactlyWhen | apps/community/public/app.js:2130-2150 | a dropped room is refused without a main room and as a ninth pane, and gets a pane of its own otherwise |
| Dock.MovedPanesChangePlaces | apps/community/public/app.js:2133-2138 | a moved pane changes places with the one it is dropped on; all keep their rooms and texts |
| Dock.ClosesExactlyWhen | apps/community/public/app.js:2113-2120 | closing is refused for the last pane and where something is typed; otherwise equal columns are left |
| Dock.TypingStays | apps/community/public/app.js:1768-1769 | typing changes that pane's text and nothing else |
| Dock.CloseRemovesItsRoomExactlyWhen | apps/community/public/app.js:2113-2123 | closing takes away that pane's room and no other iff a stated condition on the pane that moves up holds |
| Dock.AClosedRoomComesBack | apps/community/public/app.js:2113-2123 | a run in which the closed pane's room takes another pane's place |
| Dock.CloseKeepsDraftsExactlyWhen | apps/community/public/app.js:2113-2123 | closing loses no typed text iff the closed pane is not the main one or nothing is typed in the one that moves up |
| Dock.ADraftIsLost | apps/community/public/app.js:2113-2123 | a run in which closing an empty pane loses another one's text |
| Dock.DockPage.PlaceDock | apps/community/public/app.js:2130-2153 | refusal, swap and split in place |
| Dock.DockPage.ClosePane | apps/community/public/app.js:2113-2123 | refusal, removal, promotion and new columns |

## Left out

- RunScheduler: diagnostics and the callbacks `onAccepted` and `onEscaped`, except the reported position; task results and errors, which the queue never looks at.
- RunLifecycle: acknowledgement tokens and their re-drive hook; they are a set of tokens beside the windows.
- AgentMessaging: mirrors on the sender's transcript, groups and broadcasts, message texts and prompts; the priority interrupt only shows as a turn that aborts.
- Supersede: agents without a runner, whose prompts queue no turn, a nonce that is in flight for another agent, into whose send the prompt is merged, and `recoverSkippedMessages`, which sends a prompt a second time on purpose.
- Sse: decoding of byte chunks, where a character split across chunks is corrupted, and carriage returns, which the server never writes.
- AcceptanceLedger: calls that race the first load, several writes at once, `lookup` and account slots; a ledger without a file, which the source allows and which a restart empties.
- GatewaySend: deadlines and headers; which of the two answers reaches a caller that gave up.
- Port: what event listeners do, requests made after the client has settled, the unknown-method reply, which the server never posts, and frame validation, which is the one value `Malformed` or `Garbage`.
- StoreSync: several resources at once, which are independent, and the pruning of expired locks as a separate effect.
- CrossUserRelay: the hosted side, and de-duplication of two calls with one nonce in flight, which the code does not do.
- Transcript.FreshExactlyWhen: stated for turns that print readably, as all below 10^21 do; for the others the list can end in an id whose turn its made ids do not count for, and `FreshExactlyForReadableTurns` shows the failure.
- Transcript.Prints: the shortest decimal that the language prints for numbers above 2^53 is not computed; it is one of the ways of printing that the results hold for. Reading a numeral beyond the largest double gives infinity there; the model keeps it as a number that printing may show in any way.
- Transcript: several writers at once, forks, and the entry kinds' own fields; a store without a directory, which the source allows and which keeps nothing beyond the process.
- Utf8: decoding of the terminal's own byte stream, which arrives as text.
- Terminal: the socket and its time limits (a stop may come at any time), partial writes beyond `Written`, resizing; `Feed` and `Written` are stated on the input buffer alone, which the machine leaves out.
- GroupChat: the regular expression for everyone is a predicate, not an automaton; case folding is a parameter.
- GroupRun: prompt texts, and an `onMemberMessage` callback that throws.
- Automations: the text form of cron expressions, time zones, and the file; ids that an old file without a counter would hand out again.
- Sidebar: rendering, the width preview and its timer; whether a lost answer was applied by the server.
- Dock: floating-point rounding, and what else `selectRoom` does beside choosing rooms; drag sources that vanish during the drag.
- Host supervision, cloud bridge, provisioning, mail, notification, presence, memory and workspace stores: I/O, or easy members.
