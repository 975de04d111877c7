# Intercom delivery, diffs, release trailers and trajectories: a Dafny model

This project models the parts of the repository that decide what is delivered, in what order and how
often, and proves what they keep:

- **The inbound idle queue** with its claims and rollbacks, and the **terminal ordering barrier** that
  claims a child's messages ahead of its result (`InboundIdleQueue.dfy`, `TerminalOrderingBarrier.dfy`,
  `TerminalOrderingMemory.dfy`, `TerminalOrderingDelivery.dfy`, `TerminalOrderingHandler.dfy`).
- **Admission** of inbound messages over a bounded cache of delivered ids, the **late-stage router** that
  reserves, sends, commits or releases, the **reply tracker** and **target resolution** it uses, and local
  delivery of **relayed subagent messages** (`DeliveredMessageCache.dfy`, `InboundMessageAdmission.dfy`,
  `LateStageMessageRouter.dfy`, `LateStageArrival.dfy`, `LateStageDelivery.dfy`, `ReplyTracker.dfy`,
  `ReplyTurn.dfy`, `ReplyOrder.dfy`, `SessionTarget.dfy`, `SubagentRelay.dfy`).
- **Session lifecycle**: leases, lazy loading, the serialized forwarder and the replay of a session to a
  module that was loaded late (`LifecycleForwarder.dfy`, `Lifecycle.dfy`, `LifecycleReplay.dfy`,
  `LifecyclePublication.dfy`, `LifecycleNotice.dfy`, `IntercomExtension.dfy`).
- The **foreground hand-over** handshake, the single **reply waiter** slot and the **stable retry** loop
  (`ForegroundDetachHandoff.dfy`, `ForegroundDisposition.dfy`, `ReplyWaiterSlot.dfy`,
  `StableDeliveryRetry.dfy`).
- The **line diff** shown before a configuration is written (`LineDiff.dfy`, over `LineText.dfy`).
- The **release base trailers** of a release commit (`ReleaseBase.dfy`).
- The **trajectory builder** that lays out session files in steps and sums their model calls
  (`Trajectory.dfy`, `TrajectoryLayout.dfy`, `TrajectoryTotal.dfy`).

Each stateful object is a class whose methods are the synchronous sections between two waits. A method's
contract equates the object's new abstract state with one `Step` of a state machine over events, and the
theorems are about `Run`, that is, about every interleaving of such steps. What a `Step` itself amounts to is
said a second time, of inputs, history and positions and without the step's own functions, by the theorems
whose names end in `Exactly`, `IsExact`, `Told`, `TellingAll` or `LaidOut`. A promise is a record with its
state, and whoever waits for it resumes in an event of its own. Objects whose identity the code compares
(reservations, contexts, claims, attempts, leases) are numbers into a list of all of them, or carry one.

Where the code does not keep a property in general, the model says so with a concrete run, and proves the
property under a condition a caller can check:

- A rollback is exact if and only if the queue still holds what the claim left behind
  (`RollbackIsExactIff`); a drain or an overlapping claim in between hands a message out again
  (`DrainBeforeRollbackHandsOutAgain`, `RollbackQueuesWhatAnotherClaimHolds`). No interleaving loses one.
- A foreground message surfaces once per generation as long as generation numbers are not reused; with a
  reused number it may surface twice (`ReusedGenerationSurfacesTwice`), exactly if an earlier attempt of that
  number stands between its commit acknowledgement and its resumption (`SafeToAdoptIff`). The extension's own
  runtime counts its generations upwards (packages/intercom/index-heavy.ts:453), so such a run is a misuse of
  the class and not a run of the extension.
- The order of pending asks may matter to a reply after a sender was renamed
  (`RenamedSenderMakesOrderMatter`); `OrderNeverMattersIff` says exactly for which asks and targets it does.
- A module hears of what happens while it is loaded, and its replay tells it of what is open when the
  replay's last round begins. What happens in between reaches it neither way (`TurnStartIsMissed`); a run
  misses nothing if and only if a module is loaded whenever something happens (`NothingMissedIff`).
- The success of a replay means that the session that waits for it was told if and only if it had not succeeded
  before it was joined (`SuccessAlwaysTellsIff`).
- A tool result's call id names a call of its step unless it is the empty string, which the truth test in
  the code lets through (`CallIdIsNamedIff`).

## Model

| member | source | states |
|---|---|---|
| `LineDiff.LcsLengthIsOptimal` | packages/mcp/config-write-utils.ts:25-33 | The recurrence gives the length of some common subsequence of the two line lists, and none is longer. |
| `LineDiff.CommonIsNoLonger` | packages/mcp/config-write-utils.ts:27-33 | No common subsequence whatsoever is longer than the recurrence says. |
| `LineDiff.FillTable` | packages/mcp/config-write-utils.ts:25-33 | After the backwards in-place fill, every cell is optimal over all common subsequences of its two suffixes. |
| `LineDiff.WalkTransforms` | packages/mcp/config-write-utils.ts:35-54 | The printed script turns the before lines into the after lines and keeps exactly as many lines as the table promises. |
| `LineDiff.WalkIsMinimal` | packages/mcp/config-write-utils.ts:27-54 | No script of kept, inserted and deleted lines between the two texts has fewer insertions and deletions, and among the shortest scripts the printed one keeps, then inserts, first. |
| `LineDiff.PreferredIsUnique` | packages/mcp/config-write-utils.ts:39-53 | Only one script can be the preferred one, so the tie-break pins the printed script down. |
| `LineDiff.KeptIsCommon` | packages/mcp/config-write-utils.ts:38-54 | Whatever a script keeps is common to both sides, in order. |
| `LineDiff.LinesAddUp` | packages/mcp/config-write-utils.ts:38-54 | Both sides together have twice the kept lines plus the changed ones, so most kept means fewest changed. |
| `LineDiff.PrintWalk` | packages/mcp/config-write-utils.ts:35-54 | The greedy walk over the table terminates and pushes the header and the preferred minimal script. |
| `LineDiff.DiffLines` | packages/mcp/config-write-utils.ts:35-56 | For unequal texts the lines of the result are the header and the script, nothing else, whatever the texts contain. |
| `LineDiff.DiffDeterminesInputs` | packages/mcp/config-write-utils.ts:18-57 | The text is "(no changes)" exactly for equal inputs; otherwise dropping the header and one kind of line and joining the rest gives back either input. |
| `LineDiff.BuildUnifiedDiff` | packages/mcp/config-write-utils.ts:18-57 | The loops compute the text the theorem above is about. |
| `InboundIdleQueues.ClaimSplitsQueue` | packages/intercom/inbound-idle-queue.ts:41-63 | A claim partitions the queue, both parts keep the order, and the claimed part is exactly the non-ask entries, not later than the terminal, of a target and of the same run, or untagged and matched by id or by an unambiguous name. |
| `InboundIdleQueues.SingleLegacyId` | packages/intercom/inbound-idle-queue.ts:44-50 | One collected id for a name means that no other untagged sender in the queue has that name. |
| `InboundIdleQueues.CollectLegacyIds` | packages/intercom/inbound-idle-queue.ts:44-50 | The first pass collects, for every name, exactly the ids of its untagged senders. |
| `InboundIdleQueues.FilterSelected` | packages/intercom/inbound-idle-queue.ts:51-60 | The second pass selects the claimed part, in order. |
| `InboundIdleQueues.RollbackAfterArrivals` | packages/intercom/inbound-idle-queue.ts:67-75 | If only arrivals came in between, a rollback gives the original order without the delivered prefix, then the arrivals. |
| `InboundIdleQueues.RollbackAfterEnqueues` | packages/intercom/inbound-idle-queue.ts:41-76 | The same for what a claim selects, at every failure index. |
| `InboundIdleQueues.RollbackCounts` | packages/intercom/inbound-idle-queue.ts:70-74 | What a rollback leaves, counted: the unclaimed originals, the undelivered, and the later arrivals, whatever happened to them since. |
| `InboundIdleQueues.RollbackIsExactIff` | packages/intercom/inbound-idle-queue.ts:67-75 | A rollback adds exactly the undelivered entries, each once, if and only if the queue still holds precisely what the claim left behind. |
| `InboundIdleQueues.StepLosesNothing` | packages/intercom/inbound-idle-queue.ts:20-81 | Every operation keeps each enqueued entry queued, held by an open claim, or handed out or cleared. |
| `InboundIdleQueues.NoInterleavingLosesAMessage` | packages/intercom/inbound-idle-queue.ts:20-81 | In every run of enqueue, remove, drain, clear, claim and rollback, overlapping claims included, no entry is lost or invented. |
| `InboundIdleQueues.DrainBeforeRollbackHandsOutAgain` | packages/intercom/inbound-idle-queue.ts:66-75 | A run in which a drained entry is back in the queue after a rollback. |
| `InboundIdleQueues.RollbackQueuesWhatAnotherClaimHolds` | packages/intercom/inbound-idle-queue.ts:66-75 | A run in which a rollback queues an entry that a later claim still holds. |
| `InboundIdleQueues.RollsBackOnce` | packages/intercom/inbound-idle-queue.ts:67-69 | A second rollback of a claim changes nothing, whatever happened since the first. |
| `InboundIdleQueues.SpliceFirst` | packages/intercom/inbound-idle-queue.ts:28-33 | Removing splices out the first occurrence and nothing else. |
| `InboundIdleQueues.InboundIdleQueue.Enqueue` | packages/intercom/inbound-idle-queue.ts:20-22 | One enqueue step of the machine that loses nothing. |
| `InboundIdleQueues.InboundIdleQueue.Remove` | packages/intercom/inbound-idle-queue.ts:28-33 | One remove step; the answer says whether the entry was queued. |
| `InboundIdleQueues.InboundIdleQueue.Drain` | packages/intercom/inbound-idle-queue.ts:35-39 | One drain step: everything queued is handed out, in order. |
| `InboundIdleQueues.InboundIdleQueue.Clear` | packages/intercom/inbound-idle-queue.ts:79-81 | One clear step. |
| `InboundIdleQueues.InboundIdleQueue.ClaimOrdinarySourceTargets` | packages/intercom/inbound-idle-queue.ts:41-77 | One claim step; the claim returned holds the selected entries and remembers the array it saw. |
| `InboundIdleQueues.InboundIdleClaim.RollbackFrom` | packages/intercom/inbound-idle-queue.ts:67-75 | One rollback step the first time, nothing afterwards. |
| `DeliveredMessageCaches.LookupIsExact` | packages/intercom/broker/delivered-message-cache.ts:20-25 | The bounded cache answers as one that forgets nothing would, except for ids that expired or have ten thousand newer ones; the latest signature decides between match and conflict. |
| `DeliveredMessageCaches.PruneKeepsBounded` | packages/intercom/broker/delivered-message-cache.ts:38-43 | Pruning from the old end drops only expired records. |
| `DeliveredMessageCaches.RecordKeepsBounded` | packages/intercom/broker/delivered-message-cache.ts:27-36 | Recording keeps the cache the newest part of everything recorded, within its size. |
| `DeliveredMessageCaches.DeliveredMessageCache.Lookup` | packages/intercom/broker/delivered-message-cache.ts:20-25 | The method prunes and gives the answer of the theorem above. |
| `DeliveredMessageCaches.DeliveredMessageCache.Record` | packages/intercom/broker/delivered-message-cache.ts:27-36 | The method prunes, moves the id to the new end and evicts from the old one. |
| `InboundMessageAdmissions.RunKeepsConsistent` | packages/intercom/inbound-message-admission.ts:24-71 | In every run the pending map holds exactly the unsettled reservations, commits are recorded, and the cache stays in step with one that forgets nothing. |
| `InboundMessageAdmissions.OnePendingPerMessage` | packages/intercom/inbound-message-admission.ts:28-41 | In every run at most one reservation per message id is unsettled. |
| `InboundMessageAdmissions.OnlyOwnReservationSettles` | packages/intercom/inbound-message-admission.ts:58-71 | A reservation is settled only by its own commit or release. |
| `InboundMessageAdmissions.SettledForGood` | packages/intercom/inbound-message-admission.ts:58-71 | A settled reservation never changes again, in any continuation. |
| `InboundMessageAdmissions.StaleChangesNothing` | packages/intercom/inbound-message-admission.ts:48-71 | A settled or unknown reservation commits, releases, begins and ends without effect. |
| `InboundMessageAdmissions.AdmissionDeduplicates` | packages/intercom/inbound-message-admission.ts:28-41 | What each answer means: a duplicate is remembered, being delivered or in conflict; a joiner joins the unsettled reservation of its own content; a new reservation exists only if every earlier one was released or its delivery was forgotten. |
| `InboundMessageAdmissions.CommittedIsNotAdmittedAgain` | packages/intercom/inbound-message-admission.ts:28-64 | After a commit no run admits the id again, within the time to live and until ten thousand further commits. |
| `InboundMessageAdmissions.CopyFollowsTheReservation` | packages/intercom/inbound-message-admission.ts:28-71 | A copy of a reserved message is a duplicate while it is being delivered, joins it otherwise, and is reserved anew once it is released; other content under its id is a duplicate until then. |
| `InboundMessageAdmissions.InboundMessageAdmission.Admit` | packages/intercom/inbound-message-admission.ts:28-41 | One admit step, with the answer the theorem above explains. |
| `InboundMessageAdmissions.InboundMessageAdmission.BeginDelivery` | packages/intercom/inbound-message-admission.ts:48-51 | One step that marks the reservation's own entry, if it is still pending. |
| `InboundMessageAdmissions.InboundMessageAdmission.EndDelivery` | packages/intercom/inbound-message-admission.ts:53-56 | One step that unmarks it. |
| `InboundMessageAdmissions.InboundMessageAdmission.Commit` | packages/intercom/inbound-message-admission.ts:58-64 | One commit step: settled and recorded, or nothing. |
| `InboundMessageAdmissions.InboundMessageAdmission.Release` | packages/intercom/inbound-message-admission.ts:66-71 | One release step: settled and forgotten, or nothing. |
| `SessionTargets.ResolvedExactly` | packages/intercom/session-target.ts:10-37 | A session is the answer exactly when it has the id, or nobody has it and it alone has the name, or nobody has either and it alone has the prefix. |
| `SessionTargets.ResolutionIsOrderFree` | packages/intercom/session-target.ts:10-37 | For distinct ids, permuting the sessions changes neither the kind of outcome nor the session nor the set of matches. |
| `SessionTargets.FailuresAreExact` | packages/intercom/session-target.ts:18-36 | Not found means that no session has the id, the name or the prefix; an ambiguous answer lists exactly those that have the name, or, if nobody has, the prefix, and they are several. |
| `ReplyTrackers.ForgetErases` | packages/intercom/reply-tracker.ts:29-35 | A forgotten context is nowhere in the tracker, and nothing else is touched. |
| `ReplyTrackers.GoneStaysGone` | packages/intercom/reply-tracker.ts:17-110 | Only queueing a context again brings it back. |
| `ReplyTrackers.ReplyGoesToSoleCandidate` | packages/intercom/reply-tracker.ts:52-89 | Outside a turn, the answer is an unexpired ask without a rival: the only one pending, or the only one from the session that the target names. |
| `ReplyTrackers.ReplyIsOrderFree` | packages/intercom/reply-tracker.ts:59-88 | While senders keep their names, neither the kind of reply nor the answered ask nor the sessions named in an error depend on the order of the asks. |
| `ReplyTrackers.RenamedSenderMakesOrderMatter` | packages/intercom/reply-tracker.ts:60-70 | Three asks, one sender renamed, whatever lower-casing tells the two names apart: one order resolves the target, the other finds it ambiguous. |
| `ReplyTurns.AnswersExactly` | packages/intercom/reply-tracker.ts:52-89 | For every tracker and target: a context is the answer if and only if it is the turn's context or, outside a turn, it is the only unexpired ask, or the target resolves to its sender and it is the only unexpired ask of that sender. |
| `ReplyTurns.RefusalsAreExact` | packages/intercom/reply-tracker.ts:59-88 | And each refusal says what there is: nothing pending, several pending without a target, no sender, a sender with several asks, or an unclear target. |
| `ReplyTurns.TurnContextAnswers` | packages/intercom/reply-tracker.ts:37-57 | The context a turn takes is the answer to every target until the turn ends, another begins, the context is forgotten or replied to, or the tracker is reset. |
| `ReplyTurns.QueuedTurnComesUp` | packages/intercom/reply-tracker.ts:25-40 | If nothing is forgotten or reset in between, a context queued behind n others is the context of the turn after the next n. |
| `ReplyTurns.PendingAfter` | packages/intercom/reply-tracker.ts:17-110 | What each event does to an ask: it stays pending unless it is forgotten, replied to, expired, reset or replaced by a later ask of its message id, and only recording adds one. |
| `ReplyTurns.AskIsPendingUntilRemoved` | packages/intercom/reply-tracker.ts:17-110 | So over every run an ask is pending for as long as none of these happens to it. |
| `ReplyTurns.RemovedForGood` | packages/intercom/reply-tracker.ts:29-110 | And an ask once removed is not pending again in any continuation. |
| `ReplyOrders.OrderNeverMattersIff` | packages/intercom/reply-tracker.ts:59-88 | The exact condition, for any asks and target: every order of the asks gives the same verdict if and only if there is no target, or it is a sender's id, or no sender has asks both under the name and otherwise, or the one such sender is the only one that ever bears the name and the one sender with the prefix has several asks. |
| `ReplyOrders.ReplyIsByIds` | packages/intercom/reply-tracker.ts:60-79 | A reply to a target depends on the asks only through who bears the name on its latest ask, who has the prefix, and how many asks each sender has. |
| `ReplyOrders.NamedAtExtremes` | packages/intercom/reply-tracker.ts:61-63 | With the asks under the name first only those who always bear it match; with them last all who ever did. |
| `ReplyOrders.ExtremesAgreeIff` | packages/intercom/reply-tracker.ts:64-79 | These two orders agree, once some sender is mixed, only in the one case in which both find several asks. |
| `ReplyTrackers.ReplyTracker.RecordIncomingMessage` | packages/intercom/reply-tracker.ts:17-23 | One recording step, with a context nobody had before. |
| `ReplyTrackers.ReplyTracker.ForgetIncomingMessage` | packages/intercom/reply-tracker.ts:29-35 | One forgetting step, by the backwards loop. |
| `ReplyTrackers.ReplyTracker.BeginTurn` | packages/intercom/reply-tracker.ts:37-40 | One step that drops the expired and takes the next queued context. |
| `ReplyTrackers.ReplyTracker.ResolveReplyTarget` | packages/intercom/reply-tracker.ts:52-89 | Drops the expired asks and gives the answer that `AnswersExactly` and `RefusalsAreExact` describe. |
| `ReplyTrackers.ReplyTracker.MarkReplied` | packages/intercom/reply-tracker.ts:91-96 | One step that removes the answered ask and ends its turn context. |
| `ReplyTrackers.SpliceOut` | packages/intercom/reply-tracker.ts:31-33 | The backwards splice removes every occurrence and nothing else. |
| `ReplyTrackers.DropExpired` | packages/intercom/reply-tracker.ts:103-109 | The loop keeps exactly the unexpired asks, in order. |
| `LateStageMessageRouters.EveryReservationIsSettled` | packages/intercom/late-stage-message-router.ts:86-148 | In every interleaving, a reservation that an item of a batch carries (`ArrivalIsExact`: every one that is made) is committed exactly if its message was sent, released exactly if its batch failed before sending it, and a released message's context is nowhere in the tracker; an atomic batch commits all or releases all. |
| `LateStageArrivals.ArrivalIsExact` | packages/intercom/late-stage-message-router.ts:39-92 | An arrival is left alone exactly if it is for a stage and holds only asks. Otherwise it adds one batch whose items are, in order, exactly the messages of another kind and the usable intercom messages (supervisor, relay, or the group's own) that the ledger, asked message by message, reserves; each carries that reservation and a context of its sender, id and time. It joins exactly the pending ones, makes no ticket but those of its items, each in one item only, records exactly the asks among them, and queues a turn for the first reserved one, if any. |
| `LateStageArrivals.ArrivedTicketIsSettled` | packages/intercom/late-stage-message-router.ts:86-148 | In every run, every ticket that an arrival makes is carried by exactly one item of its batch, and the host's answers decide it: an atomic batch commits or releases all by the first answer; a sequential one commits what was accepted before the first refusal and releases the rest; a released message's context is nowhere in the tracker. |
| `LateStageArrivals.BatchFollowsAnswers` | packages/intercom/late-stage-message-router.ts:86-136 | In every run a batch keeps its items and gets as far as the host's answers to its sends say, however they are interleaved with other events. |
| `LateStageDeliveries.CopyJoinsUnlessDelivering` | packages/intercom/late-stage-message-router.ts:94-135 | In every run, a copy of a message that a batch still has to send joins its delivery, except of the one a sequential batch is just sending, which is a duplicate, as is other content under its id. |
| `LateStageDeliveries.RunMarks` | packages/intercom/late-stage-message-router.ts:94-135 | In every run exactly the message a sequential batch is waiting for is marked as being delivered. |
| `LateStageMessageRouters.RunKeepsInvariant` | packages/intercom/late-stage-message-router.ts:35-148 | In every run, reservations are owned by one batch each and are unsettled, committed or released as their batch stands. |
| `LateStageMessageRouters.SucceededKeeps` | packages/intercom/late-stage-message-router.ts:104-135 | A message or a batch that went through commits what it owns and leaves every other batch as it was. |
| `LateStageMessageRouters.RefusedKeeps` | packages/intercom/late-stage-message-router.ts:105-129 | A refused one releases all that its batch still owns and leaves every other batch as it was. |
| `LateStageMessageRouters.CommitSets` | packages/intercom/late-stage-message-router.ts:103-104 | Committing a batch settles its own reservations and no others. |
| `LateStageMessageRouters.ReleaseSets` | packages/intercom/late-stage-message-router.ts:138-148 | Releasing does, too. |
| `LateStageMessageRouters.ForgettingErases` | packages/intercom/late-stage-message-router.ts:144-147 | No context of a released batch is left in the tracker, and none is added. |
| `LateStageMessageRouters.LateStageMessageRouter.HandleLateMessages` | packages/intercom/late-stage-message-router.ts:35-73 | Routing and the start of delivery are one arrival step, of which `ArrivalIsExact` says what it does; an event that belongs to the workflow is left alone. |
| `LateStageMessageRouters.LateStageMessageRouter.RouteMessages` | packages/intercom/late-stage-message-router.ts:48-65 | The loop admits each message, records it, queues at most one turn context and collects what is accepted, as `ArrivalIsExact` describes. |
| `LateStageMessageRouters.LateStageMessageRouter.SendResolved` | packages/intercom/late-stage-message-router.ts:103-135 | One step of a send that went through. |
| `LateStageMessageRouters.LateStageMessageRouter.SendRejected` | packages/intercom/late-stage-message-router.ts:105-129 | One step of a send that failed. |
| `LateStageMessageRouters.LateStageMessageRouter.ReleaseReservations` | packages/intercom/late-stage-message-router.ts:138-148 | The loop releases each reservation and forgets its context. |
| `LocalDeliveries.DeliversOnlyWhatIsNew` | packages/intercom/subagent-relay.ts:127-152 | In every run a delivery begins for an id exactly when none of that id is in flight and the cache remembers none. |
| `LocalDeliveries.RetryAfterSuccess` | packages/intercom/subagent-relay.ts:127-156 | After a success, whatever happens in between, within the time to live and until ten thousand others succeed: a retry with the same payload is acknowledged, one with another payload is refused, and none is delivered again. |
| `LocalDeliveries.RunKeepsHold` | packages/intercom/subagent-relay.ts:127-154 | Over such runs the payload stays among the newest records and no other delivery of its id begins. |
| `LocalDeliveries.DeliveriesOfOneIdNeverOverlap` | packages/intercom/subagent-relay.ts:133-149 | Two deliveries of one id are never under way together. |
| `LocalDeliveries.AcknowledgedMeansDelivered` | packages/intercom/subagent-relay.ts:122-169 | A request is acknowledged only if its payload was delivered under its id, and waits only for a running delivery of its id; so a joiner with another payload is never acknowledged for it. |
| `LocalDeliveries.SettlementAnswersAll` | packages/intercom/subagent-relay.ts:145-165 | In every run, the end of a delivery answers every request that waits for it, at least one: acknowledged if it succeeded with the request's payload, refused if not; it touches no other request or delivery. |
| `LocalDeliveries.WithoutIdNothingIsShared` | packages/intercom/subagent-relay.ts:126-144 | A request without an id is always delivered, and no later request joins that delivery. |
| `LocalDeliveries.RunKeepsInvariant` | packages/intercom/subagent-relay.ts:122-169 | In every run the in-flight map holds exactly the running deliveries with an id, each with a request of its payload waiting. |
| `LocalDeliveries.RecordedTimesKeepsBounded` | packages/intercom/subagent-relay.ts:153-154 | That every acknowledged request records the delivery again does no harm to the cache. |
| `LocalDeliveries.SubagentRelay.DeliverLocal` | packages/intercom/subagent-relay.ts:126-152 | One request step up to its wait. |
| `LocalDeliveries.SubagentRelay.DeliverySettled` | packages/intercom/subagent-relay.ts:145-165 | One settlement step: the id is free and every waiting request is answered. |
| `LocalDeliveries.ResumeRequests` | packages/intercom/subagent-relay.ts:153-165 | The continuations, one after the other, answer every waiting request and record each success. |
| `TerminalOrderingBarriers.OneOwnerAndNoRepeatPerTerminal` | packages/intercom/terminal-ordering-barrier.ts:117-158 | In every run a terminal has at most one unsettled owner, and after a successful one that is remembered (`DeliveriesAreRemembered` says which are) no later owner claims its targets while the terminal is remembered. |
| `TerminalOrderingMemory.BarrierClaimsExactly` | packages/intercom/terminal-ordering-barrier.ts:125-131 | A barrier makes an owner if and only if its terminal is not in flight and it names a target not remembered; the owner is for exactly those targets and has exactly the queued messages, in order, that are no asks, not later than the terminal, and from such a target: of its run, or untagged and matched by id or by an unambiguous name. |
| `TerminalOrderingMemory.NewOwnerStandsExactly` | packages/intercom/terminal-ordering-barrier.ts:159-207 | How far a new owner got when its barrier returns: a batch is sent, refused or pending as a whole, the fallback is pending, and messages sent one by one got as far as the first that threw or is pending. |
| `TerminalOrderingMemory.OwnersGoOnExactly` | packages/intercom/terminal-ordering-barrier.ts:135-199 | In every run an owner goes on exactly as the answers to its own sends say and nothing else moves it; its terminal is in flight for it until it has succeeded or its rejection has been reported, and free afterwards. |
| `TerminalOrderingMemory.DeliveriesAreRemembered` | packages/intercom/terminal-ordering-barrier.ts:139-143 | In every run, a successful owner that called `dispatch` (with or without messages) or handed a message over is remembered with all its targets until its terminal is evicted, and shares none with a later owner of its terminal. |
| `TerminalOrderingMemory.OnlyDeliveriesAreRemembered` | packages/intercom/terminal-ordering-barrier.ts:139-143 | In every run, whatever is remembered for a terminal was a target of such an owner: one that neither called `dispatch` nor handed anything over adds nothing. |
| `TerminalOrderingMemory.OnlyTheOldestIsForgotten` | packages/intercom/terminal-ordering-barrier.ts:144-147 | In every run a terminal is forgotten only as the oldest of a thousand remembered, when another joins them. |
| `TerminalOrderingBarriers.AtMostAThousandRemembered` | packages/intercom/terminal-ordering-barrier.ts:140-147 | In every run at most a thousand terminals are remembered, each once. |
| `TerminalOrderingBarriers.JoinersWaitForTheirOwner` | packages/intercom/terminal-ordering-barrier.ts:125-158 | A barrier that finds its terminal in flight claims, sends and remembers nothing and gets the promise of the terminal's one unsettled owner; in every continuation that promise is unresolved exactly as long as the terminal is in flight for that owner. |
| `TerminalOrderingBarriers.JoinersSettleAsTheirOwner` | packages/intercom/terminal-ordering-barrier.ts:132-151 | Once settled, the promise an owner shares with its joiners keeps its outcome in every continuation. |
| `TerminalOrderingDelivery.SerialRunsDeliverOnceInOrder` | packages/intercom/terminal-ordering-barrier.ts:131-207 | If only enqueues come between a claim and its settlement, no message is given out twice over the whole run, and when none is in flight the queue holds exactly the other arrivals in order of arrival. |
| `TerminalOrderingDelivery.FailureRestoresPositions` | packages/intercom/terminal-ordering-barrier.ts:131-207 | At every failure point of such a run, what was handed over is a prefix of the claim and the rest is back in its old place, ahead of later arrivals. |
| `TerminalOrderingDelivery.RejectedConserves` | packages/intercom/subagent-relay.ts:32-50 | The delivered count that the relay fallback reports is what it sent, so a retry does not send the delivered prefix again. |
| `TerminalOrderingBarriers.RunKeepsInvariant` | packages/intercom/terminal-ordering-barrier.ts:117-207 | Over every run, owners, claims, the in-flight map and the remembered targets stay in step. |
| `TerminalOrderingHandlers.TerminalOrderingBarrier.Handle` | packages/intercom/terminal-ordering-barrier.ts:119-208 | A retired handler and an envelope that has a completion are left alone; otherwise one barrier step: join, return, or claim and deliver as far as possible without waiting, with the completion the envelope is left with. |
| `TerminalOrderingHandlers.TerminalOrderingBarrier.DeliverEach` | packages/intercom/terminal-ordering-barrier.ts:180-207 | The loop hands over the claim one by one up to the first that throws or has to be waited for. |
| `TerminalOrderingHandlers.TerminalOrderingBarrier.Finish` | packages/intercom/terminal-ordering-barrier.ts:139-151 | Success remembers the targets if anything was dispatched or handed over, as the theorems about the memory say, evicts the oldest terminal above a thousand and frees the terminal. |
| `TerminalOrderingHandlers.TerminalOrderingBarrier.OnResolved` | packages/intercom/terminal-ordering-barrier.ts:171-199 | One step of a pending delivery that was accepted. |
| `TerminalOrderingHandlers.TerminalOrderingBarrier.OnRejected` | packages/intercom/terminal-ordering-barrier.ts:171-203 | One step of a pending delivery that was refused: rolled back to what was sent. |
| `TerminalOrderingHandlers.TerminalOrderingBarrier.FailOwnership` | packages/intercom/terminal-ordering-barrier.ts:135-157 | The terminal is freed once the rejection has reached the observer. |
| `LifecycleForwarders.OperationsRunInOrder` | packages/intercom/lifecycle-lease.ts:41-51 | In every run operations start in the order they were enqueued, and one starts only after all before it have settled, however they settled. |
| `LifecycleForwarders.RejectionDoesNotBlock` | packages/intercom/lifecycle-lease.ts:46-50 | When none is running and some operation waits, the next one can start, whatever was rejected before. |
| `LifecycleForwarders.SerializedLifecycleForwarder.Enqueue` | packages/intercom/lifecycle-lease.ts:46-50 | One enqueue step: the operation waits for the tail it found and becomes the tail. |
| `Lifecycles.LeaseStartsAfterEarlierCleanup` | packages/intercom/index.ts:112-182 | In every run, when a lease begins to load, enqueues a replay or installs its session, it is current and everything earlier leases retained, loaded or enqueued has settled. |
| `Lifecycles.OneLoadAtATime` | packages/intercom/index.ts:168-231 | In every run at most one load of the heavy module is under way, across all leases. |
| `Lifecycles.MarkedSnapshotStayedCurrent` | packages/intercom/index.ts:122-154 | A replay marks a generation only if at every earlier moment of that round the snapshot was the session's and its lease was live, and only after its whole plan was dispatched (`MarkedAfterTellingAll` says what that is). |
| `LifecycleReplays.MarkedAfterTellingAll` | packages/intercom/index.ts:126-154 | A generation is marked only at the end of a round that, of the happenings observed under the session when the round began, told the session start, then the turn, model, agent and tool starts that nothing has ended or replaced since, with their last payloads, tools in the order in which they began, each once and nothing else; and whose snapshot is still the live session's. |
| `LifecycleReplays.RunKept` | packages/intercom/index.ts:261-342 | In every run what the extension keeps as active is exactly what is open among the happenings observed, over session starts, shutdowns and interleaved loads. |
| `LifecycleReplays.RoundBegan` | packages/intercom/index.ts:127-138 | Every round of a run began at an event of its own operation that captured what was active at that moment and dispatched the session start. |
| `LifecycleReplays.UndisturbedRoundIsMarked` | packages/intercom/index.ts:127-152 | A round whose session lasts and whose dispatches succeed is told to its end, marks the generation and succeeds. |
| `LifecyclePublications.PublishedModuleWasTold` | packages/intercom/index.ts:155-211 | In every run, a module published while the session lasts that its load was to be told of has had that session replayed and marked; unless it joined a replay that had already succeeded. |
| `LifecyclePublications.SuccessAlwaysTellsIff` | packages/intercom/index.ts:155-167 | However a run goes on, the success of the replay a session waits for means that the session is marked, if and only if that replay had not succeeded before. |
| `LifecyclePublications.LoadsGoStageByStage` | packages/intercom/index.ts:200-219 | A load moves one stage at a time, imported, initialised, told, published, each after the one before ended well and under a live lease; otherwise it cleans up and ends unpublished. |
| `LifecyclePublications.LoadsBeginImporting` | packages/intercom/index.ts:184-221 | And it begins by importing, when it is asked for. |
| `LifecyclePublications.ShutdownLeavesNothing` | packages/intercom/index.ts:271-290 | In every run a shutdown retires the lease, leaves no snapshot, nothing active and no load, module or replay to go on with, and has the lease wait for its load, its replay and the last operation enqueued, its own farewell included. |
| `LifecycleNotices.ForwardsWhatFindsAModule` | packages/intercom/index.ts:271-342 | In every run the notices forwarded are exactly the happenings of live leases and the shutdowns that found a module loaded, in order, each to that module. |
| `LifecycleNotices.NothingMissedIff` | packages/intercom/index.ts:297-342 | A run forwards every notice if and only if a module is loaded whenever something happens. |
| `LifecycleNotices.TurnStartIsMissed` | packages/intercom/index.ts:126-154 | A run in which a turn starts while the replay dispatches the session start: the module is published, the turn is still open, and it was never told of it. |
| `LifecycleReplays.OnlyStartsReplaceSessions` | packages/intercom/index.ts:194-268 | Only a session start replaces a session and only a shutdown ends it; a load puts one in place only when there is none. |
| `LifecycleReplays.OnlyFailedLoadsAreRetried` | packages/intercom/index.ts:172-229 | A load of the lease that is under way or done is not begun again; one that failed is forgotten, and the next call begins a new one. |
| `Lifecycles.PublishedAfterOwnReplay` | packages/intercom/index.ts:155-215 | In every run a module is published only under a live lease and, unless no replay was needed, only after the replay its own load waited for, of its lease and to its module, has succeeded. |
| `Lifecycles.SnapshotNeverReturns` | packages/intercom/index.ts:250-296 | Once the session has moved on from a snapshot, no run brings it back, so comparing at the waits is enough. |
| `Lifecycles.GenerationsAreMarkedOnce` | packages/intercom/index.ts:126-167 | No generation is marked replayed twice, although several replays may be enqueued. |
| `Lifecycles.RunKeepsInvariant` | packages/intercom/index.ts:94-342 | In every run leases chain their barriers, unfinished work of a retired lease is in its barrier, and the session belongs to the live lease. |
| `Lifecycles.RetiringCoversLoads` | packages/intercom/lifecycle-lease.ts:19-34 | Retiring with the load in flight retained leaves no unfinished load uncovered. |
| `Lifecycles.RetiringCoversJobs` | packages/intercom/lifecycle-lease.ts:25-34 | Retaining the forwarder's tail covers every operation enqueued before it. |
| `Lifecycles.ToolsAreAMap` | packages/intercom/index.ts:325-333 | The tools in progress behave as a map in insertion order. |
| `IntercomExtensions.Intercom.OnSessionStart` | packages/intercom/index.ts:258-260 | One step: a new lease, with the retired one's barrier as prior cleanup, if the active one is retired. |
| `IntercomExtensions.Intercom.SessionStarted` | packages/intercom/index.ts:260-268 | One step after the wait: a fresh snapshot if the lease is still current, or nothing. |
| `IntercomExtensions.Intercom.OnSessionShutdown` | packages/intercom/index.ts:271-290 | One step: the lease is retired, everything of the session is dropped and all work in flight is retained. |
| `IntercomExtensions.Intercom.StartLoading` | packages/intercom/index.ts:171-221 | One step: join the lease's load or begin one. |
| `IntercomExtensions.Intercom.ResumeLoading` | packages/intercom/index.ts:203-219 | One step of a load after a wait: on to the next stage, published once the replay it awaits has succeeded, or cleaning up. |
| `IntercomExtensions.Intercom.EnsureLoadReplayed` | packages/intercom/index.ts:155-167 | One step of a load whose module is initialised: nothing to replay, join the replay, or enqueue one, and wait for it. |
| `IntercomExtensions.Intercom.EnsureSessionStartReplayed` | packages/intercom/index.ts:155-167 | One step: nothing to do, join the replay, or enqueue one. |
| `IntercomExtensions.Intercom.ReplayRound` | packages/intercom/index.ts:127-138 | The head of the replay loop: throw, return, or capture and dispatch the session start. |
| `IntercomExtensions.Intercom.ResumeOperation` | packages/intercom/index.ts:138-152 | One step after a dispatch: throw, start over, dispatch the next, or mark the generation; what a whole round dispatches, `MarkedAfterTellingAll` says. |
| `IntercomExtensions.Intercom.OnLifecycle` | packages/intercom/index.ts:297-342 | One step of a turn, agent, tool or model event: what is active changes and the event is forwarded if a module is loaded. |
| `ForegroundDetachHandoffs.SurfacesOnlyWhenCommitted` | packages/intercom/foreground-detach-handoff.ts:63-86 | With generation numbers never reused, whatever surfaces had both acknowledgements, and its attempt began after the latest reset. |
| `ForegroundDetachHandoffs.SurfacesOncePerGeneration` | packages/intercom/foreground-detach-handoff.ts:30-86 | And each sender and message pair surfaces at most once per generation. |
| `ForegroundDetachHandoffs.ReusedGenerationSurfacesTwice` | packages/intercom/foreground-detach-handoff.ts:63-132 | A run with a reused number in which an attempt from before a reset and a new one both surface. |
| `ForegroundDetachHandoffs.OutlivesResetIff` | packages/intercom/foreground-detach-handoff.ts:75-86 | From any state, some continuation after a reset surfaces an attempt from before it if and only if that attempt has its commit acknowledgement and has not resumed since. |
| `ForegroundDetachHandoffs.SafeToAdoptIff` | packages/intercom/foreground-detach-handoff.ts:77-86 | Adopting a generation number, used before or not, is safe while it lasts if and only if no earlier attempt of that number stands there. |
| `ForegroundDetachHandoffs.RunKeepsInvariant` | packages/intercom/foreground-detach-handoff.ts:30-132 | Over such runs an attempt under way in this generation is the pending one for its key, and what surfaced in it is remembered. |
| `ForegroundDispositions.DeliverAnswersExactly` | packages/intercom/foreground-detach-handoff.ts:30-50 | In every run that reuses no number: a delivery is answered as delivered if and only if its message surfaced in this generation, gets the promise of the attempt for it that is under way or still remembered, and begins a new attempt otherwise. |
| `ForegroundDispositions.ResumeDecidesExactly` | packages/intercom/foreground-detach-handoff.ts:63-86 | In every such run: after its wait an attempt is abandoned if the session or generation changed or the wait was cancelled, unclaimed if it timed out, commits after its first acknowledgement and surfaces after its second. |
| `ForegroundDispositions.ForgottenIsTriedAgain` | packages/intercom/foreground-detach-handoff.ts:40-50 | An attempt that ended without surfacing answers for its message until it is forgotten; then the message gets a new attempt. |
| `ForegroundDetachHandoffs.ForegroundDetachHandoff.Deliver` | packages/intercom/foreground-detach-handoff.ts:30-50 | One step: abandoned, already delivered, joined, or a new attempt. |
| `ForegroundDetachHandoffs.ForegroundDetachHandoff.FinishWait` | packages/intercom/foreground-detach-handoff.ts:88-124 | The first acknowledgement or timeout ends a wait, later ones do nothing. |
| `ForegroundDetachHandoffs.ForegroundDetachHandoff.ResumeClaim` | packages/intercom/foreground-detach-handoff.ts:76-85 | One step after a wait: give up, go on to the commit phase, or surface. |
| `ForegroundDetachHandoffs.ForegroundDetachHandoff.ForgetPending` | packages/intercom/foreground-detach-handoff.ts:45-47 | A finished attempt removes its own pending entry and no other. |
| `ForegroundDetachHandoffs.ForegroundDetachHandoff.ResetForGeneration` | packages/intercom/foreground-detach-handoff.ts:126-132 | A reset cancels what waits and forgets what was pending or delivered. |
| `ReplyWaiterSlots.SlotHoldsTheUnsettledWaiter` | packages/intercom/reply-waiter.ts:40-114 | In every interleaving the slot holds exactly the one unsettled waiter, and a waiter was resolved only by a reply on its thread whose sender has the id it waits for, or, up to case, that name, or no name and that id. |
| `ReplyWaiterSlots.SettlesExactly` | packages/intercom/reply-routing.ts:10-17 | In every run, the next event settles the unsettled waiter exactly if it is such a reply, which resolves it, its own timeout, abort or cancellation, or a tear-down, which reject it. |
| `ReplyWaiterSlots.AdmittedIff` | packages/intercom/reply-waiter.ts:63-104 | In every run a call is admitted if and only if no waiter is unsettled and it was not cancelled before. |
| `ReplyWaiterSlots.SettledForGood` | packages/intercom/reply-waiter.ts:72-101 | A settled waiter never changes again. |
| `ReplyWaiterSlots.LateEventsChangeNothing` | packages/intercom/reply-waiter.ts:91-100 | A late reply, timeout or cancellation of a settled waiter disturbs neither it nor the current one. |
| `ReplyWaiterSlots.ReplyWaiterSlot.Begin` | packages/intercom/reply-waiter.ts:63-114 | One step: busy, cancelled, or admitted into the empty slot. |
| `ReplyWaiterSlots.ReplyWaiterSlot.SettleRecord` | packages/intercom/reply-waiter.ts:79-100 | Settles this waiter once and empties the slot only if it holds this waiter. |
| `ReplyWaiterSlots.ReplyWaiterSlot.RouteIncomingReply` | packages/intercom/reply-routing.ts:10-17 | A reply reaches a waiter only if sender and thread match; the answer says whether it did. |
| `ReplyWaiterSlots.ReplyWaiterSlot.RejectCurrentWaiter` | packages/intercom/reply-waiter.ts:59-61 | Rejects whoever is waiting, if anybody is. |
| `StableDeliveryRetries.DeliveriesNeverOverlap` | packages/intercom/stable-delivery-retry.ts:13-29 | In every run exactly one of a scheduled closure, a delivery under way or a settled promise is outstanding, so deliveries never overlap, none begins after a success, and the promise is settled at most once. |
| `StableDeliveryRetries.OneRetirementRetry` | packages/intercom/stable-delivery-retry.ts:13-22 | In every run at most one delivery begins while retired, and only after an earlier one had begun. |
| `StableDeliveryRetries.RetiredLoopSettles` | packages/intercom/stable-delivery-retry.ts:13-29 | After permanent retirement at most one more delivery begins and the promise settles within three steps. |
| `StableDeliveryRetries.StepsExactly` | packages/intercom/stable-delivery-retry.ts:13-29 | What each step of a run amounts to, by the deliveries begun so far: while current, an attempt delivers and a failure is scheduled again; once retired, an attempt delivers exactly if it is not the first and none was made retired, a failure is scheduled again exactly if none was, and otherwise the promise is rejected. |
| `StableDeliveryRetries.RejectedOnlyRetired` | packages/intercom/stable-delivery-retry.ts:14-22 | In every run the promise is rejected only in a step in which `isCurrent` is false. |
| `StableDeliveryRetries.CurrentNeverRejected` | packages/intercom/stable-delivery-retry.ts:13-25 | While the generation stays current no run rejects, and one fulfils the promise exactly if a delivery succeeded. |
| `StableDeliveryRetries.StableDeliveryRetry.RunScheduled` | packages/intercom/stable-delivery-retry.ts:13-28 | One step of the rescheduled closure; the answer says whether a delivery began. |
| `StableDeliveryRetries.StableDeliveryRetry.DeliverySettled` | packages/intercom/stable-delivery-retry.ts:20-25 | One step of a delivery's end: settled, rescheduled or given up. |
| `ReleaseBases.ParseAcceptsExactly` | scripts/release-base.ts:52-84 | A message is accepted with a ref and a SHA exactly if both are canonical and each is the sole, well-formed trailer of its kind in the last paragraph. |
| `ReleaseBases.VerifyAcceptsExactly` | scripts/release-base.ts:86-110 | Verification accepts exactly if the message parses and its trailers, both expected values and the parent agree. |
| `ReleaseBases.BranchesAcceptedExactly` | scripts/release-base.ts:13-50 | A branch is accepted, as `refs/heads/` before it, if and only if, by its characters, it is not empty, has only letters, digits and `._/-`, does not begin with a dash or a slash, nor end with a slash or a dot, has no two dots or slashes in a row, no component that begins with a dot or ends with `.lock`, and does not begin with `refs/` or `origin/`; and so for the refs. |
| `ReleaseBases.ParseRefusesExactly` | scripts/release-base.ts:58-84 | A refusal names the first malformed trailer if there is one; or else a trailer that does not occur exactly once; or else the ref if it is not canonical, and only then the SHA. |
| `ReleaseBases.LastParagraphIs` | scripts/release-base.ts:53-56 | What is read are the lines between the last blank line and the blank lines that end the message. |
| `ReleaseBases.ReleaseMessageRoundTrip` | scripts/cut-release.ts:185 | For every accepted branch, version and SHA, the literal commit message, with any line ends after it, reads back as `refs/heads/` of that branch and that SHA. |
| `ReleaseBases.MessageText` | scripts/cut-release.ts:185 | The printed message is the literal text of the release script. |
| `ReleaseBases.PrintedTrailersAreRead` | scripts/cut-release.ts:185 | The same round trip for every canonical ref and full SHA. |
| `ReleaseBases.PopLastParagraph` | scripts/release-base.ts:53-56 | The two popping loops leave the last paragraph. |
| `ReleaseBases.CollectTrailers` | scripts/release-base.ts:58-69 | One pass finds the first malformed trailer or collects both kinds of values. |
| `ReleaseBases.ParseReleaseBaseTrailers` | scripts/release-base.ts:52-84 | The loops and checks compute the parse the theorems are about, error cases included. |
| `Trajectories.EveryCallCountsOnce` | evals/atomic_pier.py:1015-1075 | Over the root and all subagents, totals, peak and the number of agent steps count every model call at its first occurrence only, however many files repeat it. |
| `Trajectories.AddAllCounts` | evals/atomic_pier.py:852-885 | Adding entries adds their first occurrences, in order. |
| `Trajectories.OneStepPerCallCarriesMetrics` | evals/atomic_pier.py:852-885 | The agent steps of all trajectories are the calls read from all files, one for one and in order; a step is a copy without metrics exactly if an earlier call has its entry id or its fingerprint, and otherwise carries the metrics of its usage. |
| `Trajectories.ReportHoldsTheSteps` | evals/atomic_pier.py:1037-1058 | These are the steps of the root and the kept subagents, and their number is the total that is reported. |
| `Trajectories.TrajectoryAccounts` | evals/atomic_pier.py:809-969 | Steps are numbered from one up, the observations hold exactly the tool results of the file, each once and in order, and a non-empty call id on an agent step names one of its calls. |
| `TrajectoryLayouts.TrajectoryIsLaidOut` | evals/atomic_pier.py:809-969 | Every trajectory has, in order, one step for each message that makes one and for each tool result with no model call to attach to, with that entry's source and calls; and the step of a model call observes exactly the tool results that follow it before any other step, in order, each under its call id if that is empty or names one of the step's calls, and under none otherwise. |
| `TrajectoryLayouts.ResultIsWithItsCall` | evals/atomic_pier.py:837-841 | A tool result with no step-making message between it and the model call before it is in that call's step. |
| `TrajectoryLayouts.ResultMakesStepIff` | evals/atomic_pier.py:837-850 | A tool result makes a step if and only if the last step, if there is one, is not an agent's. |
| `TrajectoryTotals.ReportAddsUp` | evals/atomic_pier.py:993-1075 | The totals of a report are sums over the first record of each model call read: input and cache tokens, output tokens, cache tokens, the number of calls, and the largest prompt among those that used or cost anything. |
| `TrajectoryTotals.ReportCountsCompactions` | evals/atomic_pier.py:929-1075 | The report counts every compaction entry of the main file and of the subagents' files. |
| `Trajectories.CallIdIsNamedIff` | evals/atomic_pier.py:819-823 | The call id kept on a result names a call of the step if and only if it is not an empty string that no call has. |
| `Trajectories.AppendObservation` | evals/atomic_pier.py:809-850 | A tool result lands in the last step if that is an agent's, or in a new system step; over a whole file, as `TrajectoryIsLaidOut` describes. |
| `Trajectories.StepFromMessage` | evals/atomic_pier.py:852-916 | The step for one message, with metrics only if it is no copy, and both seen sets extended. |
| `Trajectories.TrajectoryFromEntries` | evals/atomic_pier.py:918-969 | The loop over one file, sharing the seen sets, builds the trajectory the theorems are about. |
| `Trajectories.SumMetrics` | evals/atomic_pier.py:993-1013 | The running totals are those of the metrics carried by agent steps. |
| `Trajectories.WriteTrajectory` | evals/atomic_pier.py:1015-1075 | Root, fallback, subagents and totals over all files, as in the theorems. |

## Left out

- `buildConfigWritePreview` and all reading and writing of files: only the diff of two texts is modelled.
- `parseBarrier`: barriers arrive parsed, with targets trimmed and not empty; the registry that several extensions share through `globalThis` is not modelled, one handler is.
- The terminal key is a value of its own, so its string form is taken to be injective; so are the strings that admission and relay use as signatures (`JSON.stringify`, `buildSendSignature`), which are inputs here.
- What is surfaced, drained or rendered: the callbacks `surface` and `onDrain` are assumed not to throw, and message texts are not built.
- Timers and clocks: time is an input of each step, an integer, and does not run backwards in the runs of the theorems about caches.
- Promises: reactions to one promise run back to back, and a barrier counts as settled when all it waits for has settled; whoever waits resumes at any later time.
- `toLowerCase` and `trim`: parameters, about which nothing is assumed.
- A send of a whole batch: all or nothing, as the atomic batch of the host promises.
- The late-stage router's `completion` promise for joined messages, and `normalizeGroup`: groups arrive normalised.
- `reserve`, `accept`, `listPending`, `handleForegroundInboundDelivery`, `resolveSessionTargetId`: thin wrappers.
- The relay beyond local delivery: broker sends, error entries, liveness of the runtime, and which barrier a result carries.
- Leases are numbered records rather than objects, and a lease's shutdown event, the contexts, what an aborted load cleans up and the tools, shortcuts and commands of the extension are left out; any number of calls may wait for prior cleanup at any time.
- `InboundIdleQueues.RollbackAfterEnqueues`: exact order only for enqueues in between, because the code puts other things back as well; the two runs and the exact condition are in the table.
- `TerminalOrderingDelivery.SerialRunsDeliverOnceInOrder`: only for runs in which nothing but enqueues comes between a claim and its settlement, for the same reason.
- `ForegroundDetachHandoffs.SurfacesOncePerGeneration`: only for generation numbers that are not reused, because otherwise it fails; the run and the exact condition are in the table.
- `ForegroundDetachHandoffs.ForegroundDetachHandoff.FinishWait`: does not model the fields by which a response is matched to the waiting phase; acknowledgements arrive already matched.
- `StableDeliveryRetries.DeliveriesNeverOverlap`: takes it that the caller's `schedule` runs each closure exactly once, as the default timer does; one that runs a closure twice would start two loops.
- `ReplyTrackers.ReplyIsOrderFree`: only while senders keep their names; for other asks `ReplyOrders.OrderNeverMattersIff` compares replies by kind, answered ask and ids, not by the names shown in an error.
- Trajectories: texts, timestamps, models and the cost amounts (floating point); a call counts as free or not, token counts are naturals, and fingerprints are abstract.
- Git, process and version work of the release scripts.
