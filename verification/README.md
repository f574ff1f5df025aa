# PodConnect: verified protocols

PodConnect lets one HomePod be driven by Spotify, by a radio sender and by a voice agent at once. Its
manager (Go) and its Home Assistant integration (Python) drop their locks around HTTP, disk and
`await`, so what matters is what survives every interleaving, lost reply and restart. This project
models five of these protocols and one arithmetic loop as state machines whose events are single
critical sections, and proves their safety over all runs.

| protocol | files |
|---|---|
| live engine state: epochs, revisions, transfer credits, start leases | `live_model`, `live_fence`, `live_freshness`, `live_credits`, `gl_live` |
| native attention lease with durable custody | `custody_journal`, `attention_model`, `attention_gate`, `attention_images`, `attention_custody`, `attention_requests`, `attention_receipts`, `attention_coverage`, `attention_watchdog`, `attention_theorems`, `attention_reload`, `attention_adoption`, `attention_object` |
| radio producer: write-ahead operation records and preemption | `radio_producer`, `radio_producer_proofs`, `radio_producer_effects`, `radio_producer_theorems`, `radio_producer_generations`, `radio_producer_overtaking`, `radio_producer_object` |
| radio coordinator: one operation at a time, honest unknowns | `radio_coordinator`, `radio_coordinator_proofs`, `radio_coordinator_results`, `radio_coordinator_object` |
| command ledger and staged content | `ledger_model`, `ledger_proofs`, `ledger_history`, `playback_commands` |
| two-way volume reconcile | `volume_reconcile` |

Each protocol has a total `Step` function on values, `Run` folds it over a sequence of events
(`runs.dfy`), and theorems speak of `Run(es)` for every `es`. Replies of HTTP peers, disk outcomes,
clocks and port results are parameters of the events, so every reply, loss and failure is covered.
Beside each stateful protocol stands the class whose methods update its fields in place, one method a
critical section, each proved equal to the model's step. For the ledger this is carried to whole runs:
`Interleave` shows that any sequence of segments leaves the object in the state of the model's run. For
the other classes it is not: some of their methods ask for what the surrounding code has just
established (a held credit, a grant, a phase), and the histories that the model adds stay ghost or,
for the claims that `AdmitTransport` and `AdmitRoute` admit, outside the class.

## What the models assume

- Generated UUIDs, tokens and manager process identities are fresh: an event that would repeat one is
  not a step.
- A wire reader has its source from `BeginRun`, so no transfer is read under run 0.
- Clocks are integers that do not go back; counters are unbounded where the code does not guard them.
- A text that must be a UUID or a nonzero numeral is a number, 0 standing for any text the code
  refuses; format checks on fields that nothing else compares are one flag (`formed`).
- The custody journal of attention has three save outcomes (saved, failed with the old image, failed
  with the new image in place). A record of the radio journal is written atomically or not at all.
- Only `Loadable` images are recovered from: an image that does not load faults and blocks, as in the code.

## Where a property is false of the code

- *A reload accepts every saved image* is false: a begin compares its nonce with the previous one only
  (`native_attention.go:76`), reload demands uniqueness within a process (`attention_custody.go:193`).
  `ReusedNonceDoesNotLoad` is the run A, B, A; `BeginLoadsIffFresh` is the exact condition.
- *Every new radio record is newer than all journaled ones* is false: `NewRecordMayBeOlder` is a run in
  which an operation waiting for its intent is revoked and overtaken; `NewGenerationExceeds` shows that an
  operation that is still pending is never overtaken, and gives the exact condition for the others.
- *An unknown radio state is resolved by the receipt of its own operation* is false:
  `ForeignReceiptEndsUnknown`; `UnknownEndsByReconciliation` says exactly when it is, which is what
  `podconnect/manager/radio_result.go:52` checks for its own answers.
- *A recorded terminal outcome never changes* is false where the daemon's own TTL release is adopted
  (`native_attention.go:524`): `RefusedBecomesAccepted` is a run, `OutcomeChangesIffAdopted` the exact condition.
- The comment at `podconnect/manager/main.go:559` on rounding holds from 20 volume steps on, not below:
  `RoundTripExact`, `SettlesExactly`.

## Model

| member | source | states |
|---|---|---|
| `LiveFence.RunFenced` | podconnect/manager/events.go:69-132 | Over any run, revisions and epochs only grow; an unchanged alias revision means the same alias, binding, run, phase and retirement, an unchanged transport revision the same active/paused/stopped: no ABA |
| `LiveFence.TransportRestsOnSnapshot` | podconnect/manager/events.go:89-107 | A transport decision is admitted on exactly the alias and transport that any snapshot with its intent showed |
| `LiveFence.RouteRestsOnSnapshot` | podconnect/manager/events.go:108-120 | A route claim is admitted on exactly the alias and binding that carried its revision |
| `LiveFence.LeaseCommittedOnce` | podconnect/manager/music_start.go:590-614 | A start lease is committed at most once over all runs, and on the alias and transport of the snapshot this lease was issued with |
| `LiveFence.LeaseIssuedOnce` | podconnect/manager/music_start.go:520-524 | The snapshot a lease was issued with never changes, and no two leases share an identity |
| `LiveFreshness.FreshnessNeverGoesBack` | podconnect/manager/events.go:172-272 | Stamping wire events by arrival and replies by request start, each published group only gets fresher, restarts included, and changes value only by getting strictly fresher |
| `LiveFreshness.SlowReplyNeverOverwrites` | podconnect/manager/events.go:236-272 | A status reply publishes a group only if its request started after everything published for that group |
| `LiveCredits.CreditsAreOneShot` | podconnect/manager/connect_recovery.go:28-91 | Each (incarnation, ordinal) is accepted at most once and clears the release marker at most once |
| `LiveCredits.ClearsInTimeUnderConsumedIntent` | podconnect/manager/connect_recovery.go:93-122 | A clear comes less than 5 s after acceptance and under the transport intent of every consumption of that credit |
| `LiveCredits.RetainedIsTheFence` | podconnect/manager/connect_recovery.go:126-138 | A live or retained credit is always the current fence and held by no thread, so a superseded transfer is never revived |
| `LiveCredits.OnlyTheNewestTransferIsUsed` | podconnect/manager/connect_recovery.go:28-247 | In every run the fence is the newest accepted transfer that no clear has spent, and every consumption and every clear was of the transfer that was so at that moment, whoever else removes the release marker |
| `GlLiveObject.GlLive.ObserveStopLocked` | podconnect/manager/events.go:123-131 | One critical section equals the model step: a closed source stop retires the source and renews run, phase and alias revision, once |
| `GlLiveObject.GlLive.TransportSnapshot` | podconnect/manager/events.go:69-74 | One critical section equals the model step: observes a stop, then returns status and intent together |
| `GlLiveObject.GlLive.AdmitTransport` | podconnect/manager/events.go:91-106 | One critical section equals the model step: admits exactly a current intent with a usable binding and no bound native transport |
| `GlLiveObject.GlLive.AdmitRoute` | podconnect/manager/events.go:110-119 | One critical section equals the model step: admits exactly a current alias and revision, and counts the dispatch |
| `GlLiveObject.GlLive.BeginRun` | podconnect/manager/events.go:172-182 | One critical section equals the model step: a new run forgets the accepted reply and moves every epoch |
| `GlLiveObject.GlLive.BeginPhase` | podconnect/manager/events.go:184-195 | One critical section equals the model step: a phase begins only under its own unstopped run, and is then current |
| `GlLiveObject.GlLive.RetirePhase` | podconnect/manager/events.go:201-210 | One critical section equals the model step: only the current phase can be retired |
| `GlLiveObject.GlLive.RetireRun` | podconnect/manager/events.go:212-222 | One critical section equals the model step: only the current run can be retired |
| `GlLiveObject.GlLive.BeginStatus` | podconnect/manager/events.go:224-232 | One critical section equals the model step: a request carries the wire revisions of its start |
| `GlLiveObject.GlLive.AcceptStatus` | podconnect/manager/events.go:236-272 | One critical section equals the model step: each group is published only if no wire event superseded it, and a missing binding cannot drop a known one |
| `GlLiveObject.GlLive.SelectAliasLocked` | podconnect/manager/events.go:360-393 | One critical section equals the model step: an event never mints a player identity: it selects under the same owner or makes the binding not ready |
| `GlLiveObject.GlLive.JudgeCreditLocked` | podconnect/manager/events.go:308-355 | One critical section equals the model step: what the live credit hides, what it observes, and which events end it |
| `GlLiveObject.GlLive.ApplySourceEvent` | podconnect/manager/events.go:294-306 | One critical section equals the model step: a retired source publishes nothing; a hidden event leaves the engine alone |
| `GlLiveObject.GlLive.AcceptConnectRecoveryLocked` | podconnect/manager/connect_recovery.go:28-91 | One critical section equals the model step: a transfer is accepted exactly for the current binding and a newer ordinal within capacity, and becomes live credit and fence |
| `GlLiveObject.GlLive.ConsumeConnectRecovery` | podconnect/manager/connect_recovery.go:93-122 | One critical section equals the model step: expired or foreign credits are dropped, awaiting ones stay, and a current playing one is taken once |
| `GlLiveObject.GlLive.RetainConnectRecovery` | podconnect/manager/connect_recovery.go:126-138 | One critical section equals the model step: a consumed credit returns only unchanged, in time and as the newest ordinal |
| `GlLiveObject.GlLive.CommitConnectRecoveryReceipt` | podconnect/manager/connect_recovery.go:237-247 | One critical section equals the model step: only the fence credit under its own intent clears the marker it saw |
| `GlLiveObject.StartLeases.Offer` | podconnect/manager/music_start.go:516-525 | A new offer replaces any earlier one and expires after 5 s |
| `GlLiveObject.StartLeases.Spend` | podconnect/manager/music_start.go:590-598 | The one use of a current, unexpired lease is spent before the claim is read again |
| `GlLiveObject.StartLeases.Reclaim` | podconnect/manager/music_start.go:599-607 | The fresh claim must carry the leased intent under a live source |
| `GlLiveObject.StartLeases.Commit` | podconnect/manager/music_start.go:608-614 | The lease must still be the current offer, in time, when it is committed |
| `AttentionTheorems.CrashCoverage` | podconnect/manager/attention_custody.go:251-286 | In every run with crashes anywhere, each BEGIN ever sent has its output on disk, never marked unsubmitted, and retired only by an exact release or recovery receipt |
| `AttentionTheorems.DurableBeforeSend` | podconnect/manager/native_attention.go:405-434 | The output of a BEGIN is on disk before the BEGIN leaves |
| `AttentionTheorems.DiskNeverForgets` | podconnect/manager/attention_custody.go:82-163 | The image on disk only grows: sessions, outputs, originals, consumed drains and retirements survive every continuation |
| `AttentionTheorems.OneUnretiredSession` | podconnect/manager/attention_custody.go:296-314 | The journal never holds two unretired sessions |
| `AttentionTheorems.BeginAdmittedAlone` | podconnect/manager/native_attention.go:64-94 | A begin reaches the journal only when every earlier session is retired, no grant is outstanding and nobody works |
| `AttentionTheorems.SubmittedAtMostOnce` | podconnect/manager/native_attention.go:212-223 | Every BEGIN, UPDATE, RELEASE or recovery request is submitted at most once over whole runs with lost replies and restarts |
| `AttentionTheorems.ReceiptsNeverChange` | podconnect/manager/native_attention.go:235-263 | Only a pending receipt is followed by another of the same command, and all receipts of one lease name the same process, incarnation and lease |
| `AttentionAdoption.OutcomeChangesIffAdopted` | podconnect/manager/native_attention.go:235-263 | In every run, the terminal outcome of a command that stays held changes if and only if the last loop, unblocked and allowed, adopts the TTL release of the same lapsed lease over an outcome that was not accepted; it is then accepted |
| `AttentionAdoption.RefusedBecomesAccepted` | podconnect/manager/native_attention.go:512-531 | A run in which it does change: a refused BEGIN becomes accepted when its lapsed lease is adopted and the save that would retire it fails |
| `AttentionTheorems.CleanupExcludesEffects` | podconnect/manager/attention_custody.go:413-426 | Custody cleanup and release-only settlement never overlap an admitted direct effect, and imported custody never ducks |
| `AttentionTheorems.WatchdogBound` | podconnect/manager/native_attention.go:394-433 | Every BEGIN and UPDATE has a TTL of 1 ms to 15 s that ends within 15 s of the last accepted heartbeat, and none is sent under imported custody |
| `AttentionTheorems.ImagesLoadUnlessOwnersRepeat` | podconnect/manager/attention_custody.go:185-222 | An image any run leaves on disk passes the checks of reload if and only if no two sessions share (process, nonce) |
| `AttentionTheorems.BeginLoadsIffFresh` | podconnect/manager/native_attention.go:72-82 | The image saved by an admitted begin loads if and only if its nonce is new in the journal for this process |
| `AttentionReload.ReloadSucceeds` | podconnect/manager/attention_custody.go:165-222 | With fresh nonces, every image of every run loads, and asks for cleanup exactly when a session is unretired |
| `AttentionReload.ReusedNonceDoesNotLoad` | podconnect/manager/native_attention.go:76 | Sessions A, B, A in one process are all admitted and saved, and then the image does not load |
| `CustodyJournal.LoadCustody` | podconnect/manager/attention_custody.go:185-222 | The loops over sessions and outputs fault exactly on an image that is not loadable, and import exactly when a session is unretired |
| `CustodyJournal.SessionChecks` | podconnect/manager/attention_custody.go:193-218 | The loop over one session accepts exactly a well-formed session whose every output passes its checks |
| `AttentionObject.Attention.constructor` | podconnect/manager/attention_custody.go:165-222 | One section equals the model step: a new process starts from the image, idle and inactive |
| `AttentionObject.Attention.ExpireLocked` | podconnect/manager/attention.go:125-130 | One section equals the model step: past the deadline the duck ends and a release is owed |
| `AttentionObject.Attention.Save` | podconnect/manager/attention_custody.go:82-163 | One section equals the model step: nothing is written after a fault, and a failed save faults |
| `AttentionObject.Attention.CustodySessionLocked` | podconnect/manager/attention_custody.go:232-241 | One section equals the model step: the loop finds the first session of this process, nonce and revision |
| `AttentionObject.Attention.CustodyBeginLocked` | podconnect/manager/attention_custody.go:251-263 | One section equals the model step: the original BEGIN is journaled under the current session, or the store faults |
| `AttentionObject.Attention.CustodyRetireLocked` | podconnect/manager/attention_custody.go:265-286 | One section equals the model step: an unsent BEGIN is denied, a sent one needs an exact release receipt |
| `AttentionObject.Attention.CustodyFinishLocked` | podconnect/manager/attention_custody.go:296-314 | One section equals the model step: a session retires only when the loop finds every output retired |
| `AttentionObject.Attention.BeginOwned` | podconnect/manager/native_attention.go:64-93 | One section equals the model step: a begin is admitted after its session is saved; a retried one changes nothing |
| `AttentionObject.Attention.HeartbeatOwned` | podconnect/manager/native_attention.go:84-93 | One section equals the model step: only the admitted session extends the deadline |
| `AttentionObject.Attention.ReleaseOwned` | podconnect/manager/native_attention.go:95-114 | One section equals the model step: a release ends the duck; a repeated one in settlement changes nothing |
| `AttentionObject.Attention.CustodyMutationAdmission` | podconnect/manager/attention_custody.go:629-635 | One section equals the model step: a direct effect is admitted only while nothing blocks or settles |
| `AttentionObject.Attention.CustodyDeleteAdmission` | podconnect/manager/attention_custody.go:649-667 | One section equals the model step: a deletion waits for every session, found by a loop, and for the worker |
| `AttentionObject.Attention.StartReconcile` | podconnect/manager/native_attention.go:340-355 | One section equals the model step: one worker at a time, with the revisions it captures |
| `AttentionObject.Attention.MintBeginLocked` | podconnect/manager/native_attention.go:397-417 | One section equals the model step: a BEGIN is minted only under the captured permission and after its custody is saved |
| `AttentionObject.Attention.CommitBeginLocked` | podconnect/manager/native_attention.go:420-433 | One section equals the model step: after the save the grant gets its exact residual TTL, or its BEGIN is retired unsent |
| `AttentionObject.Attention.Submit` | podconnect/manager/native_attention.go:212-222 | One section equals the model step: a command is submitted once |
| `AttentionObject.Attention.FoldReply` | podconnect/manager/native_attention.go:235-263 | One section equals the model step: a receipt of another identity, lease or terminal outcome is refused |
| `AttentionObject.Attention.RetireNativeGrant` | podconnect/manager/attention_custody.go:287-294 | One section equals the model step: a grant goes only after its output is durably retired |
| `AttentionObject.Attention.FinishReconcile` | podconnect/manager/native_attention.go:356-367 | One section equals the model step: the end of a call gives up the worker and clears the pending release only with a retired session |
| `AttentionObject.Attention.ImportCustody` | podconnect/manager/attention_custody.go:385-408 | One section equals the model step: original custody is imported only for the grant that is still held |
| `AttentionObject.Attention.StartCustody` | podconnect/manager/attention_custody.go:413-426 | One section equals the model step: cleanup starts only under imported custody with no worker and no direct effect |
| `AttentionObject.Attention.ReconcileOutput` | podconnect/manager/attention_custody.go:449-497 | One section equals the model step: a new attempt needs an idle daemon and is saved before it is sent; otherwise the old one is read on |
| `AttentionObject.Attention.RecoveryReplied` | podconnect/manager/attention_custody.go:498-526 | One section equals the model step: a 400 marks the attempt rejected, a valid reply is saved |
| `AttentionObject.Attention.RetireRecovered` | podconnect/manager/attention_custody.go:544-553 | One section equals the model step: an output retires only with the exact receipt of its attempt |
| `AttentionObject.Attention.RetireSession` | podconnect/manager/attention_custody.go:555-561 | One section equals the model step: a session retires after its outputs |
| `AttentionObject.Attention.FinishCustody` | podconnect/manager/attention_custody.go:563-571 | One section equals the model step: the volatile grants go only when every session is retired |
| `RadioCoordinatorProofs.PublishedUnpreempted` | podconnect/manager/radio.go:344-371 | An operation publishes only if no preemption, other operation or refresh moved the generation since its admission |
| `RadioCoordinatorProofs.NoEffectRestores` | podconnect/manager/radio.go:344-371 | A failure without effects restores exactly the state at admission apart from revision, generation and error |
| `RadioCoordinatorProofs.ReservedOnce` | podconnect/manager/radio.go:191-293 | An action identity reaches Reserve at most once |
| `RadioCoordinatorProofs.UnknownEndsByReconciliation` | podconnect/manager/radio_native.go:285-370 | While the state is unknown nothing is offered or admitted, only an exact reconciliation of the captured fence ends it, and that receipt is the current operation’s if and only if the captured fence carries its action |
| `RadioCoordinatorProofs.EffectedFailureLeavesUnknown` | podconnect/manager/radio.go:344-371 | An effected failure leaves unknown, with no offered action for as long as its generation is current |
| `RadioCoordinatorProofs.ForeignReceiptEndsUnknown` | podconnect/manager/radio.go:373-390 | A run in which an operation preempted before its Reserve is resolved by the receipt of the operation before it |
| `RadioCoordinatorResults.ResultCrossesNoOperation` | podconnect/manager/radio_result.go:49-75 | Over any run and continuation, a result that is answered names the last operation ever admitted, none was admitted while the read was under way, and a committed one shows what that operation asked for |
| `RadioCoordinatorObject.RadioCoordinator.ActionsLocked` | podconnect/manager/radio.go:117-155 | One section equals the model step: the loop over targets offers exactly the executable actions |
| `RadioCoordinatorObject.RadioCoordinator.Execute` | podconnect/manager/radio.go:191-268 | One section equals the model step: a command is admitted exactly when it is current, unseen, offered and well formed, and spends its identity |
| `RadioCoordinatorObject.RadioCoordinator.CompleteLocked` | podconnect/manager/radio.go:344-371 | One section equals the model step: nothing is published for another generation; effected failures leave unknown |
| `RadioCoordinatorObject.RadioCoordinator.Reserved` | podconnect/manager/radio.go:293-306 | One section equals the model step: the fence is recorded before it is checked |
| `RadioCoordinatorObject.RadioCoordinator.ObserveNativePreempt` | podconnect/manager/radio.go:376-390 | One section equals the model step: a bound preemption revokes the presentation and moves the generation |
| `RadioCoordinatorObject.RadioCoordinator.BeginRefresh` | podconnect/manager/radio_native.go:285-296 | One section equals the model step: a refresh captures generation, fence and operation |
| `RadioCoordinatorObject.RadioCoordinator.Reconciled` | podconnect/manager/radio_native.go:323-369 | One section equals the model step: an unknown state takes only a valid reconciliation under the captured generation |
| `RadioCoordinatorObject.RadioCoordinator.ObserveFailed` | podconnect/manager/radio_native.go:336-355 | One section equals the model step: a failed read withdraws the controls of a playing radio |
| `RadioProducerTheorems.EffectsOnce` | podconnect/manager/radio_producer.go:301-340 | For each fence every effect is attempted once and its port call issued at most once, over whole runs with concurrent passive reads and restarts |
| `RadioProducerTheorems.CallsAreWriteAhead` | podconnect/manager/radio_producer.go:392-466 | A port call is issued only after its attempt was stored |
| `RadioProducerTheorems.StepAttempts` | podconnect/manager/radio_producer.go:720-733 | Every attempt leaves its record durably in the attempted stage, and only for a record that was not preempted |
| `RadioProducerTheorems.PreemptionIsAbsorbing` | podconnect/manager/radio_producer_preempt.go:81-147 | Once preempted, whatever happens later, nothing is attempted under that fence and the record can only end preempted |
| `RadioProducerTheorems.OneUnsettledRecord` | podconnect/manager/radio_producer.go:283-299 | At most one record is neither settled nor preempted in any reachable state |
| `RadioProducerGenerations.RecordsAreDistinct` | podconnect/manager/radio_producer.go:358-372 | No two records share a generation or an action identity, restarts included |
| `RadioProducerGenerations.NewGenerationExceeds` | podconnect/manager/radio.go:176-189 | A new record of the operation still pending is newer than every journaled one; any new record is newer than those of earlier processes, and newer than all if and only if no later operation of this process was journaled first |
| `RadioProducerOvertaking.NewRecordMayBeOlder` | podconnect/manager/radio_producer.go:290-311 | A run in which a new record is older than a journaled one: while radio plays, an operation stuck in CaptureIntent is revoked by a preemption of the source, and a later one journals first |
| `RadioProducerObject.RadioProducer.Settled` | podconnect/manager/radio_producer.go:283-288 | The loop accepts exactly a journal of settled records without this action |
| `RadioProducerObject.RadioProducer.FindPrepared` | podconnect/manager/radio_producer.go:358-372 | The loop finds the prepared record and accepts exactly when all others are settled |
| `RadioProducerObject.RadioProducer.FindPreempted` | podconnect/manager/radio_producer_preempt.go:57-79 | The loop finds the newest record of the named source, or there is none |
| `RadioProducerObject.RadioProducer.RadioGenerationFloor` | podconnect/manager/radio_producer.go:811-820 | The loop returns the greatest journaled generation |
| `RadioProducerObject.RadioProducer.StoreLocked` | podconnect/manager/radio_producer.go:720-732 | One section equals the model step: a record is stored within capacity or nothing changes |
| `RadioProducerObject.RadioProducer.Preflight` | podconnect/manager/radio_producer.go:270-290 | One section equals the model step: an operation starts only over a settled journal |
| `RadioProducerObject.RadioProducer.BeginPreflight` | podconnect/manager/radio_producer.go:290-311 | One section equals the model step: the journal is checked again and the record stored before the peer is asked |
| `RadioProducerObject.RadioProducer.AdmitEffect` | podconnect/manager/radio_producer.go:473-487 | One section equals the model step: an effect is admitted only under the exact fence from a permitted stage, unsettled and not preempted |
| `RadioProducerObject.RadioProducer.AdvanceEffect` | podconnect/manager/radio_producer.go:734-743 | One section equals the model step: a late reply moves a record only from the stage it was issued in |
| `RadioProducerObject.RadioProducer.GrantNativeHold` | podconnect/manager/radio_producer.go:429-438 | One section equals the model step: only a preemption stops the late native hold |
| `RadioProducerObject.RadioProducer.Finish` | podconnect/manager/radio_producer.go:583-604 | One section equals the model step: a committed result settles an unpreempted record |
| `RadioProducerObject.RadioProducer.Preempt` | podconnect/manager/radio_producer_preempt.go:52-100 | One section equals the model step: the revocation is durable before anything is drained |
| `RadioProducerObject.RadioProducer.Drained` | podconnect/manager/radio_producer_preempt.go:134-153 | One section equals the model step: the drain ticket settles the record as preempted |
| `RadioProducerObject.RadioProducer.Recovered` | podconnect/manager/radio_producer.go:789-798 | One section equals the model step: a recovery settles a record only if nothing touched it |
| `LedgerHistory.SequenceAdmittedOnce` | custom_components/podconnect/commands.py:770-859 | Sequence numbers are admitted in strictly increasing order across direct commands, content and move prepares, even after eviction |
| `LedgerHistory.LedgerBounds` | custom_components/podconnect/commands.py:781-859 | At most one holder of busy, at most 128 receipts, and every record without an outcome owns the current sequence |
| `LedgerHistory.SendsRestOnFreshPolls` | custom_components/podconnect/commands.py:784-837 | Of any two sends, the later rests on a poll that began after the earlier sender finished |
| `LedgerHistory.OutcomeWrittenOnce` | custom_components/podconnect/room_content.py:715-718 | The terminal outcome of a content or move record is written once, though retirement and a late start write it without looking |
| `LedgerHistory.RejectedWasNeverSent` | custom_components/podconnect/room_content.py:690-712 | “rejected” means that no commit of the record was ever dispatched |
| `LedgerHistory.AcceptedWasSentOnce` | custom_components/podconnect/room_content.py:660-689 | “accepted” means exactly one dispatched commit, then a validated completion, then the outcome |
| `LedgerHistory.OutcomeIsFinal` | custom_components/podconnect/room_content.py:612-741 | Whatever happens later, an outcome stays and the record never offers a commit again |
| `LedgerHistory.CancelledNeverStaged` | custom_components/podconnect/room_content.py:743-790 | A cancelled or expired record never becomes staged |
| `PlaybackCommandLedger.Interleave` | custom_components/podconnect/commands.py:770-860 | Any interleaving of uninterrupted segments leaves the object exactly where the model’s run does, invariant and history included |
| `PlaybackCommandLedger.PlaybackCommands.EvictReceipts` | custom_components/podconnect/commands.py:858-859 | One uninterrupted segment equals the model step: the loop evicts the oldest receipts beyond the cap |
| `PlaybackCommandLedger.PlaybackCommands.RetireKind` | custom_components/podconnect/room_content.py:420-431 | One uninterrupted segment equals the model step: the loop over one record dict expires what was staged before the sequence |
| `PlaybackCommandLedger.PlaybackCommands.Execute` | custom_components/podconnect/commands.py:770-859 | One uninterrupted segment equals the model step: a direct command is admitted exactly at the next sequence with the flag free |
| `PlaybackCommandLedger.PlaybackCommands.Sending` | custom_components/podconnect/commands.py:784-847 | One uninterrupted segment equals the model step: a send needs a current poll beyond the floor |
| `PlaybackCommandLedger.PlaybackCommands.ExecuteFinally` | custom_components/podconnect/commands.py:1042-1055 | One uninterrupted segment equals the model step: a possible send moves the floor before the flag is given back |
| `PlaybackCommandLedger.PlaybackCommands.Link` | custom_components/podconnect/room_content.py:559-560 | One uninterrupted segment equals the model step: the loop drops the oldest records beyond the cap |
| `PlaybackCommandLedger.PlaybackCommands.Prepare` | custom_components/podconnect/room_content.py:506-560 | One uninterrupted segment equals the model step: a preparation reserves the next sequence without taking the flag |
| `PlaybackCommandLedger.PlaybackCommands.PrepareResumes` | custom_components/podconnect/room_content.py:561-610 | One uninterrupted segment equals the model step: only a record still staging becomes staged, anything else ends the preparation |
| `PlaybackCommandLedger.PlaybackCommands.Start` | custom_components/podconnect/room_content.py:612-653 | One uninterrupted segment equals the model step: the commit eligibility is consumed before anything is awaited, or expires |
| `PlaybackCommandLedger.PlaybackCommands.StartSends` | custom_components/podconnect/room_content.py:654-667 | One uninterrupted segment equals the model step: the commit leaves only for a fresh observation beyond the record’s own floor |
| `PlaybackCommandLedger.PlaybackCommands.StartResumes` | custom_components/podconnect/room_content.py:668-741 | One uninterrupted segment equals the model step: the outcome is kept if there is one, and the floor moves before the flag is given back |
| `PlaybackCommandLedger.PlaybackCommands.Cancel` | custom_components/podconnect/room_content.py:743-790 | One uninterrupted segment equals the model step: a cancel settles a record as rejected, or as unknown once a commit may have left |
| `PlaybackCommandLedger.PlaybackCommands.QueuePrepare` | custom_components/podconnect/room_queue.py:459-491 | One uninterrupted segment equals the model step: a queue preparation takes the shared flag |
| `VolumeReconcile.RoundTripWithin` | podconnect/manager/main.go:366-398 | However ties fall in both conversions, 20 volume steps keep a written percent within 2 of the percent read back |
| `VolumeReconcile.RoundTripExact` | podconnect/manager/main.go:366-398 | Write-then-read errs by at most 2 at every percent if and only if there are at least 20 steps |
| `VolumeReconcile.DriftReachesOtherSide` | podconnect/manager/main.go:559-588 | However long the bridge runs, the side moved by hand is never written and the other follows it within the tolerance; Spotify wins when both moved |
| `VolumeReconcile.NoEcho` | podconnect/manager/main.go:559-588 | After one tick nothing moves again, however long the bridge goes on |
| `VolumeReconcile.SettlesExactly` | podconnect/manager/main.go:559-588 | One tick settles the loop from every state if and only if there are at least 20 steps |

## Left out

- NoEcho: percent arithmetic is exact; binary floating point enters only in that `RoundTripWithin`
  lets every tie fall either way.
- Manual ordinals and native manual commands (`native_manual.go`): a second, simpler use of the same
  grant, fence and revision checks.
- The bridge's own reclaim of a released room (`podconnect/manager/main.go:986-1062`): only its removal of the
  release marker is an event, `EvMarkReclaimed`, and that may come at any moment.
- The room bridge's transport state (`transState`) and its confirmation counters: its comment on
  start-up lag is not unconditional, as `otConfirmed` survives an unchanged target.
- `attention.tick`, the unowned `engage`, the mode without custody and `glLive.set`: compatibility and
  fixture paths that bypass the strict owner protocol.
- The drain ticket of a record's prior after a later stop, and the contents of holds, proofs and
  receipts beyond the identities the code compares: they stay opaque.
- The journal of the radio producer after a rename whose directory sync fails: the model counts it as
  a write that had no effect.
- A generated UUID that comes back empty for a radio token; the model's tokens are never empty.
- The queue's own preparation map and its one-use receipts (`room_queue.py`): only its use of the
  shared flag and sequence is modelled. The preparation status text shown to clients is left out too.
- Retry cadences, timeouts and background cleanup tasks: each is a reply that may or may not come.
- Owner names, artwork, browse and search projections, configuration flow, the panel, HTTP routing,
  JSON decoding, process supervision and the OAuth client: no deep state.
- Attention's restore and target phases as methods of the class: they are steps of the model only; the
  class carries the sections that mint, submit, fold, retire, import and recover.
