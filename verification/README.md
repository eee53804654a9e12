# A verified model of the LiveKit server's small protocols

The server in `apps/livekit` is held together by small protocols that have to stay right under any interleaving, loss or
retry. This project models them in Dafny and proves, for every run, what they are for. Each component is a module with
a value model (state, step functions, runs as sequences of events), a class whose methods follow the Go code and are
proved against the step functions, and the theorems over all runs.

- **Signal relay** (`MessageChannels`, `SignalEndpoints`, `SignalRelay`, `SignalProgress`, `SignalCopy`): a sink that resends its unacknowledged queue,
  a network that loses, duplicates and reorders packets, a reader that trims duplicates and rejects gaps, and a bounded
  output channel.
- **Reliable data hand-off** (`JoiningParticipant`, `ReliableHandoff`, `MigratedHandoff`, `PublisherMigration`): a joining participant gets
  messages from a cache replay and from live broadcast, exactly once; a migrating publisher continues its sequence.
- **Negotiation** (`Negotiation`, `CandidatePipeline`): the offer/answer state machine of the offering side with
  deferred ICE restarts, and the way of local ICE candidates to the client.
- **Subscriptions** (`SubscriberSettings`, `Subscriptions`, `SubscriptionSections`, `Reconciliation`): versioned settings
  applied by concurrent appliers, and the reconciler that makes held tracks match desired ones.
- **Data structures and algorithms** (`PacketDeduper`, `BatchChunker`, `ParticipantUpdates`, `UpdateFreshness`, `AgentRegistry`,
  `JobAssignment`, `LossRegister`): the fast form is proved to match a simple one.
- `Common` and `StringOrder` hold what several modules share.

`dafny verify dfyconfig.toml` checks everything.

## Assumptions

Calls into pion, psrpc, protobuf, the resolver, random numbers, clocks and timers are events or oracle arguments that may answer anything. Where
a theorem needs more, it says so in a `requires`:

- `SignalRelay.SendIsAcknowledged`: a nil result of `Send` means that the packet has reached the FIFO inbox of the reader.
  `PrefixSafety` and `CleanCloseIsComplete` do without it.
- `ReliableHandoff.CanAdd`: a publisher broadcasts one message at a time, with increasing sequence numbers, which
  `PublisherMigration.ForwardedIncreases` proves of what is forwarded. The room cache returns entries in the order they were added.
- `Negotiation.GatheringStarted`: gathering has started by the time it is reported complete.
- `ParticipantUpdates.Proper`: all updates of a session carry the same join times, with `JoinedAtMs` set; sessions join an
  identity in the order of their join times, and updates are about sessions that have joined.
- `AgentRegistry.RegistersOnce`: every worker object registers at most once, as `HandleConnection` does. `JobAssignment.JobRequest`
  requires the distinct workers that this implies.
- `Reconciliation.Stable`, `EnoughCapacity`: desired tracks resolve to the same publisher and kind, with permission, and no limit is
  below the number of tracks desired.

## Where the code does less than one might expect

- A sink that gives up on undelivered messages at its deadline and goes on, as one without `CloseOnFailure` does, can make the
  reader report a dropped message; one that gives up on messages that were delivered after all does not
  (`SignalRelay.GivingUpDropsIff`).
- The answer identifier is compared, but a mismatch is only logged: an answer to an older offer ends the wait for the
  newer one (`Negotiation.StaleAnswerEndsTheWait`).
- `clearLocalDescriptionSent` does not empty the delay line in the participant, so one candidate from before can come
  out after it (`CandidatePipeline.OnlyNewCandidatesAfterClear`).
- An already-subscribed answer indexes a track that is not held (`Subscriptions.AlwaysExactIff`), and so does a subscribe
  whose track closes before it is added to the index (`SubscriptionSections.NoneStaleIff`). A close that finishes after its
  track was subscribed to again leaves a held track out of the index (`SubscriptionSections.HeldIndexedIff`).
- `CompareParticipant` is not transitive when exactly one of three sessions lacks `JoinedAtMs`
  (`ParticipantUpdates.TransitiveUnlessJustOneUnset`), and with nothing cached and nobody in the room map an update of an older
  session is announced after the newer one (`ParticipantUpdates.AnnouncedInOrderIff`, `LateUpdateGoesBackwards`).
- The fallback of the weighted pick is reachable exactly with a worker listed twice (`JobAssignment.FallbackReachableIff`); a random
  number of exactly zero picks the first candidate the map yields, even a full one (`JobAssignment.ZeroMayPickAFullWorker`).
- The last numbers received before a migration restrict the replay only: a message at or below them that is broadcast after it
  is written (`MigratedHandoff.MigratedHandOff`).
- A message whose broadcast was dropped as a repeated user packet is already in the room cache, so a replay that finds it
  there writes it (`ReliableHandoff.SuppressedIsWrittenIff`).

## Model

| member | source | states |
|---|---|---|
| MessageChannels.MessageChannel.WriteMessage | apps/livekit/pkg/routing/messagechannel.go:56-71 | a write is refused when closed, refused when the buffer is full, and otherwise appended; the buffer never exceeds its capacity |
| MessageChannels.MessageChannel.Close | apps/livekit/pkg/routing/messagechannel.go:77-90 | closing is idempotent: the callback has run exactly once when closed, buffered messages stay |
| SignalEndpoints.SignalMessageSink.WriteMessage | apps/livekit/pkg/routing/signal.go:365-381 | a message is accepted exactly when the stream is open and the sink is not draining; a write loop starts exactly when none is running |
| SignalEndpoints.SignalMessageSink.Close | apps/livekit/pkg/routing/signal.go:282-289 | close starts draining, and starts a write loop exactly when none is running |
| SignalEndpoints.SignalMessageSink.Head | apps/livekit/pkg/routing/signal.go:316-322 | a locked section of the write loop: it ends when there is nothing to do or the stream is closed, otherwise the whole queue is sent with the current sequence number and the draining flag |
| SignalEndpoints.SignalMessageSink.SendReturned | apps/livekit/pkg/routing/signal.go:324-362 | the section after Send: advance past what was acknowledged, give up the queue at the deadline, or go round again with a resend |
| SignalEndpoints.SignalMessageReader.Read | apps/livekit/pkg/routing/signal.go:233-252 | the reader trims what it has and refuses a gap; its position advances by what it keeps |
| SignalEndpoints.TrimExtendsPrefix | apps/livekit/pkg/routing/signal.go:233-252 | trimming a packet that is a slice of the log extends the prefix the reader has, to the end of the packet or not at all |
| SignalEndpoints.CopySignalStreamToMessageChannel | apps/livekit/pkg/routing/signal.go:191-223 | the copy loop refines a recursive description of copying, with its four outcomes |
| SignalEndpoints.ForwardAllAppends | apps/livekit/pkg/routing/signal.go:212-216 | messages go into the channel in order; all of them if and only if it is open and has room for all, and a closed one refuses the first |
| SignalEndpoints.CopyWritesAPrefix | apps/livekit/pkg/routing/signal.go:191-252 | copying any packets that are slices of a log, in any order and with any repetition, leaves a prefix of the log in the channel |
| SignalCopy.ReaderCopies | apps/livekit/pkg/routing/signal.go:191-252 | the steps of the relay reader take any stream to the same outcome and the same channel as the copy loop, so what is proved about the relay is about that loop |
| SignalRelay.StepKeepsInv | apps/livekit/pkg/routing/signal.go:203-381 | every step of sink, write loops, network, reader and consumer keeps: the queue is the log from the sequence number on, every packet ever sent is a slice of the log, at most one write loop runs, what was written is the log up to the position of the reader |
| SignalRelay.PrefixSafety | apps/livekit/pkg/routing/signal.go:203-381 | under loss, duplication, reordering, failed-but-delivered sends and giving up, the output is always a prefix of the accepted messages |
| SignalRelay.CleanCloseIsComplete | apps/livekit/pkg/routing/signal.go:210-220 | a reader that ends on a close packet has written the whole accepted log, and the log never grows afterwards |
| SignalRelay.LogFrozenOnceDraining | apps/livekit/pkg/routing/signal.go:282-289 | once draining starts nothing is accepted any more, in any continuation |
| SignalRelay.AckInvHolds | apps/livekit/pkg/routing/signal.go:324-347 | as long as the sink has not given up on an undelivered message and gone on, the inbox has no gap and reaches everything the sink is done with |
| SignalRelay.NoFalseDrop | apps/livekit/pkg/routing/signal.go:233-252 | if a nil result of Send means the packet is in the inbox: the reader reports a dropped message only in runs in which the sink, at some step, gave up at its deadline on a message that the inbox did not lead to, with its stream open, not draining and not configured to close on failure |
| SignalRelay.AcknowledgedMeansWritten | apps/livekit/pkg/routing/signal.go:344-347 | a reader that has worked through its inbox has written every acknowledged message |
| SignalRelay.GivingUpDropsIff | apps/livekit/pkg/routing/signal.go:326-333 | where the sink gives up and goes on after nothing was lost, with the reader running and its channel open: a reported drop can follow without a further loss if and only if the inbox does not lead to the end of the log |
| SignalRelay.LossLeadsToDrop | apps/livekit/pkg/routing/signal.go:233-252 | every such loss, even after earlier ones, has a continuation with acknowledged sends and no further loss that ends in a reported drop |
| SignalRelay.GivingUpDropsMessages | apps/livekit/pkg/routing/signal.go:326-333 | a run in which it does: two messages are accepted, none is written |
| SignalProgress.WorkIsServed | apps/livekit/pkg/routing/signal.go:316-378 | over any run, a write loop runs while the stream is open and anything is queued or a close is under way |
| SignalProgress.AcceptedIff | apps/livekit/pkg/routing/signal.go:365-374 | after any run a message is accepted if and only if the stream is open and the sink is not closing |
| SignalProgress.StreamClosesIff | apps/livekit/pkg/routing/signal.go:349-361 | an open stream is closed exactly by the network, by the acknowledgement of a close packet, or by a deadline passed while closing or with CloseOnFailure |
| SignalProgress.EverythingCanBeDelivered | apps/livekit/pkg/routing/signal.go:311-362 | progress: after every acknowledged run without a loss, with the stream open and the reader going on, the write loop, network, reader and consumer alone can get everything accepted written, and a reader of a closing sink to a clean close |
| SignalProgress.CloseCanComplete | apps/livekit/pkg/routing/signal.go:282-362 | progress: from every such state a close has a continuation with acknowledged sends, nothing accepted and nobody giving up, in which the whole accepted log is written and the reader ends with a clean close |
| JoiningParticipant.GetCachedReliableDataMessage | apps/livekit/pkg/rtc/room.go:1775-1784 | the loop selects exactly the cached messages at or past the wanted sequence numbers, in cache order |
| JoiningParticipant.Participant.SetMigrateInfo | apps/livekit/pkg/rtc/participant.go:1484-1488 | a migrated receive state makes the replay start one after the last sequence number of that publisher |
| JoiningParticipant.Participant.SendDataMessage | apps/livekit/pkg/rtc/participant.go:3868-3899 | before the replay the first sequence number per sender is remembered, after it the replayed ones are skipped once and everything else is sent; unsequenced messages bypass the hand-off |
| JoiningParticipant.Participant.ReplayJoiningReliableMessages | apps/livekit/pkg/rtc/participant.go:3971-3987 | the replay loop refines a recursive description of replaying, ends with the first sequence numbers cleared and writing enabled |
| JoiningParticipant.SelectedIsWanted | apps/livekit/pkg/rtc/room.go:1775-1784 | of an ordered cache the selection is ordered and holds a message if and only if it is cached and wanted |
| JoiningParticipant.ReplayWritesAddressed | apps/livekit/pkg/rtc/participant.go:3971-3983 | the replay writes exactly the selected messages addressed to the participant, in increasing order per sender |
| JoiningParticipant.ReplayTracksLastWritten | apps/livekit/pkg/rtc/participant.go:3977-3979 | after the replay the last-written map holds, for each sender written, the greatest sequence number written |
| ReliableHandoff.StepKeepsInv | apps/livekit/pkg/rtc/participant.go:3868-3987 | every step of cache-add, snapshot, delivery, expiry, migration and replay keeps the joint invariant of room and joiner |
| ReliableHandoff.NeverDuplicatedOrReordered | apps/livekit/pkg/rtc/participant.go:3886-3896 | for every interleaving, and even when cache entries expire, a joiner gets no message twice, none out of order per sender, and none that is not addressed to it |
| ReliableHandoff.NothingIsMissed | apps/livekit/pkg/rtc/participant.go:3971-3987 | after the replay, a broadcast message at or past the starting sequence number, or delivered later, is written unless its cache entry had expired |
| ReliableHandoff.NoGap | apps/livekit/pkg/rtc/participant.go:3868-3987 | from the first written message of a sender on there is no gap, except for entries that expired before the replay |
| ReliableHandoff.EverythingSeenIsWritten | apps/livekit/pkg/rtc/participant.go:3877-3883 | a joiner that did not migrate writes everything it was ever offered, unless its cache entry expired first |
| ReliableHandoff.WrittenIsReplayedOrLive | apps/livekit/pkg/rtc/participant.go:3868-3987 | over any run that goes live, the output is exactly what one replay found in the cache, wanted and addressed, together with what was delivered live |
| ReliableHandoff.SuppressedIsWrittenIff | apps/livekit/pkg/rtc/room.go:1210-1225 | a message whose broadcast was dropped as a repeated user packet is written if and only if the replay found it: still cached, at or past the starting number, and addressed to the joiner |
| ReliableHandoff.SuppressedMayBeReplayed | apps/livekit/pkg/rtc/room.go:1210-1225 | a run in which that happens |
| MigratedHandoff.StartsAfterLastReceived | apps/livekit/pkg/rtc/participant.go:1484-1488 | of the receive states the last about a publisher counts, and the start is one after its number |
| MigratedHandoff.MigratedHandOff | apps/livekit/pkg/rtc/participant.go:1484-1488 | over any run in which a participant migrates with n as the last number received of a publisher: of its messages exactly those are written that the replay found cached, addressed and numbered above n, and those delivered live; so a finished, unexpired, unsuppressed message above n is written |
| PublisherMigration.MigrationDataCache.Add | apps/livekit/pkg/rtc/migrationdatacache.go:36-55 | waiting, done and timed-out are decided by the sequence number and the deadline; only out-of-sequence packets are kept |
| PublisherMigration.ParticipantData.HandleReceivedDataMessage | apps/livekit/pkg/rtc/participant.go:2454-2466 | a sequenced packet not above the last one is dropped, others are forwarded and move the last sequence number |
| PublisherMigration.ParticipantData.OnReceivedDataMessage | apps/livekit/pkg/rtc/participant.go:2411-2452 | what a received packet does with and without a migration cache, including releasing the cache at the timeout |
| PublisherMigration.ParticipantData.GetLastReliableSequence | apps/livekit/pkg/rtc/participant.go:4153-4158 | handing over the last sequence number stops further sequenced packets when migrating out |
| PublisherMigration.ForwardedIncreases | apps/livekit/pkg/rtc/participant.go:2454-2466 | for any arrivals, forwarded sequence numbers are strictly increasing and above the one the run started from |
| PublisherMigration.DirectForwardsRising | apps/livekit/pkg/rtc/participant.go:2454-2466 | processed directly, a packet of the sequence is forwarded if and only if its number is above the last one and above every number of the sequence that arrived before it, whatever the gaps; all other packets are forwarded, in order |
| PublisherMigration.NothingForwardedWhileWaiting | apps/livekit/pkg/rtc/participant.go:2411-2419 | for any arrivals that leave the cache undecided, no packet of the sequence is forwarded, those above the last number are held, and all other packets pass in order |
| PublisherMigration.ContinuedEqualsDirectFromThere | apps/livekit/pkg/rtc/migrationdatacache.go:45-48 | for any arrivals, when the sequence continues, the output after the other packets that had passed starts the sequence at exactly last + 1 and goes on with the packets numbered above all before them |
| PublisherMigration.TimedOutEqualsDirect | apps/livekit/pkg/rtc/participant.go:2421-2444 | for any arrivals, when the deadline passes first, the output of the whole run has the same packets of the sequence in the same order, and the same other packets in the same order, as direct processing of every arrival; so of all that ever arrived, those are forwarded whose number is above the last one and all before them |
| PublisherMigration.OthersAlwaysPass | apps/livekit/pkg/rtc/participant.go:2411-2451 | whatever the cache does, lossy and unnumbered packets pass, all of them and in order |
| PublisherMigration.EveryRunIsDecidedOnce | apps/livekit/pkg/rtc/participant.go:2415-2449 | in every run the cache waits up to some arrival and is gone after it, for good: the first packet of the sequence that continues it or runs into the deadline |
| PublisherMigration.HandedOverSequenceIsFinal | apps/livekit/pkg/rtc/participant.go:2411-2414 | after migrating out the sequence number handed over stays the last one forwarded |
| Negotiation.PCTransport.CreateAndSendOfferNow | apps/livekit/pkg/rtc/transport.go:2433-2534 | when an offer is made, deferred to Retry or skipped, with the restart option from the request, a previous answer or a deferred restart, and every error exit |
| Negotiation.PCTransport.HandleRemoteAnswerReceived | apps/livekit/pkg/rtc/transport.go:2762-2794 | an answer ends the wait, or starts the deferred negotiation; an unsupported codec is not a failure |
| Negotiation.PCTransport.RestartICE | apps/livekit/pkg/rtc/transport.go:2796-2867 | the six outcomes of an ICE restart: skipped, deferred to gathering, offered, resent with a deferred restart, recovered, failed |
| Negotiation.PCTransport.HandleICEGatheringComplete | apps/livekit/pkg/rtc/transport.go:2200-2208 | a deferred restart is taken up when gathering completes |
| Negotiation.StepKeepsInv | apps/livekit/pkg/rtc/transport.go:2433-2867 | every event keeps: an owed offer is remembered by Retry or by the deferred restart, an owed restart with its option, and no offer is outstanding in the idle state |
| Negotiation.NoLostNegotiation | apps/livekit/pkg/rtc/transport.go:2433-2867 | in an idle transport every send-offer request and ICE restart was followed by a new offer, with the restart option if asked, unless failure or close was reported |
| Negotiation.NothingOwedMeansCovered | apps/livekit/pkg/rtc/transport.go:2433-2867 | the two flags owed by the log mean exactly that some request is not followed by an offer that covers it |
| Negotiation.RetryIsDischargedByAnAnswer | apps/livekit/pkg/rtc/transport.go:2785-2790 | whatever was deferred to Retry is covered by the offer the next answer starts |
| Negotiation.DeferredRestartProceeds | apps/livekit/pkg/rtc/transport.go:2200-2208 | a restart deferred to the end of gathering goes out then or with the offer after the next answer |
| Negotiation.NothingStaysOwed | apps/livekit/pkg/rtc/transport.go:2200-2867 | progress: from every state a run can reach without a failure or a close, an end of gathering and then an answer, both without failures, leave every request covered, no restart deferred and no negotiation in Retry |
| Negotiation.RestartSendsAtOnce | apps/livekit/pkg/rtc/transport.go:2796-2867 | an ICE restart that nothing stands in the way of sends an offer at once in every state: a new one with the restart option, or the unanswered first one again, with the restart due after its answer |
| Negotiation.OffersOnlyAsAsked | apps/livekit/pkg/rtc/transport.go:2433-2867 | over any run: no more new offers than requests; no more offers with the restart option than restart requests, plus one for an answer kept from before a migration, so none in a run without either; and until something fails, offers carry consecutive identifiers |
| Negotiation.FirstOfferAfterMigrationRestarts | apps/livekit/pkg/rtc/transport.go:2449-2462 | over any run after a migration, the first new offer carries the restart option, unless failure or close was reported |
| Negotiation.FreshOffersWaitForAnAnswer | apps/livekit/pkg/rtc/transport.go:2439-2447 | outside the recovery, a fresh offer starts only after an answer to what was outstanding (section 4 of RFC 3264); with matching identifiers, to the last offer itself |
| Negotiation.StaleAnswerEndsTheWait | apps/livekit/pkg/rtc/transport.go:2762-2793 | an answer with an old identifier ends the wait too: the next offer, whether a send-offer, an ICE restart or one deferred to the end of gathering starts it, comes after an answer to the last offer itself if and only if the identifiers matched |
| Negotiation.StaleAnswerStartsTheRetry | apps/livekit/pkg/rtc/transport.go:2785-2790 | the same when a negotiation waits in Retry: the answer itself starts that offer |
| Negotiation.StaleAnswerRun | apps/livekit/pkg/rtc/transport.go:2762-2793 | a run that sends an offer while the one before is unanswered |
| CandidatePipeline.CandidateSender.SendICECandidate | apps/livekit/pkg/rtc/participant_signal.go:217-227 | the one-slot delay line: the previous candidate is sent, final exactly when the new item is the end marker |
| CandidatePipeline.CandidateSender.HandleLocalICECandidate | apps/livekit/pkg/rtc/transport.go:2253-2280 | a local candidate is filtered, cached, or passed on |
| CandidatePipeline.CandidateSender.LocalDescriptionSent | apps/livekit/pkg/rtc/transport.go:2228-2245 | the cache is flushed in order until a write fails |
| CandidatePipeline.CandidateSender.ClearLocalDescriptionSent | apps/livekit/pkg/rtc/transport.go:2247-2251 | a clear starts caching and forgets what was cached |
| CandidatePipeline.EmittedOnceInOrder | apps/livekit/pkg/rtc/participant_signal.go:217-227 | each candidate with a successor comes out once, in arrival order, final exactly right before an end marker (section 13 of RFC 8838) |
| CandidatePipeline.NothingEmittedWhileCaching | apps/livekit/pkg/rtc/transport.go:2247-2273 | nothing is emitted between a clear and the next local description |
| CandidatePipeline.EmittedSinceClear | apps/livekit/pkg/rtc/transport.go:2228-2280 | what is sent after a clear: the candidate left in the delay line, then every unfiltered candidate since, once each and in order |
| CandidatePipeline.OnlyNewCandidatesAfterClear | apps/livekit/pkg/rtc/transport.go:2247-2251 | only candidates since the clear come out if and only if the delay line was empty at the clear |
| CandidatePipeline.OldCandidateComesOut | apps/livekit/pkg/rtc/transport.go:2247-2251 | a run in which it was not, and an old candidate comes out after the clear |
| CandidatePipeline.FilteredIff | apps/livekit/pkg/rtc/transport.go:2253-2263 | while TCP is preferred exactly the TCP candidates and end markers gathered since the clear are passed on, otherwise all of them |
| CandidatePipeline.NothingIsDropped | apps/livekit/pkg/rtc/transport.go:2228-2280 | in runs without blocking and with enough successful writes, everything that entered the delay line has come out of it as it should |
| SubscriberSettings.SubscribedTrack.UpdateSubscriberSettings | apps/livekit/pkg/rtc/subscribedtrack.go:300-319 | equal settings are skipped, otherwise saved and applied at once or debounced |
| SubscriberSettings.SubscribedTrack.BoundSettings | apps/livekit/pkg/rtc/subscribedtrack.go:202-217 | the settings when a video track is bound |
| SubscriberSettings.SubscribedTrack.BeginApply | apps/livekit/pkg/rtc/subscribedtrack.go:326-334 | the first locked section: nothing without settings, otherwise a new version |
| SubscriberSettings.SubscribedTrack.FinishApply | apps/livekit/pkg/rtc/subscribedtrack.go:352-375 | the second locked section: a superseded applier changes nothing, the newest sets mute flag and layer |
| SubscriberSettings.StepKeepsInv | apps/livekit/pkg/rtc/subscribedtrack.go:300-376 | every step of writers, debouncer and appliers, with their unlocked reads one by one, keeps: an applier is still to come, or the newest one has read only the last settings, or the down track shows them |
| SubscriberSettings.SettingsConverge | apps/livekit/pkg/rtc/subscribedtrack.go:325-376 | once all appliers have finished, the mute flag and, for enabled video, the spatial layer are those of the last settings written; if none were written, untouched |
| SubscriberSettings.SettingsAreLastWritten | apps/livekit/pkg/rtc/subscribedtrack.go:300-313 | the saved settings are the last ones written, by an update or by binding |
| SubscriberSettings.BindingKeepsSettings | apps/livekit/pkg/rtc/subscribedtrack.go:202-217 | binding keeps the settings there are, but enables an adaptive stream; without any, an adaptive track starts low and another high |
| SubscriberSettings.ShownWithoutTimerIff | apps/livekit/pkg/rtc/subscribedtrack.go:300-319 | while nothing is being applied, changed settings get to the down track without the timer if and only if the update is immediate or enables a disabled track; all others wait for the timer, and equal settings change nothing |
| SubscriberSettings.ShownAfterTimer | apps/livekit/pkg/rtc/subscribedtrack.go:315-319 | when the timer fires they are applied and shown |
| SubscriberSettings.AudioHasNoLayers | apps/livekit/pkg/rtc/subscribedtrack.go:367-375 | the layer of a track that is not video is never touched |
| SubscriberSettings.VersionsIncrease | apps/livekit/pkg/rtc/subscribedtrack.go:332-333 | versions only go up; a later applier has a greater version than any before |
| Subscriptions.SubscriptionManager.HasCapacityForSubscription | apps/livekit/pkg/rtc/subscriptionmanager.go:495-508 | no capacity exactly when the kind has a positive limit and the count has reached it |
| Subscriptions.SubscriptionManager.SubscribeNow | apps/livekit/pkg/rtc/subscriptionmanager.go:510-637 | one attempt to subscribe, with each exit and what it has changed by then |
| Subscriptions.SubscriptionManager.ReconcileSubscription | apps/livekit/pkg/rtc/subscriptionmanager.go:357-460 | subscribe, unsubscribe or clean up one track, and give up on a track not found in time |
| Subscriptions.SubscriptionManager.DropSubscribedTrack | apps/livekit/pkg/rtc/subscriptionmanager.go:781-796 | the first section of a close: the track is no longer held, nor counted by its kind |
| Subscriptions.SubscriptionManager.RemoveFromSubscribedTo | apps/livekit/pkg/rtc/subscriptionmanager.go:798-814 | the second section of a close: the track is no longer indexed, and the last one of a publisher is signalled |
| Subscriptions.SubscriptionManager.HandleSubscribedTrackClose | apps/livekit/pkg/rtc/subscriptionmanager.go:776-814 | both sections of a close |
| Subscriptions.StepKeepsInv | apps/livekit/pkg/rtc/subscriptionmanager.go:357-814 | every event keeps counts, limits, publisher index and callbacks in agreement with the held tracks |
| Subscriptions.AccountingHolds | apps/livekit/pkg/rtc/subscriptionmanager.go:495-814 | over all runs: counts equal the held tracks per kind and never exceed a positive limit, every held track is indexed under its publisher, no publisher set is empty, callbacks per publisher alternate and the last one tells whether the publisher is indexed |
| Subscriptions.ReconcileKeepsIndexExactIff | apps/livekit/pkg/rtc/subscriptionmanager.go:561-630 | a reconcile leaves only held tracks in the publisher index if and only if it does not get as far as an already-subscribed answer |
| Subscriptions.AlwaysExactIff | apps/livekit/pkg/rtc/subscriptionmanager.go:561-630 | only held tracks are in the publisher index all along a run if and only if no reconcile of it gets that answer |
| Subscriptions.IndexesUnheldTrack | apps/livekit/pkg/rtc/subscriptionmanager.go:561-630 | a run with that answer: a publisher is told subscribed with no track of it held |
| Subscriptions.ToldWhileHeld | apps/livekit/pkg/rtc/subscriptionmanager.go:619-635 | as long as that answer never comes, a publisher is told subscribed exactly while one of its tracks is held |
| SubscriptionSections.SplitAccountingHolds | apps/livekit/pkg/rtc/subscriptionmanager.go:573-814 | with subscribes and closes in their sections and anything in between, over all runs: counts, limits and callbacks hold as before, and a held track is missing from its publisher set exactly while it is lost: kept without being added yet, or taken out by a close of an earlier hold |
| SubscriptionSections.StepKeepsHeldIndexedIff | apps/livekit/pkg/rtc/subscriptionmanager.go:798-814 | a step keeps all held tracks indexed, but one still being added, if and only if it is not the second section of a close that finds its track held again and added |
| SubscriptionSections.HeldIndexedIff | apps/livekit/pkg/rtc/subscriptionmanager.go:573-814 | held tracks are indexed all along a run, but while they are added, if and only if that never happens in it |
| SubscriptionSections.StepLeavesNoneStaleIff | apps/livekit/pkg/rtc/subscriptionmanager.go:616-814 | a step keeps everything indexed either held or about to be taken out by a close, if and only if it neither adds an unheld track that no close will take out nor finishes the last close of a track for another publisher than it is indexed under |
| SubscriptionSections.NoneStaleIff | apps/livekit/pkg/rtc/subscriptionmanager.go:573-814 | nothing stale is indexed all along a run if and only if no step of it does either |
| SubscriptionSections.ToldWhileHeldAtRest | apps/livekit/pkg/rtc/subscriptionmanager.go:616-814 | in runs with neither fault, once no section is left to run, a publisher was told subscribed last exactly while a track of it is held |
| SubscriptionSections.SectionsMakeAReconcile | apps/livekit/pkg/rtc/subscriptionmanager.go:377-635 | the two sections of a subscribe in a row do what the whole reconcile does |
| SubscriptionSections.SectionsMakeAClose | apps/livekit/pkg/rtc/subscriptionmanager.go:776-814 | the two sections of a close in a row do what the whole close does |
| SubscriptionSections.WholeRunsAreSplitRuns | apps/livekit/pkg/rtc/subscriptionmanager.go:357-814 | every run of whole reconciles and closes is also a run of their sections, with the same outcome |
| SubscriptionSections.ClosedBeforeAddedRun | apps/livekit/pkg/rtc/subscriptionmanager.go:589-630 | a run in which a track closes before it is added: its publisher is told subscribed with nothing held and no close to come |
| SubscriptionSections.TakenAwayRun | apps/livekit/pkg/rtc/subscriptionmanager.go:776-814 | a run in which a close takes a held track away: its publisher was told last that it is not subscribed to |
| Reconciliation.DesireChangesIff | apps/livekit/pkg/rtc/subscriptionmanager.go:396-406 | a reconcile changes what is desired exactly for a track that was not found for too long, and for no other |
| Reconciliation.DesiredIsAsked | apps/livekit/pkg/rtc/subscriptionmanager.go:141-180 | over any run a track is desired if and only if that was the last thing asked of it, unless it was given up as not found since |
| Reconciliation.KindIsFirstSeen | apps/livekit/pkg/rtc/subscriptionmanager.go:1011-1013 | the kind of a track once seen stays for as long as it is known |
| Reconciliation.SettlingImproves | apps/livekit/pkg/rtc/subscriptionmanager.go:357-460 | in a stable world, a reconcile or close changes nothing or strictly lowers what remains to do |
| Reconciliation.SomeStepHelps | apps/livekit/pkg/rtc/subscriptionmanager.go:342-355 | with enough capacity there is always a step that gets closer, until exactly the desired tracks are held |
| Reconciliation.ReconciliationTerminates | apps/livekit/pkg/rtc/subscriptionmanager.go:342-460 | however reconciles and closes are ordered and repeated, the number of those that change anything is bounded by what remained to do |
| Reconciliation.ReconciliationEndsSettled | apps/livekit/pkg/rtc/subscriptionmanager.go:342-460 | a run that can change nothing more has ended with exactly the initially desired tracks subscribed and held |
| Reconciliation.ReconciliationCanSettle | apps/livekit/pkg/rtc/subscriptionmanager.go:342-460 | from every state a settling run of bounded length gets there |
| PacketDeduper.UserPacketDeduper.IsDuplicate | apps/livekit/pkg/rtc/user_packet_deduper.go:41-66 | true exactly for a valid nonce in the window of the last hundred; otherwise the window slides |
| PacketDeduper.PacketSlidesWindow | apps/livekit/pkg/rtc/user_packet_deduper.go:51-65 | the map stays one simple acyclic path from tail to head through exactly the window, with fewer than a hundred links at rest |
| PacketDeduper.DuplicateIffRecent | apps/livekit/pkg/rtc/user_packet_deduper.go:41-66 | after any packets, a packet is a duplicate if and only if its nonce has sixteen bytes and is an id among the last hundred of the history, which starts with the zero id |
| PacketDeduper.RepeatsAreFarApart | apps/livekit/pkg/rtc/user_packet_deduper.go:59-65 | an id is let through again only after a hundred other ids |
| BatchChunker.ChunkProtoBatch | apps/livekit/pkg/rtc/utils.go:176-194 | the chunks are nonempty, concatenate to the batch, each fits the target or is a single message, and no other such split has fewer chunks |
| BatchChunker.NoneBetterWithOneMore | apps/livekit/pkg/rtc/utils.go:190-190 | a message kept in the open chunk keeps the greedy split as good as any |
| BatchChunker.NoneBetterWhenFull | apps/livekit/pkg/rtc/utils.go:181-188 | so does starting a new chunk when the message does not fit |
| ParticipantUpdates.CompareIsAntisymmetric | apps/livekit/pkg/rtc/room.go:1882-1910 | the comparison is antisymmetric, and sessions with JoinedAtMs tie only when equal |
| ParticipantUpdates.NewerIffJoinedLater | apps/livekit/pkg/rtc/room.go:1882-1910 | with both join times set a session is older exactly if it joined earlier, to the millisecond, or at the same time with the smaller id |
| ParticipantUpdates.TransitiveUnlessJustOneUnset | apps/livekit/pkg/rtc/room.go:1882-1910 | the comparison is transitive for three sessions if and only if not exactly one of them lacks JoinedAtMs |
| ParticipantUpdates.RoomUpdates.Join | apps/livekit/pkg/rtc/room.go:444-446 | an identity that is in the room cannot join again |
| ParticipantUpdates.RoomUpdates.RemoveParticipant | apps/livekit/pkg/rtc/room.go:1279-1294 | a removal takes out the session it names, or any when it names none |
| ParticipantUpdates.RoomUpdates.BroadcastParticipantState | apps/livekit/pkg/rtc/room.go:1430-1438 | a push is judged against who is in the room under its identity |
| ParticipantUpdates.RoomUpdates.PushAndDequeueUpdates | apps/livekit/pkg/rtc/room.go:1923-1976 | an update is dropped, sent, cached, or sent with the older cached session as disconnected before it |
| ParticipantUpdates.RoomUpdates.Flush | apps/livekit/pkg/rtc/room.go:1488-1498 | a flush sends everything cached once, in some order, and empties the cache |
| ParticipantUpdates.StepKeepsOrderIff | apps/livekit/pkg/rtc/room.go:1923-1976 | a step keeps announced sessions from going backwards if and only if it is not a late update: nobody in the room and nothing cached under the identity, and older than the session last announced |
| ParticipantUpdates.AnnouncedInOrderIff | apps/livekit/pkg/rtc/room.go:1923-1976 | over any run of joins, removals, pushes and flushes, the sessions announced and cached for an identity are non-decreasing if and only if no update of the run was late |
| ParticipantUpdates.AnnouncementsInOrder | apps/livekit/pkg/rtc/room.go:1954-1962 | the sessions announced are in order in every run in which an older session is updated only while somebody is in the room under its identity |
| ParticipantUpdates.LateUpdateGoesBackwards | apps/livekit/pkg/rtc/room.go:1954-1972 | a run that goes backwards: the newer session was flushed and has left, then the older one is updated |
| ParticipantUpdates.SwitchesAreSignalled | apps/livekit/pkg/rtc/room.go:1943-1949 | over any run, each synthesized disconnect is followed right away by the newer session of the same identity |
| ParticipantUpdates.NoSessionIsLost | apps/livekit/pkg/rtc/room.go:1923-1976 | a session that was taken is cached or was announced at the end of every run that goes on from there |
| ParticipantUpdates.StaysInRoom | apps/livekit/pkg/rtc/room.go:1279-1294 | a session in the room stays there in every continuation without a removal by its own id or without one; removals that name other sessions and joins of others do not touch it |
| UpdateFreshness.ShownAfterPush | apps/livekit/pkg/rtc/room.go:1937-1962 | what an identity is shown as, at once or with the next flush, becomes the pushed update unless that is of an older session than the cached one, an older version of the same, or, with nothing cached, of an older session than the one in the room |
| UpdateFreshness.WaitsForFlushIff | apps/livekit/pkg/rtc/room.go:1934-1973 | an update that is taken waits for the flush if and only if it is neither immediate nor a publisher and displaces no other session |
| UpdateFreshness.ShownAsPushedLast | apps/livekit/pkg/rtc/room.go:1923-1976 | in every run that updates an identity in order, it is shown as pushed last, however updates are batched, sent and flushed and whatever happens to others |
| AgentRegistry.AgentHandler.RegisterWorker | apps/livekit/pkg/service/agentservice.go:249-295 | registering lists the worker; the first of a key also adds names and counter, unless its topic cannot be registered |
| AgentRegistry.AgentHandler.DeregisterWorker | apps/livekit/pkg/service/agentservice.go:313-368 | deregistering unlists the worker; the last of a key also removes one entry of each name and the count |
| AgentRegistry.AgentHandler.CheckEnabled | apps/livekit/pkg/service/agentservice.go:468-481 | the report names exactly the namespaces and agent names of live keys, once each and sorted, and the enabled types exactly |
| AgentRegistry.CompactOfSorted | apps/livekit/pkg/service/agentservice.go:475-476 | compacting a sorted list leaves each of its entries once, in order |
| AgentRegistry.RegistryAgrees | apps/livekit/pkg/service/agentservice.go:249-368 | over any run, both name lists are sorted and hold one entry per live key as multisets, and the counters equal the live keys per type |
| AgentRegistry.ListedMeansLive | apps/livekit/pkg/service/agentservice.go:249-368 | the lists hold exactly the workers registered and not deregistered since, each once |
| AgentRegistry.ReportsLiveWorkers | apps/livekit/pkg/service/agentservice.go:468-481 | what is reported as enabled is there exactly while a live worker is |
| AgentRegistry.WorkersById | apps/livekit/pkg/service/agentservice.go:249-320 | the workers by id are those registered last under it, unless one with that id has deregistered since |
| JobAssignment.WalkLoads | apps/livekit/pkg/service/agentservice.go:521-526 | the loop picks what the walk over the candidates, in whatever order, reaches at the point |
| JobAssignment.SelectWorkerWeightedByLoad | apps/livekit/pkg/service/agentservice.go:499-528 | nobody is picked if and only if every available, untried worker listed has a load of 1 or more; otherwise the pick is that of the walk, or the first listed if the walk passes everyone; of distinct workers it is available, untried, and has a load below 1 unless the random number is zero |
| JobAssignment.PickedIffInOwnStretch | apps/livekit/pkg/service/agentservice.go:521-526 | a worker is picked if and only if the point falls in its own stretch, after those of the workers walked before it: the stretch has length 1 - load, and is empty for a full worker, but for the point zero |
| JobAssignment.PickedInProportion | apps/livekit/pkg/service/agentservice.go:507-526 | of distinct workers each is picked exactly for the points, out of the sum of what all have left, within its own 1 - load right after those walked before it |
| JobAssignment.PointFallsInIff | apps/livekit/pkg/service/agentservice.go:520-520 | the random numbers that lead into a stretch are in proportion to its length |
| JobAssignment.FallbackReachableIff | apps/livekit/pkg/service/agentservice.go:521-527 | the fallback after the loop is reached for some random number if and only if an available, untried worker with a load below 1 is listed twice |
| JobAssignment.ZeroPicksTheFirst | apps/livekit/pkg/service/agentservice.go:521-525 | at the random number zero the first worker walked is picked, so the pick has capacity exactly if that one has |
| JobAssignment.ZeroMayPickAFullWorker | apps/livekit/pkg/service/agentservice.go:521-525 | a full worker that is picked so, with an idle one beside it |
| JobAssignment.JobRequest | apps/livekit/pkg/service/agentservice.go:378-429 | with the listed workers fixed, each is tried at most once and the search ends: assigned, failed, or with everybody untried unavailable or at a load of 1 or more |
| LossRegister.TransportManager.OnMediaLossUpdate | apps/livekit/pkg/rtc/transportmanager.go:881-905 | the register shifts in a report; a failure is raised and the register cleared under the conditions of the next rows |
| LossRegister.TransportManager.RecordReport | apps/livekit/pkg/rtc/transportmanager.go:886-890 | a report shifts the register by one, with its lowest bit set exactly if the report is unstable |
| LossRegister.ShiftRecordsNewest | apps/livekit/pkg/rtc/transportmanager.go:886-888 | shifting puts the new report first and drops the oldest of the 32 |
| LossRegister.RegisterHoldsNewest | apps/livekit/pkg/rtc/transportmanager.go:881-905 | after any run the 32 bits are exactly the last 32 reports since the last reset |
| LossRegister.FailsOverIff | apps/livekit/pkg/rtc/transportmanager.go:887-892 | a report triggers the fallback if and only if this is switched on, the loss is at least 63 of 255, at least 20 of the last 32 since the last reset are, and the signalling round trip is below 1.3 times that of UDP and below the threshold, with a recent signal |
| LossRegister.FailuresAreRare | apps/livekit/pkg/rtc/transportmanager.go:599-604 | every fallback uses up twenty reports of its own |

## Left out

- Wrap-around of sequence numbers, versions and offer identifiers (uint32, uint64): numbers are unbounded, except in the loss register.
- Retry intervals, deadlines, debouncers and timers: a deadline or timer may fire at any step, back-off only changes when.
- SignalEndpoints.CopySignalStreamToMessageChannel: nothing is received from the channel during the method; the concurrent consumer is in the step relation of `SignalRelay`.
- ReliableHandoff.NeverDuplicatedOrReordered: `DestinationSids` are not modelled, and the claim that nothing reaches a joiner it is not addressed to depends on their absence: the room cache records destination identities only, so a replay sends a packet addressed by sids alone to everybody.
- Send failures of data channels: `out` is what was handed to the transport, in the order of the critical sections; a live send leaves the lock before it writes.
- The answering side of `PCTransport`, SDP filtering, the signal state check timer and everything inside pion.
- Negotiation.NoLostNegotiation: an ICE restart asked for while gathering is still new is no request, because the code skips it.
- Closing a participant during candidate sending: modelled as a blocked or failed write, after which only the safety half is claimed.
- SubscriberSettings.SettingsConverge: the temporal layer is left out, because it stays as it was when no frame rate is asked for; the layers that the media track offers for a quality and a dimension are fixed for a run.
- The synchronous subscribe path (rtc/subscriptionmanager.go:639-716): it does not check limits; binding, telemetry and error callbacks of subscriptions.
- The per-track lock of a subscription: subscriptions are values in a map. Reconciling a track and closing one are single steps in `Subscriptions` and `Reconciliation`; `SubscriptionSections` splits both at the locked section of the publisher index.
- Registering the close callback and keeping the subscribed track (rtc/subscriptionmanager.go:574-589) are one section: the source ignores a close that runs between them.
- Subscriptions.AccountingHolds: the callbacks are those decided on under the lock. The one with false runs asynchronously, so calls may overtake each other.
- Pending unsubscribes are an oracle answer and not a counter; `Reconciliation` needs only that asked-for closes do come.
- Versions within one session of a participant: an out-of-order update is dropped only while one is cached, so only the order of sessions is claimed.
- The order in which concurrent callers of `SendParticipantUpdates` reach a client after the lock is released.
- `sort.Strings` is modelled as sorted insertion, and `slices.Compact`, `slices.Index` and `slices.Delete` by their results.
- Rounding of loads and capacities in the weighted pick, and of `udpRTT * 1.3` in the loss register: exact numbers are used instead of float32.
- Jobs of a deregistered worker, job termination and affinity: plain map updates and a sum.
- Connection fallback after `OnFailed` (the ICE preference, `failureCount` and `isTransportReconfigured`): short flag checks.
- Stores, ingress, egress, SIP, authentication, configuration, metrics and the TypeScript applications: plumbing, or one-branch checks.
