# Voice control plane and reliable outbound channel: a Dafny model

This project models the stateful core of the kergit server and proves what it keeps over whole
runs. Two parts carry most of the weight.

- **Voice.** LiveKit reports joins and leaves by webhook, late, repeated or out of order. The voice
  service correlates them with staged intents, keeps who sits where (`VoiceSessions`), rotates the
  end-to-end key of a channel on every membership change (`KeyRing`, `ChannelKeys`), and lets a
  reconciler remove only what has been missing for long enough (`Evidence`). `VoiceWorld` gives
  each handler as a function on a value world; `VoiceService` proves that the imperative handlers
  compute these functions; `VoiceConfluence`, `VoiceRuns` and `VoiceReconcile` prove what they
  guarantee; `KeyConvergence` takes the key steps apart and lets them interleave.
- **Outbound.** Each connection has a bounded outbox and a reliable buffer (`Outbound`).
  `OutboundDelivery` sets it against a network that loses, repeats and reorders and a client that
  may ack anything; `OutboundQueues` is about the index of unacked connections and about
  overflow; `OutboundRuns` puts all connections of a worker together, and `OutboundSystem` adds
  their clients and carries the results about one link and one outbox over to the whole worker.

Seven smaller components stand beside them: `Subscriptions` (copy-on-write fan-out lists), `Pool`
(connection pool and transaction runner), `Hubs` (caches over the repository), `Sessions` (six
session maps), `Workers` (in-flight guard), `MessageWriter` (write queue with retries) and
`NodeRegistry` (room counters).

State that the source updates in place is a class whose methods are proved against functions on
values. Runs are sequences of states and steps; a run-level result quantifies over all of them.
Keys, nonces and connections are tokens. The clock, Redis being up, the random source, connected
sessions, channel lookups, remote participant lists and the transport's answers are inputs. Redis
is a map, with expiry as a step of its own. Handlers are atomic except in `KeyConvergence`,
`Workers` and `MessageWriter`, which are about interleaving.

## What turned out to be conditional

Each of these comes with the exact condition, most of them with a concrete input as well.

- A switch reordered by the network converges in the handlers, but the timestamp filter in front of
  them drops the older event (`DeliveredSwitchConfluentIff`).
- A superseded leave does unseat the user when a switch away from that channel is staged
  (`SupersededLeaveHarmlessIff`).
- A departure during a Redis outage leaves the old key in storage (`LeaveLocksOutIff`,
  `ForcedLeaveLocksOutIff`, `FinishLocksOutIff`, `PassLocksOutIff`, `DepartureLocksOutIff`).
- An empty participant list does not clear the suspicion against a member whose owner is connected
  (`ConnectedOwnerClearsIff`).
- The storage write of the lock-free fast path can land after a clear and bring an old key back
  (`UnlockedPersistSafeIff`).
- A key minted for a channel believed empty is not broadcast, and the belief is formed before the
  lock is taken (`CreateFreshSafeIff`).
- A webhook delivered twice can act the second time if Redis was down the first time
  (`RepeatedJoinIdempotentIff`, `RepeatedLeaveIdempotentIff`).
- Acks are taken unchecked. One beyond the last stamped number breaks the run (`AckKeepsExactIff`),
  and one for a frame the client does not have loses it (`HeldUntilAcked`, `OverAckLosesFrame`).
  Only at-least-once depends on that; the bounds on sends and losses hold for any client.
- An overflowed connection with an invalid handle drops out of the sweep's index
  (`SweepKeepsCoverIff`).
- Two hub ids with equal hashes share a cache slot, so a read can answer with the other hub and a
  write can go to the other hub's snapshot (`LookupsRightIff`, `CreateChannel`, `DeleteHub`); warming
  the cache stores the caller's record, current or not (`WarmSnapshotsForHubs`).
- Returning a connection that is not lent out lists its slot as free twice (`Release`).
- An exception before the in-flight mark clears another worker's mark (`EarlyThrowSafeIff`).

## Where code and documentation differ

The model follows the code.

- docs/VOICE.md has a participant unknown to the server adopted when its intent or its session
  correlates (lines 209-221). The join handler behind the check ignores it without a matching
  intent (`AdoptionNeedsMatchingIntent`).
- docs/VOICE.md describes a window in which a forced re-key blocks joins (lines 60-67 and 272). The
  code has no such window.

## Model

| member | source | states |
|---|---|---|
| `VoiceSessions.FlatIsFaithful` | app/services/voice/VoiceSessionManager.cpp:5-53 | two consistent pairs of maps with the same flat table of seats are the same pair, so nothing is lost in the flat view the methods are specified by |
| `VoiceSessions.EntryIffOccupied` | app/services/voice/VoiceSessionManager.cpp:228-232 | a channel has an entry exactly when somebody is seated in it |
| `VoiceSessions.ActiveCountIsSumOfChannels` | app/services/voice/VoiceSessionManager.cpp:193-196 | the active user count is the sum of the channel sizes |
| `VoiceSessions.VoiceSessionManager.constructor` | app/services/voice/VoiceSessionManager.cpp:3-5 | starts with nobody seated and the maps consistent |
| `VoiceSessions.VoiceSessionManager.Join` | app/services/voice/VoiceSessionManager.cpp:5-31 | moves the user into the channel; mute and deafen survive only for the same session; reports whether the channel had nobody else |
| `VoiceSessions.VoiceSessionManager.Leave` | app/services/voice/VoiceSessionManager.cpp:33-53 | a leave for another channel changes nothing; reports empty exactly when it removed the last member |
| `VoiceSessions.VoiceSessionManager.LeaveIfOwner` | app/services/voice/VoiceSessionManager.cpp:74-95 | removes the user only for the owning session, with the same report |
| `VoiceSessions.VoiceSessionManager.SetMuted` | app/services/voice/VoiceSessionManager.cpp:97-112 | sets the mute flag and reports whether anything changed |
| `VoiceSessions.VoiceSessionManager.SetDeafened` | app/services/voice/VoiceSessionManager.cpp:114-137 | sets deafen and mute together and reports whether anything changed |
| `VoiceSessions.VoiceSessionManager.UserChannel` | app/services/voice/VoiceSessionManager.cpp:139-144 | the channel the flat table seats the user in |
| `VoiceSessions.VoiceSessionManager.UserSession` | app/services/voice/VoiceSessionManager.cpp:146-151 | the session that owns the user's seat |
| `VoiceSessions.VoiceSessionManager.TransferOwnerSession` | app/services/voice/VoiceSessionManager.cpp:153-162 | moves ownership only from the expected session |
| `VoiceSessions.VoiceSessionManager.UsersInChannel` | app/services/voice/VoiceSessionManager.cpp:179-191 | exactly the users seated in the channel |
| `VoiceSessions.VoiceSessionManager.ClearChannel` | app/services/voice/VoiceSessionManager.cpp:208-226 | unseats exactly the channel's members and returns them |
| `VoiceSessions.VoiceSessionManager.IsEmpty` | app/services/voice/VoiceSessionManager.cpp:228-232 | true exactly when nobody is seated in the channel |
| `VoiceSessions.VoiceSessionManager.ApplyVoiceActivity` | app/commands/activity/VoiceChannelActivityCommand.cpp:127-167 | the two-step update ends in the wanted audio state with deafened implying muted, and reports a change exactly when the seat changed |
| `VoiceServices.VoiceService.constructor` | app/services/voice/VoiceService.cpp:47-70 | the service starts in the initial world |
| `VoiceServices.VoiceService.Correlate` | app/services/voice/VoiceService.cpp:643-668 | which session and audio state a join event is admitted with, if any |
| `VoiceServices.VoiceService.Seat` | app/services/voice/VoiceService.cpp:700-705 | joining, then deafening or muting, seats the user with the admitted audio state |
| `VoiceServices.VoiceService.HandleParticipantJoined` | app/services/voice/VoiceService.cpp:639-760 | refines the join handler of the world, errors and ignored events included |
| `VoiceServices.VoiceService.ClassifyLeave` | app/services/voice/VoiceService.cpp:762-784 | when a leave event ends the current stay and when it is half of a switch |
| `VoiceServices.VoiceService.HandleParticipantLeft` | app/services/voice/VoiceService.cpp:762-858 | refines the leave handler of the world |
| `VoiceServices.VoiceService.File` | app/services/voice/VoiceService.cpp:195-212 | which webhooks count as repeats or as outdated, and what is remembered of the others |
| `VoiceServices.VoiceService.OnParticipantEvent` | app/services/voice/VoiceService.cpp:995-1135 | drops repeated ids and outdated timestamps before the handlers, and files the rest |
| `VoiceServices.VoiceService.ForceLocalLeave` | app/services/voice/VoiceService.cpp:285-309 | removes the user, then clears or rotates the key |
| `VoiceServices.VoiceService.OnChannelFinish` | app/services/voice/VoiceService.cpp:267-283 | unseats everybody and forgets key, start time and evidence |
| `VoiceServices.VoiceService.HasActiveOwnerConnection` | app/services/voice/VoiceService.cpp:389-397 | the user sits here and the owning session is connected |
| `VoiceServices.VoiceService.ActiveOwnerConnectionCount` | app/services/voice/VoiceService.cpp:399-407 | the number of members with a connected owner session |
| `VoiceServices.VoiceService.IndexByUser` | app/services/voice/VoiceService.cpp:456-462 | the remote list by user: nameless rows skipped, the first row of a user wins |
| `VoiceServices.VoiceService.CheckAllMissing` | app/services/voice/VoiceService.cpp:553-576 | visits each unlisted member once, holding the connected ones and removing the confirmed ones |
| `VoiceServices.VoiceService.AdoptAll` | app/services/voice/VoiceService.cpp:578-636 | visits each remote row once and adopts through the join handler |
| `VoiceServices.VoiceService.ReconcileChannelState` | app/services/voice/VoiceService.cpp:442-637 | one pass refines the reconcile function of the world for some visiting order |
| `VoiceServices.VoiceService.JoinVoiceChannel` | app/commands/activity/JoinVoiceChannelCommand.cpp:149-250 | the join request: revoke, acquire the key, stage the intent, in this order and with every failure exit |
| `VoiceServices.VoiceService.TryResumeVoiceOwnership` | app/services/voice/VoiceService.cpp:1153-1191 | ownership moves to the new session and the live key is sent to it |
| `VoiceServices.VoiceService.OnRoomFinished` | app/services/voice/VoiceService.cpp:1034-1049 | a finished room unseats nobody: unless guarded it resets the evidence and requests a pass |
| `VoiceServices.VoiceService.OnSessionDestroyed` | app/services/voice/VoiceService.cpp:1137-1141 | requests a pass over the user's channel, if any |
| `VoiceServices.VoiceService.Run` | app/services/voice/VoiceService.cpp:442-1191 | any script of webhooks, commands, passes and expiries takes the service through a run of the world, so every result about runs holds of it |
| `VoiceConfluence.AskStagesSwitch` | app/commands/activity/JoinVoiceChannelCommand.cpp:210-250 | a successful request from another channel stages exactly the switch the next results start from |
| `VoiceConfluence.SwitchConfluent` | app/services/voice/VoiceService.cpp:639-858 | for every staged switch the old leave and the new join, in either order, end in the same world, given in closed form: seat, owner, audio state, intent, start times, key, evidence |
| `VoiceConfluence.DeliveredSwitchConfluentIff` | app/services/voice/VoiceService.cpp:361-373 | through the webhook front door both orders agree if and only if a timestamp is missing or the two are equal; the order of the timestamps always gives the full switch |
| `VoiceConfluence.StampedSwitchCanDiverge` | app/services/voice/VoiceService.cpp:361-373 | a run to a switch with increasing timestamps whose reversed delivery ends differently |
| `VoiceConfluence.HandledIff` | app/services/voice/VoiceService.cpp:195-373 | over any sequence of arrivals and forgotten ids, a webhook gets past the front door if and only if Redis does not know its id from an earlier arrival and no later-stamped one of the same user overtook it |
| `VoiceConfluence.HandledInOrder` | app/services/voice/VoiceService.cpp:998-1014 | of webhooks that get through, one user's come in order of their timestamps, and no id comes twice while Redis is up and remembers it |
| `VoiceConfluence.DeliveryKeepsReachable` | app/services/voice/VoiceService.cpp:995-1014 | whatever the front door does with an event leads from a reachable world to a reachable one, so results about runs hold behind it |
| `VoiceConfluence.SupersededLeaveHarmlessIff` | app/services/voice/VoiceService.cpp:762-784 | a leave of a superseded session or nonce changes no seat if and only if it does not complete a staged switch away from that channel; it never vacates the channel being joined and never touches others |
| `VoiceConfluence.SupersededLeaveCanUnseat` | app/services/voice/VoiceService.cpp:779-790 | a run in which a superseded leave does unseat the user through the switch branch |
| `VoiceConfluence.TakeoverSurvivesLateLeave` | app/services/voice/VoiceService.cpp:639-858 | after a takeover in the same channel the late leave of the old session changes no seat in either order |
| `VoiceConfluence.ResumedSeatOutlivesOldSession` | app/services/voice/VoiceService.cpp:1153-1187 | after a resume, the late leave of the old session leaves the resumed seat alone |
| `VoiceConfluence.RepeatedJoinIsIdempotent` | app/services/voice/VoiceService.cpp:670-698 | a join event with session and nonce delivered twice leaves membership, owner and audio as after once |
| `VoiceConfluence.RepeatedJoinIdempotentIff` | app/services/voice/VoiceService.cpp:643-698 | with Redis coming and going: the second delivery changes a seat exactly when only it could read a matching intent that asks for another seat |
| `VoiceConfluence.RepeatedLeaveIsIdempotent` | app/services/voice/VoiceService.cpp:762-858 | a leave event delivered twice leaves the seats as after once |
| `VoiceConfluence.RepeatedLeaveIdempotentIff` | app/services/voice/VoiceService.cpp:762-858 | in general the second delivery changes a seat exactly when only it is handled and the user sits there |
| `Evidence.ReconcileEvidenceTracker.ObserveChannelMissing` | app/services/voice/ReconcileEvidenceTracker.cpp:8-22 | confirmed exactly when a first observation is at least the grace time old; confirming forgets the channel |
| `Evidence.ReconcileEvidenceTracker.ObserveParticipantMissing` | app/services/voice/ReconcileEvidenceTracker.cpp:24-40 | the same for one participant |
| `Evidence.ReconcileEvidenceTracker.ClearChannelMissing` | app/services/voice/ReconcileEvidenceTracker.cpp:42-45 | forgets the channel's own observation and nothing else |
| `Evidence.ReconcileEvidenceTracker.ClearParticipantMissing` | app/services/voice/ReconcileEvidenceTracker.cpp:47-56 | forgets one participant's observation and nothing else |
| `Evidence.ReconcileEvidenceTracker.ResetChannel` | app/services/voice/ReconcileEvidenceTracker.cpp:58-62 | forgets everything about the channel and nothing about others |
| `VoiceReconcile.PassSparesLiveOwners` | app/services/voice/VoiceService.cpp:442-637 | a pass leaves everyone with a connected owner session exactly as they were, and touches nobody seated elsewhere except by adopting them |
| `VoiceReconcile.SuspicionStep` | app/services/voice/VoiceService.cpp:533-576 | evidence against a participant either survives an undisturbing step unchanged or is born in an observation now |
| `VoiceReconcile.RemovalIsJustified` | app/services/voice/VoiceService.cpp:552-576 | in every run a removal is preceded by a first observation at least the grace time earlier, with no failed poll, no poll listing the user, no poll that listed anybody while their owner was connected, and no join, handled leave or finished room in between |
| `VoiceReconcile.ConnectedOwnerClearsIff` | app/services/voice/VoiceService.cpp:515-562 | a pass during which the owner of a suspected member is connected forgets the suspicion if and only if the poll failed or listed somebody |
| `VoiceReconcile.EmptyListKeepsSuspicion` | app/services/voice/VoiceService.cpp:515-532 | a run in which a pass with an empty list saw the owner connected between the first observation and the removal |
| `VoiceReconcile.ClosureIsJustified` | app/services/voice/VoiceService.cpp:491-537 | in every run a closed room was found empty at least the grace time earlier, and every pass since was empty with no connected owner |
| `VoiceReconcile.AdoptionNeedsMatchingIntent` | app/services/voice/VoiceService.cpp:583-636 | an unknown remote participant is adopted if and only if a pending intent for the channel carries the same session and nonce |
| `VoiceReconcile.LiveSessionAloneIsNotAdopted` | app/services/voice/VoiceService.cpp:597-603 | a reachable world in which a connected session without an intent passes the trust check and is still not adopted |
| `KeyRing.E2EEKeyManager.GetOrCreateKey` | livekit/crypto/E2EEKeyManager.cpp:9-21 | keeps a live key, otherwise mints one at index 0 |
| `KeyRing.E2EEKeyManager.Install` | livekit/crypto/E2EEKeyManager.cpp:30-35 | stores the key with its index reduced modulo the ring size |
| `KeyRing.E2EEKeyManager.RotateKey` | livekit/crypto/E2EEKeyManager.cpp:37-44 | a new key at the next index, or index 0 without a previous key |
| `KeyRing.E2EEKeyManager.ClearKey` | livekit/crypto/E2EEKeyManager.cpp:46-49 | forgets the channel's key only |
| `KeyRing.SlotsStayInRange` | livekit/crypto/E2EEKeyManager.cpp:9-49 | after any sequence of operations every index is below 16 |
| `KeyRing.MintedKeysWalkTheRing` | livekit/crypto/E2EEKeyManager.cpp:37-44 | without a clear, the n-th rotation of a channel sits n slots further round the ring |
| `KeyRing.RecentKeysDoNotCollide` | livekit/crypto/E2EEKeyManager.cpp:37-44 | any 16 consecutive keys without a clear occupy distinct slots |
| `ChannelKeys.ChannelKeyService.PublishKeyUpdate` | app/services/voice/VoicePublisher.cpp:148-171 | the loop sends the key to exactly the members with a connected owner session |
| `ChannelKeys.ChannelKeyService.RotateAndBroadcast` | app/services/voice/ChannelKeyService.cpp:360-394 | mint, persist, broadcast; unchanged when the random source fails |
| `ChannelKeys.ChannelKeyService.ResyncToUser` | app/services/voice/ChannelKeyService.cpp:396-412 | sends the live key to the user's owner session, if all of these exist |
| `ChannelKeys.ChannelKeyService.ClearChannel` | app/services/voice/ChannelKeyService.cpp:414-423 | forgets the live key, the stored copy when Redis answers, and the debounce marks |
| `ChannelKeys.ChannelKeyService.RecordJoinAndShouldDebounce` | app/services/voice/ChannelKeyService.cpp:561-572 | true exactly within the sliding window, which every call moves on |
| `ChannelKeys.ChannelKeyService.AcquireForJoin` | app/services/voice/ChannelKeyService.cpp:229-358 | rotate among others, otherwise keep, restore or mint, with every fallback |
| `ChannelKeys.RotationLocksOut` | app/services/voice/ChannelKeyService.cpp:360-394 | a rotation mints a key that nobody outside the channel was ever sent |
| `VoiceRuns.RetryStormRotatesOnce` | app/services/voice/ChannelKeyService.cpp:246-266 | however long a user keeps asking within the window, after the first request nothing is minted, stored or broadcast: every join token carries the key already live, so the only thing that can be new is that the user holds it |
| `VoiceRuns.NewcomerGetsUnusedKey` | app/services/voice/ChannelKeyService.cpp:233-266 | joining an occupied channel yields a key never used before, held by exactly the newcomer and the members with a connected owner session |
| `VoiceRuns.EmptyChannelGetsUnusedKey` | app/services/voice/ChannelKeyService.cpp:279-295 | the first to ask for a channel confirmed empty gets a key never used before, whatever is in storage |
| `VoiceRuns.ReachableWorldsKeepInv` | app/services/voice/VoiceSessionManager.cpp:114-137 | in every reachable world deafened implies muted, and every key in memory or storage was minted for its own channel with an index below 16 |
| `VoiceRuns.LeaveLocksOutIff` | app/services/voice/VoiceService.cpp:762-858 | after a handled leave neither the live nor the stored key was ever sent to the user, if and only if the random source (when others remain) and Redis did their part or the user never held the key |
| `VoiceRuns.ForcedLeaveLocksOutIff` | app/services/voice/VoiceService.cpp:285-309 | the same for a removal by the reconciler, seated or not |
| `VoiceRuns.FinishLocksOutIff` | app/services/voice/VoiceService.cpp:267-283 | the same for a closed room, where only Redis matters |
| `VoiceRuns.StoredKeyCanOutliveDeparture` | app/services/voice/ChannelKeyService.cpp:520-528 | a run in which a user enters a channel and leaves it during a Redis outage: the leave is handled and the key they hold stays in storage |
| `VoiceRuns.PassLocksOutIff` | app/services/voice/VoiceService.cpp:442-637 | the same for a member whose seat a whole pass takes away, among any other removals and adoptions of that pass |
| `VoiceRuns.DepartureLocksOutIff` | app/services/voice/VoiceService.cpp:257-309 | exactly which departures in a run, by leave, removal or closed room, lock the user out, by a condition on the world before the step |
| `VoiceRuns.DepartureLocksOut` | app/services/voice/VoiceService.cpp:257-309 | with Redis and the random source up at the departure, every one of them does |
| `VoiceRuns.DepartedUserStaysLockedOut` | app/services/voice/VoiceService.cpp:639-858 | after a departure that meets this condition the lock-out lasts through every later step until the user asks to join or is seated again |
| `KeyConvergence.UnlockedPersistSafeIff` | app/services/voice/ChannelKeyService.cpp:346-348 | the one storage write outside the lock leaves nothing to restore if and only if the channel was not cleared in the meantime |
| `KeyConvergence.CreateFreshSafeIff` | app/services/voice/ChannelKeyService.cpp:270-295 | minting for a channel believed empty keeps convergence if and only if every connected member found there by then has a re-sync pending |
| `KeyConvergence.StaleEmptinessBreaksConvergence` | app/services/voice/ChannelKeyService.cpp:270-295 | a concrete interleaving in which a member joins between the emptiness check and the mint and is left without the key |
| `KeyConvergence.KeysConverge` | app/services/voice/ChannelKeyService.cpp:229-423 | in every state of every interleaving in which these two conditions hold, a member with a connected owner session was last sent the live key, has a re-sync pending, or is still to be reached by a broadcast under way |
| `KeyConvergence.SettledChannelSharesOneKey` | app/services/voice/VoicePublisher.cpp:148-171 | once nothing of a channel is in flight, all its connected members were last sent its live key |
| `KeyConvergence.RestoreNeverNeeded` | app/services/voice/ChannelKeyService.cpp:296-304 | in such runs the restore branch is never reached |
| `KeyConvergence.LateWriteBreaksConvergence` | app/services/voice/ChannelKeyService.cpp:296-348 | a concrete interleaving in which a late write after a clear brings an old key back and a connected member is left on another one with nothing under way to correct it |
| `Outbound.NewestLow` | net/outbound/OutgoingWorker.cpp:160-163 | the newest low-priority item, or none |
| `Outbound.OutgoingWorker.EnqueueToOutbox` | net/outbound/OutgoingWorker.cpp:140-201 | append, drop, evict or replace the backlog, as the outbox function says; unknown connections are left alone |
| `Outbound.OutgoingWorker.OfferPayload` | net/outbound/OutgoingWorker.cpp:203-244 | what is stamped, written and indexed for each answer of the transport; a refused write consumes no number |
| `Outbound.OutgoingWorker.FlushConnectionOutbox` | net/outbound/OutgoingWorker.cpp:246-305 | the loop computes the recursive flush, detaches on a drop and indexes the connection when it stamped anything |
| `Outbound.OutgoingWorker.OnAck` | net/outbound/OutgoingWorker.cpp:307-330 | the pop loop removes exactly the frames the ack covers and unlists a drained connection |
| `Outbound.OutgoingWorker.ResendOverdue` | net/outbound/OutgoingWorker.cpp:364-385 | overdue frames in order, until one is out of attempts or the transport pushes back |
| `Outbound.OutgoingWorker.RetransmitSweep` | net/outbound/OutgoingWorker.cpp:332-410 | the sweep over the index: resend, unlist, and detach the expired ones after the loop |
| `OutboundDelivery.AckKeepsExactIff` | net/outbound/OutgoingWorker.cpp:307-330 | an ack keeps the buffer an exact run if and only if it does not exceed the last number stamped |
| `OutboundDelivery.OverAckBreaksTheRun` | net/outbound/OutgoingWorker.cpp:311-318 | a run in which an ack ahead of the stamps leaves a buffer that is not ackedSeq+1..nextSeq |
| `OutboundDelivery.BufferIsTail` | net/outbound/OutgoingWorker.cpp:203-330 | in every run, whatever the client acks, the buffer holds exactly the last numbers stamped, each with the bytes first sent |
| `OutboundDelivery.HeldUntilAcked` | net/outbound/OutgoingWorker.cpp:307-330 | in every run a stamped frame is still held if and only if no ack covering it has arrived since it was stamped |
| `OutboundDelivery.OverAckLosesFrame` | net/outbound/OutgoingWorker.cpp:307-330 | a run in which a client acks a frame it does not have: nobody holds it any more |
| `OutboundDelivery.AtLeastOnce` | net/outbound/OutgoingWorker.cpp:203-330 | against any loss, delay, repetition and reordering, and for a client that acks only what it has, the buffer is exactly ackedSeq+1..nextSeq with the bytes first sent, and the client holds everything up to ackedSeq |
| `OutboundDelivery.NumbersAreNeverReused` | net/outbound/OutgoingWorker.cpp:215-227 | in every run, whatever the client acks, a number is never given to a second payload |
| `OutboundDelivery.SendsAreBounded` | net/outbound/OutgoingWorker.cpp:364-385 | in every run, whatever the client acks, no frame is written more than max_retransmits times (once if that is 0), and attempts counts the writes exactly |
| `OutboundDelivery.RoundSendsOverdue` | net/outbound/OutgoingWorker.cpp:364-385 | when the transport takes everything and no overdue frame is exhausted, a round sends exactly the overdue frames, in order, and restarts their clocks |
| `OutboundDelivery.RoundExpiresIff` | net/outbound/OutgoingWorker.cpp:364-385 | a round gives the connection up if and only if it comes upon an overdue, exhausted frame before the transport pushes back |
| `OutboundDelivery.FlushIsStamps` | net/outbound/OutgoingWorker.cpp:246-305 | a flush takes the link exactly where stamping the reliable payloads it wrote, in order, takes it: buffer, log and everything in flight |
| `OutboundQueues.SweepKeepsCoverIff` | net/outbound/OutgoingWorker.cpp:332-410 | the sweep keeps every attached connection with unacked frames indexed if and only if no overflowed one has an invalid handle |
| `OutboundQueues.UnackedAreListed` | net/outbound/OutgoingWorker.cpp:215-409 | in every run with such sweeps the index is complete in every state |
| `OutboundQueues.UnackedAreListedWithValidHandles` | net/outbound/OutgoingWorker.cpp:215-409 | in particular in every run in which handles stay valid until detached |
| `OutboundQueues.StrandedConnectionIsForgotten` | net/outbound/OutgoingWorker.cpp:352-362 | a run in which a connection overflows its buffer, loses its handle and is dropped from the index by the next sweep, whatever the transport answers |
| `OutboundQueues.FlushTakesPrefix` | net/outbound/OutgoingWorker.cpp:246-297 | a flush takes a prefix off the queue and leaves the rest, or meets a drop and empties the queue |
| `OutboundQueues.FlushWritesInOrder` | net/outbound/OutgoingWorker.cpp:246-297 | on a valid handle it writes exactly the payloads of that prefix, in order |
| `OutboundQueues.OutboxLosesAtMostThree` | net/outbound/OutgoingWorker.cpp:140-201 | until the backlog is replaced: within capacity, survivors in arrival order, every high-priority arrival but at most three among them, everything else missing of low priority |
| `OutboundQueues.HighLostOnlyWithoutLow` | net/outbound/OutgoingWorker.cpp:155-172 | a high-priority item is turned away exactly when the queue is full and holds nothing of low priority |
| `OutboundQueues.EvictionCostsNewestLow` | net/outbound/OutgoingWorker.cpp:155-172 | a high-priority arrival at a full queue costs exactly the newest low-priority item, if there is one |
| `OutboundQueues.FourthLossReplacesBacklog` | net/outbound/OutgoingWorker.cpp:174-192 | the first three items turned away are counted; the fourth replaces the backlog by a single drop |
| `OutboundQueues.OverflowEndsInDrop` | net/outbound/OutgoingWorker.cpp:183-192 | after that, whatever arrives later, the next flush writes nothing and drops the connection |
| `OutboundRuns.AckKeepsGaplessIff` | net/outbound/OutgoingWorker.cpp:307-330 | an ack keeps the buffer a gapless run if and only if it acks nothing that was never stamped |
| `OutboundRuns.EveryConnectionStaysGapless` | net/outbound/OutgoingWorker.cpp:203-410 | in every run of the whole worker with honest acks, every attached connection holds exactly ackedSeq+1..nextSeq |
| `OutboundRuns.RunWorker` | net/outbound/OutgoingWorker.cpp:140-410 | any script of calls takes a new worker through a run of its state, for which the index and the gapless buffers are proved |
| `OutboundSystem.ConnectionsAreRuns` | net/outbound/OutgoingWorker.cpp:140-410 | in every run of the worker with its clients, each attached connection is a link run, an honestly acked one if its client acks only what it has, and with a valid handle an outbox run whose taken items were written in order |
| `OutboundSystem.WorkerDeliversAtLeastOnce` | net/outbound/OutgoingWorker.cpp:203-410 | for every connection whose client acks only what it has, whatever the other clients do: the client holds each stamped frame or the connection still has its bytes for resending |
| `OutboundSystem.WorkerBufferIsTail` | net/outbound/OutgoingWorker.cpp:203-410 | whatever clients ack, every buffer holds exactly the last numbers stamped on its connection, with the bytes first sent |
| `OutboundSystem.WorkerSendsAreBounded` | net/outbound/OutgoingWorker.cpp:332-410 | whatever clients ack, no frame is written to a client more than max_retransmits times (once if that is 0) |
| `OutboundSystem.WorkerLosesAtMostThree` | net/outbound/OutgoingWorker.cpp:140-305 | whatever clients ack, while its handle is valid and the backlog has not been replaced, a connection was written, in order of arrival, every payload except queued ones, low-priority ones and at most three others |
| `OutboundSystem.WorkerNeverReusesNumbers` | net/outbound/OutgoingWorker.cpp:215-227 | whatever clients ack, while a connection stays attached its log of stamped payloads only grows |
| `OutboundSystem.FollowRun` | net/outbound/OutgoingWorker.cpp:140-410 | given the calls of any such run, the worker goes through its states, so these results hold of the worker |
| `Subscriptions.SwapEraseRemoves` | app/managers/subscription/SubscriptionManager.cpp:11-23 | overwriting with the last element removes exactly the connection and keeps entries distinct |
| `Subscriptions.SubscriptionManager.Unshare` | app/managers/subscription/SubscriptionManager.cpp:31-41 | a vector a reader holds is copied before it is changed |
| `Subscriptions.SubscriptionManager.EraseConnFromTopic` | app/managers/subscription/SubscriptionManager.cpp:11-23 | erases in place or on a copy, drops an empty entry, and changes no held snapshot |
| `Subscriptions.SubscriptionManager.Subscribe` | app/managers/subscription/SubscriptionManager.cpp:27-44 | adds one subscription, reports whether it was new, keeps both indices consistent and changes no held snapshot |
| `Subscriptions.SubscriptionManager.Unsubscribe` | app/managers/subscription/SubscriptionManager.cpp:46-61 | removes one subscription, with the same guarantees |
| `Subscriptions.SubscriptionManager.IsSubscribed` | app/managers/subscription/SubscriptionManager.cpp:63-67 | agrees with the topic's vector |
| `Subscriptions.SubscriptionManager.GetSubscribers` | app/managers/subscription/SubscriptionManager.cpp:69-77 | a snapshot listing each subscriber exactly once, or null when there is none |
| `Subscriptions.SubscriptionManager.RemoveAllForConnection` | app/managers/subscription/SubscriptionManager.cpp:89-102 | forgets exactly the connection, with the same guarantees |
| `Subscriptions.SubscriptionManager.RemoveAllForTopic` | app/managers/subscription/SubscriptionManager.cpp:104-120 | forgets exactly the topic, with the same guarantees |
| `Subscriptions.SubscriptionManager.Run` | app/managers/subscription/SubscriptionManager.cpp:11-120 | through any sequence of calls a held snapshot never changes, both indices agree without duplicates or empty entries, and the subscriptions are what the calls add up to |
| `Subscriptions.SubscribedIffNotEndedSince` | app/managers/subscription/SubscriptionManager.cpp:27-120 | a connection is subscribed if and only if some call subscribed it and no later call ended that |
| `Pool.ConnectionPool.constructor` | infra/persistence/ConnectionPool.cpp:5-40 | all slots free, the pre-warmed ones handed out first, the index inverse to the open slots |
| `Pool.ConnectionPool.Open` | infra/persistence/ConnectionPool.cpp:8-8 | a pool without slots is refused |
| `Pool.ConnectionPool.Acquire` | infra/persistence/ConnectionPool.cpp:50-83 | leases the top free slot with an open connection, or fails leaving slots, free stack and leases as they were; fails exactly on an empty stack or an unreachable database |
| `Pool.ConnectionPool.Refresh` | infra/persistence/ConnectionPool.cpp:85-106 | replaces the connection within the same slot, or fails changing nothing |
| `Pool.ConnectionPool.Release` | infra/persistence/ConnectionPool.cpp:108-116 | puts the slot of a known connection back on the free stack, unchecked: the pool stays sound if and only if that connection was lent out; an unknown connection is an error |
| `Pool.TransactionRunner.Run` | infra/persistence/TransactionRunner.h:48-96 | an attempt is made exactly if a lease can be had, a second one exactly if the first broke where a retry cannot apply a write twice and a new connection could be dialed; a write reaches commit at most once, the outcome is that of the last attempt, the lease is returned on every path |
| `Pool.TransactionRunner.Read` | infra/persistence/TransactionRunner.h:36-39 | an idempotent run on the read pool |
| `Pool.TransactionRunner.Write` | infra/persistence/TransactionRunner.h:41-45 | at most one commit, exactly one when it returns |
| `Hubs.HubService.LoadSnapshot` | app/services/hub/HubService.cpp:462-471 | the repository's snapshot if and only if the hub's cache slot is empty or its own; otherwise the snapshot of the hub found there |
| `Hubs.HubService.BuildSnapshot` | app/services/hub/HubService.cpp:437-460 | builds and caches the repository's snapshot, whatever the slot held |
| `Hubs.HubService.ResolveMembershipRole` | app/services/hub/HubService.cpp:318-329 | the role the repository has, or the role in the hub that holds the slot |
| `Hubs.HubService.GetHubMembersWithRoles` | app/services/hub/HubService.cpp:279-308 | the members the repository has, or those of the hub that holds the slot |
| `Hubs.HubService.GetHubChannelIds` | app/services/hub/HubService.cpp:279-312 | the channels the repository has for the hub, none for a missing hub, or those of the hub that holds the slot |
| `Hubs.HubService.GetHub` | app/services/hub/HubService.cpp:42-52 | the row the repository has, or that of the hub that holds the slot |
| `Hubs.HubService.GetHubsByIds` | app/services/hub/HubService.cpp:54-127 | id by id the row the repository has, nothing for missing hubs, or the row of the hub that holds the slot |
| `Hubs.HubService.GetChannel` | app/services/hub/HubService.cpp:129-139 | the channel the repository has |
| `Hubs.HubService.GetChannelsByIds` | app/services/hub/HubService.cpp:141-178 | exactly the existing channels among the non-empty ids |
| `Hubs.HubService.WarmSnapshotsForHubs` | app/services/hub/HubService.cpp:203-277 | every named hub finds its slot filled afterwards; the caches stay coherent if and only if nothing needed refreshing or every record that ends up in its slot is current |
| `Hubs.HubService.CreateHub` | app/services/hub/HubService.cpp:335-339 | writes through and stays coherent |
| `Hubs.HubService.CreateChannel` | app/services/hub/HubService.cpp:341-359 | writes through and extends the snapshot in the hub's slot: coherent if and only if that is not another hub's |
| `Hubs.HubService.RenameChannel` | app/services/hub/HubService.cpp:361-377 | writes through, renames the cached channel and stays coherent |
| `Hubs.HubService.DeleteChannel` | app/services/hub/HubService.cpp:379-398 | deletes only from the named hub, shrinks the snapshot in its slot and stays coherent, whichever hub's that is |
| `Hubs.HubService.RenameHub` | app/services/hub/HubService.cpp:400-406 | writes through, forgets the snapshot and stays coherent |
| `Hubs.HubService.UpdateHubAvatarSeed` | app/services/hub/HubService.cpp:408-414 | writes through, forgets the snapshot and stays coherent |
| `Hubs.HubService.DeleteHub` | app/services/hub/HubService.cpp:416-426 | deletes only for the owner; coherent if and only if nothing was deleted, the hub's slot was its own or empty, or none of its channels was cached |
| `Hubs.HubService.AddMember` | app/services/hub/HubService.cpp:428-431 | writes through, forgets the snapshot and stays coherent |
| `Hubs.HubService.RemoveMember` | app/services/hub/HubService.cpp:432-435 | writes through, forgets the snapshot and stays coherent |
| `Hubs.HubService.Replay` | app/services/hub/HubService.cpp:42-471 | any history of reads, writes accepted or refused, and warmings with records current at the time keeps the caches coherent, as long as no two hubs named or cached hash alike |
| `Hubs.HubService.AnswersAfter` | app/services/hub/HubService.cpp:42-471 | after any such history the role, the members, the hub's row, its channel ids and any channel are read as the repository has them |
| `Hubs.LookupsRightIff` | core/cache/AnyKey.h:18-28 | lookups of a hub can be trusted, in every coherent cache that came about from the hubs in use, if and only if no other hub in use hashes like it |
| `Hubs.CollisionServesOtherHub` | app/services/hub/HubCache.cpp:6-20 | for any two ids that hash alike, a coherent cache that answers one with the other |
| `Sessions.SessionManager.AttachConnection` | app/managers/session/SessionManager.cpp:51-80 | an attached connection keeps its session; otherwise a fresh id one above all earlier ones, or a refusal exactly at a non-zero cap; the six maps agree |
| `Sessions.SessionManager.RemoveConnection` | app/managers/session/SessionManager.cpp:82-121 | removes exactly the connection's session from all six maps and keeps the active-user counter right |
| `Sessions.SessionManager.SessionIdHasConnections` | app/managers/session/SessionManager.cpp:190-194 | true exactly for live sessions |
| `Sessions.SessionManager.CollectUserConnections` | app/managers/session/SessionManager.cpp:37-48 | the connections of exactly the user's live sessions |
| `Sessions.ActiveUsersHaveSessions` | app/managers/session/SessionManager.cpp:32-35 | the users with an entry, which the counter counts, are exactly those with a live session |
| `Workers.InFlightGuard.TryMarkExecuting` | app/worker/WorkerPool.cpp:234-242 | marks unless marked already, and says which |
| `Workers.InFlightGuard.UnmarkExecuting` | app/worker/WorkerPool.cpp:244-253 | removes the mark and an empty entry |
| `Workers.OneDispatchAtATime` | app/worker/WorkerPool.cpp:255-297 | in every interleaving in which each exception before the mark finds its pair unmarked, at most one worker is in flight with a deduplicated pair |
| `Workers.MarksAreInFlight` | app/worker/WorkerPool.cpp:234-253 | in such interleavings the in-flight map is exactly the pairs some worker is in flight with |
| `Workers.MarksHaveWorkers` | app/worker/WorkerPool.cpp:123-153 | in every interleaving, whatever throws, a marked pair has a worker in flight with it |
| `Workers.IdleMeansUnmarked` | app/worker/WorkerPool.cpp:123-153 | in every interleaving, whatever throws and wherever, nothing stays marked once all workers are idle |
| `Workers.EarlyThrowSafeIff` | app/worker/WorkerPool.cpp:123-153 | an exception before the mark keeps the guard exact if and only if no other worker holds the same pair |
| `Workers.EarlyThrowAdmitsDuplicate` | app/worker/WorkerPool.cpp:123-153 | a concrete interleaving in which such an exception lets two workers dispatch the same pair |
| `MessageWriter.EveryMessageSettlesOnce` | app/services/message/AsyncMessageWriter.cpp:29-87 | for every interleaving of producers and worker, an accepted message is in exactly one place and is tried at most max_retries+1 times, exactly that often before it counts as failed |
| `MessageWriter.FatesAreFinal` | app/services/message/AsyncMessageWriter.cpp:50-87 | a recorded fate is never changed later in the run |
| `MessageWriter.SizeBoundsTheQueue` | app/services/message/DbWriteQueue.h:18-64 | the counter never undercounts the queue and never exceeds a non-zero capacity |
| `MessageWriter.DrainIsBounded` | app/services/message/AsyncMessageWriter.cpp:50-87 | without new messages a run is no longer than the work left in it, a measure on remaining attempts |
| `MessageWriter.NeverStuck` | app/services/message/AsyncMessageWriter.cpp:50-87 | while a message is unsettled, some step is possible, so the drain settles everything |
| `MessageWriter.FateOf` | app/services/message/AsyncMessageWriter.cpp:50-87 | a message is inserted exactly if one of its remaining attempts succeeds |
| `MessageWriter.AsyncMessageWriter.TryPush` | app/services/message/DbWriteQueue.h:18-64 | refused exactly when a non-zero capacity is used up |
| `MessageWriter.AsyncMessageWriter.Enqueue` | app/services/message/AsyncMessageWriter.cpp:29-39 | a new message starts at attempt 0 |
| `MessageWriter.AsyncMessageWriter.WriteOldest` | app/services/message/AsyncMessageWriter.cpp:50-87 | one turn lightens the burden and changes no message's fate |
| `MessageWriter.AsyncMessageWriter.Drain` | app/services/message/AsyncMessageWriter.cpp:50-87 | the loop on a stopped queue ends with every message at its fate |
| `NodeRegistry.LivekitNodeRegistry.RegisterNode` | livekit/routing/LivekitNodeRegistry.cpp:8-17 | adds a node at the end of the order; a second one of the same id is refused |
| `NodeRegistry.LivekitNodeRegistry.BindRoom` | livekit/routing/LivekitNodeRegistry.cpp:40-71 | binds the room and moves its count along; counters stay equal to the rooms counted |
| `NodeRegistry.LivekitNodeRegistry.ClearRoom` | livekit/routing/LivekitNodeRegistry.cpp:73-90 | unbinds and uncounts the room |
| `NodeRegistry.LivekitNodeRegistry.IncrementRoom` | livekit/routing/LivekitNodeRegistry.cpp:92-119 | counts and binds the room on the node, taking it off any other |
| `NodeRegistry.LivekitNodeRegistry.DecrementRoom` | livekit/routing/LivekitNodeRegistry.cpp:121-135 | uncounts the room and keeps its binding |
| `NodeRegistry.LivekitNodeRegistry.Uncount` | livekit/routing/LivekitNodeRegistry.cpp:121-135 | a counted room has a positive counter behind it, so the underflow guard never fires |
| `NodeRegistry.LivekitNodeRegistry.PickNode` | livekit/routing/LivekitNodeRegistry.cpp:161-179 | the first registered node of least load |
| `NodeRegistry.RoundRobinIsFair` | livekit/routing/LivekitNodeRegistry.cpp:181-195 | wherever the cursor stands, each node has exactly one of the next as many turns as there are nodes |
| `NodeRegistry.LivekitNodeRegistry.AnyNodeRound` | livekit/routing/LivekitNodeRegistry.cpp:181-195 | as many calls in a row as there are nodes name every registered node exactly once and nothing else |

## Left out

- Restart recovery and restoring keys for it: it weakens the key invariants and is mostly remote queries.
- Voice messages other than key updates (snapshots, participant upserts and removals, self status): they read the state modelled here and change none of it.
- The key in a join token: `KeyConvergence` speaks of key updates, so a member who asks again can hold an older key from the token until the re-sync their join triggers.
- Sending one key update is one step: reading the owner session and its connections is not split.
- The memory write and the Redis write of one locked section are one step in `KeyConvergence`; persisting key and index is one write.
- The resume-id registry and the hub check of a resume: `TryResumeVoiceOwnership` starts where they have succeeded.
- A configured LiveKit node is taken for granted in join requests; a missing one fails them before anything changes.
- The takeover guard for finished rooms is an input of the step; room bindings of `NodeRegistry` are not part of the voice world.
- Hubs.HubService.AnswersAfter: assumes that no two of the finitely many hub ids in use hash alike and that warmings pass current records; the per-call results say what happens otherwise.
- Hub ids and channel ids are in the canonical form the database returns; the order of channel ids in a snapshot is not kept; corrupted cache entries cannot arise because only snapshots are stored.
- Changing a node's user counter: nothing depends on it but the load.
- KeyConvergence.KeysConverge: assumes that Redis answers and that hub lookups of the channel succeed; without a lookup the source skips the broadcast.
- Blocking waits, timeouts, back-off delays and tick deadlines: eventual flush and eventual reconcile depend on them.
- 64-bit wrap-around of sequence numbers, session ids and the round-robin cursor; the 16-bit attempt counter cannot wrap because it stops at a 16-bit limit.
- Draining and distributing the shared outgoing queue, plain getters, logging and metrics: easy members.
- Encryption of stored keys, token minting, protobuf envelopes, SQL and HTTP: foreign calls.
