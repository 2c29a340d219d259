# Pinch, modelled in Dafny

Pinch has two halves: a Go relay that stores and forwards encrypted envelopes between agents, and a
TypeScript agent that keeps connections, enforces permissions and autonomy, and writes an audit log.
This project models the stateful core of both and proves what they guarantee over all runs.

`dafny verify dfyconfig.toml` checks everything.

## How it is organised

| file | content |
|---|---|
| QueueKeys.dfy, MessageQueue.dfy | the durable per-recipient queue and its 16-byte keys |
| BlockStore.dfy | the string-keyed block store |
| Relay.dfy | the relay as a step machine over values, with a log of what happened |
| Lanes.dfy, RelayInvariant.dfy | the invariant, one recipient at a time and then for the whole relay |
| RelayTheorems.dfy, RelayStreams.dfy | order, conservation, capacity, table lifecycle, blocking, and what each socket carries |
| RelayEffects.dfy | every change of a queue, a client, the table and the blocks, each exactly when it happens |
| HubObjects.dfy | the hub and client objects, each method proved against Relay.dfy |
| FlushProtocol.dfy, FlushAgreement.dfy, FlushWitnesses.dfy | the reconnect flush on the relay, the countdown and waits of the agent, how the two agree from registration on, and runs in which they do not |
| KeyRegistry.dfy, Admission.dfy | claim codes, approvals, and who gets into the routing table |
| Base58.dfy, Identity.dfy | the address codec of both implementations |
| ConnectionStore.dfy, ConnectionManager.dfy, ConnectionProtocol.dfy, ConnectionChanges.dfy | records, lifecycle calls, any number of agents exchanging packets, and every change of a record exactly when it happens |
| CircuitBreaker.dfy, Pipeline.dfy, Outcomes.dfy, TripKinds.dfy | anomaly detection, the path of one message, what becomes of it, and what can trip the breaker on it |
| RateBound.dfy, RateTight.dfy, Segments.dfy | the rate bound over interleaved runs, that it cannot be improved, and what decides the outcome of an interleaved message |
| Feed.dfy, AuditLog.dfy | feed entries, the hash chain, its verifier and its export |
| Common.dfy, Wire.dfy | shared vocabulary |

Code that updates objects is modelled by classes whose methods are proved to do, to the abstract state, what
a specification function says; the theorems over runs are about those functions. Every lemma carries
`{:induction false}`: each proof is the one written down.

## Assumptions

- Relay steps are atomic at this grain: a register with its count and flushing flag, one unregister, one
  routing call, one flush batch together with its removals, the empty batch together with clearing the flag,
  one sweep. The Go code interleaves more finely; nothing is claimed about orders or losses below this grain.
- The relay clock does not run backwards and stays in the non-negative int64 range, a client object is
  registered at most once (wsHandler makes a new one per connection), a routing call comes from a client that
  is in the table (its read loop), no bucket exhausts its 64-bit sequence, and the database returns no errors.
  These are the predicate `Relay.EventOk` and the guards of `Relay.Step`.
- At shutdown every client is cancelled: clients are made under the server context that stops the hub.
- Envelopes carry the number of the routing call that brought them in, so that equal bytes routed twice can
  be told apart. No step reads the log apart from taking the next number.
- SHA-256 is a parameter. The address codec needs 32-byte results. The audit results need a non-empty
  result for completeness and nothing at all for tamper evidence, which is stated as "equal, or two entries at the
  same distance from the end collide"; its converse needs a digest without bars, such as a hexadecimal one.
- The agent's clock does not run backwards; each recording reads it three times (stamp, prune, check), and the
  reads may differ. `process` yields only while it waits for the policy evaluator.
- The connection store is edited as the rest of the agent edits it: level and flag only by setAutonomy and by the
  circuit breaker, new records untripped at full_manual (`ConnectionStores.OpOk`).
- Connection managers are honest about their own address and key. The network may delay, reorder, duplicate and
  lose packets; one result is also stated for a network that does not duplicate.
- (created_at, id) of feed entries strictly increases: UUIDv7 identifiers as in section 5.7 of RFC 9562.

## Where code and documentation part

The members named give the exact condition, an input at which the code fails, or both.

- Queue keys sort by unsigned timestamp, so a pre-1970 timestamp sorts after every later one
  (`QueueKeys.EncodeKeyOrder`, `QueueKeys.PreEpochKeySortsLast`).
- QueueStatus counts expired entries that the flush skips and entries a full buffer drops, and the agent takes any
  envelope of that type for an announcement, also one relayed from a peer. The countdown ends where the last
  announcement puts it; without a relayed one it reaches zero exactly if nothing had expired and nothing was
  dropped (`FlushAgreement.ReconnectCounts`, `FlushAgreement.CountAgreement`, `FlushWitnesses.StuckCountdown`,
  `FlushWitnesses.RelayedStatusResets`).
- The Go and the TypeScript address patterns differ on hosts with `\r`, U+2028 or U+2029
  (`Identity.CrossLanguage`, `Identity.CarriageReturnSplits`).
- The hash input joins fields with `|`; it determines them exactly when none contains `|`
  (`AuditLog.FieldsDetermined`, `AuditLog.TamperEvidentExactly`, `AuditLog.BarMovesUnnoticed`).
- The flood window is half-open: messages trip the breaker exactly when the floodThreshold-th newest is less than
  one window old (`CircuitBreakers.WindowIsHalfOpen`), so the rate bound holds on half-open windows and fails on
  closed ones (`RateBound.AutonomousRateBound`, `RateTight.BoundIsTight`).
- Three boundary probes within ten minutes are documented to trip the breaker (skill/SKILL.md:525), but the
  pipeline records a hard denial as information_boundary, which no check counts. In the pipeline only message
  floods trip the breaker exactly when the flood threshold is not positive or both other thresholds are
  (`TripKinds.OnlyFloodsTripExactly`, `TripKinds.DenialsNeverTrip`, `TripKinds.ThreeProbesPass`); otherwise one
  denial trips it under another name (`TripKinds.DenialTripsOtherwise`).
- Unblocking a record that was never blocked makes it active without consent
  (`ConnectionProtocol.UnblockSkipsConsent`, `ConnectionProtocol.ConsentUnderDiscipline`).
- A record that was blocked or revoked can become active again on old consent exactly when the peer once sent an
  acceptance, or, if nothing is delivered twice, exactly when one is still undelivered
  (`ConnectionProtocol.OldConsentRevives`, `ConnectionProtocol.UndeliveredConsentRevives`,
  `ConnectionProtocol.LateResponseRevives`).
- Block keys of different relay hosts can coincide (`BlockStores.KeysCollide`, `BlockStores.HostsCollide`).
- The timer of waitForFlush is never cleared: a wait of n completes exactly when n frames arrive before any timer
  fires that is running when it starts, its own or that of an earlier wait (`FlushProtocol.WaitCompletes`), and the
  timer of a completed wait can end the next one (`FlushProtocol.StaleTimerEndsNextWait`).
- A peer muted or taken over while one of its messages is being checked: that message is still read, because only the
  state and level at routing time count (`Segments.RoutedOutcome`, `Segments.EditedMeanwhileStillRead`).

## Model

| member | source | states |
|---|---|---|
| QueueKeys.EncodeKeyOrderUnsigned | relay/internal/store/messagequeue.go:63-68 | byte order of keys is the order of (uint64 timestamp, sequence), and keys are injective |
| QueueKeys.EncodeKeyOrder | relay/internal/store/messagequeue.go:61-68 | keys sort chronologically exactly when both timestamps lie on the same side of the epoch |
| QueueKeys.PreEpochKeySortsLast | relay/internal/store/messagequeue.go:63-68 | a concrete pair of timestamps whose keys sort the wrong way round |
| MessageQueues.PutAtEnd | relay/internal/store/messagequeue.go:100 | a key greater than all others is appended |
| MessageQueues.BatchRemoved | relay/internal/store/messagequeue.go:108-162 | removing a returned batch leaves exactly the later deliverable entries, in order |
| MessageQueues.SweepInvisible | relay/internal/store/messagequeue.go:188-239 | a sweep keeps exactly the live entries, and every later batch of any size at any later time is the same as without it |
| MessageQueues.AgeDecides | relay/internal/store/messagequeue.go:130-134 | an entry queued at any time t is in a large enough batch d later, and survives a sweep d later, if and only if d is at most the time to live |
| MessageQueues.BatchMembers | relay/internal/store/messagequeue.go:119-138 | a large enough batch holds exactly the uncorrupted entries that are not older than the time to live |
| MessageQueues.MessageQueue.Enqueue | relay/internal/store/messagequeue.go:72-102 | refuses exactly at maxPerAgent keys, changing nothing; otherwise puts one entry under a fresh key; buckets stay sorted |
| MessageQueues.MessageQueue.FlushBatch | relay/internal/store/messagequeue.go:108-146 | the cursor loop returns the first batchSize live entries in key order |
| MessageQueues.MessageQueue.Remove | relay/internal/store/messagequeue.go:150-162 | deletes that key of that recipient and nothing else |
| MessageQueues.MessageQueue.Count | relay/internal/store/messagequeue.go:166-183 | the number of stored entries, expired ones included |
| MessageQueues.MessageQueue.Sweep | relay/internal/store/messagequeue.go:188-239 | deletes exactly the expired and corrupt entries of all recipients and returns how many there were |
| BlockStores.BlockStore.Block | relay/internal/store/blockstore.go:32-38 | adds the one key of the pair |
| BlockStores.BlockStore.Unblock | relay/internal/store/blockstore.go:43-49 | removes the one key of the pair |
| BlockStores.BlockStore.IsBlocked | relay/internal/store/blockstore.go:53-64 | membership of the pair's key |
| BlockStores.KeysCollide | relay/internal/store/blockstore.go:32-38 | two blockers can share a key exactly when one plus the separator is a prefix of the other plus it |
| BlockStores.HostsCollide | relay/internal/store/blockstore.go:32-38 | a collision of two different derivable addresses: one key pair on a host and on that host with a suffix |
| BlockStores.BlockKeyInjective | relay/internal/store/blockstore.go:32-64 | blockers with addresses of one relay host never share a key |
| Lanes.LaneEnqueues | relay/internal/hub/hub.go:321-341 | queueing an admitted envelope keeps order, capacity and conservation of its recipient |
| Lanes.LaneDirect | relay/internal/hub/hub.go:360 | so does handing it straight to an online client that is not flushing |
| Lanes.LaneFlushes | relay/internal/hub/hub.go:188-215 | so does one flush batch, in key order, with the entries removed |
| Lanes.LaneSweeps | relay/internal/store/messagequeue.go:188-239 | so does a sweep |
| RelayInvariant.RegisterShape | relay/internal/hub/hub.go:98-111 | a first registration enters the table and, exactly when something is queued, announces the count and sets the flushing flag |
| RelayInvariant.StepInv | relay/internal/hub/hub.go:87-220 | every step of the relay keeps the invariant |
| RelayInvariant.RunInv | relay/internal/hub/hub.go:87-362 | every reachable state satisfies the invariant |
| RelayTheorems.OrderPreserved | relay/internal/hub/hub.go:176-220 | across disconnects, reconnects and restarts, what is handed to a recipient is a subsequence of what routing admitted for it, and what is buffered a subsequence of that |
| RelayStreams.SocketOrder | relay/internal/hub/client.go:107-167 | in every run, for every client, the relayed envelopes written to its socket and waiting in its buffer are a subsequence of those admitted for its address |
| RelayTheorems.OnlineMeansDrained | relay/internal/hub/hub.go:343-361 | a client in the table that is not flushing has no deliverable entry queued |
| RelayTheorems.FlushedKeysIncrease | relay/internal/hub/hub.go:205-215 | keys flushed to a recipient strictly increase over a whole run; none is flushed twice |
| RelayTheorems.RoutingDecides | relay/internal/hub/hub.go:306-361 | an envelope is admitted, to its addressee only, exactly when the address is non-empty, the sender is not blocked, and the recipient is reachable or its queue has room |
| RelayTheorems.HandedAddressed | relay/internal/hub/hub.go:306-361 | nothing is handed to a recipient that was not routed to it |
| RelayTheorems.EnvelopesConserved | relay/internal/hub/hub.go:205-215 | each admitted envelope is accounted for exactly once: still queued, placed in a send buffer, dropped by a full one, or swept |
| RelayTheorems.CapacitiesHold | relay/internal/hub/client.go:157-167 | no queue exceeds maxPerAgent, no send buffer 256 frames |
| RelayTheorems.FlushFillsBuffer | relay/internal/hub/hub.go:205-215 | a batch appends to the client's buffer exactly the envelopes recorded as placed, and touches no other client |
| RelayTheorems.DirectFillsBuffer | relay/internal/hub/hub.go:360 | so does a live-routed envelope, in the buffer of the addressee |
| RelayTheorems.TableLifecycle | relay/internal/hub/hub.go:87-145 | table entries are open clients under their own address; no channel is closed twice or sent to after closing, shutdown included |
| RelayTheorems.UnregisterTouchesOne | relay/internal/hub/hub.go:117-124 | a stale unregister changes nothing; any unregister leaves its client out of the table and every other client as it was |
| RelayTheorems.BlockStoreRefines | relay/internal/hub/hub.go:282-304 | in every run, for blockers with an address of this relay, the string store is the relation that their own commands describe |
| RelayTheorems.RowOwnership | relay/internal/hub/hub.go:282-304 | in every run, a row of the block store for a blocker of this relay changes only by a block or unblock command about that target, not rate-limited, from a client in the table that authenticated with the blocker's own key |
| RelayTheorems.AdmissionRespectsBlocks | relay/internal/hub/hub.go:312-319 | an envelope is admitted only from a sender its recipient has not blocked |
| RelayEffects.RouteReplies | relay/internal/hub/hub.go:256-361 | a routing call puts at most one frame into one buffer: the rate-limit notice or the queue-full notice to the sender, or the envelope to the reachable recipient; the frame is lost exactly when 256 wait |
| RelayEffects.RouteQueues | relay/internal/hub/hub.go:321-341 | an envelope joins the end of its recipient's queue, and no other, exactly when it is addressed, not blocked, the recipient is offline or flushing, and the queue has room |
| RelayEffects.CommandsTakeEffect | relay/internal/hub/hub.go:282-304 | a block or unblock command that is not rate-limited sets or clears its sender's own row at once; nothing else changes rows |
| RelayEffects.QueueChangesBy | relay/internal/hub/hub.go:176-220 | durability: a queue changes only by routing to it, by a flush to its own client, or by a sweep; not by disconnects, shutdown or restart |
| RelayEffects.QueueLoses | relay/internal/store/messagequeue.go:188-239 | a flush takes exactly the first fifty deliverable entries, a sweep exactly the corrupt and over-age ones |
| RelayEffects.FlushedKeysAre | relay/internal/hub/hub.go:188-215 | the flushed keys on record are those of the entries a flush takes, in order, and no others |
| RelayEffects.Enters | relay/internal/hub/hub.go:90-99 | a client enters the table exactly by registering under a free address while the hub runs |
| RelayEffects.Leaves | relay/internal/hub/hub.go:117-142 | it leaves exactly by its own unregister, by shutdown, or by a restart |
| RelayEffects.ClosesExactly | relay/internal/hub/hub.go:117-142 | a channel is closed exactly when its client leaves the table; contexts are cancelled then and at shutdown |
| RelayEffects.FlushBegins | relay/internal/hub/hub.go:102-110 | a flush begins exactly with an accepted registration that finds something queued |
| RelayEffects.FlushEnds | relay/internal/hub/hub.go:176-220 | it ends exactly with a turn that finds the client gone or nothing deliverable |
| RelayEffects.FreshStarts | relay/internal/hub/client.go:53-64 | how a client starts, and that shutdown and restart keep queues and blocks |
| RelayEffects.ClientsLogged | relay/internal/hub/hub.go:90-99 | the clients on record are exactly those made and those served by a register |
| RelayEffects.PanicsExactly | relay/internal/hub/client.go:157-167 | the fault the lifecycle theorem excludes: sending on a closed channel or closing it again |
| RelayEffects.DropsOnlyWhenFull | relay/internal/hub/client.go:157-167 | an envelope is dropped only when 256 frames wait for the client it is handed to |
| HubObjects.Client.Send | relay/internal/hub/client.go:159-167 | appends if there is room, otherwise drops |
| HubObjects.Hub.NewClient | relay/internal/hub/client.go:53-64 | a fresh client with an empty buffer, not flushing, open |
| HubObjects.Hub.Connect | relay/internal/hub/hub.go:90-111 | making and registering a client refines creation followed by the register step, and fails exactly if the address is taken |
| HubObjects.Hub.Register | relay/internal/hub/hub.go:90-111 | refines the register step; rejects exactly an address held by another client |
| HubObjects.Hub.Unregister | relay/internal/hub/hub.go:117-124 | refines the unregister step |
| HubObjects.Hub.FlushOnce | relay/internal/hub/hub.go:179-219 | one turn of the flush loop refines the flush step and reports when it is done |
| HubObjects.Hub.SendBatch | relay/internal/hub/hub.go:205-215 | sends then removes each entry of a batch |
| HubObjects.Hub.Shutdown | relay/internal/hub/hub.go:133-142 | refines the shutdown step: every channel in the table is closed once |
| HubObjects.Hub.RouteMessage | relay/internal/hub/hub.go:256-362 | refines the routing step on every branch |
| HubObjects.Hub.DeliverEnvelope | relay/internal/hub/hub.go:306-361 | refines the delivery decision |
| FlushProtocol.FlushTerminates | relay/internal/hub/hub.go:176-220 | with nothing enqueued meanwhile, a flush of n deliverable entries ends after at most ceil(n/50) non-empty batches and one empty one, however time passes |
| FlushProtocol.FlushProgress | relay/internal/hub/hub.go:176-220 | if the clock stands still, k iterations hand over exactly the first min(n, 50k) deliverable entries and the flag is set exactly while k <= ceil(n/50) |
| FlushAgreement.ReconnectCounts | relay/internal/hub/hub.go:98-110 | from every reachable state, through a first registration and any mix of clock ticks, batches and socket writes: on the frames written to or waiting for the socket, the agent's countdown ends where the last announcement among them puts it, and it is zero exactly if enough envelopes followed that; if no relayed envelope announces a count, it is the number of entries left behind plus those a full buffer dropped; once the flush is over those left behind have all expired |
| FlushAgreement.CountAgreement | relay/internal/hub/hub.go:102-110 | the condition as seen before registration, while the clock stands still and the queue fits the buffer: queue length and live entries determine where the countdown ends; if no live entry announces a count, that is the number of entries already expired, zero exactly if none is |
| FlushWitnesses.StuckCountdown | relay/internal/hub/hub.go:102-220 | a run from the empty relay after which the agent was told of one message, the flush is over, and its countdown stays at one |
| FlushWitnesses.RelayedStatusResets | skill/src/message-manager.ts:423-451 | a run from the empty relay in which the one queued envelope is of type QUEUE_STATUS: nothing had expired, the flush is over, and the countdown stands at the count of that envelope |
| FlushAgreement.RegisterAnnounces | relay/internal/hub/hub.go:98-110 | in a reachable state, registering puts exactly the queue length into the empty buffer of the client and starts its flush |
| FlushProtocol.CountdownFollows | skill/src/message-manager.ts:409-453 | after an announcement, the countdown depends on the announced count and the number of later frames and on nothing before it |
| FlushProtocol.WaitCompletes | skill/src/message-manager.ts:86-100 | with no new announcement, a wait of n completes if and only if n frames arrive before the first firing of a timer that was running when it started |
| FlushProtocol.LostWait | skill/src/message-manager.ts:92-97 | a wait that is no longer current is never completed, whatever arrives, is announced or is waited for later |
| FlushProtocol.OwnTimerRejects | skill/src/message-manager.ts:90-98 | a wait whose own timer fires first is rejected exactly if fewer than n frames had come |
| FlushProtocol.WaitStarts | skill/src/message-manager.ts:86-98 | a wait starts, with its own timer, exactly if something is outstanding and no wait is open |
| FlushProtocol.BeforeAnnouncement | skill/src/message-manager.ts:58-88 | a new manager remembers exactly whether a count was announced, and until then nothing is outstanding |
| FlushProtocol.MessageManager.HandleEnvelope | skill/src/message-manager.ts:409-453 | every frame counts down and may complete the wait, then a frame of type QUEUE_STATUS resets the count, whoever sent it |
| FlushProtocol.MessageManager.WaitForFlush | skill/src/message-manager.ts:86-100 | nothing outstanding, the open promise, or a new promise with a running timer |
| FlushProtocol.MessageManager.FlushTimeout | skill/src/message-manager.ts:92-97 | a timer drops whatever is waited for and counted, and rejects its own promise if that is still open |
| FlushProtocol.StaleTimerEndsNextWait | skill/src/message-manager.ts:90-98 | a run of two flushes in which the timer of the completed first wait fires during the second, which then never completes, whatever follows |
| KeyRegistries.KeyRegistry.RegisterPending | relay/internal/store/keyregistry.go:60-94 | takes the first of eight draws that is no live code, overwrites nothing, fails otherwise |
| KeyRegistries.FirstFreeExactly | relay/internal/store/keyregistry.go:71-93 | which draw becomes the code, and that drawing fails exactly on a failing generator or when every draw is taken |
| KeyRegistries.RegistrationLife | relay/internal/store/keyregistry.go:60-164 | a registration stays until the cutoff reaches its time; claiming it approves its key under its address and uses the code up |
| KeyRegistries.SweepTakes | relay/internal/store/keyregistry.go:137-164 | a sweep takes exactly the malformed and overdue registrations |
| KeyRegistries.ClaimNeedsRegistration | relay/internal/store/keyregistry.go:98-124 | a claim changes nothing exactly for an unknown or malformed code |
| KeyRegistries.KeyRegistry.Claim | relay/internal/store/keyregistry.go:98-124 | moves a well-formed pending entry to the approved keys, or changes nothing |
| Admission.WsHandler | relay/cmd/pinchd/main.go:284-302 | the handler after authentication refines the connect step of the gate on registry and hub; it answers "key not registered" exactly for an unapproved key in locked mode and welcomes exactly those it put into the table |
| KeyRegistries.KeyRegistry.SweepPending | relay/internal/store/keyregistry.go:138-164 | removes exactly the malformed and overdue codes |
| Admission.LockedAdmission | relay/cmd/pinchd/main.go:284-302 | in locked mode every client in the table has a key approved by a claim of a code issued for that key, with nothing happening to the code in between |
| Admission.ClaimedOnce | relay/internal/store/keyregistry.go:98-124 | between two claims of a code lies a new issue of it |
| Admission.LiveCodeKept | relay/internal/store/keyregistry.go:71-91 | a live code keeps its registration until it is claimed or swept |
| Admission.ApprovalsStay | relay/internal/store/keyregistry.go:96-164 | no step revokes an approval |
| Admission.CodeLives | relay/internal/store/keyregistry.go:60-164 | after any step a code is live exactly if it is issued in it, or was live and is neither claimed nor overdue |
| Admission.ApprovedExactly | relay/internal/store/keyregistry.go:96-124 | a key becomes approved exactly by a claim of a code issued for it |
| Admission.ConnectAdmits | relay/cmd/pinchd/main.go:284-302 | a connection gets into the table exactly if its key is approved, or need not be, and its address is free |
| Admission.HistoryIsTrue | relay/internal/store/keyregistry.go:60-164 | the history that the admission results speak of holds exactly the codes issued, claimed and dropped |
| Base58.DecodeEncode | skill/src/identity.ts:114 | decoding undoes encoding for every byte string, leading zeros included |
| Base58.EncodeDecode | skill/src/identity.ts:135 | encoding undoes decoding for every string over the alphabet |
| Base58.EncodeDenotes | skill/src/identity.ts:114 | the encoding is the one string over the alphabet with as many leading '1' as there are leading zero bytes whose characters, read by rank in base 58, denote the number that the bytes denote in base 256 |
| Base58.ValueIsRank | skill/src/identity.ts:29 | the digit of a character is the number of alphabet characters before it |
| Base58.AlphabetIs | skill/src/identity.ts:29 | the alphabet is all digits and letters without 0, O, I and l |
| Base58.NatOfCons | skill/src/identity.ts:114 | the first digit is the most significant |
| Identity.ValidateAddress | skill/src/identity.ts:125-156 | the loop version computes the specified verdict: format, length, checksum, then key and host |
| Identity.ParseMatches | relay/internal/identity/identity.go:64-70 | the parser finds a payload and host exactly when the pattern matches, and the split is unique |
| Identity.AddressRoundTrip | skill/src/identity.ts:108-156 | a generated address validates to its own key and host exactly when the host is acceptable to the pattern |
| Identity.AcceptedIsGenerated | skill/src/identity.ts:125-156 | every accepted string is the generated address of what it validates to |
| Identity.VerdictExactly | skill/src/identity.ts:125-156 | what validation makes of every string: malformed exactly if it is not "pinch:", the encoding of some bytes, "@" and a host; otherwise wrong length, wrong checksum, or accepted with its key and host, each exactly when |
| Identity.AddressBijection | relay/internal/identity/identity.go:19-60 | two accepted addresses with the same key and host are the same string |
| Identity.CrossLanguage | skill/src/identity.ts:29 | the two implementations agree on an address the relay accepts exactly when its host lacks the three extra line breaks |
| Identity.CarriageReturnSplits | skill/src/identity.ts:29 | the address of any key on host "a\r" is accepted by the relay and malformed for the agent |
| Identity.GenerateInjective | relay/internal/identity/identity.go:19-27 | different keys or hosts have different addresses |
| ConnectionStores.ConnectionStore.AddConnection | skill/src/connection-store.ts:150-176 | refuses long messages; otherwise stores the given record, a missing level and manifest filled in with the safe defaults |
| ConnectionStores.ConnectionStore.UpdateConnection | skill/src/connection-store.ts:183-209 | changes exactly the given fields and the activity time, or fails on an unknown peer |
| ConnectionStores.ConnectionStore.SetAutonomy | skill/src/connection-store.ts:228-255 | refuses unconfirmed upgrades to full_auto without any change; otherwise clears the flag and sets the level |
| ConnectionStores.ConnectionStore.ExpirePendingRequests | skill/src/connection-store.ts:309-327 | revokes exactly the overdue pending records and returns them |
| ConnectionStores.ConnectionStore.ClearPassthroughFlags | skill/src/connection-store.ts:333-340 | clears that flag everywhere and nothing else |
| ConnectionStores.AddedIsGuarded | skill/src/connection-store.ts:150-176 | a record is stored as given, at full_manual and with nothing permitted unless said otherwise; more than 280 characters are refused |
| ConnectionStores.EditExactly | skill/src/connection-store.ts:183-209 | an edit gives the named fields their values, moves the activity time, and keeps everything else |
| ConnectionStores.AutonomyExactly | skill/src/connection-store.ts:228-255 | an accepted setAutonomy sets that level, clears the breaker and touches nothing else; a refused one touches nothing |
| ConnectionStores.HousekeepingExactly | skill/src/connection-store.ts:309-340 | expiry revokes exactly the pending records past their time, and clearing passthrough changes nothing else |
| ConnectionStores.TrippedImpliesManual | skill/src/connection-store.ts:150-255 | in every store reachable by the operations the agent uses (`OpOk`), a tripped breaker implies full_manual |
| ConnectionStores.FlagClearedOnlyBy | skill/src/connection-store.ts:249-254 | among those operations the flag is cleared exactly by an accepted setAutonomy or a fresh addConnection |
| ConnectionStores.FullAutoOnlyConfirmed | skill/src/connection-store.ts:238-247 | among those operations full_auto is entered exactly by a confirmed setAutonomy |
| CircuitBreakers.PruningRefinesHistory | skill/src/autonomy/circuit-breaker.ts:103-230 | every trip decision on the pruned list equals the decision on the complete history |
| CircuitBreakers.DecisionMeans | skill/src/autonomy/circuit-breaker.ts:130-171 | a decision names an exceeded check, and there is none exactly when all four counts are below their thresholds |
| CircuitBreakers.TripsExactly | skill/src/autonomy/circuit-breaker.ts:123-211 | a recording trips a known, untripped connection exactly when one of the four triggers has reached its limit; then it is at full_manual, flagged, and one feed entry names trigger, count, threshold and window; nothing else ever changes |
| CircuitBreakers.DefaultLimits | skill/src/autonomy/circuit-breaker.ts:39-46 | the documented defaults, trigger by trigger |
| CircuitBreakers.NewestCounts | skill/src/autonomy/circuit-breaker.ts:159-176 | event by event, the newest observation adds one to the count of its own kind, exactly if it lies strictly inside the window |
| CircuitBreakers.WindowIsHalfOpen | skill/src/autonomy/circuit-breaker.ts:159-168 | for every threshold, messages in order trip as a flood exactly when the floodThreshold-th newest is less than one window old |
| CircuitBreakers.CircuitBreaker.Record | skill/src/autonomy/circuit-breaker.ts:73-88 | records, prunes, checks and trips as specified; throws exactly when an unknown connection would trip |
| CircuitBreakers.CircuitBreaker.AddEvent | skill/src/autonomy/circuit-breaker.ts:103-112 | appends the event and drops what is older than the longest window |
| CircuitBreakers.CircuitBreaker.CheckAndTrip | skill/src/autonomy/circuit-breaker.ts:123-172 | trips on the first exceeded check unless already tripped, and changes nothing otherwise |
| CircuitBreakers.CircuitBreaker.DoTrip | skill/src/autonomy/circuit-breaker.ts:177-211 | downgrades, sets the flag and writes one feed entry with the trigger |
| Pipeline.PermissionsEnforcer.Check | skill/src/autonomy/permissions-enforcer.ts:40-134 | the check loop, with its early returns and safe defaults |
| Outcomes.CheckDecides | skill/src/autonomy/permissions-enforcer.ts:40-134 | from the answers alone: an unknown or inactive sender is refused unasked; otherwise the first answer that is not a yes decides, an exception escalating without violation, a no being a violation, an uncertain answer both |
| Outcomes.DeniedAre | skill/src/autonomy/permissions-enforcer.ts:101-103 | the categories asked about are those not allowed, in order and as often as they occur |
| Pipeline.EnforcementPipeline.Route | skill/src/inbound-router.ts:49-112 | level to state, with the feed entry for notify and the safe default |
| Pipeline.EnforcementPipeline.EvaluateAutoRespondPolicy | skill/src/autonomy/enforcement-pipeline.ts:176-250 | the outcome of a policy answer, a missing policy and an exception |
| Pipeline.EnforcementPipeline.ProcessMessage | skill/src/autonomy/enforcement-pipeline.ts:46-168 | the staged path of one message over all components |
| Pipeline.MessageStore.UpdateMessageState | skill/src/message-store.ts:155-163 | updates an existing message only |
| Outcomes.ProcessOutcome | skill/src/autonomy/enforcement-pipeline.ts:46-250 | stored state equals returned state, no other message changes, and delivered, read_by_agent, escalated_to_human and failed, each exactly when, on record, answers and level after flood detection |
| Outcomes.ProcessReason | skill/src/autonomy/enforcement-pipeline.ts:101-147 | the reason stored is the objection's own or that of a policy that said no; otherwise none |
| Outcomes.InactiveOutcome | skill/src/inbound-router.ts:49-66 | a sender that is unknown or inactive when its message is routed: refused with its own reason, nothing noted |
| Outcomes.ProcessCounts | skill/src/autonomy/enforcement-pipeline.ts:121-155 | one flood event for a message that passes its checks, one information_boundary event for a hard denial, and no event and no change of connections otherwise |
| Outcomes.ProcessNotes | skill/src/autonomy/enforcement-pipeline.ts:50-93 | the feed entries of a message, trip first and exactly if it tripped, then at most one about the message |
| Segments.RoutedOutcome | skill/src/autonomy/enforcement-pipeline.ts:149-168 | with other work between the awaits, a message that passed its checks is read, or put to the policy, exactly by the state and the level after flood detection of the record at routing time |
| Segments.ResolvedOutcome | skill/src/autonomy/enforcement-pipeline.ts:196-238 | a message put to the policy is read exactly if the answer allows it, whatever the record is by then |
| Segments.EditedMeanwhileStillRead | skill/src/autonomy/enforcement-pipeline.ts:50-101 | a run in which a peer is muted, or put in passthrough, during the check of its message, which is read all the same |
| Outcomes.NoOpNeverAutoResponds | skill/src/autonomy/policy-evaluator.ts:50-74 | without a language model an auto_respond peer never reaches read_by_agent |
| Outcomes.NoOpEscalates | skill/src/autonomy/policy-evaluator.ts:50-74 | nor does anything pass a boundary or a denied category: it goes to the human, uncounted |
| Outcomes.MutedIsInert | skill/src/autonomy/enforcement-pipeline.ts:50-93 | muted and passthrough peers leave counters and connections alone and write one feed entry; the message is delivered, or left to the human |
| RateBound.AutonomousRateBound | skill/src/autonomy/enforcement-pipeline.ts:149-168 | in any run of one process at most floodThreshold - 1 messages of one peer recorded within one flood window are read autonomously, re-upgrades included |
| RateBound.WorldStepKeeps | skill/src/autonomy/circuit-breaker.ts:103-172 | every interleaved segment keeps the invariant behind the bound |
| RateBound.ProcessDecomposes | skill/src/autonomy/enforcement-pipeline.ts:95-168 | every process call is a sequence of such segments |
| RateTight.BoundIsTight | skill/src/autonomy/circuit-breaker.ts:159-168 | for every threshold of at least two, a run that reads floodThreshold - 1 messages in a half-open window and floodThreshold in the closed one |
| TripKinds.OnlyFloodsTripExactly | skill/src/autonomy/enforcement-pipeline.ts:121-128 | in all runs of the pipeline every trip is a message flood, if and only if the flood threshold is not positive or both other thresholds are |
| TripKinds.DenialTripsOtherwise | skill/src/autonomy/circuit-breaker.ts:158-169 | otherwise a single hard denial trips the breaker, as a permission violation or a boundary probe |
| TripKinds.DenialsNeverTrip | skill/src/autonomy/permissions-enforcer.ts:75-88 | with positive thresholds any number of hard denials at one moment is on record and leaves the connection as it was |
| TripKinds.ThreeProbesPass | skill/src/autonomy/circuit-breaker.ts:39-46 | on the default configuration three boundary probes at one moment do not trip |
| AuditLog.ActivityFeed.Record | skill/src/autonomy/activity-feed.ts:139-205 | stores a row that links to the latest row and carries the hash of its seven fields |
| AuditLog.RecordedRow | skill/src/autonomy/activity-feed.ts:139-205 | the row stored for an event, its action named after its type if it has none, and that the table gains that row and nothing else |
| AuditLog.HashInput | skill/src/autonomy/activity-feed.ts:49-57 | the text under the hash, written out |
| AuditLog.StrLessMeans | skill/src/tools/pinch-audit-verify.ts:105-111 | the order of the table: a proper prefix first, otherwise the first difference decides |
| AuditLog.SelectedAre | skill/src/tools/pinch-audit-verify.ts:88-111 | rows from before hashing are passed over; of the others, in order, all or the last N are looked at |
| AuditLog.Verify | skill/src/tools/pinch-audit-verify.ts:49-190 | valid exactly when the selected chain is intact; otherwise reports its first bad entry |
| AuditLog.EverythingRecordedVerifies | skill/src/tools/pinch-audit-verify.ts:88-178 | everything recorded in order verifies in full and for every tail length |
| AuditLog.RecordVerifiesExactly | skill/src/autonomy/activity-feed.ts:145-162 | with unique bar-free ids, a call keeps a verified table verified exactly when its (created_at, id) sorts last, unless the new row collides with a stored one |
| AuditLog.FieldsDetermined | skill/src/autonomy/activity-feed.ts:49-57 | the hash input determines the seven fields exactly when none contains a bar |
| AuditLog.TamperEvident | skill/src/tools/pinch-audit-verify.ts:113-178 | two verified tables with the same last hash, one of them bar-free, agree in length and all hashed fields, or the entries at some distance from the end collide |
| AuditLog.BarHasTwin | skill/src/autonomy/activity-feed.ts:49-57 | a verified table with a bar in one of the first six fields of an entry has a verified twin with other fields and the same hash inputs |
| AuditLog.TamperEvidentExactly | skill/src/tools/pinch-audit-verify.ts:113-178 | with a bar-free digest, every verified table that ends in the same hash has the same fields or collides entry for entry with this one, if and only if the first six fields of its entries are bar-free |
| AuditLog.BarMovesUnnoticed | skill/src/autonomy/activity-feed.ts:139-205 | two recordings with different fields, whose logs both verify and end in one hash |
| AuditLog.VerdictIgnoresUnhashed | skill/src/autonomy/activity-feed.ts:40-59 | the verdict depends on nothing but the seven fields and the entry hash |
| AuditLog.ExportVerifies | skill/src/tools/pinch-audit-export.ts:61-90 | every time-range export of a verified log passes the chain walk by itself |
| AuditLog.ExportMembers | skill/src/tools/pinch-audit-export.ts:61-84 | what is exported: the rows from since up to and including until, each bound optional |
| AuditLog.InsertedInOrder | skill/src/tools/pinch-audit-export.ts:77-84 | the table reads back by time, and at the same time by id, whatever is added |
| ConnectionManagers.ConnectionManager.Request | skill/src/connection.ts:55-105 | sends a request and stores a pending_outbound record, or throws unchanged |
| ConnectionManagers.ConnectionManager.Approve | skill/src/connection.ts:141-183 | only a pending_inbound record becomes active, with one response sent |
| ConnectionManagers.ConnectionManager.Reject | skill/src/connection.ts:191-207 | only a pending_inbound record is revoked, silently |
| ConnectionManagers.ConnectionManager.Block | skill/src/connection.ts:248-276 | any existing record becomes blocked and the relay is told |
| ConnectionManagers.ConnectionManager.Unblock | skill/src/connection.ts:283-311 | any existing record becomes active and the relay is told |
| ConnectionManagers.ConnectionManager.Revoke | skill/src/connection.ts:318-347 | the notice goes out first; an unknown peer then makes the call throw |
| ConnectionManagers.ConnectionManager.HandleEnvelope | skill/src/connection.ts:111-134 | the effect of each incoming packet on the store |
| ConnectionChanges.ThrowsExactly | skill/src/connection.ts:55-347 | a call throws exactly without a relay address, on a record it cannot act on, or on more than 280 characters |
| ConnectionChanges.HandlerThrowsExactly | skill/src/connection.ts:111-241 | a handler throws exactly on a long request or a response without a record, and never answers |
| ConnectionProtocol.ActiveMeansConsent | skill/src/connection.ts:55-311 | in every interleaving an active record goes back to a request on one side and a later approval on the other, or to a misuse of block or unblock by its own agent |
| ConnectionProtocol.ConsentUnderDiscipline | skill/src/connection.ts:243-311 | with block only on active and unblock only on blocked records, consent alone remains |
| ConnectionProtocol.UnblockSkipsConsent | skill/src/connection.ts:283-311 | without that, a request unblocked by its own sender is active without consent |
| ConnectionProtocol.BecomesActive | skill/src/connection.ts:141-311 | an inactive record becomes active exactly by approving a pending request, by unblocking, or by an accepting response of the peer |
| ConnectionChanges.BecomesRevoked | skill/src/connection.ts:191-367 | a record becomes revoked exactly by a revocation or rejecting response of the peer, by its owner revoking it or rejecting it while pending_inbound, or by expiring while pending |
| ConnectionChanges.BecomesBlocked | skill/src/connection.ts:248-276 | a record becomes blocked exactly by its owner, from any state |
| ConnectionChanges.BecomesPendingInbound | skill/src/connection.ts:111-134 | exactly by an arriving request of at most 280 characters, from any state |
| ConnectionChanges.BecomesPendingOutbound | skill/src/connection.ts:55-105 | exactly by sending a request of at most 280 characters, from any state |
| ConnectionChanges.NewRecord | skill/src/connection.ts:94-132 | a new record trusts nobody, and carries the peer's key and expiry, or none yet and seven days |
| ConnectionChanges.OtherFieldsKept | skill/src/connection-store.ts:183-209 | every other step keeps all but state, key and activity time |
| ConnectionChanges.KeyFromAcceptance | skill/src/connection.ts:222-232 | the key changes exactly with an acceptance, to what the peer sent |
| ConnectionChanges.ToldExactly | skill/src/connection.ts:55-347 | which packet a call sends, at most one, and that a rejection is silent |
| ConnectionChanges.BlockedIsReported | skill/src/connection.ts:243-311 | in every run, a blocked record was reported to the relay as blocked and not taken back since |
| ConnectionChanges.HistoryIsTrue | skill/src/connection.ts:55-311 | the history that the consent results speak of holds exactly the requests and approvals that took effect, and the misuses exactly those |
| ConnectionProtocol.OldConsentRevives | skill/src/connection.ts:214-241 | over a network that may duplicate, an inactive record can become active with no new approval or unblock, if and only if the peer has sent an acceptance |
| ConnectionProtocol.UndeliveredConsentRevives | skill/src/connection.ts:214-241 | in every run over a network that does not duplicate, the same holds if and only if an acceptance of the peer is still undelivered |
| ConnectionProtocol.LateResponseRevives | skill/src/connection.ts:214-241 | a run in which a revoked record becomes active that way |
| ConnectionProtocol.StoredKeysAreGenuine | skill/src/connection.ts:222-232 | a stored peer key is the peer's own |

## Left out

- Interleavings finer than the relay steps above, such as a send to a channel the hub has just closed.
- The token bucket of the rate limiter: whether a call is limited is part of the event.
- Cryptography, protobuf, WebSocket, HTTP, bbolt, SQLite and file formats: values, maps and sequences in their place.
- A crash between sending a flushed entry and deleting it, and database errors.
- QueueStatus carries an int32; the model keeps the count unbounded.
- Base64: key strings in the registry are compared as wsHandler encodes them; registrations under another spelling of the same key are separate strings.
- Heartbeats and reconnection timers.
- Rate limiting of registration, the Turnstile check, origin checks, the health endpoint and the claim page.
- Manifest tiers for calendar, files, actions and spending, and manifest validation: not enforced on messages.
- Sorted listing of connections, nicknames and message history queries: easy members.
- The policy evaluator itself: any answers, and exceptions.
- FlushProtocol.MessageManager.WaitForFlush: starts after the grace period in which waitForFlush polls for QueueStatus, because the polling changes nothing.
- Pipeline.EnforcementPipeline.ProcessMessage: does not change the store between the awaits of one call; the segments of RateBound and Segments do.
- Pipeline.EnforcementPipeline.EvaluateAutoRespondPolicy: nor does it, for the same reason.
- The activity feed appears twice: as the list of events handed to record (`CircuitBreakers.ActivitySink`), all the pipeline sees of it, and as the hash-chained table (`AuditLog.ActivityFeed`), where identifiers, times and the digest matter.
- ConnectionStores.ConnectionStore.ExpirePendingRequests: returns the expired addresses as a set, because their order is the insertion order of a JavaScript object, which the store does not model.
- AuditLog.ActivityFeed.Record: returns the stored row; the TypeScript call returns the caller's fields, without the default for the action type.
- AuditLog.ExportVerifies: covers which rows are exported and their order, not the JSON that is written.
- ConnectionManagers.ConnectionManager.Request: sending does not fail once the agent has an address.
