# Gateway core: models and proofs

This project models the stateful core of a QUIC/WSS gateway in Dafny and proves what that core is relied on
for. Each part has a simple meaning (a finite map, a set of byte streams, "the packets accepted so far", a
lookup in a table) and a clever concrete form (open addressing with backward-shift deletion, linked slots in
one array, a 64-bit window, a lock-free append). The proofs connect the two, for every input and every run.

`dafny verify dfyconfig.toml` checks everything. There is one file per component:

| files | component |
|---|---|
| Words, Options | 64-bit words: bits, exclusive or, shifts, wrap-around multiplication |
| Quota | weighted admission per realm |
| CnxIndex | the connection index: linear probing, backward-shift deletion |
| SlotChains, ArenaModel, SlotArena | the shared receive arena: chains, histories, charges; then the arrays themselves |
| BackendPool | the per-Worker pool around both |
| Placement | rendezvous placement, the placement view, the node snapshot |
| ForwardCodec, Replay, Tunnel, TunnelDelivery | the tunnel datagram, the replay table, the receive loop; what reaches a Worker and what each counter counts |
| Reuseport | connection ids, the reference classifier and the kernel program |
| Frames, Framing, ClientWire | frame headers, scanner and encoder; upstream framing; the client agent's reader and writer |
| Handoff | the bounded queue, its ring buffer, the wake-up protocol |
| Tables, Reload | append-only tables with lock-free readers; hot reload |
| Handles | backend stream handles and selectors, down to the bit operations |
| DirectModel, DirectEffects, DirectSafety, DirectTheorems | the direct transport as a state machine, what one step can do, its invariant, and what follows over all runs |
| DirectOwnership, DirectBlame | whose stream a write or a cancellation reaches, and whose callback ends a generation |
| DirectFailures, DirectLookups, DirectBackoff | how many failures of one connection wait, which lookups a shutdown leaves out, how long a failing connection is left alone |
| DirectTold, DirectStreams | what the Worker is told, byte for byte; the numbers of the streams it opens, and what a write is answered |
| DirectWorker, DirectIndex | several transports over one arena and one failure count, and the pool's index they share |
| Direct | the direct transport as objects with fields, every method tied to the state machine |

## How the models are built

Code that changes fields or arrays in place is a class with the same fields (`Quota`, `CnxIndex`, `SlotArena`,
`BackendPool`, `RingQueue`, `Tunnel`, `FrameScanner`, `FrameEncoder`, `StreamFramer`, `Table`, `RouteCatalog`,
`Reloader`, `BackendConn`, `DirectTransport`). Each method's contract gives the whole new state as a function
of the old one, or the operation on the abstract value; the laws are then lemmas about those functions and
about runs of them. Code made of expressions is functions. Where several threads or callbacks interleave, the
model is a state machine whose steps are the single accesses to what they share: one critical section, one
counter, one published length. The theorems quantify over all sequences of enabled steps.

Histories are ghost: the arena remembers what each connection accepted and what was popped; the direct
transport remembers, per connection, the QUIC connection of every connected event (`made`), those still in
the pool's index (`live`), the lookups under way (`resolving`), what was queued and taken, which generations ended without notice, over which
QUIC connection each stream was opened (`via`), and whose callback ended which generation (`blamed`). They
are not fields of the source, and no operation reads them to decide anything. `live` only guards which
callbacks can come, and `LiveIsIndexed` shows it to be what the pool's index has; `resolving` only guards which
answers can come.

The hash of the connection index and the score of the rendezvous choice are arbitrary functions where only
that is needed; the real hash and the real score are then shown to be such functions. The MAC of the tunnel
is an arbitrary function from secret and bytes to 16 bytes. DNS, QUIC and the clock are parameters of the
steps: the answer to a lookup, what QUIC says to a write, the time.

## What the proofs found

- A lookup that is answered late takes a ready connection's streams away. `onResolved` stores the new QUIC
  connection in any state (src/backend/direct.zig:356-403), and lookups overlap when a connection fails and is
  retried while one is out; the generation stays, so handles opened on the old QUIC connection now lead to the
  same stream number on the new one. The comment above `sendStreamImpl` (src/backend/direct.zig:729-732) rules
  this out. `LateAnswerTakesTheStream` is such a run. `CancellationHitsItsOwnStream` gives the exact condition
  for cancellations, and `WritesFollowCancellations` carries it over to writes: no lookup answered with a new
  QUIC connection while its endpoint is ready and has used a stream number. `AlignmentIsExact` says when the
  QUIC connection in hand is the one that was connected last.
- A callback is not compared with the connection's current QUIC connection (src/backend/direct.zig:424-498).
  After a write failure the old connection stays in the pool's index. Its late data is then queued under its
  successor's generation; `AttributionIsExact` says that this is the only way an event gets a wrong generation.
  Its close, and data of it that does not fit, end the successor's generation; `BlameIsExact` says that this is
  the only way a callback ends another's generation. `LateCallbacksHitTheSuccessor` shows both in one run,
  `LateCloseAloneFailsTheSuccessor` the second without the first.
- A generation can end without a failure notice: a second connected event on a ready connection, or a late
  lookup that fails while it is ready, replaces or fails it silently (`ReplacedGenerationGoesUnreported`).
  `EveryEndIsNoticedExactly` says that failures are told of exactly what failed if and only if neither happens.
- A shutdown removes from the pool's index only the QUIC connections in hand (src/backend/direct.zig:222-228).
  One that was given up without closing stays, with an owner that is gone: `ShutdownLeavesAnEntry`.
  `ShutdownClearsTheIndexExactly` gives the exact condition.
- A shutdown cancels only the lookup whose handle is held (src/backend/direct.zig:187-190): a second lookup
  replaces the handle (src/backend/direct.zig:292) and any answer clears it (src/backend/direct.zig:358).
  `LookupsStayHeldExactly` says when every lookup out can be cancelled at any time: when no retry issued one
  while an earlier one was out. `ShutdownLeavesNoLookupExactly` says the same of one shutdown, and
  `ShutdownLeavesALookup` is a run whose last answer comes after its connection is gone.
- A connection can have several failures queued, one per generation, when the Worker does not look in between
  (`TwoFailuresOfOneConnection`); the comments at src/backend/direct.zig:542 and
  src/backend/direct.zig:595-596 expect one. `OneFailureEachExactly` gives the exact condition, and `OneEachFits`
  what the comments rely on where it holds.
- A DNS error leaves a connection in `connecting` for good (src/backend/direct.zig:363-370): nothing short
  of shutting the transport down changes it. `DnsErrorStrands` says that no other step does this and exactly
  when this one does, `StrandedExactly` says the same of whole runs.
- "Failure is the last word" holds up to wrap-around of the 16-bit generation: an event that matches a told
  failure's selector needs at least 65536 more connected events (`FailureIsTheLastWord`).
- The backoff ceiling of 30 s is never reached: the shift is capped at 8, so the wait levels off at 25.6 s
  (`BackoffDoubles`).
- The replay table holds 128 senders. Up to 128, `ReplayProtectionIsExact`; with 129 the first sender's
  packets are accepted again (`EvictionForgets`). With any number, `ReplayProtectionRemembers128` says exactly
  what is remembered: the last 128 windows opened.
- A packet is counted after it was pushed, outside the queue's lock (src/io/handoff.zig:285-289,
  src/io/forward.zig:418-427), and a Worker may take it in between. "Delivered minus taken is still queued" and
  "forwarded minus taken is still queued" therefore hold only up to what is in flight: `TunnelIsExact` gives the
  balances with it, `CountersAgreeExactly` says exactly when they hold without, and in
  `WorkerOutrunsTheCounters` both counters are one behind the Worker.
- `decode` accepts payloads that `encode` refuses to build (`OversizedPayloadDecodes`).
- The classifiers route connection ids of node 0, which never parse (`NodeZeroIsRouted`).
- A reload that passes its checks may still be applied in part when a table runs out of room, or the strings
  run out of memory (src/app/reload.zig:118-148; the first is admitted in docs/status.md:113). `FailureLeavesTracesExactly` gives the exact
  condition, `HalfAppliedFile` one such file.

## Model

| member | source | states |
|---|---|---|
| RealmQuota.Quota.Allows | src/foundation/quota.zig:90-97 | Admission reads three counters and answers as if it looked at the whole bag of units held: untracked realms and pools below the watermark are admitted, otherwise a realm must be below capacity divided by the number of active realms |
| RealmQuota.Quota.Acquire | src/foundation/quota.zig:100-105 | `counts`, `total` and `active_realms` go on describing the bag of units held after one more unit; untracked realms are not counted |
| RealmQuota.Quota.Release | src/foundation/quota.zig:111-118 | The same for giving back; a release without a holding changes nothing |
| RealmQuota.NewcomerNeverRefused | src/foundation/quota.zig:90-97 | A realm that holds nothing is never refused while the units held do not exceed the capacity |
| RealmQuota.RefusalIsEarned | src/foundation/quota.zig:90-97 | A refused realm is over the watermark and holds at least its fair share |
| RealmQuota.AdmittedUnitStaysWithinShare | src/foundation/quota.zig:90-105 | One admission at its own moment: the pool was still below the watermark, or the realm stays within the share of the realms active just before |
| RealmQuota.CrowdedRunStaysWithinShare | src/foundation/quota.zig:90-118 | Over any run of requests and releases: while at least k realms are active whenever a realm asks above the watermark, and no request is for more than a batch, it never gets past the larger of the watermark and a k-th of the pool by more than a batch less one |
| RealmQuota.AdmittedBatchOvershootsLittle | src/foundation/quota.zig:90-105 | A batch judged once, before its first unit, leaves the realm at most its size less one past the share, unless the pool was below the watermark |
| ConnectionIndex.CnxIndex.constructor | src/backend/pool.zig:301-307 | An empty map over a power-of-two table at least twice the capacity |
| ConnectionIndex.CnxIndex.Find | src/backend/pool.zig:324-331 | Probing is lookup in the finite map, for any hash; the loop ends because a vacant slot exists |
| ConnectionIndex.CnxIndex.Put | src/backend/pool.zig:333-340 | Insertion or overwrite in the finite map |
| ConnectionIndex.CnxIndex.Remove | src/backend/pool.zig:342-366 | Deletion from the finite map, with every remaining key still reachable from its ideal slot and no tombstone |
| ConnectionIndex.CnxIndex.CloseGap | src/backend/pool.zig:349-365 | The backward-shift loop ends and leaves no chain broken, the same map and the same number of entries |
| ProbeTable.ShiftKeepsChains | src/backend/pool.zig:355-362 | Moving an entry whose ideal slot is not past the hole keeps every probe chain unbroken up to the new hole |
| ProbeTable.ScanEndClosesChains | src/backend/pool.zig:353-364 | When the shift stops at a vacant slot no probe chain crosses the hole any more |
| ProbeTable.ProbeMissMeansAbsent | src/backend/pool.zig:324-331 | A probe that reaches a vacant slot has proved the key absent |
| ConnectionIndex.FibonacciHash | src/backend/pool.zig:315-318 | The real hash lands inside the table |
| ConnectionIndex.HashIsUpperBits | src/backend/pool.zig:315-318 | The arithmetic form is the source's multiply, shift and mask |
| ReceiveArena.SlotArena.constructor | src/backend/pool.zig:139-164 | Every slot is free, in one chain; the limits are clamped to at least one slot |
| ReceiveArena.SlotArena.Take | src/backend/pool.zig:178-186 | The head of the free chain leaves it and is charged to the realm; the arena invariant holds |
| ReceiveArena.SlotArena.EnqueueEvent | src/backend/pool.zig:206-242 | The whole callback joins its queue, chunk by chunk, or nothing moves. Accepted, it had the slots and room in its queue, and its realm ends at most one callback less one chunk past its share unless the arena was below the watermark; refused, slots were lacking, or room in the queue, or the realm was at its share above the watermark |
| ReceiveArena.SlotArena.EnqueueControl | src/backend/pool.zig:201-204 | A control event takes one slot of its own, in order with the data |
| ReceiveArena.SlotArena.Pop | src/backend/pool.zig:245-252 | The head of one queue goes on loan; every other queue and the free chain are as they were |
| ReceiveArena.SlotArena.Release | src/backend/pool.zig:258-264 | A slot on loan returns to the free chain and the realm recorded in the slot is credited |
| ReceiveArena.SlotArena.Drop | src/backend/pool.zig:267-269 | One queue is emptied slot by slot, each slot credited to its realm and free again; no other queue or history changes, and what is on loan stays on loan with its bytes |
| ArenaModel.EverySlotHasOnePlace | src/backend/pool.zig:127-137 | Free chain, queues and loans cover all slots, and no slot is in two places |
| ArenaModel.PoppedIsPrefixOfAccepted | src/backend/pool.zig:206-252 | What was popped from a connection is a prefix of what it accepted, event by event and byte by byte, and all of it once the queue is empty |
| ArenaModel.ChunksAreTheData | src/backend/pool.zig:219-239 | The chunks of a callback concatenate to its data, none is larger than a slot, and fin is on the last one only |
| ArenaModel.ChargesMatchHoldings | src/backend/pool.zig:178-264 | A realm's charge is the number of slots it holds, so a realm that holds none is never refused |
| ArenaModel.AdmittedCallbackOvershootsLittle | src/backend/pool.zig:207-239 | The realm share is checked once for a whole callback: an admitted one of n chunks leaves its realm at most n - 1 slots past the share, unless the arena was below the watermark |
| ArenaModel.TestsAreTheVerdict | src/backend/pool.zig:214-217 | The three tests are such a verdict, in both directions |
| ArenaModel.RunStaysWithinShare | src/backend/pool.zig:178-269 | Over every run of enqueue, pop, release, drop and new queues: while at least k realms hold slots whenever a realm asks above the watermark, it never gets past the larger of the watermark and a k-th of the slots by more than a callback's chunks less one |
| ArenaModel.AppendStep | src/backend/pool.zig:222-239 | Each pass of the copy loop adds exactly the next chunk and leaves every loan alone |
| ArenaModel.ReleaseKeepsInv | src/backend/pool.zig:258-264 | Releasing keeps chains disjoint and counts and charges exact |
| ArenaModel.PopKeepsInv | src/backend/pool.zig:245-252 | Popping keeps chains disjoint and counts and charges exact |
| WorkerPool.FreeCountDecidesIdle | src/backend/pool.zig:570-580 | The free count equals the slot count exactly when no queue holds anything and nothing is on loan |
| WorkerPool.BackendPool.Register | src/backend/pool.zig:515-521 | Refused exactly when the connection is new and the pool is at its limit; the index stays at most half full |
| WorkerPool.BackendPool.Unregister | src/backend/pool.zig:523-527 | Removes one connection and keeps `live` the size of the map |
| WorkerPool.BackendPool.AllocConnId | src/backend/pool.zig:507-512 | Ids are handed out in order, once each, and never the last value |
| WorkerPool.BackendPool.Pop | src/backend/pool.zig:539-549 | Hands out the oldest chunk of the queue with its bytes and its slot |
| WorkerPool.BackendPool.Idle | src/backend/pool.zig:578-580 | True exactly when nothing is queued or on loan and no failure is unacknowledged |
| Placement.GoldenInjective | src/foundation/placement.zig:85-88 | Multiplication by the odd constant is injective mod 2^64 |
| Placement.ScoresAreDistinct | src/foundation/placement.zig:110-123 | Distinct node ids never tie on any key |
| Placement.KeysAreDistinct | src/foundation/placement.zig:85-88 | Within a realm no two destinations share a key, and for one destination no two realms do |
| Placement.KeyUndone | src/foundation/placement.zig:85-88 | A key can be read back: undoing multiplication and salt gives the destination |
| Placement.ScoreUndone | src/foundation/placement.zig:110-124 | And so can the key behind a node's score |
| Placement.HomeWorkerDeals | src/foundation/placement.zig:96-99 | The Worker exists, two keys share one exactly when the number of Workers divides the difference of their upper halves, and the first upper halves go to the Workers in order |
| Placement.HomeIs | src/foundation/placement.zig:151-158 | No home under broadcast; else the candidate that nobody outscores, this node while there is none, and the Worker congruent to the key's upper half |
| Placement.FindHomeNode | src/foundation/placement.zig:110-123 | The scan returns the node whose score nobody beats |
| Placement.SameCandidatesSameHome | src/foundation/placement.zig:102-123 | The home depends on the set of candidates only, not on order or repetition |
| Rendezvous.MinimalMovement | src/foundation/placement.zig:100-123 | Adding a node moves a key if and only if the new node becomes its home |
| Rendezvous.MovesOnlyWithCause | src/foundation/placement.zig:100-123 | Between any two node lists a key moves only if its old home left or its new home joined |
| Placement.JoinMovesOnlyToTheNewNode | src/foundation/placement.zig:100-123 | Adding a node moves exactly the keys it becomes the home of |
| Placement.LeaveMovesOnlyItsKeys | src/foundation/placement.zig:100-123 | Removing a node moves exactly the keys homed there |
| Placement.CandidatesAreOldAndNewHome | src/foundation/placement.zig:151-190 | The candidates are exactly the current and the previous home, in that order and without repeats, on one Worker |
| Placement.AcceptedExactlyAtEitherHome | src/foundation/placement.zig:199-223 | A connection is accepted exactly at its old or its new home |
| Placement.WindowCoversBothViews | src/foundation/placement.zig:160-223 | While one node's window covers another's view, whatever home the other names accepts the connection |
| NodeSnapshots.NodeSnapshot | src/control/coordinator.zig:347-362 | The buffer holds this node and then the forwardable others in id order, up to its length; the rest is untouched |
| NodeSnapshots.SnapshotIs | src/control/coordinator.zig:347-362 | This node, then in id order the others that are alive or suspected; a short buffer loses the highest ids |
| NodeSnapshots.NodesAgreeOnEveryKey | src/control/coordinator.zig:347-362 | Two nodes that see the same cluster agree on every key although each lists itself first |
| BigEndian.MostSignificantFirst | src/io/forward.zig:86-105 | Integers are written most significant byte first |
| ForwardCodec.EncodeInto | src/io/forward.zig:63-120 | The buffer receives exactly the datagram, or an error and is left alone |
| ForwardCodec.DecodeOfWire | src/io/forward.zig:123-174 | Decoding an encoded packet gives it back, for both address families and any MAC |
| ForwardCodec.WireOfDecode | src/io/forward.zig:123-174 | Every datagram that decodes is byte for byte the encoding of its fields |
| ForwardCodec.DecodesIffEncodes | src/io/forward.zig:63-174 | Up to the encoder's payload bound a datagram decodes to a packet if and only if it is what encoding that packet yields |
| ForwardCodec.BufferAlwaysSuffices | src/io/forward.zig:22-25 | Encoding into the 2200-byte buffer never runs out of room; 2128 bytes are enough |
| ForwardCodec.EncodeRefuses | src/io/forward.zig:76-84 | Which error encoding reports, exactly when |
| ForwardCodec.DecodeRefuses | src/io/forward.zig:123-155 | Which error decoding reports, and what is wrong with the bytes then |
| ForwardCodec.OversizedPayloadDecodes | src/io/forward.zig:78-174 | The decoder accepts payloads beyond the encoder's bound |
| ForwardCodec.SecretDoesNotChangeTheFields | src/io/forward.zig:123-174 | Two secrets that both accept a datagram read the same packet from it |
| ForwardCodec.RotationAcceptsBothSecrets | src/io/forward.zig:177-182 | During a rotation a packet made with either secret decodes |
| ForwardCodec.FallbackIsSound | src/io/forward.zig:177-182 | Whatever the fallback accepts is authentic under one of the two secrets |
| ReplayWindow.JudgeIsExact | src/io/forward.zig:369-392 | One window accepts exactly the sequences never accepted and above the highest minus 64, and bit i goes on meaning "highest minus i was accepted" |
| ReplayCache.AcceptIsExact | src/io/forward.zig:361-402 | One step with any number of senders: accepted exactly when the sender has no window or the sequence is fresh since its window was opened, and exactly then it joins what was accepted since |
| ReplayCache.ReplayProtectionRemembers128 | src/io/forward.zig:361-402 | Over any run with any number of senders: accepted exactly when addressed here and, if the sender has one of the last 128 windows opened, fresh for what was accepted since that window was opened |
| ReplayCache.ReplayProtectionIsExact | src/io/forward.zig:361-402 | Over any run with at most 128 senders: accepted exactly when addressed here and fresh for the sender's whole history |
| ReplayCache.EvictionForgets | src/io/forward.zig:394-400 | With 129 senders an accepted packet is accepted a second time |
| TunnelReceiver.Tunnel.AcceptReplay | src/io/forward.zig:361-402 | The scan over the table in memory is the table's `Accept`, verdict and counters included |
| TunnelReceiver.Tunnel.ReceiveOne | src/io/forward.zig:404-430 | One pass of the receive loop, when no other thread comes in between, is one `Receive` |
| TunnelReceiver.TunnelIsExact | src/io/forward.zig:404-430 | Over every interleaving of the tunnel thread with Workers that hand over and take: each datagram raises exactly one counter or is the one in work, delivered plus what is pushed and not yet counted is what was taken plus what is queued, the same for the router's counters, and with at most 128 senders no (source, session, sequence) enters a queue twice |
| TunnelDelivery.WorkersTakeWhatWasSent | src/io/forward.zig:404-430 | Over every interleaving: what a Worker took from its queue and then what is queued are, in order and field by field, the packets handed over to it; every tunnel packet among them is for this node, and a datagram that came in is its encoding under one of the two secrets |
| TunnelDelivery.CountersCountOutcomes | src/io/forward.zig:404-430 | Over every run each counter is the number of datagrams with its outcome, once the thread waits |
| TunnelDelivery.NothingIsHandedTwice | src/io/forward.zig:361-430 | With at most 128 senders no two tunnel packets handed over agree in source node, session and sequence |
| TunnelDelivery.HandOverIsExact | src/io/handoff.zig:278-290 | A packet goes in exactly when there is such a Worker, it is no longer than 2048 bytes and the queue is not full; no other queue changes |
| TunnelReceiver.CountersAgreeExactly | src/io/handoff.zig:278-289 | Read off the counters alone, the balances hold exactly while nothing is pushed and not yet counted, and "one counter per datagram" exactly while the thread waits |
| TunnelReceiver.WorkerOutrunsTheCounters | src/io/forward.zig:418-427 | A run in which a Worker takes a packet before it is counted: both counters are one behind, and nothing is queued |
| TunnelReceiver.ReceiveIsItsSteps | src/io/forward.zig:404-430 | The loop body is the thread's own accesses in a row, and ends with the thread waiting |
| PacketRouting.ForwardCounts | src/io/handoff.zig:265-290 | A push adds one queued packet exactly when it is not refused |
| ConnectionIds.ParseOfEncode | src/io/cid.zig:31-64 | Parsing inverts encoding for every node but the reserved 0 |
| ConnectionIds.EncodeOfParse | src/io/cid.zig:53-64 | Whatever parses is the encoding of its fields and its own entropy |
| ConnectionIds.HintLocates | src/io/cid.zig:47-50 | A placement hint is the prefix of every id of its location, and of no other location |
| Classifier.ProgramEqualsReference | src/io/reuseport.c:29-114 | For every packet and socket count the kernel program returns what the reference returns, and no load leaves the packet |
| Classifier.RoutesExactlyItsOwnCids | src/io/reuseport.c:29-114 | A packet goes to Worker w if and only if its destination id has this layout, names w, and w is a socket |
| Classifier.IssuedCidReachesItsWorker | src/io/reuseport.c:29-114 | A packet with an id this node issued reaches the Worker named in it, long or short header |
| Classifier.NodeZeroIsRouted | src/io/reuseport.c:50-58 | Ids of node 0 are routed although they never parse |
| FrameHeaders.HeaderRoundTrip | src/protocol/frame.zig:435-486 | Headers decode to what was encoded, whatever follows |
| FrameHeaders.HeaderIsCanonical | src/protocol/frame.zig:459-486 | Every header that decodes is the encoding of its fields |
| FrameScanning.ScanIsChunkIndependent | src/protocol/codec.zig:214-259 | Scanning a ++ b is scanning a and then its remainder ++ b, with the same violation at the same frame |
| FrameScanning.AnyChunkingGivesTheFrames | src/protocol/codec.zig:66-96 | Encoding any list of frames and delivering the bytes in any chunks gives back that list |
| FrameScanning.ScanCoversTheInput | src/protocol/codec.zig:232-258 | The frames found and the remainder together are the input |
| FrameScanning.ScanStopsForItsReason | src/protocol/codec.zig:232-253 | Every frame given is whole and within the limit; the scan stops for lack of bytes or for the violation it reports |
| FrameScanning.ViolationIsInTheHeader | src/protocol/codec.zig:214-259 | Which violation the scanner reports, byte by byte and in order, and when it asks for more bytes |
| FrameScanning.RemainderIsShort | src/protocol/codec.zig:208-258 | What is carried over is shorter than one maximal frame |
| FrameCodec.FrameEncoder.EncodeOpen | src/protocol/codec.zig:66-76 | The buffer starts with the OPEN frame, or an error for a body or buffer of the wrong size |
| FrameCodec.FrameEncoder.EncodeData | src/protocol/codec.zig:79-86 | The same for DATA; a frame that asks for a report is written, but scans as a violation of the reserved bit |
| FrameScanning.ReportingDataIsBroken | src/protocol/frame.zig:459-486 | Such a frame is refused whatever follows it and whatever the frame limit |
| FrameCodec.FrameEncoder.Write | src/protocol/codec.zig:88-96 | Header and body in order, bytes behind them untouched |
| FrameCodec.FrameScanner.Next | src/protocol/codec.zig:232-253 | Called until it stops, it yields exactly the frames of a scan of the whole slice, and stops with that scan's remainder or violation |
| StreamFraming.StreamFramer.CompletePending | src/protocol/framing.zig:100-141 | Carried bytes are topped up to exactly one whole frame, or the verdict on carried and new bytes is reported |
| StreamFraming.StreamFramer.Drain | src/protocol/framing.zig:51-83 | Over all callbacks the handler gets exactly the frames of a scan of all bytes so far, in order, until it turns one down |
| StreamFraming.HandOverStopsAtTheFirstRefusal | src/protocol/framing.zig:51-83 | The handler sees all frames, or a prefix that ends with the first one it refuses |
| ClientWire.WriteFrame | validation/client-agent/internal/wire/frame.go:145-184 | The agent writes exactly the frames that mean something, as the gateway encodes them, and nothing on an error |
| ClientWire.RefusedFor | validation/client-agent/internal/wire/frame.go:145-184 | Which error the agent's writer reports, in order |
| ClientWire.ReadFrame | validation/client-agent/internal/wire/frame.go:102-143 | The agent reads a frame exactly when the gateway's scanner finds one, the same one, and stops right behind it; each error says what the bytes show |
| ClientWire.AgentAndGatewayAgree | validation/client-agent/internal/wire/frame.go:102-184 | Whatever one side writes the other reads back as the same frame |
| HandoffRing.RingQueue.SetNotifier | src/io/handoff.zig:153-159 | Registering a consumer on a backlog captures its callback |
| HandoffRing.RingQueue.Push | src/io/handoff.zig:167-188 | The ring appends to a bounded FIFO, refuses when full or over the realm's share, and captures the callback on the empty to non-empty edge |
| HandoffRing.RingQueue.Pop | src/io/handoff.zig:191-202 | The ring takes the oldest item and credits its realm |
| HandoffQueue.BacklogLosesFirst | src/io/handoff.zig:191-202 | Crediting the realm of the item taken leaves exactly the charges of what is still queued |
| HandoffRing.RingShrinks | src/io/handoff.zig:191-202 | Moving the head past the first item, wrapping around, leaves the rest of the FIFO in place |
| HandoffQueue.QuietRealmIsAdmitted | src/io/handoff.zig:167-188 | A realm with nothing in the backlog is never turned away by the quota |
| WakeUp.NoLostWakeUp | src/io/handoff.zig:153-202 | In every interleaving a backlog with a registered consumer has a drain, a wake or a captured callback on its way, and items leave in the order they came |
| WakeUp.QuietMeansEmpty | src/io/handoff.zig:153-202 | Once nothing is in flight a registered consumer has left nothing behind |
| WakeUp.WakeUpsAreEarned | src/io/handoff.zig:153-193 | A callback is captured exactly by a push onto an empty queue or by registering on a backlog |
| WakeUp.AttendedBacklogDrains | src/io/handoff.zig:153-202 | The steps already on their way suffice to drain the backlog |
| Publication.EveryScanIsALookup | src/foundation/realm.zig:83-118 | In every interleaving of one writer and many readers a scan returns the lookup in the table as it stood at its length load, and what it found stays true |
| Publication.RunKeepsInv | src/backend/catalog.zig:56-81 | Over any run published slots never change and keys stay unique |
| Publication.RegisterAppends | src/foundation/realm.zig:109-118 | A slot that is filled but not published is invisible; publishing appends one entry |
| RealmTable.EqlIgnoreCase | src/foundation/realm.zig:92-98 | Same if and only if the lengths agree and at each position the bytes are equal, or one is an upper-case letter and the other its lower-case one |
| RealmTable.Table.Resolve | src/foundation/realm.zig:92-98 | No name: the fallback. A name some entry has up to case: that entry's domain. Any other name: the fallback |
| RealmTable.Table.Register | src/foundation/realm.zig:109-118 | One entry is appended or one exact refusal given; a name is a duplicate exactly if some entry has it up to case |
| RealmTable.ResolvedStaysResolved | src/foundation/realm.zig:83-118 | A name that resolved through an entry resolves the same way in every later table |
| RealmTable.ResolutionIs | src/foundation/realm.zig:92-98 | The same of the table as a value |
| RouteCatalogs.BitsTellRoutesApart | src/backend/catalog.zig:64-69 | Comparing packed keys compares realm, group and route key |
| RouteCatalogs.RouteCatalog.Lookup | src/backend/catalog.zig:64-69 | The scan is lookup in the catalog as a map |
| RouteCatalogs.RouteCatalog.Register | src/backend/catalog.zig:75-81 | Appends one route or refuses for exactly one reason |
| HotReload.Reloader.CheckRealms | src/app/reload.zig:154-170 | The two scans find exactly whether an entry changed or vanished |
| HotReload.Reloader.CheckRoutes | src/app/reload.zig:172-198 | The same for routes and their endpoints |
| HotReload.Reloader.CommitRealms | src/app/reload.zig:118-148 | Registers what is new, in file order, until the table refuses or memory runs out |
| HotReload.Reloader.Apply | src/app/reload.zig:118-148 | Reloading the tables in memory is `Reload` on their contents; earlier slots stay |
| HotReload.ReloadSucceedsExactly | src/app/reload.zig:118-198 | A reload succeeds if and only if both tables are part of the file and everything new fits, in the tables and in memory |
| Merging.CheckSaysWhy | src/app/reload.zig:154-198 | Changed exactly if some key has another value in the file, removed exactly if none has and some key is missing |
| HotReload.ReloadFailsFor | src/app/reload.zig:118-198 | What each error of a failing reload means |
| HotReload.ReloadMakesTablesTheFile | src/app/reload.zig:118-148 | After success both tables are the file, and applying it again adds nothing and needs no memory |
| HotReload.ReloadOnlyAppends | src/app/reload.zig:118-198 | Whatever happens tables only grow; a file that fails the checks leaves both untouched |
| HotReload.FailureLeavesTracesExactly | src/app/reload.zig:118-148 | A failing reload leaves something behind exactly when it passes the checks, runs out of room or memory, and something new came first |
| HotReload.HalfAppliedFile | src/app/reload.zig:118-148 | One file that is applied in part, for want of room and for want of memory |
| StreamHandles.UnpackOfPack | src/backend/direct.zig:627-647 | The shifts and masks return exactly the id, generation and stream that were packed |
| StreamHandles.PackOfUnpack | src/backend/direct.zig:627-647 | Every word is the handle of its fields: packing is a bijection |
| StreamHandles.KeysAreDistinct | src/backend/direct.zig:348-350 | A connection key determines id and generation |
| StreamHandles.SelectorIsExact | src/backend/direct.zig:821-824 | The failure selector matches the streams of one generation of one connection and no other word |
| StreamHandles.SelectorMatchesOwnStreams | src/backend/transport.zig:103-110 | A handle matches exactly the failure of its own generation |
| StreamHandles.InitiatorSurvivesPacking | src/backend/direct.zig:847-849 | The peer-initiated bit of section 2.1 of RFC 9000 can be read off the handle |
| BackendConnections.WriteKeepsTheHandle | src/backend/direct.zig:319-339 | A write on an existing stream changes nothing, reports the caller's own handle, and goes to the QUIC connection in hand |
| BackendConnections.BackoffDoubles | src/backend/direct.zig:255-262 | The wait doubles with each failure and levels off at 25.6 s, below the configured ceiling |
| BackendConnections.BackoffHolds | src/backend/direct.zig:243-262 | Until its retry time a failed connection is left alone, and from then on the next request retries it |
| DirectBackoff.WaitFollowsFailuresInARow | src/backend/direct.zig:255-262 | Over every run: the k-th failure without a connected event in between is followed by a wait of 0.1 s doubled k - 1 times, at most 25.6 s, during which nobody gets the connection to connect |
| DirectBackoff.StepCounts | src/backend/direct.zig:243-263 | The count goes back to 0 on a connected event, up by one on each kind of failure, and nothing else touches it |
| DirectSafety.StepKeepsInv | src/backend/direct.zig:243-498 | Every step of the transport, in any order, keeps the invariant behind the theorems below |
| DirectTheorems.FailureIsTheLastWord | src/backend/direct.zig:793-824 | After a failure was surfaced, an event its selector matches needs at least 65536 more connected events |
| DirectTold.LastFailureIsSelected | src/backend/direct.zig:811-824 | Over every run the selector handed to the Worker is that of the failure it was told last |
| DirectTold.SelectorIsTheLastWord | src/backend/direct.zig:811-824 | Right after a failure was told, that selector matches exactly the streams of the failed generation, and no event told later unless it is 65536 connected events newer |
| DirectTold.WorkerHearsWhatQuicDelivered | src/backend/direct.zig:424-468 | Over every run the Worker is told, per connection, in order and without a gap, the bytes, kinds, fins and streams of the callbacks that were taken |
| DirectTheorems.FailureIsToldOnce | src/backend/direct.zig:591-599 | No failure is surfaced twice, and two with one selector are at least 65536 connected events apart |
| DirectTheorems.FailuresAreExact | src/backend/direct.zig:405-498 | A generation is over if and only if its failure is queued or told, or it is on record as ended without notice, never both; the record is empty if and only if no step replaced a ready generation |
| DirectTheorems.EveryEndIsNoticedExactly | src/backend/direct.zig:356-498 | After a run, failures are queued or told of exactly the generations that are over, if and only if no second connected event and no failing lookup came while one was ready |
| DirectTheorems.RecordIsEmptyExactly | src/backend/direct.zig:356-422 | The same iff for the record, over every run from every state |
| DirectTheorems.OpenedHandlesAreDistinct | src/backend/direct.zig:341-422 | Handles of two opened streams differ, across reconnects that restart numbering at 0, until a generation wraps; none looks peer-initiated |
| DirectStreams.StreamsAreConsecutive | src/backend/direct.zig:341-345 | Over every run the k-th stream opened in a generation has number 4k |
| DirectStreams.ExistingWriteIsAnswered | src/backend/direct.zig:742-758 | Which answer a write on an existing stream gets, exactly when, and that only a broken connection that was ready is failed |
| DirectStreams.NobodyToWriteTo | src/backend/direct.zig:740-743 | The answer when the transport is closed, has no endpoint, or nobody has the handle's id |
| DirectStreams.NewStreamIsAnswered | src/backend/direct.zig:760-779 | A new stream nobody takes is answered with what the last ready connection in turn said |
| DirectOwnership.CancellationHitsItsOwnStream | src/backend/direct.zig:830-840 | At every point of a run every opened stream's handle leads to that stream on the QUIC connection it was opened on or nowhere, up to generation wrap, if and only if no lookup was answered with a new QUIC connection while ready with a stream number used |
| DirectOwnership.WritesFollowCancellations | src/backend/direct.zig:733-788 | A write succeeds exactly when a cancellation has a target and QUIC takes it, and goes to that target |
| DirectOwnership.AlignmentIsExact | src/backend/direct.zig:356-422 | At every point of a run a ready connection holds the QUIC connection connected last, if and only if none was taken on while ready and no connected event came from another than the one in hand |
| DirectOwnership.LateAnswerTakesTheStream | src/backend/direct.zig:356-403 | A run in which a late lookup answer redirects an open stream's handle to another QUIC connection |
| DirectBlame.BlameIsExact | src/backend/direct.zig:424-498 | Each generation that a callback ended was ended by its own QUIC connection if and only if no close and no refused data or control event of another one reached a ready connection |
| DirectBlame.BlamedIsNoticed | src/backend/direct.zig:591-599 | Whatever a callback ended is queued as a failure or was told, up to generation wrap |
| DirectBlame.EndedNow | src/backend/direct.zig:470-498 | A callback that ends a generation leaves its connection without QUIC connection, backing off |
| DirectBlame.LateCloseAloneFailsTheSuccessor | src/backend/direct.zig:482-498 | A run in which a late close fails the successor although every queued event is rightly attributed |
| DirectFailures.OneFailureEachExactly | src/backend/direct.zig:540-545 | Over every run each connection has at most one failure queued if and only if no generation ended with notice while the notice of another generation of its connection was queued |
| DirectFailures.StepQueues | src/backend/direct.zig:591-599 | What a step adds to the queue is exactly the notices of the generations it ends, less those queued already |
| DirectFailures.TryQueues | src/backend/direct.zig:733-779 | A failed attempt to open a stream signals exactly the ready connections whose turn came before anybody willing |
| DirectFailures.OneEachFits | src/backend/direct.zig:595-597 | With one failure each the queue is no longer than the list of connections |
| DirectFailures.TwoFailuresOfOneConnection | src/backend/direct.zig:591-599 | A run with one connection and two failures queued |
| DirectLookups.LookupsStayHeldExactly | src/backend/direct.zig:265-304 | Over every run each lookup out is the one whose handle is held if and only if no lookup was issued while an earlier one of the connection was out |
| DirectLookups.ShutdownLeavesNoLookupExactly | src/backend/direct.zig:185-200 | Shutting down leaves no lookup out if and only if each connection has none out or the one whose handle it holds |
| DirectLookups.ShutdownLeavesALookup | src/backend/direct.zig:185-200 | A run whose shutdown leaves a lookup out |
| DirectLookups.OpenLooks | src/backend/direct.zig:733-779 | A failed attempt to open a stream issues a lookup for exactly the connections that were due before it |
| DirectTheorems.NewStreamGoesToFirstWilling | src/backend/direct.zig:733-779 | A new stream opens if and only if some connection is willing, on the first willing one from the cursor; otherwise none is left ready |
| DirectTheorems.DnsErrorStrands | src/backend/direct.zig:356-403 | A step strands a connection if and only if it is a DNS error in answer to the last lookup of one that is connecting without QUIC connection |
| DirectTheorems.StrandedExactly | src/backend/direct.zig:243-403 | After any run without shutdown a connection is stranded if and only if such a DNS error was in it |
| DirectTheorems.StrandedForever | src/backend/direct.zig:243-370 | A stranded connection stays so in every run short of shutdown |
| DirectTheorems.AttributionIsExact | src/backend/direct.zig:424-469 | Every event carries its own connection's generation if and only if no callback of an older QUIC connection queued anything while its successor was ready |
| DirectTheorems.LateCallbacksHitTheSuccessor | src/backend/direct.zig:424-498 | A run in which late data and a late close of an old QUIC connection hit its successor |
| DirectTheorems.ReplacedGenerationGoesUnreported | src/backend/direct.zig:405-422 | A run in which a ready generation is replaced and nobody is told |
| ArenaLink.DrainedMeansEmptyQueue | src/backend/direct.zig:793-818 | A connection has handed everything out exactly when its arena queue is empty |
| ArenaLink.HeadIsNext | src/backend/direct.zig:793-818 | The head of the queue is the oldest event not handed out |
| DirectWorker.WorkerStepKeepsInv | src/backend/pool.zig:507-580 | Over one Worker's transports the queues, ids and the failure count stay in step with the shared arena, which does what its own methods are proved to do: opens a queue, appends the chunks, pops, or gives the queues back |
| DirectWorker.IdleIsExact | src/backend/pool.zig:570-580 | The idle answer is yes exactly when receive on every transport has nothing and no slot is on loan |
| DirectWorker.HandlesTellTransportsApart | src/backend/pool.zig:505-512 | Streams opened on two transports of one Worker never share a handle |
| DirectIndex.LiveIsIndexed | src/backend/pool.zig:515-527 | In every reachable state the QUIC connections whose callbacks reach a connection of an open transport are exactly the index entries it owns |
| DirectIndex.ShutdownClearsTheIndexExactly | src/backend/direct.zig:185-228 | A shutdown leaves none of a transport's entries if and only if no connection has a live QUIC connection besides the one in hand |
| DirectIndex.ShutdownLeavesAnEntry | src/backend/direct.zig:185-228 | A run after which a shutdown leaves an entry whose owner is gone |
| DirectTransports.BackendConn.MarkFailed | src/backend/direct.zig:255-262 | The fields follow the state machine's `MarkFailed` |
| DirectTransports.BackendConn.SendOn | src/backend/direct.zig:319-339 | The fields, the answer and the write QUIC is given follow the state machine |
| DirectTransports.DirectTransport.SignalFailure | src/backend/direct.zig:591-599 | The scan drops a failure whose key is queued already; the pool's count moves with the queue |
| DirectTransports.DirectTransport.EnsureConnecting | src/backend/direct.zig:243-252 | The only way to start connecting, as in the state machine |
| DirectTransports.DirectTransport.OnResolved | src/backend/direct.zig:356-403 | A lookup's answer, with the registration in the pool refused exactly at its limit and the index following; nothing on a closed transport |
| DirectTransports.DirectTransport.HookConnected | src/backend/direct.zig:405-422 | A new generation, numbering from 0, ready |
| DirectTransports.DirectTransport.HookStreamData | src/backend/direct.zig:424-442 | Bytes join the connection's queue in arena and history alike, or the connection is given up whole |
| DirectTransports.DirectTransport.HookStreamControl | src/backend/direct.zig:444-469 | The same for RESET_STREAM and STOP_SENDING |
| DirectTransports.DirectTransport.HookClose | src/backend/direct.zig:482-498 | A close fails a ready connection with notice, any other without |
| DirectTransports.DirectTransport.DispatchClose | src/backend/pool.zig:632-638 | The close is handed on first, then the QUIC connection leaves the index |
| DirectTransports.DirectTransport.SendExisting | src/backend/direct.zig:733-788 | A write on a known handle goes where a cancellation with it goes, to no other connection; only a broken connection fails it |
| DirectTransports.DirectTransport.SendNew | src/backend/direct.zig:733-779 | The retry loop over the connections in memory is the state machine's `SendNew`; the stream on record is the one QUIC was given the write for |
| DirectTransports.DirectTransport.Receive | src/backend/direct.zig:793-818 | Events before failures; a failure is told only when no connection has an event, and is acknowledged to the pool |
| DirectTransports.DirectTransport.ReleaseRecv | src/backend/direct.zig:857-859 | A slot on loan goes back, on an open transport or on one that was shut down meanwhile |
| DirectTransports.DirectTransport.GetOrCreateConn | src/backend/direct.zig:602-624 | One connection per endpoint, with an id nobody had and its own empty queue, or a refusal when ids run out |
| DirectTransports.DirectTransport.FailureSelectorNow | src/backend/direct.zig:821-824 | The selector of the failure told last |
| DirectTransports.DirectTransport.InvalidateStream | src/backend/direct.zig:830-840 | The stream to discard, or nothing for a handle of an earlier generation |
| DirectTransports.DirectTransport.Shutdown | src/backend/direct.zig:575-585 | Untold failures are taken back from the pool, each connection's current QUIC connection leaves the index, of the lookups out the one whose handle is held is cancelled, every queue is given back slot by slot, and what is on loan stays on loan with its bytes |

## Left out

- Sockets, TLS, timers, the event loop, QUIC and DNS themselves: their answers are parameters of the steps. HMAC internals: the MAC is an arbitrary function.
- SWIM membership, the Worker loop, sessions and WSS: the membership view is a given map from node to status, and the consumer's pop-until-null loop is part of the wake-up protocol's steps.
- The callbacks that wait for a connection (`fireCallbacks`) and the loop of `resolveImpl` that registers them: they change no field the properties are about. `EnsureConnecting` models the connecting they trigger.
- The shared client object and the comparison of its TLS identity (`acquireClient`): one more way for a connect to fail, covered by `ConnectFailed`.
- Callbacks after a transport was closed: a QUIC connection that was given up earlier stays in the pool's index until its own close event (`ShutdownLeavesAnEntry`), when its owner is gone. The model stops delivering callbacks to a closed transport.
- The capacity of `pending_failures`: it is a plain sequence here. The reservation at src/backend/direct.zig:609 asks for one free place, whatever the number of connections; `OneEachFits` is what holds of the length.
- A resolver that answers before `resolve` returns: `held` would then be set after the answer. Here an answer is a later step.
- What the answer of a lookup does after its connection was destroyed: the model counts such lookups and stops there. DirectTransports.DirectTransport.OnResolved has the source's early return on a closed transport.
- Overflow of 64-bit microsecond times and of the 64-bit counters; the generation, connection id, stream id and sequence widths are modelled exactly. `makeHandle` asserts a stream id below 2^32, and opening a stream needs the next one to be below it (`CanOpen`).
- Memory ordering below "a length load sees a published length": the model's publication and load are atomic steps in one order.
- The text a log line prints, statistics structs, control frames' bodies, `config.validate`, `registry.zig`, `factory.zig`, coordinator lifecycle flags: they would add easy members only.
- `MessageRouter`: its counters are raised after the push like `LocalPacketRouter`'s, with the same gap, and its queue is the ring with a realm, which is modelled.
- The hooks of `BackendConn` that need the transport are methods of `DirectTransport` that take the connection's position; the pool finds that position by the owner it registered.
- DirectSafety.StepKeepsInv: whether the arena takes a callback is a free choice of the step here, so the theorems hold for any answer; DirectTransports.DirectTransport.HookStreamData ties it to the arena exactly.
- DirectWorker.WorkerStepKeepsInv: the failure count of a step moves with the transport's queue, which is proved of the objects, per method, and taken over here.
- QUIC never hands out a connection that is still in the index: a condition on the steps of `DirectIndex`, not a result.
- The bytes of a write to a backend, and the reset QUIC sends in answer to a STOP_SENDING (src/backend/direct.zig:468): the model records on which QUIC connection and stream a write goes out, and the event the Worker is told.
- Liveness of reconnecting is not claimed, since a DNS error defeats it.
