# A verified model of the Kafka proxy

The proxy sits between Kafka clients and brokers. In *pooled* mode many clients share a few upstream
connections per broker: each request's correlation id is replaced by a fresh one, the pair is recorded in a
shared map, and a reply is routed back by the fresh id alone. In *per-connection* mode every client has its own
upstream connection. In both modes responses that name broker endpoints are rewritten so that clients come back
to the proxy. This project models that behaviour in Dafny and proves what it promises, over every input and
every run.

## How it is organised

| modules | what they hold |
|---|---|
| Wire, Varint, Codec, Rewrite | big-endian integers, unsigned varints, the three response layouts, and what rewriting means |
| Remap, Pool, BrokerPools, LeaseLoop, PoolLoops | the shared id map, the pool, the request loop of a pooled client and the two loops of a connection, as classes and loops that change state in place, each against a function on values |
| Proxy | pooled mode as a transition system: any number of clients, connections and brokers, 39 kinds of atomic step |
| Registry, RegistrySteps, History, NoCrossTalk, Provenance, Settlement, Misrouting | who owns each registration, frame and reply, through every step and over every run, and what goes wrong with a stale id |
| Leases, Order, Accounting, InFlightGauges, InFlightCap, Allocation, Wakeup, Backpressure (on Profile and Sets) | leases, ordering, pool counts, gauges, the in-flight cap, the compare-and-swap loop, wake-ups and channel sizes, over every run |
| Underflow, LostWakeup, CapOvershoot (on Scenes) | what one might expect of the pool and does not hold: the exact configurations in which some run breaks it, with those runs built |
| OneToOne | per-connection mode: two loops that share the map of recorded requests |
| Mapping, Routing | the listener mapping grammar and the routing table built from it |
| Histograms, LatestMessages | the cumulative histogram and the selection of a topic's latest records |

In Proxy, `log` (one record per successful id allocation), `owner`, the `num` beside a frame, `seen`, and the
lease counters are history: no guard and no effect on a variable that is not history reads them. `IsRun` is any interleaving
from the state after warm-up. Timers, DNS answers, handshakes and send results may turn out either way at any
moment.

Assumptions, and where each enters:

- A broker answers a frame at most once, on the same connection, under the same id (`DoAnswer`). It answers in
  order only in `Order.IsFifoRun`.
- An id is not handed out while it is still outstanding (`NoCrossTalk.IsFreshRun`). `FirstCycleIsFresh` proves
  this for every run with at most 2^31 - 1 allocations, `FreshWithinCycle` whenever the oldest outstanding
  request is less than one cycle old. `Misrouting.ReplyFindsItsOwnExactly` and `StaleIdMisroutes` show what it
  prevents: under a reused id the next reply goes to the wrong client. The results on
  leases, accounting, allocation, the in-flight cap and wake-ups do not need it.
- The size of the map is read in one atomic step, and `fail_conn` is one atomic step.
- The response header's tagged fields are empty, as the code itself assumes.

Where the code does not do what one might expect, the code is modelled and the exact condition is proved:

- Three things make the count lose track of connections: a full queue on return, the reaper's saturation, a
  failing handshake at zero. `Accounting.CountIsExact` says by how much in every run; without warm-up none of them
  occurs and the count is exact, though a lease dropped after a failed send is never counted out
  (`Accounting.PoolConservation`).
- Warmed-up connections are not counted but the reaper counts them out, so a failing handshake can take `count`
  below zero. `Underflow.UnderflowIffWarmedUp`: whatever the in-flight cap and the pool's limit, this happens in
  some run if and only if `min_idle` is positive. On a machine word it wraps (a debug build would panic).
- Notifications without a waiter leave only one permit, so a waiting client can be left beside an idle
  connection with every other client gone. `LostWakeup.StrandsIffWide`: this happens in some run if and only if
  `max_per_broker` is at least two and `max_in_flight` is not zero. In the other configurations a client or a
  notification is always on its way (`LostWakeup.RunAttends`); in any configuration none is lost while one client
  waits at a time (`Wakeup.NoConnectionUnseen`).
- The in-flight cap is checked before inserting. `CapOvershoot.SizesAreExact`: with at most T clients past the check
  the map can hold every number of registrations up to the cap + T - 1, and no more, as long as there are
  ids for them; so it exceeds its cap in some run if and only if T is at least two, the cap is not zero, and ids
  are left (`CapOvershoot.CapExceededIffRaced`).
- In per-connection mode a reply leaves other requests' records intact exactly if no other recorded request in use
  bears its id (`OneToOne.AnswerKeepsRecordsExactly`).
- A mapping entry survives being printed and parsed again exactly if its host is present, has no comma and no
  leading white space; only a fallback host can lack that (`Mapping.SurvivesPrintingExactly`).
- A latest-messages answer is complete exactly if it repeats no record and has as many of each partition as its
  window (`LatestMessages.CompletenessIsExact`). A poller that never repeats a record guarantees that unless the
  deadline strikes; that it does not is an assumption, and `LatestMessages.RepeatsHideOffsets` shows for every
  window of two or more offsets how repeats break it.

## Model

| member | source | states |
|---|---|---|
| Wire.I16RoundTrip | src/rewrite.rs:286-295 | a 16-bit header field reads back from its big-endian bytes, whatever follows |
| Wire.I32RoundTrip | src/rewrite.rs:286-302 | so does a 32-bit one, the correlation id among them |
| Wire.I16Bytes | src/rewrite.rs:286-295 | a 16-bit field is two bytes, the more significant first, in two's complement |
| Wire.I16Reads | src/rewrite.rs:286-295 | and is read back from exactly those |
| Wire.I32Bytes | src/relay.rs:406-409 | a 32-bit one is four bytes, most significant first |
| Wire.I32Reads | src/rewrite.rs:297-302 | and is read back from exactly those |
| Varint.EncodeUnsignedVarint | src/rewrite.rs:276-282 | the shifting loop terminates for every u32 and appends exactly the code of the value to the buffer |
| Varint.RoundTrip | src/rewrite.rs:276-282 | the emitted bytes decode to the value and leave the following bytes untouched |
| Varint.MinimalLength | src/rewrite.rs:276-282 | the code has k bytes exactly when k groups of seven bits are needed |
| Varint.AtMostFiveBytes | src/rewrite.rs:276-282 | every u32 takes one to five bytes |
| Varint.PrefixFree | src/rewrite.rs:276-282 | no code starts another value's stream: equal streams mean equal values and equal rests |
| Varint.GroupAt | src/rewrite.rs:276-282 | byte i of the code holds bits 7i to 7i+6 of the value, with the high bit set on all bytes but the last |
| Codec.RoundTrip | src/rewrite.rs:92-142 | for every version of the three responses, decoding an encoded message gives the message back |
| Codec.EndpointsRoundTrip | src/rewrite.rs:98-105 | any list of endpoints, classic or compact, reads back in order before any tail |
| Codec.DecodeUnderCid | src/rewrite.rs:119-141 | replacing the id in front of a frame changes the decoded id and nothing else |
| Codec.Forms | src/rewrite.rs:92-273 | which versions have an encoding, which are flexible, and that FindCoordinator up to version 3 names one coordinator outside any array |
| Codec.FormsStay | src/rewrite.rs:119-141 | the versions at which the layouts change, and that they stay the same in between |
| Codec.OneEndpointReads | src/rewrite.rs:92-142 | which bytes hold id, tags, count, node id, host and port, in any layout |
| Codec.MetadataV0Reads | src/rewrite.rs:92-142 | Metadata 0 byte by byte: id, count, then node id, length, host, port |
| Codec.MetadataV3Reads | src/rewrite.rs:92-142 | Metadata 3: a throttle time in front and a null rack behind each port |
| Codec.MetadataV9Reads | src/rewrite.rs:92-142 | Metadata 9: compact lengths, and tags behind the header and each broker |
| Codec.CoordinatorV1Reads | src/rewrite.rs:192-273 | FindCoordinator 1: throttle time, error, message, then the one coordinator |
| Codec.CoordinatorV3Reads | src/rewrite.rs:192-273 | FindCoordinator 3: the same in compact form |
| Codec.CoordinatorV4Reads | src/rewrite.rs:192-273 | FindCoordinator 4: an array of coordinators, key in front, error, message and tags behind |
| Codec.ClusterV2Reads | src/rewrite.rs:144-178 | DescribeCluster 2: error, message, endpoint type, cluster id and controller in front, rack, fencing and tags behind |
| Rewrite.SubstituteInPlace | src/rewrite.rs:97-105 | the in-place loop replaces host and port of exactly the mapped endpoints and reports whether any was mapped |
| Rewrite.RewriteFrame | src/rewrite.rs:92-142 | decoding, substituting in place and encoding again into a buffer is the rewriting function the lemmas are about |
| Rewrite.OnlyThreeKinds | src/rewrite.rs:62-74 | only the three keys a relay records are ever rewritten |
| Rewrite.NeedsRewriteExactly | src/rewrite.rs:305-310 | those are keys 3, 10 and 60, and no other |
| Rewrite.HeaderBytes | src/rewrite.rs:286-295 | from eight bytes on a request has a header: key in bytes 0-1, version in 2-3, id in 4-7, most significant first, in two's complement; below that none |
| Rewrite.ResponseCidBytes | src/rewrite.rs:298-302 | from four bytes on a response has an id, spelled by bytes 0-3; below that none |
| Rewrite.RewritingIsSubstitution | src/rewrite.rs:92-273 | the rewritten frame decodes to the original with host and port replaced for mapped nodes, everything else and the order unchanged |
| Rewrite.PassesUnchangedExactly | src/rewrite.rs:62-273 | a frame passes unchanged exactly if its kind or version is not rewritten, it does not decode, no node is mapped, or an advertised host is too long to write |
| Rewrite.RewritingIsIdempotent | src/rewrite.rs:92-273 | rewriting the output yields the same bytes |
| Rewrite.RewritingKeepsCidApart | src/pool.rs:614-628 | rewriting commutes with replacing the first four bytes |
| Rewrite.PooledRefinesOneToOne | src/pool.rs:614-628 | for every reply the pooled path yields byte for byte what the per-connection path yields for the reply under the client's id |
| Rewrite.RoutedCid | src/pool.rs:623-627 | a routed frame carries the client's correlation id |
| Rewrite.RoutedIsSubstitution | src/pool.rs:614-628 | a routed reply that decodes, and whose advertised hosts can be written, decodes to the broker's message with the client's id and the endpoints substituted; any other is the broker's bytes behind the client's id |
| Remap.SwapCounts | src/pool.rs:111-117 | the value a swap installs is the next of the cycle 1..2^31-1 |
| Remap.CidsDistinct | src/pool.rs:108-127 | any 2^31 - 1 consecutive allocations have distinct ids |
| Remap.CidsRepeat | src/pool.rs:111-117 | and the one after those repeats the first |
| Remap.SweepCounts | src/pool.rs:182-188 | the drop in map size is the number of entries of the failed connection |
| Remap.CidRemap.WithMaxInFlight | src/pool.rs:98-105 | a new table is empty, its counter at the start of the cycle and its first connection id 1 |
| Remap.CidRemap.AllocCidU | src/pool.rs:108-127 | the retry loop: every lost attempt had a rival, and the id returned is the one of its place in the common order |
| Remap.CidRemap.Insert | src/pool.rs:138-164 | refuses exactly at the cap and then changes nothing; otherwise adds exactly the entry under the new id and raises the gauge |
| Remap.CidRemap.Take | src/pool.rs:167-173 | returns and removes the entry if there is one; the gauge follows the size |
| Remap.CidRemap.FailConn | src/pool.rs:182-188 | removes exactly the connection's entries and reports how many |
| Pool.KeepNoRepeats | src/pool.rs:401-412 | a reaper pass leaves the queue free of repeats |
| BrokerPools.BrokerPool.Warmup | src/pool.rs:357-385 | queues the connections made before the first failure, at most min_idle, and counts none |
| BrokerPools.BrokerPool.Acquire | src/pool.rs:250-310 | the retry loop returns the lease, and leaves the pool, that the value-level acquisition says |
| BrokerPools.AcquisitionLends | src/pool.rs:250-310 | whatever others do between its steps, acquire lends the front of the queue it found or, having found none, counts one new connection below the limit; a failed handshake takes back one count and a vain wait changes nothing |
| BrokerPools.AcquisitionTries | src/pool.rs:252-308 | it looks again exactly as long as each look was in vain and each wait ended in a notification; the first look that is not in vain decides, and only a timed-out wait ends it with nothing |
| BrokerPools.DeedsKeepLimits | src/pool.rs:250-450 | whatever other clients and the reaper do, queue and count stay within the limit |
| BrokerPools.BrokerPool.Release | src/pool.rs:435-450 | the connection, alive and stamped with the time, joins the back of the queue unless it is full; a waiter is notified either way |
| BrokerPools.BrokerPool.Reap | src/pool.rs:398-427 | exactly the connections idle for less than the timeout stay, in their order; the count falls by the number of those that left, or to zero; a waiter is notified if any left |
| LeaseLoop.RequestTask | src/relay.rs:327-435 | on every exit path: registrations are the client's parsable frames in order, each followed by its own frame on the same lease, leases are sought exactly when none is held or it is over, and none is held at the end |
| Proxy.ForwardedBytes | src/relay.rs:406-409 | the frame sent is the client's byte for byte, except that bytes 4 to 7 spell the new id |
| Proxy.ReaddressedHeader | src/relay.rs:406-409 | so the broker reads the client's own key and version, and the new id |
| LeaseLoop.SendsAreReaddressed | src/relay.rs:384-418 | every frame sent is the one just registered, so re-addressed under the id just drawn for it, on the lease it was registered with |
| LeaseLoop.LeasesBalance | src/relay.rs:321-435 | leases taken equal leases released plus dropped plus the one in hand; one is dropped only after a failed send and its cancellation |
| PoolLoops.ReadLoop | src/pool.rs:570-607 | hands out and leaves in the map what the value-level reading says, counts the replies without room, and keeps both gauges in step with the map |
| PoolLoops.ReadAllSettles | src/pool.rs:576-605 | what is handed out is, in order, one reply for each registration asked for whose client has room, to the first frame bearing its id: byte for byte the reply the per-connection relay gives under the client's own id, key and version; exactly the registrations asked for leave the map |
| PoolLoops.Pump | src/pool.rs:503-555 | request frames pass in order, reply frames come back in order, and after a flush tick, or without the flush flag, no frame waits in the sink |
| PoolLoops.WriteLoop | src/pool.rs:495-567 | however it ends, it takes back exactly its own connection's registrations and lowers both gauges by their number |
| Registry.InitInv | src/pool.rs:98-105 | the registry invariant holds at the start |
| RegistrySteps.FreshnessIsExact | src/pool.rs:108-127 | the ids of outstanding requests stay distinct over a draw if and only if the id drawn is not outstanding |
| RegistrySteps.SwapInv | src/pool.rs:108-127 | the swap keeps the registry invariant when it fails or its id is not outstanding |
| RegistrySteps.PutInv | src/pool.rs:153-161 | inserting the entry keeps it |
| RegistrySteps.SendInv | src/relay.rs:404-424 | queueing the re-addressed frame, or the refused send, keeps it |
| RegistrySteps.CancelInv | src/pool.rs:477-481 | cancelling keeps it and can only take the request's own entry |
| RegistrySteps.WriteInv | src/pool.rs:509-515 | writing to the broker keeps it |
| RegistrySteps.ReceiveInv | src/pool.rs:534-541 | reading a reply from the broker keeps it |
| RegistrySteps.FetchInv | src/pool.rs:576-590 | the entry a reply finds by its id alone is that of the request it answers |
| RegistrySteps.DeliverInv | src/pool.rs:592-605 | handing the reply to the client, or dropping it, keeps it |
| RegistrySteps.SweepFates | src/pool.rs:182-188 | a failing connection settles exactly its own registered requests |
| RegistrySteps.SweepInv | src/pool.rs:555-564 | fail_conn keeps the invariant although replies may still be buffered |
| NoCrossTalk.NextInv | src/pool.rs:108-628 | every step of every participant keeps the registry invariant, as long as a swap hands out an id that is not outstanding |
| NoCrossTalk.RunInv | src/pool.rs:108-628 | it holds in every state of every run with fresh ids |
| NoCrossTalk.NoCrossTalk | src/pool.rs:570-628 | every frame on a client's response channel is the routed reply to one of this client's requests, under that request's header and id, and no request has two |
| NoCrossTalk.PooledRunRefinesOneToOne | src/relay.rs:224-237 | and equals byte for byte what the per-connection relay would forward |
| Misrouting.ReplyFindsItsOwnExactly | src/pool.rs:161-168 | when a client draws and registers an id while another's reply is the next to be read, that reply finds its own request's entry if and only if the id drawn is a different one |
| Misrouting.StaleIdMisroutes | src/pool.rs:576-605 | otherwise the reply is delivered to the wrong client as the answer to that client's request, and the right one can no longer get it |
| NoCrossTalk.FreshWithinCycle | src/pool.rs:111-117 | ids are fresh while the outstanding requests span less than one cycle |
| NoCrossTalk.FirstCycleIsFresh | src/pool.rs:108-127 | every run of at most 2^31 - 1 allocations has fresh ids |
| Provenance.RunRead | src/relay.rs:359-409 | every request in the books is a frame its client sent earlier in the run, under that frame's header |
| Provenance.RepliesAnswerFramesSent | src/pool.rs:592-628 | a delivered frame carries the id of a frame this client had sent, and the broker's reply to it routed under its key and version |
| Provenance.FramesSentAreTheClients | src/relay.rs:359-418 | a frame queued for or written to a broker is a frame this client sent earlier in the run, byte for byte but for the id drawn for it, and parses to the client's key and version |
| Settlement.OnlyItsOwnSettleIt | src/pool.rs:166-188 | only the sender registers or cancels a request, only its connection answers or sweeps it |
| Settlement.SettledForGood | src/pool.rs:166-188 | an answered, cancelled or swept request never changes fate again |
| Settlement.RequestsAreConserved | src/pool.rs:138-188 | ids drawn are, one for one, unregistered, in the map, answered, cancelled or swept; the map holds exactly the registered ones, each under its own id |
| Leases.NextLeases | src/pool.rs:250-450 | every step keeps leases exclusive and accounted for |
| Leases.LeasesAreExclusive | src/pool.rs:250-450 | in every reachable state the connections in the queues and those held by relays are pairwise distinct |
| Leases.EveryLeaseIsSettledOnce | src/relay.rs:321-435 | when a relay's loop has ended each lease it took was released once or dropped once, at most one dropped |
| Order.ConnectionsKeepOrder | src/pool.rs:495-607 | with in-order brokers the requests queued, on the wire, being answered and being routed on a connection are in strictly increasing allocation order |
| Order.RepliesKeepOrder | src/relay.rs:369-425 | and the replies one client got from one connection are in the order of its requests, ahead of all still under way there |
| Accounting.WarmConservation | src/pool.rs:250-450 | with warm-up, idle, held, being made and not yet counted out are at most count plus min_idle, unless a handshake fails at count zero |
| Accounting.CountIsExact | src/pool.rs:250-450 | in every run, warmed up or not: connections idle, held, being made, not yet counted out, or dropped by a relay equal the count plus the warm ones, less exactly what full queues, saturation and failing handshakes at zero slipped |
| Accounting.CountWithinLimit | src/pool.rs:283-302 | the count stays within the limit unless a handshake fails at count zero |
| Accounting.ColdRunsCountDown | src/pool.rs:297-302 | without warm-up no handshake ever fails at count zero |
| Accounting.PoolConservation | src/pool.rs:250-450 | without warm-up the count equals the connections idle, held, being made and not yet counted out plus those dropped after failed sends, and is within the limit; saturation and underflow never occur, and a returned connection finds room |
| Accounting.QueueWithinLimit | src/pool.rs:435-450 | in every run, warmed up or not, no idle queue outgrows max_per_broker, which never changes |
| Underflow.UnderflowIffWarmedUp | src/pool.rs:297-302 | for every in-flight cap and pool limit, some run takes the count from zero to the largest machine word if and only if min_idle is positive |
| Underflow.WarmUnderflow | src/pool.rs:357-427 | such a run, for every in-flight cap, limit and positive min_idle |
| LostWakeup.StrandsIffWide | src/pool.rs:252-308 | for every warm-up, some run leaves a parked client beside an idle connection, without a permit and with every other client ended, if and only if the pool may hold two and the in-flight cap is not zero |
| LostWakeup.WideStrands | src/relay.rs:411-424 | such a run, for every such configuration: the woken client drops its lease after a refused send |
| LostWakeup.RunAttends | src/pool.rs:442-449 | with a limit of one or a cap of zero, whenever somebody waits beside an idle connection a permit, a reaper, a notifier or a client on its way to the queue is there |
| Wakeup.NextAttends | src/pool.rs:252-308 | every step keeps that so, as long as one connection at most is idle or the cap lets nobody through |
| Wakeup.NoConnectionUnseen | src/pool.rs:252-308 | with one waiter at a time, a parked client faces an empty queue or a releaser that has pushed and not yet notified |
| InFlightGauges.GaugesFollowTheMap | src/pool.rs:556-590 | in every reachable state each gauge is the map size minus the insertions and plus the removals it has yet to count |
| InFlightGauges.GaugesAreExactAtRest | src/metrics.rs:158-233 | at every quiescent state both gauges equal the map size |
| InFlightCap.CapWithinRace | src/pool.rs:147-161 | with at most T clients between check and insertion, the map and they together never exceed the cap by more than T - 1 |
| InFlightCap.CapExactForOneTask | src/pool.rs:147-161 | with one, the map stays within the cap |
| CapOvershoot.SizesAreExact | src/pool.rs:138-164 | with at most T clients past the check, the sizes the map takes in some run are exactly those up to cap + T - 1 that the ids suffice for, and only zero at a cap of zero |
| CapOvershoot.CapExceededIffRaced | src/pool.rs:147-161 | some run exceeds the cap if and only if T is at least two and the cap is positive and below 2^31 - 1 |
| CapOvershoot.Fills | src/pool.rs:147-161 | a run that reaches cap + T - 1, or any smaller size |
| CapOvershoot.RunKeys | src/pool.rs:152-161 | in every run every registration is under an id of 1..2^31-1 |
| Allocation.RunCounter | src/pool.rs:108-127 | in every run, whatever the interleaving and however long ids stay in use, the counter is a function of the number of allocations |
| Allocation.AllocationIsLinearizable | src/pool.rs:108-127 | a swap yields the id of the next place in one common order exactly if a whole number of cycles (zero included) was allocated since its load, and otherwise lost to another client |
| Allocation.HeldIdsDiffer | src/pool.rs:108-127 | ids held by two clients are different allocations, with different ids less than a cycle apart |
| Backpressure.ChannelsStayWithin | src/pool.rs:323-324 | in every state of every run a write channel holds at most 256 requests, the one between a connection's loops at most 64 replies, and a client's response channel at most 256 |
| OneToOne.Relay.ReadRequest | src/relay.rs:183-195 | a request that may need rewriting is recorded, below the cap of 1024, before it is sent |
| OneToOne.Relay.ForwardReply | src/relay.rs:219-242 | a reply takes its id's record and is rewritten under it, or passes as it is |
| OneToOne.Relay.SendRequest | src/relay.rs:193-197 | the frame enters the sink unchanged and the flush flag is set |
| OneToOne.FramesPassThrough | src/relay.rs:125-205 | upstream frames are the frames read, byte for byte and in order; without the flush flag nothing waits; at most 1024 are recorded |
| OneToOne.AllFlushedAtEof | src/relay.rs:132-142 | at end of input every frame read has been flushed upstream |
| OneToOne.TicksFlush | src/relay.rs:145-152 | after a successful flush tick everything read, or every reply, has been flushed; in between a send only adds to the sink |
| OneToOne.AnswerKeepsRecordsExactly | src/relay.rs:224-229 | a reply leaves other requests' records intact exactly if no other recorded one in use bears its id |
| OneToOne.RepliesMeetTheirRequests | src/relay.rs:183-242 | while such ids are distinct and the cap is not met, every reply is rewritten with exactly its own request's key and version and all others pass unchanged |
| Mapping.AcceptedHasHost | src/config.rs:392-422 | an entry both validation and parsing accept has a non-empty advertised host |
| Mapping.ValidatesExactly | src/config.rs:392-422 | of the entries that parse, validation turns away exactly those that name no host of their own while the fallback is blank |
| Mapping.TrimSpelled | src/config.rs:392 | trimming takes white space, and all of it, off both ends and nothing from between |
| Mapping.PartsSpelled | src/lib.rs:229-296 | one part is advertised and its port bound on every interface; of two the first is bound and the second advertised; a third in front is ignored |
| Mapping.PortsSpelled | src/lib.rs:229-296 | a port is a decimal number below 2^16, with or without a plus sign, and nothing else |
| Mapping.PrintedParsesAgain | src/lib.rs:229-296 | an accepted entry printed as bind,host:port parses to the same triple |
| Mapping.SurvivesPrintingExactly | src/lib.rs:229-296 | it does so under every fallback exactly if the host is present, comma-free and not led by white space |
| Mapping.OwnHostSurvives | src/lib.rs:260-268 | a host that stands in the entry itself always qualifies |
| Routing.FindIsFirst | src/lib.rs:320-323 | the broker chosen is the first that matches by address or by host name |
| Routing.ServerHostSpelled | src/lib.rs:305-323 | a bootstrap server's host is what stands before its last colon, or all of it |
| Routing.ListenersSpelled | src/lib.rs:305-340 | listener i serves the addresses of entry i, as far as both lists go, for the first broker that has its server's address or host name |
| Routing.BuildRewriteMap | src/lib.rs:298-345 | the loop reports the first bad entry and why, or builds one listener per entry and a map in which the last entry of a node wins |
| Routing.RoutingIsClosed | src/lib.rs:298-345 | the mapped nodes are exactly the listeners' nodes, and each has a listener advertised under the very address the map gives |
| Routing.RoutingIsInjective | src/lib.rs:335 | with pairwise distinct advertised addresses no two nodes share one |
| Routing.SubstitutedLeadsHome | src/rewrite.rs:98-105 | an endpoint substituted for a node leads to a listener for that node |
| Routing.UnmappedHasNoListener | src/rewrite.rs:98-105 | an endpoint is left alone exactly if its node has no listener |
| Histograms.Histogram.Search | src/metrics.rs:74-78 | the binary search finds the first bucket that holds the observation, whether found or inserted, NaN past the end |
| Histograms.Histogram.Observe | src/metrics.rs:70-82 | one observation keeps every slot, the count and the sum exact modulo 2^64 |
| Histograms.Histogram.Render | src/metrics.rs:84-96 | slot i is the number of observations up to bucket i, slots never decrease, the last is the total |
| Histograms.EverythingIsCounted | src/metrics.rs:70-82 | every observation is within a bucket, above it, or not a number |
| Histograms.CountIsSize | src/metrics.rs:70-82 | a bucket's count is the number of observations that are minus infinity or a number up to its bound |
| Histograms.MicrosAre | src/metrics.rs:70-82 | an observation adds whole microseconds, rounded down, between none and what 64 bits hold |
| LatestMessages.LatestMessages | src/api.rs:510-603 | the answer is sorted and consists of exactly the most recent records gathered of each partition, in whatever order the groups come out of the hash map |
| LatestMessages.Collect | src/api.rs:545-572 | the polling loop gathers what its value-level description says and ends for the reason it says |
| LatestMessages.TotalFills | src/api.rs:545-547 | reaching the total is possible only by filling every partition |
| LatestMessages.AnswersAreComplete | src/api.rs:510-614 | from a poller that repeats nothing the answer is strictly ascending and holds only polled records among the last `count` offsets below their partition's end; unless the deadline struck it has every such offset of every partition |
| LatestMessages.TailSizes | src/api.rs:510-597 | and then each partition contributes min(end, count) records |
| LatestMessages.EverythingPolledIsAnswered | src/api.rs:545-597 | if the polls together bring all those offsets, once each, the answer has them all, deadline or not |
| LatestMessages.FailsExactly | src/api.rs:547-552 | the request fails exactly if a poll fails while the loop, on the polls before it, would go on |
| LatestMessages.WindowsAreTails | src/api.rs:510-517 | a record is wanted exactly if its offset is among the last `count` of its partition |
| LatestMessages.RecentIsNewest | src/api.rs:578-583 | of each partition gathered min(count, all) records are kept, none older than one left out |
| LatestMessages.CompleteAnswersAgree | src/api.rs:585-597 | two answers with the same offsets list them in the same order |
| LatestMessages.CompletenessIsExact | src/api.rs:573-597 | a sorted answer within the windows has every offset exactly once if and only if it repeats none and has as many of each partition as the window is long |
| LatestMessages.RepeatsHideOffsets | src/api.rs:547-572 | for every window of two or more offsets, as many copies of one record as it is long end the loop with all others missing |

## Left out

- The byte codec of the `kafka_client` crate is not part of this model; Codec follows the response schemas of the Apache Kafka protocol guide and KIP-482 for Metadata 0-13, FindCoordinator 0-6 and DescribeCluster 0-2, and treats what surrounds the endpoints as raw bytes.
- Codec.RoundTrip: response headers with non-empty tagged fields do not decode, because the code writes none; strings are bytes, so UTF-8 validity is not checked.
- Real time: lease expiry, idle and acquire timeouts, flush ticks and the reaper's interval are steps that may happen at any moment.
- Liveness: no claim that a request is answered or an acquire succeeds; replies may be dropped, requests without a reply stay in the map, and a dropped lease stays counted.
- RegistrySteps.SweepInv: `fail_conn` is one atomic step; its count comes from two sizes, which other clients could change in between.
- InFlightCap.CapWithinRace: the map size is an atomic snapshot; the sharded map sums its shards one by one.
- Allocation.AllocationIsLinearizable: the loop's two atomics are sequentially consistent; weaker orderings elsewhere are not modelled.
- Connection ids do not wrap at 2^64.
- Accounting.PoolConservation: debug builds panic where the model wraps; both are excluded here.
- BrokerPools.BrokerPool.Acquire: other clients act at its three pauses: between its looks at the queue and the count, during the handshake, and while it waits. Permits are not tracked there: how a wait ends is an input. Every interleaving, permits included, is in Proxy.
- Histograms.Histogram.Observe: observations are reals, infinities or NaN, without rounding; the relaxed atomics are updated as one step.
- Mapping.PrintedParsesAgain: white space is the Unicode list, other text handling is by character.
- Routing.BuildRewriteMap: name resolution is a function of the server string; the comment at src/lib.rs:319 prefers an exact address over a host name, but the code takes the first broker that matches either way, and so does the model.
- LatestMessages.LatestMessages: the partitions of the end offsets are distinct, offsets and sizes are unbounded integers, sorting is a stable insertion sort.
- The flush timing of the pooled response loop, the `upstream_connections`, eviction, waiter and failure counters, and running with metrics off.
- src/upstream.rs, src/main.rs, the accept loops and `bootstrap_targets`: authentication, sockets, signals and logging.
- HTTP routing and JSON in src/api.rs, Prometheus text and memory readings in src/metrics.rs, durations and defaults in src/config.rs: each is a few lines of formatting, parsing or constants, with no property beyond them.
