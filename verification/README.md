# Verification of the tunnel's bookkeeping

Backhaul is a reverse tunnel. A server accepts user connections, asks a client behind a NAT for
tunnels, pairs each connection with a tunnel and relays bytes; several transports (tcp, tcpmux,
ws, wsmux, quic, udp) do this with goroutines that share bounded channels, counters and tables.
This project models that bookkeeping in Dafny and proves what holds in every interleaving, for
every input and at every moment of failure. `dafny verify dfyconfig.toml` checks all of it.

## How it is built

**Protocols.** Each concurrent part is a state machine: `State` holds the shared variables and
every goroutine's program point, an `Event` is one atomic operation of one goroutine (a channel
operation, a critical section, an atomic counter, one call into the network with its outcome),
and `Next` is total: an operation that would block, or that the goroutine has not reached, leaves
the state as it is. A sequence of events is therefore any interleaving, and a theorem about
`Exec(Init(...), es)` for every `es` is about every run. Sends on a closed channel, second closes
and overlapping writes set a `panicked` flag, which is proved to stay down. Beside each machine
stands a class with the source's fields whose methods do the operations in place and are proved
to produce exactly the machine's next state.

**Histories.** Invariants say what cannot happen; the files named `...History` say what does. What a
state shows (a connection closed for its age, a tunnel paired, a flow flagged) is there exactly when
some event of the run, in the state that it met, brought it about, by a condition on that event
alone: its clock reading, its outcome, its datagram. `Runs.History` is the induction behind these
theorems. The files named `...Progress` say from which states something can still happen, and `Runs.Fifo`
gives the order in which channels hand over what they receive.

**Streams.** Code that copies bytes is a method with the source's loops over scripted streams: a
`Source` hands out chunks of any size and then fails, a `Sink` takes any part of a write and may
fail at any point. A contract that holds for all scripts covers all fragmentation, all partial
writes and a break at any moment.

| file | subject |
|---|---|
| `Runs.dfy` | what the events of a run bring about, for any machine: histories, queues, sums |
| `MuxScheduler.dfy`, `MuxHistory.dfy`, `MuxProgress.dfy` | session scheduler of tcpmux and wsmux; which events expire, relay and fail a connection; which connections can still be relayed |
| `FlowTable.dfy`, `FlowHistory.dfy` | UDP-over-TCP flow table with replacement on congestion; how flows begin, what becomes of them |
| `UdpTables.dfy`, `UdpSafety.dfy`, `UdpTraffic.dfy`, `UdpService.dfy`, `UdpProgress.dfy`, `UdpHistory.dfy` | the two kinds of tables of the udp transport; their safety; the datagrams; what becomes of an entry; which entries can still be served; how entries begin and end |
| `WsTunnel.dfy`, `WsHistory.dfy`, `WsProgress.dfy` | pairing, pings and address on a websocket tunnel, and the client's reader; which events pair, drop and close a tunnel; which connections can still be relayed |
| `QuicHandoff.dfy`, `QuicProgress.dfy` | baton, quota and completion barrier of quic sessions; which sessions can complete |
| `ClientPool.dfy`, `PoolHistory.dfy` | the client's adaptive pool, its tokens and its controller; its numbers from its events |
| `Framing.dfy`, `CongestionClock.dfy` | datagrams on a byte stream, time stamps and the congestion test |
| `StringCodec.dfy` | length-prefixed strings |
| `Relay.dfy` | the copy loops of the connection handlers |
| `UsageLedger.dfy` | usage per port in memory, in the save in progress and in the file |
| `PortMappings.dfy` | mappings of the server's configuration, targets as the client resolves them |
| `Streams.dfy`, `Conns.dfy`, `Options.dfy`, `Tables.dfy` | streams, connections, optional values, sums over lists |

## Assumptions

- The theorems are about one generation, from a start or restart to the next: a restart replaces
  the channels and resets the counters.
- Accepted connections are pairwise different (`id`); so are tunnels and sessions.
- Network calls may fail at any time. A `net.Conn` write reports an error unless it wrote
  everything; smux, quic and websocket streams are reliable and ordered.
- A new UDP flow is queued and receives its first payload in one step. In the source the payload
  is sent just after the channel operation, outside the lock (accept_udp.go:107-110,
  udp.go:537-540); a handler would have to sit out its 60 s idle timer in between to interfere.
- A map operation is atomic, also where the source deletes outside the mutex (udp.go:361-362 and
  554-555).
- A UDP write sends the whole datagram or fails; a UDP read is cut to the buffer.
- Saves of the usage file do not overlap; additions, collections and page views interleave with
  them freely. Encoding a list as JSON and decoding it yields the list.
- Both clocks of a congestion test are the same clock, at or after 1970.
- Tickers and idle timers may fire at any time.
- Channel sizes are positive: cmd/defaults.go:40-41 replaces any other.
- A continuation of a run may bring further clients, connections and tunnels, and network calls in
  it may succeed: the theorems that something can still happen say that no state excludes it, not
  that it will happen. Their continuations read clocks from the present time on, whatever it is,
  and never backwards. They start from states before a cancellation.

## Results that deserve attention

- *Slots are lost.* A failed address send requeues the connection but keeps its semaphore slot
  (tcpmux.go:587-592). `SlotBound` carries that term. `RelaysUnlessExhausted` gives the exact
  condition: a session that is not on its way out relays again in some continuation if and only
  if fewer than muxCon of its sends have failed. `ExhaustionReachable`: one connection whose
  address cannot be sent is enough to get there, for every muxCon. And the exhausted session still
  counts: k of them keep acceptors from asking for another session until k times muxCon
  connections are in flight (`RequestsSuppressed`).
- *Sessions can jam one another.* When every session is exhausted, on its way out, or at its push
  back into a full localChannel, nothing is taken any more until a new session comes:
  `JammedForever`, `JammedReachable`, and exactly then: `TakesUnlessJammed`.
- *A flow can be shadowed.* When udpChan is full the flow stays in the table without a handler
  (accept_udp.go:118-119): `OrphanedWhen` says exactly when, `OrphanReachable` for every channel
  size that it happens, `OrphanForever` what follows, and `HandledUnlessOrphaned` that every other
  flow is handled in some continuation. In udp.go an expired flow and a tunnel whose address write
  failed stay likewise (`StrandedForever`, `ExpiredReachable`, `DroppedReachable`; `AgeRespected`
  and `LostWhen` say which events make them so). `ServedUnlessLost` gives the exact condition under
  which an entry can still be served: it is not expired, given up or refused, and, if it is a flow
  that handleLoop has not received in time, no more than three seconds have passed since it was
  created.
- *Datagrams can vanish.* The udp transport does not forward empty datagrams, and a failed write
  has already taken its datagram; it ends the copy loop, so that it is at most one
  (`UdpTraffic.ForwardedInOrder`, and `FlowTable.ForwardedInOrder` for the failed write).
- *The quic hand-off can stop for good.* A session whose stream failed pushes its connection back
  into localChan before it passes the baton (quic.go:486-487, 499-500). When acceptors have filled
  localChan meanwhile, and this is the server's one handleTunConn goroutine, nobody is left to
  make room: `StuckReachable`, `StuckForever`. `PullsUnlessStuck` gives the exact condition.
- *The pool may oscillate.* `Convergence` settles every start, load and configuration: the size
  moves one way to a stable one, except in the listed cases, where it never settles.
  `SettlesUnderEveryLoad` gives the bounds: 4 tunnels in normal, 1 in aggressive mode.
- *A page view can erase the usage file.* It looks for the file, and creates and truncates it in a
  second step (sniffer.go:244-247); a save in between is lost. `NothingLost`: with successful
  writes nothing is lost in any interleaving exactly if the file exists from the start.
- *A broken usage file stays broken.* `CorruptForever`: saves stop before they collect;
  `HaltReachable`: one write that fails halfway is enough. `CollectsUnlessHalted` gives the exact
  condition: a save in progress, or a page view that had found no file, can still replace the file,
  and nothing else can.
- *Relays drop bytes that come with the end of a stream.* A reader may return bytes together with
  its error, and the loops look at the error first (quicConnHandler.go:31-41, tcpConnHandler.go:32-42):
  a relay is complete exactly when the end comes by itself (`Relay.TransferData`).
- *Long strings.* binary.go converts the length to 16 bits and writes the whole message:
  `IntactWhenShort` gives the exact bound.
- *The congestion test misses late packets*: exactly those whose delay exceeds three round-trip
  times by no more than ten minutes for each ten-minute boundary crossed (`FlagMeansLate`; one
  that is missed and one that is not: `MissedAtBoundary`).
- *Addresses in brackets* resolve, if at all, to a wrong port: the client takes the text between
  the first and the second colon (shared.go:39). `ColonResolves` states exactly which addresses
  with a colon are accepted, `BracketsMisread` what that means for `[1:2::3]:80`.
- *Ports 1 and 65535* of a "local=remote" mapping keep their bare text as listening address
  (tcpmux.go:454): `ParseInvertsPrint` states it.

Where documentation and code differ, the code is modelled: README.md:108 of the repository shows
the range syntax "443-600:5201", which the parser refuses; the comments "30 seconds" stand beside
60 s timers; the 3 s check of ws.go:494 is made before the select that waits for a tunnel, so an
older connection can still be paired. `WsTunnel.AgeRespected` and `UdpService.AgeRespected` speak of
the age at the check, not at pairing; tcpmux and wsmux check after the wait.

## Model

| member | source | states |
|---|---|---|
| `MuxScheduler.ExactlyOnePlace` | internal/server/transport/tcpmux.go:484-619 | in every interleaving each accepted connection is queued, in one session's hands, relayed on one stream, expired or finished, once in all, and nothing else is anywhere |
| `MuxScheduler.CountersExact` | internal/server/transport/tcpmux.go:515-608 | streamCounter trails the connections in flight by exactly the increments still to come, at most one per acceptor; sessionCounter is the number of running loops until cancellation |
| `MuxScheduler.SlotBound` | internal/server/transport/tcpmux.go:556-602 | tokens in the semaphore = live streams + relays about to release + failed sends + the loop's own slot, at most muxCon; no release blocks |
| `MuxScheduler.AgeRespected` | internal/server/transport/tcpmux.go:570-578 | a session that opens a stream or sends an address has found its connection at most 3 s old at its last check, one that expires it older |
| `MuxHistory.AgeDecides` | internal/server/transport/tcpmux.go:570-578 | in every run a connection is closed unrelayed, or about to be, exactly when some check met it and read a clock more than 3 s past its creation; of every connection being opened or relayed, now or formerly, the last check read at most 3 s |
| `MuxHistory.RelayedWhen` | internal/server/transport/tcpmux.go:580-598 | a connection is relayed, now or formerly, exactly when its address was sent successfully by the session that held it |
| `MuxHistory.FinishedWhen` | internal/server/transport/tcpmux.go:594-599 | a connection is finished exactly when its relay has ended, in any order among the relays of a session |
| `MuxHistory.ExitWhen` | internal/server/transport/tcpmux.go:563-584 | a session takes its exit exactly when a stream could not be opened in it, and stops exactly when it saw the cancellation at its select |
| `MuxHistory.CancelledWhen` | internal/server/transport/tcpmux.go:565-567 | the cancellation can be seen exactly from the event on that makes it |
| `MuxHistory.FailuresCounted` | internal/server/transport/tcpmux.go:587-592 | failedSends of a session, the slots it has lost, is the number of its address sends that failed |
| `MuxHistory.TakenInOrder` | internal/server/transport/tcpmux.go:484-619 | over every run the sessions take connections in the order in which acceptors and sessions sent them into localChannel |
| `MuxProgress.RelayedUnlessOverdue` | internal/server/transport/tcpmux.go:556-619 | from every reachable state before a cancellation, whatever time it is, an accepted connection is relayed in some continuation from then on if and only if it is not given up for its age and has passed its check or is at most 3 s old |
| `MuxScheduler.RelaysUnlessExhausted` | internal/server/transport/tcpmux.go:556-602 | from every reachable state before a cancellation, whatever time it is, a session that is not on its way out relays in some continuation from then on if and only if fewer than muxCon of its sends have failed |
| `MuxScheduler.RequestsSuppressed` | internal/server/transport/tcpmux.go:521-529 | while k exhausted sessions stand, acceptors request no session before k times muxCon connections are in flight |
| `MuxScheduler.TakesUnlessJammed` | internal/server/transport/tcpmux.go:556-619 | some continuation without a new session takes a connection if and only if not every session is exhausted, exiting, or pushing back into a full localChannel |
| `MuxScheduler.JammedForever` | internal/server/transport/tcpmux.go:587-613 | jammed sessions take nothing in any continuation without a new session, and a full localChannel keeps its connections |
| `MuxScheduler.JammedReachable` | internal/server/transport/tcpmux.go:587-592 | one session gets there, for every channel size and muxCon |
| `MuxScheduler.ExhaustedForever` | internal/server/transport/tcpmux.go:587-592 | after muxCon failed sends a session relays nothing, in every continuation |
| `MuxScheduler.ExhaustionReachable` | internal/server/transport/tcpmux.go:556-602 | for every muxCon a single connection can bring that about and is then left queued |
| `MuxScheduler.InvReached` | internal/server/transport/wsmux.go:488-592 | the inductive invariant holds in every reachable state; wsmux is the same scheduler |
| `MuxScheduler.InvNext` | internal/server/transport/wsmux.go:488-592 | every operation of every goroutine keeps the invariant and the places of a connection |
| `MuxScheduler.MuxTransport.Fire` | internal/server/transport/tcpmux.go:484-602 | any operation, in place, yields exactly the machine's next state |
| `MuxScheduler.MuxTransport.HandleSession` | internal/server/transport/tcpmux.go:556-602 | an operation of one session's goroutines, in place |
| `MuxScheduler.MuxTransport.Loop` | internal/server/transport/tcpmux.go:548-569 | counting the session, taking a slot, the select |
| `MuxScheduler.MuxTransport.CheckAge` | internal/server/transport/tcpmux.go:570-578 | age check, counter and slot of a stale connection |
| `MuxScheduler.MuxTransport.StartStream` | internal/server/transport/tcpmux.go:580-598 | opening the stream and sending the address, with both failures |
| `MuxScheduler.MuxTransport.Requeue` | internal/server/transport/tcpmux.go:587-619 | the blocking sends back into localChannel |
| `MuxScheduler.MuxTransport.EndRelay` | internal/server/transport/tcpmux.go:594-599 | end of a relay: counter first, then slot |
| `FlowTable.NoPanic` | internal/server/transport/accept_udp.go:62-187 | no payload channel is sent on after its close or closed twice; an entry with a closed channel is flagged congested |
| `FlowTable.OneGoodFlow` | internal/server/transport/accept_udp.go:62-105 | a client has at most one open uncongested flow and its entry names it |
| `FlowTable.PacketReachesOwn` | internal/server/transport/accept_udp.go:64-83 | a packet goes to its client's good flow and nowhere else, unless that flow's buffer of 100000 is full |
| `FlowHistory.PacketFoundsFlow` | internal/server/transport/accept_udp.go:85-120 | from every reachable state a packet of a client without a good flow, also of one whose flow is congested, founds a flow that replaces the entry; it has received exactly this packet and is queued if udpChan has room, else it is orphaned; nothing else changes |
| `FlowHistory.FateWhen` | internal/server/transport/accept_udp.go:128-187 | in every run a flow is orphaned, relayed, flagged congested, at the end of one or the other copy loop, or closed, exactly when an event of that kind met it: the flag by a stamp that is late, the end of udpToTCP also by a failed write |
| `FlowHistory.TakenInOrder` | internal/server/transport/accept_udp.go:107-132 | over every run handleUDPLoop takes the flows in the order in which the listener offered them |
| `FlowHistory.WritesAll` | internal/server/transport/accept_udp.go:197-223 | a flow whose udpToTCP runs can write everything that it has buffered, in order, packets over 65535 bytes left out |
| `FlowHistory.Finishes` | internal/server/transport/accept_udp.go:168-187 | a relayed flow can end: its channel is closed then and the table names it only if it is congested |
| `FlowTable.ForwardedInOrder` | internal/server/transport/accept_udp.go:197-223 | the packets received are, in order, those written to the tunnel, at most one whose write failed and ended the loop, and those still buffered; only packets over 65535 bytes are passed over |
| `FlowTable.FinishRemovesOwn` | internal/server/transport/accept_udp.go:180-186 | a finishing flow removes its own entry or none, also when flows of one client overlap |
| `FlowTable.HandledUnlessOrphaned` | internal/server/transport/accept_udp.go:107-157 | from every reachable state some continuation hands a flow to a handler if and only if it is not orphaned |
| `FlowHistory.OrphanedWhen` | internal/server/transport/accept_udp.go:107-119 | a flow is orphaned exactly when its own offer found udpChan full |
| `FlowTable.OrphanForever` | internal/server/transport/accept_udp.go:102-119 | it then stays its client's entry, unhandled, in every continuation |
| `FlowTable.OrphanReachable` | internal/server/transport/accept_udp.go:107-119 | one client more than udpChan has room for brings it about, for every channel size |
| `FlowTable.InvNext` | internal/server/transport/accept_udp.go:62-187 | listener, loop and handlers keep the table's invariant |
| `FlowTable.UdpListener.Fire` | internal/server/transport/accept_udp.go:62-187 | any operation, in place, yields exactly the machine's next state |
| `FlowTable.UdpListener.Receive` | internal/server/transport/accept_udp.go:62-86 | the first critical section: look up, buffer or drop |
| `FlowTable.UdpListener.OfferFlow` | internal/server/transport/accept_udp.go:107-120 | offering the flow to udpChan, or leaving it orphaned |
| `FlowTable.UdpListener.Handle` | internal/server/transport/accept_udp.go:128-187 | pairing, forwarding, flagging and closing a flow |
| `UdpSafety.NoPanic` | internal/server/transport/udp.go:311-363 | no payload or ping channel is sent on after its close or closed twice; every listed entry is open unless its reader is just removing it |
| `UdpSafety.DatagramReachesOwn` | internal/server/transport/udp.go:501-516 | a datagram goes to its sender's entry and nowhere else, unless the buffer is full |
| `UdpTraffic.ForwardedInOrder` | internal/server/transport/udp.go:632-702 | in both directions the nonempty datagrams received are, in order, those written, at most one whose write failed and ended the loop, and those still buffered; all are written once the buffer is empty and no write has failed |
| `UdpTraffic.ClosedAfterCopy` | internal/server/transport/udp.go:606-628 | a payload channel is closed only when no copy loop reads it any more |
| `UdpService.AgeRespected` | internal/server/transport/udp.go:570-574 | in every run a flow is skipped exactly when the event that dequeued this flow found it older than 3 s, looked after exactly when it found it at most that old |
| `UdpService.LostWhen` | internal/server/transport/udp.go:551-590 | a tunnel is given up exactly when an address write to it failed, an entry refused exactly when it was offered to a full channel |
| `UdpService.FateWhen` | internal/server/transport/udp.go:532-630 | likewise an entry is relayed exactly when an address write for it succeeded, its copy loop has ended exactly by its end or a failed write, and it is closed exactly by its half of the teardown |
| `UdpHistory.TokenAdmits` | internal/server/transport/udp.go:313-343 | in every run the acceptor has made, or is making, an entry for a sender exactly when that sender presented the token while it had none |
| `UdpHistory.StrangerIgnored` | internal/server/transport/udp.go:330-333 | in no reachable state does a datagram other than the token, from a sender without an entry, change anything |
| `UdpHistory.SenderFoundsEntry` | internal/server/transport/udp.go:519-556 | from every reachable state a local client without an entry, or a sender with the token, gets one with the time read; the client's has received exactly its datagram, the tunnel's nothing; it is queued, or refused when the channel is full; nothing else changes |
| `UdpHistory.TakenInOrder` | internal/server/transport/udp.go:565-582 | over every run flows and tunnels are received in the order in which they were sent into their channels |
| `UdpHistory.WritesAll` | internal/server/transport/udp.go:632-702 | an entry whose copy loop runs can have everything written that it has buffered, in order, without the empty datagrams |
| `UdpHistory.TearsDown` | internal/server/transport/udp.go:603-630 | a relayed flow and its tunnel can end: both channels are closed then and both entries gone from their tables |
| `UdpSafety.PairedOnce` | internal/server/transport/udp.go:576-601 | a tunnel serves at most one flow and its ping channel is closed exactly once |
| `UdpSafety.TeardownRemovesOwn` | internal/server/transport/udp.go:603-630 | every deletion removes the deleter's own entry: the flow's, its tunnel's, or the one just refused |
| `UdpService.StrandedForever` | internal/server/transport/udp.go:570-590 | expired flows and given-up tunnels stay listed and open in every continuation of every run |
| `UdpProgress.ServedUnlessLost` | internal/server/transport/udp.go:565-630 | from every reachable state, whatever time it is, some continuation from then on relays a flow or tunnel if and only if it is not expired, given up or refused and, if a flow not yet received in time, at most 3 s old |
| `UdpService.OverdueForever` | internal/server/transport/udp.go:570-574 | a flow that has waited longer is never looked after in any continuation from then on |
| `UdpProgress.ServeFlow` | internal/server/transport/udp.go:565-601 | builds that continuation for a flow, at the present time, skipping or serving those ahead of it, whatever the readers and the other loops were doing |
| `UdpProgress.ServeTunnel` | internal/server/transport/udp.go:565-601 | and for a tunnel, by using up the tunnels ahead of it for flows received in time |
| `UdpProgress.ExpiredReachable` | internal/server/transport/udp.go:571-574 | a flow that waits 3001 ms is lost |
| `UdpProgress.DroppedReachable` | internal/server/transport/udp.go:587-590 | a tunnel is lost by one failed address write |
| `UdpTables.InvNext` | internal/server/transport/udp.go:295-630 | readers, loops and copiers keep the tables' invariant |
| `UdpTables.UdpTransport.Fire` | internal/server/transport/udp.go:295-702 | any operation, in place, yields exactly the machine's next state |
| `UdpTables.UdpTransport.Receive` | internal/server/transport/udp.go:313-333 | look up, buffer or drop; new tunnels need the token |
| `UdpTables.UdpTransport.Offer` | internal/server/transport/udp.go:532-556 | storing, offering, and the refusal when the channel is full |
| `UdpTables.UdpTransport.Dequeue` | internal/server/transport/udp.go:570-574 | taking a flow, skipping it when it waited more than 3 s |
| `UdpTables.UdpTransport.TakeTunnel` | internal/server/transport/udp.go:576-582 | taking the next tunnel for a flow |
| `UdpTables.UdpTransport.SendAddress` | internal/server/transport/udp.go:583-596 | closing the ping channel and writing the address, or trying the next tunnel |
| `UdpTables.UdpTransport.UdpCopy` | internal/server/transport/udp.go:603-630 | the end of both copy loops and the two halves of the teardown |
| `WsTunnel.WireGrammar` | internal/server/transport/ws.go:486-551 | writes on a tunnel never overlap, its ping channel is closed at most once, and its messages are pings, then the address of the one connection it was taken for, then the relay's writes in order, of which only the last may be missing |
| `WsTunnel.ClientGetsAddress` | internal/client/transport/ws.go:298-335 | from any part of the wire the client reads nothing yet, or that address, if and only if it is not the ping byte; what is left is a first part of the relay's writes |
| `WsTunnel.AddressNotPing` | internal/client/transport/ws.go:314-322 | the reader never returns the ping byte |
| `WsTunnel.TunnelDialer` | internal/client/transport/ws.go:298-322 | the reading loop, as a function of the messages |
| `WsTunnel.OneRelayEach` | internal/server/transport/ws.go:486-518 | a local connection is in one place; at most one relay is ever started for it |
| `WsHistory.FateWhen` | internal/server/transport/ws.go:486-551 | in every run a tunnel is paired exactly when an address write to it ended well over an open connection, given up exactly when one ended otherwise; its connection is closed, keepAlive is at its end and the relay over exactly when an event that does so met the tunnel |
| `WsHistory.AddressEnds` | internal/server/transport/ws.go:507-514 | how an address write ends in a reachable state: the address is on the wire, the relay starts and the loop is free, or the tunnel is closed and the loop checks the same connection again |
| `WsHistory.PingEnds` | internal/server/transport/ws.go:542-547 | how a ping ends: the mutex is free again, and keepAlive waits for its next tick or, after an error, has closed the connection and is over |
| `WsHistory.PingsUntilAddress` | internal/server/transport/ws.go:520-551 | from every reachable state some continuation pings over a tunnel if and only if its connection is open, the mutex is not taken for the address, and keepAlive has neither ended nor failed |
| `WsHistory.DataDelivered` | internal/utils/wsConnHandler.go:61-96 | in a reachable state a paired tunnel delivers any message as long as its connection is open and its relay runs |
| `WsHistory.TakenInOrder` | internal/server/transport/ws.go:486-503 | over every run connections and tunnels are received in the order in which they were sent into their channels |
| `WsProgress.RelayedUnlessOverdue` | internal/server/transport/ws.go:486-518 | from every reachable state, whatever time it is, an accepted connection is relayed in some continuation from then on if and only if it is not closed for its age and is relayed already, is at most 3 s old, or has passed its check and can meet a tunnel that works |
| `WsTunnel.AgeRespected` | internal/server/transport/ws.go:494-503 | in every run a connection is closed unpaired exactly when a check of this connection found it older than 3 s, and every tunnel taken for it was taken by a loop whose check of it just before found it at most that old |
| `WsTunnel.UsedOnce` | internal/server/transport/ws.go:503-514 | a paired tunnel keeps its connection; one with a failed address write is never used again |
| `WsTunnel.RetryBound` | internal/server/transport/ws.go:493-515 | without arrivals the loops receive no more tunnels than were queued, one per attempt |
| `WsTunnel.InvNext` | internal/server/transport/ws.go:262-276 | acceptor, keepAlive, handleLoop and relays keep the invariant |
| `WsTunnel.WsTransport.Fire` | internal/server/transport/ws.go:424-551 | any operation, in place, yields exactly the machine's next state |
| `WsTunnel.WsTransport.KeepAlive` | internal/server/transport/ws.go:520-551 | ticks, TryLock, ping and unlock |
| `WsTunnel.WsTransport.Pair` | internal/server/transport/ws.go:504-506 | closing the ping channel, taking the mutex, beginning the write |
| `WsTunnel.WsTransport.HandleLoop` | internal/server/transport/ws.go:486-518 | taking a connection, expiring it, taking a tunnel, ending the address write |
| `QuicHandoff.OnePuller` | internal/server/transport/quic.go:455-469 | per handleTunConn goroutine at most one session pulls connections at any time |
| `QuicHandoff.Barrier` | internal/server/transport/quic.go:471-536 | at most one pass and no pull after it, at most muxCon streams, reports never block, done and the connection are closed only after all muxCon relays reported; a session is at that close exactly between receiving the last report and closing |
| `QuicProgress.CompletesUnlessFailed` | internal/server/transport/quic.go:475-533 | from every reachable state, before a cancellation if streams are still to be started, some continuation closes done and the connection of a session after all its reports if and only if it has neither failed nor quitted; with all muxCon streams started it has not |
| `QuicProgress.ReportReceived` | internal/server/transport/quic.go:523-525 | in every reachable state a session behind its last hand-over receives a pending report, and goes to the close with the last |
| `QuicProgress.FateWhen` | internal/server/transport/quic.go:475-533 | in every run a session has failed, quitted, passed the baton, received all reports, or closed, exactly when an event of that kind met it |
| `QuicProgress.FinishedWhen` | internal/server/transport/quic.go:505-508 | a connection is finished exactly when its relay has ended, in any order among the relays of a session |
| `QuicProgress.CancelledWhen` | internal/server/transport/quic.go:473-475 | the cancellation can be seen exactly from the event on that makes it |
| `QuicProgress.PulledInOrder` | internal/server/transport/quic.go:441-502 | over every run the sessions pull connections in the order in which acceptors and sessions sent them into localChan |
| `QuicHandoff.NoPullAfterPass` | internal/server/transport/quic.go:487-533 | in every continuation a session that passed the baton starts no further stream |
| `QuicHandoff.ExactlyOnePlace` | internal/server/transport/quic.go:441-536 | each accepted connection is queued, held by one session, relayed once, or finished |
| `QuicHandoff.PullsUnlessStuck` | internal/server/transport/quic.go:455-536 | from every reachable state before a cancellation some continuation pulls a connection if and only if not every goroutine waits on a session that has quitted or is pushing back into a full localChan |
| `QuicHandoff.StuckForever` | internal/server/transport/quic.go:486-502 | such a hand-off is stuck in every continuation, and a full localChan keeps its connections |
| `QuicHandoff.StuckReachable` | internal/server/transport/quic.go:479-502 | the server's one goroutine gets there for every channel size and quota |
| `QuicHandoff.InvNext` | internal/server/transport/quic.go:455-536 | every operation keeps the invariant |
| `QuicHandoff.QuicTransport.Fire` | internal/server/transport/quic.go:441-536 | any operation, in place, yields exactly the machine's next state |
| `QuicHandoff.QuicTransport.PassBaton` | internal/server/transport/quic.go:487-513 | the rendezvous on next |
| `QuicHandoff.QuicTransport.HandleSession` | internal/server/transport/quic.go:475-513 | pulling, opening, sending, requeueing |
| `QuicHandoff.QuicTransport.Relays` | internal/server/transport/quic.go:505-532 | relays reporting, the session collecting and closing |
| `ClientPool.PoolConservation` | internal/client/transport/tcp.go:143-285 | in every interleaving tunnels launched = pool size + signals served + tokens in or on their way to controlFlow; the size never falls below the configured one, tokens never exceed 100 |
| `PoolHistory.EveryNumber` | internal/client/transport/tcp.go:143-285 | every number of the pool in every run from its events: the size from decisions, the tokens from decisions to shrink and signals that found one, tunnels launched from decisions to grow and signals that found none, idle tunnels from dials and departures |
| `PoolHistory.WaitsWhenFull` | internal/client/transport/tcp.go:178-181 | in every reachable state a decision to shrink waits exactly while 100 tokens are in controlFlow |
| `PoolHistory.LoadCounted` | internal/client/transport/tcp.go:166-271 | loadConnections counts the signals since it was last reset |
| `PoolHistory.AverageRoundsUp` | internal/client/transport/tcp.go:166-173 | the averages are rounded up |
| `ClientPool.Convergence` | internal/client/transport/tcp.go:166-184 | under constant load every size moves one way and settles within a bound, or never settles, by an exact list of cases |
| `ClientPool.SettlesUnderEveryLoad` | internal/client/transport/ws.go:155-209 | settling under every load takes a configured size of 4 in normal and 1 in aggressive mode, and no less |
| `ClientPool.SwingsAt` | internal/client/transport/wsmux.go:168-222 | which size swings, for which load and configuration |
| `ClientPool.Factors` | internal/client/transport/tcp.go:152-184 | the factors of both modes in whole numbers: from which pool size on it shrinks and up to which it grows, for every load |
| `ClientPool.TenSeconds` | internal/client/transport/tcpmux.go:229-258 | ten samples of a steady pool and one decision of the machine are one tick of the controller |
| `ClientPool.InvNext` | internal/client/transport/udp.go:182-288 | poolMaintainer, channelHandler and dialers keep the accounts |
| `ClientPool.PoolTransport.Adapt` | internal/client/transport/tcpmux.go:204-258 | the decision, with its factors for both modes, in place |
| `ClientPool.PoolTransport.Answer` | internal/client/transport/tcp.go:264-271 | a signal cancels a token or opens a tunnel |
| `ClientPool.PoolTransport.Fire` | internal/client/transport/ws.go:150-257 | any operation, in place, yields exactly the machine's next state |
| `Framing.EndToEnd` | internal/server/transport/accept_udp.go:36 | for any datagrams and any cut of the stream the receiver sends a prefix of the nonempty datagrams, from a whole stream all of them; on no part of the stream does its size guard fire |
| `Framing.WireFormat` | internal/server/transport/accept_udp.go:202-218 | a frame is its stamp, its length in two bytes, high byte first, and its data |
| `Framing.GetsThrough` | internal/client/transport/accept_udp.go:46-76 | data gets through up to 16384 bytes and no more |
| `Framing.RoundTrip` | internal/server/transport/accept_udp.go:202-223 | decoding inverts encoding, up to oversized data, which the sender skips or the receiver stops at |
| `Framing.DecodePrefix` | internal/client/transport/accept_udp.go:46-82 | a stream cut anywhere decodes to a prefix |
| `Framing.FlaggedOnlyWhenLate` | internal/server/transport/accept_udp.go:255-267 | stream and clock together: a flow is flagged only if some packet was under way for more than three round-trip times |
| `Framing.SomeLateWhen` | internal/server/transport/accept_udp.go:255-267 | the flag is set exactly when some stamp read, the first or any later one, is late at the clock read for it |
| `Framing.StampsPrefix` | internal/server/transport/accept_udp.go:243-256 | the stamps read from any part of the stream are those sent, in order |
| `Framing.StampBytes` | internal/client/transport/accept_udp.go:119-123 | four bytes lose nothing of the time stamp |
| `Framing.UdpToTcp` | internal/server/transport/accept_udp.go:189-236 | the written bytes are at every failure a prefix of the encoding, in the end all of it |
| `Framing.StampedUdpToTcp` | internal/client/transport/accept_udp.go:92-153 | the same with time stamps |
| `Framing.TcpToUdp` | internal/client/transport/accept_udp.go:42-90 | the datagrams sent are a prefix of the decoding of the stream, in the end all of it, for any fragmentation |
| `Framing.StampedTcpToUdp` | internal/server/transport/accept_udp.go:238-320 | the same, and the congestion flag is set exactly when some stamp read is late |
| `CongestionClock.AgeOfDelay` | internal/server/transport/accept_udp.go:255-262 | on a common clock the computed age is the delay less 600000 ms per window boundary crossed |
| `CongestionClock.Thresholds` | internal/server/transport/accept_udp.go:162-267 | the limit is 300 ms while the round-trip time is not known, then three times it |
| `CongestionClock.FlagMeansLate` | internal/server/transport/accept_udp.go:162-267 | no false positives for any delay; the false negatives, exactly |
| `CongestionClock.MissedAtBoundary` | internal/server/transport/accept_udp.go:258-267 | a late packet that is missed at a boundary, and one that is flagged across one |
| `CongestionClock.ExactWithinWindow` | internal/client/transport/accept_udp.go:114-123 | within one window the test is exact |
| `CongestionClock.CanFlag` | internal/server/transport/accept_udp.go:162-267 | the round-trip times for which the test can fire at all |
| `StringCodec.Exchange` | internal/utils/binary.go:12-85 | receiving after sending yields the first length-mod-65536 bytes and leaves exactly the rest |
| `StringCodec.WireFormat` | internal/utils/binary.go:15-24 | a message is its length modulo 65536 in two bytes, high byte first, its transport byte if it has one, and all of its bytes |
| `StringCodec.IntactWhenShort` | internal/utils/binary.go:87-166 | a message arrives intact, with the stream behind it untouched, if and only if it has at most 65535 bytes |
| `StringCodec.ListRoundTrip` | internal/utils/binary.go:12-166 | any list of short messages, with or without transport byte, is received as sent |
| `StringCodec.Send` | internal/utils/binary.go:87-119 | writes a prefix of the encoding, and all of it exactly on success |
| `StringCodec.Receive` | internal/utils/binary.go:121-166 | decodes the stream for any fragmentation and leaves the rest |
| `Relay.TransferData` | internal/utils/tcpConnHandler.go:29-65 | delivered bytes are a prefix of the bytes read, in the end all but those that came together with the end; complete exactly if there are none; recorded usage lags by at most a buffer |
| `Relay.TcpToWebSocket` | internal/utils/wsConnHandler.go:61-96 | the messages' bytes are a prefix of the bytes read, in the end all but those that came together with the end |
| `Relay.WebSocketToTcp` | internal/utils/wsConnHandler.go:28-59 | delivered bytes are a prefix of the data messages' bytes, in the end all; control messages are ignored |
| `Relay.ThroughWebSocket` | internal/utils/wsConnHandler.go:28-96 | TCP to websocket to TCP: message boundaries and control messages do not matter |
| `UsageLedger.Conservation` | internal/web/sniffer.go:161-240 | in every run, per port: memory + file or save in progress + lost = initial file + everything the run adds |
| `UsageLedger.SaveExact` | internal/web/sniffer.go:178-240 | the file never names a port twice; after a successful save totalTraffic is its sum and each port holds old plus collected |
| `UsageLedger.SaveBegins` | internal/web/sniffer.go:178-198 | in every reachable state a save begins exactly if there is no file or one that can be read and decoded; it takes what the file holds and all that is in memory |
| `UsageLedger.CreateErases` | internal/web/sniffer.go:246-261 | the creation by a page view leaves an empty or, if the write fails, an undecodable file; what the file held is lost unless a save has it in hand |
| `UsageLedger.SaveFails` | internal/web/sniffer.go:227-239 | what a save loses that cannot write, per port, and what file it leaves, for both ways of failing |
| `UsageLedger.NothingLost` | internal/web/sniffer.go:242-261 | with successful writes nothing is lost in any interleaving if and only if the file exists from the start |
| `UsageLedger.PageViewTruncates` | internal/web/sniffer.go:244-261 | the interleaving that loses a save |
| `UsageLedger.CollectsUnlessHalted` | internal/web/sniffer.go:178-261 | from every reachable state some continuation collects what is in memory if and only if not the file is undecodable with no save in progress and no page view about to create one |
| `UsageLedger.CorruptForever` | internal/web/sniffer.go:186-190 | in that case every save stops before collecting, in every continuation, and memory keeps what is added |
| `UsageLedger.HaltReachable` | internal/web/sniffer.go:235-239 | one write that fails halfway brings it about, whatever the file held |
| `UsageLedger.PageDetermined` | internal/web/sniffer.go:279-284 | the page is the same list for any map order and any sort |
| `UsageLedger.SortedUnique` | internal/web/sniffer.go:279-284 | a list sorted by distinct ports is determined by its entries |
| `UsageLedger.ByPort` | internal/web/sniffer.go:279-284 | sorted by port, with the same entries |
| `UsageLedger.List` | internal/web/sniffer.go:315-322 | ranging over a map lists each entry once |
| `UsageLedger.MergedHolds` | internal/web/sniffer.go:199-215 | merging adds up both lists per port |
| `UsageLedger.Usage.AddOrUpdatePort` | internal/web/sniffer.go:161-176 | adds to the port, in place |
| `UsageLedger.Usage.LoadFile` | internal/web/sniffer.go:179-195 | a missing file is empty, an unreadable one ends the save |
| `UsageLedger.Usage.CollectUsageData` | internal/web/sniffer.go:311-324 | lists the store and empties it |
| `UsageLedger.Usage.MergeUsageData` | internal/web/sniffer.go:200-225 | the merge loops and totalTraffic, in place |
| `UsageLedger.Usage.WriteFile` | internal/web/sniffer.go:227-239 | the new file, or what a failed write loses |
| `UsageLedger.Usage.SaveUsageData` | internal/web/sniffer.go:178-240 | an uninterrupted save is its four operations in order |
| `UsageLedger.Usage.StatFile` | internal/web/sniffer.go:242-246 | a page view's look at the file |
| `UsageLedger.Usage.CreateFile` | internal/web/sniffer.go:246-261 | a page view's truncating creation |
| `UsageLedger.Usage.ReadPage` | internal/web/sniffer.go:264-286 | what a page view shows is sorted and has the file's entries |
| `PortMappings.ParseInvertsPrint` | internal/server/transport/tcpmux.go:377-466 | the text of a mapping starts exactly what the mapping means and is refused when it means nothing, for all integers as ports and bounds |
| `PortMappings.SpaceIgnored` | internal/server/transport/tcpmux.go:381-432 | white space around a mapping and around its equals sign does not matter |
| `PortMappings.TwoSeparatorsFatal` | internal/server/transport/tcpmux.go:394-465 | a second equals sign, or a second dash in a range, is fatal |
| `PortMappings.StartsInOrder` | internal/server/transport/tcpmux.go:377-466 | listeners start in the order of the mappings; those before the first fatal mapping have started when it ends the process |
| `PortMappings.WithoutTarget` | internal/server/transport/tcpmux.go:386-424 | any accepted text without a target starts consecutive valid ports, ascending, once each, and each reaches the same port of the client's own host |
| `PortMappings.StartsAll` | internal/server/transport/tcpmux.go:377-466 | start-up goes through exactly when no mapping is fatal |
| `PortMappings.StartsAsked` | internal/server/transport/ws.go:316-405 | a listener then runs exactly when some mapping asks for it |
| `PortMappings.ParsePortMappings` | internal/server/transport/tcpmux.go:377-466 | the loops over mappings and ranges, with the listeners started before a fatal one |
| `PortMappings.ListenRange` | internal/server/transport/tcpmux.go:394-417 | the loop over a range |
| `PortMappings.AtoiItoa` | internal/server/transport/tcpmux.go:401-414 | reading a printed number gives it back, within 64 bits |
| `PortMappings.BarePortResolves` | internal/client/transport/shared.go:31-37 | a number, however written, resolves to that port of 127.0.0.1 |
| `PortMappings.HostResolves` | internal/client/transport/shared.go:39-44 | host:port resolves to itself |
| `PortMappings.ColonResolves` | internal/client/transport/shared.go:27-44 | an address with a colon is accepted if and only if the text between its first and second colon, or its end, is a number; that is its port |
| `PortMappings.ColonParts` | internal/client/transport/shared.go:27 | every address with a colon has such parts |
| `PortMappings.ParseNatSome` | internal/client/transport/shared.go:39 | which texts are numbers: digits, one at least, behind the sign |
| `PortMappings.BracketsMisread` | internal/client/transport/shared.go:39-44 | an address in brackets is refused, or accepted with a part of the host as port |
| `PortMappings.UsableAddressArrives` | internal/client/transport/ws.go:314-332 | in every interleaving, an address the client can resolve is the one it reads from the tunnel, and a first part of the relay's writes is left |

## Left out

- Sockets, dialling, listening, TLS, HTTP upgrade, smux, quic-go and gorilla internals: foreign
  calls, modelled by their outcomes.
- Restart, the control channel's own protocol (heartbeats, round-trip measurement, reqNewConnChan
  and getNewConnChan signals) and reload of the configuration.
- Integer widths of counters: streamCounter, sessionCounter, poolConnections and loadConnections
  are int32 and byte counts uint64 in the source and unbounded here; wrapping takes 2^31 open
  connections or 2^64 bytes.
- What can still happen after a cancellation: acceptors and the loops that start sessions return
  then, which the machines do not model; safety is proved for cancelled runs, too.
- Ends of the websocket and udp loops on cancellation (`ctx.Done`): the machines go on, which only
  adds runs in which the goroutine does nothing.
- Overlapping saves of the usage file (sniffer.go:105 starts each in a goroutine of its own): two
  that overlap can overwrite each other, and conservation is not claimed for them.
- Server tcp.go: its handleLoop pairs nothing, so for `FlowTable` its tunnels are just outcomes.
- Client quic.go, launchers, command line, defaults, web page, system statistics, number
  formatting, user agents.
- Loss and reordering of UDP datagrams between the peers: the ping and address grammar is proved
  for websocket tunnels.
- Failures of `net.Listen` for a mapping's port, among them two mappings with the same port.
- Texts that are not valid Unicode in mappings and addresses.
