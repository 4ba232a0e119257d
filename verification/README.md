# ADB protocol engine: a Dafny model

This project models the protocol engine of ADB 1.0.29 (`tools_for_phone/adb_1.0.29_linux_x86`)
and proves what keeps it working: many byte streams multiplexed over one transport with one
packet of credit per direction, sockets that close each other while lists are walked, two helper
threads per transport, a select loop whose callbacks change what it iterates over, and the
codecs underneath. A small second subject is the pair of prime tables in the gtest samples.

`dafny verify dfyconfig.toml` checks everything.

## How it is laid out

- `Basics`: types shared by all modules.
- `Endpoints`: one end of a connection as a value. Every socket it ever created, and what each
  packet handler and each fd event does to them, with the answers of the operating system
  (how many bytes an fd took, whether it failed) as parameters.
- `Streams`: one stream, that is two sockets and the packets between them. The invariant has two
  halves: `Flow` (credit, shape of the channels, links between the sockets) and `Order` (the bytes).
- `Network`: two endpoints and two FIFO channels that carry all streams. A run is any sequence of
  handler invocations at either end; `Inv` says that every stream satisfies its invariant, that the
  two ends agree on which socket belongs to which, and that everything in flight is accounted for.
- `Guarantees`: what follows for every run.
- `EndToEnd`: the same from fd to fd, in terms of what the operating system delivered and took.
- `Engine`: the same handlers as methods on the live and closing lists, with the write, drain and
  read loops; each is proved to do what `Endpoints` says.
- `SocketTable`: local, remote and smart sockets as references with peer links, close pointers
  and packet queues, the two lists, `socket_list_lock` and the packet allocator; the re-entrant
  close paths and the sweep, with every `put_apacket` they make.
- `Handlers`: the handlers of the main loop on that heap, with the identity of every packet, and
  runs that interleave them with the two threads: the close invariant and packet ownership.
- `Disconnects`: the circular list of disconnect callbacks on the heap.
- `Threads`: output thread, main loop and input thread of one transport as interleaved steps:
  shutdown and the SYNC handshake.
- `EventLoop`: fd table, select sets, `select_n` and the pending list.
- `Framing`: headers, byte order, checksums, `readx` and `writex`.
- `Link`: the threads and the framing together deliver what `Network` takes for its channels.
- `Requests`: the length-prefixed requests of the smart socket, their parser and their printer.
- `SyncData`: DATA chunks and DONE.
- `Primes`: sieve, trial division, odd trial division.

The code that updates things in place is modelled by classes and loops, and each method is tied to
a function on values; the theorems over whole runs are about those functions.

Where the code does not do what its comments or its design promise, the model follows the code:

- A client that hangs up right after its request leaves a half-open stream: its socket is closed
  before it has a remote socket, so no CLSE is sent, and the OKAY of the far end finds nobody.
  `Guarantees.HastyClientStrands` is that run, `Guarantees.HalfOpenExactly` says exactly when a CLSE
  is on its way.
- `fdevent_set` says that it drops pending events that are no longer wanted; it drops the wanted
  ones (`EventLoop.UnwantedKept`, `EventLoop.UnwantedSignalled`).
- `OnTheFlyPrimeTable::GetNextPrime` promises the smallest larger prime; for a negative argument it
  returns -1 (`Primes.OnTheFlyPrimeTable.GetNextPrime`, `Primes.NextPrimeOfNegative`).
- The overrun check of `sync_recv` is a signed comparison; it stops an oversized chunk exactly when
  the size is below 2^31 (`SyncData.OverrunExact`).
- `local_socket_enqueue` closes the socket on EINTR, while the event function retries
  (`Engine.EintrCloses`; exactly when they part, `Engine.EintrFails`).
- A read handler whose local peer fails to write goes on with a socket that has been freed, exactly if
  nothing was queued at it (`Handlers.ReaderLosesSocket`, `Handlers.ReaderStays`).
- The event function calls `s->peer->ready` without a test; a WRTE for a socket that has no peer yet
  makes it crash (`Handlers.EarlyDataCrashes`, `Handlers.PeerlessDataCrashes`). It cannot happen while
  every WRTE is for a socket with a remote peer (`Handlers.NoNullPeer`), nor between two ends that both
  run this code (`Guarantees.DrainHasPeer`).
- `sync_send` ignores a failed data write and still sends DONE; the far end takes the beginning of the
  file for all of it exactly if the write failed between two chunks (`SyncData.TruncatedUpload`).
- The on-the-fly prime test squares its divisor in an int: for primes from 46340 squared on the product
  overflows (`Primes.ProductsFit`); the odd-divisor test divides instead and stays small
  (`Primes.IsPrimeOdd`).
- A host request with a serial parses back exactly when the serial is colon-free and the command
  does not begin with digits and a colon, or the serial is a name and a port
  (`Requests.SerialRoundTrip`).

## Model

| member | source | states |
|---|---|---|
| `Guarantees.CreditConservation` | tools_for_phone/adb_1.0.29_linux_x86/sockets.c:130-189 | after every run, for every accepted stream and in either direction, at most one of FDE_READ at the sender, a WRTE in flight, a non-empty queue at the receiver, an OKAY in flight holds, exactly one while both ends are open; hence a queue never holds more than one packet, and a WRTE in flight meets an empty queue |
| `Guarantees.OrderedDelivery` | tools_for_phone/adb_1.0.29_linux_x86/sockets.c:227-308 | bytes written, then queued, then in flight are exactly the bytes sent; output is always a prefix of what was sent; a socket closed by its peer and not cut off by its own fd ends up with all of it |
| `EndToEnd.FdToFd` | tools_for_phone/adb_1.0.29_linux_x86/sockets.c:130-379 | for every stream and direction after every run: what the receiver's fd took is the beginning of what the sender's fd delivered; with what is queued and in flight it is all of it while both are up; a receiver closed by its peer and not cut off got all of it |
| `EndToEnd.BytesAccounted` | tools_for_phone/adb_1.0.29_linux_x86/sockets.c:130-379 | after every run a socket has sent exactly the bytes its fd delivered while it had a peer and written exactly those its fd took; what was delivered to it is written or queued until it is freed, and all written by then unless its own fd failed or hung up, whatever closed it |
| `EndToEnd.ActAccounts` | tools_for_phone/adb_1.0.29_linux_x86/sockets.c:130-379 | every single action accounts for the bytes the operating system delivers and takes during it |
| `EndToEnd.DialExactly` | tools_for_phone/adb_1.0.29_linux_x86/sockets.c:541-557 | the dialled destination goes out in one OPEN under an unused id, for a live socket without a peer; no other socket changes |
| `Guarantees.NoCrossTalk` | tools_for_phone/adb_1.0.29_linux_x86/adb.c:397-446 | every OKAY and WRTE in flight comes from the mate of the socket it is routed to, a CLSE for an established stream from a mate that has closed, no OPEN is pending for an established stream, and a live bound socket is bound to its mate |
| `Guarantees.HalfOpenExactly` | tools_for_phone/adb_1.0.29_linux_x86/sockets.c:227-261 | while both ends are online, a live socket whose mate has closed has that mate's CLSE on its way if and only if the mate ever had a remote socket; if it never had one, nothing of it is or was in flight and no CLSE will close the live one |
| `Guarantees.HastyClientStrands` | tools_for_phone/adb_1.0.29_linux_x86/sockets.c:562-579 | the run OPEN, close, accept, OKAY of a client that hangs up right after its request ends with both ends online, its socket gone, the service socket live and both channels empty |
| `Guarantees.DrainHasPeer` | tools_for_phone/adb_1.0.29_linux_x86/sockets.c:310-316 | after every run of two ends that both run this code, a live socket with data to drain has a peer to call |
| `Guarantees.RunRefines` | tools_for_phone/adb_1.0.29_linux_x86/adb.c:364-453 | multiplexing is invisible: what any run of the two endpoints does to an established stream is a run of that stream on its own |
| `Guarantees.ChannelIsFifo` | tools_for_phone/adb_1.0.29_linux_x86/transport.c:212-240 | what an end has taken off its channel, then what is on its way, are the first packets the other end sent, and all of them while the sender is online |
| `Guarantees.OfflineSilent` | tools_for_phone/adb_1.0.29_linux_x86/adb.c:205-210 | once its transport is gone an end sends nothing more |
| `Guarantees.ActRefines` | tools_for_phone/adb_1.0.29_linux_x86/adb.c:364-453 | one handler invocation is, for each stream, a sequence of enabled moves of that stream |
| `Guarantees.PacketPaid` | tools_for_phone/adb_1.0.29_linux_x86/adb.c:397-446 | any packet at all causes at most one CLSE, a CLSE only by retiring the live socket it names; the CLSE budget is kept |
| `Guarantees.AnswersAreFrugal` | tools_for_phone/adb_1.0.29_linux_x86/sockets.c:488-506 | in every handler of a socket a CLSE is paid for by the remote socket that dies |
| `Guarantees.RunPaid` | tools_for_phone/adb_1.0.29_linux_x86/sockets.c:488-539 | after every run CLSEs sent plus remote sockets alive are at most remote sockets created plus OPENs received |
| `Guarantees.ClosesAreEmitted` | tools_for_phone/adb_1.0.29_linux_x86/sockets.c:488-506 | over every run the count of CLSE packets is the number of CLSE packets put on the channel |
| `Guarantees.CloseQuiescence` | tools_for_phone/adb_1.0.29_linux_x86/adb.c:397-431 | the number of CLSE packets either end ever puts on its channel is bounded by remote sockets created plus OPENs received |
| `Network.RunInv` | tools_for_phone/adb_1.0.29_linux_x86/adb.c:364-453 | the global invariant (every stream good, mates a bijection, ids unique and never reissued, everything in flight accounted for) holds after every run |
| `Network.ActInv` | tools_for_phone/adb_1.0.29_linux_x86/adb.c:364-453 | every handler invocation at one end keeps the global invariant |
| `Network.AcceptInv` | tools_for_phone/adb_1.0.29_linux_x86/adb.c:397-412 | accepting an OPEN, whether its sender still waits or has closed since, keeps the global invariant (so the new stream starts with one credit) and leaves every other stream exactly as it was |
| `Network.RefuseInv` | tools_for_phone/adb_1.0.29_linux_x86/adb.c:397-412 | refusing an OPEN with CLSE(0, id) keeps the global invariant and leaves every established stream exactly as it was |
| `Network.RefusedInv` | tools_for_phone/adb_1.0.29_linux_x86/adb.c:426-431 | a CLSE for a socket without a stream keeps the global invariant and leaves every established stream exactly as it was |
| `Network.DialInv` | tools_for_phone/adb_1.0.29_linux_x86/sockets.c:541-557 | sending an OPEN for a new socket keeps the global invariant, ids included, and leaves every established stream exactly as it was |
| `Network.GiveUpInv` | tools_for_phone/adb_1.0.29_linux_x86/sockets.c:374-378 | a live socket that closes on its own account at any time, with a peer or before it has one, keeps the global invariant |
| `Network.LeaveInv` | tools_for_phone/adb_1.0.29_linux_x86/sockets.c:573-579 | an opener that closes before its stream exists keeps the global invariant with its OPEN still in flight, and leaves every established stream exactly as it was |
| `Network.DropInv` | tools_for_phone/adb_1.0.29_linux_x86/adb.c:205-210 | losing the transport, with any suffix of the outgoing packets, keeps the global invariant |
| `Network.ReapInv` | tools_for_phone/adb_1.0.29_linux_x86/sockets.c:112-128 | closing what is left after the transport is gone keeps the global invariant |
| `Streams.FlowStep` | tools_for_phone/adb_1.0.29_linux_x86/sockets.c:130-379 | every move of one socket keeps the credit, link and channel-shape invariant of its stream |
| `Streams.OrderStep` | tools_for_phone/adb_1.0.29_linux_x86/sockets.c:130-379 | every move keeps the ledger of bytes in both directions |
| `Streams.ReadIsMoves` | tools_for_phone/adb_1.0.29_linux_x86/sockets.c:319-379 | a read event on a bound socket is a sequence of enabled moves of its stream, with the same packets and the same socket afterwards |
| `Streams.ReadExactly` | tools_for_phone/adb_1.0.29_linux_x86/sockets.c:347-378 | a read event on a bound socket sends every byte read in one WRTE, then a CLSE exactly if the file has ended |
| `Streams.DataExactly` | tools_for_phone/adb_1.0.29_linux_x86/sockets.c:130-181 | a WRTE is answered with OKAY exactly if the fd takes all of it at once, with CLSE exactly if a write fails before that, and otherwise kept without an answer |
| `Streams.GiveUpIsMoves` | tools_for_phone/adb_1.0.29_linux_x86/sockets.c:227-261 | a close on the socket's own account is an enabled move of its stream: with CLSE if it has a peer, without if it has none |
| `Streams.WriteIsMoves` | tools_for_phone/adb_1.0.29_linux_x86/sockets.c:272-317 | a write event on a bound socket is a sequence of enabled moves of its stream, with the same packets and the same socket afterwards |
| `Streams.DrainExactly` | tools_for_phone/adb_1.0.29_linux_x86/sockets.c:272-317 | a write event answers OKAY exactly if the queue is drained and closes with CLSE exactly if a write fails before that |
| `Streams.FlushIsMoves` | tools_for_phone/adb_1.0.29_linux_x86/sockets.c:303-308 | a write event on a closing socket is an enabled move of its stream |
| `Streams.FlushExactly` | tools_for_phone/adb_1.0.29_linux_x86/sockets.c:285-308 | a closing socket is freed exactly if its queue is drained or a write fails |
| `Streams.TakeIsMoves` | tools_for_phone/adb_1.0.29_linux_x86/adb.c:414-446 | given the flow invariant, handling the next OKAY, WRTE or CLSE is a sequence of enabled moves of the stream it belongs to |
| `Streams.GoodAccepted` | tools_for_phone/adb_1.0.29_linux_x86/adb.c:397-412 | a freshly accepted stream, its opener waiting or already gone, satisfies the stream invariant |
| `Endpoints.DrainDropsPrefix` | tools_for_phone/adb_1.0.29_linux_x86/sockets.c:275-305 | accepting k bytes removes exactly the first k queued bytes, and empties the queue exactly when k is all of them |
| `Endpoints.CnxnExactly` | tools_for_phone/adb_1.0.29_linux_x86/adb.c:386-395 | after CNXN an endpoint is online; a device answers with exactly one CNXN, a host with nothing; if it was online every live bound socket is let go with its queue intact and no other changes |
| `Endpoints.OfflineExactly` | tools_for_phone/adb_1.0.29_linux_x86/adb.c:205-210 | going offline lets go of exactly the bound sockets, the sweep after it of all that are left; no queued byte is lost |
| `Engine.WriteLoop` | tools_for_phone/adb_1.0.29_linux_x86/sockets.c:140-157 | the loop of short writes, with and without the EINTR retry, refines WriteOutcome |
| `Engine.WriteExactly` | tools_for_phone/adb_1.0.29_linux_x86/sockets.c:142-161 | the fd takes what the answers before the one that stops the loop took, up to the length; the loop fails exactly if bytes are left and that answer is an error, 0, or EINTR without a retry, never on EAGAIN |
| `Engine.WriteUses` | tools_for_phone/adb_1.0.29_linux_x86/sockets.c:142-161 | which answers it has used up |
| `Engine.EintrFails` | tools_for_phone/adb_1.0.29_linux_x86/sockets.c:142-161 | the enqueue loop fails exactly where the drain loop fails and on every EINTR it meets before the bytes are out; without one they agree |
| `Engine.EintrCloses` | tools_for_phone/adb_1.0.29_linux_x86/sockets.c:148-157 | on one EINTR local_socket_enqueue closes a stream that the drain loop would have kept |
| `Engine.DrainLoop` | tools_for_phone/adb_1.0.29_linux_x86/sockets.c:275-305 | draining packet by packet leaves the queue less exactly the bytes the fd took |
| `Engine.DrainExactly` | tools_for_phone/adb_1.0.29_linux_x86/sockets.c:275-305 | a drain fails exactly if bytes are left and the answer that stops it is an error or 0; every earlier answer that took anything moves at least one byte, across packets too |
| `Engine.ReadLoop` | tools_for_phone/adb_1.0.29_linux_x86/sockets.c:319-347 | filling one packet collects the bytes in order, stops at end of file or when full |
| `Engine.FillExactly` | tools_for_phone/adb_1.0.29_linux_x86/sockets.c:327-346 | a packet holds what the answers before the one that stops the loop delivered, in order, up to its size; the file has ended exactly if there is room left and that answer is an error, 0 bytes or the end |
| `Engine.Process.FindLocalSocket` | tools_for_phone/adb_1.0.29_linux_x86/sockets.c:62-77 | finds the live socket with that id exactly when there is one |
| `Engine.Process.Install` | tools_for_phone/adb_1.0.29_linux_x86/sockets.c:89-97 | the new socket is live under the next id, and no other changes |
| `Engine.Process.CloseSocket` | tools_for_phone/adb_1.0.29_linux_x86/sockets.c:227-261 | CLSE to the peer; off the live list, onto the closing list only with data queued; the lists still mirror the endpoint |
| `Engine.Process.Enqueue` | tools_for_phone/adb_1.0.29_linux_x86/sockets.c:130-181 | refines OnData: write at once, queue or give up, and whether the sender may go on |
| `Engine.Process.EventRead` | tools_for_phone/adb_1.0.29_linux_x86/sockets.c:319-379 | refines OnRead: at most one WRTE, FDE_READ off until its OKAY, close on end of file |
| `Engine.Process.EventWrite` | tools_for_phone/adb_1.0.29_linux_x86/sockets.c:272-317 | refines OnWrite: one OKAY for a drained backlog, close on a failure |
| `Engine.Process.EventFlush` | tools_for_phone/adb_1.0.29_linux_x86/sockets.c:272-308 | refines OnFlush: a closing socket goes away once drained or broken |
| `Engine.Process.EventHangUp` | tools_for_phone/adb_1.0.29_linux_x86/sockets.c:319-379 | the end of the file on a closing socket frees it, anything else it reads is dropped |
| `Engine.Process.TakeOkay` | tools_for_phone/adb_1.0.29_linux_x86/adb.c:413-423 | the first OKAY gives a socket its remote peer, every OKAY lets it read |
| `Engine.Process.ConnectToRemote` | tools_for_phone/adb_1.0.29_linux_x86/sockets.c:541-557 | a peerless live socket and one OPEN that names it |
| `Engine.Process.Disconnect` | tools_for_phone/adb_1.0.29_linux_x86/sockets.c:508-520 | every socket with a remote peer is retired without a CLSE, all others stay |
| `Engine.Process.HandleStreamPacket` | tools_for_phone/adb_1.0.29_linux_x86/adb.c:414-446 | OKAY, WRTE and CLSE do to the lists and the wire what HandlePacket says |
| `Engine.Process.HandleSessionPacket` | tools_for_phone/adb_1.0.29_linux_x86/adb.c:386-412 | CNXN and OPEN do to the lists and the wire what HandlePacket says |
| `SocketTable.ClosedValid` | tools_for_phone/adb_1.0.29_linux_x86/sockets.c:227-261 | closing a local socket, whatever its peer, keeps the invariant |
| `SocketTable.FarClosedValid` | tools_for_phone/adb_1.0.29_linux_x86/sockets.c:508-520 | closing a remote or smart socket keeps the invariant |
| `SocketTable.ClosedFrame` | tools_for_phone/adb_1.0.29_linux_x86/sockets.c:227-261 | closing a socket touches it and its peer only; either survives only with data queued, marked closing |
| `SocketTable.ClosedExactly` | tools_for_phone/adb_1.0.29_linux_x86/sockets.c:227-261 | a closed socket and its local peer live on, closing, exactly if they have data queued; a remote peer sends exactly one packet, its CLSE; nothing else is sent or leaked |
| `SocketTable.FarClosedExactly` | tools_for_phone/adb_1.0.29_linux_x86/sockets.c:508-520 | a remote or smart socket goes without sending; its local peer lives on exactly if it has data queued |
| `SocketTable.ClosedKeeps` | tools_for_phone/adb_1.0.29_linux_x86/sockets.c:199-261 | closing a local socket and its peer frees every packet they drop exactly once and leaves the others where they are |
| `SocketTable.FarClosedKeeps` | tools_for_phone/adb_1.0.29_linux_x86/sockets.c:815-827 | likewise for a smart socket with its packet, and for a remote socket |
| `SocketTable.Table.Dispose` | tools_for_phone/adb_1.0.29_linux_x86/sockets.c:211-216 | the loop frees each packet of the queue once |
| `SocketTable.Table.CloseLocked` | tools_for_phone/adb_1.0.29_linux_x86/sockets.c:227-261 | the re-entrant close terminates, never takes the lock it holds, and does what Closed says, packets included |
| `SocketTable.Table.LocalSocketClose` | tools_for_phone/adb_1.0.29_linux_x86/sockets.c:191-196 | takes the lock only when it is free and leaves it free |
| `SocketTable.Table.CloseVia` | tools_for_phone/adb_1.0.29_linux_x86/sockets.c:573-579 | a rigged close is the plain close of the unrigged socket |
| `SocketTable.Table.FarClose` | tools_for_phone/adb_1.0.29_linux_x86/sockets.c:508-520 | the local peer is closed first and survives or not by its own queue; the remote or smart socket is gone, its packet freed |
| `SocketTable.Table.CloseAllSockets` | tools_for_phone/adb_1.0.29_linux_x86/sockets.c:112-128 | the restarting walk terminates with no live socket bound to the transport directly or through its peer; sockets not bound to it are untouched, every socket with data queued is still there with its queue, and no packet is lost or freed twice |
| `Handlers.PacketOwnership` | tools_for_phone/adb_1.0.29_linux_x86/adb.c:364-453 | after every run of the handlers and the two threads each packet ever allocated is in exactly one place: one position of one socket's queue, one of the two channels, freed once, or leaked; no two sockets share one |
| `Handlers.RunOwned` | tools_for_phone/adb_1.0.29_linux_x86/adb.c:364-453 | the inductive invariant behind it, together with the close invariant, over every run |
| `Handlers.CloseInvariant` | tools_for_phone/adb_1.0.29_linux_x86/sockets.c:191-261 | after every run peer links are symmetric, each local socket is on exactly one list, closing holds exactly on the closing list and implies no peer, and rigged sockets have no peer |
| `Handlers.NextValid` | tools_for_phone/adb_1.0.29_linux_x86/sockets.c:562-579 | every handler that creates, links, rigs, feeds, drains or closes sockets keeps the close invariant |
| `Handlers.EnqueueExactly` | tools_for_phone/adb_1.0.29_linux_x86/sockets.c:130-181 | in terms of the answers alone: behind others the packet is queued; else freed if the fd takes it all, queued with what is left if the fd blocks, leaked with the socket closed and its peer told if a write fails |
| `Handlers.DrainedExactly` | tools_for_phone/adb_1.0.29_linux_x86/sockets.c:275-305 | the drain fails exactly if packets are left and the answer that stops it is an error or 0, and is complete if earlier answers took something often enough |
| `Handlers.AfterDrainExactly` | tools_for_phone/adb_1.0.29_linux_x86/sockets.c:301-305 | the packets written whole are freed in order, the others stay queued, nothing is sent or leaked |
| `Handlers.SettledExactly` | tools_for_phone/adb_1.0.29_linux_x86/sockets.c:289-316 | a drained live socket sends its remote peer one packet; a drained closing one, and any that failed, is closed; otherwise nothing changes |
| `Handlers.RequestedExactly` | tools_for_phone/adb_1.0.29_linux_x86/sockets.c:785-799 | a remote request sends one packet and leaves the client's socket live, rigged, without a peer and bound to the transport; the smart socket and its packet are gone |
| `Handlers.HostedExactly` | tools_for_phone/adb_1.0.29_linux_x86/sockets.c:749-757 | a host request makes the client's socket and the service's each other's peers, live and unrigged; the smart socket and its packet are gone |
| `Handlers.CollectedExactly` | tools_for_phone/adb_1.0.29_linux_x86/sockets.c:648-664 | the first packet of a request is kept, later ones are added to it and freed, too much is refused |
| `Handlers.ServedExactly` | tools_for_phone/adb_1.0.29_linux_x86/sockets.c:712-807 | what each kind of request does to the sockets and what the enqueueing socket is told |
| `Handlers.NewExactly` | tools_for_phone/adb_1.0.29_linux_x86/adb.c:400-412 | new service, client and forwarded sockets are live, unrigged, empty and linked as they should be; all others stay |
| `Handlers.BoundExactly` | tools_for_phone/adb_1.0.29_linux_x86/adb.c:413-423 | the first OKAY unrigs a peerless socket and gives it a remote peer; later ones change nothing |
| `Handlers.FilledExactly` | tools_for_phone/adb_1.0.29_linux_x86/sockets.c:347-352 | an empty packet, or one without a peer to take it, is freed; a remote peer sends it; a smart one collects it |
| `Handlers.EofExactly` | tools_for_phone/adb_1.0.29_linux_x86/sockets.c:374-378 | the end of the file takes a reader that is still there off the live list, telling its remote peer |
| `Handlers.DropAllExactly` | tools_for_phone/adb_1.0.29_linux_x86/transport.c:83-94 | after run_transport_disconnects none of the remote sockets on the ring is left |
| `Handlers.SweepExactly` | tools_for_phone/adb_1.0.29_linux_x86/sockets.c:112-128 | after close_all_sockets none of the sockets it found is live |
| `Handlers.HandleSends` | tools_for_phone/adb_1.0.29_linux_x86/adb.c:364-453 | how many packets each message makes the main loop send, and that the message itself is forwarded or freed |
| `Handlers.PlacedKeeps` | tools_for_phone/adb_1.0.29_linux_x86/sockets.c:142-178 | the packet of local_socket_enqueue ends up freed, queued, or leaked by the failed write, in every branch exactly one of them |
| `Handlers.EnqueueKeeps` | tools_for_phone/adb_1.0.29_linux_x86/sockets.c:130-181 | so does a packet behind others |
| `Handlers.EventWriteKeeps` | tools_for_phone/adb_1.0.29_linux_x86/sockets.c:272-317 | draining frees what is written whole, once, and keeps the rest, also when the socket is closed by it |
| `Handlers.SmartEnqueueKeeps` | tools_for_phone/adb_1.0.29_linux_x86/sockets.c:637-807 | the packet is kept or copied and freed; every way the request ends frees the smart socket's packet at most once |
| `Handlers.EventReadKeeps` | tools_for_phone/adb_1.0.29_linux_x86/sockets.c:320-378 | the packet of a read event is freed, handed to the peer or leaked by its failed write, and closing afterwards frees no packet twice |
| `Handlers.HandleKeeps` | tools_for_phone/adb_1.0.29_linux_x86/adb.c:364-453 | whatever a packet from the transport says, handle_packet frees it, forwards it, queues it or leaks it, exactly one of them |
| `Handlers.ArriveOwned` | tools_for_phone/adb_1.0.29_linux_x86/transport.c:255-308 | the output thread passes each packet on or frees it |
| `Handlers.DepartKeeps` | tools_for_phone/adb_1.0.29_linux_x86/transport.c:310-349 | the input thread frees each packet it takes once |
| `Handlers.ReaderStays` | tools_for_phone/adb_1.0.29_linux_x86/sockets.c:350-378 | a read handler that was not told otherwise still has its socket if and only if it is not undermined: its peer is a local socket whose write fails and nothing is queued at its own |
| `Handlers.ReaderLosesSocket` | tools_for_phone/adb_1.0.29_linux_x86/sockets.c:154-157 | the run of a client whose host service breaks: its read handler is told to go on although its socket is freed |
| `Handlers.EarlyDataCrashes` | tools_for_phone/adb_1.0.29_linux_x86/sockets.c:310-316 | the run forwarded connection, CNXN, WRTE before the first OKAY leaves a live socket whose next drain calls through a null peer |
| `Handlers.PeerlessDataCrashes` | tools_for_phone/adb_1.0.29_linux_x86/adb.c:433-446 | so does, in any state, data that has to be queued for a live socket without a peer |
| `Handlers.NoNullPeer` | tools_for_phone/adb_1.0.29_linux_x86/sockets.c:310-316 | no drain meets a null peer in any run in which every WRTE is for a socket with a remote peer |
| `Handlers.LocalEnqueue` | tools_for_phone/adb_1.0.29_linux_x86/sockets.c:130-181 | refines Enqueue on the heap |
| `Handlers.OnWrte` | tools_for_phone/adb_1.0.29_linux_x86/adb.c:433-446 | refines the WRTE case: no put_apacket once a socket has taken the packet |
| `Handlers.DrainPackets` | tools_for_phone/adb_1.0.29_linux_x86/sockets.c:275-305 | the two nested loops free the packets written whole and stop where the fd blocks or fails |
| `Handlers.OnWritable` | tools_for_phone/adb_1.0.29_linux_x86/sockets.c:272-317 | refines EventWrite on the heap |
| `Handlers.OnRequest` | tools_for_phone/adb_1.0.29_linux_x86/sockets.c:637-807 | refines SmartEnqueue on the heap |
| `Handlers.Serve` | tools_for_phone/adb_1.0.29_linux_x86/sockets.c:712-807 | refines Served: host service, remote service, next request, or failure |
| `Handlers.OnReadable` | tools_for_phone/adb_1.0.29_linux_x86/sockets.c:319-379 | refines EventRead on the heap, except for the undermined read, after which the code would use freed memory |
| `Disconnects.Transport.AddDisconnect` | tools_for_phone/adb_1.0.29_linux_x86/transport.c:723-731 | the ring gains the node at its end |
| `Disconnects.Transport.RemoveDisconnect` | tools_for_phone/adb_1.0.29_linux_x86/transport.c:733-738 | the ring loses exactly that node, which points at itself afterwards |
| `Disconnects.Transport.RunDisconnects` | tools_for_phone/adb_1.0.29_linux_x86/transport.c:83-94 | every callback runs exactly once, in order, and the ring ends empty although each unlinks itself |
| `Threads.ShutdownOnce` | tools_for_phone/adb_1.0.29_linux_x86/transport.c:65-81 | over all interleavings the kick runs at most once, the removal is posted at most once and exactly when both threads have made their last access |
| `Threads.ShutdownCompletes` | tools_for_phone/adb_1.0.29_linux_x86/transport.c:303-307 | after every run, once both threads have left their loops, their own last steps get the removal posted, the transport kicked |
| `Threads.OrderlyLife` | tools_for_phone/adb_1.0.29_linux_x86/transport.c:698-721 | every step of kicking and unreferencing keeps the reference count equal to the threads still running and the kick flag equal to kicks done or about to happen |
| `Threads.HandshakeSafety` | tools_for_phone/adb_1.0.29_linux_x86/transport.c:310-359 | over all interleavings the first message written is CNXN, what is written is a prefix of what the main loop sent and all of it if SYNC(0,0) was reached, and nothing is dropped for want of the matching SYNC |
| `Threads.HeardInOrder` | tools_for_phone/adb_1.0.29_linux_x86/transport.c:272-300 | over all interleavings: what the main loop has taken, then what is on its way, are the packets read from the far end, in order; all of them unless a write to the main loop failed, and then all but the last |
| `Threads.SaidExactly` | tools_for_phone/adb_1.0.29_linux_x86/adb.c:374-395 | over all interleavings everything the main loop and the sweep had to say was handed to send_packet, in order |
| `Threads.RunHandshake` | tools_for_phone/adb_1.0.29_linux_x86/adb.c:374-395 | SYNC(1, token) comes first and SYNC(0, 0) last on both channels, in every interleaving |
| `EventLoop.LoopConsistent` | tools_for_phone/adb_1.0.29_linux_x86/fdevent.c:681-695 | after every run the loop is consistent: every fd select can report is registered and below select_n, which is at most the table size, and every pending fdevent is active with events |
| `EventLoop.RemovedNeverCalled` | tools_for_phone/adb_1.0.29_linux_x86/fdevent.c:611-625 | once removed, even by another callback of the same round, an fdevent's callback does not run in the rest of that round nor in any later turn, until it is installed again |
| `EventLoop.RoundValid` | tools_for_phone/adb_1.0.29_linux_x86/fdevent.c:681-695 | any interplay of callbacks that install, change and remove fdevents keeps the loop consistent |
| `EventLoop.ProcessedValid` | tools_for_phone/adb_1.0.29_linux_x86/fdevent.c:365-424 | collecting events keeps the loop consistent, however select returns |
| `EventLoop.ProcessDelivers` | tools_for_phone/adb_1.0.29_linux_x86/fdevent.c:365-424 | every active fdevent gets exactly the events it is owed on top of those it had: what select found for its fd, or Read if its fd is bad after EBADF or a count of 0; it is pending exactly if it has events, once in the list |
| `EventLoop.ProcessOrders` | tools_for_phone/adb_1.0.29_linux_x86/fdevent.c:402-422 | what was pending keeps its place; behind it come the fdevents with new events, by increasing fd |
| `EventLoop.FoundExactly` | tools_for_phone/adb_1.0.29_linux_x86/fdevent.c:406-408 | each of the three bits of an fd stands for its own event |
| `EventLoop.InstalledValid` | tools_for_phone/adb_1.0.29_linux_x86/fdevent.c:593-609 | installing keeps it consistent, including table growth |
| `EventLoop.InstalledExactly` | tools_for_phone/adb_1.0.29_linux_x86/fdevent.c:593-609 | an installed fdevent is active on its fd and wants nothing; the pending list and all others stay |
| `EventLoop.RemovedValid` | tools_for_phone/adb_1.0.29_linux_x86/fdevent.c:611-625 | removing keeps it consistent, although select_n is recomputed before the table entry goes |
| `EventLoop.RemovedExactly` | tools_for_phone/adb_1.0.29_linux_x86/fdevent.c:611-625 | a removed fdevent is inactive with nothing pending, its fd in no set; all others stay |
| `EventLoop.ChangedValid` | tools_for_phone/adb_1.0.29_linux_x86/fdevent.c:628-652 | changing the wanted events keeps it consistent |
| `EventLoop.ChangedExactly` | tools_for_phone/adb_1.0.29_linux_x86/fdevent.c:628-652 | its fd is in each select set exactly if the event is wanted now; all others stay |
| `EventLoop.UnwantedKept` | tools_for_phone/adb_1.0.29_linux_x86/fdevent.c:641-651 | no unwanted event stays pending exactly when everything pending is wanted, and then nothing stays pending |
| `EventLoop.UnwantedSignalled` | tools_for_phone/adb_1.0.29_linux_x86/fdevent.c:641-651 | giving up Write with Read and Write pending leaves exactly Write pending |
| `EventLoop.DequeuedValid` | tools_for_phone/adb_1.0.29_linux_x86/fdevent.c:492-515 | the next callback belongs to an active fdevent with events, and calling it keeps the loop consistent |
| `EventLoop.DequeuedExactly` | tools_for_phone/adb_1.0.29_linux_x86/fdevent.c:492-515 | the callback about to run is off the list with no events left; the rest of the list and all others stay |
| `EventLoop.ScanDelivers` | tools_for_phone/adb_1.0.29_linux_x86/fdevent.c:402-422 | a full scan gives each active fdevent exactly the bits of its own fd |
| `EventLoop.ScanNothing` | tools_for_phone/adb_1.0.29_linux_x86/fdevent.c:396-424 | once no bit is left the rest of the scan changes nothing |
| `EventLoop.Poller.GrowTable` | tools_for_phone/adb_1.0.29_linux_x86/fdevent.c:428-454 | the table is doubled from 256 until the fd fits; new slots are empty, old ones kept |
| `EventLoop.Poller.Install` | tools_for_phone/adb_1.0.29_linux_x86/fdevent.c:593-609 | refines Installed and keeps the loop consistent |
| `EventLoop.Poller.HighestFd` | tools_for_phone/adb_1.0.29_linux_x86/fdevent.c:267-279 | the highest registered fd below select_n, or 0 |
| `EventLoop.Poller.Remove` | tools_for_phone/adb_1.0.29_linux_x86/fdevent.c:611-625 | refines Removed and keeps the loop consistent |
| `EventLoop.Poller.Set` | tools_for_phone/adb_1.0.29_linux_x86/fdevent.c:628-652 | refines Changed on active and inactive fdevents and keeps the loop consistent |
| `EventLoop.Poller.FdCheck` | tools_for_phone/adb_1.0.29_linux_x86/fdevent.c:305-321 | marks exactly the registered bad fds and returns how many there are |
| `EventLoop.Poller.CollectOne` | tools_for_phone/adb_1.0.29_linux_x86/fdevent.c:396-424 | queues the events of one fd once and counts its bits |
| `EventLoop.Poller.Collect` | tools_for_phone/adb_1.0.29_linux_x86/fdevent.c:396-424 | the countdown that stops early delivers what a full scan delivers |
| `EventLoop.Poller.CallNext` | tools_for_phone/adb_1.0.29_linux_x86/fdevent.c:492-515 | the head of the list is called with all its pending events, and only an active fdevent |
| `EventLoop.Poller.Process` | tools_for_phone/adb_1.0.29_linux_x86/fdevent.c:365-424 | refines Processed for every result of select, so the missing-fde abort is not reached |
| `Framing.WireOrder` | tools_for_phone/adb_1.0.29_linux_x86/transport_local.c:28-38 | a word is little-endian on the wire whichever machine wrote it |
| `Framing.WireLoad` | tools_for_phone/adb_1.0.29_linux_x86/transport_local.c:28-38 | and comes back on whichever machine reads it |
| `Framing.Checksum` | tools_for_phone/adb_1.0.29_linux_x86/transport.c:1064-1081 | the loop computes the sum of the payload, which never wraps for a legal payload |
| `Framing.SumBound` | tools_for_phone/adb_1.0.29_linux_x86/transport.c:212-226 | the sum of n bytes is at most 255 n |
| `Framing.MagicIsComplement` | tools_for_phone/adb_1.0.29_linux_x86/transport.c:218-218 | the magic word is the command with every bit inverted |
| `Framing.HeaderRoundTrip` | tools_for_phone/adb_1.0.29_linux_x86/transport_local.c:28-102 | a header written by either kind of machine is read back by either kind |
| `Framing.HeaderUnique` | tools_for_phone/adb_1.0.29_linux_x86/transport_local.c:28-102 | and the 24 bytes are determined by what is read from them |
| `Framing.RoundTrip` | tools_for_phone/adb_1.0.29_linux_x86/transport_local.c:55-102 | a packet sealed by send_packet is read back as it was, leaving what follows it |
| `Framing.DecodeSound` | tools_for_phone/adb_1.0.29_linux_x86/transport_local.c:55-84 | whatever is accepted is a well-formed packet, byte for byte |
| `Framing.RoundTripAll` | tools_for_phone/adb_1.0.29_linux_x86/transport_local.c:55-102 | any sequence of packets survives the wire, whatever the two byte orders |
| `Framing.PrefixDelivered` | tools_for_phone/adb_1.0.29_linux_x86/transport_local.c:55-102 | whatever part of the bytes arrives, the packets that come out are the first of those sent, and all of them if all bytes arrive |
| `Framing.DamageDetected` | tools_for_phone/adb_1.0.29_linux_x86/transport.c:1064-1081 | a packet with one payload byte changed is rejected |
| `Framing.WriteX` | tools_for_phone/adb_1.0.29_linux_x86/transport.c:1021-1047 | under any schedule of short writes and EINTR a prefix goes out, all of it exactly when the answers serve it |
| `Framing.ReadX` | tools_for_phone/adb_1.0.29_linux_x86/transport.c:989-1019 | under any schedule the next bytes of the stream are read, all of them or a failure, and nothing is lost |
| `Framing.MoveX` | tools_for_phone/adb_1.0.29_linux_x86/transport.c:989-1047 | the common loop gets exactly as far as the answers let it |
| `Framing.ProgressExactly` | tools_for_phone/adb_1.0.29_linux_x86/transport.c:989-1047 | what the answers before the first failure or 0 move, up to what is wanted; EINTR is retried |
| `Framing.ServesFewer` | tools_for_phone/adb_1.0.29_linux_x86/transport.c:989-1047 | answers good for many bytes are good for fewer |
| `Framing.PatientServes` | tools_for_phone/adb_1.0.29_linux_x86/transport.c:989-1047 | enough answers that move at least one byte each serve any request |
| `Framing.RemoteWrite` | tools_for_phone/adb_1.0.29_linux_x86/transport_local.c:86-102 | the encoded packet goes out whole, or a prefix of it on a failure |
| `Framing.ReadPayload` | tools_for_phone/adb_1.0.29_linux_x86/transport_local.c:73-84 | payload and checksum, refining ReadBody; incomplete only if a read is not served or the stream ends |
| `Framing.RemoteRead` | tools_for_phone/adb_1.0.29_linux_x86/transport_local.c:55-84 | a packet it yields is the one the stream starts with; it yields it whenever there is a good one and the reads are served; without a failed read it rejects only what does not decode |
| `Framing.WritePackets` | tools_for_phone/adb_1.0.29_linux_x86/transport.c:339-345 | writing a sequence under any schedule puts a prefix of its bytes on the socket, all of them if the writes are served |
| `Framing.ReadPackets` | tools_for_phone/adb_1.0.29_linux_x86/transport.c:274-291 | reading until a failure yields the first packets of the stream, all of them if the reads are served |
| `Framing.Exchange` | tools_for_phone/adb_1.0.29_linux_x86/transport_local.c:55-102 | any sequence, written and read under any schedules and byte orders, comes out as its own prefix, whole if everything is served |
| `Link.LinkIsFifo` | tools_for_phone/adb_1.0.29_linux_x86/transport.c:255-359 | for every interleaving of one end's threads and whatever part of their bytes arrives, the far end decodes the first packets the main loop handed to send_packet, in order, and all of them after an orderly end without loss |
| `Link.MainToMain` | tools_for_phone/adb_1.0.29_linux_x86/transport.c:255-359 | over all interleavings at both ends and any loss of bytes: what the far main loop has taken, then what is on its way to it, are the first packets this main loop had to say; all of them if nothing was lost or failed: the channel that Network assumes |
| `Link.MarshalRoundTrip` | tools_for_phone/adb_1.0.29_linux_x86/adb.c:252-303 | every message is recognised by handle_packet as the one that was sent |
| `Requests.Unhex` | tools_for_phone/adb_1.0.29_linux_x86/sockets.c:581-609 | the loop computes the value of the digits mod 2^32, 0xffffffff on any other character |
| `Requests.HexRoundTrip` | tools_for_phone/adb_1.0.29_linux_x86/adb_client.c:177-198 | the four-digit prefix of every length is read back as that length |
| `Requests.SmartSocket.Enqueue` | tools_for_phone/adb_1.0.29_linux_x86/sockets.c:637-680 | chunks accumulate up to one packet; the verdict depends on all bytes so far only |
| `Requests.SmartSocket.Reset` | tools_for_phone/adb_1.0.29_linux_x86/sockets.c:712-729 | after a transport request the socket has no bytes, as a fresh one |
| `Requests.FeedAll` | tools_for_phone/adb_1.0.29_linux_x86/sockets.c:637-680 | feeding chunks to the object gives the verdicts that Feed gives |
| `Requests.PrefixWaits` | tools_for_phone/adb_1.0.29_linux_x86/sockets.c:637-680 | no proper prefix of a request is acted on, the whole is |
| `Requests.JudgeExactly` | tools_for_phone/adb_1.0.29_linux_x86/sockets.c:666-684 | wait for four characters; give up if they are not all hexadecimal digits or say 0 or more than 1024; else wait for that many more and act on them up to the first NUL |
| `Requests.CStringExactly` | tools_for_phone/adb_1.0.29_linux_x86/sockets.c:681-684 | the service is the text before the first NUL |
| `Requests.ChunkIndependence` | tools_for_phone/adb_1.0.29_linux_x86/sockets.c:637-680 | however a request is cut into non-empty chunks, the socket acts once, on the last, with the same service |
| `Requests.SkipHostSerial` | tools_for_phone/adb_1.0.29_linux_x86/sockets.c:615-635 | the two loops find the colon that ends the serial |
| `Requests.SerialEndExact` | tools_for_phone/adb_1.0.29_linux_x86/sockets.c:615-635 | the serial is cut off where the printer ended it exactly under the stated condition |
| `Requests.SerialRoundTrip` | tools_for_phone/adb_1.0.29_linux_x86/commandline.c:357-370 | printing and parsing a host request gives back the serial and command exactly under that condition |
| `Requests.TypeRoundTrip` | tools_for_phone/adb_1.0.29_linux_x86/commandline.c:357-370 | without a serial the transport type comes back exactly when the syntax can express it |
| `Requests.HostRequestExactly` | tools_for_phone/adb_1.0.29_linux_x86/sockets.c:687-708 | only the four prefixes make a host request |
| `Requests.RequestDelivered` | tools_for_phone/adb_1.0.29_linux_x86/adb_client.c:177-198 | from the client's bytes in any chunks to the same serial, type and command at the server |
| `SyncData.PiecesPartition` | tools_for_phone/adb_1.0.29_linux_x86/file_sync_client.c:247-270 | the chunks make up the buffer, none is empty, none exceeds 64 KiB, all but the last are full |
| `SyncData.WriteNext` | tools_for_phone/adb_1.0.29_linux_x86/file_sync_client.c:247-270 | one chunk goes out whole or the write fails within it |
| `SyncData.WriteDataBuffer` | tools_for_phone/adb_1.0.29_linux_x86/file_sync_client.c:247-270 | a prefix of the chunks goes out, all of it exactly on success; total and total_bytes (mod 2^32) count the bytes whose chunks went out whole; it succeeds if the writes are served |
| `SyncData.SendData` | tools_for_phone/adb_1.0.29_linux_x86/file_sync_client.c:379-394 | DONE goes out after whatever part of the chunks did; the output is the whole upload if and only if no data write failed; with all writes served it is, and total_bytes grows by the length mod 2^32 |
| `SyncData.ReceiveEmit` | tools_for_phone/adb_1.0.29_linux_x86/file_sync_client.c:459-508 | any run of fitting chunks closed by DONE comes back joined; nothing after DONE is read |
| `SyncData.SyncRoundTrip` | tools_for_phone/adb_1.0.29_linux_x86/file_sync_client.c:459-508 | what sync_send makes of a buffer sync_recv turns back into that buffer, stopping at DONE |
| `SyncData.TruncatedUpload` | tools_for_phone/adb_1.0.29_linux_x86/file_sync_client.c:379-394 | an upload whose data write failed is received as complete if and only if it failed between two chunks, and then as the beginning of the file |
| `SyncData.CutExactly` | tools_for_phone/adb_1.0.29_linux_x86/file_sync_client.c:477-505 | of all prefixes of a run of chunks, exactly those that end where a chunk does are finished by DONE |
| `SyncData.ReceiveSound` | tools_for_phone/adb_1.0.29_linux_x86/file_sync_client.c:459-508 | only a run of fitting chunks closed by DONE is received as a whole file |
| `SyncData.OverrunExact` | tools_for_phone/adb_1.0.29_linux_x86/file_sync_client.c:484-491 | an oversized chunk is refused exactly when its size is below 2^31 |
| `SyncData.ReadRound` | tools_for_phone/adb_1.0.29_linux_x86/file_sync_client.c:478-496 | one round of reads refines NextRound on either kind of machine |
| `SyncData.RoundExactly` | tools_for_phone/adb_1.0.29_linux_x86/file_sync_client.c:483-496 | by the header at the head of the stream: DONE finishes, any id but DATA is a remote error, a size over the limit an overrun below 2^31, otherwise the data if all of it is there |
| `SyncData.SyncRecv` | tools_for_phone/adb_1.0.29_linux_x86/file_sync_client.c:477-505 | the loop writes a prefix of what the stream holds, all of it and the same ending unless I/O fails, and counts the bytes mod 2^32 |
| `Primes.IsPrimeOdd` | gtests/external/gtest-1.7.0/samples/sample1.cc:47-68 | decides primality, and for 32-bit n never forms a divisor above 46342 |
| `Primes.OnTheFlyPrimeTable.IsPrime` | gtests/external/gtest-1.7.0/samples/prime_tables.h:58-67 | decides primality; the largest number it squares is LastTried |
| `Primes.ProductsFit` | gtests/external/gtest-1.7.0/samples/prime_tables.h:61-61 | for 32-bit n the largest of those squares fits in an int if and only if n is not prime or is below 46340 squared |
| `Primes.OnTheFlyPrimeTable.GetNextPrime` | gtests/external/gtest-1.7.0/samples/prime_tables.h:69-75 | terminates and returns the least larger prime exactly when p is not negative, -1 otherwise |
| `Primes.LargerPrime` | gtests/external/gtest-1.7.0/samples/prime_tables.h:69-75 | some prime exceeds every n, so the search ends |
| `Primes.SmallDivisor` | gtests/external/gtest-1.7.0/samples/prime_tables.h:58-67 | a composite number has a divisor no larger than its square root |
| `Primes.PreCalculatedPrimeTable.CalculatePrimesUpTo` | gtests/external/gtest-1.7.0/samples/prime_tables.h:102-114 | the sieve leaves exactly the primes marked |
| `Primes.PreCalculatedPrimeTable.CrossOut` | gtests/external/gtest-1.7.0/samples/prime_tables.h:109-112 | the inner loop clears exactly the proper multiples |
| `Primes.PreCalculatedPrimeTable.constructor` | gtests/external/gtest-1.7.0/samples/prime_tables.h:83-86 | the table decides primality up to max |
| `Primes.PreCalculatedPrimeTable.IsPrime` | gtests/external/gtest-1.7.0/samples/prime_tables.h:89-91 | true exactly for the primes the table reaches |
| `Primes.PreCalculatedPrimeTable.GetNextPrime` | gtests/external/gtest-1.7.0/samples/prime_tables.h:93-99 | the least larger prime if the table reaches it, -1 exactly otherwise |
| `Primes.SkipComposite` | gtests/external/gtest-1.7.0/samples/prime_tables.h:106-107 | skipping a crossed-out candidate loses nothing |
| `Primes.NextPrimeUnique` | gtests/external/gtest-1.7.0/samples/prime_tables.h:48-50 | the next prime is unique, so both tables return the same one whenever the precomputed table reaches it |
| `Primes.NextPrimeOfNegative` | gtests/external/gtest-1.7.0/samples/prime_tables.h:69-75 | for every negative p the next prime is 2, which the on-the-fly search does not return |

## Left out

- System calls, clocks, threads' scheduling and the network: their results are parameters, and every theorem holds for all of them.
- Transport loss may drop any suffix of the packets on their way out; otherwise channels are reliable and in order.
- In `Network` both ends start connected; the CNXN and SYNC exchange is modelled in `Threads` and `Handlers`, and a CNXN packet in `Endpoints.HandlePacket` and `Engine`.
- In `Network` accepting a client and reading its request are one step (Dial), closing the socket at any time after that is another (GiveUp); the status bytes OKAY and FAIL sent to a client are not part of the byte ledger.
- One transport per endpoint in `Network` and `Handlers`; `SocketTable` has many.
- Socket ids are unbounded numbers: fewer than 2^32 are handed out.
- Two local sockets joined to each other exist in `SocketTable` and `Handlers` only.
- Handlers.OnReadable: the undermined read is excluded; in the runs of `Handlers` that step ends where the code goes on to use freed memory, and the theorems hold up to there.
- Handlers.OnWritable: a live socket without a peer is passed over where the code crashes (NullPeer); so is it in Engine.
- Engine.Process.EventWrite: likewise.
- Handlers.PacketOwnership: packets are named by numbers that are not reused after put_apacket; a packet leaked by a failed write in local_socket_enqueue is counted as leaked.
- Handlers.OnRequest: what the collected bytes ask for is a parameter there; `Requests` has the parser.
- Input thread sweeps and main-loop handlers are atomic steps; unsynchronised races between them are not modelled.
- Threads.ShutdownOnce: a third caller that has won the kicked flag may still call kick after the removal is posted; explicit unregister calls (`adb disconnect`), which drop a reference nobody took, are not modelled.
- Engine.Process.FindLocalSocket: the intrusive live and closing lists are sequences, so next and prev pointers are not modelled there; `Disconnects` models such a ring on the heap.
- Engine.Process.Disconnect: the bound sockets are found on the live list, not on the ring of `Disconnects`, whose order does not matter for the result.
- EventLoop.Poller.Install: the fd is not registered yet and the fdevent not active; table growth is that of a 32-bit target, where new slots are zeroed; the pending list is a sequence.
- Framing.RemoteWrite: the packet's length field is assumed to agree with its payload, as send_packet leaves it.
- Framing.WritePackets: once a write to the socket fails, nothing more is written to it.
- SyncData.SyncRecv: request, file creation, and the text of a remote error are not modelled; a size of 2^31 or more ends the model with OutOfBuffer.
- SyncData.SendData: the status exchange after DONE, and sending from a file or a link, are not modelled.
- Primes.PreCalculatedPrimeTable.GetNextPrime: p below -1 would index before the array and is excluded; integers are unbounded; where `i*i` would overflow is stated by `Primes.ProductsFit`.
- Primes.OnTheFlyPrimeTable.GetNextPrime: the overflow of `n++` past the largest int is not modelled.
- Requests.SmartSocket.Enqueue: acting on a complete request (looking up the transport, opening the service) is not modelled beyond taking the request apart; snprintf truncation in the client is not modelled.
- The listener list, the local_transports table, device tracker, jdwp sockets, exit-on-close, banners and device services: they would only add easy members.
- The epoll variant of the event loop, all Win32 branches, and everything else in the repository.
