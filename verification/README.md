# adb host engine: a Dafny model

This project models the host side of adb as found in this repository: a multiplexed stream protocol run
by one event loop and two pump threads per device, with the PAX handshake packet added. It proves what
the protocol keeps over whole runs, and what its self-contained algorithms compute.

Check everything with `dafny verify dfyconfig.toml`.

## How the parts fit

- `SocketSpec` says what one local socket does, as functions on values: the two write loops, the read loop
  and the handlers. Everything about streams is stated in its terms.
- `Calls` says what those loops come to, told from the system calls alone, and `Ledger` that the history every socket
  carries is just that: in every run, what it has read, written and given up on follows from the events.
- `Stream` and `Link` are the protocol between two endpoints that both run this code: one stream, and any
  number of streams over one transport. Credit, order, delivery and teardown are proved of every run.
- `Graph`, `Handlers`, `Isolation` and `Forwards` are one process: sockets, peers, lists, transports,
  sessions and listeners as a value, one function per handler, and what each handler keeps.
- `Runs` puts all events of the process together: every run keeps the graph and the sessions valid, moves
  sockets only as `SocketSpec` says, tells each client at most one status, and sends SYNC only as an echo.
- `Safety` proves of every run that each object a handler reaches through a pointer it does not test is live, except
  for the transport a client has chosen, and says exactly when that one is.
- `Refine` proves that the engine is an endpoint of `Link`: every stream step of the graph is a step of `Link` with
  the same packets (several when the input thread leaves or a session ends and takes its sockets along), so every run
  of two engines is a run of `Link`, and what `Link` proves is restated of the engines, with what was read and written
  told from the system calls of the run.
- `Host` is the same engine in the form the program has: fields changed in place and the program's own
  loops. Each of its methods is proved to change the state exactly as the functions above say.
- `Pumps` interleaves the event loop with the input and output thread of a transport.
- `FdEvent` is the select loop, as functions and as a class with the program's loops.
- `Codec`, `Acquire`, `FrontEnd`, `Listing`, `DirSync`, `Rsa` and `Usb` are the wire format, device selection, the
  request front end, the listing of forwards, directory sync, the public key limbs and USB transfer termination.
- `Octets`, `Lists` and `Arith` are what the others share.

System calls are results chosen by the environment: lists of outcomes (short counts, EAGAIN, EINTR, end of
file, errors) that the theorems quantify over. A list that has run out answers "would block" for the
sockets of the engine and "everything at once" for the blocking reads and writes of `Codec`.

## What turned out not to hold

- A socket that closes before it heard READY sends no CLOSE, so the socket that answered its OPEN stays
  linked for good. `Refine.HalfOpen` is such a run of two engines and `Link.HalfOpen` the run of `Link` behind
  it; `Link.CloseIsComing`, `Link.QuietPair` and `Refine.EnginesCloseIsComing` say that the only other way is a session
  that ends: a linked socket has a CLOSE coming, or a linked far end, if and only if that end was ever linked and did
  not go with its session.
- A file that vanishes between the two looks at it (src/file_sync_client.c:709-713) ends the scan of its directory.
  Below the root the error is dropped, so the run goes on and reports success with the rest of that directory
  missing. `DirSync.GotWithin` says exactly when nothing is missing, `DirSync.VanishedLoses` is a tree where it is.
- killforward with the server's own name takes the listener for its clients, which killforward-all is meant never to
  take. `Forwards.SmartRemoved` says that this is the only such name; `Runs.BootKilled` shows that it takes a device
  that can be acquired, without which the request is refused.
- A smart socket keeps the transport its client has chosen without a reference (src/adb.c:1616, src/sockets.c:842).
  Clients that have chosen it are closed when its input thread leaves, but one that chooses it afterwards keeps a
  pointer that outlives the object. `Safety.RequestSafe` says that a request is safe if and only if the transport was
  not removed since it was chosen, `Safety.EarlyChoiceSafe` that a choice made before the input thread left always is,
  and `Safety.DanglingRun` is a run in which one is not; `Pumps.HeldPastFree` is the same among the threads.
- Sizes and times are kept in 32 bits when a directory is pushed, so a file that has grown by 4 GiB within the same
  second is not pushed. `DirSync.RegularCurrent` gives the exact condition, `DirSync.GrownNotPushed` the case.
- READY for a WRITE is sent where the WRITE came from, which need not be the transport of the stream, because ids are
  matched without comparing transports. `Handlers.WriteDoes` says where each answer goes.
- format_listeners is to return the size of the whole listing even when it is cut short. It returns less exactly when
  the buffer is full at the end of a line with more lines behind it; `Listing.FormatListeners` states this.
- The client prints a norebind request with one colon too many (src/commandline.c:1792-1793), so it never
  asks for the local name it was given. `Forwards.NoRebindMisprinted` says what it asks for instead;
  `Forwards.ForwardRoundTrip` gives the exact condition for the plain form.
- A serial that is a bare qualifier word, or a command that starts like a port and a colon, is split in
  the wrong place. `FrontEnd.PrintParse` gives the exact condition.
- A modulus that is even has no `n0inv`; `Rsa.PublicKey.FromRsa` states the property if and only if it is odd.
- Without the zero mask a transfer that fills its packets is not terminated; `Usb.Handle.UsbWrite` states
  termination if and only if the interface asks for it or the last packet is short anyway.

## Model

| member | source | states |
|---|---|---|
| `Link.RunKeeps` | src/adb.c:587-658 | every state of every run of two endpoints over FIFO channels, with any number of streams opened from either side, satisfies the joint invariant, under every packet order, short write, EINTR and close, and when either end loses its session while packets of the old one are in flight |
| `Link.OneCredit` | src/sockets.c:144-203 | in every run each established direction that has not begun closing has exactly one credit among read interest, WRITE in flight, backlog and READY in flight; so at most one WRITE is unacknowledged and a queue holds at most one packet |
| `Link.InOrder` | src/sockets.c:283-411 | in every run the bytes written to either descriptor are a prefix of those read from the other; which those are is `Ledger.RunBooked` |
| `Link.AllDelivered` | src/sockets.c:241-399 | a socket that has gone without a fault of its own was given every byte its far end ever read, including those queued when it moved to the closing list |
| `Link.CloseIsComing` | src/adb.c:622-643 | a linked socket whose far end has closed has a CLOSE on the way if and only if that end was ever linked and did not go with its session |
| `Link.QuietPair` | src/adb.c:603-643 | with nothing in flight a linked socket has a linked far end if and only if that was ever linked and did not go with its session |
| `Link.HalfOpen` | src/sockets.c:241-260 | a concrete run of `Link` in which an opener that closes before READY leaves its answer linked with nothing in flight |
| `Link.RunMated` | src/sockets.c:562-584 | in every run the two sockets that an OPEN and its answer joined stay the two ends of one stream, closed or not |
| `Link.MatedStream` | src/sockets.c:493-542 | the packets between two such ids are all that is in flight on their stream, so the stream invariant speaks of them |
| `Stream.StepKeeps` | src/sockets.c:144-399 | every event at either end of a stream keeps shapes, data and credits of both directions |
| `Calls.ReadUpIs` | src/sockets.c:341-363 | the read loop has the bytes of the read calls before the first that stops it, in the order of the calls and cut to the room there is, and saw the end exactly when room was left and an end or an error, not EAGAIN, stopped it; EINTR is no stop |
| `Calls.FirstWriteIs` | src/sockets.c:161-175 | the first write loop gets rid of as many bytes as the calls before the first failure took; it drains exactly if that is all, blocks exactly if else the calls ran out or said EAGAIN, and breaks exactly on any other failure, EINTR included |
| `Calls.DrainQueueIs` | src/sockets.c:295-320 | the drain loop gets rid of as many bytes as the calls took, each offered the rest of the packet in hand, with EINTR skipped; the others stay in their packets; it drains, blocks or breaks exactly as the calls say |
| `Ledger.EventBooked` | src/sockets.c:144-411 | every event of the process: what any socket has read grows by what the read calls of that event gave while it had a far side, what it has written by what the write calls took, and it gives up exactly if those calls failed or saw the end, it hung up, its session ended or its input thread left |
| `Ledger.RunBooked` | src/adb.c:524-691 | the same over every run of the process: the bytes joined in the order of the events |
| `SocketSpec.DrainQueue` | src/sockets.c:295-320 | the drain loop conserves the bytes: what it wrote and what it left is the backlog, and it is drained if and only if nothing is left |
| `Graph.CloseLockedCore` | src/sockets.c:241-281 | closing keeps the socket graph: symmetric peers, each remote socket once on its own transport's disconnect list, disjoint lists, closing sockets with id 0, no peer and a backlog, write interest exactly with a backlog |
| `Graph.CloseLockedDoes` | src/sockets.c:241-281 | closing does to the socket what `SocketSpec` says, sends CLOSE with both ids on the stream's transport exactly when linked, and changes no other socket, stream or transport |
| `Graph.DisconnectedCore` | src/sockets.c:544-556 | dropping a stream because its transport went keeps the socket graph |
| `Handlers.FindExact` | src/sockets.c:69-86 | with distinct ids the walk that stops at the first id finds a socket if and only if it is the one with that id and peer |
| `Handlers.IdsDistinctInWindow` | src/sockets.c:98-111 | two live sockets share an id exactly when the sockets issued before them differ by a multiple of 2^32-1, so ids are distinct while fewer were issued since the oldest |
| `Handlers.OpenDoes` | src/adb.c:587-601 | OPEN makes one linked, ready socket and answers READY on the same transport, or answers CLOSE(0) when the service cannot start, or does nothing when malformed or offline; the graph stays valid |
| `Handlers.OkayDoes` | src/adb.c:603-620 | READY links or readies exactly the socket it names, sends nothing, touches no other socket, and is ignored when offline or from the wrong peer |
| `Handlers.ClseDoes` | src/adb.c:622-643 | CLOSE closes exactly the socket it names, CLOSE(0) only over the transport of the stream |
| `Handlers.WriteDoes` | src/adb.c:645-658 | WRITE over any transport does to the linked socket it names what `SocketSpec` says, touches no other socket, answers on that stream, except for READY, which goes where the WRITE came from, and does nothing when it names no socket; the graph stays valid |
| `Handlers.CloseDoes` | src/sockets.c:619-626 | close through the handler pointer also writes the failure status a waiting client is owed |
| `Handlers.WritableLinked` | src/sockets.c:292-337 | draining a linked socket does what `SocketSpec` says, READY exactly when the backlog is gone |
| `Handlers.WritableClosing` | src/sockets.c:295-329 | draining a closing socket sends nothing, and the socket dies exactly when its backlog is gone or the descriptor breaks |
| `Handlers.ReadableLinked` | src/sockets.c:340-399 | a read event sends at most one WRITE of what was read, drops read interest, and closes at end of file after that WRITE |
| `Isolation.RunAllDoes` | src/transport.c:88-99 | running a transport's disconnect list empties it, closes each of its streams once and without a CLOSE, and touches nothing of another transport |
| `Isolation.SyncPurges` | src/adb.c:535-544 | SYNC(0) leaves the transport offline with no stream and no forward; every other transport, stream and forward is as before |
| `Isolation.CnxnPurges` | src/adb.c:546-561 | CNXN does the same purge and leaves the transport online in the state its banner names |
| `Isolation.BannerMeans` | src/adb.c:459-522 | a banner is read up to its first colon: bootloader, device, recovery and sideload are exactly those words, and any other is a host |
| `Isolation.SyncUpKeeps` | src/adb.c:535-538 | SYNC(1) is echoed with CNXN right behind it and changes no stream, forward or session |
| `Isolation.AuthKeeps` | src/adb.c:563-585 | a token leaves the transport unauthorized and sends the answer, if there is one; AUTH otherwise changes nothing, and keeps every stream and forward and the session invariants |
| `Isolation.HandshakeKeeps` | src/adb.c:660-684 | a PAX handshake request is answered with kind 2 and the magic word, anything else with nothing; every stream, forward and session is kept |
| `Isolation.CloseAllDoes` | src/sockets.c:126-142 | afterwards no active socket waits for the transport or is linked over it and no client has chosen it, and every other socket and client is as before |
| `Forwards.InstallIsPut` | src/adb.c:892-970 | installing a listener is put on the map of local names, norebind is put-if-absent, smart sockets are never repurposed, an error changes nothing; the graph stays valid, with each forward on exactly its current transport's disconnect list |
| `Forwards.RemoveIsDelete` | src/adb.c:859-870 | removal deletes the name from the map, whatever it stands for, and says whether it was there |
| `Forwards.RemoveAllMap` | src/adb.c:872-882 | removing all keeps exactly the smart sockets |
| `Forwards.SmartRemoved` | src/adb.c:859-882 | a smart listener is taken by killforward if and only if it is given the name of that listener, and never by killforward-all |
| `Forwards.ReboundCore` | src/adb.c:923-927 | a rebind moves a forward between disconnect lists and keeps the graph |
| `Forwards.ForwardMeans` | src/adb.c:1501-1531 | a forward is read out of exactly the texts that ask for it: the word, norebind if wanted, a nonempty local name without a semicolon, the semicolon, and a remote name that does not start like a smart socket |
| `Forwards.RequestText` | src/adb.c:1470-1538 | which text is which request: listing, keep-smart-only, removal of the name behind the colon, forward, malformed or none of these, each if and only if |
| `Forwards.ForwardRoundTrip` | src/adb.c:1501-1531 | a printed forward request is parsed back to its local and remote names if and only if those can be told apart |
| `Forwards.NoRebindMisprinted` | src/commandline.c:1792-1793 | the printed norebind request never means the local name it was given |
| `Runs.StepGood` | src/adb.c:524-691 | any event of the process, from packets, descriptors, threads, clients or requests, and any socket that hangs up, waiting, linked or draining, keeps graph and sessions valid and moves every socket only as `SocketSpec` says; transports come by registration, go by removal and lose their input thread once |
| `Runs.EveryRun` | src/adb.c:524-691 | in every run: the graph invariants; a transport owns streams and forwards only while online, and online means neither OFFLINE nor NOPERM; every client handed to a device has had at most one status, first, data only behind OKAY and nothing behind FAIL |
| `Runs.AcceptOpens` | src/adb.c:698-746 | a connection to a forward opens a stream to the forward's own target on its own device, one to the server's port becomes a client and sends nothing |
| `Runs.AskOpens` | src/sockets.c:842-866 | a request opens a stream to the service it names on the transport chosen, or is refused and sends nothing when there is none or it is offline |
| `Runs.HangUpMoves` | src/sockets.c:395-398 | a socket may close of its own accord at any time, also before READY, when a waiting client is told that it failed |
| `Runs.MovesClient` | src/sockets.c:607-626 | no event of any kind breaks the order of status and data at a client |
| `Runs.EngineSays` | src/adb.c:535-544 | on every transport the engine sends SYNC only as the echo of a SYNC, with CNXN right behind SYNC(1); these are the event loop's steps in `Pumps` |
| `Refine.StepModels` | src/adb.c:546-658 | any client, packet, read, write, hang-up, input thread exit or new session at either of two engines on one transport is a path of `Link` with the same packets in the same order: one step, none for a client that waits or a read bit without an end of file, one for each socket that goes with the input thread or with the old session |
| `Refine.EnginesRunAsLink` | src/adb.c:524-691 | every run of two engines that start without sockets, with a CNXN at either at any time, is a run of `Link` that passes through the states of the engines in their order |
| `Refine.FlipRun` | src/adb.c:587-658 | a run of two engines is a run with the engines exchanged, so what holds of one end holds of the other |
| `Refine.EnginesBooks` | src/sockets.c:144-411 | in every run of two engines what a socket has read and written is what the read and write calls of its events gave and took, and it has closed of its own accord exactly if one of its events made it |
| `Refine.EnginesInOrder` | src/sockets.c:283-411 | in every run of two engines, whatever sessions begin in it, for two sockets one of which was ever linked to the other, now or later: what the write calls of either took is a prefix of what the read calls of the other gave, both told from the steps of the run |
| `Refine.EnginesOneCredit` | src/sockets.c:144-203 | while neither of them has begun closing each direction has exactly one credit among read interest, WRITE on the wire, backlog and READY on the wire |
| `Refine.EnginesAllDelivered` | src/sockets.c:241-399 | one that has gone, and that no step of the run made give up, had every byte taken that the read calls of the other gave, and the other had closed |
| `Refine.EnginesCloseIsComing` | src/adb.c:622-643 | one that is linked while the other has closed has a CLOSE on the wire if and only if the other was ever linked and did not go with its session |
| `Refine.ConnectLoses` | src/adb.c:546-561 | a CNXN on a live session closes every linked socket of that engine without a word to the far end |
| `Refine.HalfOpen` | src/sockets.c:347-397 | two connected servers reach a state with empty wires in which the socket at one is linked to a client of the other that asked for the device, hung up before READY and was told that it failed |
| `Refine.FindShows` | src/sockets.c:69-86 | the search of the active list by 32-bit ids finds a socket if and only if the search by unique names does, and the same one |
| `Refine.BlankAfterConnect` | src/adb.c:546-561 | a server to which a first device has just connected is an engine such runs start from, and can take a client |
| `Runs.BootGood` | src/adb.c:1352-1356 | the state a server starts in is good |
| `Runs.DeviceConnects` | src/adb.c:546-561 | a first device that registers and connects leaves the server with one usable transport |
| `Runs.BootKilled` | src/adb.c:1540-1550 | with a device, killforward of its own port leaves a server without a listener for clients and killforward-all leaves it as it is; without one killforward is refused |
| `Runs.UnregisteredValid` | src/transport.c:589-621 | removing a transport closes its streams and drops its forwards, leaves everything else as it was, and leaves no remote socket, listener or list entry that leads to it |
| `Runs.WaitingOutlives` | src/sockets.c:586-602 | a socket without a peer, such as one that waits for READY of that transport, is left as it is, its transport field included, which is only ever compared |
| `Safety.StepSafe` | src/sockets.c:283-411 | from a good state, every pointer that an event other than a client's request follows without a test leads to a live object: peers both ways, the peer of a socket whose backlog has drained, sockets on the active list, the transport after its own callbacks, the owner of a listener |
| `Safety.RunLives` | src/transport.c:88-99 | each entry of a disconnect list still has its live object when its turn comes, although each callback changes the list and frees its object, and the transport outlives them all |
| `Safety.ExitLives` | src/sockets.c:126-142 | every round of close_all_sockets walks live sockets with live peers |
| `Safety.SweepLives` | src/adb.c:872-882 | each listener is still there when remove_all_listeners comes to it |
| `Safety.RequestSafe` | src/sockets.c:842-863 | in every run, the transport pointer that a client's request follows leads to the object that was chosen if and only if no removal of it came since the client's last choice |
| `Safety.EarlyChoiceSafe` | src/transport.c:356-358 | a choice made before the transport's input thread left is never followed once the transport is gone, because that client was closed |
| `Safety.EveryRunSafe` | src/adb.c:524-691 | a step of a run is unsafe if and only if it is the request of a client whose chosen transport was removed since |
| `Safety.DanglingRun` | src/adb.c:1614-1617 | a run from the start of a server in which a device ends its session, connects again after its input thread has left, is chosen by a client and removed, and the client's request follows the stale pointer |
| `Host.WriteSome` | src/sockets.c:161-175 | the write loop of enqueue computes `FirstWrite`: the bytes gone are those the calls took, and the verdict is theirs |
| `Host.DrainBacklog` | src/sockets.c:295-320 | the nested drain loops compute `DrainQueue`: the bytes gone are those the calls took, the others are left, and the verdict is theirs |
| `Host.ReadSome` | src/sockets.c:341-363 | the read loop computes `ReadUp`: the bytes the calls gave, in order and at most one payload, and whether they saw the end |
| `Host.Engine.FindLocalSocket` | src/sockets.c:69-86 | the list walk computes `Find` |
| `Host.Engine.InstallLocalSocket` | src/sockets.c:98-111 | the wrapping 32-bit counter that skips 0 gives the ids of `Install` |
| `Host.Engine.CloseLocked` | src/sockets.c:241-281 | the in-place close changes the state exactly as the graph's close |
| `Host.Engine.EnqueueLocal` | src/sockets.c:144-195 | the in-place enqueue and its return value are `Enqueue` |
| `Host.Engine.SocketEvent` | src/sockets.c:283-411 | a descriptor event, also a read bit that outlived its interest, is the write half and then, unless that blocked or closed, the read half, and leads from good states to good ones |
| `Host.Engine.RunDisconnects` | src/transport.c:88-99 | the walk over the list as it is, with the next entry remembered, computes `RunAll` and leaves the list empty: each callback takes exactly its own entry off |
| `Host.Engine.KillAllForwards` | src/adb.c:872-882 | the walk over the list as it is, with the next listener remembered, computes `RemoveAll` |
| `Host.Engine.CloseAllSockets` | src/sockets.c:126-142 | the restarting walk computes `CloseAll` and ends |
| `Host.Engine.InputLeaves` | src/transport.c:356-363 | the way out of the input thread closes what belongs to the transport, clients that have chosen it included |
| `Host.Engine.RemoveTransport` | src/transport.c:589-617 | the removal runs the callbacks and frees the object |
| `Runs.PacketMeans` | src/adb.c:534-684 | the run event of a packet is the handler of its command with its own arguments, for each of the eight commands |
| `Host.Engine.HandlePacket` | src/adb.c:524-691 | the packet switch changes the state exactly as the run event of that packet, and leads from good states to good ones |
| `Host.Engine.ConnectToRemote` | src/sockets.c:586-602 | handing a request to a device makes one waiting socket and sends OPEN with its id |
| `Host.Engine.AcceptClient` | src/adb.c:698-746 | a connection to the server's own listener becomes a client, one to a forward is handed to the device of the forward, which is live |
| `Host.Engine.ChooseTransport` | src/adb.c:1612-1620 | the smart socket keeps the pointer and nothing else does |
| `Host.Engine.Request` | src/sockets.c:842-866 | a request follows the pointer kept: refused when there is none or the device is offline, else handed over with its client |
| `Host.Engine.HandleForward` | src/adb.c:1470-1577 | by the text of the service: list-forward replies the listing, killforward-all leaves exactly the smart entries, killforward takes exactly the name behind the colon, forward is put and norebind put-if-absent on the map of local names; the reply of every case; any other service is not handled; without success nothing changes |
| `Listing.FormatListeners` | src/adb.c:816-857 | for every buffer, or none, that no line but the last outgrows: the buffer holds the listing, cut to its size and ended, and the result is the length of the whole listing, or of the buffer if that was full at the end of a line |
| `Listing.ListingReadsBack` | src/adb.c:816-857 | the listing, read line by line and word by word, gives back device, local name and target of every forward in the order of the list, and no smart socket |
| `Host.Engine.ListForwards` | src/adb.c:1472-1489 | the buffer sized by the first pass is filled exactly by the second |
| `Pumps.StartGated` | src/transport.c:623-651 | the state in which the threads start satisfies both invariants |
| `Pumps.GatingHolds` | src/transport.c:260-364 | under every interleaving the device was given exactly the event loop's packets the input thread has read, after the first matching SYNC and up to the first SYNC(0): CNXN first, nothing before, and nothing missing once a SYNC(0) ended it |
| `Pumps.LifetimeHolds` | src/transport.c:589-735 | under every interleaving: at most one kick; close and removal exactly once and only when both threads are through; after the free nothing can happen but the request, or the end, of a client that chose the device after the input thread's sweep, and if there is such a client its request can |
| `Pumps.EveryInterleaving` | src/transport.c:260-364 | both of the above, from the state in which the threads are started, for every token |
| `Pumps.HeldPastFree` | src/transport.c:311-357 | such an interleaving |
| `FdEvent.RunOk` | src/fdevent.c:584-643 | after any sequence of install, set, remove, report, dispatch and exit the descriptor sets are the watched bits of registered entries, the mark exceeds every registered descriptor, and an entry is pending exactly when it has events |
| `FdEvent.NeverCalledBack` | src/fdevent.c:602-616 | a removed entry is never on the pending list again until it is installed again |
| `FdEvent.InstallOk` | src/fdevent.c:584-600 | an installation keeps the agreement of tables and lists if and only if neither descriptor nor entry is in use, or the same entry was never asked for anything |
| `FdEvent.InstallTouches` | src/fdevent.c:584-600 | a new entry is watched for nothing and not pending, the mark covers it and no more than it must, and no other entry, slot, bit or place in the pending list changes |
| `FdEvent.CapacityIs` | src/fdevent.c:419-440 | the table starts with 256 slots and is doubled until it covers the descriptor, and no further |
| `FdEvent.SetTouches` | src/fdevent.c:619-643 | afterwards the entry is watched for exactly the given bits, a queued one keeps exactly its other events and leaves the list when none are left, and no other entry changes |
| `FdEvent.RemoveTouches` | src/fdevent.c:602-616 | afterwards no set, slot or list refers to the entry, which keeps no state, the mark is one above the highest descriptor there was, its own included, and no other entry changes |
| `FdEvent.SetLosesNothing` | src/fdevent.c:619-643 | every bit that fdevent_set drops from a pending entry is watched afterwards, so select reports it again |
| `FdEvent.NoStale` | src/fdevent.c:619-643 | over any sequence of operations, a callback is told to read what it does not watch for only if its interest was dropped while the event was queued, or the event was faked for a bad descriptor or an exited process |
| `FdEvent.NotQueued` | src/fdevent.c:498-506 | while callbacks run, an entry that is not queued stays so, so that an entry's own callback never leaves a stale event behind |
| `FdEvent.MarkFromDoes` | src/fdevent.c:395-414 | a scan gives each entry exactly the bits reported for its descriptor and queues those with any behind the ones already queued |
| `FdEvent.FdLoop.InstallEntry` | src/fdevent.c:419-445 | install grows the table by doubling, registers the entry and raises the mark, or stops where the program is fatal; the agreement holds afterwards if and only if the place was free |
| `FdEvent.FdLoop.SetEvents` | src/fdevent.c:619-643 | the in-place update is `Set` and keeps the agreement |
| `FdEvent.FdLoop.RemoveEntry` | src/fdevent.c:602-616 | removal unlinks, recomputes the mark while the slot is still taken, frees the slot, and closes the descriptor unless told not to |
| `FdEvent.FdLoop.Rescan` | src/fdevent.c:266-269 | the scan finds the highest registered descriptor |
| `FdEvent.FdLoop.FdCheck` | src/fdevent.c:296-312 | a read is faked for exactly the registered descriptors that are bad |
| `FdEvent.FdLoop.Scan` | src/fdevent.c:395-414 | the scan that stops once all reported bits are counted does what the full scan does |
| `FdEvent.FdLoop.Process` | src/fdevent.c:356-415 | the outcome of select is recorded as reported, ignored on EINTR, and replaced by faked reads on EBADF |
| `FdEvent.FdLoop.Next` | src/fdevent.c:483-506 | dispatch takes the head, which is registered and has events, and clears it |
| `FdEvent.FdLoop.Drain` | src/fdevent.c:682-684 | the drain loop ends with nothing pending, whatever the callbacks install, set or remove, and every callback was made for an entry registered at that moment and for some event |
| `Codec.StreamRoundTrip` | src/transport_local.c:58-105 | decoding the concatenation of any encoded packets yields exactly those packets |
| `Codec.DecodeEncode` | src/transport.c:217-231 | an encoded packet decodes to itself and leaves the rest of the stream |
| `Codec.EncodeDecode` | src/transport.c:1204-1236 | accepted bytes are exactly the encoding of what they decode to |
| `Codec.ChangedByteRejected` | src/transport.c:1219-1236 | changing one payload byte is always rejected |
| `Codec.SumFits` | src/transport.c:225-231 | the checksum of a payload never wraps |
| `Codec.EncodeLayout` | src/transport.c:217-231 | a packet goes out as exactly these bytes: six words, low byte first, of command, arguments, length, byte sum and complement of the command, and then the payload |
| `Codec.DecodeLayout` | src/transport.c:1204-1236 | bytes are taken for a packet and a rest if and only if they are laid out so; any other last word of the header is refused |
| `Codec.MagicIsComplement` | src/transport.c:223 | the magic word of a command is its complement in 32 bits |
| `Codec.Checksum` | src/transport.c:1219-1236 | the 32-bit sum loop computes the sum |
| `Codec.Source.ReadX` | src/transport.c:1140-1170 | short reads and EINTR are put together; without errors it succeeds exactly when enough bytes come |
| `Codec.Source.ReadPacket` | src/transport_local.c:58-87 | under any read schedule the result is what the stream decodes to, and the stream was laid out as that packet |
| `Codec.Source.ReadAll` | src/transport.c:279-295 | under any read schedule the packets read are exactly those the stream decodes to |
| `Codec.Sink.WriteX` | src/transport.c:1172-1202 | short writes, EINTR and EAGAIN are put together; what is out is always a prefix and on success all |
| `Codec.Sink.WritePacket` | src/transport_local.c:89-105 | a packet goes out as its encoding, laid out field by field |
| `Acquire.QualMatch` | src/transport.c:765-792 | for a nonempty selector the walk is equality with the prefix and the sanitised qualifier |
| `Acquire.NamesWhatIsListed` | src/transport.c:910-931 | a selector names a qualifier exactly when it is the text the long listing shows |
| `Acquire.SelectsWhatIsShown` | src/transport.c:813-818 | a nonempty selector picks a device if and only if it is its serial number or a field that the long listing shows of it |
| `Acquire.FitsKind` | src/transport.c:829-856 | without a selector any device in reach fits "any", exactly the USB ones fit USB and exactly the emulators fit local |
| `Acquire.AcquireOnce` | src/transport.c:794-892 | one pass returns a device exactly when it alone fits and its state is acceptable, reports more than one exactly when two fit, naming the kind asked for, and each other error exactly when it applies |
| `FrontEnd.DigitMeans` | src/sockets.c:628-656 | the digits are the sixteen of either case, each with its value |
| `FrontEnd.Unhex` | src/sockets.c:628-656 | the digit loop computes the value, or the error word when a character is no digit |
| `FrontEnd.UnhexHex4` | src/adb_client.c:188 | unhex inverts the %04x writer |
| `FrontEnd.SkipHostSerial` | src/sockets.c:674-700 | the pointer walk computes where the serial ends |
| `FrontEnd.HostSerialRoundTrip` | src/sockets.c:674-700 | the printed serial ends where it should if and only if serial and command can be kept apart |
| `FrontEnd.PrintParse` | src/commandline.c:445-458 | a printed host-serial request is parsed back if and only if serial and command can be kept apart |
| `FrontEnd.PrintParseKind` | src/sockets.c:764-775 | requests without a serial are always parsed back |
| `FrontEnd.ParseOther` | src/sockets.c:752-780 | a host-serial request without a colon has no serial, and what starts with none of the four words is a service of the device, as it is |
| `FrontEnd.JudgeRequest` | src/sockets.c:731-747 | every proper start of a request waits and the whole of it dispatches its service |
| `FrontEnd.DispatchedWasFramed` | src/sockets.c:731-747 | whatever is dispatched was framed with its own length, between 1 and 1024 |
| `FrontEnd.RefusedForGood` | src/sockets.c:734-738 | what is refused stays refused, whatever bytes follow |
| `FrontEnd.RefusedIffHopeless` | src/sockets.c:731-747 | once its length is there a request is refused if and only if no bytes that may follow can make it one; before that it waits |
| `FrontEnd.SmartSocket.Enqueue` | src/sockets.c:702-747 | packets are joined up to one payload; overflow and bad lengths close the socket |
| `FrontEnd.SmartSocket.Dispatched` | src/sockets.c:752-794 | only a transport switch keeps the socket, with its buffer empty again |
| `FrontEnd.SmartSocket.Feed` | src/sockets.c:702-747 | however a request is cut into packets, on a new socket or after a switch, dispatch happens once, on the last packet, with the same service |
| `DirSync.MkCopyInfo` | src/file_sync_client.c:637-664 | both strings fit their allocations, so neither is cut |
| `DirSync.ScanDir` | src/file_sync_client.c:684-729 | one directory's files and subdirectories, each once, up to the first file that has vanished; it fails exactly then |
| `DirSync.BuildList` | src/file_sync_client.c:667-740 | for every finite tree the list gains exactly what the scans get: of each directory the files before the first vanished one, and its subdirectories only if none vanished; the result is that of the root's scan alone |
| `DirSync.ExpectedIsReached` | src/file_sync_client.c:684-729 | what the tree holds, by paths: a file is in it if and only if names, none of them one of the two dot names, lead to it through readable directories with every path on the way within PATH_MAX and it is regular or a link |
| `DirSync.GotWithin` | src/file_sync_client.c:705-740 | what is got is part of what the tree holds, and all of it if and only if no reachable file stands behind a vanished one or in a subdirectory of such a directory |
| `DirSync.GotIsReached` | src/file_sync_client.c:667-740 | whatever is got is reached by such a path, and all that is reached is got unless something was lost |
| `DirSync.SteadyLosesNothing` | src/file_sync_client.c:705-713 | a tree in which nothing vanishes is got whole |
| `DirSync.VanishedLoses` | src/file_sync_client.c:709-735 | a tree whose root is scanned without error while a file below is lost |
| `DirSync.ExpectedSwaps` | src/file_sync_client.c:659-660 | source and destination of every listed file differ only in their prefix |
| `DirSync.EachPathOnce` | src/file_sync_client.c:667-740 | with distinct slash-free names no path is listed twice |
| `DirSync.ListedOnce` | src/file_sync_client.c:667-740 | with distinct slash-free names no path is got twice |
| `DirSync.CurrentMeans` | src/file_sync_client.c:780-785 | the mode arithmetic of the freshness test: equal times between regular files, not older between links, and a link against a regular file judged like regular files |
| `DirSync.RegularCurrent` | src/file_sync_client.c:780-785 | two regular files are taken to be the same if and only if their sizes and times agree modulo 2^32 |
| `DirSync.GrownNotPushed` | src/file_sync_client.c:630-632 | a file that has grown by 4 GiB within the same second is taken to be current |
| `DirSync.Connection.CheckTimes` | src/file_sync_client.c:770-787 | every file gets the verdict of the reply to its own request |
| `DirSync.StalePicked` | src/file_sync_client.c:788-801 | what is stale is each file of the list whose reply is not current, once for each time it is listed, in the order of the list |
| `DirSync.Connection.Push` | src/file_sync_client.c:770-806 | on a completed run the files pushed are those at exactly the places of the list whose own reply is not current, in the order of the list, and pushed plus skipped is its length; without a failing call every run completes |
| `DirSync.Connection.CopyDir` | src/file_sync_client.c:743-809 | the whole run: it fails at once exactly when a path is empty or the root's scan fails, and otherwise takes exactly what the scans get, all of it reached by paths |
| `Rsa.OddInverseIs` | src/adb_auth_host.c:103-104 | an odd number has an inverse modulo every power of two |
| `Rsa.InverseUnique` | src/adb_auth_host.c:104 | that inverse is the only one below the modulus |
| `Rsa.PublicKey.FillLimbs` | src/adb_auth_host.c:108-113 | the destructive limb loop leaves words that sum to the two numbers |
| `Rsa.PublicKey.FromRsa` | src/adb_auth_host.c:78-114 | it accepts exactly the moduli of 256 bytes; the words of n sum to the modulus, those of rr to 2^4096 modulo it, and n0inv times n[0] is -1 modulo 2^32 if and only if it is odd |
| `Usb.MaskIsModulus` | src/usb_linux.c:443-451 | the mask test is the remainder by the packet size |
| `Usb.Handle.UsbWrite` | src/usb_linux.c:437-473 | a write succeeds unless a transfer fails, in transfers of at most 4096 bytes; a successful one puts exactly the data on the wire, with exactly one short packet, the last, if and only if the interface asks for termination or the data does not fill its packets |

## Left out

- Link.RunKeeps: one transport, and no id used twice; `Refine` stops a run of the engines before their 32-bit ids come
  round. A session may begin at any time in a run, but SYNC(0), after which packets are dropped until CNXN, is not part
  of one.
- Runs.EveryRun: a client with a smart socket is kept beside the graph, with the transport it has chosen; its socket
  enters the graph when its request is handed to a device, taking its id from the counter at that moment. Smart sockets
  and local-to-local service pairs are no peers in it.
- Runs.StepGood: handlers and close_all_sockets, which another thread calls, are taken to exclude each other; the
  program does not ensure it, as find_local_socket gives up the lock before its caller uses the socket.
- Host.Engine.Request: requires that the pointer kept leads to the object chosen, which `Safety.RequestSafe` says when
  it does.
- Pumps.GatingHolds: speaks of what is handed to write_to_remote, whose result the program ignores.
- FdEvent.FdLoop.Process: takes select to report watched descriptors only.
- FdEvent.FdLoop.InstallEntry: new slots of a grown table are null, and the 1024 descriptors an fd_set holds are no
  limit.
- FrontEnd.SmartSocket.Feed: packets are not empty, as a local socket only passes on what it has read.
- Listing.FormatListeners: says nothing of a buffer that ends inside a line with more lines behind it, where the program
  does not stop.
- Explicit disconnect of a transport (src/transport.c:1063-1095), which drops a reference beyond the initial two.
- What becomes of a packet after a write error in local_socket_enqueue, and short or failed writes of a status.
- Truncation of command buffers by snprintf; banner properties other than the connection type.
- OpenSSL, key files and signing; USB request handling below usb_bulk_write; the fork, pipe and file-system calls.
- Command-line help, tracing, terminal handling, daemon launch, USB discovery, the vendor table and device-only
  services.
