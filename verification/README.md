# Daisyway in Dafny

Daisyway keeps a WireGuard pre-shared key in step on two hosts with keys from a QKD device. This project
models its three state machines and what they rest on, and proves what they promise for every run:

- **Connection manager** (`ManagerModel.dfy`, `ConnectionManager.dfy`). The server accepts any number of
  connections, of which at most one is active. Accepts, exits and keys arrive in any interleaving, also
  from tasks that have been aborted. The manager object, which updates its fields in place, is proved
  against a specification function; that refines a much simpler machine of three fields; and over whole
  runs there is no rollback, losses are accounted for exactly, and every abort handle is dropped once.
- **Rekey protocol** (`Kdf.dfy`, `Lockstep.dfy`, `Protocol.dfy`, `Composition.dfy`). A stop-and-wait
  exchange over a byte stream that is cut and chunked arbitrarily. An inductive invariant over both
  processes and both streams gives equal keys and a skew of at most one. The objects that run the
  protocol are proved to make only steps of these machines, and to do exactly as much as their
  environment allows: which keys are taken, which bytes written, which keys passed on. Any two of them
  at the ends of one TCP connection form a run of the protocol.
- **Deadman switch** (`Deadman.dfy`). A timed worker between the protocol and the key sink. Arrival times,
  wake-up delays and the sink's duration are arbitrary.
- **The composed system** (`System.dfy`, `Recovery.dfy`): a client that reconnects for ever, a server task
  per connection, the manager and the queues on both hosts. End-to-end agreement holds in every reachable
  state, all queues drain, and from every reachable state both hosts can be brought to hold the same new key.
- **What they rest on**: the key file path (`Base64.dfy`, `KeyFile.dfy`), the key server's client
  (`Etsi014.dfy`) and the simulated key server (`Simulator.dfy`, `UuidText.dfy`). The simulator is shown
  to be the key server that the agreement theorem needs.

Rust code that changes things step by step is a class or a method with loops; code made of expressions is
functions. I/O and the environment are arbitrary parameters: the events, chunks, cuts, failures, times and
random values of a run. An endless loop becomes a loop that ends when its environment makes it fail, or
when the given run is used up. An await point is a point between two steps.

Two assumptions are made explicit. Both hosts are configured with the same PSK and each other's peer ids
(`Kdf.ProtocolParameters.Mirrored`). And the key server files one key under each id and answers a request
for an id with that id: the client derives its key from the id that comes back, not from the one it asked
for, and `Kdf.SameInputIffServerEchoes` shows that nothing less would do.

Two statements come out with an exact condition. The simulator takes a request for a new key for the other
kind of request exactly when the SAE id contains `dec_keys` (`Simulator.FetchAnyIff`). An answer of the
key server crashes the client's task, instead of making it fail, exactly in the cases of
`Etsi014.ResponseCrashesIff`; among them are entries of 22 to 24 characters, because an assertion applies
`encoded_len` to the text that is already encoded.

## Model

| member | source | states |
|---|---|---|
| `ManagerModel.Refinement` | daisyway/src/internal/daisyway/net/tcp_server/connection_manager.rs:88-206 | in every run the manager represents the machine (next id, floor, live ids), and forwards a key exactly if its connection is live there |
| `ManagerModel.ForwardedIffLive` | daisyway/src/internal/daisyway/net/tcp_server/connection_manager.rs:140-206 | for one event of a run: forwarded if and only if its id is live in the simple machine |
| `ManagerModel.RepresentsPromotion` | daisyway/src/internal/daisyway/net/tcp_server/connection_manager.rs:171-206 | `remove`, `split_off` and `swap` leave exactly the ids from the promoted one on, which becomes the floor |
| `ManagerModel.RepresentsAccept` | daisyway/src/internal/daisyway/net/tcp_server/connection_manager.rs:88-119 | accepting adds the new id and takes away the oldest live id above the floor if there were 2000 |
| `ManagerModel.NoRollback` | daisyway/src/internal/daisyway/net/tcp_server/connection_manager.rs:121-206 | over every run the forwarded keys are strictly increasing by connection, then by round, also after the active connection has exited; each is the key its connection sent in that round |
| `ManagerModel.OutputsAreDeliveries` | daisyway/src/internal/daisyway/net/tcp_server/connection_manager.rs:165-206 | the tagged keys of these theorems are what the output key handler is called with |
| `ManagerModel.HandleConservation` | daisyway/src/internal/daisyway/net/tcp_server/connection_manager.rs:88-138 | every id below the next one is budding, active, or retired with its handle dropped exactly once; at most 2000 are budding |
| `ManagerModel.RetiredForever` | daisyway/src/internal/daisyway/net/tcp_server/connection_manager.rs:171-218 | a retired connection is never registered again |
| `ManagerModel.PruningBound` | daisyway/src/internal/daisyway/net/tcp_server/connection_manager.rs:88-119 | an accept prunes exactly if 2000 are budding; the victim is the oldest budding one, has at least 2000 newer ones counting the one being accepted, and is neither that one nor active |
| `ManagerModel.LiveExactly` | daisyway/src/internal/daisyway/net/tcp_server/connection_manager.rs:88-206 | an accepted connection is registered if and only if it has not exited, was not pruned, and no newer one has delivered a key |
| `ManagerModel.LossAccounting` | daisyway/src/internal/daisyway/net/tcp_server/connection_manager.rs:140-189 | a dequeued key is discarded if and only if its connection was pruned or a newer one had already delivered a key |
| `ManagerModel.ForwardedPrefix` | daisyway/src/internal/daisyway/net/tcp_server/connection_manager.rs:140-206 | if a key is forwarded, so were all earlier keys of its connection |
| `ManagerModel.AcceptDropsVictim` | daisyway/src/internal/daisyway/net/tcp_server/connection_manager.rs:95-106 | accepting drops the pruned handle and no other |
| `ManagerModel.ExitDropsOne` | daisyway/src/internal/daisyway/net/tcp_server/connection_manager.rs:121-138 | an exit drops one handle if its connection is registered, else none |
| `ManagerModel.PromotionDropsOlder` | daisyway/src/internal/daisyway/net/tcp_server/connection_manager.rs:187-202 | promotion drops the replaced active handle and those of all older budding connections |
| `TcpServer.ConnectionManager.constructor` | daisyway/src/internal/daisyway/net/tcp_server/connection_manager.rs:36-59 | a new manager is in the initial state of the specification |
| `TcpServer.ConnectionManager.EventLoop` | daisyway/src/internal/daisyway/net/tcp_server/connection_manager.rs:61-77 | the loop handles the events in order until accepting or the key handler fails; the handler has then received exactly the specified outputs |
| `TcpServer.ConnectionManager.OnEvent` | daisyway/src/internal/daisyway/net/tcp_server/connection_manager.rs:79-86 | one event takes the object to the specified next state, with exactly the specified call of the key handler |
| `TcpServer.ConnectionManager.OnAccept` | daisyway/src/internal/daisyway/net/tcp_server/connection_manager.rs:88-119 | allocates, prunes the oldest if full, registers; drops what the specification drops |
| `TcpServer.ConnectionManager.PruneOldest` | daisyway/src/internal/daisyway/net/tcp_server/connection_manager.rs:96-101 | `pop_first` takes out and aborts the oldest |
| `TcpServer.ConnectionManager.OnExit` | daisyway/src/internal/daisyway/net/tcp_server/connection_manager.rs:121-138 | forgets the connection wherever it is registered, and ignores unknown ids |
| `TcpServer.ConnectionManager.OnOsk` | daisyway/src/internal/daisyway/net/tcp_server/connection_manager.rs:140-169 | discards keys older than the active connection, forwards those of the active one, and promotes newer ones |
| `TcpServer.ConnectionManager.OnOskFromBudding` | daisyway/src/internal/daisyway/net/tcp_server/connection_manager.rs:171-206 | promotes a budding connection or ignores an unknown one; the state is updated even if the key handler then fails |
| `TcpServer.ConnectionManager.SplitAt` | daisyway/src/internal/daisyway/net/tcp_server/connection_manager.rs:176-189 | after `remove`, `split_off` and `swap` exactly the newer connections stay, and exactly the older ones are returned |
| `TcpServer.SplitOff` | daisyway/src/internal/daisyway/net/tcp_server/connection_manager.rs:188-188 | `split_off` divides the map at the key without losing an entry |
| `TcpServer.ConnectionManager.Activate` | daisyway/src/internal/daisyway/net/tcp_server/connection_manager.rs:201-202 | assigning the active connection aborts the replaced one |
| `TcpServer.ConnectionManager.Drop` | daisyway/src/internal/daisyway/net/tcp_server/abort_on_drop_handle.rs:17-21 | dropping a handle aborts its task |
| `TcpServer.ConnectionManager.DropAll` | daisyway/src/internal/daisyway/net/tcp_server/connection_manager.rs:187-189 | dropping the removed map aborts each of its tasks once |
| `TcpServer.ConnectionManager.AllocateConnectionId` | daisyway/src/internal/daisyway/net/tcp_server/connection_manager.rs:214-218 | ids are handed out consecutively |
| `Kdf.RekeyReqRoundTrip` | daisyway/src/internal/daisyway/crypto/basics.rs:110-122 | a request is 48 bytes, key id first, then the nonce; requests and 48-byte strings correspond one to one |
| `Kdf.ConnectionIdIsUnorderedPair` | daisyway/src/internal/daisyway/crypto/basics.rs:55-63 | two connection ids are equal if and only if they name the same two peers, in either order |
| `Bytes.LexTotal` | daisyway/src/internal/daisyway/crypto/basics.rs:57-57 | any two peer ids can be sorted |
| `Bytes.LexAntisymmetric` | daisyway/src/internal/daisyway/crypto/basics.rs:57-57 | the order is strict between different peer ids |
| `Bytes.LexByFirstDifference` | daisyway/src/internal/daisyway/crypto/basics.rs:57-57 | the first byte in which two peer ids differ decides their order |
| `Kdf.KdfInputLayout` | daisyway/src/internal/daisyway/crypto/basics.rs:65-96 | the place of every field in the 208 bytes that are absorbed, with the id in mixed-endian order and the peers sorted |
| `Kdf.ToBytesLeInvolutive` | daisyway/src/internal/daisyway/crypto/basics.rs:87-87 | the byte order change of the key id undoes itself |
| `Kdf.KdfInputInjective` | daisyway/src/internal/daisyway/crypto/basics.rs:65-108 | the 176-byte input is equal if and only if PSK, nonce, QKD key, id and the unordered pair of peers are |
| `Kdf.DerivationAbsorbs` | daisyway/src/internal/daisyway/crypto/basics.rs:20-108 | the derived key is the hash of exactly the 208 bytes laid out so, behind the domain hashed from 32 zeros, the protocol name and the purpose |
| `Kdf.DerivedKeysEqualIff` | daisyway/src/internal/daisyway/crypto/basics.rs:98-108 | unless the hash collides on the two absorbed strings, derived keys are equal if and only if PSK, nonce, QKD key, id and the unordered pair of peers are |
| `Kdf.MirroredHostsDeriveTheSame` | daisyway/src/internal/daisyway/crypto/basics.rs:98-108 | both roles of a mirrored pair derive the same key |
| `Kdf.SameInputIffServerEchoes` | daisyway/src/internal/daisyway/crypto/client.rs:56-70 | the hosts hash the same input if and only if the client was answered with the very key and id the server was issued |
| `Lockstep.ServerKeepsLockstep` | daisyway/src/internal/daisyway/crypto/server.rs:44-76 | every step of the server task keeps the invariant over both processes and both streams |
| `Lockstep.ClientKeepsLockstep` | daisyway/src/internal/daisyway/crypto/client.rs:42-71 | every step of the client keeps it |
| `Lockstep.AckKeepsLockstep` | daisyway/src/internal/daisyway/crypto/server.rs:67-75 | the acknowledgement read is always valid and acknowledges the current round; the derived key is that round's |
| `Lockstep.ReadKeepsLockstep` | daisyway/src/internal/daisyway/crypto/client.rs:50-54 | whatever the chunks, 48 bytes read are exactly the request of the round |
| `Lockstep.SkewAtMostOne` | daisyway/src/internal/daisyway/crypto/server.rs:44-76 | of the keys emitted on both sides of a connection one list is a prefix of the other, and they differ by at most one |
| `Lockstep.StreamsSynchronised` | daisyway/src/internal/daisyway/crypto/client.rs:49-66 | the n-th parsed request is the n-th sent; bytes are under way in one direction only, and they are a suffix of one message |
| `Protocol.DaisywayServerProtocol.constructor` | daisyway/src/internal/daisyway/crypto/server.rs:28-42 | a new task stands at the beginning of a connection |
| `Protocol.DaisywayServerProtocol.EventLoop` | daisyway/src/internal/daisyway/crypto/server.rs:44-50 | the task is a run of the model's server; the number of completed rounds is exactly the least of issued keys, room / 48, leading valid acknowledgements and queue places; every key taken was begun; the bytes written are the requests of the begun rounds, cut only by the room; it stops for the cause of its phase and no other |
| `Protocol.DaisywayServerProtocol.Rekey` | daisyway/src/internal/daisyway/crypto/server.rs:45-49 | one pass: the round's key is passed on if and only if nothing is missing, and otherwise the task stops for the cause of its phase |
| `Protocol.AcknowledgedIff` | daisyway/src/internal/daisyway/crypto/server.rs:67-73 | which acknowledgements count: the valid ones before the first invalid one |
| `Protocol.RequestAt` | daisyway/src/internal/daisyway/crypto/server.rs:60-65 | the i-th 48 bytes written are the request of the i-th round |
| `Protocol.DaisywayServerProtocol.NegotiateKey` | daisyway/src/internal/daisyway/crypto/server.rs:52-76 | exactly one key is taken if there is one, its request is written as far as there is room, one byte is read if all was written, and the round's key is returned if and only if that byte is the acknowledgement |
| `Protocol.DaisywayServerProtocol.ReadAck` | daisyway/src/internal/daisyway/crypto/server.rs:67-75 | one byte is read; the key is derived if and only if it is the acknowledgement |
| `Protocol.DaisywayServerProtocol.WriteAll` | daisyway/src/internal/daisyway/crypto/server.rs:62-65 | partial writes add up to the whole request, or to as much as the connection takes |
| `Protocol.FanoutOskHandler.SetOsk` | daisyway/src/internal/daisyway/net/tcp_server/fanout_osk_handler.rs:31-41 | a key is queued with the id of its connection, or the queue is closed |
| `Protocol.FreshEventsAt` | daisyway/src/internal/daisyway/net/tcp_server/fanout_osk_handler.rs:31-41 | the i-th event of a task carries its id, its i-th key and the reason fresh |
| `Protocol.InitTask` | daisyway/src/internal/daisyway/net/tcp_server/fanout_connection_handler.rs:43-89 | the events queued are exactly the keys of the completed rounds of the issued keys, in order, then the exit, which is reported if and only if there is a place left; with enough of everything all issued rounds complete |
| `Protocol.DaisywayClientProtocol.constructor` | daisyway/src/internal/daisyway/crypto/client.rs:28-40 | a new client object stands at the beginning of a connection |
| `Protocol.DaisywayClientProtocol.EventLoop` | daisyway/src/internal/daisyway/crypto/client.rs:42-47 | the client is a run of the model's client; the numbers of installed keys, acknowledgements and key requests are exactly what complete requests, answers, room and key places allow, in that order; the keys are those of the first requests read; it stops for the cause of its phase and no other |
| `Protocol.DaisywayClientProtocol.Serve` | daisyway/src/internal/daisyway/crypto/client.rs:43-46 | one pass: read, ask once, acknowledge, install, each if and only if what comes before has succeeded |
| `Protocol.RequestedKeys` | daisyway/src/internal/daisyway/crypto/client.rs:49-71 | a client that reads the requests of given rounds derives exactly the keys the server has for these rounds |
| `Protocol.EverythingServed` | daisyway/src/internal/daisyway/crypto/client.rs:42-71 | with enough of everything, n requests lead to n key requests, n acknowledgements and exactly the n keys of their rounds |
| `Protocol.DaisywayClientProtocol.WaitForKeyNegotiation` | daisyway/src/internal/daisyway/crypto/client.rs:49-71 | exactly one request is read, the key server is asked once, one acknowledgement is written, and the key derived from the answer is returned; if one of these fails nothing after it happens |
| `Protocol.DaisywayClientProtocol.AnswerRequest` | daisyway/src/internal/daisyway/crypto/client.rs:56-70 | the same for a request that has been read |
| `Protocol.DaisywayClientProtocol.ReadExact` | daisyway/src/internal/daisyway/crypto/client.rs:50-54 | the buffer gets exactly the next 48 bytes over any chunks, or the stream ends before |
| `Protocol.DaisywayTcpClient.EventLoop` | daisyway/src/internal/daisyway/net/tcp_client.rs:44-59 | connections are used one after the other; each contributes, in that order, exactly the keys that its bytes and what the earlier ones left of answers and key places lead to |
| `Protocol.DaisywayTcpClient.EventLoopWithoutErrorHandling` | daisyway/src/internal/daisyway/net/tcp_client.rs:61-72 | one attempt: nothing if the connection is refused, else exactly the keys of the requests it delivers, as a model run |
| `Composition.SomeoneCan` | daisyway/src/internal/daisyway/crypto/server.rs:52-76 | stop and wait never makes both sides wait for bytes that the other has not written |
| `Composition.RunsCompose` | daisyway/src/internal/daisyway/crypto/server.rs:44-76 | the runs of any two objects whose streams deliver prefixes of each other's writes interleave to one run of the connection, in lockstep; no acknowledgement in it is wrong |
| `Composition.ObjectsAgree` | daisyway/src/internal/daisyway/crypto/client.rs:42-71 | the keys that such two objects emit are the same, but for at most one at the end |
| `Composition.BothEnds` | daisyway/src/internal/daisyway/net/tcp_server/fanout_connection_handler.rs:43-89 | the same for the events in the manager's queue and the keys in the client's handler |
| `System.StepKeepsGood` | daisyway/src/internal/daisyway/net/tcp_server/connection_manager.rs:61-86 | every step of the composed system keeps its invariant |
| `System.ReachableGood` | daisyway/src/internal/daisyway/net/tcp_client.rs:44-72 | the invariant holds in every reachable state, over any number of reconnects |
| `System.DeliveredIsDerived` | daisyway/src/internal/daisyway/crypto/basics.rs:98-108 | a key passed on by the manager is the key of its round, and the client's |
| `System.EndToEndAgreement` | daisyway/src/internal/daisyway/net/tcp_server/connection_manager.rs:140-206 | in every reachable state forwarded keys equal the client's of the same connection and round, both sinks see strictly increasing tags, and equal tags mean equal keys |
| `System.HostsAtMostOneApart` | daisyway/src/internal/daisyway/crypto/server.rs:44-50 | in every reachable state, on every connection, the emitted keys of the two hosts agree up to one at the end |
| `System.ServerKeepsExits` | daisyway/src/internal/daisyway/net/tcp_server/fanout_connection_handler.rs:43-69 | whatever a task does, aborted or not, its exit is the last event it queues |
| `System.ReachableHistorySourced` | daisyway/src/internal/daisyway/net/tcp_server/fanout_connection_handler.rs:43-69 | the events the manager handles come from accepted connections, and none follows the exit of its connection |
| `System.ExactLosses` | daisyway/src/internal/daisyway/net/tcp_server/connection_manager.rs:159-185 | in every reachable state, exactly the pruned and the superseded connections lose a key that reached the manager |
| `System.SimulatorIsKeyServer` | simulator/src/main.rs:82-145 | the simulator meets the assumptions on the key server |
| `System.InstalledAsLogged` | daisyway/src/internal/daisyway/net/tcp_client.rs:44-72 | the keys installed over all connections are strictly increasing by connection and round |
| `System.DrainProgress` | daisyway/src/internal/daisyway/net/tcp_server/connection_manager.rs:61-86 | while anything is queued behind the 16-slot or an 8-slot queue, manager or worker can make a step |
| `System.DrainStep` | daisyway/src/internal/daisyway/net/tcp_server/connection_manager.rs:61-86 | each such step lowers the work left and loses no event |
| `System.QueuesDrain` | daisyway/src/internal/osk/deadman.rs:72-121 | once the producers stop, all queues drain in a bounded number of steps, and both sinks have then got exactly the keys forwarded and installed, in order |
| `Recovery.DrainAll` | daisyway/src/internal/daisyway/net/tcp_server/connection_manager.rs:61-86 | from every good state all queues can be emptied |
| `Recovery.AcceptAll` | daisyway/src/internal/daisyway/net/tcp_server/connection_manager.rs:88-119 | the server can work off its backlog, and the newest connection is then registered, whatever is pruned |
| `Recovery.NegotiateRound` | daisyway/src/internal/daisyway/crypto/server.rs:44-76 | on a new connection a round can be completed: the client installs the round's key and the manager is sent the same |
| `Recovery.AlwaysRecoverable` | daisyway/src/internal/daisyway/net/tcp_client.rs:44-72 | from every reachable state, for every QKD key and nonce, the system can go on to where both sinks hold the key derived from them as their last |
| `Deadman.RunSound` | daisyway/src/internal/osk/deadman.rs:97-121 | what every timed run keeps: requests are applied in order and as soon as the worker is free, erasures come exactly at the end of the lifetime or after the queue closes, each but for the timer's delay |
| `Deadman.DeadmanLifetime` | daisyway/src/internal/osk/deadman.rs:14-24 | the first write is an erasure at the start; from the end of a write to the next passes at most the lifetime plus the timer's delay; a clean shutdown applies all requests and ends with an erasure |
| `Deadman.AppliedInOrder` | daisyway/src/internal/osk/deadman.rs:40-46 | requests reach the sink in order of arrival, none lost or applied twice |
| `Deadman.OwnTurns` | daisyway/src/internal/osk/mod.rs:35-38 | every write not asked for carries a random key drawn for it alone, and is marked stale; no write comes without its turn of the loop |
| `Deadman.ErasedUntilRequested` | daisyway/src/internal/osk/deadman.rs:97-121 | after an erasure, until the next request is applied, the sink holds the random key of an erasing turn, so none of the requested keys unless the random key equals one |
| `Deadman.KeyIsGone` | daisyway/src/internal/osk/deadman.rs:14-24 | once lifetime, timer delay and the duration of one write have passed since a key was written without another request, the sink no longer holds it |
| `Deadman.ErasesIff` | daisyway/src/internal/osk/deadman.rs:103-120 | a turn erases for timeout if and only if at the deadline, plus its own delay, nothing has arrived and the queue is open |
| `Deadman.NoErasureBetween` | daisyway/src/internal/osk/deadman.rs:97-121 | two requests that arrive within one lifetime are written one right after the other, whatever the delays of timer and sink |
| `Deadman.PacedRunNeverErases` | daisyway/src/internal/osk/deadman.rs:97-121 | if all requests follow within a lifetime, nothing is erased between the first and the last |
| `Deadman.ProtocolKeepsKeyAlive` | daisyway/src/internal/daisyway/setup.rs:153-158 | with lifetime interval + 30 s a host never erases between two keys if negotiation, queueing and transit fit into the 30 s, corrected by the difference of the two intervals |
| `Deadman.ShutsDown` | daisyway/src/internal/osk/deadman.rs:110-114 | once all senders are gone, the worker shuts down within one turn per remaining request and one more |
| `Deadman.StoppedStays` | daisyway/src/internal/osk/deadman.rs:108-114 | after shutdown or a failed sink nothing is written any more |
| `Deadman.DeadmanWorker.constructor` | daisyway/src/internal/osk/deadman.rs:74-78 | a new worker has written nothing |
| `Deadman.DeadmanWorker.EventLoop` | daisyway/src/internal/osk/deadman.rs:97-121 | the worker object does what the timed run of the specification does |
| `Deadman.DeadmanWorker.NextTurn` | daisyway/src/internal/osk/deadman.rs:102-120 | one pass of the loop is one turn of the specification, in all three branches |
| `Deadman.DeadmanWorker.TimeoutAt` | daisyway/src/internal/osk/deadman.rs:103-104 | waiting ends at the earlier of event and deadline, and looks at the queue before the timer |
| `Deadman.DeadmanWorker.HandToBroker` | daisyway/src/internal/osk/deadman.rs:106-118 | the sink gets the key, or fails and the worker stops where it was |
| `KeyFile.Source.Read` | daisyway/src/internal/util.rs:21-26 | the contract of `read`: any amount, no bytes only at the end, or an error |
| `KeyFile.ReadToEndUpTo` | daisyway/src/internal/util.rs:10-31 | for every source, chunking and finite number of interruptions: terminates, returns the smaller of the two lengths, fills exactly that prefix and leaves the rest; fails exactly if it meets another error before that |
| `KeyFile.ReadingIsFull` | daisyway/src/internal/util.rs:15-29 | the outcome call by call: without an error that is not an interruption reading succeeds, and then it has read all there is room for |
| `KeyFile.LoadBase64KeyFile` | daisyway/src/internal/util.rs:49-58 | the key that the file's contents stand for, whatever the chunking |
| `KeyFile.LoadKeyIff` | daisyway/src/internal/util.rs:43-58 | exactly which files load as which key: encodings of at most 32 bytes, zero-padded, with or without one newline |
| `KeyFile.LongFileRejected` | daisyway/src/internal/daisyway/crypto/basics.rs:11-12 | files of 46 bytes or more are rejected |
| `KeyFile.EncodeInto` | daisyway/src/internal/osk/outfile.rs:43-44 | the buffer's prefix is the encoding, whose length is known in advance |
| `KeyFile.OutfileOskHandler.SetOsk` | daisyway/src/internal/osk/outfile.rs:27-55 | the file then holds the encoded key and nothing else, and the reason is reported |
| `KeyFile.KeyFileRoundTrip` | daisyway/src/internal/util.rs:43-58 | every key survives its file, with or without a trailing newline |
| `KeyFile.WriteThenLoad` | daisyway/src/internal/osk/outfile.rs:43-50 | the loader reads back what the handler writes |
| `Base64.StandardAlphabet` | daisyway/src/internal/osk/outfile.rs:44-44 | the symbols are those of table 1 in section 4 of RFC 4648 |
| `Base64.SplitIsBigEndian` | daisyway/src/internal/osk/outfile.rs:44-44 | a group of four symbols is the number that its three bytes form |
| `Base64.GroupSpellsNumber` | daisyway/src/internal/osk/outfile.rs:44-44 | the values of the four symbols, in their order, spell the number that the three bytes form |
| `Base64.GroupAt` | daisyway/src/internal/osk/outfile.rs:44-44 | each three bytes have their group in their place |
| `Base64.PaddedGroup` | daisyway/src/internal/osk/outfile.rs:44-44 | an incomplete last group is filled up with zero bits, then with padding |
| `Base64.EncodeLength` | daisyway/src/internal/daisyway/crypto/basics.rs:12-12 | four symbols for every three bytes begun |
| `Base64.DecodeEncode` | daisyway/src/internal/util.rs:45-45 | decoding undoes encoding |
| `Base64.EncodeDecode` | daisyway/src/internal/util.rs:45-45 | only encodings are accepted |
| `Base64.DecodeIff` | daisyway/src/internal/util.rs:43-47 | a text decodes to given bytes if and only if it is their encoding |
| `Etsi014.ResponseYieldsKeyIff` | daisyway/src/internal/etsi014.rs:133-172 | any answer of the server becomes a key if and only if it is a success with one entry, a readable id and 32 encoded bytes, and then that id and key |
| `Etsi014.ResponseCrashesIff` | daisyway/src/internal/etsi014.rs:136-145 | a single entry crashes the task if and only if its text is 22 to 24 long or encodes no string of at most 32 bytes |
| `Etsi014.ResponseFailsIff` | daisyway/src/internal/etsi014.rs:289-304 | exactly which answers fail with which error: status, unreadable id, number of entries, panic, wrong length |
| `Etsi014.FindOccurs` | simulator/src/main.rs:97-97 | `find` gives the first occurrence if there is one |
| `Etsi014.SplitsAtMark` | daisyway/src/internal/etsi014.rs:271-287 | the URL below the base splits into the intended path and query |
| `UuidText.UnhexHex` | simulator/src/main.rs:132-132 | hexadecimal digits are read back as their bytes |
| `UuidText.ParseFormat` | simulator/src/main.rs:98-132 | every UUID is read back from its text (section 4 of RFC 9562) |
| `UuidText.HexAt` | simulator/src/main.rs:132-132 | each byte is two lower-case digits, the high half first |
| `UuidText.FormatLayout` | simulator/src/main.rs:132-132 | the text is the digits of all bytes in order, with hyphens at 8, 13, 18 and 23 |
| `UuidText.ParseOtherForms` | simulator/src/main.rs:98-98 | the plain, braced and URN forms are read as the same UUID |
| `UuidText.FromU128Injective` | simulator/src/main.rs:119-119 | the id's bytes, the most significant first, form the counter value; different values give different ids |
| `Simulator.QkdSimulator.HandleKeys` | simulator/src/main.rs:82-145 | the handler answers and counts as specified, in all branches |
| `Simulator.LookupAnswers` | simulator/src/main.rs:58-121 | a request not served from the counter leaves it alone, and is answered if and only if it mentions `dec_keys` and a readable id follows the first `key_ID=`; otherwise the status is 404 for other paths and 400 for these |
| `Simulator.AnswerIsUnderstood` | simulator/src/main.rs:122-145 | what the simulator answers is read as exactly the id and key it stands for, and the key is the id twice |
| `Simulator.EncPathIsUnambiguous` | simulator/src/main.rs:89-94 | the path for a new key mentions `dec_keys` if and only if the SAE id does |
| `Simulator.FetchAnyIff` | daisyway/src/internal/etsi014.rs:271-278 | a new key is issued if and only if the SAE id does not contain `dec_keys`; otherwise status 400 and the counter stays |
| `Simulator.FetchSpecificEchoes` | daisyway/src/internal/etsi014.rs:280-287 | the very id asked for comes back with its key |
| `Simulator.IssuedKeyIsEchoed` | daisyway/src/internal/etsi014.rs:271-305 | the key one host is issued is what the other gets for its id, whatever was requested in between |
| `Simulator.CounterCounts` | simulator/src/main.rs:116-119 | over every sequence of requests the counter is the number of issued keys, modulo 2^64 |
| `Simulator.IssuedIdsDistinct` | simulator/src/main.rs:116-119 | two issued ids are equal if and only if a multiple of 2^64 keys was issued from one to the other; below 2^64 requests all are distinct |

## Left out

- SHAKE256: an arbitrary deterministic function. Nothing is claimed about secrecy or collisions; the unused `mix_fork` and `mix_trifork` are not modelled.
- Randomness: nonces and erasure keys are arbitrary values; nothing is claimed about freshness.
- TLS, certificates, WireGuard netlink, command line, configuration files, logging.
- HTTP and JSON: a request is its path and query, an answer its status or its list of entries. A malformed JSON document is not distinguished from a failed request.
- Simulator.FetchAnyIff: the SAE id contains no `?`. Fragments (`#`), percent-encoding and URL normalisation are not modelled, and the configured base URL is taken to have no path of its own. The same holds for Simulator.FetchSpecificEchoes and Simulator.IssuedKeyIsEchoed.
- Etsi014.ResponseCrashesIff: is about single entries with a readable id; `Etsi014.ResponseFailsIff` covers all answers.
- The crates `base64ct` and `uuid` are not part of this model: decoding is strict as section 4 of RFC 4648 allows, and UUIDs are read in the plain, hyphenated, braced and URN forms. Timing is not modelled.
- TcpServer.ConnectionManager.AllocateConnectionId: ids are unbounded numbers; the wrap-around of `usize` after 2^64 accepts is not modelled.
- The B-tree of budding connections is a map; `pop_first` is a search for its least key. The choice between a waiting connection and a waiting event is arbitrary.
- Several clients on one listener: the agreement theorem is about one client. The manager's theorems hold for any connections.
- System.EndToEndAgreement: aborting takes effect at an arbitrary later point of the task or never, as `abort` promises; the deadman workers appear without their clock, which Deadman.dfy adds. The fresh keys of the two models are related by their queues only.
- Composition.RunsCompose: speaks of one connection; it does not carry the interleaving of the objects of several connections into runs of `System`.
- Deadman.DeadmanLifetime: a failed sink stops the worker and the thread panics without erasing; nothing is claimed about the key after that. How late the timer is, is a parameter.
- A second pending accept, the listen backlog's limit, connect timeouts and the two seconds before reconnecting are arbitrary delays.
- The conversion helpers in `util.rs` (`OkExt`, `SomeExt`, `CascadeExt`, `DiscardResultExt`) would only add easy members.
