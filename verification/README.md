# A model of the connection engine of ext-quiche

The engine serves QUIC connections to PHP. Every connection has a driver (`StreamQuicDriver`) on a
worker thread; one PHP thread runs the server loop. They meet only through bounded queues: one event
channel (8192 slots) and one close channel (1024) shared by all drivers, and one write channel (256)
with a wake-up signal per connection. The model proves what this machinery promises: no byte is lost or
reordered in either direction, a chunk goes to the callback of its own stream, a blocked stream does not
disturb the others, streams are announced once and first, `on_close` is called at most once and, where
that is true, exactly once, nothing is called afterwards, and close signals are not lost. Where a promise holds only under a condition, the condition
is proved to be exact, or a reachable state that breaks the promise is given.

## How it is built

Three small transition systems hold the protocol, each step being what a thread does between two points
where others can act:

- `ReadPass`: the read side of a driver, `process_reads` cut at every reservation, send and receive;
- `WritePass`: the write side of a connection, the PHP `write`, the wake-up signal and `process_writes`;
- `Server`: the PHP thread, that is the biased select, event dispatch, both close paths, and whatever
  PHP code does from inside a callback (open streams, install callbacks).

`System` composes one `Server` with any number of drivers and the shared channels, under arbitrary
interleaving. `SystemInvariant` and `ServerStepInvariant` prove that every step keeps one invariant,
`RunInvariant` extends it to all runs. `Deliveries` says what is dispatched, `Routing` to which slot pair
it goes and which callback hears it, `Lifecycle` what happens to connections, permits, wake-ups and
writes. `History` ties what the engine records (written, taken, arrived, signalled, opened) to the actions
of its runs, and states the end-to-end results on these actions. `WriteOrder` gives the exact condition under which what quiche accepted is a prefix of what PHP
submitted, `FlushOrder` the independence of streams inside one flush pass, and `Witnesses` the reachable
states in which a promise fails.

`StreamQuicDriver`, `QuicheServer`, `Streams` and `Channels` are the imperative code: classes whose
methods keep the loops, branches and fields of the Rust code, with the other threads acting between
their steps. Each method is proved to be a run of the step relation of the corresponding system (`Reads`,
`Writes`, `Serves`), so that the invariants of the three systems (`ReadInv`, `WriteInv`, `ServerInv`) hold
of the loops, and states on top what the call itself achieves. The theorems of `Deliveries`, `Routing` and
`Lifecycle` are about runs of `System`, whose guards (room in a channel, the head of a queue) the three
relations do not record. `Quiche` is the environment: what the code relies on of a quiche connection, with
quiche's own decisions left open.

State marked as history (`emitted`, `arrived`, `submitted`, `settled`, `calls`, `slots`, ...) only
records; no step reads it to decide anything. A stream travels as items: its bytes and then possibly a
FIN mark, so conservation statements speak of content, order and FIN at once. An event is *dispatched*
when the server takes it for a live connection; its chunk is *heard* if a callback was found and called.

Every result on the whole engine assumes at most 2^64 accepted connections, which
`Server.IdsDistinctIffNoWrap` shows to be exactly the condition under which ids are not reused.

## Model

| member | source | states |
|---|---|---|
| ReadPass.StepKeepsInv | src/quiche/driver.rs:73-129 | at every point of the read loops, interrupted anywhere: what the peer sent on a stream is, in order, what was sent as Data events followed by what quiche still holds; the announced-stream set is the replay of the events; the event log is well formed |
| ReadPass.RecvConserves | src/quiche/driver.rs:103-116 | a receive moves exactly the items it removes from quiche into one event, the FIN going with the last byte |
| ReadPass.AnnouncedOnceAndFirst | src/quiche/driver.rs:79-105 | in a driver's event log: NewBidi only for ids with low bits 00, NewUni only for 10, each at most once; data of an id with bit 0 clear only after its New event; nothing of a stream after its FIN; a chunk carries something and fits the 65536-byte buffer |
| ReadPass.ReadsKeepInv | src/quiche/driver.rs:73-129 | whatever `process_reads` leads to satisfies the read invariant |
| WritePass.StepKeepsInv | src/quiche/driver.rs:131-173 | at every point of a write, a wait or a flush: everything submitted on a stream is, in order, settled, pending or queued; quiche has the accepted part; no wake-up is lost; only blocked non-empty queues stay behind a pass |
| WritePass.RunKeepsInv | src/quiche/driver.rs:131-173 | the same over every run |
| WritePass.CutConserves | src/quiche/driver.rs:152-156 | a partial accept splits the head chunk without loss and the FIN stays with the remainder |
| WritePass.FinAcceptedLast | src/quiche/driver.rs:147-166 | a FIN is settled only after every earlier submitted byte of its stream, over any number of partial accepts, and is the last item of its own send |
| WritePass.StuckMeansRefused | src/quiche/driver.rs:146-160 | a stream given up in a pass was refused by the last send on it |
| WritePass.FlushIsWorkConserving | src/quiche/driver.rs:146-170 | after a pass every queue left is non-empty and its stream's last send was Done or partial |
| WritePass.WritesKeepInv | src/quiche/driver.rs:131-173 | whatever `process_writes` leads to satisfies the write invariant |
| WriteOrder.PositionsPickAccepted | src/quiche/driver.rs:147-168 | what quiche accepted of a stream stands at increasing positions of what was settled there |
| WriteOrder.GaplessIffInOrder | src/quiche/driver.rs:161-166 | those positions are 0, 1, 2, ... if and only if no accepted segment follows a dropped one, empty segments aside |
| WriteOrder.SentByPosition | src/quiche/driver.rs:147-168 | the same against what PHP submitted, for any write side that keeps the invariant |
| WriteOrder.OrderAfterStep | src/quiche/driver.rs:148-166 | one step breaks the order exactly if it is a send that takes at least one item on a stream that has dropped at least one |
| WriteOrder.PrefixIffNeverOvertook | src/quiche/driver.rs:147-168 | over every run: the accepted items are the first submitted ones if and only if no such send was made |
| WriteOrder.SentIsPrefixOfSubmitted | src/quiche/driver.rs:147-168 | derived from it: if hard errors are final for their stream, quiche has accepted a prefix, and what is missing is outstanding when no error was met |
| WriteOrder.NonStickyErrorsReorder | src/quiche/driver.rs:161-166 | a run in which a chunk is dropped and the next one overtakes it |
| WriteOrder.EmptyDropKeepsOrder | src/quiche/driver.rs:161-166 | an error on an empty chunk that is not final does no harm |
| FlushOrder.FlushIndependent | src/quiche/driver.rs:144-170 | if quiche's answers on a stream are any function of what it was offered there, a pass leaves on each stream the queue and the accepted items of flushing that stream alone, whatever the visiting order |
| FlushOrder.FlushAloneFillsWindow | src/quiche/driver.rs:146-170 | flushing one queue splits it in order, uses the window to the full, and leaves nothing exactly when it fits |
| FlushOrder.SharedWindowOrder | src/quiche/driver.rs:144-170 | with one send window for the connection the visiting order is irrelevant if and only if the window is empty, or everything fits, or at most one stream has bytes |
| FlushOrder.SharedPassOutcome | src/quiche/driver.rs:144-170 | a pass, step by step, under one window for the connection leaves on each stream the outcome `SharedWindowOrder` speaks of |
| Server.StepKeepsInv | src/quiche/socket.rs:110-341 | every step of the PHP thread, re-entrant calls included, keeps each slot pair in exactly one place (registered, about to be fired, overwritten, fired), silence after on_close, and a recorded reason for every on_close |
| Server.StepKeepsSlots | src/quiche/socket.rs:110-341 | the part about slot pairs |
| Server.StepKeepsFlags | src/quiche/socket.rs:114-123 | the part about the peer flag: each on_close is justified by a FIN or by the flag its connection was closed with |
| Server.FiredAtMostOnce | src/quiche/socket.rs:343-353 | no slot pair is fired twice, on any of the three paths |
| Server.InstallStores | src/stream.rs:15 | installing puts the callback in its slot and leaves every other slot alone |
| Server.FiredExactlyOnceOnceGone | src/quiche/socket.rs:210-217 | once its connection is gone a slot pair has been fired if and only if it was registered on the live connection and never overwritten |
| Server.RegisteredNotFired | src/quiche/socket.rs:333-338 | a registered slot pair has not been fired |
| Server.NoDataAfterClose | src/quiche/socket.rs:312-338 | no on_data of a slot pair follows its on_close |
| Server.ClosedStaysSilent | src/quiche/socket.rs:110-129 | after close() every further step keeps the server closed and calls nothing |
| Server.ClosedDownFiredAll | src/quiche/socket.rs:114-123 | after close() each slot pair has its exact number of on_close calls |
| Server.IdsDistinctIffNoWrap | src/quiche/socket.rs:188 | connection ids are pairwise distinct if and only if at most 2^64 were drawn from the 64-bit counter |
| ServerStepInvariant.StepKeepsInv | src/quiche/socket.rs:151-240 | every step of any thread keeps the invariant of the whole engine: channels, logs, drivers, slot maps, deliveries, closes and flags together |
| ServerStepInvariant.DispatchDelivers | src/quiche/socket.rs:250-341 | dispatching one event extends what was dispatched of each connection by exactly that event, or drops it if its connection was removed |
| ServerStepInvariant.DataFindsPairIff | src/quiche/socket.rs:312-315 | a chunk of a live connection finds a registered pair if and only if bit 0 of its stream id is clear or PHP has opened it |
| ServerStepInvariant.ServerKeepsKeys | src/quiche/socket.rs:256-338 | the keys of a slot map stay tied to the replay of the events dealt with and to what PHP opened |
| ServerStepInvariant.ServerKeepsCloses | src/quiche/socket.rs:210-217 | queued close signals stay distinct and about live connections |
| SystemInvariant.ReadKeepsInv | src/quiche/driver.rs:73-129 | a read step of any driver keeps the invariant of the whole engine |
| SystemInvariant.ReadKeepsChannel | src/quiche/driver.rs:81-124 | the permits outstanding are exactly those of the drivers between a reservation and its use, and never exceed the room left |
| SystemInvariant.CloseKeepsCloses | src/quiche/driver.rs:186-196 | a close signal, delivered or lost, keeps the invariant of the close channel |
| RunInvariant.RunKeepsInv | src/quiche/socket.rs:135-240 | the invariant holds in every state of every run |
| Deliveries.ReadsConserved | src/quiche/driver.rs:98-126 | for every connection, live or removed: bytes dispatched, then those in events queued or dropped, then those in quiche's buffer are exactly what the peer sent, in order, the FIN last, for any number of drivers on one channel |
| Deliveries.LiveUndeliveredIsQueued | src/quiche/socket.rs:251-254 | of a live connection nothing was dropped |
| Deliveries.DeliveredExactly | src/quiche/socket.rs:250-341 | the events of a connection are dispatched up to its cut, each once, in order |
| Deliveries.LogAnnouncesOnceAndFirst | src/quiche/driver.rs:76-116 | the same for every connection in every reachable state of the whole engine |
| Deliveries.FinLastInData | src/quiche/driver.rs:104-116 | a FIN is the last delivered item of its stream |
| History.ReadsEndToEnd | src/quiche/driver.rs:98-126 | read conservation on the actions of a run: the bytes and FINs that arrived, arrival by arrival, are those dispatched, then those undelivered, then those in quiche |
| History.WritesEndToEnd | src/quiche/driver.rs:131-173 | write conservation on the actions of a run: the bytes and FINs PHP wrote, write by write, are those settled, pending and in the channel; and without a hard error those quiche took, send by send, and those outstanding |
| History.SubmittedIsWritten | src/stream.rs:67-83 | what the model records as submitted is the concatenation of the data and FINs of the writes that succeeded |
| History.SentIsTaken | src/quiche/driver.rs:147-160 | what it records as accepted is the concatenation of what each send took of the chunk it offered |
| History.SignalledIff | src/quiche/driver.rs:186-196 | a close is on record with a flag if and only if its driver signalled it with this flag |
| History.OnCloseFlagIsRight | src/quiche/driver.rs:181-191 | on_close gets `true` only after a FIN of that stream or a driver's signal of a peer close, `false` only after a signal of another close or a close() of the server |
| History.OpenedIff | src/stream.rs:85-114 | a stream counts as opened by PHP if and only if PHP opened it |
| Deliveries.SlotMapSimulatesSeenIff | src/quiche/socket.rs:256-338 | replaying the unfinished events over the client-initiated keys of the server's slot map gives exactly the driver's announced streams if and only if each of those keys that only PHP has made known is announced or ended by one of these events |
| Deliveries.SlotMapSimulatesSeen | src/quiche/socket.rs:256-338 | hence whenever PHP opened no client-initiated id; and in any case the replay misses no announced stream and exceeds them only by what PHP opened |
| Deliveries.CloseCutsAtPoll | src/quiche/socket.rs:155-166 | when a close is taken, exactly the events present at this iteration's event poll have been received |
| Deliveries.DroppedExactlyAfterPoll | src/quiche/socket.rs:251-254 | for ever after, the events dropped as late are exactly those sent between the two polls; nothing is dropped if and only if there were none |
| Deliveries.StopBeforePollDropsNothing | src/quiche/socket.rs:155-166 | if the driver had signalled its close before some event poll that precedes the taking of that close, every event it ever sent was dispatched |
| Routing.CallsGoToTheirOwnPair | src/quiche/socket.rs:256-328 | the pair an on_stream call hands out, and the pair whose on_data is called, was registered on the live connection for the stream of that very event |
| Routing.AnnouncedOnce | src/quiche/socket.rs:257-305 | on_stream is called at most once for each client-initiated stream and for no other |
| Routing.AnnouncedPairIsOnly | src/quiche/socket.rs:257-305 | a client-initiated stream that PHP did not open itself has no other pair than the one it was announced with |
| Routing.ChunksFollowTheirAnnouncement | src/quiche/socket.rs:312-328 | each chunk of such a stream goes to the pair of its on_stream call, which came before |
| Routing.CallbackHearsItsStream | src/quiche/socket.rs:312-328 | if on_data was installed on the only pair of a stream before its first chunk was dispatched, what the callback heard, then what is undelivered, then what quiche holds is exactly what the peer sent, in order |
| Routing.AnnouncedCallbackHearsItsStream | src/stream.rs:45-50 | the same for the pair handed to on_stream, whatever PHP does meanwhile except opening the peer's stream id |
| Routing.CallbackHearsItsStreamIff | src/quiche/socket.rs:312-328 | exactly when: from the dispatch of the first chunk on, the callback hears the whole stream if and only if its pair was there with a callback at that dispatch |
| Routing.ChunkUnheardIff | src/quiche/socket.rs:312-327 | a dispatched chunk reaches no callback if and only if bit 0 of its stream id is set and PHP has not opened it, or nothing is installed on its pair |
| Routing.OnCloseCallbackRunsOnce | src/stream.rs:52-61 | an on_close callback installed before its pair was fired has run exactly once when the connection is gone, for pairs registered live and not overwritten |
| Routing.OnCloseCallbackRunsIff | src/quiche/socket.rs:343-353 | exactly when: for ever after a pair is fired, its on_close callback has run once if one was installed at that step, and never otherwise |
| Routing.OnlyPairFiredOnce | src/quiche/conn.rs:82-123 | in terms of what PHP opens: the only pair of its stream, once its connection is gone, was fired exactly once if it was registered while the connection was live, and never otherwise |
| Routing.AnnouncedPairFiredOnce | src/quiche/socket.rs:210-217 | exactly once for the pair of every announced stream whose id PHP did not open itself |
| Routing.InstalledCallbackHears | src/stream.rs:9-17 | from the step in which PHP installs a callback, and until it installs another in the same slot, that callback hears every call to the slot |
| Lifecycle.OnCloseAtMostOnce | src/quiche/socket.rs:343-353 | at most once, in every reachable state of the engine |
| Lifecycle.OnCloseExactlyOnce | src/quiche/socket.rs:210-217 | the exact count of on_close calls once a connection is gone |
| Lifecycle.SilentAfterOnClose | src/quiche/socket.rs:312-338 | silence after on_close over whole runs |
| Lifecycle.ClosedServerStaysSilent | src/quiche/socket.rs:110-129 | from the step that ends close() on, no callback is called and nothing accepted in any later state, whatever surviving drivers send |
| Lifecycle.DroppedOnlyIfRemoved | src/quiche/socket.rs:196-202 | although a driver starts before its record is inserted, an event or close is discarded only for a connection already removed |
| Lifecycle.PermitsNeverLeak | src/quiche/driver.rs:81-124 | queued events and permits never exceed 8192, and no permit outlives the place that took it |
| Lifecycle.RefusedOnlyWhenFull | src/quiche/driver.rs:81-102 | a driver is refused a permit only when events and permits add up to 8192 |
| Lifecycle.WritesConserved | src/quiche/driver.rs:131-173 | write conservation on every stream of every connection in every reachable state |
| Lifecycle.WaitingDriverCanWake | src/quiche/driver.rs:68-71 | a running driver that waits while messages are queued can be woken by the next step of the engine, or by the one after the writer's notify, which can be taken at once |
| Lifecycle.FlushIsWorkConserving | src/quiche/driver.rs:146-170 | in every run of the engine: what a driver keeps queued after a pass is on a stream whose last send was Done or partial |
| Lifecycle.FinSettledLast | src/quiche/driver.rs:147-166 | in every reachable state: a FIN is settled only after everything submitted before it on its stream |
| Lifecycle.AcceptedIsPrefixIff | src/stream.rs:67-83 | for every stream of every connection over all runs of the engine: what quiche accepted are the first items PHP wrote if and only if no send took anything after something was dropped |
| Lifecycle.AcceptedIsPrefixOfSubmitted | src/stream.rs:67-83 | hence, with final errors, always a prefix |
| Lifecycle.QueuedClosesBelowLive | src/quiche/driver.rs:191-196 | a driver about to signal finds fewer queued closes than there are live connections |
| Lifecycle.CloseFindsRoom | src/quiche/socket.rs:30-32 | with at most 1024 live connections a close signal finds room however full the event channel is |
| Lifecycle.LostCloseLeaks | src/quiche/driver.rs:191-196 | a connection whose close was lost stays live and its registered pairs unfired until the server is closed |
| Witnesses.CloseLostIffOverCapacity | src/quiche/driver.rs:191-196 | a close can be lost if and only if more than 1024 connections are live |
| Witnesses.LateEventsHappen | src/quiche/socket.rs:251-254 | a run in which the driver signals its close after having sent the peer's last bytes, and these are never dispatched although the connection is gone |
| Witnesses.UnheardWithoutCallback | src/quiche/socket.rs:318-327 | a reachable state in which a chunk of an announced stream reached no callback, none being installed yet |
| Witnesses.UnheardWithoutPair | src/quiche/socket.rs:312-317 | a reachable state in which a chunk on a server-initiated stream reached no callback, PHP not having opened it |
| Witnesses.InstalledCallbacksAreCalled | src/quiche/socket.rs:318-337 | a reachable state in which an installed on_data callback has heard the peer's chunk and an installed on_close callback its FIN |
| Witnesses.WritesReachQuiche | src/quiche/driver.rs:68-71 | a reachable state in which what PHP wrote while the driver waited was accepted by quiche, with its FIN |
| Witnesses.OverwrittenPairIsNeverFired | src/quiche/conn.rs:91-98 | PHP opens an id twice on a live connection: the first pair misses its on_close |
| Witnesses.LatePairIsNeverFired | src/quiche/conn.rs:91-98 | PHP opens a stream through a kept handle after the connection was removed: the pair misses its on_close |
| Witnesses.OwnOpenBreaksSimulation | src/stream.rs:88-99 | PHP opens a client-initiated id: the slot map then knows a stream the driver has not announced |
| StreamQuicDriver.StreamQuicDriver.ProcessReads | src/quiche/driver.rs:73-129 | terminates, is a run of the read side, holds no permit afterwards, and unless a permit was refused leaves every reported stream drained or failed |
| StreamQuicDriver.StreamQuicDriver.Announce | src/quiche/driver.rs:79-92 | announces only with a permit in hand, and stops the pass when refused one |
| StreamQuicDriver.StreamQuicDriver.DrainStream | src/quiche/driver.rs:98-126 | drains one stream, a permit before each receive, touching no other stream |
| StreamQuicDriver.StreamQuicDriver.Receive | src/quiche/driver.rs:103-125 | uses or returns its permit on every outcome and makes progress when it read something |
| StreamQuicDriver.StreamQuicDriver.ProcessWrites | src/quiche/driver.rs:131-173 | while PHP may go on writing: terminates, is a run of the write side, leaves only non-empty queues whose last send was not taken in full, and leaves messages in the channel only with a wake-up due |
| StreamQuicDriver.StreamQuicDriver.DrainChannel | src/quiche/driver.rs:136-142 | while PHP adds finitely many messages: moves every one to its stream's queue until the channel is found empty |
| StreamQuicDriver.StreamQuicDriver.FlushQueue | src/quiche/driver.rs:146-170 | flushes one queue until it is empty or refused; the entry is kept exactly if something is left |
| StreamQuicDriver.StreamQuicDriver.SendHead | src/quiche/driver.rs:147-148 | offers the head chunk and carries out one step of the flush |
| StreamQuicDriver.StreamQuicDriver.OnAnswer | src/quiche/driver.rs:148-167 | the four outcomes of one send: full, partial, Done, hard error |
| StreamQuicDriver.StreamQuicDriver.WaitForData | src/quiche/driver.rs:68-71 | ends exactly when a wake-up is stored; a driver that goes on waiting has nothing queued, or the writer is about to notify |
| StreamQuicDriver.StreamQuicDriver.OnConnClose | src/quiche/driver.rs:175-197 | signals the close with the peer flag, or loses it when the channel is full |
| QuicheServer.ServesKeepsInv | src/quiche/socket.rs:110-341 | whatever the methods of the server lead to satisfies the server invariant |
| QuicheServer.QuicheServer.RegisterSlots | src/quiche/conn.rs:82-132 | a fresh slot pair replaces whatever was registered for the id |
| QuicheServer.QuicheServer.InstallSlot | src/stream.rs:9-17 | a callable is stored in the slot, replacing what was there, anything else is refused without effect |
| QuicheServer.QuicheServer.DispatchDriverEvent | src/quiche/socket.rs:250-341 | a run of the server; an event of an unknown connection changes nothing, any other is handed over by the first call made, all further ones being on_close |
| QuicheServer.QuicheServer.DispatchNew | src/quiche/socket.rs:257-305 | registers a fresh pair, then calls on_stream once |
| QuicheServer.QuicheServer.DispatchData | src/quiche/socket.rs:307-339 | calls on_data of the registered pair, and on FIN one on_close(true), even if on_data replaced the pair |
| QuicheServer.QuicheServer.HandleConnClosed | src/quiche/socket.rs:210-223 | removes the connection and fires each remaining pair once, with the flag of the signal; unknown connections are ignored |
| QuicheServer.QuicheServer.AcceptConnection | src/quiche/socket.rs:186-202 | takes the counter's value as id, starts with an empty slot map, then inserts the record |
| QuicheServer.QuicheServer.Close | src/quiche/socket.rs:110-129 | leaves no connection and no listener, and every live, non-overwritten pair fired exactly once |
| QuicheServer.QuicheServer.Turn | src/quiche/socket.rs:151-240 | one biased select while drivers go on sending: the oldest event; or, once all events sent before the turn were received, the oldest close; or, once that holds of the closes too, accept if a connection is there, else return if the timer fires, and only then |
| QuicheServer.QuicheServer.Tick | src/quiche/socket.rs:135-246 | while drivers go on sending: every turn is accounted for (an event, a close, or both queues found empty), PHP is given exactly the events received, oldest first, of every connection that stays, each connection found waiting is accepted, and the call ends exactly at the first empty turn at which the timer fires |
| Streams.StreamHandle.Write | src/stream.rs:67-74 | succeeds exactly if the driver is there and the channel holds fewer than 256 messages, then queues the data and the FIN asked for and notifies; otherwise nothing changes |
| Streams.StreamHandle.Close | src/stream.rs:77-83 | the same with a bare FIN |
| Channels.EventChannel.TryReserve | src/quiche/driver.rs:81-84 | whatever other threads did in between, a permit is refused exactly when queued and reserved slots fill the channel |

## Left out

- quiche and tokio_quiche internals: packets, TLS, loss recovery and flow-control arithmetic; `Quiche` keeps the contracts of the four calls the driver makes. That quiche reports no stream whose FIN it has handed over, and delivers nothing new during a call, is assumed there.
- That the worker loop runs `process_writes` between any wake-up and the next wait is assumed (the phases of `WritePass` allow no wait before a pass); it is tokio_quiche's loop.
- Revisiting a stream after a full event channel broke the read loop: the id is not put back, and whether it is reported again is quiche's decision. Fairness and progress of the select and of accepts are not stated either.
- Routing.OnCloseCallbackRunsOnce: "exactly once" in the documentation of the setters (src/stream.rs:52-53) holds only for pairs registered on a live connection and not overwritten by a second open of the same id; the other pairs are never fired (`Witnesses` has both cases).
- Lifecycle.OnCloseFlagIsRight: the documentation counts a peer-side timeout as closed by the peer (src/stream.rs:56-57); the driver reports every timeout as local (src/quiche/driver.rs:183-186), and the model follows the driver.
- Lifecycle.CloseFindsRoom: the comments that a close can never be dropped (src/quiche/driver.rs:30-33, src/quiche/socket.rs:30-31) hold up to 1024 live connections.
- QuicheServer.QuicheServer.Tick: the endless loop is cut after a given number of turns, and what the accept and timer arms find at each turn is a parameter.
- StreamQuicDriver.StreamQuicDriver.DrainChannel: termination needs that PHP adds finitely many messages while the loop runs.
- Aliasing of shared cells: slot pairs are numbered instead of being allocated cells, the slot maps of all connections are one table in the server object, and locks appear as the places where they are held.
- Calls that would block for ever on a lock the thread already holds (opening a stream on a connection while its close path runs, replacing a callback from inside itself) are not steps.
- `tick()` or `close()` on the server object from inside one of its callbacks (src/conn.rs:85-126): the outer call still holds the object exclusively, so what would happen is not defined by this code.
- More than PHP can do: user code may act at every point where a callback could run, may install an on_data callback on a server-initiated unidirectional stream, and may write after the driver has stopped (where `Streams.StreamHandle.Write` fails). The proofs hold for these runs as well.
- Dropping the server object, which closes its receivers, so that reservations and close signals fail without the channel being full.
- Stream ids are natural numbers and the initiator and direction bits are arithmetic on them; bytes are numbers below 256.
- `on_conn_established` and `should_act`: a flag that gates the first pass.
- Error texts, logging, metrics, callback arguments other than data and flags, and errors thrown by callbacks, which the code ignores.
- src/config.rs, src/conn.rs, src/timer.rs, src/quiche/runtime.rs, src/quiche/error.rs and src/lib.rs: settings, constructors, the eventfd, runtime start-up and registration with PHP. The eventfd appears as the timer arm.
