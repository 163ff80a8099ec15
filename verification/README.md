# ACGlass display protocol and demo clients: a verified model

This project models the parts of ACGlass that are hard to get right, and proves what they
promise, for all inputs and all runs.

* **The display protocol.** A consumer (the Android side) and a producer (the Weston side)
  meet through a daemon and then share a session: two event counters, one shared word, a data
  stream and a list of pixel buffers. Either side may drop into fallback at any time and open
  a new session. `Daemon.dfy` and `Contexts.dfy` give the meaning of every handler and library
  call; `Protocol.dfy` puts the daemon, any number of consumers and producers, their control
  sockets and all sessions into one transition system, in which sends, receives, hellos, polls
  and mappings may fail at any step.
  `DaemonSafety`, `DaemonLedger` and the `Protocol*` files prove what every run keeps, and
  `DaemonSteps` what each event changes, field by field.
  `DaemonImpl`, `ConsumerImpl` and `ProducerImpl` are the same programs in the form they run
  in: objects with fields, arrays and loops, each method proved to compute the handler of the
  model. `ProducerLibrary` follows every descriptor that the producer library owns, and
  `ProducerSimulation` ties it to the protocol.
* **The data stream, byte by byte.** `Wire.dfy` and `WireRuns.dfy`: packed layouts, `send_all`
  and `recv_all` under any short counts and interrupts, and whole conversations.
* **The smoke client.** `SmokeGrid`, `Smoke`, `SmokeImpl`: a maximum principle for in-place
  sweeps over grids of any size; `SmokeLaws`: the equations that each sweep solves.
* **The text entry of the editor.** `Utf8`, `Utf8Codes`, `Utf8Cuts`, `TextEntry`, `TextEntryFields`, and
  `CStrings` and `TextEntryImpl`, where
  the text is a NUL-terminated buffer and every copy is proved to stay in range.
* **simple-shm.** `ShmBuffers`, `ShmImpl`: buffer life cycle across resizes, and painting.
* **simple-damage.** `Bounce`: the reflection loop, its termination and where it ends.
* **The virtual keyboard.** `KeyWalk`: the drawing walk and the hit test.

`dafny verify dfyconfig.toml` checks everything.

## Reading the model

* A *run* is a sequence of events, and a *history* a sequence of happenings; theorems quantify
  over all of them. What the environment decides (which sends fail, what arrives, what a poll
  reports, random bits) is part of the event.
* `Fd(conn, group, slot)` names a descriptor by its origin, so that a descriptor closed twice or
  never is visible even though descriptor numbers are reused.
* A session is named `Gen(c, k)`: the `k`-th set of descriptors made on consumer connection
  `c`. Its `far` field says where the producer's half is.
* The log of the daemon lists deposits, screens, deliveries and notices in order.

Where a promise does not hold of the code, the code is modelled as it is, a lemma gives an
input that breaks the promise, and another states exactly when it holds:

* A producer whose only SCREEN_INFO failed to be sent stays connected without a screen
  (`StrandedProducer`, `ScreenReceived`), and a consumer whose notice failed to be sent stays in
  fallback for ever, whichever handler sent it (`LossIsForEver`, `LostNotice`, `LostHelloNotice`,
  `PickingHappens`, `AwaitedHappens`, `HandedOutStrands`); so does one whose hello was not sent
  (`LostHello`). `StrandsExactly` and `StrandedIf` name all the steps that do this.
* A frame does not always come back: a producer that cannot map a session keeps it open, and the
  consumer waits in refresh_done for good (`StuckHappens`, `WaitsForGood`, `StuckExactly`).
* The daemon loses descriptors attached to a short first header, to a producer hello, or to an
  oversized or cut-off message (`LeakExists`, `Conservation`).
* The producer library stays in fallback with four open descriptors when mapping the shared
  word fails, and the next answer overwrites them (`OverwriteForgets`, `ResourceStates`,
  `ClosedExactlyOnce`).
* The test on a buffer list admits sizes that do not fit the array they are read into
  (`LayoutsOverrun`, `LayoutsFit`).
* A poll of the data stream that fails inside a frame leaves the stream in the middle of it, and
  the next poll can return an event nobody sent (`Phantom`, `PollOne`).
* The bounce loop negates the velocity once per pass even when a pass reflects twice
  (`WrongWay`, `Reflect`), and never ends in an arena of length zero or less (`TerminatesIf`).
* The serial test accepts some replies of 2^32 states ago or more (`SerialWraps`, `SerialExact`)
  and refuses recent ones when the last reset is as old (`OldResetRefuses`, `ResetWindow`).
* From 2^31 bytes on, the test for surrounding text accepts ranges before the text or past its
  end (`SurroundingLimit`, `EarlyLimit`, `LateLimit`).
* A deletion announced by the input method may begin or end inside a character, and the commit
  that follows leaves broken text (`BrokenText`, `CutFormed`, `DeleteGoodIf`, `EveryEdit`).
* The squared distances that simple-shm paints with overflow an int in wide or tall windows, even
  where the buffer is small or no pixel is painted (`SquaresOverflow`, `SquaresFit`).
* A deletion announced by the input method survives other edits, and the commit that follows
  can abort the editor (`AbortHappens`, `AbortsIf`).

In two places the code does something other than it seems to say, and the model follows the
code: `project` clears a quarter of its pressure grid, because `memset` counts bytes
(`Smoke.ClearedBytes`), and the first row of the Arabic keyboard table is completed by the
key written at the start of its second row (`KeyWalk.ARABIC`).

## Model

| member | source | states |
|---|---|---|
| `ProtocolTheorems.SessionAgreement` | libdisplay_consumer/display_consumer.c:95-134 | After every history, hellos under way, a deposit, unread notices and "out of fallback" of one consumer add up to at most one, so a stale notice can never end a later fallback; out of fallback, the descriptors the consumer holds have already been sent to a producer |
| `ProtocolOrder.Alternation` | daemon/daemon.c:94-118 | After every history, deposits and FDS_READY notices that got through strictly alternate on each consumer connection, starting with a deposit, and a lost notice is the end of both |
| `ProtocolOrder.NoticedBetween` | daemon/daemon.c:109-118 | Between two deposits of one connection its consumer was successfully sent a notice |
| `ProtocolOrder.NothingAfterLoss` | daemon/daemon.c:109-115 | After a notice that was lost, its connection neither deposits nor is sent a notice again |
| `ProtocolTheorems.FrameHandoff` | libdisplay_consumer/display_consumer.c:231-289 | Per session, buffer-ready tokens, refresh-done tokens and a frame held by the producer never exceed one |
| `ProtocolTheorems.BlockedConsumer` | libdisplay_consumer/display_consumer.c:249-289 | A consumer blocked in refresh_done has its token in one of the counters or with a live producer that holds the frame, or no copy of the peer end is open anywhere; whether the token can come back is the next rows' subject |
| `ProtocolStuck.WaitsForGood` | libdisplay_producer/display_producer.c:409-414 | After every history: a consumer blocked on a session whose other half its producer could not map stays blocked through a continuation, with no token coming back, if and only if the producer does not end in it and the consumer neither ends nor meets an error on its own side |
| `ProtocolStuck.StuckExactly` | libdisplay_consumer/display_consumer.c:259-288 | In such a state, the steps that end the wait are exactly those |
| `ProtocolStuck.StrayKept` | libdisplay_producer/display_producer.c:404-414 | After every history, a session that could not be mapped stays open with its producer until that producer ends |
| `ProtocolStuck.IdleWait` | libdisplay_consumer/display_consumer.c:259-288 | A poll without an error changes nothing then |
| `ProtocolStuck.FreedByLeaving` | libdisplay_consumer/display_consumer.c:110-134 | Once that producer ends, the next poll makes the consumer offer a new session |
| `ProtocolStuck.StuckHappens` | libdisplay_producer/display_producer.c:404-414 | A history that leads to such a state, for any list of buffers: the producer picks up and cannot map, the consumer takes its notice and selects |
| `ProtocolStuck.EveryUnreturned` | libdisplay_producer/display_producer.c:271-279 | After every history, a session with a refresh-done token is with a producer in the session, or closed |
| `ProtocolTheorems.WordStable` | libdisplay_consumer/display_consumer.c:242-245 | No step of any party rewrites the shared index while the producer holds the frame |
| `ProtocolTheorems.WordIsSelected` | libdisplay_consumer/display_consumer.c:231-247 | After every history, the shared word of every session is the index of the last select that went through in it, 0 before any |
| `ProtocolTables.BufsReadyFirst` | libdisplay_consumer/display_consumer.c:73-108 | In such a session BUFS_READY is the first frame sent and the only one of its kind, and it has been sent if the session is in use |
| `ProtocolTables.TableAgreement` | libdisplay_producer/display_producer.c:436-467 | In a session whose list was stored before leaving fallback and not pushed again, a producer holding a frame has exactly the consumer's list in order, and get_selected_idx is the index selected last, without its clamp |
| `ProtocolTables.WaitSucceeds` | libdisplay_producer/display_producer.c:221-269 | In such a session, with a token waiting and the consumer connected, an unbroken wait succeeds and yields the list the consumer stored |
| `ProtocolTheorems.OnePlace` | libdisplay_consumer/display_consumer.c:57-69 | The producer's half of a session is in at most one place: one hello, the deposit, the mail of one producer, the hands of one producer, or those of one that could not map the shared word |
| `ProtocolTheorems.DeliveriesIncrease` | daemon/daemon.c:94-118 | Sessions sent to producers later, to the same one or another, are later sessions |
| `ProtocolTheorems.DeliveredWhole` | daemon/daemon.c:101-107 | Every delivery of every history hands out the four descriptors of one session in the order of its hello |
| `ProtocolOrder.GenerationsIncrease` | daemon/daemon.c:156-169 | Hellos the daemon reads later are of later sessions |
| `ProtocolTheorems.DaemonRuns` | daemon/daemon.c:309-322 | In every history the daemon's state is that of some run of its own events, so that what holds of its runs holds in the system |
| `ProtocolMail.MailConserved` | daemon/daemon.c:79-118 | After every history, a producer that has not ended was sent, successfully, exactly the messages it has read, in that order, and then those still in its mail |
| `ProtocolMail.SentIsReceived` | daemon/daemon.c:79-118 | Each step of the daemon adds to every producer's mail and every consumer's notices what it logs as sent to them, and nothing else |
| `ProtocolStranded.LostNotice` | daemon/daemon.c:109-115 | If, after any history, the notice of a pickup fails, the consumer whose session was handed out never leaves fallback, whatever happens then |
| `ProtocolStranded.LostHelloNotice` | daemon/daemon.c:163-164 | The same for a hello that is read, from the consumer or from a new connection, while a producer waits for descriptors |
| `ProtocolStranded.LossIsForEver` | daemon/daemon.c:109-115 | Once the log of any history shows a lost notice, its consumer is in fallback with nothing offered and no notice left, after every continuation |
| `ProtocolStranded.StrandedForever` | libdisplay_consumer/display_consumer.c:95-108 | No step of any party brings a stranded consumer out of fallback |
| `ProtocolLosses.StrandsExactly` | daemon/daemon.c:94-133 | In every reachable state a step strands a consumer if and only if it is one of these: a call that falls back without getting its hello through, the loss of its connection with the hello unread, the replacement of its deposit by another consumer's hello, a delivery of its session whose notice does not get through |
| `ProtocolLosses.StrandedIf` | libdisplay_consumer/display_consumer.c:95-134 | After a history a consumer is stranded if and only if some step of the history was one of those |
| `ProtocolLosses.LostHello` | libdisplay_consumer/display_consumer.c:125-130 | After every history, a frame that cannot be sent and a hello that cannot be sent leave a consumer in fallback for good |
| `ProtocolStuck.OutOfFallbackHappens` | libdisplay_consumer/display_consumer.c:95-108 | A history that leads a consumer out of fallback, from where this can happen |
| `ProtocolStranded.HandedOutStrands` | daemon/daemon.c:94-118 | When a session is handed out, its consumer is stranded if and only if the notice does not get through |
| `ProtocolStranded.PickingHappens` | daemon/daemon.c:198-203 | A history that leads to such a pickup: a consumer connects and announces a screen, a producer connects and asks |
| `ProtocolStranded.AwaitedHappens` | daemon/daemon.c:241-242 | A history that leads to such a hello: the send to the producer fails, and a second consumer connects |
| `ProtocolProgress.Progress` | libdisplay_producer/display_producer.c:384-419 | After every history: if the hello of a consumer with stored buffers is next to be read, or its session is deposited, mailed with its notice, or ended, and the daemon's producer is in fallback with nothing but ended sessions in its mail, then some continuation without any failure ends with that producer holding a frame of the consumer's current session, with the consumer's list and the index selected |
| `ProtocolProgress.WhereItIs` | libdisplay_consumer/display_consumer.c:95-134 | Once the daemon has read its consumer's messages, the consumer's session is one from which there is such a continuation, or some producer has it, or the consumer is stranded |
| `ProtocolSafety.EveryHistory` | libdisplay_producer/display_producer.c:59-86 | Every history, with failing sends, polls and mappings, keeps the protocol invariant over daemon, consumers, producers, sockets and sessions |
| `ProtocolSafety.StepKeepsInv` | libdisplay_producer/display_producer.c:221-279 | Every single step of any party, with any failures, keeps the protocol invariant |
| `DaemonSafety.EveryRun` | daemon/daemon.c:135-267 | For arbitrary peers and failures: a connected producer waits and no screen was ever stored, or exactly one attempt was made to send it a screen, the stored one, which is the last valid one taken from a consumer; a waiting producer and a full deposit coexist only after that very send failed; each delivery hands out the latest deposit, unsent before; the epoll set is exactly the occupied slots |
| `DaemonSafety.ScreenReceived` | daemon/daemon.c:192-195 | After every run a connected producer has received exactly the stored screen if and only if that one attempt succeeded, and no screen at all otherwise |
| `DaemonSafety.StrandedProducer` | daemon/daemon.c:253-256 | A run that leaves a producer connected, not waiting, without the stored screen |
| `DaemonSafety.DeliveriesAdvance` | daemon/daemon.c:94-118 | Successive deliveries hand out the four descriptors of different hellos, in order, later ones of later hellos, with no hello or delivery in between |
| `DaemonSteps.EveryStep` | daemon/daemon.c:54-267 | In every run, each event changes exactly what it is to change: either slot, the stored screen, the deposit, either waiting flag, and the messages said on the sockets, with their values, in terms of the event and the state before |
| `DaemonSteps.ProducerLoses` | daemon/daemon.c:120-195 | In every run, a connected producer loses its slot in a step if and only if its connection ends - a hang-up, an end of file, an oversized or cut-off message -, another producer says hello, or the consumer announces, whole, another screen than the one stored |
| `DaemonSteps.SameScreen` | daemon/daemon.c:176-184 | In every run, announcing the stored screen again leaves both slots, both flags, the screen and the sockets as they were |
| `DaemonSteps.WaitingIsServed` | daemon/daemon.c:94-98 | In every run, a pickup that finds no full deposit leaves its producer waiting, and the next full deposit is handed to it at once if the send succeeds |
| `DaemonLedger.Conservation` | daemon/daemon.c:44-65 | Every received descriptor is deposited or closed exactly once, and none is open after shutdown, if and only if no event of the run was one whose descriptors the handlers forget; none is ever closed more often than it was received |
| `DaemonLedger.WellBehavedConserves` | daemon/daemon.c:135-267 | With peers that attach descriptors to whole consumer hellos only, descriptors are conserved |
| `DaemonLedger.LeakExists` | daemon/daemon.c:244-256 | A descriptor attached to a producer hello is still open after shutdown |
| `DaemonLedger.ShutdownCloses` | daemon/daemon.c:324-328 | After shutdown no control socket is left in the epoll set |
| `DaemonImpl.Daemon.TryDeliverFds` | daemon/daemon.c:94-118 | Computes the delivery of the model in place |
| `DaemonImpl.Daemon.HandleDisconnect` | daemon/daemon.c:120-133 | Computes the disconnection of the model |
| `DaemonImpl.Daemon.HandleClientData` | daemon/daemon.c:135-209 | Computes the model's reaction to every message of a client, well-formed or not, whole or short |
| `DaemonImpl.Daemon.HandleNewConnection` | daemon/daemon.c:211-267 | Computes the model's reaction to a new connection |
| `DaemonImpl.Daemon.ResetProducerForScreenChange` | daemon/daemon.c:67-77 | Drops the producer and both waiting flags, if there is a producer |
| `DaemonImpl.Daemon.ClearDepositedFds` | daemon/daemon.c:54-59 | The loop closes exactly the deposited descriptors and empties the deposit |
| `DaemonImpl.Daemon.CloseReceivedFds` | daemon/daemon.c:61-65 | The loop closes exactly the received descriptors, one by one |
| `DaemonImpl.Daemon.Serve` | daemon/daemon.c:309-328 | The event loop and the cleanup leave the daemon as the model's run and shutdown do |
| `DaemonImpl.RecvFds` | common/socket_utils.c:60-68 | Of the attached descriptors, the first four arrive, in order |
| `ConsumerImpl.AwaitedRefreshes` | libdisplay_consumer/display_consumer.c:259-288 | However many idle polls come first - interrupted, timed out, or woken with no error, no end and no token -, the wait is one refresh step of the protocol on the session as the first other poll finds it, broken exactly if that poll failed or reports an error |
| `ConsumerImpl.AwaitedIdle` | libdisplay_consumer/display_consumer.c:259-288 | If every poll is idle, the consumer waits on, with nothing changed but the session as it was seen last |
| `ConsumerImpl.ConsumerContext.RefreshDone` | libdisplay_consumer/display_consumer.c:249-289 | It succeeds if and only if nothing was pending or the first poll that is not idle brings a token with no error and no end, and then takes that token and changes nothing else; any other first such poll means fallback with a new session; it still waits if and only if every poll is idle |
| `ConsumerImpl.ConsumerContext.SendHelloFds` | libdisplay_consumer/display_consumer.c:57-69 | A new session is made; the hello lists its far ends in the order in which the producer takes them up |
| `ConsumerImpl.ConsumerContext.EnterFallback` | libdisplay_consumer/display_consumer.c:110-134 | A new session is made and offered; nothing happens in fallback |
| `ConsumerImpl.ConsumerContext.TryExitFallback` | libdisplay_consumer/display_consumer.c:95-108 | One notice ends fallback and pushes the stored list, which may fail into fallback again |
| `ConsumerImpl.ConsumerContext.PushDmabufs` | libdisplay_consumer/display_consumer.c:216-229 | Stores 1 to 8 buffers and sends them outside fallback; rejects other counts |
| `ConsumerImpl.ConsumerContext.SelectDmabuf` | libdisplay_consumer/display_consumer.c:231-247 | Writes index and token exactly if out of fallback, or able to leave it, and the index is in range |
| `ConsumerImpl.ConsumerContext.PushEvent` | libdisplay_consumer/display_consumer.c:291-306 | One frame more on the stream, of the kind and with the body given, or fallback when the send fails; nothing in fallback |
| `ProducerLibrary.ResourceStates` | libdisplay_producer/display_producer.c:36-86 | Throughout a run of calls, fallback means no buffers, no session descriptors and no mapping, and otherwise all four and the mapping are held, if and only if no call takes over descriptors and fails to map |
| `ProducerLibrary.ClosedExactlyOnce` | libdisplay_producer/display_producer.c:145-160 | After disconnecting, every descriptor taken in has been closed exactly once if and only if no call of the run forgot one; none is ever closed more often |
| `ProducerLibrary.WellFormedForgetNothing` | libdisplay_producer/display_producer.c:177-219 | With whole answers and headers and mappings that work, no call forgets a descriptor |
| `ProducerLibrary.OverwriteForgets` | libdisplay_producer/display_producer.c:399-414 | After a failed mapping, the next answer overwrites four open descriptors |
| `ProducerLibrary.FailedConnectCloses` | libdisplay_producer/display_producer.c:134-142 | A connection attempt that fails to map closes what it had accepted |
| `ProducerLibrary.LayoutsFit` | libdisplay_producer/display_producer.c:197-206 | The layouts of an accepted list are read inside their array if and only if there are fewer than eight buffers or the size is a multiple of a layout |
| `ProducerLibrary.LayoutsOverrun` | libdisplay_producer/display_producer.c:197-206 | Eight buffers with a size of 161 bytes pass the test and do not fit |
| `ProducerSimulation.WaitSimulates` | libdisplay_producer/display_producer.c:221-269 | For every sequence of polls whose first that is not idle reports what the session holds - a hang-up, or else a token -, or that is idle throughout if there is neither, waiting in the protocol and waiting in the resource model agree on session and buffer table |
| `ProducerSimulation.WaitEffect` | libdisplay_producer/display_producer.c:221-269 | A wait of the protocol takes the token and, the first time, the list that must be the next frame, and holds the frame; without a token it changes nothing; a hang-up or another frame ends the session |
| `ProducerSimulation.PollSimulates` | libdisplay_producer/display_producer.c:290-353 | A poll for events in the protocol takes one frame off the stream exactly where the poll of the bytes does |
| `ProducerSimulation.RolesAgree` | libdisplay_producer/display_producer.c:72-75 | Picking up what any history delivers gives every descriptor the role for which its consumer made it, on both pickup paths; fallback is left exactly if mapping works |
| `ProducerImpl.Client` | libdisplay_producer/display_producer.c:88-160 | Connecting, any calls and disconnecting in place closes what the model says |
| `ProducerImpl.ProducerContext.EnterFallback` | libdisplay_producer/display_producer.c:36-57 | Closes buffers and session descriptors in order and clears every field |
| `ProducerImpl.ProducerContext.PickupFds` | libdisplay_producer/display_producer.c:59-86 | Takes over four descriptors of an accepted answer; leaves fallback exactly if mapping works |
| `ProducerImpl.ProducerContext.TryReconnect` | libdisplay_producer/display_producer.c:384-419 | The same from fallback, with an empty buffer table |
| `ProducerImpl.ProducerContext.ReceiveDmabufs` | libdisplay_producer/display_producer.c:177-219 | Takes over a buffer list in order, or closes what came with a wrong one; succeeds exactly if a table is known afterwards |
| `ProducerImpl.ProducerContext.AwaitBuffer` | libdisplay_producer/display_producer.c:238-261 | A token if and only if the first poll that is not idle reports one and no hang-up; broken if and only if that poll failed or reports a hang-up; still waiting if and only if all polls are idle |
| `ProducerImpl.ProducerContext.WaitBufferAsyncResult` | libdisplay_producer/display_producer.c:221-269 | It succeeds if and only if it was out of fallback, a wait was pending, the token came, and the list was known or is good now; each other case - picking up in fallback, no wait, hang-up, wrong or unreadable list - leaves the state the source leaves |
| `ProducerImpl.ProducerContext.GetDmabufFd` | libdisplay_producer/display_producer.c:444-454 | The descriptor at the shared index, at 0 when the index is out of range, none without buffers |
| `ProducerImpl.ProducerContext.Disconnect` | libdisplay_producer/display_producer.c:145-160 | Closes everything still held |
| `Wire.WordRoundTrip` | common/protocol.h:28-32 | A 32-bit field decodes to what was encoded |
| `Wire.DecodeEncoded` | common/protocol.h:28-32 | A frame decodes to itself, whatever follows it |
| `Wire.EncodeDecoded` | common/protocol.h:28-32 | Bytes that hold a whole frame are that frame's encoding and a rest |
| `Wire.CutOnce` | common/protocol.h:28-32 | A stream can be cut into frames in one way only |
| `Wire.FrameLayout` | common/protocol.h:28-32 | The bytes of a frame, one by one: kind and size, least significant byte first, and then the payload |
| `Wire.TakenSteady` | common/socket_utils.c:91-121 | Without failures a transfer moves what it wants, what there is, or what the outcomes let through, whichever is least |
| `Wire.TakenStops` | common/socket_utils.c:91-121 | Nothing moves after a failure or an end of the stream |
| `Wire.Channel.SendAll` | common/socket_utils.c:91-105 | Under any short counts and interrupts, all bytes are sent in order, or a proper prefix on failure; without failures it succeeds |
| `Wire.Channel.RecvAll` | common/socket_utils.c:107-121 | The same for reading: exactly the next bytes, or fewer of them on failure, as many as the short counts before it allow |
| `Wire.Channel.Discard` | libdisplay_producer/display_producer.c:344-350 | The discard loop ends and skips exactly the payload |
| `Wire.Channel.PollDisplayEvent` | libdisplay_producer/display_producer.c:290-353 | It consumes nothing, or one whole frame - an input event is returned as its bytes 8 to 27, a window command as bytes 8 to 15, any other frame as nothing -, or fails and has consumed less than the frame; fallback follows a hang-up and a frame of a wrong size, exactly; with an acceptable frame and steady reads it does consume one |
| `WireRuns.PollOne` | libdisplay_producer/display_producer.c:290-353 | One poll somewhere in a conversation: a result, and the stream cut after its frame; or a failure, after which the stream still begins at a frame if and only if nothing was read |
| `WireRuns.TornNotCut` | libdisplay_producer/display_producer.c:316-350 | A stream that has lost a proper part of its first frame begins at none of the frames sent |
| `WireRuns.Phantom` | libdisplay_producer/display_producer.c:312-334 | A single input event is sent, its read fails after the header, and the next poll returns a window command |
| `WireRuns.Converse` | libdisplay_consumer/display_consumer.c:291-306 | For any interleaving of pushes and polls without failure: an order-preserving correspondence between the results and the input events and window commands among the first frames pushed, each with its payload, as what it is; and the stream holds exactly the remaining frames; smooth steps never fail |
| `Smoke.MaximumPrinciple` | weston/clients/smoke.c:47-105 | For every grid size and any interleaving of n motions with any redraws, every density is within [0, n] and the border of all six grids is zero |
| `SmokeGrid.SweepsWithin` | weston/clients/smoke.c:47-67 | Any number of in-place sweeps of diffusion or advection keeps densities within [0, n] |
| `SmokeGrid.SampleBetween` | weston/clients/smoke.c:88-102 | Interpolation anywhere stays between the bounds of the grid |
| `SmokeGrid.SweepsBorder` | weston/clients/smoke.c:107-145 | No loop nest of the solver touches the border |
| `SmokeGrid.InPlaceSweep` | weston/clients/smoke.c:57-66 | Each cell of an in-place sweep is computed from new values to the west and north and old ones to the east and south |
| `SmokeGrid.SweepAt` | weston/clients/smoke.c:69-105 | Advection and the other pointwise loops give each interior cell its value from the grids as they were, whatever the order of the visits |
| `SmokeLaws.SampleBilinear` | weston/clients/smoke.c:85-102 | Sampling data that is linear in each coordinate gives its value at the point, or at the nearest point half a cell inside the grid |
| `SmokeLaws.AdvectBilinear` | weston/clients/smoke.c:69-105 | Advection carries such data along the velocity exactly |
| `SmokeLaws.AdvectShifts` | weston/clients/smoke.c:69-105 | Where the velocity is whole cells, advection shifts any data by as many cells |
| `SmokeLaws.StillAir` | weston/clients/smoke.c:69-105 | Where the velocity is zero, advection copies |
| `SmokeLaws.DiffusionEquation` | weston/clients/smoke.c:47-67 | After a sweep, every interior cell solves the diffusion equation with its new west and north and its old east and south neighbours |
| `SmokeLaws.DivergenceEquation` | weston/clients/smoke.c:116-124 | The divergence of every interior cell, scaled |
| `SmokeLaws.PressureEquation` | weston/clients/smoke.c:126-137 | After a sweep, four times the pressure of a cell is its source and its neighbours, as they are by then |
| `SmokeLaws.GradientEast` | weston/clients/smoke.c:139-145 | The horizontal velocity loses the slope of the pressure |
| `SmokeLaws.GradientSouth` | weston/clients/smoke.c:139-145 | The vertical velocity loses the slope of the pressure |
| `SmokeLaws.FiveSweeps` | weston/clients/smoke.c:56 | The five sweeps of diffusion and pressure are made one after the other, each on what the one before it left |
| `SmokeLaws.RedrawStages` | weston/clients/smoke.c:175-199 | A redraw diffuses and projects the velocity, carries it along itself and projects it again, diffuses the density and carries it along the result; every projection starts from an empty interior |
| `SmokeLaws.MotionEffect` | weston/clients/smoke.c:210-240 | A motion adds 1 to the density and 256 or -256 to each velocity in the ten by ten cells around the pointer, clipped to the interior, and changes no other cell |
| `SmokeImpl.Session` | weston/clients/smoke.c:175-240 | The client as it runs computes the model's run, so the density it shows is within [0, n] with a zero border |
| `SmokeImpl.SmokeClient.Diffuse` | weston/clients/smoke.c:47-67 | Five in-place sweeps, every index in range |
| `SmokeImpl.SmokeClient.Advect` | weston/clients/smoke.c:69-105 | One sweep of bilinear samples, every index in range |
| `SmokeImpl.SmokeClient.ProjectFlow` | weston/clients/smoke.c:107-145 | Computes the projection of the model on four buffers in place |
| `SmokeImpl.SmokeClient.RedrawHandler` | weston/clients/smoke.c:175-199 | The eight calls in their order compute the model's redraw |
| `SmokeImpl.SmokeClient.SmokeMotionHandler` | weston/clients/smoke.c:210-240 | Exactly the cells of the clipped square around the pointer get one unit of density and a kick |
| `Utf8.BoundaryMeans` | weston/clients/editor.c:97-121 | In well-formed text, boundaries are exactly the places where it can be cut into two well-formed texts |
| `Utf8.PrevOfNext` | weston/clients/editor.c:105-121 | From a boundary, going forward and back returns |
| `Utf8.NextOfPrev` | weston/clients/editor.c:105-121 | In well-formed text, going back and forward returns, and going back fails only at the start |
| `Utf8.NextIsOneChar` | weston/clients/editor.c:115-121 | The next position is exactly one character further |
| `Utf8Codes.CharsAreScalars` | weston/clients/editor.c:97-121 | A text is one character if and only if it encodes a Unicode scalar value, as section 3 of RFC 3629 defines it |
| `Utf8Cuts.CutFormed` | weston/clients/editor.c:1083-1086 | Removing bytes from well-formed text leaves well-formed text if and only if both ends are between characters, or neither is and what is left of the two characters makes one |
| `CStrings.Utf8PrevChar` | weston/clients/editor.c:105-113 | The scan of the buffer finds the nearest character start before a position |
| `CStrings.Utf8NextChar` | weston/clients/editor.c:115-121 | The scan of the buffer, up to its NUL, finds the nearest character start after a position |
| `CStrings.MoveUp` | weston/clients/editor.c:123-144 | The loop over all line ends finds the last one before the cursor |
| `CStrings.MoveDown` | weston/clients/editor.c:146-162 | The loop finds the place after the first line end from the cursor on |
| `CStrings.Splice` | weston/clients/editor.c:918-923 | The allocation and the three copies of an insertion stay in their buffers and yield the text with the string inserted at the cursor, NUL-terminated |
| `CStrings.Remove` | weston/clients/editor.c:1083-1086 | Moving the tail with its NUL removes exactly the range, inside the buffer |
| `TextEntry.EveryEdit` | weston/clients/editor.c:1421-1488 | Over any sequence of well-formed insertions, commits and preedits, announced deletions, BackSpace, Delete, arrows with or without shift on both paths, and cut: the text is well-formed throughout and cursor and anchor on character boundaries, if and only if every announced deletion that is applied meets the condition of `DeleteGoodIf` |
| `TextEntry.DeleteGoodIf` | weston/clients/editor.c:1073-1100 | A deletion keeps text and cursor so if and only if it begins and ends between characters, or mends the characters it cuts and does not move the cursor |
| `TextEntry.BrokenText` | weston/clients/editor.c:281-304 | Inserting a character of two bytes, announcing the deletion of the second and committing nothing leaves the first byte alone |
| `TextEntryFields.EventFields` | weston/clients/editor.c:1395-1488 | What every event makes of the text, the cursor, the anchor and the pending preedit string, byte by byte: insertions, both BackSpaces, Delete, arrows with and without shift on both paths, cut, announcements, commits and preedits applied or dropped |
| `TextEntryFields.KeyArrowFields` | weston/clients/editor.c:1431-1475 | An arrow key puts in the pending string first; with shift the anchor stays, without it follows the cursor when that moves |
| `TextEntry.AbortsIf` | weston/clients/editor.c:1079-1081 | The client aborts in delete_text if and only if some commit or preedit of the run applies when the range announced before it no longer fits the text |
| `TextEntry.AbortHappens` | weston/clients/editor.c:281-304 | Announcing a deletion, BackSpace and a commit abort the client |
| `TextEntry.BackSpacesAgree` | weston/clients/editor.c:439-458 | The keysym path and the key path of BackSpace do the same |
| `TextEntry.TypeThenBackSpace` | weston/clients/editor.c:1422-1430 | Typing a string and pressing BackSpace restores text and cursor if and only if the string is one character, or empty at the start of the text |
| `TextEntry.LeftThenDelete` | weston/clients/editor.c:1431-1450 | Left and then Delete leaves the text and cursor that BackSpace leaves |
| `TextEntry.ArrowsUndo` | weston/clients/editor.c:402-420 | Left and right undo each other between the ends of the text |
| `TextEntry.CutThenPaste` | weston/clients/editor.c:620-638 | Pasting what was cut restores the text, with the cursor behind it |
| `TextEntry.SerialExact` | weston/clients/editor.c:196-200 | With the last reset among the last 2^32 states, the wrapping test is right about a reply if and only if the reply's state is among them too or its distance modulo 2^32 still exceeds that of the reset |
| `TextEntry.SerialWraps` | weston/clients/editor.c:196-200 | A reply of exactly 2^32 states ago passes |
| `TextEntry.ResetWindow` | weston/clients/editor.c:196-200 | The test is right about every reply to the last 2^32 states if and only if the last reset is among them or its distance is one less than a multiple of 2^32 |
| `TextEntry.OldResetRefuses` | weston/clients/editor.c:975-976 | A reset of exactly 2^32 states ago makes the test refuse the reply to the state before the current one |
| `TextEntry.SurroundingExact` | weston/clients/editor.c:281-304 | In a text under 2^31 bytes, the wrapping test holds if and only if the true range lies in the text, and the remembered range is the true one |
| `TextEntry.SurroundingLimit` | weston/clients/editor.c:281-304 | Wherever the cursor is, some range that is not in the text passes the test if and only if the text has 2^31 bytes or more |
| `TextEntry.EarlyLimit` | weston/clients/editor.c:281-304 | A range before the text passes if and only if the text has 2^31 bytes or more beyond the cursor's position |
| `TextEntry.LateLimit` | weston/clients/editor.c:281-304 | A range past the end of the text passes if and only if the text has 2^31 bytes or more, and more than that if the cursor is at its start |
| `TextEntry.SurroundingThenCommit` | weston/clients/editor.c:188-225 | A valid deletion on character boundaries, committed with no edit in between, passes delete_text's assertions and keeps the invariant |
| `TextEntryImpl.Edit` | weston/clients/editor.c:1395-1488 | The entry as it runs aborts exactly where the model's run does, and otherwise its buffer holds the text of that run |
| `TextEntryImpl.EntryWidget.InsertAtCursor` | weston/clients/editor.c:914-942 | A new NUL-terminated buffer with the string inserted at the cursor; cursor and anchor follow |
| `TextEntryImpl.EntryWidget.DeleteText` | weston/clients/editor.c:1073-1100 | Removes the range in the buffer, or fails an assertion exactly if it does not fit; the cursor keeps its place in the rest |
| `TextEntryImpl.EntryWidget.DeleteSelectedText` | weston/clients/editor.c:1102-1114 | Removes exactly what lies between cursor and anchor |
| `TextEntryImpl.EntryWidget.CommitText` | weston/clients/editor.c:188-225 | Refuses stale serials and invalid deletions; otherwise replaces the announced range or the selection, or aborts exactly if the range no longer fits |
| `TextEntryImpl.EntryWidget.PreeditText` | weston/clients/editor.c:240-279 | The same for preedit strings, remembering the string to commit |
| `TextEntryImpl.EntryWidget.DeleteSurroundingText` | weston/clients/editor.c:281-304 | Remembers the range in 32-bit words and whether it was found valid |
| `ShmBuffers.ChosenFits` | weston/clients/simple-shm.c:485-519 | Over every run of configures, releases and redraws, the buffer that redraw paints was mapped with exactly the current window size |
| `ShmBuffers.HeldUntouched` | weston/clients/simple-shm.c:206-218 | Redraw neither paints nor frees a buffer that the compositor holds |
| `ShmBuffers.AbortsIf` | weston/clients/simple-shm.c:688-701 | With working mappings, redraw aborts if and only if every buffer of the current size is held and no configure has come since |
| `ShmBuffers.PruneExact` | weston/clients/simple-shm.c:206-218 | Pruning drops exactly the released buffers of another size |
| `ShmBuffers.PruneAppended` | weston/clients/simple-shm.c:206-218 | Pruning decides buffer by buffer and keeps the order |
| `ShmBuffers.ConfigureFields` | weston/clients/simple-shm.c:389-401 | A configure takes the width and the height asked for, if they are a size, and otherwise restores the size from before fullscreen or maximizing |
| `ShmBuffers.RedrawFields` | weston/clients/simple-shm.c:485-519 | A redraw after a configure offers two new buffers of the window's size and then the kept ones, takes the first that is not held, maps it if it was not, and hands it over |
| `ShmImpl.PaintPixels` | weston/clients/simple-shm.c:521-565 | The walking pointer writes exactly the cells y * width + x inside the padding, each with its colour, never outside the mapping |
| `ShmImpl.ColourBands` | weston/clients/simple-shm.c:530-560 | The colour of every pixel: three bands by the distance from the centre, each with its shade, opaque except near the two diagonals |
| `ShmImpl.SquaresFit` | weston/clients/simple-shm.c:521-546 | Every int that paint_pixels computes - offset of the first row, squared radii, the square of each row visited, the sums of each pixel - fits, if and only if the size of the window passes a test of the first row and its first pixel |
| `ShmImpl.SquaresOverflow` | weston/clients/simple-shm.c:536-546 | In windows of 100000 by 5000, and of 40 by 200000 where no pixel is painted, some do not fit though the buffer has less than 2^31 bytes |
| `ShmImpl.RadiiFit` | weston/clients/simple-shm.c:530-534 | The squared radii fit in windows at most 40 wide or high, and wherever the squared distances fit |
| `ShmImpl.ShmWindow.RedrawWindow` | weston/clients/simple-shm.c:685-718 | Paints the buffer the model chooses, a mapping of the current size, or aborts exactly where the model does |
| `ShmImpl.Session` | weston/clients/simple-shm.c:685-718 | A whole run of the client aborts exactly where the model does and otherwise ends with the model's window |
| `ShmImpl.ShmWindow.PruneOldReleasedBuffers` | weston/clients/simple-shm.c:206-218 | The loop leaves exactly the pruned list |
| `ShmImpl.ShmWindow.PickFreeBuffer` | weston/clients/simple-shm.c:190-204 | The first buffer not held |
| `ShmImpl.ShmWindow.HandleConfigure` | weston/clients/simple-shm.c:389-401 | The window's size and restored size after a configure |
| `Bounce.Reflect` | weston/clients/simple-damage.c:237-245 | The loop ends inside the arena at the folded position; away from the walls the velocity is that of the folded track if and only if the number of double reflections, computed beforehand, is even |
| `Bounce.PassMirrors` | weston/clients/simple-damage.c:238-245 | A pass mirrors the ball at the wall it is beyond, and then at the upper one if it is still there |
| `Bounce.FacingImage` | weston/clients/simple-damage.c:238-245 | The folded track is turned round exactly if the image that lies in the arena is mirrored |
| `Bounce.TrackFields` | weston/clients/simple-damage.c:228-237 | Between two calls the ball moves by its velocity times the milliseconds between them, over 1000, also when the clock wraps |
| `Bounce.WrongWay` | weston/clients/simple-damage.c:217-258 | In a window of 50 by 50, one second takes a ball 15 below the lower wall, moving down; it is reflected twice in one pass and sent up, where its folded track moves down |
| `Bounce.TerminatesIf` | weston/clients/simple-damage.c:238-245 | The loop ends if and only if the arena has positive length or the ball starts inside |
| `Bounce.PassCloser` | weston/clients/simple-damage.c:238-245 | A pass that ends outside has come closer by the arena's length at least |
| `Bounce.FoldUnique` | weston/clients/simple-damage.c:238-245 | Of all images x0 + 2kL and 2a - x0 + 2kL only one lies in the arena, the folded position |
| `Bounce.FoldIsImage` | weston/clients/simple-damage.c:238-245 | The folded position is such an image, inside the arena |
| `Bounce.Ball.Advance` | weston/clients/simple-damage.c:217-258 | Whenever both loops end, both axes advance by the elapsed time and bounce; the first call only sets the clock |
| `KeyWalk.AgreesIf` | weston/clients/keyboard.c:691-699 | On the whole grid exactly the key found is drawn, if and only if the keys fill the grid and no key above the last row reaches beyond its row |
| `KeyWalk.HitsWhatIsDrawn` | weston/clients/keyboard.c:306-320 | In a tiled layout, at every pixel of the grid, a key is found if and only if its rectangle contains the pixel |
| `KeyWalk.ShippedLayoutsTile` | weston/clients/keyboard.c:103-245 | The hit test agrees with the drawing everywhere on the three shipped layouts |
| `KeyWalk.FullRowsTile` | weston/clients/keyboard.c:392-400 | A layout made of full rows tiles its grid |
| `KeyWalk.DrawKeys` | weston/clients/keyboard.c:392-400 | The drawing loop places every key where the model does |
| `KeyWalk.FindKey` | weston/clients/keyboard.c:721-730 | The subtracting loop finds the key the model finds |

## Left out

Assumptions on the environment, and what the model abstracts from:

- One epoll event is handled per step, on a live client; the batches of daemon/daemon.c:310-321 are not modelled.
- Connecting, signals and logging are not modelled. A control header that arrives short on an established connection is a message whose kind and size are whatever its memory holds.
- Callers alternate select_dmabuf with refresh_done and wait_buffer_async_result with trigger_refresh, ask for descriptors only in fallback, and poll display events only after the first buffer; calls that break this are not steps of `Protocol.Happen`.
- A hello or a buffer list that fails to be sent is taken as not sent at all, and fallback follows.
- C floats are reals: rounding, infinities and overflow are not modelled. Integers are unbounded except where a wrap-around matters (serials, surrounding text, timestamps, pixel colours).
- ProtocolTables.TableAgreement: speaks of sessions whose list was stored before leaving fallback and not pushed again; the producer keeps its first table when a list is pushed again.
- ProducerImpl.ProducerContext.ReceiveDmabufs: does not model what a read past the array of layouts overwrites; ProducerLibrary.LayoutsFit says exactly when there is none.
- Wire.Channel.PollDisplayEvent: models the bytes of the data stream; the descriptors that travel with a buffer list are in `ProducerLibrary`.
- ShmImpl.PaintPixels: the colours are those of a window whose squares fit an int, as ShmImpl.SquaresFit decides; formats other than 32 bits per pixel are not painted.
- TextEntry.EveryEdit: commit strings with cursor or anchor offsets are not modelled.
- ProtocolProgress.Progress: screens announced before a hello are read first and may disconnect the producer, so the hello must be at the head; a session that another producer has waits for that producer to close it, and one that could not be mapped waits as ProtocolStuck.WaitsForGood says.
- Bounce.Ball.Advance: requires exactly what Bounce.TerminatesIf shows to be necessary for the two loops to end.
- KeyWalk.HitsWhatIsDrawn: speaks of points inside the grid; labels and the switching of key states are not modelled.

Parts of the repository that are not modelled:

- wake_display_consumer, which injects tokens into both counters on purpose.
- poll_input_event, which drops window commands, and poll_window_event with push_window_event, whose frames go the other way on the same pattern.
- The fallback callbacks, set_screen_info's cached copy and the plain getters.
- Pango layout, pointer positioning and drawing in the editor; the surrounding-text mirror and byte-wise preedit deletion of the virtual keyboard.
- The render loop of the smoke client and the format painter of simple-shm.
- The compose lookup of simple-im, and the EGL, Vulkan, V4L, dmabuf, colour, calibration, shell and tablet clients.
