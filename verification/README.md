# QuantumSSH core: a Dafny model

This project models the parts of `quantumssh-core` where a mistake is hard to see in
one function: the post-authentication session (channel driver, re-key machine, flow
control), child supervision, admission control, the wire and key codecs, and two
algorithms of the SFTP helper. `dafny verify dfyconfig.toml` checks all of it.

How it is built:

- **The session.** `Transport` and `Channel` give one function per method of the
  source, on values. A session carries the history of what it did, and `Trace` says
  what a history must look like in the terms of RFC 4253 and RFC 4254, without
  mentioning a driver field. `LinkProofs`, `StdinProofs`, `ChannelProofs` and
  `SessionProofs` carry the invariant through every handler, `LinkSteps` any property of
  the link alone; `TraceMeaning` reads the rules off a history; `Runs`, `StdinRuns` and
  `NumberReuse` state the results for every run. That nothing due is left undone is the
  matter of three modules: `Metering` (when a re-key is started), `Duties` (what a turn
  and an event must do) and `Answers` (what each client message, built by `ClientSide`,
  leads to). `FrameReader` is how a peer reads what the server writes. `TransportStage` and `ChannelDriver` are the objects the source
  has, fields and loops included, proved to do what those functions say, so that
  `ChannelDriver.Serve` promises the results of the object itself.
- **Key epochs.** `Epochs` puts the re-key machine against a peer that follows section
  7.3 of RFC 4253 with strict-kex resets, over two FIFO streams; `Connections` puts whole
  sessions, the channel driver included, against the same peer.
- **The rest** stands on its own: `PacketReader`, `Aead` and `Framing` (packets on the
  stream), `Supervision`, `Admission`, `AdmissionRate` and `AdmissionGuards`, `Records`,
  `Certificates`, `UserAuth` and `KeyExchange`, `Base64` and `HostKey`, `RealPath` with
  its reference on lists of names in `PathNames`, `CivilDate`.

What the surroundings supply is a parameter: clocks, random draws, key derivation,
hashes, keystreams, tags and signatures are arbitrary functions; the network, the
child's tasks and the operating system are event sequences of any length and order. A
broken stream is a number of writes after which every write fails.

Where the code and its comments differ, the model follows the code:

- Stdin is not first-in first-out when a second packet with data arrives before the
  exec and another after it (`StdinRuns.OvertakingHappens`; the exact condition is
  `StdinRuns.OrderExactly`).
- The token bucket is described as free of drift; its rate bound holds exactly when the
  rate divides 1000 or is a multiple of it, or one refill fills the bucket
  (`AdmissionRate.RateBoundExact`). Otherwise tokens drift below 1000, and above 1000 the
  refill clock stands still (`AdmissionRate.ClockStands`).
- The packet threshold is said to make a repeated number impossible by construction. It
  does while the channel is in service (`Runs.NoNumberTwice`, at the default threshold of
  2^31 with a wide margin); before the open, and after the server's CLOSE, no re-key is
  started, and replies repeat a number exactly when they bring the packets under the key
  over 2^32 (`NumberReuse.FloodReuses`).
- "Only the first request starts anything" (`begin_kill`): this holds of a run exactly
  when no request is taken up after the group was killed (`Supervision.OnlyFirstExactly`).
  A kill request, the end of the grace and then a master failure hang up twice
  (`Supervision.SecondHangup`). The kill is owed and paid each time.
- A per-source cap of 0 lets one connection in, because an absent entry is not checked;
  a source stays within its cap exactly when that is not 0 (`AdmissionGuards.CapExactly`).
  The configuration refuses 0.

## Model

Paths are relative to the repository.

| member | source | states |
|---|---|---|
| `Runs.RekeyIsHalfDuplex` | crates/quantumssh-core/src/channel.rs:330-456 | in every run, from the server's KEXINIT until the exchange completes, every packet the server writes is KEXINIT, HYBRID_REPLY, NEWKEYS or DISCONNECT |
| `Runs.DeferralsAreHandled` | crates/quantumssh-core/src/channel.rs:280-320 | at every loop point the messages held back are those handled later followed by those still waiting; at most 64 wait, none outside a re-key |
| `Runs.LifecycleIsMonotone` | crates/quantumssh-core/src/channel.rs:330-456 | the channel state never moves backwards between two points of any run |
| `Runs.CloseIsLast` | crates/quantumssh-core/src/channel.rs:576-610 | at most one CHANNEL_CLOSE, and no data, exit report or second CLOSE after it |
| `Runs.ReturnMeansClosed` | crates/quantumssh-core/src/channel.rs:366-377 | a clean return has exactly one CHANNEL_CLOSE in its history |
| `Runs.TerminalMessagesInOrder` | crates/quantumssh-core/src/channel.rs:576-610 | EOF follows an exit report, CLOSE follows EOF or the client's CLOSE, and the report is sent only when all child output is on the wire and none follows; that they are sent as soon as they are due is `Duties.ClosesNow` |
| `Runs.ExitReportIsTrue` | crates/quantumssh-core/src/channel.rs:421-438 | the exit report carries the status or signal of the child's first reported end, or 127 for a failed start |
| `Runs.OutputIsFaithful` | crates/quantumssh-core/src/channel.rs:487-522 | stream-tagged bytes on the wire are a prefix of the child's output, within the total window granted; no frame over the client's maximum packet or 32 KiB |
| `Runs.RecordIsTrue` | crates/quantumssh-core/src/channel.rs:613-645 | on every path the record is written on (return, failure, drop), exec.finished carries the bytes put on the wire and the bytes the child got, acks still queued included, each saturating at 64 bits |
| `Runs.ClientCloseKills` | crates/quantumssh-core/src/channel.rs:1095-1130 | the driver has seen an early close exactly when the history shows one, and then its child is killed and cut off from stdin |
| `Runs.AuditPairs` | crates/quantumssh-core/src/channel.rs:236-240 | after the driver is dropped, on every path, exec.started and exec.finished occur equally often, at most once |
| `Runs.WindowIsConserved` | crates/quantumssh-core/src/channel.rs:530-573 | the driver's window is what the wire allows the client, and window, credit, unacknowledged and given-up bytes always add up to 2 MiB; with all consumed the client may send over 1 MiB |
| `Runs.PacketsAreBounded` | crates/quantumssh-core/src/channel.rs:344-377 | from a paced state in service, however the run goes on or ends, no packet up to the server's CLOSE is sealed with a count above the threshold plus one chunk in 1-byte packets plus three |
| `Runs.CountsAreBounded` | crates/quantumssh-core/src/channel.rs:344-377 | the same over a whole run from a fresh session whose channel opened below the threshold |
| `Runs.NoNumberTwice` | crates/quantumssh-core/src/channel.rs:357-365 | in every run from a fresh session whose channel opened below the threshold, no two packets up to and including the server's CLOSE, or to the end if it fails or stops first, share a key and a sequence number |
| `Runs.OpeningIsPaced` | crates/quantumssh-core/src/channel.rs:720-772 | an open accepted with the counter below the threshold starts a bounded phase |
| `Runs.DriveSplit` | crates/quantumssh-core/src/channel.rs:330-456 | a run is the run of its first part continued by the rest |
| `Metering.RekeysWhenDue` | crates/quantumssh-core/src/transport.rs:1375-1388 | in every run, a turn outside a re-key that goes on starts one exactly when, in the history so far, the channel is in service and one of five quantities is at its limit: payload bytes sent, payload bytes read or packets read since the last exchange, packets sent under the key, time since the last exchange; the KEXINIT is then the last thing it says |
| `Metering.MeteredIsRobust` | crates/quantumssh-core/src/transport.rs:917-980 | every step of every run keeps the byte and packet counters and the time of the last exchange equal to what the history adds up to |
| `Duties.TurnDischarges` | crates/quantumssh-core/src/channel.rs:344-377 | in every run, a turn outside a re-key that goes on leaves nothing undone: all output is sent or the window used up, stdin waits only for a pump that is gone or whose queue of 8 is full, under 1 MiB of credit is owed, and unless a re-key has just begun a finished channel has been closed |
| `Duties.ClosesNow` | crates/quantumssh-core/src/channel.rs:584-610 | in every run, once exit and end of output are seen and all output is sent, with no re-key under way or due, under 1 MiB of credit owed and three writes left, the next turn says exactly the report of the child's first end, EOF and CLOSE; after the client's CLOSE just CLOSE, and then the loop returns |
| `Duties.TurnSays` | crates/quantumssh-core/src/channel.rs:344-377 | what a turn outside a re-key says, frame by frame: the pending output cut as large as window and packet limit allow, the credit owed if it is 1 MiB, then a KEXINIT, the messages that close a finished channel, or nothing |
| `Duties.TurnGoesOn` | crates/quantumssh-core/src/channel.rs:344-377 | a turn of a run fails only for want of writes or of a KEXINIT to send; during a re-key never |
| `Duties.ListensExactly` | crates/quantumssh-core/src/channel.rs:382-384 | the child's tasks are listened to exactly while no re-key is under way, the channel is in service, and every byte they gave is sent or the client has closed |
| `Duties.ChildIsHeard` | crates/quantumssh-core/src/channel.rs:421-438 | a chunk, the exit and the end of output are each taken down when they come, and nothing else is said |
| `Duties.AckIsTaken` | crates/quantumssh-core/src/channel.rs:440-447 | an ack is taken when it comes: its bytes are owed to the client and counted as received |
| `Duties.DeadlineEnds` | crates/quantumssh-core/src/channel.rs:448-454 | a re-key past its deadline ends the connection with DISCONNECT 3, rekey-timeout |
| `Answers.MessagesAreAnswered` | crates/quantumssh-core/src/channel.rs:650-1130 | wherever the loop of a run waits, the bytes of a data, window-adjust, EOF, CLOSE or channel-request message and the history so far determine what is taken down and answered, or the reason the connection ends with: an exec before any start records and starts its own command and gets SUCCESS if it asked for a reply, a request that is refused gets FAILURE, a window over 2^32 - 1 or data past the window or the EOF ends it |
| `Answers.EveryWait` | crates/quantumssh-core/src/channel.rs:344-386 | every turn of every run that goes on outside a re-key ends at such a point, or the loop returns |
| `Answers.OpensExactly` | crates/quantumssh-core/src/channel.rs:720-772 | a session open is confirmed once, recorded with the client's own numbers; a second one and another type are refused with their codes, packets of size 0 end the connection |
| `Answers.GlobalsExactly` | crates/quantumssh-core/src/channel.rs:650-718 | a global request gets REQUEST_FAILURE exactly when it wants a reply |
| `Answers.CloseReturns` | crates/quantumssh-core/src/channel.rs:1095-1130 | after the server's CLOSE the client's own makes the loop return at its next turn |
| `Answers.HeldBackOrHandled` | crates/quantumssh-core/src/channel.rs:280-304 | while the server's KEXINIT is unanswered, messages that need no reply are handled as ever and all others are held back, up to 64 |
| `NumberReuse.ReuseExactly` | crates/quantumssh-core/src/transport.rs:1602-1615 | in every run a number is used twice under one key if and only if more than 2^32 packets are sealed under one key |
| `NumberReuse.FloodReuses` | crates/quantumssh-core/src/channel.rs:357-365 | at any point of a run before the open, or after the server's CLOSE with no credit due, n global requests that want a reply repeat a number if and only if one has repeated already or they bring the packets under the current key over 2^32 |
| `NumberReuse.FreshFloodReuses` | crates/quantumssh-core/src/transport.rs:1602-1615 | from a session's first message on, if and only if n is more than 2^32 |
| `SessionProofs.DriveKeeps` | crates/quantumssh-core/src/channel.rs:330-456 | every run from a state satisfying the invariant keeps it at each loop point, only moves forward, and ends with no rule broken |
| `SessionProofs.RunIsClean` | crates/quantumssh-core/src/channel.rs:236-240 | all six history rules hold of every run from a fresh session, and the drop closes the audit trail with true counts |
| `SessionProofs.TurnKeeps` | crates/quantumssh-core/src/channel.rs:344-377 | one turn keeps the invariant; during a re-key the transport stands still, and a turn that leaves the session idle leaves the counter below the threshold |
| `SessionProofs.ReactKeeps` | crates/quantumssh-core/src/channel.rs:403-455 | every event keeps the invariant and bounds the packets it sends |
| `SessionProofs.DrainKeeps` | crates/quantumssh-core/src/channel.rs:308-320 | draining empties the queue in order, one reply per message at most, in a state the server has not closed |
| `SessionProofs.PassKeeps` | crates/quantumssh-core/src/channel.rs:280-304 | a message passed on during a re-key sends nothing |
| `ChannelProofs.HandleKeeps` | crates/quantumssh-core/src/channel.rs:650-718 | every inbound message keeps the invariant, sends at most one packet and never moves the lifecycle back |
| `ChannelProofs.FlushKeeps` | crates/quantumssh-core/src/channel.rs:487-522 | flushing keeps the invariant, stops only when window or chunk is used up, and sends at most one packet per pending byte |
| `ChannelProofs.CreditSend` | crates/quantumssh-core/src/channel.rs:558-573 | the credit added to the window is the credit put on the wire |
| `ChannelProofs.NormalTerminalKeeps` | crates/quantumssh-core/src/channel.rs:584-610 | the close sequence of a normal exit obeys the channel's order rules |
| `LinkProofs.StepRekeyKeeps` | crates/quantumssh-core/src/transport.rs:1084-1185 | the sub-machine advances only by its own messages, keeps every counter in step, and says nothing about the channel |
| `LinkProofs.StepsExactly` | crates/quantumssh-core/src/transport.rs:1084-1185 | which packets each phase takes, as bytes: a KEXINIT that can be agreed on, the one guessed packet, a HYBRID_INIT of one string of at most 1216 bytes, exactly [21]; while the server's KEXINIT is unanswered all else goes to the channel, and every other packet ends the connection |
| `LinkProofs.CompleteKeeps` | crates/quantumssh-core/src/transport.rs:1202-1265 | the reply and NEWKEYS leave under the old keys and the new ones start at packet 0 |
| `LinkProofs.PlainWrite` | crates/quantumssh-core/src/transport.rs:972-980 | a packet outside an exchange keeps the exchange and sealing rules |
| `LinkProofs.InStepNext` | crates/quantumssh-core/src/cipher.rs:371-404 | sequence number and GCM invocation counter advance together, wrap-around included |
| `StdinProofs.HandoffKeeps` | crates/quantumssh-core/src/channel.rs:530-554 | handing stdin over conserves the accounted bytes and their order, and leaves a running child with nothing queued from before it unless there was a crowd |
| `StdinProofs.HandoffHonoursEof` | crates/quantumssh-core/src/channel.rs:546-553 | a handoff closes stdin exactly when the client sent EOF and nothing is left to deliver |
| `StdinProofs.CreditKeeps` | crates/quantumssh-core/src/channel.rs:558-573 | returning credit never saturates and conserves the window |
| `StdinProofs.AckKeeps` | crates/quantumssh-core/src/channel.rs:440-447 | an ack moves exactly its bytes to the credit and to the count received, without saturating the credit |
| `StdinProofs.PumpWroteKeeps` | crates/quantumssh-core/src/exec.rs:868-892 | a partial write moves exactly its bytes from in flight to delivered; they are accepted bytes not used before, and the next in order when there is no crowd |
| `StdinRuns.StdinIsFaithful` | crates/quantumssh-core/src/channel.rs:1042-1048 | in every run, however it ends, the child gets accepted bytes only, each at most once; unless a second packet with data came before the exec and another after it, they are the start of what the client sent |
| `StdinRuns.NothingGoesMissing` | crates/quantumssh-core/src/channel.rs:1012-1051 | at every loop point delivered, waiting and given-up bytes make up the accepted ones; in order, with nothing given up and no crowd or nothing after it |
| `StdinRuns.OrderExactly` | crates/quantumssh-core/src/channel.rs:536-538 | at any point before the exec, outside a re-key, with window left and a stream that takes five more packets: every way to go on that adds no early packet keeps the order if and only if the early packets after the first are empty or the client has sent its EOF |
| `StdinRuns.ShutKeepsOrder` | crates/quantumssh-core/src/channel.rs:1074-1093 | once the client has sent its EOF before the exec, the child gets its input in order on every way to go on |
| `StdinRuns.CrowdBreaks` | crates/quantumssh-core/src/channel.rs:1042-1048 | the failing half with its run, through a re-key first when one is due: exec, one byte, and the pump writing two chunks |
| `StdinRuns.OvertakingHappens` | crates/quantumssh-core/src/channel.rs:536-538 | a whole session from the open: 1 and 2 sent before the exec, 3 after it, and the child gets 1, then 3 |
| `StdinRuns.CrowdIsReadOff` | crates/quantumssh-core/src/channel.rs:1042-1048 | the crowd is the concatenation of the stdin packets before the exec or the client's CLOSE, the first left out; what came after it and the EOF are read off likewise |
| `StdinOrder.ArrivalOrder` | crates/quantumssh-core/src/channel.rs:1042-1048 | a packet for a running child keeps its place in line if and only if it commutes with what is left of the pre-exec queue |
| `StdinOrder.WroteOrdered` | crates/quantumssh-core/src/exec.rs:868-892 | what the pump writes is the head of the line |
| `TraceMeaning.HalfDuplex` | crates/quantumssh-core/src/channel.rs:344-349 | what the exchange rule says of the entries between a KEXINIT and completion |
| `TraceMeaning.DeferralIsFifo` | crates/quantumssh-core/src/channel.rs:308-320 | held back = handled later + waiting, at most 64 waiting |
| `TraceMeaning.NumbersMeet` | crates/quantumssh-core/src/transport.rs:1013-1027 | two packets under one key have one number if and only if their counts differ by a multiple of 2^32 |
| `TraceMeaning.NoSequenceReuse` | crates/quantumssh-core/src/transport.rs:1013-1027 | fewer than 2^32 packets under a key means no number twice |
| `TraceMeaning.IntakeIsFaithful` | crates/quantumssh-core/src/channel.rs:1012-1051 | what the intake rule says of the child's input as a whole |
| `TraceMeaning.NothingAfterEof` | crates/quantumssh-core/src/channel.rs:1031-1033 | after the client's EOF nothing is accepted |
| `Trace.DataFrameRoundTrip` | crates/quantumssh-core/src/channel.rs:1151-1167 | a data frame reads back to the stream and bytes it was built from |
| `FrameReader.FramesReadBack` | crates/quantumssh-core/src/channel.rs:1151-1238 | every message the server builds is read back, by a reader written to the RFCs' codes and layouts, as exactly what it says |
| `ChannelDriver.ChannelDriver.FlushOutput` | crates/quantumssh-core/src/channel.rs:487-522 | the loop does what `Channel.FlushOutput` says |
| `ChannelDriver.ChannelDriver.EmitFinished` | crates/quantumssh-core/src/channel.rs:613-645 | the loop over queued acks does what `Channel.EmitFinished` says |
| `ChannelDriver.ChannelDriver.DrainDeferred` | crates/quantumssh-core/src/channel.rs:308-320 | the loop does what `Channel.DrainDeferred` says |
| `ChannelDriver.ChannelDriver.Drive` | crates/quantumssh-core/src/channel.rs:330-456 | the loop over any events ends as `Channel.Drive` says, in the state it says |
| `ChannelDriver.Serve` | crates/quantumssh-core/src/channel.rs:236-456 | a connection from its first message to the driver's drop: the history is that of `Channel.Drive` over the same events, obeys all six rules, has one CLOSE at most (exactly one on a clean return) and no data, exit report or second CLOSE after it, start and finish records paired with true counts, output a prefix within the window, input never invented and in order unless a crowd is followed by more data; a loop at rest outside a re-key has sent all it may and closed what is finished |
| `Epochs.OpenedAsSealed` | crates/quantumssh-core/src/transport.rs:1084-1265 | in every interleaving of server-started, peer-started and simultaneous re-keys, guessed packets and traffic, the next packet in either direction is opened with the key, counter and number it was sealed with |
| `Epochs.InvocationFollowsSequence` | crates/quantumssh-core/src/cipher.rs:371-437 | with fewer than 2^32 packets under a key, its GCM counter is the initial value plus the sequence number |
| `Epochs.ConformingPeerIsHeard` | crates/quantumssh-core/src/transport.rs:1084-1185 | the re-key machine never turns a conforming peer away; only the server's own draw, signature, exchange or stream can fail |
| `Epochs.RunKeeps` | crates/quantumssh-core/src/transport.rs:469-522 | from the state the initial exchange leaves, both ends stay in step over every run |
| `Epochs.DoKeeps` | crates/quantumssh-core/src/transport.rs:917-980 | each step of either end keeps both queues openable and the two phases in agreement |
| `Epochs.ServerReplies` | crates/quantumssh-core/src/transport.rs:1202-1265 | what the server writes and installs on a HYBRID_INIT |
| `Connections.SessionsOpenAsSealed` | crates/quantumssh-core/src/channel.rs:330-456 | in every run of the channel driver against a conforming peer, any interleaving and however it ends, the next packet the peer reads (a final DISCONNECT included) was sealed with the key and number it opens it with, and so was the next one the server reads |
| `Connections.IterateTuned` | crates/quantumssh-core/src/channel.rs:344-455 | one iteration of the loop leaves the two ends in step, or ends with every packet of the server's still opening |
| `LinkSteps.HandleHolds` | crates/quantumssh-core/src/channel.rs:650-718 | whatever notes, ordinary packets and a re-key begun leave true of a link, handling any inbound message leaves true |
| `LinkSteps.TurnHolds` | crates/quantumssh-core/src/channel.rs:344-377 | the same of phases (A) to (E) of a turn |
| `LinkSteps.DriveExtends` | crates/quantumssh-core/src/channel.rs:330-456 | over every run and its drop the history only grows |
| `Connections.HybridHalts` | crates/quantumssh-core/src/transport.rs:1202-1265 | a re-key that fails on the server's side leaves only packets the peer can open |
| `PacketReader.Reader.ReadPacket` | crates/quantumssh-core/src/transport.rs:917-942 | for any reads and cancellation points, a returned payload is the uninterrupted reader's, the buffer is then empty, and a call is cancelled only when it is told to be, or out of reads that each brought a byte, and then loses nothing |
| `PacketReader.Reader.FillInbuf` | crates/quantumssh-core/src/transport.rs:949-963 | a fill moves bytes from stream to buffer, never past the wanted length |
| `PacketReader.Reader.FillTo` | crates/quantumssh-core/src/transport.rs:917-942 | either loop of a read ends with the bytes it wants, or stops for a cancellation or the end of the stream with nothing lost |
| `PacketReader.Reader.ReadMany` | crates/quantumssh-core/src/transport.rs:1577-1593 | any number of calls, cancelled or not, across key switches, yields the payload sequence of the uninterrupted reader; a call that is not cancelled and waits long enough yields one or is the last |
| `PacketReader.Reader.SwitchKeys` | crates/quantumssh-core/src/transport.rs:1158-1163 | a key switch finds the buffer empty and starts at number 0 |
| `Aead.ChaChaRoundTrip` | crates/quantumssh-core/src/cipher.rs:264-324 | whatever seals, the length check yields the remaining byte count and opening returns the payload |
| `Aead.GcmRoundTrip` | crates/quantumssh-core/src/cipher.rs:378-437 | the same for GCM, for each invocation counter |
| `Aead.PaddedBodyDecodes` | crates/quantumssh-core/src/cipher.rs:195-227 | the padded body is block-aligned with padding of at least 4, passes the length check and decodes to the payload |
| `Aead.LengthsTaken` | crates/quantumssh-core/src/cipher.rs:195-206 | the lengths the receiver takes are exactly those of the bodies a sender seals |
| `Aead.ChaChaBytes` | crates/quantumssh-core/src/cipher.rs:264-290 | each byte of a sealed packet: the length under the header key from keystream position 0, padding length, payload and padding under the main key from position 64, both for the packet's number, then the tag of what is sent |
| `Aead.GcmBytes` | crates/quantumssh-core/src/cipher.rs:371-404 | each byte of a sealed packet: the length in the clear, padding length, payload and padding from keystream position 0 of fixed field and invocation counter, then the tag of what is sent |
| `Aead.DataFramesSeal` | crates/quantumssh-core/src/channel.rs:1151-1167 | every data frame the channel builds fits a packet of either cipher |
| `Aead.ApplyKeystream` | crates/quantumssh-core/src/cipher.rs:264-296 | the in-place XOR of a buffer's front, the rest untouched |
| `Aead.Gcm.Seal` | crates/quantumssh-core/src/cipher.rs:378-406 | the packet of the current counter, which advances by one exactly on success |
| `Aead.Gcm.Open` | crates/quantumssh-core/src/cipher.rs:408-437 | decrypts in place; a wrong tag leaves buffer and counter alone, anything else advances the counter |
| `Framing.GcmStreamReads` | crates/quantumssh-core/src/transport.rs:1577-1593 | a stream of GCM packets reads back as the payloads sealed |
| `Framing.ChaChaStreamReads` | crates/quantumssh-core/src/transport.rs:1577-1593 | a stream of ChaCha packets reads back as the payloads sealed |
| `Supervision.AnyRun` | crates/quantumssh-core/src/exec.rs:328-478 | every interleaving of spawns, polls, reaper drops, scope drop, PID reuse and orphan reaping keeps the registry equal to the unreaped children with a reaper, and the log orderly |
| `Supervision.KillPrecedesReap` | crates/quantumssh-core/src/exec.rs:364-421 | between taking up a kill and reaping the leader lies a SIGKILL of its group |
| `Supervision.SignalsHitOurs` | crates/quantumssh-core/src/exec.rs:290-303 | every signal reached a child of the scope that was not reaped yet |
| `Supervision.OnlyFirstExactly` | crates/quantumssh-core/src/exec.rs:423-439 | over every run of a reaper's loop, only the first request starts anything if and only if no request is taken up after the group was killed |
| `Supervision.StartsExactly` | crates/quantumssh-core/src/exec.rs:426-439 | at every poll of every run, a request taken up starts a signal if and only if the child is on pipes or no grace is running |
| `Supervision.GraceRuns` | crates/quantumssh-core/src/exec.rs:381-408 | the grace timer runs exactly from a PTY's request to the next kill of its group |
| `Supervision.SecondHangup` | crates/quantumssh-core/src/exec.rs:383-401 | a kill request, the grace over, a master failure: two hang-ups |
| `Supervision.HangsUpTwice` | crates/quantumssh-core/src/exec.rs:383-401 | the object logs those two hang-ups |
| `Supervision.Reaper.Run` | crates/quantumssh-core/src/exec.rs:364-421 | the loop over any polls leaves the state and the log of those polls, none after the reap |
| `Supervision.Reaper.Poll` | crates/quantumssh-core/src/exec.rs:364-421 | the first ready branch in the order kill, failure report, grace, exit, with the exact log of each: a kill request that is ready is taken up before a ready exit is reaped |
| `Supervision.Reaper.BeginKill` | crates/quantumssh-core/src/exec.rs:426-439 | the kill is recorded, then the group is killed at once on pipes; on a PTY a hang-up goes out and the grace starts, unless one is running, when nothing is sent |
| `Supervision.Reaper.TryReap` | crates/quantumssh-core/src/exec.rs:444-456 | reaping and deregistering happen together, with no kill owed |
| `Supervision.Reaper.OnExit` | crates/quantumssh-core/src/exec.rs:402-418 | an exit within the grace kills the group, then an exited child is reaped; nothing else is logged |
| `Supervision.Reaper.Drop` | crates/quantumssh-core/src/exec.rs:458-470 | a dropped reaper kills its group while the PID is reserved, then deregisters |
| `Supervision.Reaper.constructor` | crates/quantumssh-core/src/exec.rs:335-356 | the new child enters the registry |
| `Supervision.Scope.Drop` | crates/quantumssh-core/src/exec.rs:290-303 | every registered child is killed, by PID and then by group, in the registry's order; nothing else is logged and no kill is owed afterwards |
| `AdmissionRate.RateBoundExact` | crates/quantumssh-core/src/admission.rs:91-133 | for every positive rate, burst and caps: no window of w ms of any run admits a source more than burst + 1 + w * rate / 1000 times if and only if the rate divides 1000, is a multiple of 1000, or one refill fills the bucket (burst at most 1 or at most rate / 1000) |
| `AdmissionRate.PacedBound` | crates/quantumssh-core/src/admission.rs:99-133 | when refills go at a pace, any window of any run admits at most a full bucket and the spans that can end in it, across refills, sweeps, prunes and re-creation |
| `AdmissionRate.DividingKeeps` | crates/quantumssh-core/src/admission.rs:99-118 | a rate that divides 1000 keeps the bound |
| `AdmissionRate.MultipleKeeps` | crates/quantumssh-core/src/admission.rs:99-118 | a rate that is a multiple of 1000 keeps the bound |
| `AdmissionRate.SmallKeeps` | crates/quantumssh-core/src/admission.rs:107-111 | a bucket that every refill fills keeps the bound |
| `AdmissionRate.DriftBreaks` | crates/quantumssh-core/src/admission.rs:112-117 | below 1000, any other rate breaks the bound: each token moves the clock by less than it took |
| `AdmissionRate.StandingBreaks` | crates/quantumssh-core/src/admission.rs:112-117 | above 1000, any other rate breaks the bound: every millisecond admits a whole burst, over and over |
| `AdmissionRate.ClockStands` | crates/quantumssh-core/src/admission.rs:112-117 | at such a rate a millisecond's tokens are added and the clock does not move |
| `AdmissionRate.RefillIsExact` | crates/quantumssh-core/src/admission.rs:99-118 | a refill adds the whole tokens since the last accounting; saturating arithmetic never shows |
| `AdmissionRate.RefillLeft` | crates/quantumssh-core/src/admission.rs:99-118 | at a pace, a refill never lets a bucket give more by any later instant |
| `AdmissionRate.StepPot` | crates/quantumssh-core/src/admission.rs:202-251 | at a pace, an admission takes a token from what a source can still get, and no operation adds to it |
| `AdmissionRate.DropsExactly` | crates/quantumssh-core/src/admission.rs:202-311 | a sweep drops exactly the entries, and a departure its own entry exactly when it is one, that hold no slot and would be as full as a new one now and at every later instant |
| `AdmissionGuards.Shared.TryAdmit` | crates/quantumssh-core/src/admission.rs:202-251 | counts stay equal to live guards and unreleased half-open slots, no cap is exceeded; which cap refuses is read off the guards alive, in the source's order; a cap refusal changes nothing, a rate refusal takes no slot |
| `AdmissionGuards.AnyRun` | crates/quantumssh-core/src/admission.rs:202-311 | every interleaving of arrivals, flag swaps, releases and drops keeps every count equal to its guards and within its cap |
| `AdmissionGuards.CapExactly` | crates/quantumssh-core/src/admission.rs:202-251 | a source within its cap stays within it when admitted once more, if and only if the cap is not 0 |
| `AdmissionGuards.Guard.Swap` | crates/quantumssh-core/src/admission.rs:273-276 | only the first caller releases; the counts still match in between |
| `AdmissionGuards.Guard.Release` | crates/quantumssh-core/src/admission.rs:277-282 | both counts drop by exactly one, without saturating |
| `AdmissionGuards.Guard.Drop` | crates/quantumssh-core/src/admission.rs:292-311 | exactly the slots still held are given back, without saturating, and the prune rule keeps the counts |
| `RealPath.RealPathIsCanonical` | crates/quantumssh-core/src/sftp.rs:784-847 | over any tree and resolved working directory, success is an absolute path of proper names, no symlink in it, after at most 32 links |
| `RealPath.RealPathIsIdempotent` | crates/quantumssh-core/src/sftp.rs:784-847 | resolving a result again gives it back |
| `RealPath.CanonicalIsFixed` | crates/quantumssh-core/src/sftp.rs:784-847 | every canonical path resolves to itself with no link followed |
| `PathNames.ResolvesByName` | crates/quantumssh-core/src/sftp.rs:784-847 | for every tree, path and absolute working directory, the result and the links followed, or the error, are those of a walk over lists of names in which a link is replaced by its target's components, from the root or the link's directory |
| `PathNames.Composes` | crates/quantumssh-core/src/sftp.rs:831-840 | when p resolves to an existing q after n links, p/r resolves to what q/r does, with n links more and 32 at most |
| `PathNames.LinkLeads` | crates/quantumssh-core/src/sftp.rs:822-840 | a path whose last name is a symlink resolves as its target does, from the root when that is absolute and from the link's directory otherwise, with one link more |
| `RealPath.RealPath` | crates/quantumssh-core/src/sftp.rs:784-847 | the cursor loop computes the resolution that `PathNames.ResolvesByName` describes, and terminates: a link or a byte is used up each round |
| `RealPath.PopComponent` | crates/quantumssh-core/src/sftp.rs:852-866 | the backward scan computes `Pop` |
| `RealPath.PopHolds` | crates/quantumssh-core/src/sftp.rs:852-866 | popping drops exactly the last name, with or without a slash after it, and keeps the root |
| `CivilDate.CivilIsTheCalendar` | crates/quantumssh-core/src/sftp.rs:1007-1019 | day 0 is 1 January 1970 and each next day is the next Gregorian date |
| `CivilDate.DaysOfCivil` | crates/quantumssh-core/src/sftp.rs:1007-1019 | every day number has a valid date, whose number it is |
| `CivilDate.CivilOfDays` | crates/quantumssh-core/src/sftp.rs:1007-1019 | every valid date is the date of its number |
| `HostKey.GenerateLoads` | crates/quantumssh-core/src/host_key.rs:258-329 | for every 68-byte draw the generated file loads to the same seeds and public key |
| `HostKey.LengthsAreExact` | crates/quantumssh-core/src/host_key.rs:275-318 | every precomputed buffer length is the length built |
| `HostKey.ContainerBytes` | crates/quantumssh-core/src/host_key.rs:275-308 | the container is the magic, no cipher and no KDF, one key, its public blob, and the section with both check words, the seeds, an empty comment and the bytes 1 to 5 |
| `HostKey.BlobReads` | crates/quantumssh-core/src/host_key.rs:181-189 | the public blob reads back as the algorithm and the key |
| `HostKey.ContainerExactly` | crates/quantumssh-core/src/host_key.rs:111-135 | a container loads exactly when it is those fields, unencrypted, with one key and nothing after its section, and the section loads |
| `HostKey.SectionExactly` | crates/quantumssh-core/src/host_key.rs:136-162 | a private section loads to seeds and key exactly when it is two equal check words, the algorithm, the key that the 64 seed bytes give, and the seeds |
| `HostKey.PemBody` | crates/quantumssh-core/src/host_key.rs:96-110 | the loader reads back exactly the body that was wrapped |
| `HostKey.DecodeWrapped` | crates/quantumssh-core/src/host_key.rs:404-441 | decoding undoes encoding with lines of 70 |
| `HostKey.ContainerLoads` | crates/quantumssh-core/src/host_key.rs:111-135 | the container's fields read back as written |
| `HostKey.SectionLoads` | crates/quantumssh-core/src/host_key.rs:136-162 | the private section reads back to its seeds and key |
| `HostKey.WrapLines` | crates/quantumssh-core/src/host_key.rs:309-318 | the loop writes the body in lines of 70 |
| `Base64.DecodeEncode` | crates/quantumssh-core/src/host_key.rs:362-441 | decoding undoes both encoders on every byte string |
| `Base64.EncodeNoPadLoop` | crates/quantumssh-core/src/host_key.rs:362-387 | the chunk loop computes `EncodeNoPad` |
| `Base64.EncodeLoop` | crates/quantumssh-core/src/host_key.rs:392-398 | the padding loop computes `Encode` |
| `Base64.DecodeLoop` | crates/quantumssh-core/src/host_key.rs:404-441 | the decoding loop computes `Decode` |
| `Certificates.CertificateIsSignedPart` | crates/quantumssh-core/src/cert.rs:245-309 | an accepted certificate is its signed part followed by the re-encoded signature |
| `Certificates.ParsesExactly` | crates/quantumssh-core/src/cert.rs:245-309 | a blob is a certificate exactly when it is the named fields written out in wire order and a signature, within the bounds, and each field is taken for what it is |
| `Certificates.RefusedExactly` | crates/quantumssh-core/src/cert.rs:174-222 | why a well-formed certificate is refused: the first rule its fields break, in order |
| `Certificates.MalformedExactly` | crates/quantumssh-core/src/cert.rs:174-182 | a blob is malformed if and only if it is no certificate |
| `Certificates.NoPrefixIsACertificate` | crates/quantumssh-core/src/cert.rs:245-309 | no strict prefix of an accepted certificate is accepted |
| `Certificates.SignedDeterminesFields` | crates/quantumssh-core/src/cert.rs:226-243 | what the CA signed determines every field |
| `Certificates.AcceptedExactly` | crates/quantumssh-core/src/cert.rs:174-222 | accepted if and only if the blob is nonce, key, serial, role, key id, principals, validity, options, extensions, reserved and CA key in wire order with role 1, valid-after <= now < valid-before, the user among the principals, no critical option, a trusted CA key and its composite signature over those bytes; and what is accepted is those fields |
| `Certificates.PrincipalsExactly` | crates/quantumssh-core/src/cert.rs:316-326 | the field is accepted exactly when it is a sequence of at most 256 strings, which are the principals |
| `Certificates.OptionsExactly` | crates/quantumssh-core/src/cert.rs:331-339 | an options or extensions field is accepted exactly when it is a sequence of pairs of strings, which are the options in order |
| `Certificates.ParsePrincipals` | crates/quantumssh-core/src/cert.rs:316-326 | the loop computes `Principals` |
| `Certificates.ScanExtensions` | crates/quantumssh-core/src/cert.rs:331-339 | the loop's flags say whether permit-pty occurs, and whether with data |
| `UserAuth.RequestExactly` | crates/quantumssh-core/src/auth.rs:472-533 | a payload is a publickey request if and only if it is [50], user, ssh-connection, publickey, a flag byte, algorithm and key blob, each within its bound and UTF-8, then nothing or, for any flag but 0, the signature field; the signature covers what comes before it |
| `UserAuth.RefusedExactly` | crates/quantumssh-core/src/auth.rs:472-533 | a request is refused unseen if and only if it is by another method, or a publickey request under an unknown algorithm |
| `UserAuth.ServiceExactly` | crates/quantumssh-core/src/auth.rs:472-533 | another service is asked for if and only if the request's own bytes name one |
| `UserAuth.NoPrefixIsARequest` | crates/quantumssh-core/src/auth.rs:472-533 | no strict prefix of an accepted publickey request is accepted as one |
| `UserAuth.ResolvesExactly` | crates/quantumssh-core/src/auth.rs:378-417 | a key resolves if and only if it is listed, or is the key field of a certificate whose fields a trusted CA signed for this user and now |
| `UserAuth.SignedDataIsInjective` | crates/quantumssh-core/src/auth.rs:557-562 | what is signed determines the session and the request |
| `UserAuth.SuccessIsProven` | crates/quantumssh-core/src/transport.rs:722-755 | a request is valid for a key if and only if it is the bytes of a signed request under some user and key blob that resolve to that key, and its signature verifies over this session's id followed by those bytes |
| `UserAuth.ProbeExactly` | crates/quantumssh-core/src/transport.rs:722-755 | a request counts as a known-key probe if and only if it is the bytes of an unsigned request whose key resolves |
| `UserAuth.Authenticate` | crates/quantumssh-core/src/transport.rs:660-849 | at most 12 requests are read, audited counts are 1, 2, 3 with one per failure and none for a known-key probe, success only on a valid request |
| `Records.PrefixFree` | crates/quantumssh-core/src/wire.rs:108-268 | no record read to its end is a strict prefix of another |
| `Records.ReadPrint` | crates/quantumssh-core/src/wire.rs:308-362 | reading undoes printing, whatever follows |
| `Records.PrintRead` | crates/quantumssh-core/src/wire.rs:108-268 | every accepted encoding without flags is the canonical one |
| `KeyExchange.SerialisedIsInjective` | crates/quantumssh-core/src/kex.rs:788-802 | the serialised exchange-hash input determines all eight fields |
| `KeyExchange.SerialisedInOrder` | crates/quantumssh-core/src/kex.rs:788-802 | the hash input is the eight strings of section 8 of RFC 4253 in their order |
| `KeyExchange.DeriveKey` | crates/quantumssh-core/src/kex.rs:810-846 | the needed prefix of the block chain, the same from any sufficient number of blocks |
| `Wire.EncodeDecode` | crates/quantumssh-core/src/wire.rs:428-497 | for every padding drawn, the length check yields the bytes that follow and decoding returns the payload |
| `Wire.LengthsTaken` | crates/quantumssh-core/src/wire.rs:465-475 | the lengths the receiver takes are those of the packets a sender makes, and 4, which no packet has |
| `Wire.PaddingIsLeast` | crates/quantumssh-core/src/wire.rs:428-445 | no shorter legal padding completes the block |
| `Wire.ComputePadding` | crates/quantumssh-core/src/wire.rs:428-445 | the loop computes that padding |
| `Wire.GetPutString` | crates/quantumssh-core/src/wire.rs:192-200 | a written string reads back, and one over the bound is refused |
| `Wire.PutGetString` | crates/quantumssh-core/src/wire.rs:358-362 | every string read is what writing it back gives |
| `Wire.Reader.String` | crates/quantumssh-core/src/wire.rs:192-200 | the reading object consumes what the getter says, and only the length field on refusal |

## Left out

- Negotiation of a KEXINIT (`kex.rs`, `negotiate`) and the hybrid exchange: their outcomes are parameters of the re-key machine, any value being possible.
- The plaintext handshake before authentication and the service request: the session starts from any keys and counters in step; in `Epochs` from both ends agreeing.
- Cryptographic primitives and the composite signature: arbitrary functions.
- Tokio scheduling, timers, sockets, pipes and pseudo-terminals: only the events they deliver, a wake-up at any time. The stdin pump is three events (takes a chunk, writes part of it, ends), the output pumps one.
- The contents of exec.* and other audit records beyond their number, order, command and byte counts.
- Answers.MessagesAreAnswered: whether a terminal is allocated is taken from the driver's field, not from the history; what it decides is which of SUCCESS and FAILURE three kinds of request get.
- StdinRuns.OrderExactly: says nothing of a client that has used up its whole 2 MiB window before the exec, or of a re-key under way then; `StdinIsFaithful` covers both, one way.
- IPv6 aggregation of sources (`source_key`): a source is a key.
- The rest of SFTP, terminal modes, `authorized_keys` files, the server's accept loop, configuration, logging and the command line.
- Zeroisation, constant-time comparison and Debug redaction.
