# udpdiag: control protocol, probe engine, sweep and report

udpdiag measures UDP loss between a client and a server.  A client opens a TCP control connection,
prepares and starts a test, one side sends numbered probes over UDP, and the counts are fetched as a
Result.  A sweep repeats this for every family, port, direction and payload size, and a report groups
the results and names the smallest size at which loss becomes critical.

This project models those parts and proves what they are for.  Verify it with
`dafny verify dfyconfig.toml`.

* **Session** (`Session`, `SessionInvariant`, `SessionTheorems`, `SessionRuns`, `SessionResults`,
  `SessionEnds`, `SessionObject`).
  A session is two threads, the message handler and one sender or receiver goroutine, that share
  fields under a mutex.  Every lock section, unlocked access, channel close, socket call and half-frame
  write is one step; theorems quantify over every schedule.  `SessionObject` is the session in the
  form of its source, a class whose methods update fields in place: each method takes steps of the
  step system only, so that the theorems hold of the object (`Safety`), its loop refines a function
  of what it reads (`HandleMessages`), and whole tests put exact frames on the connection
  (`UplinkTest`).
* **Conversation** (`Conversation`, `ConversationInvariant`, `ConversationTheorems`,
  `ConversationRuns`, `ConversationProbes`).  The client scripts RunUplink and RunDownlink run against
  a session over the control connection, with a network that loses, delays and reorders probes;
  `ConversationRuns` shows that a lossless network can be seen as one, and `ConversationProbes`
  follows the single packets, down to their bytes.
* **Server** (`Server`, `ServerTheorems`, `Host`, `HostShutdown`, `HostWorkers`, `HostOutlives`).  Any
  number of connection goroutines compete for one slot by compare-and-swap; Start and Close may be
  called at any time.  `Host` puts a session in every slot, `HostShutdown` shows that Close comes to an
  end, and `HostWorkers` and `HostOutlives` show what can still run when it has.
* **Probes** (`Codec`, `Probe`, `Measurement`).  Byte formats, the in-place sender, the receiver, and
  what the loss numbers mean end to end.
* **Sweep and report** (`Sorting`, `Ports`, `Sweep`, `SweepTheorems`, `Report`, `ReportTheorems`).

## What the code does that its design does not say

* The transition table has no edge from Collecting to Cancelled, but a cancel in Collecting takes it
  (`SessionRuns.CollectingCanBeCancelled`); `SessionTheorems.EveryChangeIsAnEdge` shows that it is the
  only extra edge, and exactly when it is taken.  Every other edge but the reset to Idle is taken in some
  run (`SessionRuns.EveryEdgeIsTaken`).
* A send_complete that is handled before the receiver goroutine has installed its channels ends the
  test with Received 0 while the receiver goes on, and its quit channel is never closed
  (`SessionRuns.MissedReceiverIsNeverStopped`).  When send_complete is handled, the Result will tell
  the receiver's final count in every continuation if and only if it does not overtake the receiver
  (`SessionResults.ResultTellsTheCount`): an uplink receiver must have begun to install its channels,
  and with direction `both`, which waits for nobody, the receiver must have finished.
* With direction `both` the quit channel is never closed (`SessionTheorems.ChannelDiscipline`).
* Close waits for accept loops and connection handlers only.  A Start that is between its unlock and
  its wg.Add(1) when Close is called can launch its accept loop after Close has returned
  (`ServerTheorems.OverlappingStartOutlivesClose`), and that is exactly when an accept loop or handler
  can outlive Close (`HostShutdown.PendingStartDecides`, `ServerTheorems.QuietAfterClose`).
* Close does not wait for the senders and receivers of sessions.  One can outlive Close if and only if
  the server has ever listened (`HostOutlives.ListeningDecides`), even with no Start in progress
  (`HostOutlives.WorkerCanOutliveClose`).  None is started after Close has returned and none writes
  to a client (`HostWorkers.NothingStartsAfterClose`); one that is left has a bounded number of steps
  unless it is a receiver before its install, or one that polls an open socket with its quit channel
  open, and then it has not (`HostWorkers.OutlivingWorkerIsBounded`).
* A session that meets EOF does not always end in a terminal state: EOF in Ready leaves Ready, and in
  Running leaves Collecting (`SessionEnds.EofCanLeave`); in Preparing and Collecting it ends in Failed
  (`SessionEnds.EndAfterTimeout`).  Without a fault the end is terminal
  (`SessionEnds.FaultlessEndIsTerminal`).
* An uplink Result counts every packet with a valid header, a downlink result only matched ones.  The
  two counts agree if and only if no packet of another test is met
  (`Measurement.ReceivedEqualsMatched`); such a packet exists (`Measurement.ForeignPacketIsReceived`).
* Every sender and receiver uses session 0 and test 0, so two tests of one direction and family cannot
  be told apart (`ConversationProbes.TestsLookAlike`), and a late probe of an earlier test can make the
  loss negative (`ConversationProbes.LossCanBeNegative`).
* A plan visits every combination once exactly when the configured ports are distinct
  (`SweepTheorems.PlanVisitsOnce`).

## Model

| member | source | states |
|---|---|---|
| SessionInvariant.StepInv | internal/control/session.go:66-461 | The invariant of a session (which program points, state, channels, counts and history go together) is kept by every step of either thread |
| SessionInvariant.ExecInv | internal/control/session.go:66-461 | The invariant holds after every schedule |
| SessionTheorems.EveryChangeIsAnEdge | internal/control/session.go:54-64 | In every reachable state a state change is an edge of the transition table if and only if it is not the cancel write in Collecting; the worker only makes Running to Collecting; the rank rises |
| SessionTheorems.ParametersAreFrozen | internal/control/session.go:204-266 | Once a Prepare has been accepted no step changes the parameters |
| SessionTheorems.AcceptedFitsTheConnection | internal/control/session.go:235-238 | No schedule accepts a Prepare for IPv6 on an IPv4 control connection |
| SessionTheorems.RankNeverFalls | internal/control/session.go:418-446 | Along every schedule the rank never falls, terminal states are final, and there are at most five state changes |
| SessionTheorems.OneResult | internal/control/session.go:491-520 | At most one Result, in Completed, after an accepted Prepare and a Start; Sent is the accepted packet count; Received is 0 or the receiver's final count, and is that count when the receiver was bound and its channels installed before send_complete |
| SessionTheorems.OneResultOnTheWire | internal/control/session.go:491-520 | In every schedule no second Result frame is ever begun on the connection, whatever the client sends |
| SessionResults.ResultTellsTheCount | internal/control/session.go:368-398 | When send_complete is handled in Running, every continuation's Result equals the receiver's final count if and only if the handler does not overtake the receiver: not an uplink receiver that has not begun its install, nor an unfinished receiver of direction both |
| SessionResults.FetchTellsTheCount | internal/control/session.go:400-416 | When fetch_result is handled in Collecting, every continuation's Result equals the receiver's final count if and only if the receiver has published its count, is in the section that does, or has ended with nothing to count |
| SessionTheorems.RefetchIsUnreachable | internal/control/session.go:400-416 | fetch_result is never examined in a terminal state, so the re-fetch branch is dead |
| SessionTheorems.ReceivedIsPublishedOnce | internal/control/session.go:329-366 | receivedCount is written at most once, only by the publishing step, and equals what Receive counted |
| SessionTheorems.ChannelDiscipline | internal/control/session.go:368-398 | Each channel is closed at most once; quitCh is closed exactly when an uplink send_complete found it installed; no thread waits while holding the mutex |
| SessionTheorems.WaitingWorkerMoves | internal/control/session.go:368-390 | While the handler waits on receiverDone, only the worker can move, it always can, and each of its steps lowers a rank |
| SessionTheorems.WaitEnds | internal/control/session.go:329-390 | Under every schedule the wait is over after at most six steps |
| SessionTheorems.TimeoutEndsTheLoop | internal/control/session.go:79-110 | After EOF or a timeout, in any state and under every schedule, the handler takes at most thirty more steps, reads its connection at most once more (so the loop exits within one further iteration) and sends no Result |
| SessionTheorems.StoppingHandlerIsNotStuck | internal/control/session.go:432-461 | Until it has returned, such a handler can move or waits for a worker that can |
| SessionEnds.FaultlessEndIsTerminal | internal/control/session.go:79-122 | In every schedule Run ends in a terminal state, unless a read or a write failed or a setState was refused |
| SessionEnds.EveryActiveStateCanBeTheLast | internal/control/session.go:79-122 | With such a fault Run can end in every active state |
| SessionEnds.EndAfterTimeout | internal/control/session.go:432-446 | Every run that meets EOF or a timeout contains the locked read of handleTimeout; if that meets Preparing or Collecting the last state is Failed, in Ready it is Ready and in Running Collecting, unless the context is found cancelled after it |
| SessionEnds.EofCanLeave | internal/control/session.go:432-446 | EOF in Ready can leave Ready, and EOF in Running can leave Collecting |
| SessionEnds.EndedWorkerIsBounded | internal/control/session.go:288-366 | After Run has returned, the sender or receiver has a bounded number of steps left in every schedule if and only if it is not a receiver before its install, or one polling an open socket with its quit channel open |
| SessionEnds.EndedWorkerMoves | internal/control/session.go:288-366 | After Run has returned, a live sender or receiver can always take a step |
| SessionRuns.CollectingCanBeCancelled | internal/control/session.go:418-430 | A concrete run takes the edge from Collecting to Cancelled, which the table lacks |
| SessionRuns.EveryEdgeIsTaken | internal/protocol/state_machine.go:14-52 | For every edge of the transition table but the reset to Idle, a reachable state and a step that takes it |
| SessionRuns.MissedReceiverIsNeverStopped | internal/control/session.go:376-390 | A concrete run reports Received 0 while the receiver has accepted a packet, and no continuation ever closes its quit channel |
| SessionObject.ControlSession.Safety | internal/control/session.go:54-122 | Of every valid object: the state has not fallen behind an earlier one and a terminal state stays, accepted parameters stay, at most one Result frame is begun, the counts are those of sender and receiver |
| SessionObject.ControlSession.SetState | internal/control/session.go:54-64 | The state moves exactly along an edge of the table, as the step system's lock section does |
| SessionObject.ControlSession.WriteMessage | internal/control/session.go:145-165 | Length word and body are written in order; a failing write leaves exactly what was written before it |
| SessionObject.ControlSession.HandlePrepare | internal/control/session.go:204-266 | Parameters are stored exactly in Preparing; exactly a Prepare that fits the connection is accepted and answered with Ready, any other with InvalidRequest |
| SessionObject.ControlSession.HandleStart | internal/control/session.go:268-286 | Exactly in Ready the state becomes Running and the goroutine of the direction is spawned; else InvalidRequest |
| SessionObject.ControlSession.HandleSendComplete | internal/control/session.go:368-398 | An uplink receiver's quit channel is closed; the handler blocks exactly while an installed receiver has not finished, otherwise Running becomes Collecting; out of place it answers InvalidRequest |
| SessionObject.ControlSession.ResumeSendComplete | internal/control/session.go:387-397 | Once receiverDone is closed the blocked handler goes on and the state becomes Collecting |
| SessionObject.ControlSession.HandleFetchResult | internal/control/session.go:400-416 | Exactly from Collecting the state becomes Completed; a Result is written and the connection closed, or InvalidRequest is answered |
| SessionObject.ControlSession.SendResult | internal/control/session.go:491-520 | The Result carries the session's counts and the connection is closed after it, written or not |
| SessionObject.ControlSession.HandleCancel | internal/control/session.go:418-430 | Exactly the active states become Cancelled, with connection and receiver released |
| SessionObject.ControlSession.HandleTimeout | internal/control/session.go:432-446 | Preparing and Collecting become Failed, Running becomes Collecting and any other state stays; then connection and receiver are released |
| SessionObject.ControlSession.CleanupNoStateChange | internal/control/session.go:448-461 | Connection and receiver socket are closed if held, and no longer held |
| SessionObject.ControlSession.HandleMessage | internal/control/session.go:174-195 | Every message changes fields and connection, is answered, and ends or blocks the handler, as one table over all messages says; a Hello of another version and a message only servers send are answered with InvalidRequest and change nothing |
| SessionObject.ControlSession.Iterate | internal/control/session.go:79-122 | One iteration has exactly the effect of its turn: terminal states end it, cancellation makes an active session Cancelled and releases its connection, a message that cannot be decoded is answered with InvalidRequest, and any other failing read with InternalError, which ends the loop |
| SessionObject.ControlSession.HandleMessages | internal/control/session.go:79-122 | The loop computes the fold of its turns (fields, connection, everything written, and how it ends), and whatever it meets the rank does not fall, accepted parameters stay and at most one Result frame is begun |
| SessionObject.TurnsCompose | internal/control/session.go:79-122 | The fold of HandleMessages takes inputs one by one: a list of inputs has the effect of its first part and then, exactly if the loop goes on, of the rest in the state the first part left |
| SessionObject.ControlSession.RunDownlinkSender | internal/control/session.go:288-327 | The sent count is stored, Running left for Collecting and send_complete written exactly when every packet was sent; otherwise an error is written |
| SessionObject.ControlSession.StartReceiver | internal/control/session.go:329-354 | Channels are installed; a failed bind writes an error and closes receiverDone |
| SessionObject.ControlSession.Receive | internal/control/session.go:356-356 | The receive loop ends exactly on quit, a closed socket or a failing read, and is otherwise still polling, with the packets accepted so far counted |
| SessionObject.ControlSession.FinishReceiver | internal/control/session.go:358-366 | The socket is closed, the count published and receiverDone closed |
| SessionObject.ControlSession.UplinkTest | internal/control/session.go:66-122 | A whole uplink test writes exactly Ready and a Result with the packet count and the number of packets accepted |
| SessionObject.ControlSession.DownlinkTest | internal/control/session.go:66-122 | A whole downlink test writes exactly Ready, send_complete and the Result |
| ConversationInvariant.StepWorldInv | internal/control/client.go:128-372 | The invariant tying client script, wire, session and probes is kept by every move |
| ConversationTheorems.Progress | internal/control/client.go:128-372 | Until client and handler have ended, some step other than polling is possible |
| ConversationTheorems.RunMeasure | internal/control/client.go:128-372 | Every step other than polling lowers a measure, along every run |
| ConversationTheorems.ConversationSucceeds | internal/control/client.go:128-372 | Under every schedule the client is never refused, only Ready, send_complete and Result are written, two frames are never being written at once, effective steps are bounded and deadlock is impossible |
| ConversationTheorems.ConversationResult | internal/control/client.go:235-253 | When the client returns the server is Completed, Sent is the packet count, Lost is Sent minus Received, and 0 <= Lost <= Sent |
| ConversationTheorems.AllProbesAreSent | internal/udp/sender.go:73-103 | In every schedule, once send_complete has been posted, handled or written, exactly packetCount probes have been sent, or none if it is negative |
| ConversationTheorems.OnlyTheExpectedReply | internal/control/client.go:164-171 | Whatever it reads, a waiting client goes on if and only if it read a whole frame with the reply it waits for, and returns the counts of a Result |
| ConversationRuns.CarefulStep | internal/control/client.go:128-372 | While nothing is lost, and the receiver is stopped and the matched count read only when nothing is in flight, every probe sent is in flight or taken |
| ConversationRuns.CarefulRun | internal/control/client.go:128-372 | From every such state the conversation goes on to its end without a loss |
| ConversationRuns.NothingNeedBeLost | internal/control/client.go:128-372 | Every test with packetCount >= 0 has a schedule without a loss that returns Sent = Received = packetCount and Lost = 0 |
| ConversationRuns.ProbesArriveUntilReturn | internal/control/client.go:316-372 | In every schedule of a downlink test, from the first probe on, one in flight can be taken if and only if the client has not returned |
| ConversationProbes.CarryFollows | internal/control/client.go:128-372 | Every move of a conversation is possible with its single probes, which are conserved one by one |
| ConversationProbes.LossCountsPackets | internal/control/client.go:235-253 | For every schedule, loss and reordering, the returned Received is the number of packets a receiver accepts and matches from those counted, and without wrap-around Lost is the number of the test's packets missing from them |
| ConversationProbes.TestPacketBytes | internal/control/client.go:189-201 | A probe of a test has its payload size modulo 2^16 behind the header, session and test zero, and the server's port in an uplink test and the client's receive port in a downlink test |
| ConversationProbes.TestsLookAlike | internal/control/session.go:288-345 | A receiver of one test accepts every probe of any other, and matches it if and only if direction and family agree |
| ConversationProbes.LateProbesCount | internal/udp/receiver.go:44-103 | A receiver counts and matches every probe that arrives from any tests of its direction and family |
| ConversationProbes.LossCanBeNegative | internal/control/client.go:189-253 | For any two such tests, arrivals under which the later one has one more match than it sent |
| Server.StepInv | internal/control/server.go:101-277 | Slot, wait group and shutdown invariant is kept by every step of any goroutine, Start or Close |
| ServerTheorems.OneActiveSession | internal/control/server.go:147-187 | A goroutine is between acquire and release exactly when the slot holds its own session, so at most one is, and the releasing compare-and-swap always succeeds |
| ServerTheorems.BusyNamesTheOccupant | internal/control/server.go:174-221 | In every run each Busy reply names exactly what was in the slot at the load: nothing, or another goroutine's session that was between acquire and release |
| ServerTheorems.EveryRefusalIsAnswered | internal/control/server.go:154-221 | In every run, a client whose goroutine found the slot taken, and is past its reply, has been told Busy exactly once, with what that goroutine's own later load found; no other client is told Busy |
| ServerTheorems.CloseQuiesces | internal/control/server.go:259-277 | The wait group counts live accept loops and connection handlers; none is live when Close returns, and from then on no handler is live and the slot is empty |
| ServerTheorems.QuietAfterClose | internal/control/server.go:101-122 | After Close has returned with no accept loop or handler live, none is live in any continuation if and only if no Start is between its unlock and wg.Add(1) |
| ServerTheorems.ReturnedIsFinal | internal/control/server.go:259-277 | Once Close has returned, no later step changes that |
| ServerTheorems.StartServes | internal/control/server.go:100-122 | A Start fails exactly when the server is closed or cannot listen, and then changes nothing; any other leads, in every schedule without a cancellation, to a new accept loop that goes on |
| ServerTheorems.ServesUntilCancelled | internal/control/server.go:124-146 | In every schedule an accept loop goes on, whatever fails, until the server's context is cancelled |
| ServerTheorems.OverlappingStartOutlivesClose | internal/control/server.go:101-122 | A concrete run in which an accept loop is live after Close has returned |
| Host.OneSessionInProgress | internal/control/server.go:147-169 | In every run of the server with its sessions at most one session is in progress, it is the slot's, and each is in a state a session alone can reach |
| Host.StoppedSessionFreesTheSlot | internal/control/server.go:166-168 | Under every schedule, a goroutine whose session has ended frees the slot within its own next two steps, and one whose session has met EOF or a timeout within its own next thirty-two |
| Host.StoppedSessionIsNotStuck | internal/control/server.go:166-168 | Until then that goroutine, or the worker that holds its mutex, can take a step |
| Host.HostStepInv | internal/control/server.go:126-169 | Every step keeps server and sessions in step: a session runs only in its goroutine, behaves as a session alone, and has its connection closed when that goroutine leaves |
| HostShutdown.CancelledHandler | internal/control/session.go:79-122 | Every step of a handler whose context is cancelled brings it nearer to its end, whatever it reads or fails to write |
| HostShutdown.CloseIsBounded | internal/control/server.go:259-277 | Once Close waits, every schedule has a bounded number of steps of goroutines, handlers, Start and Close, plus one for each further call of Start |
| HostShutdown.CloseCanReturn | internal/control/server.go:259-277 | From every state after the call of Close, the server with its sessions can go on to the return of Close |
| HostShutdown.PendingStartDecides | internal/control/server.go:101-122 | When Close is called, some continuation has an accept loop or connection handler live after Close has returned if and only if a Start is then between its unlock and wg.Add(1) |
| HostWorkers.NothingStartsAfterClose | internal/control/server.go:147-169 | After Close has returned no session is created, no sender or receiver is started and nothing more is written to a client, in any continuation |
| HostWorkers.OutlivingWorkerIsBounded | internal/control/session.go:277-366 | After Close has returned, a session's sender or receiver has a bounded number of steps left, whatever else runs, if and only if it is not a receiver before its install, or one polling an open socket with its quit channel open |
| HostWorkers.SilentAfterClose | internal/control/server.go:259-277 | After Close has returned, nothing of the server ever runs again, senders and receivers included, if and only if nothing runs now and no Start is between its unlock and wg.Add(1) |
| HostOutlives.ListeningDecides | internal/control/server.go:259-277 | When Close is called, some continuation has a sender or receiver live after Close has returned, even one that nothing will stop, if and only if some Start has made the server listen |
| HostOutlives.FreeTheSlot | internal/control/server.go:147-169 | Whatever session holds the slot, it can be brought to its end and the slot freed while the server still accepts |
| HostOutlives.WorkerCanOutliveClose | internal/control/session.go:277-286 | A run with no Start in progress at the call of Close, and a receiver that nothing will stop after its return |
| Codec.UnmarshalMarshal | internal/protocol/probe_header.go:38-74 | Unmarshal inverts marshal for all field values, negative timestamps included, whatever follows the header |
| Codec.MarshalUnmarshal | internal/protocol/probe_header.go:38-74 | Marshal restores every byte that unmarshal reads |
| Codec.ParseFrame | internal/control/session.go:124-165 | A frame is read back, with nothing behind it consumed, if and only if its body has 1 to 2^20 bytes |
| Codec.LengthWords | internal/control/session.go:124-143 | A length word whose bytes spell n, most significant first, is rejected if and only if n is outside 1 to 2^20, and else announces the next n bytes as the message |
| Codec.FrameBytes | internal/control/session.go:145-165 | A frame is the length of its body in four bytes, most significant first, and then the body |
| Codec.MarshalFields | internal/protocol/probe_header.go:38-55 | The 48 bytes of a header: every field at its place, most significant byte first and the time in two's complement, and zeros elsewhere |
| Codec.CutFrame | internal/control/client.go:38-80 | What a failed write leaves of an admissible frame is never read as a message |
| Codec.FramesRoundTrip | internal/control/client.go:38-80 | Any list of admissible bodies survives the connection |
| Codec.Conn.WriteMessage | internal/control/client.go:59-80 | Appends exactly one frame, or fails and leaves exactly the prefix of it that the connection took |
| Codec.Conn.ReadMessage | internal/control/client.go:38-57 | Consumes exactly one frame, or fails as the framing function does and has consumed the length word if it was there |
| Probe.ProbeHeader.MarshalBinary | internal/protocol/probe_header.go:38-55 | The buffer filled field by field is the marshalled header |
| Probe.ProbeHeader.UnmarshalBinary | internal/protocol/probe_header.go:58-74 | Assigns the unmarshalled fields, or fails on a short buffer and changes nothing |
| Probe.ProbeHeader.SetFromParams | internal/protocol/probe_header.go:77-87 | The header becomes the one of the given packet |
| Probe.Sender.Send | internal/udp/sender.go:33-111 | Packets handed to the socket are exactly header i followed by zeros, up to the first failure, despite buffer reuse; it reports the packet count exactly when all were sent |
| Probe.Receiver.Receive | internal/udp/receiver.go:44-87 | Records exactly the packets with a valid header, in order, until quit or an error |
| Probe.ErrorBeforeQuit | internal/udp/receiver.go:44-63 | The receive loop ends with an error if and only if some read fails before the first quit |
| Probe.Receiver.Result | internal/udp/receiver.go:152-191 | Counts, first, last, least and greatest sequence of the matched packets |
| Probe.Take | internal/udp/receiver.go:54-86 | The accept path depends only on the datagram, not on what the reused buffer held |
| Measurement.PacketIsMatched | internal/udp/receiver.go:63-103 | A packet of the same test is accepted and matched under its own sequence number |
| Measurement.ReceivedInOrder | internal/udp/receiver.go:44-87 | The receiver records exactly the delivered packets, in order of arrival |
| Measurement.LossIsExact | internal/udp/receiver.go:152-191 | For every loss and reordering, received = matched <= sent, matched sequences were sent, and without wrap-around Lost is exactly the number of missing probes |
| Measurement.PacketBytes | internal/udp/sender.go:49-96 | Every byte of probe i: version 1, the codes of direction and family, its number modulo 2^32, the time, and zeros behind the header |
| Measurement.AcceptedBytes | internal/udp/receiver.go:63-103 | A datagram is recorded if and only if it has 48 bytes, version 1, direction 0 or 1 and family 0 or 1, under the number its bytes spell, and is matched if and only if session, test, direction and family bytes are the receiver's |
| Measurement.ReceivedEqualsMatched | internal/udp/receiver.go:152-191 | The received and the matched count agree if and only if the loop meets no valid packet of another test |
| Measurement.ProbeIsAccepted | internal/udp/receiver.go:63-103 | Every probe is accepted, and matched if and only if session, test, direction and family agree |
| Measurement.ForeignPacketIsReceived | internal/udp/receiver.go:63-103 | A probe that differs in one of them is received and not matched |
| Measurement.SummaryBound | internal/udp/receiver.go:152-191 | The summary counts the delivered packets; first and last are those of the first and last arrival, least and greatest bound all arrivals and are among them, and the greatest is below the packet count |
| Measurement.Measure | internal/udp/sender.go:33-111 | Sender, network and receiver composed: received = matched = delivered <= sent |
| Ports.ParsePorts | internal/config/config.go:40-83 | Fails exactly when some item is empty, malformed, reversed or out of range; else the strictly ascending list of exactly the covered ports |
| Ports.ParseRange | internal/config/config.go:86-118 | Exactly the ports of a valid range, or failure |
| Ports.SortAndDedupe | internal/config/config.go:129-138 | Strictly ascending, same elements |
| Ports.PortsAreDetermined | internal/config/config.go:40-83 | The result depends only on the set of ports covered, not on order or repetition |
| Ports.ItemGrammar | internal/config/config.go:48-127 | An item is accepted, and stands for an interval, if and only if it is a number from 1 to 65535 or two of them in order with a dash between, with an optional plus sign and with white space around the numbers |
| Ports.ItemRoundTrip | internal/config/config.go:48-75 | However a port or range is written, it parses to its own interval |
| Ports.RenderedPortsParse | internal/config/config.go:40-83 | Any comma-joined writing of valid items, white space included, parses to the ascending list of exactly their union |
| Sweep.GenerateSizes | internal/config/config.go:290-296 | Exactly min + k * step up to max |
| Sweep.BuildSweepPlan | internal/config/config.go:221-260 | A plan exists exactly for a configuration that passes each of the listed checks, and is the four-level product over its sorted ports |
| SweepTheorems.PlanLength | internal/config/config.go:221-260 | The number of tests is the product of the four lengths |
| SweepTheorems.PlanEntry | internal/config/config.go:244-257 | Entry n is the combination whose digits are those of n in mixed radix, size fastest |
| SweepTheorems.CombinationEntry | internal/config/config.go:244-257 | Every combination stands at the index its digits spell |
| SweepTheorems.IndexIsUnique | internal/config/config.go:244-257 | An index has one list of digits only |
| SweepTheorems.PlanCoversEverything | internal/config/config.go:221-296 | For every valid configuration, in whatever order its ports are given, the plan contains exactly the requested combinations |
| SweepTheorems.PlanVisitsOnce | internal/config/config.go:221-260 | The plan is strictly increasing, so free of repetition, if and only if the configured ports are distinct |
| SweepTheorems.RunSweep | cmd/udpdiag/main.go:208-315 | The results are those of the successful tests in plan order |
| SweepTheorems.ResultsFollowThePlan | cmd/udpdiag/main.go:208-315 | The results are exactly those of the successful tests, each with the target of its family, its plan's port, direction and size and its own counts, and strictly increasing when the plan is |
| SweepTheorems.ReportKeepsSweepOrder | internal/report/report.go:73-111 | With distinct ports, in any order, concatenating the groups of the report gives back the sweep's results exactly |
| Report.AggregateResults | internal/report/report.go:73-111 | One group for every key that occurs, in key order, each with exactly its results in size order, for every map iteration order |
| Report.FindCriticalSize | internal/report/report.go:115-122 | The first size at or above the threshold, none if there is none |
| Report.ComputeCriticalSizes | internal/report/report.go:125-136 | One entry for each group, under its own key |
| Report.BuildReport | internal/report/report.go:139-158 | Groups, critical sizes and totals of the results |
| Report.FindEntry | internal/report/report.go:199-210 | The first entry with the key, none if there is none |
| ReportTheorems.AggregationIsAPartition | internal/report/report.go:73-111 | The groups hold the same multiset of results as the input |
| ReportTheorems.FlattenSorted | internal/report/report.go:73-111 | Reading the groups in turn is sorted by key and then size |
| ReportTheorems.OrderedResultsAreKept | internal/report/report.go:73-111 | Results already in report order without ties pass through unchanged |
| ReportTheorems.AggregationIsDeterministic | internal/report/report.go:73-111 | When no two results share key and size, the groups are the same for every permutation of the input and every map order |
| ReportTheorems.CriticalSizeIsTheMinimum | internal/report/report.go:115-136 | A critical size is the smallest size, among all input results of the key, with loss at the threshold; none exactly when there is no such result |
| ReportTheorems.OneInTwenty | internal/report/report.go:27-32 | Loss reaches the report's threshold if and only if 20 * lost >= sent, for sent > 0, and never for sent = 0 |
| ReportTheorems.ReportNamesTheCriticalSize | internal/report/report.go:115-141 | A report names for each group the smallest size with 20 * lost >= sent among all input results of its family, port and direction, and none exactly when there is no such result |
| ReportTheorems.ReportOrder | internal/report/report.go:86-108 | Groups stand with IPv4 first, then by port, then with uplink first; their results by size |
| ReportTheorems.EntryIsOwn | internal/report/report.go:199-210 | The search by key ends at the group's own index |
| ReportTheorems.TotalsAddUp | internal/report/report.go:139-158 | Totals equal the sums over groups, and their difference is the total loss when each Lost = Sent - Received |

## Left out

* Sockets, deadlines, sleeps and clocks: their outcomes (data, EOF, timeout, closed, other error, the
  time read) are inputs of the model.  Reads fill their buffers; partial reads are not modelled.
* JSON encoding of messages: a message is a tagged value whose tag and payload agree.  Session
  identifiers, error texts and the loss rate field of a Result are not carried.
* Threads of session, server and client are values in step systems, since every interleaving of their
  steps is the point; aliasing between goroutines is not modelled, and the parameter stores of
  handlePrepare, which no other thread can see, are one step.  `SessionObject` runs each method of
  the session, and each turn of its goroutine, without interruption, so its setState calls after a
  state check cannot fail; the step system has the failing branches.
* ConversationSucceeds: assumes an acquired slot, agreeing address families, no timeouts and
  successful socket calls, and direction uplink or downlink, as the scripts promise it.
* Slices that the source sorts in place are values here; the sort is specified, not the library's
  algorithm, and nothing is assumed about the order of ties.
* Integers are unbounded: an overflow of size + step at the limit of the machine's int, and of the
  receive window, is not modelled.  The 32-bit sequence number and length word wrap as in the source.
* Loss percentages are exact reals, not floating point.
* A second Close returns at once and is modelled as no step; it does not wait for the first.
* EstimateDuration, CheckDurationLimit, address parsing and ListenNetwork, RunBoth, the text layout of
  FormatReport, command-line handling, and the unused cancelSession, cleanup, cleanupLocked and
  Collect: thin wrappers, text layout, or not called.
