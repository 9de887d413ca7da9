# Verified model of the messaging protocol

A Dafny model of the connection layer: the version 3 recovery protocol, the life cycle of transports, streams and
the server, and the wire formats. `dafny verify dfyconfig.toml` checks all of it.

The code that changes state is modelled twice. A value with pure operations (`Replay.Log`, `Acks.AckState`,
`Writer.WriterState`, `Transport.Slot`, `Shutdown.Registry`, `Streams.Table`) says what an operation means, and a
class with the source's fields and loops (`ReplayBuffer`, `AckScheduler`, `RecoveryWriter`, the two `Connection`
classes, `Server`, `Stream`, `Sink`, `Encoder`, `Decoder`) is proved to do that. The whole-run theorems are about the
values.

| module | what it holds |
|---|---|
| `Replay`, `Acks`, `Writer` | the replay buffer, the ACK scheduler, the recovery writer |
| `Protocol` | two endpoints and any number of transports as a step relation; `Run` is every interleaving |
| `Safety`, `Gaps`, `Closing` | exactly-once ordered delivery, no false gap, complete delivery before CLOSE, and that delivery and a clean end are always possible |
| `Quiescence`, `Jams`, `StuckRuns` | no lost wake-up, no stuck sender on clean runs, what becomes of a stuck one, and the runs that lead there |
| `Transport`, `Reconnect`, `Shutdown` | transport generations, the reconnect flag, server shutdown |
| `Streams`, `Replies` | stream creation, FIN and close, per-stream order, late replies |
| `Framing`, `Handshake`, `RecoveryOptions` | frames under short writes and truncation, negotiation, options |
| `MsgPack`, `CompactCodec`, `Golden` | MessagePack headers and scalars, the recursive compact codec, and the bytes it shares with another implementation |

## How the recovery protocol is modelled

A step of `Protocol.Do` is one atomic move of one goroutine: the writer at its loop head, past its ACK check,
holding a frame without room, waiting, or without a transport (`Pc`); the reader handling one frame; whatever
attaches, detaches, dials, reports a resume value or closes. Signals that a goroutine is about to raise are counted in
`owed`, so the moment between a change and its `signalSend` is visible to every interleaving. A client may dial at any
time: a reconnect goroutine that was started for an earlier loss can win the flag after another one has attached a
transport (`Reconnect.DialWhileAttached`). A transport is a pair of channels; a cut keeps any prefix of what is on its way and loses the rest, and a
failed write closes its transport. Cutting between whole frames loses no generality: `Framing.TruncationIsSafe` shows
that any byte prefix reads back as whole frames followed by an error. Resume values are read in steps of their own
(`Report`, `Dial`), so they can be stale when the transport is attached. A side that reads CLOSE ends its reader and
closes later; its writer goes on until then. `staged`, `delivered`, `written`, `start` and `past` are histories that no
step looks at.

The frames that `Protocol` delivers are the frames that `Streams` accepts.

## Where the code does less than one might expect

* A sender can get stuck. Its last frames are delivered, but the ACK for them was taken for a transport that was
  being replaced, and a duplicate does not arm a new one. There are three ways. The server reads its resume value
  (`server.go:379`), its old transport then receives and acknowledges a frame, and only then is the new transport
  attached (`server.go:385`). The client does the same between its request (`client.go:292`) and its attach
  (`client.go:309`), when a second reconnect goroutine dials while a transport is attached. Or the writer has passed
  its check of the transport (`recovery_runtime.go:572`) before the new one is attached, and takes the ACK after that.
  The three rules of `Quiescence.Rule` exclude one of these each. Every run that obeys all three is free of stuck
  senders, and `StuckRuns.EachRuleIsNeeded` gives, for each rule, a run that breaks it alone and ends with one.
  On every run, whatever it obeys, `QuiescentHasDelivered` states the exact history that leaves a side stuck: its
  peer took its last ACK for another transport than the one in use, no ACK as high was read, and no transport taken
  over was reported as high. The frame is not lost. What becomes of the sender is exact too: without another transport
  it can recover if and only if it holds no frame and its replay buffer has room for one
  (`Jams.StuckRecoversOnlyWithRoom`), because the ACK for a further frame covers the missed one. Otherwise it is jammed:
  it takes no frame while it holds one (`recovery_runtime.go:655-660`), so its peer owes no ACK, heartbeats keep the
  transport alive, and it stays so in every continuation until its side attaches another transport (`Jams.JamLasts`).
  Each of the three runs can go on to a jam (`StuckRuns.EachRuleCanJam`). A reconnect always ends it
  (`Jams.ReconnectClears`).
* The ACK delay can be missed: if it ends between the writer's check and its wait, the wait has no timer for it
  (`recovery_runtime.go:320-329`), as `TimerCanBeMissed` and the run `StuckRuns.TimerMissed` show. `RunsAreAwake` states that this is the only way a
  scheduled ACK goes unwatched, and `HeartbeatTakesAck` that the next heartbeat sends it.
* Options with a heartbeat interval below one millisecond can be refused by the peer that they are sent to, because
  the interval is rounded up to a millisecond and the timeout is truncated. `ShortHeartbeatIsRejected` is an example,
  and `OptionsSurviveTheWire` states exactly when the peer accepts.
* A compact value does not come back if a pointer in it leads to a nil: the pointer comes back nil.
  `CompactCodec.RoundTrip` states that this is the only exception, `PointerToNilIsLost` gives one.

## Model

| member | source | states |
|---|---|---|
| `Replay.AckDropsCoveredPrefix` | replay.go:73-107 | an acknowledgement drops exactly the records it covers: the kept list is that prefix followed by what remains, and the bytes freed are the prefix's sizes |
| `Replay.AckKeepsValid` | replay.go:73-107 | after an acknowledgement the kept numbers still strictly increase above the last acknowledged one and their sizes stay within the cap |
| `Replay.AcksAreCumulative` | replay.go:73-107 | two acknowledgements have the effect of the larger one, in either order |
| `Replay.StageKeepsValid` | replay.go:43-71 | staging keeps the order and the cap, and a frame is held only if it fits an empty buffer |
| `Replay.ReplayBuffer.Stage` | replay.go:43-71 | the mutable buffer takes a frame exactly as the plain list does, with all four refusals |
| `Replay.ReplayBuffer.Ack` | replay.go:73-107 | clearing, counting and compacting in place gives the plain list's acknowledgement and returns the bytes freed; twice the head stays within the slice and moves stay within frames staged |
| `Replay.ReplayBuffer.DropCovered` | replay.go:86-91 | the loop clears exactly the covered front entries and sums their sizes |
| `Replay.ReplayBuffer.Compact` | replay.go:93-105 | compaction changes no kept record, restores the head bound and pays for its moves |
| `Replay.ReplayBuffer.SnapshotFrom` | replay.go:109-123 | the binary search returns exactly the kept records above the given number |
| `Acks.NoteReceivedKeepsAccounting` | recovery_runtime.go:281-318 | a received frame keeps the pending count equal to received minus acknowledged, and signals the writer whenever an ACK becomes due or scheduled |
| `Acks.TakeReturnsReadyAck` | recovery_runtime.go:331-358 | the writer gets an ACK exactly when one is ready; the branch that finds nothing to acknowledge is dead |
| `Acks.TornCheckHidesNothing` | recovery_runtime.go:331-345 | reading the two due fields without the lock never hides a ready ACK unless a signal follows |
| `Acks.AccountingHolds` | recovery_runtime.go:281-358 | over any run with a fixed batch size: accounting exact, unacknowledged frames always due or scheduled, fewer than a batch waiting without a due ACK |
| `Acks.SchedulerIsExact` | recovery_runtime.go:281-358 | for every batch size, delay and order of frames, duplicates and polls: an ACK is due if and only if a batch is full, a frame came again, or one had no delay since the last ACK; else it is scheduled for the arrival of the first waiting frame plus its delay |
| `Acks.PollsAndSignalsAreExact` | recovery_runtime.go:299-345 | a poll takes an ACK exactly when one is owed, and a new frame signals the writer exactly when it fills a batch, has no delay or is the first to wait |
| `Acks.AckScheduler.NoteReceived` | recovery_runtime.go:281-318 | the fields after a receive, and whether the writer is signalled |
| `Acks.AckScheduler.TakePendingControl` | recovery_runtime.go:331-358 | the fields after a take, and the number acknowledged |
| `Writer.StageRejectsOnlyTooLarge` | recovery_runtime.go:681-703 | with numbers assigned by the writer neither sequence error can occur, and a frame is refused if and only if it exceeds the whole cap |
| `Writer.OutcomeIsExact` | replay.go:43-71 | a frame is staged exactly if it fits in the cap beside the bytes of the frames not acknowledged, held exactly if it would fit alone, and else refused |
| `Writer.StageTracks` | recovery_runtime.go:681-703 | a frame is numbered only when it is kept, so the numbers are the positions of the staged frames |
| `Writer.BeginTracks` | recovery_runtime.go:565-571 | taking over a transport with any reported value leaves to replay exactly the staged frames above it that are not acknowledged, and acknowledges no more than was sent |
| `Writer.WriteLiveTracks` | recovery_runtime.go:705-716 | a new frame is written only behind everything to replay and only under the next number |
| `Writer.WriteResumeTracks` | recovery_runtime.go:718-731 | replaying passes over a frame exactly if it was sent on this transport or acknowledged meanwhile, and else writes it |
| `Writer.RecoveryWriter.BeginTransport` | recovery_runtime.go:565-571 | clamping, acknowledging and snapshotting in place |
| `Writer.RecoveryWriter.Stage` | recovery_runtime.go:681-703 | the writer's fields after staging, holding or refusing a frame |
| `Writer.RecoveryWriter.WriteLive` | recovery_runtime.go:705-716 | the frame put on the wire, if any, and the fields; a failed write leaves the frame staged and the last sent number alone |
| `Writer.RecoveryWriter.WriteResume` | recovery_runtime.go:718-731 | the frame put on the wire, if any, and the fields, also when the write fails |
| `Writer.RecoveryWriter.WriteNext` | recovery_runtime.go:590-613 | the priority of one turn: ACK, then replay, then the held frame, then the queue; the closing marker ends the writer with CLOSE, a failed write loses the transport |
| `Safety.MoveKeeps` | recovery_runtime.go:527-851 | every move of either endpoint keeps the joint invariant of both endpoints and all transports |
| `Safety.RunsAreSafe` | recovery_runtime.go:527-851 | that invariant holds at the end of every run |
| `Safety.DeliveredIsPrefix` | recovery_runtime.go:835-851 | in every run, with any cuts, stale resume values and reattaches, what each side accepted is a prefix of what the other staged, of the length of its receive counter |
| `Safety.NoFalseGap` | recovery_runtime.go:835-845 | the next frame on any transport is a duplicate or the next one, with the content staged under its number; an ACK covers only what was sent; CLOSE comes last |
| `Safety.NoSequenceErrors` | recovery_runtime.go:839-845 | in every run neither reader has raised a sequence error and staging refuses only for size |
| `Safety.StagingIsExact` | replay.go:43-71 | the exact outcome of staging, in every run and on both sides |
| `Safety.CloseImpliesCompleteDelivery` | recovery_runtime.go:826-833 | whenever a side has processed CLOSE, it has accepted everything its peer staged, and the peer stages no more |
| `Closing.ReaderIsExact` | recovery_runtime.go:742-851 | in every run a reader takes nothing after CLOSE, has seen CLOSE exactly if it took it, and accepted exactly the frames that came next |
| `Closing.ReaderRefuses` | recovery_runtime.go:835-845 | a frame without a number or behind a gap closes the connection and is not accepted |
| `Closing.DeliveryIsPossible` | recovery_runtime.go:527-851 | no dead end: from every reachable world in which neither side has closed, for either side, some continuation delivers all it has staged |
| `Closing.CloseIsPossible` | recovery_runtime.go:590-610 | from every such world some continuation ends with the writer done, CLOSE read by the peer, and everything delivered that was staged or held |
| `Closing.SentWhileDetached` | recovery_runtime.go:548-561 | a frame that is sent without a transport and has room is staged at once, and some continuation delivers it |
| `Closing.FailedWriteDetaches` | recovery_runtime.go:733-740 | a write that fails breaks and detaches its transport and leaves another one alone |
| `Closing.CutIsAnywhere` | recovery_runtime.go:742-775 | a transport can break at any moment and keep any part of what is on its way, and what is written later is lost |
| `Closing.GiveUpEnds` | recovery_runtime.go:548-561 | closing without a transport ends the writer |
| `Gaps.WrittenFollows` | recovery_runtime.go:705-730 | a data frame that a move writes on a transport follows one written there, or the transport's resume point, or an acknowledged number |
| `Gaps.NoGapInRuns` | recovery_runtime.go:587-610 | the same for every move of every run |
| `Quiescence.MoveAwake` | recovery_runtime.go:615-702 | no move leaves a waiting writer without a signal while it has an ACK due, a lost or new transport, or room for its held frame, nor without a timer for a scheduled ACK unless its delay was over before the wait |
| `Quiescence.RunsAreAwake` | recovery_runtime.go:615-702 | no wake-up is lost on any run |
| `Quiescence.TimerCanBeMissed` | recovery_runtime.go:320-329 | whenever the delay of an ACK ends between the check and the wait, the writer waits without a timer for it |
| `Quiescence.HeartbeatTakesAck` | recovery_runtime.go:646-650 | a heartbeat then brings the writer back and it acknowledges everything received |
| `Quiescence.RunsAreTracked` | recovery_runtime.go:331-358 | on every run the last ACK taken has arrived, is on its way, or was lost with its transport, and what a side counts as acknowledged it read in an ACK or was reported for a transport it took over |
| `Quiescence.CleanRunsStayCovered` | recovery_runtime.go:267-358 | on clean runs every ACK taken for another transport than the attached one is covered by the value reported for that |
| `Quiescence.QuiescentHasDelivered` | recovery_runtime.go:281-358 | on every run a quiescent world has delivered everything both ways, and a side is stuck if and only if its peer took its last ACK for another transport, the side read none as high, and no transport it took over was reported as high |
| `Quiescence.QuiescentIsComplete` | recovery_runtime.go:615-702 | on clean runs a quiescent world has both replay buffers empty, nothing held, and everything sent acknowledged |
| `StuckRuns.EachRuleIsNeeded` | server.go:363-387 | for each of the three rules a run that breaks it and no other, and ends quiescent with a delivered frame that is never acknowledged |
| `Jams.JamLasts` | recovery_runtime.go:655-660 | a stuck sender without room stays stuck and stages no frame in every continuation in which its side attaches no transport |
| `Jams.FrameClears` | recovery_runtime.go:287-318 | from every quiescent world a sender with room can send one more frame whose ACK covers everything |
| `Jams.StuckRecoversOnlyWithRoom` | recovery_runtime.go:655-678 | without another transport a stuck side of a quiescent world can recover if and only if it holds no frame and has room for one |
| `Jams.ReportClears` | recovery_runtime.go:565-571 | taking over a transport for which the peer reported everything acknowledges all, empties the buffer and makes room for a held frame |
| `Jams.ReconnectClears` | client.go:267-311 | from every quiescent world a reconnect does this, for either side, jammed or not |
| `StuckRuns.EachRuleCanJam` | recovery_runtime.go:287-290 | for each rule a run that breaks no other and ends quiescent in a jam that no continuation without another transport ends |
| `StuckRuns.TimerMissed` | recovery_runtime.go:615-653 | a run that ends with a writer waiting, without a signal or a timer, while an ACK is scheduled |
| `Transport.OnlyCurrentTransportIsActive` | recovery_runtime.go:145-199 | in every interleaving a generation found active belongs to the attached transport, and a transport that finds its generation replaced detaches nothing |
| `Transport.GenerationsIncrease` | recovery_runtime.go:149-214 | generations never fall, and the same generation means the same transport |
| `Transport.ResumeIsTheOneGiven` | recovery_runtime.go:149-175 | in every interleaving the attached transport is the last one offered before the close, with the resume value that came with it |
| `Transport.ClosedForGood` | connection.go:340-350 | once a connection is marked closed no transport is attached, whatever follows |
| `Transport.RunsAreValid` | recovery_runtime.go:149-214 | the transport invariant in every interleaving of attach, detach and the two halves of closing |
| `Transport.Connection.AttachTransport` | recovery_runtime.go:149-175 | the fields after an attach; every transport ever attached is the current one or closed |
| `Transport.Connection.DetachTransport` | recovery_runtime.go:177-199 | a stale detach changes no field; no socket is left open and unattached |
| `Transport.Connection.CloseTransport` | recovery_runtime.go:201-214 | the fields after the close, when every transport ever attached is closed |
| `Reconnect.ReconnectNeverLostNorDoubled` | recovery_runtime.go:177-199 | in every interleaving, the moment between a detach and the start of its goroutine included, at most one goroutine holds the flag, the flag says whether one does, and a detached open client has one that has yet to look |
| `Reconnect.DialWhileAttached` | recovery_runtime.go:438-450 | a reachable state in which a goroutine holds the flag, about to dial, while a transport is attached |
| `Reconnect.SwapIsExact` | recovery_runtime.go:438-450 | a goroutine that finds the flag set ends, any other takes it |
| `Reconnect.DoneMeansNotLost` | recovery_runtime.go:455-497 | the goroutine that holds the flag is done only with a transport attached or the connection closed |
| `Reconnect.RecheckGoesOnExactlyIfLost` | recovery_runtime.go:438-450 | after releasing the flag it goes on exactly if the transport is lost |
| `Reconnect.LostTransportCanBeReplaced` | recovery_runtime.go:360-370 | from every such state at most four steps of existing goroutines attach a new transport |
| `Shutdown.Server.BeginHandshake` | server.go:485-498 | a handshake is counted and registered unless the server is stopping |
| `Shutdown.Server.TrackConn` | server.go:509-521 | a connection is registered unless the server is stopping |
| `Shutdown.Server.Stop` | server.go:412-437 | the critical section sets the flag and snapshots both sets together |
| `Shutdown.RunsAreValid` | server.go:226-294 | the count equals the serving goroutines alive, in every interleaving |
| `Shutdown.ShutdownIsComplete` | server.go:396-454 | after the critical section every connection and socket is in a snapshot, closed, or about to be closed by its own goroutine |
| `Shutdown.RunningStaysZero` | server.go:485-498 | once stopping, a count of zero stays zero |
| `Shutdown.NilReturnMeansDone` | server.go:412-454 | when the wait ends, every serving goroutine has ended, every served connection is closed and its OnDisconnect has returned, for good |
| `Shutdown.RunningServerServes` | server.go:264-294 | while the server is not stopping, whatever it has done, the next socket becomes a tracked connection |
| `Shutdown.ShutdownCanFinish` | server.go:396-454 | from every run some continuation without another connection ends with no goroutine counted |
| `Streams.Connection.GetStreamCtx` | connection.go:411-439 | which streams are found, created, or refused: to an inbound frame, and to everyone on a closed connection |
| `Streams.Connection.CloseStream` | stream.go:65-89 | a closed peer stream is remembered, any closed stream is removed, and a FIN is queued once for a stream opened here unless the connection is closing or closed |
| `Streams.Connection.FindForFrame` | connection.go:607-631 | the lookup of an inbound frame: which stream it goes to, what it opens or forgets, and the failure on a closed connection |
| `Streams.Connection.DeliverFrame` | connection.go:632-644 | payload and FIN are queued, or dropped if the stream was closed after the lookup |
| `Streams.Connection.AcceptFrame` | connection.go:607-644 | queues and remembered streams after both halves, for any inbound frame |
| `Streams.Connection.NewStream` | connection.go:313-323 | numbers run up to the last one before the control stream, then, or on a closed connection, a closed stream is returned |
| `Streams.Connection.BeginClosing` | connection.go:171-176 | only the first close goes on |
| `Streams.Connection.MarkClosed` | connection.go:340-365 | every stream is released |
| `Streams.RunsRemember` | connection.go:367-409 | in every run a locally closed stream stays recognisable until its peer has finished it |
| `Streams.NoResurrection` | connection.go:411-439 | in every run, with local closes between lookup and delivery, no inbound frame re-creates a stream closed on this side |
| `Streams.StreamsAreInOrder` | connection.go:490-545 | in every run what an open stream passed on followed by what it queues is the projection of the frames accepted for it, and a stream released by FIN had passed on all of them |
| `Streams.ReleaseIsComplete` | connection.go:490-522 | when the decode loop meets FIN everything accepted before has been passed on |
| `Streams.FindsExactly` | connection.go:411-439 | in every run an inbound frame goes on to a stream if and only if that is open, or the frame may open it: it is not a bare FIN, and the stream was neither closed here nor numbered by this side |
| `Streams.NothingIsDropped` | connection.go:607-644 | in every run every payload accepted for a stream never closed here was passed on, in order, or is queued; all of it once the stream is gone |
| `Streams.EndedIsReleased` | connection.go:490-522 | a stream that its peer opened and ended, or whose connection it ended, is released by its decode loop alone, with everything passed on |
| `Streams.FinForgets` | connection.go:607-631 | after FIN the number of a closed peer stream is no longer reserved |
| `Streams.ClosedIsGone` | connection.go:367-402 | a stream that is closed here leaves the table |
| `Replies.Stream.ReadRaw` | stream.go:266-302 | the discard loop returns the first message behind the stale ones, or uses up what arrives and ends with a timeout or the close |
| `Replies.Stream.TakeRaw` | stream.go:230-237 | a peeked message is taken before the inbox |
| `Replies.Stream.PeekRaw` | stream.go:247-264 | a peek keeps its message for the next receive |
| `Replies.Stream.AwaitReply` | stream.go:125-154 | only a timeout leaves one more stale reply to come; an error reply is returned as one |
| `Replies.Session` | stream.go:125-154 | for every pattern of timeouts, peeks and error replies a call returns its own reply exactly when the arriving replies reach it, and the stale count is the replies not consumed |
| `Framing.FrameReadsBack` | frame.go:72-179 | a whole frame in front of any bytes reads back and leaves those bytes; version 2 reads sequence 0 |
| `Framing.CutFrameIsShort` | frame.go:153-179 | a cut frame is reported as a short read, never as malformed |
| `Framing.TruncationIsSafe` | frame.go:94-179 | any byte prefix of the frames written reads back as exactly the whole frames in it and then a short read |
| `Framing.AllFramesReadBack` | frame.go:72-179 | all the bytes read back as all the frames |
| `Framing.FrameHeaderBytes` | frame.go:72-92 | the header byte for byte |
| `Framing.ReadFrameIsExact` | frame.go:94-179 | for every input which refusal it meets, in which order, or that it is short |
| `Framing.Sink.WriteFull` | frame.go:37-51 | under any short-write schedule the bytes written are a prefix, the whole buffer on success, and it succeeds as long as every write takes something |
| `Framing.Sink.WriteFrame` | frame.go:124-143 | the same for header and payload together |
| `Framing.WriteFrames` | frame.go:113-143 | any number of frames under any schedule leave a prefix of their encoding that reads back as at least the frames reported written and no wrong one; short writes alone lose nothing |
| `Handshake.FirstCommonAt` | protocol.go:205-214 | the chosen codec is the client's first one that the server supports |
| `Handshake.SelectCodec` | protocol.go:196-214 | the loops compute that choice |
| `Handshake.HandshakeAgrees` | protocol.go:23-133 | if one side succeeds both do, with the same version, codec and limit, the minimum of the two, and no byte left unread |
| `Handshake.HandshakeOutcome` | protocol.go:23-162 | for every client and server, whatever their codec lists: which list is refused before a byte is sent or read, and that the handshake succeeds exactly with a common codec and an accepted version |
| `Handshake.ServerRefuses` | protocol.go:85-133 | what a server answers to any malformed or unacceptable request |
| `Handshake.ClientRefuses` | protocol.go:23-66 | what a client makes of any reply |
| `Handshake.HandshakeBytes` | protocol.go:23-66 | request and reply byte for byte |
| `Handshake.ConnectAttempt` | client.go:194-215 | the loop over versions ends as the fallback rule says |
| `Handshake.VersionFallback` | client.go:194-215 | a recovery client ends on version 3 exactly when the server has recovery enabled, otherwise on version 2 |
| `RecoveryOptions.OptionsSurviveTheWire` | recovery_protocol.go:126-182 | for normalized options, when encoding and decoding succeed, that the result is the options in whole milliseconds, and that normalizing leaves it unchanged |
| `RecoveryOptions.ConfiguredValuesAreKept` | recovery.go:135-153 | positive values are kept, a timeout of two intervals too, a shorter one is raised to that, and missing values become 64, 20 ms, 30 s and 90 s |
| `RecoveryOptions.ConfiguredOptionsArrive` | recovery_protocol.go:126-182 | configured options arrive as they are, cut to whole milliseconds, unless a duration takes more than 32 bits of them |
| `RecoveryOptions.RefusalsAreExact` | recovery_protocol.go:148-222 | which options and which control payloads are refused |
| `RecoveryOptions.ShortHeartbeatIsRejected` | recovery_protocol.go:148-182 | normalized options with an interval below a millisecond that the peer refuses |
| `RecoveryOptions.RequestReadsBack` | recovery_protocol.go:57-77 | an attach request reads back from its own bytes, and no shorter input does |
| `RecoveryOptions.ResponseReadsBack` | recovery_protocol.go:79-117 | an attach response reads back with its options in whole milliseconds, or is refused exactly when those are |
| `RecoveryOptions.AttachRequestBytes` | recovery_protocol.go:57-64 | the attach request and the control payloads byte for byte |
| `RecoveryOptions.AttachResponseBytes` | recovery_protocol.go:79-94 | the attach response byte for byte |
| `RecoveryOptions.ControlIsExact` | recovery_protocol.go:184-222 | a control payload parses as a message exactly when it is that message's encoding |
| `MsgPack.LenReadsBack` | codec_msgpack.go:491-505 | array, map, string and byte headers read back in every size class |
| `MsgPack.HeaderBytes` | codec_msgpack.go:491-531 | every header of every size class byte for byte |
| `MsgPack.NaturalBytes` | codec_msgpack.go:351-378 | every non-negative native integer byte for byte |
| `MsgPack.NegativeBytes` | codec_msgpack.go:351-378 | every negative native integer byte for byte |
| `MsgPack.IntegerCodes` | codec_msgpack.go:351-378 | the code of each fixed width |
| `MsgPack.HeaderCodes` | codec_msgpack.go:491-531 | only its own codes start a header or an integer |
| `MsgPack.StringReadsBack` | codec_msgpack.go:509-531 | strings of every length class read back and leave the bytes behind them |
| `MsgPack.BytesReadBack` | codec_msgpack.go:509-531 | byte strings read back through the same reader |
| `CompactCodec.ValueReadsBack` | codec_msgpack.go:533-704 | decoding the encoding of any value of any type, recursive ones included, takes exactly its bytes and gives the value with pointers to nil collapsed |
| `CompactCodec.RoundTrip` | codec_msgpack.go:333-449 | the value itself comes back if and only if no pointer in it leads to a nil |
| `CompactCodec.PointerToNilIsLost` | codec_msgpack.go:351-378 | a pointer to a nil pointer comes back nil |
| `CompactCodec.NilDestinations` | codec_msgpack.go:564-586 | which destinations take nil, and that all others refuse it |
| `CompactCodec.CountsMustMatch` | codec_msgpack.go:613-672 | a list goes into an array or a struct only with as many elements |
| `CompactCodec.ScalarCodes` | codec_msgpack.go:587-611 | a scalar is read only from a code of its own kind |
| `CompactCodec.PutReplaces` | codec_msgpack.go:686-703 | a repeated key replaces its value and no other |
| `Golden.ExampleBytes` | interop_golden_test.go:13-53 | the compact encoding of the first shared message, byte for byte |
| `Golden.BlobBytes` | interop_golden_test.go:16-75 | the compact encoding of the second shared message, byte for byte |
| `Golden.ScalarBytes` | codec_golden_test.go:15-15 | one encoding of each kind of scalar |
| `CompactCodec.OrderIsIrrelevant` | codec_msgpack.go:408-428 | encodings that iterate the maps of one value in different orders decode to one value, for every kind of scalar key and any repeated NaN |
| `CompactCodec.CutValueIsRejected` | codec_msgpack.go:564-704 | an encoded value cut anywhere is refused |
| `CompactCodec.MessageReadsBack` | codec_msgpack.go:303-347 | a message comes back with its wire name, all bytes taken |
| `CompactCodec.OtherFieldCountIsRefused` | codec_msgpack.go:533-560 | a message read as a type with another number of fields is refused with both counts |
| `CompactCodec.NoMessage` | codec_msgpack.go:478-488 | a payload that is no array, an empty one, or one without a name is refused |
| `CompactCodec.CutMessageIsRejected` | codec_msgpack.go:478-560 | a message cut anywhere is refused |
| `CompactCodec.Encode` | codec_msgpack.go:351-387 | only a nil, or a pointer that leads to one, starts with the nil code |
| `CompactCodec.Encoder.EncodeCompactValue` | codec_msgpack.go:351-378 | the buffer gains exactly the value's encoding |
| `CompactCodec.Encoder.EncodeCompactElements` | codec_msgpack.go:439-449 | the element loop appends the header and every element |
| `CompactCodec.Encoder.EncodeCompactFields` | codec_msgpack.go:333-347 | the field loop appends every field |
| `CompactCodec.Encoder.EncodeCompactMap` | codec_msgpack.go:408-428 | the map loop appends the header and every entry |
| `CompactCodec.Encoder.EncodeCompact` | codec_msgpack.go:303-347 | the buffer holds exactly the message's encoding |
| `CompactCodec.Decoder.DecodeCompactValue` | codec_msgpack.go:564-611 | the value read and the bytes left, for every destination and every input |
| `CompactCodec.Decoder.DecodeCompactItems` | codec_msgpack.go:634-672 | the loop of slices and arrays |
| `CompactCodec.Decoder.DecodeCompactFields` | codec_msgpack.go:613-632 | the loop of structs and messages |
| `CompactCodec.Decoder.DecodeCompactMap` | codec_msgpack.go:674-704 | the map loop, a repeated key keeping its last value, with float keys compared as floats |

## Left out

- Dialing, listening, deadlines, addresses and sockets: calls into the operating system.
- Wall-clock time: ACK delays, heartbeats, back-off and expiry are events that may happen at any step; nothing is claimed about when, and in particular not that expiry spares an attached connection.
- Integer widths of counters: sequence numbers, generations and the pending ACK count are unbounded; wrap-around after 2^64 frames (2^32 pending ones) is not modelled. The wire formats have their real widths.
- The outbound queue and Send: a frame arrives at the writer when it takes it. Blocking senders, the queue's bound and its drain on close are not modelled.
- The version 2 reader and writer loops, and any claim that an end of file marks a frame boundary.
- Streams on a connection where both sides call NewStream: the two sides would number the same identifiers, so the stream theorems assume a peer that sends nothing after its FIN.
- A stream whose decoding fails, or that is closed here: its remaining frames are dropped, and order is claimed up to that point.
- The handler queue and the inbox behind the decode loop: one ordered queue per stream stands for both.
- Which error is returned for a malformed compact value inside a message: nested failures are one outcome. At the top level the failures are distinct.
- Cyclic values, and pointer types that lead only to themselves: encoding the former and decoding the latter never returns in the code; values here are finite, and such a type is refused.
- CompactCodec.Decoder.DecodeCompactValue: a float destination takes only its own form; the library also reads other widths and integers there, which the encoder never writes.
- MessagePack library internals: forms the encoder never writes (a float read from an integer, a nil map key), custom marshalers, interface fields and encoder pooling. A slice of bytes is its own type, as in the codec.
- The map codec, the registry, message type lookup and debug counters: library calls and tables.
- Tokens and secrets: opaque byte strings, without randomness or comparison.
- Lookup of a recovery connection by token: a resume is an attach of the connection it belongs to.
- The command-line tool that generates Rust, the examples and the benchmarks.
- Quiescence.QuiescentIsComplete: the rules are sufficient and each is needed, but a run that breaks one need not end stuck; the condition that is exact for every run is in Quiescence.QuiescentHasDelivered.
