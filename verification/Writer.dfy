/** The v3 writer: numbering, staging, replaying and writing frames on the transport it is given. */
module Writer {

  import opened Prelude
  import opened Replay
  import Acks

  /** A frame on a transport. */
  datatype Wire = Data(seqNo: nat, frame: Frame) | AckUpTo(seqNo: nat) | Ping | Close

  /** `held` waits for room in the log; `resume` is what is left to replay on this transport and
      `lastSent` the last number the peer has or was sent on it. */
  datatype WriterState = WriterState(nextSend: nat, log: Log, held: Option<Frame>, lastSent: nat, resume: seq<Record>) {

    /** Taking over a transport whose peer reports `resumeSeq` as its last received number. */
    function Begin(resumeSeq: nat): WriterState {
      var last := if resumeSeq < nextSend then resumeSeq else nextSend;
      var log' := log.Ack(last);
      this.(lastSent := last, log := log', resume := Replay.After(log'.kept, last))
    }

    function Outcome(frame: Frame): StageOutcome {
      log.Outcome(frame, nextSend + 1)
    }

    /** A new frame gets the next number only once it is kept. */
    function Stage(frame: Frame): WriterState {
      match Outcome(frame)
      case Held => this.(held := Some(frame))
      case Staged(_) => this.(log := log.Stage(frame, nextSend + 1), nextSend := nextSend + 1)
      case _ => this
    }

    /** Staging a frame and, unless that fails or the peer has it, writing it. */
    function WriteLive(frame: Frame): (WriterState, seq<Wire>) {
      var w := Stage(frame);
      var out := Outcome(frame);
      if out.Staged? && out.record.seqNo > lastSent
      then (w.(lastSent := out.record.seqNo), [Data(out.record.seqNo, frame)])
      else (w, [])
    }

    /** Replay goes on with its next frame; one that is acknowledged or was sent on this transport is passed over. */
    function WriteResume(): (WriterState, seq<Wire>)
      requires resume != []
    {
      var r := resume[0];
      var w := this.(resume := resume[1..]);
      if r.seqNo <= lastSent || r.seqNo <= log.lastAcked then (w, [])
      else (w.(lastSent := r.seqNo), [Data(r.seqNo, r.frame)])
    }

    function Acked(seqNo: nat): WriterState {
      this.(log := log.Ack(seqNo))
    }

    /** The writer numbers exactly the frames `staged`, keeps exactly those not acknowledged, and holds
        only a frame that will fit. */
    ghost predicate Tracks(staged: seq<Frame>) {
      && nextSend == |staged|
      && log.lastAcked <= nextSend
      && log.kept == Records(log.headerLen, staged, log.lastAcked)
      && log.Valid()
      && (held.Some? ==> log.Alone(held.value))
    }

    /** On a transport, the frames left to replay are the last ones staged, and every earlier one is
        acknowledged or was sent on this transport or was received before it. */
    ghost predicate OnTransport(staged: seq<Frame>) {
      && lastSent <= nextSend && |resume| <= nextSend
      && resume == Records(log.headerLen, staged, nextSend - |resume|)
      && (nextSend - |resume| <= lastSent || nextSend - |resume| <= log.lastAcked)
    }
  }

  /** The frames after the first `n`, under their numbers. */
  ghost function Records(headerLen: nat, staged: seq<Frame>, n: nat): (r: seq<Record>)
    ensures |r| == if n <= |staged| then |staged| - n else 0
    decreases |staged| - n
  {
    if n >= |staged| then []
    else [Record(n + 1, staged[n], headerLen + |staged[n].payload|)] + Records(headerLen, staged, n + 1)
  }

  lemma {:induction false} RecordsExtend(headerLen: nat, staged: seq<Frame>, n: nat, f: Frame)
    requires n <= |staged|
    ensures Records(headerLen, staged + [f], n)
         == Records(headerLen, staged, n) + [Record(|staged| + 1, f, headerLen + |f.payload|)]
    decreases |staged| - n
  {
    if n < |staged| {
      RecordsExtend(headerLen, staged, n + 1, f);
    } else {
      assert Records(headerLen, staged + [f], n + 1) == [];
    }
  }

  lemma {:induction false} RecordsAfter(headerLen: nat, staged: seq<Frame>, n: nat, m: nat)
    requires n <= |staged| && m <= |staged|
    ensures Replay.After(Records(headerLen, staged, n), m) == Records(headerLen, staged, if n < m then m else n)
    decreases |staged| - n
  {
    if n < |staged| {
      RecordsAfter(headerLen, staged, n + 1, m);
    }
  }

  lemma {:induction false} RecordsTail(headerLen: nat, staged: seq<Frame>, n: nat)
    requires n < |staged|
    ensures Records(headerLen, staged, n)[0] == Record(n + 1, staged[n], headerLen + |staged[n].payload|)
    ensures Records(headerLen, staged, n)[1..] == Records(headerLen, staged, n + 1)
  {
  }

  lemma {:induction false} RecordsLast(headerLen: nat, staged: seq<Frame>, n: nat)
    requires n < |staged|
    ensures Records(headerLen, staged, n)[|staged| - n - 1].seqNo == |staged|
    decreases |staged| - n
  {
    if n + 1 < |staged| {
      RecordsLast(headerLen, staged, n + 1);
    }
  }

  /** What frames take up on the wire. */
  ghost function FrameBytes(headerLen: nat, frames: seq<Frame>): nat {
    if frames == [] then 0 else headerLen + |frames[0].payload| + FrameBytes(headerLen, frames[1..])
  }

  lemma {:induction false} RecordsBytes(headerLen: nat, staged: seq<Frame>, n: nat)
    requires n <= |staged|
    ensures RecordBytes(Records(headerLen, staged, n)) == FrameBytes(headerLen, staged[n..])
    decreases |staged| - n
  {
    if n < |staged| {
      var r := Record(n + 1, staged[n], headerLen + |staged[n].payload|);
      RecordsBytes(headerLen, staged, n + 1);
      RecordBytesAppend([r], Records(headerLen, staged, n + 1));
      RecordBytesOne(r);
      assert staged[n..][1..] == staged[n + 1..];
    }
  }

  // ---------------------------------------------------------------- what the operations keep

  /** What becomes of a new frame, by the bytes of the frames that are not acknowledged: it is kept under the next number
      if it fits beside them, held if it would fit alone, and else refused. */
  ghost predicate ExactOutcome(w: WriterState, staged: seq<Frame>, f: Frame)
    requires w.log.lastAcked <= |staged|
  {
    var cap, size := w.log.maxBytes, w.log.headerLen + |f.payload|;
    var used := FrameBytes(w.log.headerLen, staged[w.log.lastAcked..]);
    w.Outcome(f) ==
      if cap <= 0 || used + size <= cap then Staged(Record(|staged| + 1, f, size))
      else if size <= cap then Held else TooLarge
  }

  lemma {:induction false} OutcomeIsExact(w: WriterState, staged: seq<Frame>, f: Frame)
    requires w.Tracks(staged)
    ensures ExactOutcome(w, staged, f)
  {
    RecordsBytes(w.log.headerLen, staged, w.log.lastAcked);
    StageRejectsOnlyTooLarge(w, staged, f);
  }

  /** Both sequence errors of staging are unreachable: a frame is rejected only for its size. */
  lemma {:induction false} StageRejectsOnlyTooLarge(w: WriterState, staged: seq<Frame>, f: Frame)
    requires w.Tracks(staged)
    ensures w.Outcome(f).Staged? || w.Outcome(f).Held? || w.Outcome(f).TooLarge?
    ensures w.Outcome(f).TooLarge? <==> w.log.maxBytes > 0 && w.log.SizeOf(f) > w.log.maxBytes
  {
    if w.log.lastAcked < |staged| {
      RecordsLast(w.log.headerLen, staged, w.log.lastAcked);
    }
  }

  lemma {:induction false} StageTracks(w: WriterState, staged: seq<Frame>, f: Frame)
    requires w.Tracks(staged)
    ensures w.Stage(f).Tracks(if w.Outcome(f).Staged? then staged + [f] else staged)
    ensures w.Outcome(f).Held? ==> !w.Stage(f).log.Fits(f)
  {
    StageRejectsOnlyTooLarge(w, staged, f);
    StageKeepsValid(w.log, f, w.nextSend + 1);
    RecordsExtend(w.log.headerLen, staged, w.log.lastAcked, f);
  }

  lemma {:induction false} AckedTracks(w: WriterState, staged: seq<Frame>, seqNo: nat)
    requires w.Tracks(staged) && seqNo <= w.nextSend
    ensures w.Acked(seqNo).Tracks(staged)
    ensures w.OnTransport(staged) ==> w.Acked(seqNo).OnTransport(staged)
  {
    AckKeepsValid(w.log, seqNo);
    RecordsAfter(w.log.headerLen, staged, w.log.lastAcked, seqNo);
  }

  /** Taking over a transport acknowledges what the peer reports and replays exactly the rest. */
  lemma {:induction false} BeginTracks(w: WriterState, staged: seq<Frame>, resumeSeq: nat)
    requires w.Tracks(staged)
    ensures w.Begin(resumeSeq).Tracks(staged) && w.Begin(resumeSeq).OnTransport(staged)
    ensures resumeSeq <= w.nextSend ==> w.Begin(resumeSeq).log.lastAcked >= resumeSeq
    ensures w.Begin(resumeSeq).log.lastAcked <= if resumeSeq > w.log.lastAcked then resumeSeq else w.log.lastAcked
    ensures |w.Begin(resumeSeq).resume| == w.nextSend - w.Begin(resumeSeq).log.lastAcked
    ensures w.Begin(resumeSeq).lastSent == if resumeSeq < w.nextSend then resumeSeq else w.nextSend
  {
    var last := if resumeSeq < w.nextSend then resumeSeq else w.nextSend;
    AckedTracks(w, staged, last);
    RecordsAfter(w.log.headerLen, staged, w.log.Ack(last).lastAcked, last);
  }

  /** A live frame follows everything written before it. */
  lemma {:induction false} WriteLiveTracks(w: WriterState, staged: seq<Frame>, f: Frame)
    requires w.Tracks(staged) && w.OnTransport(staged) && w.resume == []
    ensures var (w', out) := w.WriteLive(f);
            var staged' := if w.Outcome(f).Staged? then staged + [f] else staged;
            && w'.Tracks(staged') && w'.OnTransport(staged') && w'.resume == []
            && (w.Outcome(f).Staged? ==> out == [Data(|staged| + 1, f)] && w'.lastSent == |staged| + 1)
            && (!w.Outcome(f).Staged? ==> out == [] && w'.lastSent == w.lastSent)
            && (|staged| <= w.lastSent || |staged| <= w.log.lastAcked)
  {
    StageTracks(w, staged, f);
  }

  /** A replayed frame follows the last one sent on this transport or an acknowledged one. */
  lemma {:induction false} WriteResumeTracks(w: WriterState, staged: seq<Frame>)
    requires w.Tracks(staged) && w.OnTransport(staged) && w.resume != []
    ensures var (w', out) := w.WriteResume();
            && w'.Tracks(staged) && w'.OnTransport(staged)
            && |w'.resume| == |w.resume| - 1
            && (var next := w.nextSend - |w.resume| + 1;
                out == if next > w.lastSent && next > w.log.lastAcked then [Data(next, staged[next - 1])] else [])
            && (out == [] ==> w'.lastSent == w.lastSent)
            && (out != [] ==> var s := w'.lastSent;
                  && 1 <= s <= |staged| && out == [Data(s, staged[s - 1])]
                  && (s - 1 <= w.lastSent || s - 1 <= w.log.lastAcked))
  {
    RecordsTail(w.log.headerLen, staged, w.nextSend - |w.resume|);
  }

  /** What staging changes, by its outcome. */
  lemma {:induction false} StageByOutcome(w: WriterState, f: Frame, out: StageOutcome)
    requires out == w.log.Outcome(f, w.nextSend + 1)
    ensures w.Outcome(f) == out
    ensures w.Stage(f) == if out.Held? then w.(held := Some(f))
                          else if out.Staged? then w.(log := w.log.Stage(f, w.nextSend + 1), nextSend := w.nextSend + 1)
                          else w
    ensures !out.Staged? ==> w.log.Stage(f, w.nextSend + 1) == w.log
  {
  }

  // ---------------------------------------------------------------- the mutable writer

  /** What the outbound queue holds: a frame, or the marker that Close puts behind the last one. */
  datatype Queued = NewFrame(frame: Frame) | Closing

  /** How a turn of the writer ends. */
  datatype Turn = More | Nothing | TransportLost | WriterDone

  /** `recoveryWriter` on the transport whose frames written so far are `sink`. */
  class RecoveryWriter {
    var nextSendSeq: nat
    var held: Option<Frame>
    var lastSentSeq: nat
    var resume: seq<Record>
    var sink: seq<Wire>
    const replay: ReplayBuffer

    ghost function Abs(): WriterState
      reads this, replay
    {
      WriterState(nextSendSeq, replay.Abs(), held, lastSentSeq, resume)
    }

    ghost predicate Valid()
      reads this, replay
    {
      replay.Valid()
    }

    constructor (replay: ReplayBuffer)
      requires replay.Valid()
      ensures Valid() && this.replay == replay
      ensures Abs() == WriterState(0, replay.Abs(), None, 0, []) && sink == []
    {
      this.replay := replay;
      nextSendSeq, held, lastSentSeq, resume, sink := 0, None, 0, [], [];
    }

    /** The start of writing to a new transport. */
    method BeginTransport(resumeSeq: nat)
      requires Valid()
      modifies this, replay
      ensures Valid() && sink == []
      ensures Abs() == old(Abs()).Begin(resumeSeq)
    {
      sink := [];
      lastSentSeq := if resumeSeq < nextSendSeq then resumeSeq else nextSendSeq;
      var _ := replay.Ack(lastSentSeq);
      resume := replay.SnapshotFrom(lastSentSeq);
    }

    method Stage(frame: Frame) returns (out: StageOutcome)
      requires Valid()
      modifies this, replay
      ensures Valid() && sink == old(sink)
      ensures out == old(Abs()).Outcome(frame)
      ensures Abs() == old(Abs()).Stage(frame)
    {
      ghost var before := Abs();
      var seqNo := nextSendSeq + 1;
      out := replay.Stage(frame, seqNo);
      StageByOutcome(before, frame, out);
      if out.Held? {
        held := Some(frame);
      } else if out.Staged? {
        nextSendSeq := seqNo;
      }
    }

    /** `ok` says whether the transport takes the frame, if there is one to write. A frame that it does not take
        stays staged for the next transport. */
    method WriteLive(frame: Frame, ok: bool) returns (lost: bool)
      requires Valid()
      modifies this, replay
      ensures Valid()
      ensures var (w, out) := old(Abs()).WriteLive(frame);
              && lost == (out != [] && !ok)
              && Abs() == (if lost then old(Abs()).Stage(frame) else w)
              && sink == old(sink) + (if lost then [] else out)
    {
      var out := Stage(frame);
      if !out.Staged? || out.record.seqNo <= lastSentSeq {
        return false;
      }
      if !ok {
        return true;
      }
      sink := sink + [Data(out.record.seqNo, out.record.frame)];
      lastSentSeq := out.record.seqNo;
      return false;
    }

    method WriteResume(ok: bool) returns (lost: bool)
      requires Valid() && resume != []
      modifies this
      ensures Valid()
      ensures var (w, out) := old(Abs()).WriteResume();
              && lost == (out != [] && !ok)
              && Abs() == (if lost then w.(lastSent := old(lastSentSeq)) else w)
              && sink == old(sink) + (if lost then [] else out)
    {
      var r := resume[0];
      resume := resume[1..];
      if r.seqNo <= lastSentSeq || r.seqNo <= replay.lastAcked {
        return false;
      }
      if !ok {
        return true;
      }
      sink := sink + [Data(r.seqNo, r.frame)];
      lastSentSeq := r.seqNo;
      return false;
    }

    /** One turn of the writer: a pending ACK first, then a frame to replay, then the held frame or the
        next queued one, which may be the marker that ends the writer. */
    method WriteNext(acks: Acks.AckScheduler, now: nat, queued: Option<Queued>, ok: bool)
      returns (turn: Turn, usedQueue: bool)
      requires Valid()
      modifies this, replay, acks
      ensures Valid()
      ensures acks.Abs() == old(acks.Abs()).Take(now).0
      ensures old(acks.Abs()).Take(now).1 ==>
        && turn == (if ok then More else TransportLost) && !usedQueue && Abs() == old(Abs())
        && sink == old(sink) + (if ok then [AckUpTo(acks.lastRecvSeq)] else [])
      ensures !old(acks.Abs()).Take(now).1 && old(resume) != [] ==>
        var (w, out) := old(Abs()).WriteResume();
        && !usedQueue
        && (if out != [] && !ok
            then turn == TransportLost && Abs() == w.(lastSent := old(lastSentSeq)) && sink == old(sink)
            else turn == More && Abs() == w && sink == old(sink) + out)
      ensures !old(acks.Abs()).Take(now).1 && old(resume) == [] ==>
        && usedQueue == (old(held).None? && queued.Some?)
        && var next: Option<Queued> := if old(held).Some? then Some(NewFrame(old(held).value)) else queued;
           (match next
            case None => turn == Nothing && Abs() == old(Abs()) && sink == old(sink)
            case Some(Closing) => turn == WriterDone && Abs() == old(Abs()) && sink == old(sink) + (if ok then [Close] else [])
            case Some(NewFrame(f)) =>
              var was := old(Abs()).(held := None);
              var (w, out) := was.WriteLive(f);
              if out != [] && !ok then turn == TransportLost && Abs() == was.Stage(f) && sink == old(sink)
              else turn == (if held.None? then More else Nothing) && Abs() == w && sink == old(sink) + out)
    {
      usedQueue := false;
      var taken, seqNo := acks.TakePendingControl(now);
      if taken {
        if !ok {
          return TransportLost, false;
        }
        sink := sink + [AckUpTo(seqNo)];
        return More, false;
      }
      var lost;
      if resume != [] {
        lost := WriteResume(ok);
        return if lost then TransportLost else More, false;
      }
      var next := queued;
      if held.Some? {
        next := Some(NewFrame(held.value));
        held := None;
      } else {
        usedQueue := queued.Some?;
      }
      match next {
        case None => turn := Nothing;
        case Some(Closing) =>
          if ok {
            sink := sink + [Close];
          }
          turn := WriterDone;
        case Some(NewFrame(f)) =>
          lost := WriteLive(f, ok);
          turn := if lost then TransportLost else if held.None? then More else Nothing;
      }
    }
  }
}
