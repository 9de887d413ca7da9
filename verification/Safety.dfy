/** Safety of the recovery protocol over every run: ordered exactly-once delivery, no false gap, and complete
    delivery before CLOSE. */
module Safety {

  import opened Prelude
  import opened Replay
  import opened Writer
  import opened Acks
  import opened Protocol

  // ---------------------------------------------------------------- what is on its way

  /** A receiver that has `last` frames reads `frames` without an error: every data frame is a duplicate or
      the next one, carries what was staged under its number, and CLOSE comes after all of `staged`. */
  ghost predicate Readable(frames: seq<Wire>, last: nat, staged: seq<Frame>, done: bool) {
    frames == [] || (
      match frames[0]
      case Data(s, f) =>
        && 1 <= s <= last + 1 && s <= |staged| && f == staged[s - 1]
        && Readable(frames[1..], if s > last then s else last, staged, done)
      case Close => done && last == |staged| && Readable(frames[1..], last, staged, done)
      case _ => Readable(frames[1..], last, staged, done))
  }

  /** The last number such a receiver has after reading `frames`. */
  ghost function Reach(frames: seq<Wire>, last: nat): (r: nat)
    ensures r >= last
  {
    if frames == [] then last
    else if frames[0].Data? && frames[0].seqNo > last then Reach(frames[1..], frames[0].seqNo)
    else Reach(frames[1..], last)
  }

  /** No ACK on its way covers more than `last`. */
  ghost predicate AcksUpTo(frames: seq<Wire>, last: nat) {
    forall i :: 0 <= i < |frames| && frames[i].AckUpTo? ==> frames[i].seqNo <= last
  }

  lemma {:induction false} ReadableMono(frames: seq<Wire>, last: nat, last': nat, staged: seq<Frame>, done: bool)
    requires Readable(frames, last, staged, done) && last <= last' <= |staged|
    ensures Readable(frames, last', staged, done)
    ensures Reach(frames, last) <= Reach(frames, last')
    decreases |frames|
  {
    if frames != [] {
      var f := frames[0];
      var next := if f.Data? && f.seqNo > last then f.seqNo else last;
      var next' := if f.Data? && f.seqNo > last' then f.seqNo else last';
      ReadableMono(frames[1..], next, next', staged, done);
    }
  }

  lemma {:induction false} ReachBound(frames: seq<Wire>, last: nat, staged: seq<Frame>, done: bool)
    requires Readable(frames, last, staged, done) && last <= |staged|
    ensures Reach(frames, last) <= |staged|
    decreases |frames|
  {
    if frames != [] {
      ReachBound(frames[1..], if frames[0].Data? && frames[0].seqNo > last then frames[0].seqNo else last, staged, done);
    }
  }

  /** Staging more frames, or ending, does not disturb what is on its way. */
  lemma {:induction false} ReadableGrow(frames: seq<Wire>, last: nat, staged: seq<Frame>, staged': seq<Frame>, done: bool)
    requires Readable(frames, last, staged, false) && staged <= staged'
    ensures Readable(frames, last, staged', done)
    decreases |frames|
  {
    if frames != [] {
      var next := if frames[0].Data? && frames[0].seqNo > last then frames[0].seqNo else last;
      ReadableGrow(frames[1..], next, staged, staged', done);
    }
  }

  lemma {:induction false} ReadablePrefix(frames: seq<Wire>, n: nat, last: nat, staged: seq<Frame>, done: bool)
    requires Readable(frames, last, staged, done) && n <= |frames|
    ensures Readable(frames[..n], last, staged, done)
    decreases |frames|
  {
    if n > 0 {
      var next := if frames[0].Data? && frames[0].seqNo > last then frames[0].seqNo else last;
      ReadablePrefix(frames[1..], n - 1, next, staged, done);
      assert frames[..n][1..] == frames[1..][..n - 1];
    }
  }

  /** What may be written behind `frames`. */
  ghost predicate Follows(m: Wire, reach: nat, staged: seq<Frame>, done: bool) {
    match m
    case Data(s, f) => 1 <= s <= reach + 1 && s <= |staged| && f == staged[s - 1]
    case Close => done && reach == |staged|
    case _ => true
  }

  lemma {:induction false} ReadableAppend(frames: seq<Wire>, m: Wire, last: nat, staged: seq<Frame>, done: bool)
    requires Readable(frames, last, staged, done) && Follows(m, Reach(frames, last), staged, done)
    ensures Readable(frames + [m], last, staged, done)
    ensures Reach(frames + [m], last) == if m.Data? && m.seqNo > Reach(frames, last) then m.seqNo else Reach(frames, last)
    decreases |frames|
  {
    if frames != [] {
      var next := if frames[0].Data? && frames[0].seqNo > last then frames[0].seqNo else last;
      ReadableAppend(frames[1..], m, next, staged, done);
      assert (frames + [m])[1..] == frames[1..] + [m];
    }
  }

  // ---------------------------------------------------------------- the invariant

  /** What one endpoint keeps on its own. */
  ghost predicate Local(e: Endpoint) {
    && e.w.Tracks(e.staged)
    && (e.wt.Some? ==> e.w.OnTransport(e.staged))
    && (e.wt.Some? <==> e.pc.Top? || e.pc.AckChecked? || e.pc.Full? || e.pc.Blocked?)
    && e.acks.Valid()
    && |e.delivered| == e.acks.lastRecv
    && !e.failed
  }

  /** An endpoint only uses transports that exist, and resumes from what its peer reported. */
  ghost predicate Linked(s: Sys) {
    && |s.out| == |s.inn|
    && (s.e.wt.Some? ==> s.e.wt.value < |s.out|)
    && (s.e.rt.Some? ==> s.e.rt.value < |s.out|)
    && (s.e.attached.Some? ==>
          && s.e.attached.value < |s.out|
          && s.inn[s.e.attached.value].reported == Some(s.e.resumeAt))
  }

  ghost predicate Forward(c: Channel, last: nat, staged: seq<Frame>, done: bool) {
    Readable(c.frames, last, staged, done)
  }

  ghost predicate Backward(c: Channel, last: nat) {
    AcksUpTo(c.frames, last) && (c.reported.Some? ==> c.reported.value <= last)
  }

  /** Frames of the sender `s.e` on their way to `r`. */
  ghost predicate Directed(s: Sys, r: Endpoint) {
    && s.e.w.log.lastAcked <= r.acks.lastRecv <= |s.e.staged|
    && r.delivered == s.e.staged[..r.acks.lastRecv]
    && (forall t :: 0 <= t < |s.out| ==> Forward(s.out[t], r.acks.lastRecv, s.e.staged, s.e.pc.Done?))
    && (forall t :: 0 <= t < |s.inn| ==> Backward(s.inn[t], r.acks.lastRecv))
    && (s.e.wt.Some? && s.e.wt.value < |s.out| && !s.out[s.e.wt.value].broken ==>
          s.e.w.lastSent <= Reach(s.out[s.e.wt.value].frames, r.acks.lastRecv))
  }

  /** The invariant seen from the endpoint of `s`, whose peer is `p`. */
  ghost predicate Good(s: Sys, p: Endpoint) {
    && Local(s.e) && Local(p)
    && Linked(s) && Linked(Sys(p, s.inn, s.out))
    && Directed(s, p) && Directed(Sys(p, s.inn, s.out), s.e)
  }

  // ---------------------------------------------------------------- how traffic survives a move

  /** A change of the sender that leaves the channels alone: it may stage more, end, or learn of ACKs. */
  lemma {:induction false} SenderMoves(s: Sys, e': Endpoint, r: Endpoint)
    requires Directed(s, r) && Linked(s)
    requires e'.w.log.lastAcked <= r.acks.lastRecv
    requires (e'.staged == s.e.staged && e'.pc.Done? == s.e.pc.Done?)
          || (!s.e.pc.Done? && s.e.staged <= e'.staged)
    requires e'.wt.Some? ==>
      (e'.wt == s.e.wt && e'.w.lastSent == s.e.w.lastSent) || e'.w.lastSent <= r.acks.lastRecv
    ensures Directed(s.(e := e'), r)
  {
    if e'.staged != s.e.staged || e'.pc.Done? != s.e.pc.Done? {
      forall t | 0 <= t < |s.out| ensures Forward(s.out[t], r.acks.lastRecv, e'.staged, e'.pc.Done?) {
        assert Forward(s.out[t], r.acks.lastRecv, s.e.staged, false);
        ReadableGrow(s.out[t].frames, r.acks.lastRecv, s.e.staged, e'.staged, e'.pc.Done?);
      }
    }
  }

  /** A change of the receiver that the sender's traffic does not see. */
  lemma {:induction false} ReceiverMoves(s: Sys, r: Endpoint, r': Endpoint)
    requires Directed(s, r)
    requires r'.acks.lastRecv == r.acks.lastRecv && r'.delivered == r.delivered
    ensures Directed(s, r')
  {
  }

  /** The sender writes `m` behind what is on its way. */
  lemma {:induction false} SenderEmits(s: Sys, t: nat, m: Wire, e': Endpoint, r: Endpoint)
    requires Directed(s, r) && t < |s.out|
    requires e'.staged == s.e.staged && e'.pc.Done? == s.e.pc.Done? && e'.w.log.lastAcked == s.e.w.log.lastAcked
    requires !s.out[t].broken ==> Follows(m, Reach(s.out[t].frames, r.acks.lastRecv), s.e.staged, s.e.pc.Done?)
    requires e'.wt.Some? ==> e'.wt == Some(t) == s.e.wt
    requires e'.wt.Some? ==> e'.w.lastSent == if m.Data? then m.seqNo else s.e.w.lastSent
    ensures Directed(Sys(e', s.out[t := s.out[t].Put(m)], s.inn), r)
  {
    var c := s.out[t];
    assert Forward(c, r.acks.lastRecv, s.e.staged, s.e.pc.Done?);
    if !c.broken {
      ReadableAppend(c.frames, m, r.acks.lastRecv, s.e.staged, s.e.pc.Done?);
    }
    var out' := s.out[t := c.Put(m)];
    assert Forward(out'[t], r.acks.lastRecv, s.e.staged, s.e.pc.Done?);
    assert forall i :: 0 <= i < |out'| && i != t ==> out'[i] == s.out[i];
  }

  /** The receiver writes `m` on its own direction. */
  lemma {:induction false} ReceiverEmits(s: Sys, t: nat, m: Wire, r: Endpoint)
    requires Directed(s, r) && t < |s.inn|
    requires m.AckUpTo? ==> m.seqNo <= r.acks.lastRecv
    ensures Directed(s.(inn := s.inn[t := s.inn[t].Put(m)]), r)
  {
    var inn' := s.inn[t := s.inn[t].Put(m)];
    assert Backward(s.inn[t], r.acks.lastRecv);
    assert Backward(inn'[t], r.acks.lastRecv);
    assert forall i :: 0 <= i < |inn'| && i != t ==> inn'[i] == s.inn[i];
  }

  /** The receiver accepts or skips the first data frame on transport `t`. */
  lemma {:induction false} ReceiverReads(s: Sys, t: nat, r: Endpoint, r': Endpoint)
    requires Directed(s, r) && t < |s.out| && s.out[t].frames != []
    requires var m := s.out[t].frames[0];
             if m.Data? && m.seqNo > r.acks.lastRecv
             then r'.acks.lastRecv == m.seqNo && r'.delivered == r.delivered + [m.frame]
             else r'.acks.lastRecv == r.acks.lastRecv && r'.delivered == r.delivered
    requires |r.delivered| == r.acks.lastRecv
    ensures Directed(s.(out := s.out[t := s.out[t].(frames := s.out[t].frames[1..])]), r')
  {
    var last, last' := r.acks.lastRecv, r'.acks.lastRecv;
    var c := s.out[t];
    assert Forward(c, last, s.e.staged, s.e.pc.Done?);
    var out' := s.out[t := c.(frames := c.frames[1..])];
    forall i | 0 <= i < |out'| ensures Forward(out'[i], last', s.e.staged, s.e.pc.Done?) {
      if i != t {
        assert Forward(s.out[i], last, s.e.staged, s.e.pc.Done?);
        ReadableMono(s.out[i].frames, last, last', s.e.staged, s.e.pc.Done?);
      }
    }
    forall i | 0 <= i < |s.inn| ensures Backward(s.inn[i], last') {
      assert Backward(s.inn[i], last);
    }
    if s.e.wt.Some? && s.e.wt.value < |s.out| && s.e.wt.value != t {
      var k := s.e.wt.value;
      assert Forward(s.out[k], last, s.e.staged, s.e.pc.Done?);
      ReadableMono(s.out[k].frames, last, last', s.e.staged, s.e.pc.Done?);
    }
  }

  /** Shortening a channel of the receiver, or announcing its last received number, is harmless. */
  lemma {:induction false} ReceiverChannel(s: Sys, t: nat, c: Channel, r: Endpoint)
    requires Directed(s, r) && t < |s.inn| && Backward(c, r.acks.lastRecv)
    ensures Directed(s.(inn := s.inn[t := c]), r)
  {
  }

  /** A cut drops the end of what is on its way and everything written later. */
  lemma {:induction false} SenderCut(s: Sys, t: nat, keep: nat, r: Endpoint)
    requires Directed(s, r) && t < |s.out| && keep <= |s.out[t].frames|
    ensures Directed(DoCut(s, t, keep), r)
  {
    var c := s.out[t];
    assert Forward(c, r.acks.lastRecv, s.e.staged, s.e.pc.Done?);
    ReadablePrefix(c.frames, keep, r.acks.lastRecv, s.e.staged, s.e.pc.Done?);
    var out' := DoCut(s, t, keep).out;
    assert Forward(out'[t], r.acks.lastRecv, s.e.staged, s.e.pc.Done?);
    assert forall i :: 0 <= i < |out'| && i != t ==> out'[i] == s.out[i];
  }

  // ---------------------------------------------------------------- every move keeps the invariant

  /** Moves that touch no channel and nothing the traffic depends on. */
  lemma {:induction false} QuietMove(s: Sys, e': Endpoint, p: Endpoint)
    requires Good(s, p) && Local(e') && Linked(s.(e := e'))
    requires e'.staged == s.e.staged && e'.delivered == s.e.delivered && e'.acks.lastRecv == s.e.acks.lastRecv
    requires e'.w.log.lastAcked == s.e.w.log.lastAcked && (e'.pc.Done? == s.e.pc.Done? || !s.e.pc.Done?)
    requires e'.wt.Some? ==> e'.wt == s.e.wt && e'.w.lastSent == s.e.w.lastSent
    ensures Good(s.(e := e'), p)
  {
    SenderMoves(s, e', p);
    ReceiverMoves(Sys(p, s.inn, s.out), s.e, e');
  }

  lemma {:induction false} StageOffKeeps(s: Sys, f: Frame, isClient: bool, p: Endpoint)
    requires Good(s, p) && Enabled(s, StageOff(f), isClient)
    ensures Good(Do(s, StageOff(f), isClient), p)
  {
    var e' := s.e.Staging(f).(pc := OffTop);
    StageTracks(s.e.w, s.e.staged, f);
    SenderMoves(s, e', p);
    ReceiverMoves(Sys(p, s.inn, s.out), s.e, e');
  }

  lemma {:induction false} BeginKeeps(s: Sys, isClient: bool, p: Endpoint)
    requires Good(s, p) && Enabled(s, Begin, isClient)
    ensures Good(Do(s, Begin, isClient), p)
  {
    var e' := DoBegin(s.e);
    BeginTracks(s.e.w, s.e.staged, s.e.resumeAt);
    assert Backward(s.inn[s.e.attached.value], p.acks.lastRecv);
    SenderMoves(s, e', p);
    ReceiverMoves(Sys(p, s.inn, s.out), s.e, e');
  }

  /** Losing the transport keeps everything but the transport. */
  lemma {:induction false} LostKeeps(s: Sys, e': Endpoint, p: Endpoint)
    requires Good(s, p) && e'.w.Tracks(e'.staged) && e'.acks.Valid() && e'.acks.lastRecv == s.e.acks.lastRecv
    requires e'.delivered == s.e.delivered && !e'.failed && e'.wt == s.e.wt && e'.rt == s.e.rt
    requires e'.attached == s.e.attached && e'.resumeAt == s.e.resumeAt && !s.e.pc.Done?
    requires e'.w.log.lastAcked == s.e.w.log.lastAcked && s.e.staged <= e'.staged
    requires s.e.wt.Some?
    ensures Good(Emit(s, e', [], false), p)
  {
    var t, e2 := s.e.wt.value, e'.LostTransport();
    var s2 := s.(e := e2);
    SenderMoves(s, e2, p);
    ReceiverMoves(Sys(p, s.inn, s.out), s.e, e2);
    BreakKeeps(s2, t, p);
  }

  /** A channel that breaks loses nothing that is on its way. */
  lemma {:induction false} BreakKeeps(s: Sys, t: nat, p: Endpoint)
    requires Good(s, p) && t < |s.out|
    ensures Good(s.(out := s.out[t := s.out[t].Broken()]), p)
  {
    assert s.out[t].frames[..|s.out[t].frames|] == s.out[t].frames;
    SenderCut(s, t, |s.out[t].frames|, p);
    assert Backward(s.out[t], s.e.acks.lastRecv);
    ReceiverChannel(Sys(p, s.inn, s.out), t, s.out[t].Broken(), s.e);
  }

  /** Writing a frame that follows what is on its way. */
  lemma {:induction false} EmitKeeps(s: Sys, m: Wire, e': Endpoint, p: Endpoint)
    requires Good(s, p) && s.e.wt.Some? && Local(e') && Linked(s.(e := e'))
    requires e'.staged == s.e.staged && e'.delivered == s.e.delivered && e'.acks.lastRecv == s.e.acks.lastRecv
    requires e'.w.log.lastAcked == s.e.w.log.lastAcked && !e'.pc.Done? && e'.wt == s.e.wt
    requires m.AckUpTo? ==> m.seqNo <= s.e.acks.lastRecv
    requires !m.Close?
    requires m.Data? ==> 1 <= m.seqNo <= |s.e.staged| && m.frame == s.e.staged[m.seqNo - 1]
    requires m.Data? ==> m.seqNo - 1 <= s.e.w.lastSent || m.seqNo - 1 <= s.e.w.log.lastAcked
    requires e'.w.lastSent == if m.Data? then m.seqNo else s.e.w.lastSent
    ensures Good(Emit(s, e', [m], true), p)
  {
    var t := s.e.wt.value;
    SenderEmits(s, t, m, e', p);
    ReceiverEmits(Sys(p, s.inn, s.out), t, m, s.e);
    ReceiverMoves(Sys(p, s.inn, s.out[t := s.out[t].Put(m)]), s.e, e');
  }

  lemma {:induction false} TakeAckKeeps(s: Sys, now: nat, ok: bool, isClient: bool, p: Endpoint)
    requires Good(s, p) && Enabled(s, TakeAck(now, ok), isClient)
    ensures Good(Do(s, TakeAck(now, ok), isClient), p)
  {
    var e' := s.e.TakenAck();
    if ok {
      EmitKeeps(s, AckUpTo(s.e.acks.lastRecv), e', p);
    } else {
      LostKeeps(s, e', p);
    }
  }

  /** A write that turns out to write nothing. */
  lemma {:induction false} EmptyEmitKeeps(s: Sys, e': Endpoint, p: Endpoint)
    requires Good(s, p) && s.e.wt.Some? && Local(e') && Linked(s.(e := e'))
    requires e'.staged == s.e.staged && e'.delivered == s.e.delivered && e'.acks.lastRecv == s.e.acks.lastRecv
    requires e'.w.log.lastAcked == s.e.w.log.lastAcked && e'.pc.Done? == s.e.pc.Done?
    requires e'.wt == s.e.wt && e'.w.lastSent == s.e.w.lastSent
    ensures Good(Emit(s, e', [], true), p)
  {
    QuietMove(s, e', p);
    assert s.out[s.e.wt.value := s.out[s.e.wt.value]] == s.out;
  }

  lemma {:induction false} ReplayedKeeps(s: Sys, m: Wire, w': WriterState, p: Endpoint)
    requires Good(s, p) && s.e.wt.Some? && s.e.w.resume != [] && s.e.w.WriteResume() == (w', [m])
    ensures Good(Emit(s, s.e.(w := w', pc := Top), [m], true), p)
  {
    WriteResumeTracks(s.e.w, s.e.staged);
    EmitKeeps(s, m, s.e.(w := w', pc := Top), p);
  }

  lemma {:induction false} ResumeKeeps(s: Sys, ok: bool, isClient: bool, p: Endpoint)
    requires Good(s, p) && Enabled(s, Resume(ok), isClient)
    ensures Good(Do(s, Resume(ok), isClient), p)
  {
    var (w', ws) := s.e.w.WriteResume();
    if ws == [] {
      WriteResumeTracks(s.e.w, s.e.staged);
      EmptyEmitKeeps(s, s.e.(w := w', pc := Top), p);
    } else if ok {
      assert ws == [ws[0]];
      ReplayedKeeps(s, ws[0], w', p);
    } else {
      WriteResumeTracks(s.e.w, s.e.staged);
      LostKeeps(s, s.e.(w := w'.(lastSent := s.e.w.lastSent), pc := Top), p);
    }
  }

  /** A staged live frame is written behind everything staged before it. */
  lemma {:induction false} LiveWritten(s: Sys, m: Wire, e': Endpoint, p: Endpoint)
    requires Good(s, p) && s.e.wt.Some? && m == Data(|s.e.staged| + 1, if m.Data? then m.frame else Frame(0, 0, []))
    requires Local(e') && Linked(s.(e := e')) && e'.staged == s.e.staged + [m.frame]
    requires e'.delivered == s.e.delivered && e'.acks == s.e.acks && !e'.pc.Done? && e'.wt == s.e.wt
    requires e'.w.log.lastAcked == s.e.w.log.lastAcked && e'.w.lastSent == m.seqNo
    requires |s.e.staged| <= s.e.w.lastSent || |s.e.staged| <= s.e.w.log.lastAcked
    ensures Good(Emit(s, e', [m], true), p)
  {
    var t := s.e.wt.value;
    var e0 := e'.(w := e'.w.(lastSent := s.e.w.lastSent));
    SenderMoves(s, e0, p);
    SenderEmits(s.(e := e0), t, m, e', p);
    ReceiverEmits(Sys(p, s.inn, s.out), t, m, s.e);
    ReceiverMoves(Sys(p, s.inn, s.out[t := s.out[t].Put(m)]), s.e, e');
  }

  lemma {:induction false} LiveKeeps(s: Sys, f: Frame, ok: bool, p: Endpoint)
    requires Good(s, p) && s.e.wt.Some? && !s.e.closed && s.e.w.resume == []
    ensures Good(DoLive(s, f, ok), p)
  {
    var e := s.e.(w := s.e.w.(held := None));
    var (w', ws) := e.w.WriteLive(f);
    WriteLiveTracks(e.w, s.e.staged, f);
    var pc' := if w'.held.Some? && s.e.pc.AckChecked? then Full else Top;
    var e1 := e.Staging(f).(w := w', pc := pc');
    if ws == [] {
      EmptyEmitKeeps(s, e1, p);
    } else if ok {
      LiveWritten(s, ws[0], e1, p);
    } else {
      StageTracks(e.w, s.e.staged, f);
      LostKeeps(s, e.Staging(f).(pc := pc'), p);
    }
  }

  /** CLOSE is written with nothing held and nothing left to replay, so behind everything staged. */
  lemma {:induction false} WriteCloseKeeps(s: Sys, isClient: bool, p: Endpoint)
    requires Good(s, p) && Enabled(s, WriteClose, isClient)
    ensures Good(Do(s, WriteClose, isClient), p)
  {
    var t := s.e.wt.value;
    var e' := s.e.(wt := None, pc := Done);
    SenderMoves(s, e', p);
    assert Forward(s.out[t], p.acks.lastRecv, s.e.staged, s.e.pc.Done?);
    ReachBound(s.out[t].frames, p.acks.lastRecv, s.e.staged, s.e.pc.Done?);
    SenderEmits(s.(e := e'), t, Close, e', p);
    ReceiverEmits(Sys(p, s.inn, s.out), t, Close, s.e);
    ReceiverMoves(Sys(p, s.inn, s.out[t := s.out[t].Put(Close)]), s.e, e');
  }

  lemma {:induction false} TimeoutKeeps(s: Sys, ping: bool, ok: bool, isClient: bool, p: Endpoint)
    requires Good(s, p) && Enabled(s, Timeout(ping, ok), isClient)
    ensures Good(Do(s, Timeout(ping, ok), isClient), p)
  {
    var e' := s.e.(pc := Top);
    if !ok {
      LostKeeps(s, e', p);
    } else if ping {
      EmitKeeps(s, Ping, e', p);
    } else {
      EmptyEmitKeeps(s, e', p);
    }
  }

  lemma {:induction false} DialKeeps(s: Sys, isClient: bool, p: Endpoint)
    requires Good(s, p) && Enabled(s, Dial, isClient)
    ensures Good(Do(s, Dial, isClient), p)
  {
  }

  lemma {:induction false} ReportKeeps(s: Sys, t: nat, isClient: bool, p: Endpoint)
    requires Good(s, p) && Enabled(s, Report(t), isClient)
    ensures Good(Do(s, Report(t), isClient), p)
  {
    var c := s.out[t].(reported := Some(s.e.acks.lastRecv));
    var q := Sys(p, s.inn, s.out);
    assert Backward(s.out[t], s.e.acks.lastRecv);
    ReceiverChannel(q, t, c, s.e);
    var out' := s.out[t := c];
    assert forall i :: 0 <= i < |out'| ==> out'[i].frames == s.out[i].frames && out'[i].broken == s.out[i].broken;
    forall i | 0 <= i < |out'| ensures Forward(out'[i], p.acks.lastRecv, s.e.staged, s.e.pc.Done?) {
      assert Forward(s.out[i], p.acks.lastRecv, s.e.staged, s.e.pc.Done?);
    }
  }

  lemma {:induction false} CutKeeps(s: Sys, t: nat, keep: nat, isClient: bool, p: Endpoint)
    requires Good(s, p) && Enabled(s, Cut(t, keep), isClient)
    ensures Good(Do(s, Cut(t, keep), isClient), p)
  {
    SenderCut(s, t, keep, p);
    assert Backward(s.out[t], s.e.acks.lastRecv);
    ReceiverChannel(Sys(p, s.inn, s.out), t, DoCut(s, t, keep).out[t], s.e);
  }

  /** The reader never meets an error: a data frame on its way is a duplicate or the next one. */
  lemma {:induction false} NoFalseGap(s: Sys, t: nat, p: Endpoint)
    requires Good(s, p) && t < |s.inn| && s.inn[t].frames != []
    ensures var m := s.inn[t].frames[0];
            && (m.Data? ==> 1 <= m.seqNo <= s.e.acks.lastRecv + 1)
            && (m.Data? && m.seqNo == s.e.acks.lastRecv + 1 ==>
                  m.seqNo <= |p.staged| && m.frame == p.staged[m.seqNo - 1])
            && (m.AckUpTo? ==> m.seqNo <= |s.e.staged|)
            && (m.Close? ==> p.pc.Done? && s.e.acks.lastRecv == |p.staged|)
  {
    assert Forward(s.inn[t], s.e.acks.lastRecv, p.staged, p.pc.Done?);
    assert Backward(s.inn[t], p.acks.lastRecv);
  }

  lemma {:induction false} HandleKeepsLocal(s: Sys, t: nat, p: Endpoint, every: nat, delay: int, at: nat)
    requires Good(s, p) && t < |s.inn| && s.inn[t].frames != []
    ensures Local(Handle(s.e, s.inn[t].frames[0], every, delay, at))
  {
    NoFalseGap(s, t, p);
    var m := s.inn[t].frames[0];
    if m.AckUpTo? {
      AckedTracks(s.e.w, s.e.staged, m.seqNo);
    } else if m.Data? {
      NoteReceivedKeepsAccounting(s.e.acks, m.seqNo, every, delay, at);
    }
  }

  /** The reader's view of its peer's frames, and its peer's view of the ACK it may have read. */
  lemma {:induction false} ReadTraffic(s: Sys, t: nat, e': Endpoint, p: Endpoint)
    requires Good(s, p) && t < |s.inn| && s.inn[t].frames != []
    requires var m := s.inn[t].frames[0];
             && (if m.Data? && m.seqNo > s.e.acks.lastRecv
                 then e'.acks.lastRecv == m.seqNo && e'.delivered == s.e.delivered + [m.frame]
                 else e'.acks.lastRecv == s.e.acks.lastRecv && e'.delivered == s.e.delivered)
             && (e'.w.log.lastAcked <= s.e.w.log.lastAcked || (m.AckUpTo? && e'.w.log.lastAcked <= m.seqNo))
    requires e'.staged == s.e.staged && e'.pc == s.e.pc && e'.wt == s.e.wt && e'.w.lastSent == s.e.w.lastSent
    ensures var inn' := s.inn[t := s.inn[t].(frames := s.inn[t].frames[1..])];
            Directed(Sys(e', s.out, inn'), p) && Directed(Sys(p, inn', s.out), e')
  {
    var c := s.inn[t].(frames := s.inn[t].frames[1..]);
    assert Backward(s.inn[t], p.acks.lastRecv);
    SenderMoves(s, e', p);
    ReceiverChannel(s.(e := e'), t, c, p);
    ReceiverReads(Sys(p, s.inn, s.out), t, s.e, e');
  }

  /** What handling a frame that is no gap changes. */
  lemma {:induction false} HandleEffect(e: Endpoint, m: Wire, every: nat, delay: int, at: nat)
    requires e.acks.Valid() && (m.Data? ==> 1 <= m.seqNo <= e.acks.lastRecv + 1)
    ensures var e' := Handle(e, m, every, delay, at);
            && (if m.Data? && m.seqNo > e.acks.lastRecv
                then e'.acks.lastRecv == m.seqNo && e'.delivered == e.delivered + [m.frame]
                else e'.acks.lastRecv == e.acks.lastRecv && e'.delivered == e.delivered)
            && (e'.w.log.lastAcked <= e.w.log.lastAcked || (m.AckUpTo? && e'.w.log.lastAcked <= m.seqNo))
            && e'.staged == e.staged && e'.pc == e.pc && e'.wt == e.wt && e'.w.lastSent == e.w.lastSent
            && e'.rt == e.rt && e'.resumeAt == e.resumeAt && (e'.attached.Some? ==> e'.attached == e.attached)
  {
    if m.Data? {
      NoteReceivedKeepsAccounting(e.acks, m.seqNo, every, delay, at);
    }
  }

  lemma {:induction false} ReadKeeps(s: Sys, every: nat, delay: int, at: nat, isClient: bool, p: Endpoint)
    requires Good(s, p) && Enabled(s, Read(every, delay, at), isClient)
    ensures Good(Do(s, Read(every, delay, at), isClient), p)
  {
    var t := s.e.rt.value;
    var m := s.inn[t].frames[0];
    var e' := Handle(s.e, m, every, delay, at).Noted(m);
    NoFalseGap(s, t, p);
    HandleKeepsLocal(s, t, p, every, delay, at);
    HandleEffect(s.e, m, every, delay, at);
    assert Local(e');
    ReadTraffic(s, t, e', p);
    var inn' := s.inn[t := s.inn[t].(frames := s.inn[t].frames[1..])];
    assert Linked(Sys(e', s.out, inn')) && Linked(Sys(p, inn', s.out));
    assert Do(s, Read(every, delay, at), isClient) == Sys(e', s.out, inn');
  }

  /** The moves of the writer's loops that write nothing. */
  lemma {:induction false} LoopKeeps(s: Sys, a: Act, isClient: bool, p: Endpoint)
    requires Good(s, p) && Enabled(s, a, isClient)
    requires a.Leave? || a.PassAck? || a.Park? || a.GiveUp? || a.Idle? || a.Wake? || a.Signal?
    ensures Good(Do(s, a, isClient), p)
  {
    QuietMove(s, Do(s, a, isClient).e, p);
  }

  /** Attaching, detaching and closing. */
  lemma {:induction false} LinkKeeps(s: Sys, a: Act, isClient: bool, p: Endpoint)
    requires Good(s, p) && Enabled(s, a, isClient)
    requires a.Attach? || a.Detach? || a.Switch? || a.Shutdown?
    ensures Good(Do(s, a, isClient), p)
  {
    QuietMove(s, Do(s, a, isClient).e, p);
  }

  /** The moves that write frames. */
  lemma {:induction false} WriteKeeps(s: Sys, a: Act, isClient: bool, p: Endpoint)
    requires Good(s, p) && Enabled(s, a, isClient)
    requires a.TakeAck? || a.Resume? || a.Live? || a.LiveHeld? || a.WriteClose? || a.Timeout?
    ensures Good(Do(s, a, isClient), p)
  {
    match a
    case TakeAck(now, ok) => TakeAckKeeps(s, now, ok, isClient, p);
    case Resume(ok) => ResumeKeeps(s, ok, isClient, p);
    case Live(f, ok) => LiveKeeps(s, f, ok, p);
    case LiveHeld(ok) => LiveKeeps(s, s.e.w.held.value, ok, p);
    case WriteClose => WriteCloseKeeps(s, isClient, p);
    case Timeout(ping, ok) => TimeoutKeeps(s, ping, ok, isClient, p);
  }

  /** Every move of either endpoint keeps the invariant. */
  lemma {:induction false} MoveKeeps(s: Sys, a: Act, isClient: bool, p: Endpoint)
    requires Good(s, p) && Enabled(s, a, isClient)
    ensures Good(Do(s, a, isClient), p)
  {
    match a
    case StageOff(f) => StageOffKeeps(s, f, isClient, p);
    case Begin => BeginKeeps(s, isClient, p);
    case Read(every, delay, at) => ReadKeeps(s, every, delay, at, isClient, p);
    case Dial => DialKeeps(s, isClient, p);
    case Report(t) => ReportKeeps(s, t, isClient, p);
    case Cut(t, keep) => CutKeeps(s, t, keep, isClient, p);
    case TakeAck(_, _) => WriteKeeps(s, a, isClient, p);
    case Resume(_) => WriteKeeps(s, a, isClient, p);
    case Live(_, _) => WriteKeeps(s, a, isClient, p);
    case LiveHeld(_) => WriteKeeps(s, a, isClient, p);
    case WriteClose => WriteKeeps(s, a, isClient, p);
    case Timeout(_, _) => WriteKeeps(s, a, isClient, p);
    case Attach(_) => LinkKeeps(s, a, isClient, p);
    case Detach => LinkKeeps(s, a, isClient, p);
    case Switch => LinkKeeps(s, a, isClient, p);
    case Shutdown => LinkKeeps(s, a, isClient, p);
    case _ => LoopKeeps(s, a, isClient, p);
  }

  // ---------------------------------------------------------------- over whole runs

  ghost predicate Safe(w: World) {
    Good(w.View(true), w.server)
  }

  lemma {:induction false} NextKeepsSafe(w: World, m: Move)
    requires Safe(w) && CanMove(w, m)
    ensures Safe(Next(w, m))
  {
    MoveKeeps(w.View(m.isClient), m.act, m.isClient, w.Peer(m.isClient));
  }

  /** Every run is safe. */
  lemma {:induction false} RunsAreSafe(r: Run)
    ensures Safe(End(r))
  {
    match r
    case Start(clientMax, serverMax) => InitIsSafe(End(r), clientMax, serverMax);
    case Then(before, m) =>
      RunsAreSafe(before);
      if CanMove(End(before), m) {
        NextKeepsSafe(End(before), m);
      }
  }

  lemma {:induction false} InitIsSafe(w: World, clientMax: int, serverMax: int)
    requires w == Init(clientMax, serverMax)
    ensures Safe(w)
  {
    FreshIsNew(w.client, clientMax);
    FreshIsNew(w.server, serverMax);
    NewIsSafe(w);
  }

  /** Nothing was staged, received or attached yet. */
  ghost predicate IsNew(e: Endpoint) {
    && e.wt.None? && e.rt.None? && e.attached.None? && e.pc.OffTop? && !e.failed
    && e.staged == [] && e.delivered == [] && e.acks.Valid() && e.acks.lastRecv == 0
    && e.w.nextSend == e.w.log.lastAcked == 0 && e.w.log.kept == [] && e.w.held.None?
  }

  lemma {:induction false} FreshIsNew(e: Endpoint, max: int)
    requires e == Fresh(max)
    ensures IsNew(e)
  {}

  lemma {:induction false} NewIsSafe(w: World)
    requires IsNew(w.client) && IsNew(w.server) && w.toServer == [] && w.toClient == []
    ensures Safe(w)
  {
    assert w.client.staged[..0] == [];
  }

  ghost predicate Delivers(w: World) {
    && w.server.delivered <= w.client.staged && |w.server.delivered| == w.server.acks.lastRecv
    && w.client.delivered <= w.server.staged && |w.client.delivered| == w.client.acks.lastRecv
  }

  lemma {:induction false} SafeDelivers(w: World)
    requires Safe(w)
    ensures Delivers(w)
  {
    assert Directed(w.View(true), w.server);
    assert Directed(w.View(false), w.client);
  }

  /** Exactly-once, in-order delivery: in every run, with any cuts, stale resume values and reattaches, the
      frames each side accepted are a prefix of the frames the other side staged. */
  lemma {:induction false} DeliveredIsPrefix(r: Run)
    ensures Delivers(End(r))
  {
    RunsAreSafe(r);
    SafeDelivers(End(r));
  }

  /** A frame is refused only if it is larger than the whole replay buffer may be. */
  ghost predicate RefusesOnlyForSize(w: WriterState, f: Frame) {
    && !w.Outcome(f).AlreadyAcked? && !w.Outcome(f).NotIncreasing?
    && (w.Outcome(f).TooLarge? <==> w.log.maxBytes > 0 && w.log.SizeOf(f) > w.log.maxBytes)
  }

  lemma {:induction false} LocalRefusal(e: Endpoint, f: Frame)
    requires Local(e)
    ensures !e.failed && RefusesOnlyForSize(e.w, f)
  {
    StageRejectsOnlyTooLarge(e.w, e.staged, f);
  }

  /** No sequence error is ever raised by a reader or by staging. */
  lemma {:induction false} NoSequenceErrors(r: Run, w: World, f: Frame)
    requires w == End(r)
    ensures !w.client.failed && RefusesOnlyForSize(w.client.w, f)
    ensures !w.server.failed && RefusesOnlyForSize(w.server.w, f)
  {
    RunsAreLocal(r);
    LocalRefusal(w.client, f);
    LocalRefusal(w.server, f);
  }

  /** Staging in every run: what becomes of a frame depends on the cap and on the bytes not acknowledged only. */
  lemma {:induction false} StagingIsExact(r: Run, w: World, f: Frame)
    requires w == End(r)
    ensures StagesExactly(w.client, f) && StagesExactly(w.server, f)
  {
    RunsAreLocal(r);
    LocalStages(w.client, f);
    LocalStages(w.server, f);
  }

  ghost predicate StagesExactly(e: Endpoint, f: Frame) {
    e.w.log.lastAcked <= |e.staged| && ExactOutcome(e.w, e.staged, f)
  }

  lemma {:induction false} LocalStages(e: Endpoint, f: Frame)
    requires Local(e)
    ensures StagesExactly(e, f)
  {
    OutcomeIsExact(e.w, e.staged, f);
  }

  lemma {:induction false} RunsAreLocal(r: Run)
    ensures Local(End(r).client) && Local(End(r).server)
  {
    RunsAreSafe(r);
  }

  /** A side that processes CLOSE has accepted everything its peer ever staged. */
  ghost predicate CloseMeansComplete(w: World) {
    && (w.server.sawClose ==> w.client.pc.Done? && w.server.delivered == w.client.staged)
    && (w.client.sawClose ==> w.server.pc.Done? && w.client.delivered == w.server.staged)
  }

  /** An ended writer stages nothing more. */
  lemma {:induction false} EndIsFinal(s: Sys, a: Act, isClient: bool)
    requires Enabled(s, a, isClient) && s.e.pc.Done? && s.e.wt.None?
    ensures Do(s, a, isClient).e.pc.Done? && Do(s, a, isClient).e.staged == s.e.staged
  {
    match a
    case Signal =>
    case Read(every, delay, at) => ReadIsApart(s, every, delay, at);
    case Attach(_) =>
    case Detach =>
    case Switch =>
    case Shutdown =>
    case Dial =>
    case Report(_) =>
    case Cut(_, _) =>
    case _ =>
  }

  lemma {:induction false} ReadIsApart(s: Sys, every: nat, delay: int, at: nat)
    requires s.e.rt.Some? && s.e.rt.value < |s.inn| && s.inn[s.e.rt.value].frames != []
    ensures DoRead(s, every, delay, at).e.pc == s.e.pc && DoRead(s, every, delay, at).e.staged == s.e.staged
  {}

  /** Only the reader meets CLOSE and accepts frames, and it ends with CLOSE. */
  lemma {:induction false} OnlyReaderReceives(s: Sys, a: Act, isClient: bool)
    requires Enabled(s, a, isClient) && !a.Read?
    ensures Do(s, a, isClient).e.sawClose == s.e.sawClose && Do(s, a, isClient).e.delivered == s.e.delivered
  {
    match a
    case TakeAck(_, _) =>
    case Resume(_) =>
    case Live(f, ok) => LiveReceivesNone(s, f, ok);
    case LiveHeld(ok) => LiveReceivesNone(s, s.e.w.held.value, ok);
    case WriteClose =>
    case Timeout(_, _) =>
    case _ =>
  }

  lemma {:induction false} LiveReceivesNone(s: Sys, f: Frame, ok: bool)
    requires s.e.wt.Some? && s.e.wt.value < |s.out|
    ensures DoLive(s, f, ok).e.sawClose == s.e.sawClose && DoLive(s, f, ok).e.delivered == s.e.delivered
  {}

  lemma {:induction false} CloseStep(w: World, m: Move)
    requires Safe(w) && CanMove(w, m) && CloseMeansComplete(w)
    ensures CloseMeansComplete(Next(w, m))
  {
    var s := w.View(m.isClient);
    if s.e.pc.Done? {
      EndIsFinal(s, m.act, m.isClient);
    }
    if m.act.Read? {
      NoFalseGap(s, s.e.rt.value, w.Peer(m.isClient));
      ReadIsApart(s, m.act.every, m.act.delay, m.act.at);
    } else {
      OnlyReaderReceives(s, m.act, m.isClient);
    }
  }

  lemma {:induction false} CloseImpliesCompleteDelivery(r: Run)
    ensures CloseMeansComplete(End(r))
  {
    if r.Then? {
      CloseImpliesCompleteDelivery(r.before);
      if CanMove(End(r.before), r.move) {
        RunsAreSafe(r.before);
        CloseStep(End(r.before), r.move);
      }
    }
  }
}
