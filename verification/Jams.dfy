/** What becomes of a stuck sender. With room for another frame it recovers: the ACK for that frame covers the missed
    one. Without room it is jammed: it takes no further frame, so its peer owes no further ACK, and nothing but a new
    transport ends that. */
module Jams {

  import opened Prelude
  import opened Replay
  import opened Writer
  import opened Acks
  import opened Protocol
  import opened Safety
  import opened Quiescence

  /** `r'` goes on from `r` without attaching a transport on side `isClient`. */
  ghost predicate Continues(r: Run, r': Run, isClient: bool) {
    r' == r || (r'.Then? && Continues(r, r'.before, isClient) && !(r'.move.isClient == isClient && r'.move.act.Attach?))
  }

  ghost predicate GoesOn(r: Run, r': Run) { r' == r || (r'.Then? && GoesOn(r, r'.before)) }

  const SMALLEST := Frame(0, 0, [])

  /** There is room for some frame. */
  predicate Roomy(log: Log) { log.Fits(SMALLEST) }

  /** The writer can stage neither the frame it holds nor, if it holds none, any other. */
  predicate NoRoom(w: WriterState) { (w.held.Some? && !w.log.Fits(w.held.value)) || !Roomy(w.log) }

  ghost predicate AckFree(frames: seq<Wire>) { forall i :: 0 <= i < |frames| ==> !frames[i].AckUpTo? }

  /** A stuck endpoint without room, whose peer received and acknowledged all of it, and which neither reads an ACK
      on its transport `t` nor learns anything by taking it over again. */
  ghost predicate Jammed(s: Sys, p: Endpoint, t: nat) {
    && Stuck(s.e) && NoRoom(s.e.w)
    && p.acks.lastRecv == p.acks.lastAckSent == s.e.w.nextSend
    && (s.e.attached.None? || s.e.attached == Some(t)) && s.e.rt == Some(t) && t < |s.inn|
    && AckFree(s.inn[t].frames)
    && s.e.resumeAt <= s.e.w.log.lastAcked
  }

  // ---------------------------------------------------------------- a jam lasts

  /** Without room, staging keeps the log, and a frame that was held stays held. */
  lemma {:induction false} StageJams(w: WriterState, staged: seq<Frame>, f: Frame)
    requires w.Tracks(staged) && NoRoom(w) && w.held in {None, Some(f)}
    ensures var w0 := w.(held := None);
            && !w0.Outcome(f).Staged? && w0.WriteLive(f) == (w0.Stage(f), [])
            && w0.Stage(f).log == w.log && w0.Stage(f).nextSend == w.nextSend && NoRoom(w0.Stage(f))
  {
    assert !w.log.Fits(f);
  }

  lemma {:induction false} LiveJams(s: Sys, f: Frame, ok: bool, p: Endpoint, t: nat)
    requires Good(s, p) && Jammed(s, p, t) && s.e.wt.Some? && s.e.w.held in {None, Some(f)}
    ensures Jammed(DoLive(s, f, ok), p, t) && DoLive(s, f, ok).e.staged == s.e.staged
  {
    StageJams(s.e.w, s.e.staged, f);
  }

  lemma {:induction false} ReadJams(s: Sys, a: Act, isClient: bool, p: Endpoint, t: nat)
    requires Good(s, p) && Jammed(s, p, t) && Enabled(s, a, isClient) && a.Read?
    ensures Jammed(Do(s, a, isClient), p, t) && Do(s, a, isClient).e.staged == s.e.staged
  {
    NoFalseGap(s, t, p);
    var m := s.inn[t].frames[0];
    assert !m.AckUpTo?;
  }

  lemma {:induction false} WriteJams(s: Sys, a: Act, isClient: bool, p: Endpoint, t: nat)
    requires Jammed(s, p, t) && Enabled(s, a, isClient) && (a.TakeAck? || a.Resume? || a.Timeout? || a.WriteClose?)
    ensures Jammed(Do(s, a, isClient), p, t) && Do(s, a, isClient).e.staged == s.e.staged
  {
    match a
    case TakeAck(_, ok) => EmitJams(s, s.e.TakenAck(), [AckUpTo(s.e.acks.lastRecv)], ok, p, t);
    case Resume(ok) =>
      var (w', ws) := s.e.w.WriteResume();
      var e' := s.e.(w := if ok || ws == [] then w' else w'.(lastSent := s.e.w.lastSent), pc := Top);
      EmitJams(s, e', ws, ok || ws == [], p, t);
    case Timeout(ping, ok) => EmitJams(s, s.e.(pc := Top), if ping then [Ping] else [], ok, p, t);
    case WriteClose => EmitJams(s, s.e, [Close], true, p, t);
  }

  /** Writing something that is staged already. */
  lemma {:induction false} EmitJams(s: Sys, e': Endpoint, ws: seq<Wire>, ok: bool, p: Endpoint, t: nat)
    requires Jammed(s, p, t) && e'.wt.Some? && e'.wt.value < |s.out| && |ws| <= 1
    requires e'.w.log == s.e.w.log && e'.w.held == s.e.w.held && e'.w.nextSend == s.e.w.nextSend
    requires e'.staged == s.e.staged && e'.attached == s.e.attached && e'.rt == s.e.rt && e'.resumeAt == s.e.resumeAt
    ensures Jammed(Emit(s, e', ws, ok), p, t) && Emit(s, e', ws, ok).e.staged == s.e.staged
  {
  }

  lemma {:induction false} LinkJams(s: Sys, a: Act, isClient: bool, p: Endpoint, t: nat)
    requires Jammed(s, p, t) && Enabled(s, a, isClient)
    requires a.Detach? || a.Switch? || a.Shutdown? || a.Dial? || a.Report? || a.Cut?
    ensures Jammed(Do(s, a, isClient), p, t) && Do(s, a, isClient).e.staged == s.e.staged
  {
  }

  lemma {:induction false} LoopJams(s: Sys, a: Act, isClient: bool, p: Endpoint, t: nat)
    requires Jammed(s, p, t) && Enabled(s, a, isClient)
    requires a.Leave? || a.PassAck? || a.Park? || a.GiveUp? || a.Idle? || a.Wake? || a.Signal? || a.Begin?
    ensures Jammed(Do(s, a, isClient), p, t) && Do(s, a, isClient).e.staged == s.e.staged
  {
  }

  lemma {:induction false} OwnJams(s: Sys, a: Act, isClient: bool, p: Endpoint, t: nat)
    requires Good(s, p) && Jammed(s, p, t) && Enabled(s, a, isClient) && !a.Attach?
    ensures Jammed(Do(s, a, isClient), p, t) && Do(s, a, isClient).e.staged == s.e.staged
  {
    if a.Read? {
      ReadJams(s, a, isClient, p, t);
    } else if a.Live? {
      LiveJams(s, a.f, a.ok, p, t);
    } else if a.LiveHeld? {
      LiveJams(s, s.e.w.held.value, a.ok, p, t);
    } else if a.StageOff? {
      StageJams(s.e.w, s.e.staged, a.f);
    } else if a.TakeAck? || a.Resume? || a.Timeout? || a.WriteClose? {
      WriteJams(s, a, isClient, p, t);
    } else if a.Detach? || a.Switch? || a.Shutdown? || a.Dial? || a.Report? || a.Cut? {
      LinkJams(s, a, isClient, p, t);
    } else {
      LoopJams(s, a, isClient, p, t);
    }
  }

  /** Everything that the peer reads is a duplicate, and it has acknowledged everything: it owes no ACK. */
  lemma {:induction false} PeerReads(q: Sys, a: Act, isClient: bool, e: Endpoint)
    requires Good(q, e) && Enabled(q, a, isClient) && a.Read?
    requires q.e.acks.lastRecv == q.e.acks.lastAckSent == |e.staged|
    ensures Do(q, a, isClient).e.acks == q.e.acks && Do(q, a, isClient).out == q.out
  {
    NoFalseGap(q, q.e.rt.value, e);
  }

  /** So it writes none. */
  lemma {:induction false} PeerWrites(q: Sys, a: Act, isClient: bool, t: nat)
    requires Enabled(q, a, isClient) && !a.Read? && q.e.acks.lastRecv == q.e.acks.lastAckSent
    requires t < |q.out| && AckFree(q.out[t].frames)
    ensures t < |Do(q, a, isClient).out| && AckFree(Do(q, a, isClient).out[t].frames)
    ensures Do(q, a, isClient).e.acks == q.e.acks
  {
    if a.Live? {
      LiveWritesNoAck(q, a.f, a.ok, t);
    } else if a.LiveHeld? {
      LiveWritesNoAck(q, q.e.w.held.value, a.ok, t);
    } else if a.Resume? || a.Timeout? || a.WriteClose? {
      OtherWritesNoAck(q, a, isClient, t);
    } else {
      LoopWritesNone(q, a, isClient, t);
    }
  }

  lemma {:induction false} OtherWritesNoAck(q: Sys, a: Act, isClient: bool, t: nat)
    requires Enabled(q, a, isClient) && (a.Resume? || a.Timeout? || a.WriteClose?)
    requires t < |q.out| && AckFree(q.out[t].frames)
    ensures t < |Do(q, a, isClient).out| && AckFree(Do(q, a, isClient).out[t].frames)
    ensures Do(q, a, isClient).e.acks == q.e.acks
  {
    match a
    case Resume(ok) =>
      var (w', ws) := q.e.w.WriteResume();
      var e' := q.e.(w := if ok || ws == [] then w' else w'.(lastSent := q.e.w.lastSent), pc := Top);
      EmitsNoAck(q, e', ws, ok || ws == [], t);
    case Timeout(ping, ok) => EmitsNoAck(q, q.e.(pc := Top), if ping then [Ping] else [], ok, t);
    case WriteClose => EmitsNoAck(q, q.e, [Close], true, t);
  }

  lemma {:induction false} LoopWritesNone(q: Sys, a: Act, isClient: bool, t: nat)
    requires Enabled(q, a, isClient) && q.e.acks.lastRecv == q.e.acks.lastAckSent
    requires !a.Read? && !a.Live? && !a.LiveHeld? && !a.Resume? && !a.Timeout? && !a.WriteClose?
    requires t < |q.out| && AckFree(q.out[t].frames)
    ensures t < |Do(q, a, isClient).out| && AckFree(Do(q, a, isClient).out[t].frames)
    ensures Do(q, a, isClient).e.acks == q.e.acks
  {
  }

  lemma {:induction false} EmitsNoAck(q: Sys, e': Endpoint, ws: seq<Wire>, ok: bool, t: nat)
    requires e'.wt.Some? && e'.wt.value < |q.out| && |ws| <= 1 && AckFree(ws)
    requires t < |q.out| && AckFree(q.out[t].frames)
    ensures t < |Emit(q, e', ws, ok).out| && AckFree(Emit(q, e', ws, ok).out[t].frames)
    ensures Emit(q, e', ws, ok).e.acks == e'.acks
  {
  }

  lemma {:induction false} LiveWritesNoAck(q: Sys, f: Frame, ok: bool, t: nat)
    requires q.e.wt.Some? && q.e.wt.value < |q.out| && t < |q.out| && AckFree(q.out[t].frames)
    ensures t < |DoLive(q, f, ok).out| && AckFree(DoLive(q, f, ok).out[t].frames)
    ensures DoLive(q, f, ok).e.acks == q.e.acks
  {
    var e := q.e.(w := q.e.w.(held := None));
    var (w', ws) := e.w.WriteLive(f);
    var e' := e.Staging(f);
    var wrote := ok || ws == [];
    var pc' := if w'.held.Some? && q.e.pc.AckChecked? then Full else Top;
    EmitsNoAck(q, e'.(w := if wrote then w' else e'.w, pc := pc'), ws, wrote, t);
  }

  lemma {:induction false} PeerJams(s: Sys, q: Sys, a: Act, isClient: bool, t: nat)
    requires q.out == s.inn && q.inn == s.out && Good(q, s.e) && Jammed(s, q.e, t) && Enabled(q, a, isClient)
    ensures var q' := Do(q, a, isClient); Jammed(Sys(s.e, q'.inn, q'.out), q'.e, t)
  {
    if a.Read? {
      PeerReads(q, a, isClient, s.e);
    } else {
      PeerWrites(q, a, isClient, t);
    }
  }

  lemma {:induction false} NextJams(w: World, m: Move, isClient: bool, t: nat)
    requires Safe(w) && Jammed(w.View(isClient), w.Peer(isClient), t) && CanMove(w, m)
    requires m.isClient == isClient ==> !m.act.Attach?
    ensures Jammed(Next(w, m).View(isClient), Next(w, m).Peer(isClient), t)
    ensures Next(w, m).View(isClient).e.staged == w.View(isClient).e.staged
  {
    if m.isClient == isClient {
      OwnJams(w.View(isClient), m.act, isClient, w.Peer(isClient), t);
    } else {
      PeerJams(w.View(isClient), w.View(m.isClient), m.act, m.isClient, t);
    }
  }

  /** A jam lasts: whatever happens, until its side attaches another transport the sender stays stuck and stages no
      frame. */
  lemma {:induction false} JamLasts(r: Run, r': Run, isClient: bool, t: nat)
    requires Continues(r, r', isClient) && Jammed(End(r).View(isClient), End(r).Peer(isClient), t)
    ensures Jammed(End(r').View(isClient), End(r').Peer(isClient), t)
    ensures End(r').View(isClient).e.staged == End(r).View(isClient).e.staged
    decreases r'
  {
    if r' != r {
      JamLasts(r, r'.before, isClient, t);
      if CanMove(End(r'.before), r'.move) {
        RunsAreSafe(r'.before);
        NextJams(End(r'.before), r'.move, isClient, t);
      }
    }
  }

  // ---------------------------------------------------------------- who jams

  /** What is known of both sides of a quiescent world. */
  ghost predicate AtRest(s: Sys, q: Sys, t: nat) {
    && q.out == s.inn && q.inn == s.out
    && Good(s, q.e) && Good(q, s.e) && Learned(s.e, s.inn)
    && Resting(s, t) && Resting(q, t) && s.e.pc.Blocked? && q.e.pc.Blocked?
    && s.e.wt == Some(t) && q.e.wt == Some(t) && s.e.w.resume == []
    && !s.e.sawClose && !q.e.sawClose
    && q.e.acks.lastRecv == q.e.acks.lastAckSent == s.e.w.nextSend
    && (s.e.w.held.Some? ==> !s.e.w.log.Fits(s.e.w.held.value))
  }

  lemma {:induction false} QuiescentAtRest(r: Run, w: World, t: nat, isClient: bool)
    requires w == End(r) && Quiescent(w, t)
    ensures AtRest(w.View(isClient), w.View(!isClient), t)
  {
    RunsAreSafe(r);
    RunsAreAwake(r);
    RunsAreTracked(r);
    CloseImpliesCompleteDelivery(r);
    RestingHasSentAll(w.View(true), t, w.server);
    RestingHasSentAll(w.View(false), t, w.client);
  }

  lemma {:induction false} RestingJams(s: Sys, q: Sys, t: nat)
    requires AtRest(s, q, t) && Stuck(s.e) && NoRoom(s.e.w)
    ensures Jammed(s, q.e, t)
  {
    assert t in s.e.past.tookOver && Told(s.inn, t);
  }

  // ---------------------------------------------------------------- a later frame

  lemma {:induction false} GoOn(r: Run, m: Move) returns (r': Run)
    requires CanMove(End(r), m)
    ensures r' == Then(r, m)
    ensures var s' := Do(End(r).View(m.isClient), m.act, m.isClient);
            && End(r').View(m.isClient) == s'
            && End(r').View(!m.isClient) == Sys(End(r).View(!m.isClient).e, s'.inn, s'.out)
  {
    r' := Then(r, m);
  }

  /** An endpoint whose reader and writer are on transport `t`. */
  predicate OnBoth(s: Sys, t: nat) {
    && t < |s.out| == |s.inn| && !s.e.closed && !s.e.sawClose
    && s.e.rt == Some(t) && s.e.wt == Some(t)
  }

  lemma {:induction false} RoomStages(w: WriterState, staged: seq<Frame>)
    requires w.Tracks(staged) && w.OnTransport(staged) && w.resume == [] && w.held.None? && Roomy(w.log)
    ensures var (w', out) := w.WriteLive(SMALLEST);
            && w.(held := None) == w && w'.nextSend == w.nextSend + 1 && w'.held.None?
            && out == [Data(w.nextSend + 1, SMALLEST)]
  {
    StageRejectsOnlyTooLarge(w, staged, SMALLEST);
    WriteLiveTracks(w, staged, SMALLEST);
  }

  lemma {:induction false} SendStep(s: Sys, q: Sys, t: nat, isClient: bool)
    requires AtRest(s, q, t) && s.e.w.held.None? && Roomy(s.e.w.log)
    ensures Enabled(s, Live(SMALLEST, true), isClient)
    ensures var s1 := Do(s, Live(SMALLEST, true), isClient);
            && OnBoth(s1, t) && s1.inn == s.inn && s1.e.w.nextSend == s.e.w.nextSend + 1
            && |s1.out| == |s.out| && s1.out[t].frames == [Data(s1.e.w.nextSend, SMALLEST)]
  {
    RoomStages(s.e.w, s.e.staged);
  }

  lemma {:induction false} ReceiveStep(q: Sys, t: nat, n: nat, isClient: bool)
    requires OnBoth(q, t) && q.e.acks.lastRecv + 1 == n && q.inn[t].frames == [Data(n, SMALLEST)]
    ensures Enabled(q, Read(1, 0, 0), isClient)
    ensures var q1 := Do(q, Read(1, 0, 0), isClient);
            && OnBoth(q1, t) && q1.out == q.out && q1.e.pc == q.e.pc && q1.e.owed > 0
            && q1.e.acks.lastRecv == n && q1.e.acks.lastAckSent == q.e.acks.lastAckSent && q1.e.acks.due
  {
  }

  lemma {:induction false} WakeSteps(q: Sys, t: nat, isClient: bool)
    requires OnBoth(q, t) && q.e.pc.Blocked? && q.e.owed > 0
    ensures Enabled(q, Signal, isClient) && Enabled(Do(q, Signal, isClient), Wake, isClient)
    ensures var q2 := Do(Do(q, Signal, isClient), Wake, isClient);
            q2.out == q.out && q2.inn == q.inn && OnBoth(q2, t) && q2.e.pc.Top? && q2.e.acks == q.e.acks
            && q2.e.attached == q.e.attached && q2.e.resumeAt == q.e.resumeAt && q2.e.w == q.e.w && q2.e.staged == q.e.staged
  {
  }

  lemma {:induction false} AnswerStep(q: Sys, t: nat, n: nat, isClient: bool)
    requires OnBoth(q, t) && q.e.pc.Top? && q.e.acks.due && q.e.acks.lastAckSent < q.e.acks.lastRecv == n
    requires q.out[t].frames == [] && !q.out[t].broken
    ensures Enabled(q, TakeAck(0, true), isClient)
    ensures var q1 := Do(q, TakeAck(0, true), isClient);
            |q1.out| == |q.out| && q1.inn == q.inn && q1.out[t].frames == [AckUpTo(n)]
  {
  }

  lemma {:induction false} AckedStep(s: Sys, t: nat, isClient: bool)
    requires OnBoth(s, t) && s.inn[t].frames == [AckUpTo(s.e.w.nextSend)]
    ensures Enabled(s, Read(1, 0, 0), isClient) && !Stuck(Do(s, Read(1, 0, 0), isClient).e)
  {
  }

  lemma {:induction false} ContinuesOn(r: Run, r1: Run, r2: Run, isClient: bool)
    requires Continues(r, r1, isClient) && Continues(r1, r2, isClient)
    ensures Continues(r, r2, isClient)
    decreases r2
  {
    if r2 != r1 {
      ContinuesOn(r, r1, r2.before, isClient);
    }
  }

  lemma {:induction false} PeerWakes(r: Run, t: nat, isClient: bool) returns (r': Run)
    requires var q := End(r).View(!isClient); OnBoth(q, t) && q.e.pc.Blocked? && q.e.owed > 0
    ensures Continues(r, r', isClient) && End(r').View(isClient) == End(r).View(isClient)
    ensures var q, q' := End(r).View(!isClient), End(r').View(!isClient);
            q'.out == q.out && q'.inn == q.inn && OnBoth(q', t) && q'.e.pc.Top? && q'.e.acks == q.e.acks
  {
    WakeSteps(End(r).View(!isClient), t, !isClient);
    var r1 := GoOn(r, Move(!isClient, Signal));
    r' := GoOn(r1, Move(!isClient, Wake));
    assert Continues(r, r1, isClient);
  }

  /** The peer receives a frame and acknowledges it. */
  lemma {:induction false} PeerAnswers(r: Run, t: nat, n: nat, isClient: bool) returns (r': Run)
    requires var q := End(r).View(!isClient);
             && OnBoth(q, t) && q.e.pc.Blocked? && q.e.acks.lastRecv + 1 == n && q.e.acks.lastAckSent < n
             && q.inn[t].frames == [Data(n, SMALLEST)] && q.out[t].frames == [] && !q.out[t].broken
    ensures Continues(r, r', isClient)
    ensures var s, s' := End(r).View(isClient), End(r').View(isClient);
            s'.e == s.e && t < |s'.inn| == |s'.out| && s'.inn[t].frames == [AckUpTo(n)]
  {
    ReceiveStep(End(r).View(!isClient), t, n, !isClient);
    var r1 := GoOn(r, Move(!isClient, Read(1, 0, 0)));
    var r3 := PeerWakes(r1, t, isClient);
    AnswerStep(End(r3).View(!isClient), t, n, !isClient);
    r' := GoOn(r3, Move(!isClient, TakeAck(0, true)));
    assert Continues(r, r1, isClient);
    ContinuesOn(r, r1, r3, isClient);
  }

  /** With room for another frame a stuck sender recovers on its transport: it sends one, and the ACK for that covers
      everything. */
  lemma {:induction false} FrameClears(r: Run, w: World, t: nat, isClient: bool) returns (r': Run)
    requires w == End(r) && Quiescent(w, t)
    requires w.View(isClient).e.w.held.None? && Roomy(w.View(isClient).e.w.log)
    ensures Continues(r, r', isClient) && !Stuck(End(r').View(isClient).e)
  {
    var s, q := w.View(isClient), w.View(!isClient);
    QuiescentAtRest(r, w, t, isClient);
    SendStep(s, q, t, isClient);
    var r1 := GoOn(r, Move(isClient, Live(SMALLEST, true)));
    var r2 := PeerAnswers(r1, t, s.e.w.nextSend + 1, isClient);
    AckedStep(End(r2).View(isClient), t, isClient);
    r' := GoOn(r2, Move(isClient, Read(1, 0, 0)));
    assert Continues(r, r1, isClient);
    ContinuesOn(r, r1, r2, isClient);
  }

  /** The fate of a stuck side, exactly: without attaching another transport it can recover if and only if it holds no
      frame and has room for one. */
  lemma {:induction false} StuckRecoversOnlyWithRoom(r: Run, w: World, t: nat, isClient: bool)
    requires w == End(r) && Quiescent(w, t) && Stuck(w.View(isClient).e)
    ensures (exists r' :: Continues(r, r', isClient) && !Stuck(End(r').View(isClient).e)) <==>
            w.View(isClient).e.w.held.None? && Roomy(w.View(isClient).e.w.log)
  {
    QuiescentAtRest(r, w, t, isClient);
    if w.View(isClient).e.w.held.None? && Roomy(w.View(isClient).e.w.log) {
      var r' := FrameClears(r, w, t, isClient);
    } else {
      RestingJams(w.View(isClient), w.View(!isClient), t);
      forall r' | Continues(r, r', isClient) ensures Stuck(End(r').View(isClient).e) {
        JamLasts(r, r', isClient, t);
      }
    }
  }

  // ---------------------------------------------------------------- a new transport

  /** Taking over a transport for which the peer reported everything ends it: all is acknowledged, and a frame that was
      held has room. */
  lemma {:induction false} ReportClears(s: Sys, p: Endpoint)
    requires Good(s, p) && s.e.attached.Some? && s.e.resumeAt >= s.e.w.nextSend
    ensures var e' := DoBegin(s.e);
            !Stuck(e') && e'.w.log.kept == [] && (e'.w.held.Some? ==> e'.w.log.Fits(e'.w.held.value))
  {
    BeginTracks(s.e.w, s.e.staged, s.e.resumeAt);
    var e' := DoBegin(s.e);
    assert e'.w.log.lastAcked == e'.w.nextSend;
    assert RecordBytes(e'.w.log.kept) == 0;
  }

  /** The client dials transport `u`, and the server reports for it. */
  lemma {:induction false} RedialSteps(r: Run, w: World, t: nat, isClient: bool) returns (r': Run, u: nat)
    requires w == End(r) && AtRest(w.View(isClient), w.View(!isClient), t)
    ensures GoesOn(r, r')
    ensures var s, s' := w.View(isClient), End(r').View(isClient);
            && t < u < |s'.out| == |s'.inn| && s'.out[u].reported.Some?
            && s'.inn[u].reported == Some(s.e.w.nextSend) && (isClient ==> s'.e.dialing == Some(u))
            && s'.e.(dialing := None) == s.e.(dialing := None)
  {
    u := |w.toServer|;
    var r1 := GoOn(r, Move(true, Dial));
    assert End(r1).View(false).out[u].reported.None?;
    r' := GoOn(r1, Move(false, Report(u)));
    assert GoesOn(r, r1);
  }

  lemma {:induction false} AttachSteps(s: Sys, t: nat, u: nat, isClient: bool)
    requires OnBoth(s, t) && t < u < |s.out| && s.out[u].reported.Some? && s.inn[u].reported.Some? && s.e.pc.Blocked?
    requires isClient ==> s.e.dialing == Some(u)
    ensures Enabled(s, Attach(u), isClient)
    ensures var s1 := Do(s, Attach(u), isClient);
            && OnBoth(s1, t) && s1.e.attached == Some(u) && s1.e.resumeAt == s.inn[u].reported.value
            && s1.e.w == s.e.w && s1.e.pc.Blocked? && s1.e.owed > 0
  {
  }

  lemma {:induction false} TakeOverSteps(s: Sys, t: nat, u: nat, isClient: bool)
    requires OnBoth(s, t) && t < u && s.e.attached == Some(u) && s.e.pc.Top?
    ensures Enabled(s, Leave, isClient) && Enabled(Do(s, Leave, isClient), Begin, isClient)
    ensures var s1 := Do(s, Leave, isClient);
            s1.e.attached == s.e.attached && s1.e.resumeAt == s.e.resumeAt && s1.e.w == s.e.w
            && Do(s1, Begin, isClient).e == DoBegin(s1.e)
  {
  }

  /** From every quiescent world a reconnect brings a stuck side back, whether it is jammed or not. */
  lemma {:induction false} ReconnectClears(r: Run, w: World, t: nat, isClient: bool) returns (r': Run)
    requires w == End(r) && Quiescent(w, t)
    ensures GoesOn(r, r')
    ensures var e := End(r').View(isClient).e;
            !Stuck(e) && e.w.log.kept == [] && (e.w.held.Some? ==> e.w.log.Fits(e.w.held.value))
  {
    QuiescentAtRest(r, w, t, isClient);
    var r1, u := RedialSteps(r, w, t, isClient);
    AttachSteps(End(r1).View(isClient), t, u, isClient);
    var r2 := GoOn(r1, Move(isClient, Attach(u)));
    WakeSteps(End(r2).View(isClient), t, isClient);
    var r3 := GoOn(r2, Move(isClient, Signal));
    assert GoesOn(r, r2) && GoesOn(r, r3);
    r3 := GoOn(r3, Move(isClient, Wake));
    assert GoesOn(r, r3);
    TakeOverSteps(End(r3).View(isClient), t, u, isClient);
    var r4 := GoOn(r3, Move(isClient, Leave));
    assert GoesOn(r, r4);
    RunsAreSafe(r4);
    ReportClears(End(r4).View(isClient), End(r4).Peer(isClient));
    r' := GoOn(r4, Move(isClient, Begin));
  }
}
