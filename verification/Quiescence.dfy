/** No stuck sender: when nothing moves any more, everything staged is delivered and, on clean runs, acknowledged.

    Signals are never lost on any run, and an ACK is lost only with its transport. On every run a quiescent side is
    stuck exactly when its peer took its last ACK for another transport, no ACK that high was read, and no transport
    taken over was reported that high. On clean runs this does not happen: a writer takes an ACK only for the
    transport that is attached, and either side attaches a transport only if it took no ACK beyond what it
    reported for it. Each of these rules is needed, see `StuckRuns`. */
module Quiescence {

  import opened Prelude
  import opened Replay
  import opened Writer
  import opened Acks
  import opened Protocol
  import opened Safety

  // ---------------------------------------------------------------- no lost wake-up

  /** Past its ACK check, on its way to a wait or in it. */
  predicate Checked(pc: Pc) { pc.AckChecked? || pc.Full? || pc.Blocked? }

  /** A scheduled ACK ends the wait: its timer is set, unless the delay was over before the wait began. */
  predicate Watched(e: Endpoint) {
    e.pc.Blocked? && e.acks.dueAt != 0 ==> e.Signalled() || e.timer == e.acks.dueAt || e.acks.dueAt <= e.parkedAt
  }

  /** A writer that waits, or has made its checks, overlooks nothing without a signal: a new transport, a lost
      one, an ACK that is due or scheduled, or room for the frame it holds. */
  ghost predicate Awake(e: Endpoint) {
    && (e.pc.OffWait? && e.attached.Some? ==> e.Signalled())
    && (Checked(e.pc) && (e.attached != e.wt || e.acks.due) ==> e.Signalled())
    && (e.pc.Full? || e.pc.Blocked? ==> e.w.resume == [])
    && ((e.pc.Full? || e.pc.Blocked?) && e.w.held.Some? && e.w.log.Fits(e.w.held.value) ==> e.Signalled())
    && Watched(e)
  }

  lemma {:induction false} HandleAwake(e: Endpoint, m: Wire, every: nat, delay: int, at: nat)
    requires e.acks.Valid() && Awake(e) && (m.Data? ==> 1 <= m.seqNo <= e.acks.lastRecv + 1)
    ensures Awake(Handle(e, m, every, delay, at))
  {
    if m.Data? {
      NoteReceivedKeepsAccounting(e.acks, m.seqNo, every, delay, at);
    }
  }

  lemma {:induction false} ReadAwake(s: Sys, every: nat, delay: int, at: nat, isClient: bool, p: Endpoint)
    requires Good(s, p) && Enabled(s, Read(every, delay, at), isClient) && Awake(s.e)
    ensures Awake(Do(s, Read(every, delay, at), isClient).e)
  {
    NoFalseGap(s, s.e.rt.value, p);
    HandleAwake(s.e, s.inn[s.e.rt.value].frames[0], every, delay, at);
  }

  /** A live frame leaves the writer to wait only with a frame that has no room. */
  lemma {:induction false} LiveShape(s: Sys, f: Frame, ok: bool)
    requires s.e.wt.Some? && s.e.wt.value < |s.out| && s.e.w.resume == []
    ensures var e' := DoLive(s, f, ok).e;
            || e'.pc.Top? || e'.pc.OffTop?
            || (s.e.pc.AckChecked? && e'.pc.Full? && e'.w.held == Some(f) && !e'.w.log.Fits(f) && e'.w.resume == []
                && e'.attached == s.e.attached && e'.wt == s.e.wt && e'.acks == s.e.acks
                && e'.Signalled() == s.e.Signalled())
  {
    var e := s.e.(w := s.e.w.(held := None));
    if e.w.Outcome(f).Held? {
      assert e.w.WriteLive(f) == (e.w.Stage(f), []);
    } else {
      assert e.w.WriteLive(f).0.held.None?;
    }
  }

  lemma {:induction false} LiveAwake(s: Sys, f: Frame, ok: bool)
    requires s.e.wt.Some? && s.e.wt.value < |s.out| && s.e.w.resume == [] && Awake(s.e)
    ensures Awake(DoLive(s, f, ok).e)
  {
    LiveShape(s, f, ok);
  }

  lemma {:induction false} WriteAwake(s: Sys, a: Act, isClient: bool)
    requires Enabled(s, a, isClient) && Awake(s.e) && (a.TakeAck? || a.Resume? || a.Timeout? || a.WriteClose?)
    ensures Awake(Do(s, a, isClient).e)
  {
  }

  lemma {:induction false} LoopAwake(s: Sys, a: Act, isClient: bool)
    requires Enabled(s, a, isClient) && Awake(s.e)
    requires a.Leave? || a.PassAck? || a.Park? || a.GiveUp? || a.Idle? || a.Wake? || a.Signal? || a.StageOff? || a.Begin?
    ensures Awake(Do(s, a, isClient).e)
  {
  }

  lemma {:induction false} LinkAwake(s: Sys, a: Act, isClient: bool)
    requires Enabled(s, a, isClient) && (s.e.closed || Awake(s.e))
    requires a.Attach? || a.Detach? || a.Switch? || a.Shutdown? || a.Dial? || a.Report? || a.Cut?
    ensures var e' := Do(s, a, isClient).e; e'.closed || Awake(e')
  {
  }

  lemma {:induction false} MoveAwake(s: Sys, a: Act, isClient: bool, p: Endpoint)
    requires Good(s, p) && Enabled(s, a, isClient) && (s.e.closed || Awake(s.e))
    ensures var e' := Do(s, a, isClient).e; e'.closed || Awake(e')
  {
    if a.Read? {
      ReadAwake(s, a.every, a.delay, a.at, isClient, p);
    } else if a.Live? {
      LiveAwake(s, a.f, a.ok);
    } else if a.LiveHeld? {
      LiveAwake(s, s.e.w.held.value, a.ok);
    } else if a.TakeAck? || a.Resume? || a.Timeout? || a.WriteClose? {
      WriteAwake(s, a, isClient);
    } else if a.Attach? || a.Detach? || a.Switch? || a.Shutdown? || a.Dial? || a.Report? || a.Cut? {
      LinkAwake(s, a, isClient);
    } else {
      LoopAwake(s, a, isClient);
    }
  }

  /** The exception of `Watched` is real: whenever the delay of a scheduled ACK ends between the ACK check and the
      wait, the writer waits without a timer for it. */
  lemma {:induction false} TimerCanBeMissed(s: Sys, isClient: bool)
    requires Enabled(s, PassAck(0), isClient) && s.e.acks.dueAt != 0 && !s.e.Signalled()
    requires s.e.w.resume == [] && s.e.w.held.None?
    ensures var due := s.e.acks.dueAt;
            && Enabled(s, PassAck(due - 1), isClient)
            && var s1 := Do(s, PassAck(due - 1), isClient);
            && Enabled(s1, Park(due), isClient)
            && var e2 := Do(s1, Park(due), isClient).e;
            e2.pc.Blocked? && e2.timer == 0 && e2.acks.dueAt == due && !e2.Signalled()
  {
  }

  /** Even then the heartbeat brings the writer back, and it takes the ACK. */
  lemma {:induction false} HeartbeatTakesAck(s: Sys, isClient: bool, p: Endpoint, now: nat)
    requires Good(s, p) && !s.e.closed && s.e.pc.Blocked?
    requires s.e.acks.dueAt != 0 && s.e.acks.dueAt <= now
    ensures Enabled(s, Timeout(true, true), isClient)
    ensures var s1 := Do(s, Timeout(true, true), isClient);
            && Enabled(s1, TakeAck(now, true), isClient)
            && Do(s1, TakeAck(now, true), isClient).e.acks.lastAckSent == s.e.acks.lastRecv
  {
    TakeReturnsReadyAck(s.e.acks, now);
  }

  // ---------------------------------------------------------------- where an acknowledgement is

  ghost function MaxAck(frames: seq<Wire>): nat {
    if frames == [] then 0
    else var rest := MaxAck(frames[1..]);
         if frames[0].AckUpTo? && frames[0].seqNo > rest then frames[0].seqNo else rest
  }

  lemma {:induction false} MaxAckAppend(frames: seq<Wire>, m: Wire)
    ensures MaxAck(frames + [m]) == if m.AckUpTo? && m.seqNo > MaxAck(frames) then m.seqNo else MaxAck(frames)
  {
    if frames != [] {
      MaxAckAppend(frames[1..], m);
      assert (frames + [m])[1..] == frames[1..] + [m];
    }
  }

  /** A channel that can still deliver an ACK of `last` or more, or is broken. */
  ghost predicate Carries(c: Channel, last: nat) { c.broken || last <= MaxAck(c.frames) }

  /** The last ACK taken was taken for transport `on`: unless that broke, the ACK has arrived or is on its way. */
  ghost predicate Travels(out: seq<Channel>, on: Option<nat>, last: nat, acked: nat) {
    && (last > 0 ==> on.Some?)
    && (on.Some? ==> on.value < |out| && (last <= acked || Carries(out[on.value], last)))
  }

  lemma {:induction false} EmitCarries(s: Sys, e': Endpoint, ws: seq<Wire>, ok: bool, u: nat, last: nat)
    requires e'.wt.Some? && e'.wt.value < |s.out| && |ws| <= 1 && u < |s.out|
    requires Carries(s.out[u], last) || (e'.wt == Some(u) && ws == [AckUpTo(last)])
    ensures u < |Emit(s, e', ws, ok).out| && Carries(Emit(s, e', ws, ok).out[u], last)
  {
    if ok && ws != [] && e'.wt == Some(u) && !s.out[u].broken {
      MaxAckAppend(s.out[u].frames, ws[0]);
    }
  }

  lemma {:induction false} LiveCarries(s: Sys, f: Frame, ok: bool, u: nat, last: nat)
    requires s.e.wt.Some? && s.e.wt.value < |s.out| && u < |s.out| && Carries(s.out[u], last)
    ensures u < |DoLive(s, f, ok).out| && Carries(DoLive(s, f, ok).out[u], last)
  {
    var e := s.e.(w := s.e.w.(held := None));
    var (w', ws) := e.w.WriteLive(f);
    var e' := e.Staging(f);
    var wrote := ok || ws == [];
    var pc' := if w'.held.Some? && s.e.pc.AckChecked? then Full else Top;
    EmitCarries(s, e'.(w := if wrote then w' else e'.w, pc := pc'), ws, wrote, u, last);
  }

  lemma {:induction false} WriteCarries(s: Sys, a: Act, isClient: bool, u: nat, last: nat)
    requires Enabled(s, a, isClient) && u < |s.out| && Carries(s.out[u], last)
    requires a.TakeAck? || a.Resume? || a.Timeout? || a.WriteClose?
    ensures u < |Do(s, a, isClient).out| && Carries(Do(s, a, isClient).out[u], last)
  {
    match a
    case TakeAck(_, ok) => EmitCarries(s, s.e.TakenAck(), [AckUpTo(s.e.acks.lastRecv)], ok, u, last);
    case Resume(ok) =>
      var (w', ws) := s.e.w.WriteResume();
      var e' := s.e.(w := if ok || ws == [] then w' else w'.(lastSent := s.e.w.lastSent), pc := Top);
      EmitCarries(s, e', ws, ok || ws == [], u, last);
    case Timeout(ping, ok) => EmitCarries(s, s.e.(pc := Top), if ping then [Ping] else [], ok, u, last);
    case WriteClose => EmitCarries(s, s.e, [Close], true, u, last);
  }

  /** No move of the writing side takes an ACK off its way, unless it breaks the channel. */
  lemma {:induction false} OwnCarries(s: Sys, a: Act, isClient: bool, u: nat, last: nat)
    requires Enabled(s, a, isClient) && u < |s.out| && Carries(s.out[u], last)
    ensures u < |Do(s, a, isClient).out| && Carries(Do(s, a, isClient).out[u], last)
  {
    if a.Live? {
      LiveCarries(s, a.f, a.ok, u, last);
    } else if a.LiveHeld? {
      LiveCarries(s, s.e.w.held.value, a.ok, u, last);
    } else if a.TakeAck? || a.Resume? || a.Timeout? || a.WriteClose? {
      WriteCarries(s, a, isClient, u, last);
    }
  }

  lemma {:induction false} LiveSteady(s: Sys, f: Frame, ok: bool)
    requires s.e.wt.Some? && s.e.wt.value < |s.out|
    ensures var e' := DoLive(s, f, ok).e;
            && e'.past == s.e.past && e'.acks == s.e.acks && (e'.wt.Some? ==> e'.wt == s.e.wt)
            && (e'.attached.None? || e'.attached == s.e.attached)
  {
  }

  /** Only taking an ACK changes what was taken and for which transport. */
  lemma {:induction false} TakenSteady(s: Sys, a: Act, isClient: bool)
    requires Enabled(s, a, isClient) && !a.TakeAck? && !a.Read?
    ensures var e' := Do(s, a, isClient).e;
            e'.past.ackOn == s.e.past.ackOn && e'.acks.lastAckSent == s.e.acks.lastAckSent
  {
    match a
    case Live(f, ok) => LiveSteady(s, f, ok);
    case LiveHeld(ok) => LiveSteady(s, s.e.w.held.value, ok);
    case Resume(_) =>
    case Timeout(_, _) =>
    case _ =>
  }

  lemma {:induction false} NoteTakesNone(s: AckState, seqNo: nat, every: nat, delay: int, at: nat)
    ensures s.NoteReceived(seqNo, every, delay, at).0.lastAckSent == s.lastAckSent
  {
  }

  lemma {:induction false} HandleTakesNone(e: Endpoint, m: Wire, every: nat, delay: int, at: nat)
    ensures var e' := Handle(e, m, every, delay, at);
            && e'.past.ackOn == e.past.ackOn && e'.acks.lastAckSent == e.acks.lastAckSent && e'.wt == e.wt
            && e'.past.tookOver == e.past.tookOver && (e'.attached == e.attached || e'.attached.None?)
  {
    match m
    case Data(seqNo, _) => NoteTakesNone(e.acks, seqNo, every, delay, at);
    case AckUpTo(_) =>
    case _ =>
  }

  lemma {:induction false} MoveTravels(s: Sys, a: Act, isClient: bool, acked: nat)
    requires Enabled(s, a, isClient) && Travels(s.out, s.e.past.ackOn, s.e.acks.lastAckSent, acked)
    ensures var s' := Do(s, a, isClient); Travels(s'.out, s'.e.past.ackOn, s'.e.acks.lastAckSent, acked)
  {
    if a.TakeAck? {
      EmitCarries(s, s.e.TakenAck(), [AckUpTo(s.e.acks.lastRecv)], a.ok, s.e.wt.value, s.e.acks.lastRecv);
    } else {
      if a.Read? {
        HandleTakesNone(s.e, s.inn[s.e.rt.value].frames[0], a.every, a.delay, a.at);
      } else {
        TakenSteady(s, a, isClient);
      }
      var on, last := s.e.past.ackOn, s.e.acks.lastAckSent;
      if on.Some? && Carries(s.out[on.value], last) {
        OwnCarries(s, a, isClient, on.value, last);
      } else if on.Some? {
        OwnCarries(s, a, isClient, on.value, 0);
      }
    }
  }

  // ---------------------------------------------------------------- how a side learns of an acknowledgement

  ghost predicate Told(inn: seq<Channel>, v: nat) { v < |inn| && inn[v].reported.Some? }

  /** What a side counts as acknowledged is what it read in an ACK, or what its peer reported for a transport that
      its writer took over. */
  ghost predicate Learned(e: Endpoint, inn: seq<Channel>) {
    && (e.wt.Some? ==> e.wt.value in e.past.tookOver)
    && MaxAck(e.past.read) <= e.w.log.lastAcked
    && (forall v :: v in e.past.tookOver ==> Told(inn, v) && inn[v].reported.value <= e.w.log.lastAcked)
    && (e.w.log.lastAcked <= MaxAck(e.past.read)
        || exists v :: v in e.past.tookOver && Told(inn, v) && e.w.log.lastAcked <= inn[v].reported.value)
  }

  /** Reports stay, so what was learned stays explained. */
  lemma {:induction false} LearnedGrows(e: Endpoint, e': Endpoint, inn: seq<Channel>, inn': seq<Channel>)
    requires Learned(e, inn) && |inn| <= |inn'|
    requires forall v :: 0 <= v < |inn| && inn[v].reported.Some? ==> inn'[v].reported == inn[v].reported
    requires e'.past.tookOver == e.past.tookOver && (e'.wt.Some? ==> e'.wt == e.wt)
    requires MaxAck(e.past.read) <= MaxAck(e'.past.read) <= e'.w.log.lastAcked && e.w.log.lastAcked <= e'.w.log.lastAcked
    requires e'.w.log.lastAcked == e.w.log.lastAcked || e'.w.log.lastAcked <= MaxAck(e'.past.read)
    ensures Learned(e', inn')
  {
    if e'.w.log.lastAcked == e.w.log.lastAcked && e.w.log.lastAcked > MaxAck(e.past.read) {
      var v :| v in e.past.tookOver && Told(inn, v) && e.w.log.lastAcked <= inn[v].reported.value;
      assert Told(inn', v);
    }
    forall v | v in e'.past.tookOver ensures Told(inn', v) && inn'[v].reported.value <= e'.w.log.lastAcked {
      assert Told(inn, v);
    }
  }

  lemma {:induction false} BeginLearned(s: Sys, p: Endpoint)
    requires Good(s, p) && s.e.attached.Some? && Learned(s.e, s.inn)
    ensures Learned(DoBegin(s.e), s.inn)
  {
    var t := s.e.attached.value;
    assert Backward(s.inn[t], p.acks.lastRecv);
    assert Told(s.inn, t);
    BeginTracks(s.e.w, s.e.staged, s.e.resumeAt);
    var e' := DoBegin(s.e);
    assert e'.w.log.lastAcked == if s.e.resumeAt > s.e.w.log.lastAcked then s.e.resumeAt else s.e.w.log.lastAcked;
    if e'.w.log.lastAcked == s.e.w.log.lastAcked && s.e.w.log.lastAcked > MaxAck(s.e.past.read) {
      var v :| v in s.e.past.tookOver && Told(s.inn, v) && s.e.w.log.lastAcked <= s.inn[v].reported.value;
      assert v in e'.past.tookOver;
    }
    assert t in e'.past.tookOver;
  }

  /** Only the reader and a dial touch the channels this side reads from. */
  lemma {:induction false} InnSteady(s: Sys, a: Act, isClient: bool)
    requires Enabled(s, a, isClient) && !a.Read? && !a.Dial?
    ensures Do(s, a, isClient).inn == s.inn
  {
  }

  lemma {:induction false} StageKeepsAcked(w: WriterState, f: Frame)
    ensures w.Stage(f).log.lastAcked == w.log.lastAcked && w.WriteLive(f).0.log.lastAcked == w.log.lastAcked
  {
  }

  /** Only taking over a transport and reading ACKs acknowledge frames. */
  lemma {:induction false} AckedSteady(s: Sys, a: Act, isClient: bool)
    requires Enabled(s, a, isClient) && !a.Begin? && !a.Read?
    ensures Do(s, a, isClient).e.w.log.lastAcked == s.e.w.log.lastAcked
  {
    match a
    case StageOff(f) => StageKeepsAcked(s.e.w, f);
    case Live(f, _) => StageKeepsAcked(s.e.w.(held := None), f);
    case LiveHeld(_) => StageKeepsAcked(s.e.w.(held := None), s.e.w.held.value);
    case _ =>
  }

  lemma {:induction false} PastSteady(s: Sys, a: Act, isClient: bool)
    requires Enabled(s, a, isClient) && !a.Begin? && !a.Read?
    ensures var e' := Do(s, a, isClient).e;
            && (e'.wt.Some? ==> e'.wt == s.e.wt)
            && e'.past.tookOver == s.e.past.tookOver && e'.past.read == s.e.past.read
  {
    match a
    case Live(f, ok) => LiveSteady(s, f, ok);
    case LiveHeld(ok) => LiveSteady(s, s.e.w.held.value, ok);
    case TakeAck(_, _) =>
    case Resume(_) =>
    case Timeout(_, _) =>
    case _ =>
  }

  lemma {:induction false} HandleLearns(e: Endpoint, m: Wire, every: nat, delay: int, at: nat)
    ensures Handle(e, m, every, delay, at).past == e.past
    ensures Handle(e, m, every, delay, at).w.log.lastAcked ==
            if m.AckUpTo? && m.seqNo > e.w.log.lastAcked then m.seqNo else e.w.log.lastAcked
  {
    match m
    case AckUpTo(_) =>
    case Data(_, _) =>
    case _ =>
  }

  lemma {:induction false} ReadLearned(s: Sys, a: Act, isClient: bool)
    requires Enabled(s, a, isClient) && a.Read? && Learned(s.e, s.inn)
    ensures Learned(Do(s, a, isClient).e, Do(s, a, isClient).inn)
  {
    var t := s.e.rt.value;
    var m := s.inn[t].frames[0];
    var s' := Do(s, a, isClient);
    HandleLearns(s.e, m, a.every, a.delay, a.at);
    HandleTakesNone(s.e, m, a.every, a.delay, a.at);
    assert forall v :: 0 <= v < |s.inn| ==> s'.inn[v].reported == s.inn[v].reported;
    MaxAckAppend(s.e.past.read, m);
    LearnedGrows(s.e, s'.e, s.inn, s'.inn);
  }

  lemma {:induction false} MoveLearned(s: Sys, a: Act, isClient: bool, p: Endpoint)
    requires Good(s, p) && Enabled(s, a, isClient) && Learned(s.e, s.inn)
    ensures Learned(Do(s, a, isClient).e, Do(s, a, isClient).inn)
  {
    var s' := Do(s, a, isClient);
    if a.Begin? {
      BeginLearned(s, p);
    } else if a.Read? {
      ReadLearned(s, a, isClient);
    } else {
      AckedSteady(s, a, isClient);
      PastSteady(s, a, isClient);
      if a.Dial? {
        assert forall v :: 0 <= v < |s.inn| ==> s'.inn[v] == s.inn[v];
      } else {
        InnSteady(s, a, isClient);
      }
      LearnedGrows(s.e, s'.e, s.inn, s'.inn);
    }
  }

  // ---------------------------------------------------------------- what a move leaves of the peer's view

  /** What was reported stays reported. */
  lemma {:induction false} ReportedSteady(s: Sys, a: Act, isClient: bool, t: nat)
    requires Enabled(s, a, isClient) && t < |s.out| && s.out[t].reported.Some?
    ensures t < |Do(s, a, isClient).out| && Do(s, a, isClient).out[t].reported == s.out[t].reported
  {
    match a
    case Live(_, _) =>
    case LiveHeld(_) =>
    case Resume(_) =>
    case _ =>
  }

  lemma {:induction false} OutGrows(s: Sys, a: Act, isClient: bool)
    requires Enabled(s, a, isClient)
    ensures |s.out| <= |Do(s, a, isClient).out|
  {
  }

  lemma {:induction false} PeerLearned(s: Sys, a: Act, isClient: bool, p: Endpoint)
    requires Enabled(s, a, isClient) && Learned(p, s.out)
    ensures Learned(p, Do(s, a, isClient).out)
  {
    var out' := Do(s, a, isClient).out;
    OutGrows(s, a, isClient);
    forall v | 0 <= v < |s.out| && s.out[v].reported.Some? ensures out'[v].reported == s.out[v].reported {
      ReportedSteady(s, a, isClient, v);
    }
    LearnedGrows(p, p, s.out, out');
  }

  /** An ACK that this side reads becomes known to it. */
  lemma {:induction false} ReadArrives(s: Sys, a: Act, isClient: bool, u: nat, last: nat)
    requires Enabled(s, a, isClient) && a.Read? && u < |s.inn| && Carries(s.inn[u], last)
    ensures var s' := Do(s, a, isClient);
            u < |s'.inn| && (last <= s'.e.w.log.lastAcked || Carries(s'.inn[u], last))
  {
    HandleLearns(s.e, s.inn[s.e.rt.value].frames[0], a.every, a.delay, a.at);
  }

  lemma {:induction false} PeerTravels(s: Sys, a: Act, isClient: bool, p: Endpoint)
    requires Good(s, p) && Enabled(s, a, isClient) && Learned(s.e, s.inn)
    requires Travels(s.inn, p.past.ackOn, p.acks.lastAckSent, s.e.w.log.lastAcked)
    ensures var s' := Do(s, a, isClient);
            Travels(s'.inn, p.past.ackOn, p.acks.lastAckSent, s'.e.w.log.lastAcked)
  {
    var s' := Do(s, a, isClient);
    var on, last := p.past.ackOn, p.acks.lastAckSent;
    if a.Read? {
      HandleLearns(s.e, s.inn[s.e.rt.value].frames[0], a.every, a.delay, a.at);
      if on.Some? && Carries(s.inn[on.value], last) {
        ReadArrives(s, a, isClient, on.value, last);
      }
    } else {
      if a.Begin? {
        BeginTracks(s.e.w, s.e.staged, s.e.resumeAt);
        assert s'.e.w.log.lastAcked >= s.e.w.log.lastAcked;
      } else {
        AckedSteady(s, a, isClient);
      }
      if a.Dial? {
        assert forall v :: 0 <= v < |s.inn| ==> s'.inn[v] == s.inn[v];
      } else {
        InnSteady(s, a, isClient);
      }
    }
  }

  // ---------------------------------------------------------------- every run

  ghost predicate Tracked(w: World) {
    && Travels(w.toServer, w.client.past.ackOn, w.client.acks.lastAckSent, w.server.w.log.lastAcked)
    && Travels(w.toClient, w.server.past.ackOn, w.server.acks.lastAckSent, w.client.w.log.lastAcked)
    && Learned(w.client, w.toClient) && Learned(w.server, w.toServer)
  }

  lemma {:induction false} NextKeepsTracked(w: World, m: Move)
    requires Safe(w) && Tracked(w) && CanMove(w, m)
    ensures Tracked(Next(w, m))
  {
    var s, p := w.View(m.isClient), w.Peer(m.isClient);
    MoveTravels(s, m.act, m.isClient, p.w.log.lastAcked);
    MoveLearned(s, m.act, m.isClient, p);
    PeerTravels(s, m.act, m.isClient, p);
    PeerLearned(s, m.act, m.isClient, p);
  }

  lemma {:induction false} InitIsTracked(w: World, clientMax: int, serverMax: int)
    requires w == Init(clientMax, serverMax)
    ensures Tracked(w)
  {
  }

  /** On every run, an ACK taken has arrived, is on its way, or was lost with its transport. */
  lemma {:induction false} RunsAreTracked(r: Run)
    ensures Tracked(End(r))
  {
    match r
    case Start(clientMax, serverMax) => InitIsTracked(End(r), clientMax, serverMax);
    case Then(before, m) =>
      RunsAreTracked(before);
      if CanMove(End(before), m) {
        RunsAreSafe(before);
        NextKeepsTracked(End(before), m);
      }
  }

  ghost predicate BothAwake(w: World) {
    (w.client.closed || Awake(w.client)) && (w.server.closed || Awake(w.server))
  }

  lemma {:induction false} NextKeepsAwake(w: World, m: Move)
    requires Safe(w) && BothAwake(w) && CanMove(w, m)
    ensures BothAwake(Next(w, m))
  {
    MoveAwake(w.View(m.isClient), m.act, m.isClient, w.Peer(m.isClient));
  }

  lemma {:induction false} FreshIsAwake(maxBytes: int)
    ensures Awake(Fresh(maxBytes))
  {
  }

  /** No wake-up is ever lost, on any run. */
  lemma {:induction false} RunsAreAwake(r: Run)
    ensures BothAwake(End(r))
  {
    match r
    case Start(clientMax, serverMax) =>
      FreshIsAwake(clientMax);
      FreshIsAwake(serverMax);
    case Then(before, m) =>
      RunsAreAwake(before);
      if CanMove(End(before), m) {
        RunsAreSafe(before);
        NextKeepsAwake(End(before), m);
      }
  }

  // ---------------------------------------------------------------- quiescence

  /** Nothing of this endpoint can move by itself on transport `t`: its writer waits, its reader has read
      everything, no signal is pending or owed, and no ACK is scheduled. */
  ghost predicate Resting(s: Sys, t: nat) {
    && t < |s.out| == |s.inn|
    && !s.e.closed && !s.e.pc.Done?
    && s.e.attached == Some(t) && s.e.rt == Some(t)
    && (s.e.pc.Blocked? || s.e.pc.OffWait?)
    && !s.e.Signalled() && s.e.acks.dueAt == 0
    && s.out[t].frames == [] && !s.out[t].broken
  }

  ghost predicate Quiescent(w: World, t: nat) {
    Resting(w.View(true), t) && Resting(w.View(false), t)
  }

  /** A resting endpoint has written all it staged to its transport and owes no ACK. */
  lemma {:induction false} RestingHasSentAll(s: Sys, t: nat, p: Endpoint)
    requires Good(s, p) && Awake(s.e) && Resting(s, t)
    ensures s.e.wt == Some(t) && s.e.pc.Blocked?
    ensures p.acks.lastRecv == |s.e.staged| && p.delivered == s.e.staged
    ensures s.e.acks.lastAckSent == s.e.acks.lastRecv
  {
  }

  /** Some frame of this side is never acknowledged. */
  predicate Stuck(e: Endpoint) { e.w.log.lastAcked < e.w.nextSend }

  /** The history of an ACK that `e` never learns of: its peer `p` took it for another transport than `t`, `e` read
      none as high, and for no transport that `e` took over did `p` report as much. */
  ghost predicate Missed(e: Endpoint, p: Endpoint, inn: seq<Channel>, t: nat) {
    var last := p.acks.lastAckSent;
    && p.past.ackOn.Some? && p.past.ackOn.value != t
    && MaxAck(e.past.read) < last
    && t in e.past.tookOver
    && forall v :: v in e.past.tookOver ==> Told(inn, v) && inn[v].reported.value < last
  }

  lemma {:induction false} StuckMeansMissed(s: Sys, t: nat, p: Endpoint)
    requires Learned(s.e, s.inn) && Travels(s.inn, p.past.ackOn, p.acks.lastAckSent, s.e.w.log.lastAcked)
    requires s.e.wt == Some(t) && t < |s.inn| && s.inn[t].frames == [] && !s.inn[t].broken
    requires p.acks.lastAckSent == s.e.w.nextSend
    ensures Stuck(s.e) <==> Missed(s.e, p, s.inn, t)
  {
    var last := p.acks.lastAckSent;
    if Missed(s.e, p, s.inn, t) && s.e.w.log.lastAcked > MaxAck(s.e.past.read) {
      var v :| v in s.e.past.tookOver && Told(s.inn, v) && s.e.w.log.lastAcked <= s.inn[v].reported.value;
      assert s.inn[v].reported.value < last;
    }
  }

  /** On any run, clean or not, a quiescent world has delivered everything, and a side is stuck exactly when it
      missed its peer's last ACK. */
  lemma {:induction false} QuiescentHasDelivered(r: Run, w: World, t: nat)
    requires w == End(r) && Quiescent(w, t)
    ensures w.server.delivered == w.client.staged && w.client.delivered == w.server.staged
    ensures Stuck(w.client) <==> Missed(w.client, w.server, w.toClient, t)
    ensures Stuck(w.server) <==> Missed(w.server, w.client, w.toServer, t)
  {
    RunsAreAwake(r);
    RunsAreSafe(r);
    RunsAreTracked(r);
    var c, s := w.View(true), w.View(false);
    RestingHasSentAll(c, t, w.server);
    RestingHasSentAll(s, t, w.client);
    StuckMeansMissed(c, t, w.server);
    StuckMeansMissed(s, t, w.client);
  }

  // ---------------------------------------------------------------- clean runs

  datatype Rule = TakesOnlyOnAttached | ServerAttachesCovered | ClientAttachesCovered

  /** This side took no ACK beyond what it reported for transport `t`. */
  predicate CoveredBy(e: Endpoint, out: seq<Channel>, t: nat) {
    t < |out| && out[t].reported.Some? && e.acks.lastAckSent <= out[t].reported.value
  }

  predicate Obeys(rule: Rule, s: Sys, a: Act, isClient: bool) {
    match rule
    case TakesOnlyOnAttached => a.TakeAck? ==> s.e.attached == s.e.wt
    case ServerAttachesCovered => a.Attach? && !isClient ==> CoveredBy(s.e, s.out, a.t)
    case ClientAttachesCovered => a.Attach? && isClient ==> CoveredBy(s.e, s.out, a.t)
  }

  ghost predicate AllObey(r: Run, rule: Rule) {
    r.Then? ==> AllObey(r.before, rule) && Obeys(rule, End(r.before).View(r.move.isClient), r.move.act, r.move.isClient)
  }

  ghost predicate IsClean(r: Run) {
    forall rule :: AllObey(r, rule)
  }

  /** Every ACK taken for another transport than the attached one is covered by what was reported for that. */
  ghost predicate Covered(e: Endpoint, out: seq<Channel>) {
    e.attached.Some? && e.past.ackOn != e.attached ==> CoveredBy(e, out, e.attached.value)
  }

  lemma {:induction false} AttachedSteady(s: Sys, a: Act, isClient: bool)
    requires Enabled(s, a, isClient) && !a.Attach? && !a.Read?
    ensures var e' := Do(s, a, isClient).e; e'.attached.None? || e'.attached == s.e.attached
    ensures a.TakeAck? ==> Do(s, a, isClient).e.past.ackOn == s.e.wt
  {
    match a
    case Live(f, ok) => LiveSteady(s, f, ok);
    case LiveHeld(ok) => LiveSteady(s, s.e.w.held.value, ok);
    case _ =>
  }

  lemma {:induction false} MoveCovered(s: Sys, a: Act, isClient: bool)
    requires Enabled(s, a, isClient) && Covered(s.e, s.out) && forall rule :: Obeys(rule, s, a, isClient)
    ensures Covered(Do(s, a, isClient).e, Do(s, a, isClient).out)
  {
    var s' := Do(s, a, isClient);
    if a.Attach? {
      assert Obeys(if isClient then ClientAttachesCovered else ServerAttachesCovered, s, a, isClient);
    } else {
      if a.Read? {
        HandleTakesNone(s.e, s.inn[s.e.rt.value].frames[0], a.every, a.delay, a.at);
      } else {
        AttachedSteady(s, a, isClient);
        if a.TakeAck? {
          assert Obeys(TakesOnlyOnAttached, s, a, isClient);
        } else {
          TakenSteady(s, a, isClient);
        }
      }
      if s.e.attached.Some? && s.e.past.ackOn != s.e.attached {
        ReportedSteady(s, a, isClient, s.e.attached.value);
      }
    }
  }

  /** A move leaves alone what the peer took and reported. */
  lemma {:induction false} PeerCovered(s: Sys, a: Act, isClient: bool, p: Endpoint)
    requires Enabled(s, a, isClient) && Covered(p, s.inn)
    ensures Covered(p, Do(s, a, isClient).inn)
  {
    if !a.Read? && !a.Dial? {
      InnSteady(s, a, isClient);
    }
  }

  ghost predicate BothCovered(w: World) {
    Covered(w.client, w.toServer) && Covered(w.server, w.toClient)
  }

  lemma {:induction false} CleanNextKeepsCovered(w: World, m: Move)
    requires BothCovered(w) && CanMove(w, m)
    requires forall rule :: Obeys(rule, w.View(m.isClient), m.act, m.isClient)
    ensures BothCovered(Next(w, m))
  {
    MoveCovered(w.View(m.isClient), m.act, m.isClient);
    PeerCovered(w.View(m.isClient), m.act, m.isClient, w.Peer(m.isClient));
  }

  lemma {:induction false} CleanStep(r: Run)
    requires r.Then? && IsClean(r)
    ensures IsClean(r.before)
    ensures forall rule :: Obeys(rule, End(r.before).View(r.move.isClient), r.move.act, r.move.isClient)
  {
    forall rule ensures AllObey(r.before, rule) && Obeys(rule, End(r.before).View(r.move.isClient), r.move.act, r.move.isClient) {
      assert AllObey(r, rule);
    }
  }

  lemma {:induction false} CleanRunsStayCovered(r: Run)
    requires IsClean(r)
    ensures BothCovered(End(r))
  {
    if r.Then? {
      CleanStep(r);
      CleanRunsStayCovered(r.before);
      if CanMove(End(r.before), r.move) {
        CleanNextKeepsCovered(End(r.before), r.move);
      }
    }
  }

  /** An endpoint that is acknowledged completely keeps nothing and holds nothing. */
  lemma {:induction false} NothingHeld(s: Sys, t: nat, p: Endpoint)
    requires Good(s, p) && Awake(s.e) && Resting(s, t) && !Stuck(s.e)
    ensures s.e.w.log.lastAcked == s.e.w.nextSend && s.e.w.log.kept == [] && s.e.w.held.None?
  {
    assert RecordBytes(s.e.w.log.kept) == 0;
  }

  /** No stuck sender: in every quiescent world of every clean run, each side's last acknowledged number is its
      last sent number, its replay buffer is empty and it holds no frame. */
  lemma {:induction false} QuiescentIsComplete(r: Run, w: World, t: nat)
    requires w == End(r) && IsClean(r) && Quiescent(w, t)
    ensures w.client.w.log.lastAcked == w.client.w.nextSend && w.client.w.log.kept == [] && w.client.w.held.None?
    ensures w.server.w.log.lastAcked == w.server.w.nextSend && w.server.w.log.kept == [] && w.server.w.held.None?
    ensures w.server.delivered == w.client.staged && w.client.delivered == w.server.staged
  {
    QuiescentHasDelivered(r, w, t);
    CleanRunsStayCovered(r);
    RunsAreAwake(r);
    RunsAreSafe(r);
    NothingHeld(w.View(true), t, w.server);
    NothingHeld(w.View(false), t, w.client);
  }
}
