/** What the reader makes of its frames, and that no run is a dead end: as long as neither side has closed, some
    continuation delivers everything and ends with CLOSE. */
module Closing {

  import opened Prelude
  import opened Replay
  import opened Writer
  import opened Acks
  import opened Protocol
  import opened Safety
  import opened Quiescence
  import opened Jams

  // ---------------------------------------------------------------- the reader

  /** The frames that a reader accepts from what it takes off its channels: those that come next. */
  ghost function NewFrames(read: seq<Wire>): seq<Frame> {
    if read == [] then []
    else
      var before, m := NewFrames(read[..|read| - 1]), read[|read| - 1];
      if m.Data? && m.seqNo == |before| + 1 then before + [m.frame] else before
  }

  /** CLOSE is the last frame that a reader takes, and exactly then it has seen it; and it accepted the new frames. */
  ghost predicate ReadsExactly(e: Endpoint) {
    && (forall i :: 0 <= i < |e.past.read| - 1 ==> !e.past.read[i].Close?)
    && (e.sawClose <==> e.past.read != [] && e.past.read[|e.past.read| - 1].Close?)
    && e.delivered == NewFrames(e.past.read)
  }

  lemma {:induction false} HandleExactly(e: Endpoint, m: Wire, every: nat, delay: int, at: nat)
    requires e.acks.Valid() && |e.delivered| == e.acks.lastRecv && (m.Data? ==> 1 <= m.seqNo <= e.acks.lastRecv + 1)
    ensures var e' := Handle(e, m, every, delay, at);
            && e'.past == e.past && e'.sawClose == (e.sawClose || m.Close?)
            && e'.delivered == if m.Data? && m.seqNo == |e.delivered| + 1 then e.delivered + [m.frame] else e.delivered
  {
    match m
    case Data(_, _) =>
    case _ =>
  }

  lemma {:induction false} ReadIsExact(s: Sys, a: Act, isClient: bool, p: Endpoint)
    requires Good(s, p) && Enabled(s, a, isClient) && a.Read? && ReadsExactly(s.e)
    ensures ReadsExactly(Do(s, a, isClient).e)
  {
    var m := s.inn[s.e.rt.value].frames[0];
    NoFalseGap(s, s.e.rt.value, p);
    HandleExactly(s.e, m, a.every, a.delay, a.at);
    ReadsOneMore(s.e, Do(s, a, isClient).e, m);
  }

  lemma {:induction false} ReadsOneMore(e: Endpoint, e': Endpoint, m: Wire)
    requires ReadsExactly(e) && !e.sawClose && e'.past.read == e.past.read + [m] && e'.sawClose == m.Close?
    requires e'.delivered == if m.Data? && m.seqNo == |e.delivered| + 1 then e.delivered + [m.frame] else e.delivered
    ensures ReadsExactly(e')
  {
    var read := e.past.read;
    assert (read + [m])[..|read|] == read && (read + [m])[|read|] == m;
  }

  lemma {:induction false} ReadSteady(s: Sys, a: Act, isClient: bool)
    requires Enabled(s, a, isClient) && !a.Read?
    ensures var e' := Do(s, a, isClient).e;
            e'.past.read == s.e.past.read && e'.sawClose == s.e.sawClose && e'.delivered == s.e.delivered
  {
    OnlyReaderReceives(s, a, isClient);
    if !a.Begin? {
      PastSteady(s, a, isClient);
    }
  }

  ghost predicate BothReadExactly(w: World) { ReadsExactly(w.client) && ReadsExactly(w.server) }

  lemma {:induction false} NextReadsExactly(w: World, m: Move)
    requires Safe(w) && BothReadExactly(w) && CanMove(w, m)
    ensures BothReadExactly(Next(w, m))
  {
    var s := w.View(m.isClient);
    if m.act.Read? {
      ReadIsExact(s, m.act, m.isClient, w.Peer(m.isClient));
    } else {
      ReadSteady(s, m.act, m.isClient);
    }
  }

  lemma {:induction false} InitReadsExactly(w: World, clientMax: int, serverMax: int)
    requires w == Init(clientMax, serverMax)
    ensures BothReadExactly(w)
  {
  }

  /** In every run, on both sides: once its reader took CLOSE it reads no further frame, it has seen CLOSE exactly then,
      and it accepted exactly the frames that came next. */
  lemma {:induction false} ReaderIsExact(r: Run)
    ensures BothReadExactly(End(r))
  {
    match r
    case Start(clientMax, serverMax) => InitReadsExactly(End(r), clientMax, serverMax);
    case Then(before, m) =>
      ReaderIsExact(before);
      if CanMove(End(before), m) {
        RunsAreSafe(before);
        NextReadsExactly(End(before), m);
      }
  }

  /** A frame without a number, or behind a gap, closes the connection and is not accepted. */
  lemma {:induction false} ReaderRefuses(e: Endpoint, seqNo: nat, f: Frame, every: nat, delay: int, at: nat)
    requires seqNo == 0 || seqNo > e.acks.lastRecv + 1
    ensures var e' := Handle(e, Data(seqNo, f), every, delay, at);
            e'.closed && e'.failed && e'.attached.None? && e'.delivered == e.delivered && e'.acks == e.acks
  {
  }

  // ---------------------------------------------------------------- a new transport from anywhere

  predicate Open(e: Endpoint) { !e.closed && !e.sawClose && !e.pc.Done? }

  /** The frames that this side has numbered and the one it holds: what it owes its peer. */
  function Promised(e: Endpoint): seq<Frame> { e.staged + (if e.w.held.Some? then [e.w.held.value] else []) }

  lemma {:induction false} GoesFurther(r: Run, r1: Run, r2: Run)
    requires GoesOn(r, r1) && GoesOn(r1, r2)
    ensures GoesOn(r, r2)
    decreases r2
  {
    if r2 != r1 {
      GoesFurther(r, r1, r2.before);
    }
  }

  /** Transport `u` is attached on both sides and new to the writer of `s` and the reader of `q`. */
  ghost predicate Renewed(s: Sys, q: Sys, u: nat) {
    && q.out == s.inn && q.inn == s.out && Open(s.e) && Open(q.e)
    && u < |s.out| == |s.inn| && s.out[u].frames == [] && !s.out[u].broken
    && s.e.attached == Some(u) && s.e.owed > 0 && s.e.resumeAt == q.e.acks.lastRecv && s.e.wt != Some(u)
    && q.e.attached == Some(u) && q.e.rt != Some(u)
  }

  /** An endpoint only uses transports that exist. */
  predicate Within(e: Endpoint, n: nat) { (e.wt.Some? ==> e.wt.value < n) && (e.rt.Some? ==> e.rt.value < n) }

  lemma {:induction false} SafeIsWithin(w: World)
    requires Safe(w)
    ensures |w.toServer| == |w.toClient| && Within(w.client, |w.toServer|) && Within(w.server, |w.toServer|)
  {
  }

  lemma {:induction false} RunsAreWithin(r: Run, w: World)
    requires w == End(r)
    ensures |w.toServer| == |w.toClient| && Within(w.client, |w.toServer|) && Within(w.server, |w.toServer|)
  {
    RunsAreSafe(r);
    SafeIsWithin(w);
  }

  lemma {:induction false} DialStep(s: Sys)
    requires Open(s.e) && |s.out| == |s.inn| && Within(s.e, |s.out|)
    ensures Enabled(s, Dial, true)
    ensures Do(s, Dial, true) == Sys(s.e.(dialing := Some(|s.out|)),
                                     s.out + [Channel([], false, Some(s.e.acks.lastRecv), [])],
                                     s.inn + [Channel([], false, None, [])])
  {
  }

  lemma {:induction false} ReportStep(s: Sys, u: nat)
    requires Open(s.e) && u < |s.out| == |s.inn| && Within(s.e, |s.out|) && s.out[u] == Channel([], false, None, [])
    ensures Enabled(s, Report(u), false)
    ensures Do(s, Report(u), false) == s.(out := s.out[u := Channel([], false, Some(s.e.acks.lastRecv), [])])
  {
  }

  lemma {:induction false} AttachStep(s: Sys, u: nat, isClient: bool)
    requires Open(s.e) && u < |s.out| == |s.inn| && Within(s.e, |s.out|)
    requires s.out[u].reported.Some? && s.inn[u].reported.Some? && (isClient ==> s.e.dialing == Some(u))
    ensures Enabled(s, Attach(u), isClient)
    ensures Do(s, Attach(u), isClient) ==
            s.(e := s.e.(attached := Some(u), resumeAt := s.inn[u].reported.value, dialing := None, owed := s.e.owed + 1))
  {
  }

  /** The world in which the client has dialed a new transport and both sides have reported. */
  ghost function Dialed(w: World): World {
    World(w.client.(dialing := Some(|w.toServer|)), w.server,
          w.toServer + [Channel([], false, Some(w.client.acks.lastRecv), [])],
          w.toClient + [Channel([], false, Some(w.server.acks.lastRecv), [])])
  }

  lemma {:induction false} DialSteps(r: Run, w: World) returns (r': Run)
    requires w == End(r) && Open(w.client) && Open(w.server) && |w.toServer| == |w.toClient|
    requires Within(w.client, |w.toServer|) && Within(w.server, |w.toServer|)
    ensures GoesOn(r, r') && End(r') == Dialed(w)
  {
    var u := |w.toServer|;
    DialStep(w.View(true));
    var r1 := GoOn(r, Move(true, Dial));
    var q := End(r1).View(false);
    assert q == Sys(w.server, w.toClient + [Channel([], false, None, [])], Dialed(w).toServer);
    ReportStep(q, u);
    LastReplaced(w.toClient, Channel([], false, None, []), Channel([], false, Some(w.server.acks.lastRecv), []));
    r' := GoOn(r1, Move(false, Report(u)));
    assert GoesOn(r, r1);
  }

  lemma {:induction false} LastReplaced(cs: seq<Channel>, a: Channel, b: Channel)
    ensures (cs + [a])[|cs| := b] == cs + [b]
  {
  }

  ghost function Attached(e: Endpoint, u: nat, resumeAt: nat): Endpoint {
    e.(attached := Some(u), resumeAt := resumeAt, dialing := None, owed := e.owed + 1)
  }

  lemma {:induction false} AttachBoth(r: Run, w: World) returns (r': Run)
    requires Open(w.client) && Open(w.server) && Within(w.client, |w.toServer|) && Within(w.server, |w.toServer|)
    requires |w.toServer| == |w.toClient| && End(r) == Dialed(w)
    ensures var u := |w.toServer|;
            GoesOn(r, r') && End(r') == World(Attached(w.client, u, w.server.acks.lastRecv),
                                              Attached(w.server, u, w.client.acks.lastRecv), End(r).toServer, End(r).toClient)
  {
    var u := |w.toServer|;
    AttachStep(End(r).View(true), u, true);
    var r1 := GoOn(r, Move(true, Attach(u)));
    AttachStep(End(r1).View(false), u, false);
    r' := GoOn(r1, Move(false, Attach(u)));
    assert GoesOn(r, r1);
  }

  lemma {:induction false} Renew(r: Run, isClient: bool) returns (r': Run, u: nat)
    requires Open(End(r).client) && Open(End(r).server)
    ensures GoesOn(r, r') && Renewed(End(r').View(isClient), End(r').View(!isClient), u)
    ensures var e, e' := End(r).View(isClient).e, End(r').View(isClient).e; e'.w == e.w && e'.staged == e.staged
    ensures End(r').View(!isClient).e.acks == End(r).View(!isClient).e.acks
  {
    RunsAreWithin(r, End(r));
    u := |End(r).toServer|;
    var r1 := DialSteps(r, End(r));
    r' := AttachBoth(r1, End(r));
    GoesFurther(r, r1, r');
  }

  // ---------------------------------------------------------------- the writer lets go of its old transport

  /** A move that leaves alone transport `u`, the attachment to it and what is promised. */
  ghost predicate Onward(s: Sys, s1: Sys, u: nat) {
    && s1.inn == s.inn && u < |s.out| == |s1.out| && s1.out[u] == s.out[u] && Open(s1.e)
    && s1.e.attached == s.e.attached && s1.e.resumeAt == s.e.resumeAt && (s1.e.wt.None? || s1.e.wt == s.e.wt)
    && s1.e.acks == s.e.acks && Promised(s1.e) == Promised(s.e) && s.e.staged <= s1.e.staged
  }

  lemma {:induction false} LeaveStep(s: Sys, u: nat, isClient: bool)
    requires Open(s.e) && u < |s.out| == |s.inn| && Within(s.e, |s.out|)
    requires s.e.pc.Top? && s.e.wt.Some? && s.e.attached != s.e.wt
    ensures Enabled(s, Leave, isClient)
    ensures var s1 := Do(s, Leave, isClient); Onward(s, s1, u) && s1.e.pc.OffTop? && s1.e.wt.None?
  {
  }

  lemma {:induction false} WakenStep(s: Sys, u: nat, isClient: bool)
    requires Open(s.e) && u < |s.out| == |s.inn| && Within(s.e, |s.out|) && s.e.owed > 0
    requires s.e.pc.Blocked? || s.e.pc.OffWait?
    ensures Enabled(s, Signal, isClient) && Enabled(Do(s, Signal, isClient), Wake, isClient)
    ensures var s1 := Do(Do(s, Signal, isClient), Wake, isClient);
            Onward(s, s1, u) && s1.e.wt == s.e.wt && s1.e.pc == if s.e.pc.Blocked? then Top else OffTop
  {
  }

  lemma {:induction false} ParkStep(s: Sys, u: nat, isClient: bool)
    requires Open(s.e) && u < |s.out| == |s.inn| && Within(s.e, |s.out|) && s.e.wt.Some?
    requires s.e.pc.Full? || (s.e.pc.AckChecked? && s.e.w.resume == [] && s.e.w.held.None?)
    ensures Enabled(s, Park(0), isClient)
    ensures var s1 := Do(s, Park(0), isClient);
            Onward(s, s1, u) && s1.e.wt == s.e.wt && s1.e.pc.Blocked? && s1.e.owed == s.e.owed
  {
  }

  lemma {:induction false} DropStep(s: Sys, u: nat, isClient: bool)
    requires Open(s.e) && u < |s.out| == |s.inn| && Within(s.e, |s.out|) && s.e.wt.Some? && s.e.wt != Some(u) == s.e.attached
    requires s.e.pc.AckChecked? && s.e.w.resume != []
    ensures Enabled(s, Resume(false), isClient)
    ensures var s1 := Do(s, Resume(false), isClient);
            Onward(s, s1, u) && s1.e.owed == s.e.owed && ((s1.e.pc.Top? && s1.e.wt == s.e.wt) || (s1.e.pc.OffTop? && s1.e.wt.None?))
  {
  }

  /** What trying a held frame again comes to: it has no room still, or it gets the next number. */
  ghost predicate StillHeld(w: WriterState, f: Frame) {
    w.held == Some(f) && w.(held := None).WriteLive(f) == (w, []) && w.(held := None).Stage(f) == w
    && !w.(held := None).Outcome(f).Staged?
  }

  ghost predicate NowStaged(w: WriterState, f: Frame) {
    var (w', out) := w.(held := None).WriteLive(f);
    w.held == Some(f) && w.(held := None).Outcome(f).Staged? && out == [Data(w.nextSend + 1, f)]
    && w'.held.None? && w'.resume == w.resume && w.(held := None).Stage(f).held.None?
  }

  lemma {:induction false} RetryOutcome(w: WriterState, staged: seq<Frame>)
    requires w.Tracks(staged) && w.OnTransport(staged) && w.resume == [] && w.held.Some?
    ensures if w.log.Fits(w.held.value) then NowStaged(w, w.held.value) else StillHeld(w, w.held.value)
  {
    var w0 := w.(held := None);
    WriteLiveTracks(w0, staged, w.held.value);
    StageRejectsOnlyTooLarge(w0, staged, w.held.value);
  }

  lemma {:induction false} RetryHeld(s: Sys, u: nat, isClient: bool)
    requires Open(s.e) && u < |s.out| == |s.inn| && Within(s.e, |s.out|) && s.e.wt.Some?
    requires s.e.pc.AckChecked? && s.e.w.resume == [] && s.e.w.held.Some? && StillHeld(s.e.w, s.e.w.held.value)
    ensures Enabled(s, LiveHeld(false), isClient)
    ensures var s1 := Do(s, LiveHeld(false), isClient);
            Onward(s, s1, u) && s1.e.owed == s.e.owed && s1.e.pc.Full? && s1.e.wt == s.e.wt
  {
    assert s.out[s.e.wt.value := s.out[s.e.wt.value]] == s.out;
  }

  lemma {:induction false} RetryLost(s: Sys, u: nat, isClient: bool)
    requires Open(s.e) && u < |s.out| == |s.inn| && Within(s.e, |s.out|) && s.e.wt.Some? && s.e.wt != Some(u) == s.e.attached
    requires s.e.pc.AckChecked? && s.e.w.resume == [] && s.e.w.held.Some? && NowStaged(s.e.w, s.e.w.held.value)
    ensures Enabled(s, LiveHeld(false), isClient)
    ensures var s1 := Do(s, LiveHeld(false), isClient);
            Onward(s, s1, u) && s1.e.owed == s.e.owed && s1.e.pc.OffTop? && s1.e.wt.None?
  {
    var f := s.e.w.held.value;
    assert s.e.staged + [f] + [] == s.e.staged + [f];
  }

  lemma {:induction false} RetryStep(s: Sys, u: nat, isClient: bool)
    requires s.e.w.Tracks(s.e.staged) && s.e.w.OnTransport(s.e.staged)
    requires Open(s.e) && u < |s.out| == |s.inn| && Within(s.e, |s.out|) && s.e.wt.Some? && s.e.wt != Some(u) == s.e.attached
    requires s.e.pc.AckChecked? && s.e.w.resume == [] && s.e.w.held.Some?
    ensures Enabled(s, LiveHeld(false), isClient)
    ensures var s1 := Do(s, LiveHeld(false), isClient);
            Onward(s, s1, u) && s1.e.owed == s.e.owed
            && ((s1.e.pc.Full? && s1.e.wt == s.e.wt) || (s1.e.pc.OffTop? && s1.e.wt.None?))
  {
    RetryOutcome(s.e.w, s.e.staged);
    if s.e.w.log.Fits(s.e.w.held.value) {
      RetryLost(s, u, isClient);
    } else {
      RetryHeld(s, u, isClient);
    }
  }

  // ---------------------------------------------------------------- from anywhere to the new transport

  /** The facts of an endpoint that the steps need, without the rest of the invariant. */
  ghost predicate Fit(s: Sys) {
    && |s.out| == |s.inn| && Within(s.e, |s.out|) && s.e.acks.Valid()
    && s.e.w.Tracks(s.e.staged) && (s.e.wt.Some? ==> s.e.w.OnTransport(s.e.staged))
    && (s.e.wt.Some? <==> s.e.pc.Top? || s.e.pc.AckChecked? || s.e.pc.Full? || s.e.pc.Blocked?)
  }

  lemma {:induction false} GoodIsFit(s: Sys, p: Endpoint)
    requires Good(s, p)
    ensures Fit(s)
  {
  }

  lemma {:induction false} SafeIsGood(w: World, isClient: bool)
    requires Safe(w)
    ensures Good(w.View(isClient), w.Peer(isClient))
  {
  }

  lemma {:induction false} RunsAreFit(r: Run, w: World, isClient: bool)
    requires w == End(r)
    ensures Fit(w.View(isClient))
  {
    RunsAreSafe(r);
    SafeIsGood(w, isClient);
    GoodIsFit(w.View(isClient), w.Peer(isClient));
  }

  lemma {:induction false} OnwardTwice(s: Sys, s1: Sys, s2: Sys, u: nat)
    requires Onward(s, s1, u) && Onward(s1, s2, u)
    ensures Onward(s, s2, u)
  {
  }

  /** Transport `u` waits for the writer of `s`. */
  ghost predicate Waits(s: Sys, u: nat) {
    Open(s.e) && u < |s.out| && s.e.attached == Some(u) && s.e.wt != Some(u)
  }

  function Rank(pc: Pc): nat {
    match pc
    case OffTop => 0
    case Top => 1
    case OffWait => 1
    case Blocked => 2
    case Full => 3
    case _ => 4
  }

  /** A move or two bring the writer nearer to the head of its outer loop. */
  lemma {:induction false} LetGoStep(r: Run, s: Sys, u: nat, isClient: bool) returns (r': Run)
    requires s == End(r).View(isClient) && Waits(s, u) && Fit(s) && !s.e.pc.OffTop?
    requires s.e.owed > 0 || s.e.pc.Top?
    ensures GoesOn(r, r') && End(r').View(!isClient).e == End(r).View(!isClient).e
    ensures var s' := End(r').View(isClient);
            && Onward(s, s', u) && Rank(s'.e.pc) < Rank(s.e.pc)
            && (s'.e.owed > 0 || s'.e.pc.Top? || s'.e.pc.OffTop?)
  {
    if s.e.pc.Top? {
      LeaveStep(s, u, isClient);
      r' := GoOn(r, Move(isClient, Leave));
    } else if s.e.pc.OffWait? || s.e.pc.Blocked? {
      WakenStep(s, u, isClient);
      var r1 := GoOn(r, Move(isClient, Signal));
      r' := GoOn(r1, Move(isClient, Wake));
      assert GoesOn(r, r1);
    } else if s.e.pc.Full? || (s.e.w.resume == [] && s.e.w.held.None?) {
      ParkStep(s, u, isClient);
      r' := GoOn(r, Move(isClient, Park(0)));
    } else if s.e.w.resume != [] {
      DropStep(s, u, isClient);
      r' := GoOn(r, Move(isClient, Resume(false)));
    } else {
      RetryStep(s, u, isClient);
      r' := GoOn(r, Move(isClient, LiveHeld(false)));
    }
  }

  /** Within a few moves the writer stands without a transport, whatever it was doing. */
  lemma {:induction false} LetGo(r: Run, u: nat, isClient: bool) returns (r': Run)
    requires Waits(End(r).View(isClient), u)
    requires var e := End(r).View(isClient).e; e.owed > 0 || e.pc.Top? || e.pc.OffTop?
    ensures GoesOn(r, r') && End(r').View(!isClient).e == End(r).View(!isClient).e
    ensures var s, s' := End(r).View(isClient), End(r').View(isClient);
            Onward(s, s', u) && s'.e.pc.OffTop? && s'.e.wt.None?
    decreases Rank(End(r).View(isClient).e.pc)
  {
    var s := End(r).View(isClient);
    RunsAreFit(r, End(r), isClient);
    if s.e.pc.OffTop? {
      r' := r;
    } else {
      var r1 := LetGoStep(r, s, u, isClient);
      r' := LetGo(r1, u, isClient);
      OnwardTwice(s, End(r1).View(isClient), End(r').View(isClient), u);
      GoesFurther(r, r1, r');
    }
  }

  // ---------------------------------------------------------------- replaying everything

  /** The writer is on transport `u`, which is attached and not broken. */
  ghost predicate Writing(s: Sys, u: nat) {
    && Open(s.e) && u < |s.out| == |s.inn| && !s.out[u].broken
    && s.e.wt == Some(u) && s.e.attached == Some(u) && Within(s.e, |s.out|) && s.e.acks.Valid()
  }

  /** A move of the writer on `u` that stages nothing. */
  ghost predicate Writes(s: Sys, s1: Sys, u: nat) {
    && Writing(s1, u) && s1.inn == s.inn && s1.e.staged == s.e.staged && s1.e.w.held == s.e.w.held
    && s1.e.w.log == s.e.w.log
  }

  lemma {:induction false} BeginStep(s: Sys, u: nat, isClient: bool)
    requires Open(s.e) && u < |s.out| == |s.inn| && !s.out[u].broken && Within(s.e, |s.out|) && s.e.acks.Valid()
    requires s.e.pc.OffTop? && s.e.wt.None? && s.e.attached == Some(u)
    ensures Enabled(s, Begin, isClient)
    ensures var s1 := Do(s, Begin, isClient);
            && Writing(s1, u) && s1.e.pc.Top? && s1.out == s.out && s1.inn == s.inn && s1.e.staged == s.e.staged
            && s1.e.w == s.e.w.Begin(s.e.resumeAt) && s1.e.w.held == s.e.w.held
  {
  }

  lemma {:induction false} TakeStep(s: Sys, u: nat, isClient: bool)
    requires Writing(s, u) && s.e.pc.Top? && s.e.acks.Ready(0)
    ensures Enabled(s, TakeAck(0, true), isClient)
    ensures var s1 := Do(s, TakeAck(0, true), isClient);
            Writes(s, s1, u) && s1.e.pc.Top? && s1.e.w == s.e.w && !s1.e.acks.Ready(0)
  {
    TakeReturnsReadyAck(s.e.acks, 0);
  }

  lemma {:induction false} PassStep(s: Sys, u: nat, isClient: bool)
    requires Writing(s, u) && s.e.pc.Top? && !s.e.acks.Ready(0)
    ensures Enabled(s, PassAck(0), isClient)
    ensures Do(s, PassAck(0), isClient) == s.(e := s.e.(pc := AckChecked))
  {
  }

  /** Past the ACK check, with the ACK written that was due. */
  lemma {:induction false} Check(r: Run, u: nat, isClient: bool) returns (r': Run)
    requires Writing(End(r).View(isClient), u) && End(r).View(isClient).e.pc.Top?
    ensures GoesOn(r, r') && End(r').View(!isClient).e == End(r).View(!isClient).e
    ensures var s, s' := End(r).View(isClient), End(r').View(isClient);
            Writes(s, s', u) && s'.e.pc.AckChecked? && s'.e.w == s.e.w && !s'.e.acks.Ready(0)
  {
    var s := End(r).View(isClient);
    var r1 := r;
    if s.e.acks.Ready(0) {
      TakeStep(s, u, isClient);
      r1 := GoOn(r, Move(isClient, TakeAck(0, true)));
    }
    PassStep(End(r1).View(isClient), u, isClient);
    r' := GoOn(r1, Move(isClient, PassAck(0)));
    assert GoesOn(r, r1);
  }

  lemma {:induction false} ReplayStep(s: Sys, u: nat, isClient: bool)
    requires Writing(s, u) && s.e.pc.AckChecked? && s.e.w.resume != []
    ensures Enabled(s, Resume(true), isClient)
    ensures var s1 := Do(s, Resume(true), isClient);
            Writes(s, s1, u) && s1.e.pc.Top? && |s1.e.w.resume| == |s.e.w.resume| - 1
  {
  }

  lemma {:induction false} ReplayAll(r: Run, u: nat, isClient: bool) returns (r': Run)
    requires Writing(End(r).View(isClient), u) && End(r).View(isClient).e.pc.Top?
    ensures GoesOn(r, r') && End(r').View(!isClient).e == End(r).View(!isClient).e
    ensures var s, s' := End(r).View(isClient), End(r').View(isClient);
            Writes(s, s', u) && s'.e.pc.AckChecked? && s'.e.w.resume == [] && !s'.e.acks.Ready(0)
    decreases |End(r).View(isClient).e.w.resume|
  {
    var r1 := Check(r, u, isClient);
    var s1 := End(r1).View(isClient);
    if s1.e.w.resume == [] {
      r' := r1;
    } else {
      ReplayStep(s1, u, isClient);
      var r2 := GoOn(r1, Move(isClient, Resume(true)));
      assert GoesOn(r1, r2);
      GoesFurther(r, r1, r2);
      r' := ReplayAll(r2, u, isClient);
      GoesFurther(r, r2, r');
    }
  }

  // ---------------------------------------------------------------- reading everything

  lemma {:induction false} TakeFrame(q: Sys, u: nat, isClient: bool)
    requires !q.e.closed && !q.e.sawClose && u < |q.inn| == |q.out| && q.e.rt == Some(u) && Within(q.e, |q.out|)
    requires q.inn[u].frames != []
    requires var m := q.inn[u].frames[0]; m.Data? ==> 1 <= m.seqNo <= q.e.acks.lastRecv + 1
    ensures Enabled(q, Read(1, 0, 0), isClient)
    ensures var q1 := Do(q, Read(1, 0, 0), isClient);
            && !q1.e.closed && q1.e.rt == Some(u) && q1.out == q.out && q1.e.pc == q.e.pc
            && q1.e.sawClose == q.inn[u].frames[0].Close?
            && q1.inn == q.inn[u := q.inn[u].(frames := q.inn[u].frames[1..])]
  {
  }

  /** The peer's reader listens on transport `u`. */
  predicate Listens(q: Sys, u: nat) { !q.e.closed && !q.e.sawClose && u < |q.inn| && q.e.rt == Some(u) }

  lemma {:induction false} ReadOne(r: Run, u: nat, isClient: bool) returns (r': Run)
    requires Listens(End(r).View(!isClient), u) && End(r).View(!isClient).inn[u].frames != []
    ensures GoesOn(r, r')
    ensures var q, q' := End(r).View(!isClient), End(r').View(!isClient);
            && q'.e.sawClose == q.inn[u].frames[0].Close? && !q'.e.closed && q'.e.pc == q.e.pc && q'.e.rt == Some(u)
            && q'.out == q.out && q'.inn == q.inn[u := q.inn[u].(frames := q.inn[u].frames[1..])]
    ensures End(r').View(isClient).e == End(r).View(isClient).e
  {
    ReadableHere(r, End(r), u, !isClient);
    TakeFrame(End(r).View(!isClient), u, !isClient);
    r' := GoOn(r, Move(!isClient, Read(1, 0, 0)));
  }

  lemma {:induction false} ViewsMirror(w: World, isClient: bool)
    ensures w.View(!isClient).inn == w.View(isClient).out && w.View(!isClient).out == w.View(isClient).inn
  {
  }

  predicate EndsWithClose(frames: seq<Wire>) { frames != [] && frames[|frames| - 1].Close? }

  /** It takes what is there, up to CLOSE. */
  lemma {:induction false} ReadAll(r: Run, u: nat, isClient: bool) returns (r': Run)
    requires Listens(End(r).View(!isClient), u)
    ensures GoesOn(r, r') && End(r').View(isClient).e == End(r).View(isClient).e
    ensures var q, q' := End(r).View(!isClient), End(r').View(!isClient);
            && !q'.e.closed && q'.e.pc == q.e.pc && q'.out == q.out
            && |q'.inn| == |q.inn| && q'.inn[u].broken == q.inn[u].broken
            && (q'.inn[u].frames == [] || q'.e.sawClose) && (EndsWithClose(q.inn[u].frames) ==> q'.e.sawClose)
    decreases |End(r).View(!isClient).inn[u].frames|
  {
    r' := r;
    if End(r).View(!isClient).inn[u].frames != [] {
      r' := ReadOne(r, u, isClient);
      if !End(r').View(!isClient).e.sawClose {
        var r1 := r';
        r' := ReadAll(r1, u, isClient);
        GoesFurther(r, r1, r');
      }
    }
  }

  lemma {:induction false} ReadableHere(r: Run, w: World, u: nat, isClient: bool)
    requires w == End(r) && u < |w.View(isClient).inn| && w.View(isClient).inn[u].frames != []
    ensures var q := w.View(isClient); var m := q.inn[u].frames[0]; m.Data? ==> 1 <= m.seqNo <= q.e.acks.lastRecv + 1
    ensures |w.View(isClient).inn| == |w.View(isClient).out| && Within(w.View(isClient).e, |w.View(isClient).out|)
  {
    RunsAreSafe(r);
    SafeIsGood(w, isClient);
    NoFalseGap(w.View(isClient), u, w.Peer(isClient));
  }

  lemma {:induction false} SwitchStep(q: Sys, u: nat, isClient: bool)
    requires Open(q.e) && |q.inn| == |q.out| && Within(q.e, |q.out|) && q.e.attached == Some(u) && q.e.rt != Some(u)
    ensures Enabled(q, Switch, isClient) && Do(q, Switch, isClient) == q.(e := q.e.(rt := Some(u)))
  {
  }

  // ---------------------------------------------------------------- no dead end

  /** One reconnect, after which the writer has replayed everything on the new transport. */
  lemma {:induction false} Round(r: Run, isClient: bool) returns (r': Run, u: nat)
    requires Open(End(r).client) && Open(End(r).server)
    ensures GoesOn(r, r')
    ensures var s, s', q, q' := End(r).View(isClient), End(r').View(isClient), End(r).View(!isClient), End(r').View(!isClient);
            && Writing(s', u) && s'.e.pc.AckChecked? && s'.e.w.resume == [] && !s'.e.acks.Ready(0)
            && Promised(s'.e) == Promised(s.e) && s.e.staged <= s'.e.staged && s'.e.w.log.lastAcked >= q.e.acks.lastRecv
            && Open(q'.e) && q'.e.attached == Some(u) && q'.e.rt != Some(u)
  {
    var r1, r2;
    r1, u := Renew(r, isClient);
    r2 := LetGo(r1, u, isClient);
    GoesFurther(r, r1, r2);
    var r3 := TakeUp(r2, u, isClient);
    GoesFurther(r, r2, r3);
    r' := ReplayAll(r3, u, isClient);
    GoesFurther(r, r3, r');
  }

  lemma {:induction false} TakeUp(r: Run, u: nat, isClient: bool) returns (r': Run)
    requires var s := End(r).View(isClient);
             && Open(s.e) && u < |s.out| && !s.out[u].broken && s.e.pc.OffTop? && s.e.wt.None? && s.e.attached == Some(u)
    ensures GoesOn(r, r') && End(r').View(!isClient).e == End(r).View(!isClient).e
    ensures var s, s' := End(r).View(isClient), End(r').View(isClient);
            && Writing(s', u) && s'.e.pc.Top? && s'.e.staged == s.e.staged && s'.e.w.held == s.e.w.held
            && s'.e.w.log.lastAcked >= s.e.resumeAt
  {
    var s := End(r).View(isClient);
    ReportsAreHonest(r, End(r), isClient);
    BeginStep(s, u, isClient);
    BeginTracks(s.e.w, s.e.staged, s.e.resumeAt);
    r' := GoOn(r, Move(isClient, Begin));
  }

  lemma {:induction false} ReportsAreHonest(r: Run, w: World, isClient: bool)
    requires w == End(r) && w.View(isClient).e.attached.Some?
    ensures Fit(w.View(isClient)) && w.View(isClient).e.resumeAt <= w.View(isClient).e.w.nextSend
  {
    RunsAreSafe(r);
    SafeIsGood(w, isClient);
    var s, p := w.View(isClient), w.Peer(isClient);
    GoodIsFit(s, p);
    assert Backward(s.inn[s.e.attached.value], p.acks.lastRecv);
  }

  /** The peer listens on the new transport and reads all there is. */
  lemma {:induction false} HearAll(r: Run, u: nat, isClient: bool) returns (r': Run)
    requires var q := End(r).View(!isClient); Open(q.e) && q.e.attached == Some(u) && q.e.rt != Some(u)
    requires u < |End(r).View(isClient).out|
    ensures GoesOn(r, r') && End(r').View(isClient).e == End(r).View(isClient).e
    ensures var s, s', q' := End(r).View(isClient), End(r').View(isClient), End(r').View(!isClient);
            && !q'.e.closed && !q'.e.pc.Done? && u < |s'.out| == |s.out| && s'.out[u].broken == s.out[u].broken
            && (s'.out[u].frames == [] || q'.e.sawClose) && (EndsWithClose(s.out[u].frames) ==> q'.e.sawClose)
  {
    RunsAreFit(r, End(r), !isClient);
    ViewsMirror(End(r), isClient);
    SwitchStep(End(r).View(!isClient), u, !isClient);
    var r1 := GoOn(r, Move(!isClient, Switch));
    r' := ReadAll(r1, u, isClient);
    ViewsMirror(End(r'), isClient);
    assert GoesOn(r, r1);
    GoesFurther(r, r1, r');
  }

  /** A peer that has read everything from a writer with nothing left to replay has everything. */
  lemma {:induction false} AllRead(s: Sys, p: Endpoint, u: nat)
    requires Good(s, p) && s.e.wt == Some(u) && s.e.w.resume == [] && u < |s.out| && !s.out[u].broken && s.out[u].frames == []
    ensures p.delivered == s.e.staged && p.acks.lastRecv == |s.e.staged|
  {
  }

  lemma {:induction false} AllHeard(r: Run, w: World, u: nat, isClient: bool)
    requires w == End(r) && !w.View(isClient).e.pc.Done?
    requires var s := w.View(isClient);
             && s.e.wt == Some(u) && s.e.w.resume == [] && u < |s.out| && !s.out[u].broken
             && (s.out[u].frames == [] || w.Peer(isClient).sawClose)
    ensures !w.Peer(isClient).sawClose
    ensures w.Peer(isClient).delivered == w.View(isClient).e.staged && w.Peer(isClient).acks.lastRecv == |w.View(isClient).e.staged|
  {
    CloseImpliesCompleteDelivery(r);
    RunsAreSafe(r);
    SafeIsGood(w, isClient);
    AllRead(w.View(isClient), w.Peer(isClient), u);
  }

  /** Delivery is always possible: from every reachable world in which neither side has closed, some continuation
      delivers all that a side has staged. */
  lemma {:induction false} DeliveryIsPossible(r: Run, isClient: bool) returns (r': Run)
    requires Open(End(r).client) && Open(End(r).server)
    ensures GoesOn(r, r') && Open(End(r').client) && Open(End(r').server)
    ensures var e, e', p' := End(r).View(isClient).e, End(r').View(isClient).e, End(r').Peer(isClient);
            && p'.delivered == e'.staged && p'.acks.lastRecv == |e'.staged|
            && e.staged <= e'.staged && Promised(e') == Promised(e)
  {
    var r1, u := Round(r, isClient);
    r' := HearAll(r1, u, isClient);
    GoesFurther(r, r1, r');
    AllHeard(r', End(r'), u, isClient);
  }

  lemma {:induction false} StageHeld(s: Sys, u: nat, isClient: bool)
    requires Writing(s, u) && s.e.pc.AckChecked? && s.e.w.resume == [] && s.e.w.held.Some? && NowStaged(s.e.w, s.e.w.held.value)
    ensures Enabled(s, LiveHeld(true), isClient)
    ensures var s1 := Do(s, LiveHeld(true), isClient);
            && Writing(s1, u) && s1.e.pc.Top? && s1.e.w.held.None? && s1.e.w.resume == [] && s1.e.acks == s.e.acks
            && s1.e.staged == Promised(s.e)
  {
  }

  /** A buffer that is acknowledged completely has room for the held frame. */
  lemma {:induction false} EmptyHasRoom(w: WriterState, staged: seq<Frame>)
    requires w.Tracks(staged) && w.held.Some? && w.log.lastAcked == |staged|
    ensures w.log.Fits(w.held.value)
  {
    assert RecordBytes(w.log.kept) == 0;
  }

  /** The held frame, if there is one, is staged as well. */
  lemma {:induction false} StageAll(r: Run, u: nat, isClient: bool) returns (r': Run)
    requires var s := End(r).View(isClient);
             && Writing(s, u) && s.e.pc.AckChecked? && s.e.w.resume == [] && !s.e.acks.Ready(0)
             && (s.e.w.held.Some? ==> s.e.w.log.lastAcked == |s.e.staged|)
    ensures GoesOn(r, r') && End(r').View(!isClient).e == End(r).View(!isClient).e
    ensures var s, s' := End(r).View(isClient), End(r').View(isClient);
            && Writing(s', u) && s'.e.pc.AckChecked? && s'.e.w.resume == [] && s'.e.w.held.None?
            && s'.e.staged == Promised(s.e)
  {
    var s := End(r).View(isClient);
    r' := r;
    if s.e.w.held.Some? {
      RunsAreFit(r, End(r), isClient);
      EmptyHasRoom(s.e.w, s.e.staged);
      RetryOutcome(s.e.w, s.e.staged);
      StageHeld(s, u, isClient);
      var r1 := GoOn(r, Move(isClient, LiveHeld(true)));
      PassStep(End(r1).View(isClient), u, isClient);
      r' := GoOn(r1, Move(isClient, PassAck(0)));
      assert GoesOn(r, r1);
    }
  }

  lemma {:induction false} CloseWritten(s: Sys, u: nat, isClient: bool)
    requires Writing(s, u) && s.e.pc.AckChecked? && s.e.w.resume == [] && s.e.w.held.None?
    ensures Enabled(s, WriteClose, isClient)
    ensures var s1 := Do(s, WriteClose, isClient);
            && s1.e.pc.Done? && s1.e.staged == s.e.staged && u < |s1.out| && EndsWithClose(s1.out[u].frames)
  {
  }

  /** With nothing lost, what is held is the last that is promised. */
  lemma {:induction false} PromiseKept(e: Endpoint, e': Endpoint)
    requires Promised(e') == Promised(e) && e.staged <= e'.staged && e'.w.held.Some?
    ensures |e'.staged| == |e.staged|
  {
    assert |Promised(e')| == |e'.staged| + 1 && |Promised(e)| <= |e.staged| + 1;
  }

  lemma {:induction false} LastAckedBound(r: Run, w: World, isClient: bool)
    requires w == End(r)
    ensures w.View(isClient).e.w.log.lastAcked <= |w.View(isClient).e.staged|
  {
    RunsAreFit(r, w, isClient);
  }

  /** A clean end is always possible: from every reachable world in which neither side has closed, and for either side,
      some continuation ends with its writer done, CLOSE read by its peer, and everything delivered that it had staged
      or held. */
  lemma {:induction false} CloseIsPossible(r: Run, isClient: bool) returns (r': Run)
    requires Open(End(r).client) && Open(End(r).server)
    ensures GoesOn(r, r')
    ensures var e', p' := End(r').View(isClient).e, End(r').Peer(isClient);
            e'.pc.Done? && p'.sawClose && p'.delivered == e'.staged == Promised(End(r).View(isClient).e)
  {
    var r1 := DeliveryIsPossible(r, isClient);
    var r2, u := Round(r1, isClient);
    GoesFurther(r, r1, r2);
    var e1, e2 := End(r1).View(isClient).e, End(r2).View(isClient).e;
    if e2.w.held.Some? {
      PromiseKept(e1, e2);
      LastAckedBound(r2, End(r2), isClient);
    }
    var r3 := StageAll(r2, u, isClient);
    GoesFurther(r, r2, r3);
    CloseWritten(End(r3).View(isClient), u, isClient);
    var r4 := GoOn(r3, Move(isClient, WriteClose));
    assert GoesOn(r3, r4);
    GoesFurther(r, r3, r4);
    r' := HearAll(r4, u, isClient);
    GoesFurther(r, r4, r');
    CloseImpliesCompleteDelivery(r');
  }

  // ---------------------------------------------------------------- the other moves

  /** A write that fails costs the transport: the writer lets go of it, it breaks, and it is no longer attached. */
  lemma {:induction false} FailedWriteDetaches(s: Sys, a: Act, isClient: bool)
    requires Enabled(s, a, isClient) && ((a.TakeAck? && !a.ok) || (a.Timeout? && !a.ok))
    ensures var s', t := Do(s, a, isClient), s.e.wt.value;
            && s'.e.wt.None? && s'.e.attached != Some(t) && t < |s'.out| && s'.out[t].broken
            && (s.e.attached == Some(t) ==> s'.e.attached.None? && s'.e.Signalled())
            && (s.e.attached != Some(t) ==> s'.e.attached == s.e.attached)
  {
  }

  /** A cut can come at any moment and keeps any part of what is on its way; what is written later is lost. */
  lemma {:induction false} CutIsAnywhere(s: Sys, t: nat, keep: nat, m: Wire, isClient: bool)
    requires |s.out| == |s.inn| && Within(s.e, |s.out|) && t < |s.out| && keep <= |s.out[t].frames|
    ensures Enabled(s, Cut(t, keep), isClient)
    ensures var c := Do(s, Cut(t, keep), isClient).out[t];
            c.frames == s.out[t].frames[..keep] && c.Put(m).frames == c.frames && c.broken
  {
  }

  /** A writer that waits without a transport can be given up. */
  lemma {:induction false} GiveUpEnds(s: Sys, isClient: bool)
    requires Open(s.e) && |s.out| == |s.inn| && Within(s.e, |s.out|) && s.e.pc.OffWait? && s.e.w.held.None?
    ensures Enabled(s, GiveUp, isClient) && Do(s, GiveUp, isClient) == s.(e := s.e.(pc := Done))
  {
  }

  /** Or it takes any frame that has room. */
  lemma {:induction false} StageOffStep(s: Sys, f: Frame, isClient: bool)
    requires Open(s.e) && |s.out| == |s.inn| && Within(s.e, |s.out|) && s.e.pc.OffWait? && s.e.w.held.None?
    requires s.e.w.Outcome(f).Staged?
    ensures Enabled(s, StageOff(f), isClient)
    ensures var e' := Do(s, StageOff(f), isClient).e;
            e'.staged == s.e.staged + [f] && e'.w.held.None? && Open(e')
  {
  }

  lemma {:induction false} IdleStep(s: Sys, isClient: bool)
    requires Open(s.e) && |s.out| == |s.inn| && Within(s.e, |s.out|) && s.e.pc.OffTop? && s.e.attached.None?
    ensures Enabled(s, Idle, isClient) && Do(s, Idle, isClient) == s.(e := s.e.(pc := OffWait))
  {
  }

  lemma {:induction false} StagedWhileDetached(r: Run, f: Frame, isClient: bool) returns (r': Run)
    requires Open(End(r).client) && Open(End(r).server)
    requires var e := End(r).View(isClient).e; e.pc.OffTop? && e.attached.None? && e.w.held.None? && e.w.Outcome(f).Staged?
    ensures GoesOn(r, r') && Open(End(r').client) && Open(End(r').server)
    ensures var e, e' := End(r).View(isClient).e, End(r').View(isClient).e; e'.staged == e.staged + [f] && e'.w.held.None?
  {
    RunsAreWithin(r, End(r));
    IdleStep(End(r).View(isClient), isClient);
    var r0 := GoOn(r, Move(isClient, Idle));
    StageOffStep(End(r0).View(isClient), f, isClient);
    r' := GoOn(r0, Move(isClient, StageOff(f)));
    assert GoesOn(r, r0);
  }

  lemma {:induction false} NothingElseIsOwed(e: Endpoint, e': Endpoint)
    requires e.w.held.None? && e.staged <= e'.staged && Promised(e') == Promised(e)
    ensures e'.staged == e.staged
  {
    assert Promised(e) == e.staged;
  }

  /** What is sent while no transport is attached is not lost: from every such world, a frame that has room is staged at
      once, and some continuation delivers it. */
  lemma {:induction false} SentWhileDetached(r: Run, f: Frame, isClient: bool) returns (r1: Run, r': Run)
    requires Open(End(r).client) && Open(End(r).server)
    requires var e := End(r).View(isClient).e; e.pc.OffTop? && e.attached.None? && e.w.held.None? && e.w.Outcome(f).Staged?
    ensures GoesOn(r, r1) && GoesOn(r1, r')
    ensures End(r1).View(isClient).e.staged == End(r).View(isClient).e.staged + [f]
    ensures End(r').Peer(isClient).delivered == End(r1).View(isClient).e.staged
  {
    r1 := StagedWhileDetached(r, f, isClient);
    r' := DeliveryIsPossible(r1, isClient);
    NothingElseIsOwed(End(r1).View(isClient).e, End(r').View(isClient).e);
  }
}
