/** The v3 recovery protocol as a step relation: two endpoints joined by transports that can be cut, lost
    and replaced at any moment.

    Each endpoint runs a writer goroutine, a reader goroutine, and whatever attaches and detaches its
    transports. A step is one atomic move of one of them; every interleaving is a run. */
module Protocol {

  import opened Prelude
  import opened Replay
  import opened Writer
  import opened Acks

  /** One direction of a transport. `frames` are on their way, in order; a broken channel loses what is
      written to it. `reported` is the last received number its writing side announced when the transport
      was set up, and `written` the numbers of all data frames ever written to it. */
  datatype Channel = Channel(frames: seq<Wire>, broken: bool, reported: Option<nat>, written: seq<nat>) {
    function Put(w: Wire): Channel {
      this.(frames := if broken then frames else frames + [w],
            written := if w.Data? then written + [w.seqNo] else written)
    }

    function Broken(): Channel { this.(broken := true) }

    function PutAll(ws: seq<Wire>): Channel
      requires |ws| <= 1
    {
      if ws == [] then this else Put(ws[0])
    }
  }

  /** Where the writer goroutine is: at the head of its outer loop or waiting there without a transport;
      on a transport at the head of the write loop, past the ACK check, holding a frame without room, or waiting;
      or ended. */
  datatype Pc = OffTop | OffWait | Top | AckChecked | Full | Blocked | Done

  /** Histories that no move looks at: the transport for which this side last took an ACK, the transports its writer
      took over, and the frames its reader took from its channels. */
  datatype Past = Past(ackOn: Option<nat>, tookOver: set<nat>, read: seq<Wire>)

  /** `staged` and `delivered` are histories: the frames this side numbered and the frames of its peer that
      it accepted. `attached` is the current transport and `resumeAt` what the peer reported for it; `wt` and
      `rt` are the transports the writer and the reader use. `notify` is the pending send signal and `owed`
      counts signals that some goroutine is about to raise. `parkedAt` is when the writer last began to wait, and
      `timer` when that wait ends for a scheduled ACK, zero if it does not. `sawClose` ends the reader; `failed`
      records a sequence error. */
  datatype Endpoint = Endpoint(
    w: WriterState, acks: AckState, staged: seq<Frame>, delivered: seq<Frame>,
    attached: Option<nat>, resumeAt: nat, dialing: Option<nat>,
    wt: Option<nat>, start: nat, pc: Pc, rt: Option<nat>,
    notify: bool, owed: nat, timer: nat, parkedAt: nat, closed: bool, sawClose: bool, failed: bool, past: Past)
  {
    predicate Signalled() { notify || owed > 0 }

    function Detached(): Endpoint {
      this.(attached := None, owed := owed + 1)
    }

    /** A failed write: the writer detaches the transport, if it still is the current one, and leaves it. */
    function LostTransport(): Endpoint {
      (if attached == wt then Detached() else this).(wt := None, pc := OffTop)
    }

    function Staging(f: Frame): Endpoint {
      this.(w := w.Stage(f), staged := if w.Outcome(f).Staged? then staged + [f] else staged)
    }

    function TakenAck(): Endpoint {
      this.(acks := acks.Taken(), pc := Top, past := past.(ackOn := wt))
    }

    /** The start of a wait at time `now`: its timer is set for an ACK that is scheduled and not due yet. */
    function Parked(now: nat): Endpoint {
      this.(pc := Blocked, parkedAt := now, timer := if !acks.due && now < acks.dueAt then acks.dueAt else 0)
    }

    function Noted(m: Wire): Endpoint { this.(past := past.(read := past.read + [m])) }

    function Shut(): Endpoint {
      this.(closed := true, attached := None)
    }
  }

  /** An endpoint with the channels it writes to and reads from, one of each per transport. */
  datatype Sys = Sys(e: Endpoint, out: seq<Channel>, inn: seq<Channel>)

  datatype Act =
    | StageOff(f: Frame)             // keep a frame for the next transport
    | Begin                          // the writer takes over the attached transport
    | Leave                          // the writer notices that its transport was replaced or lost
    | PassAck(now: nat)              // on the current transport, the ACK check finds nothing due
    | TakeAck(now: nat, ok: bool)    // an ACK is taken and written
    | Resume(ok: bool)               // the next frame to replay
    | Live(f: Frame, ok: bool)       // a new frame
    | LiveHeld(ok: bool)             // the held frame is tried again
    | Park(now: nat)                 // nothing to write: wait
    | WriteClose                     // CLOSE after everything else
    | GiveUp                         // closing without a transport
    | Idle                           // no transport: wait
    | Wake                           // the send signal wakes the writer
    | Timeout(ping: bool, ok: bool)  // a heartbeat or the end of an ACK delay wakes the writer
    | Signal                         // an owed signal is raised
    | Attach(t: nat)
    | Detach
    | Switch                         // the reader moves to the attached transport
    | Read(every: nat, delay: int, at: nat)
    | Shutdown
    | Dial                           // the client opens a transport and reports what it received
    | Report(r: nat)                 // the server reports what it received
    | Cut(c: nat, keep: nat)         // a transport breaks; part of what is on its way may still arrive

  predicate Enabled(s: Sys, a: Act, isClient: bool) {
    var e := s.e;
    && (a.Cut? || !e.closed)
    && |s.out| == |s.inn|
    && (e.wt.Some? ==> e.wt.value < |s.out|)
    && match a
       case StageOff(_) => e.pc.OffWait? && e.w.held.None?
       case Begin => e.pc.OffTop? && e.attached.Some?
       case Leave => e.wt.Some? && e.pc.Top? && e.attached != e.wt
       case PassAck(now) => e.wt.Some? && e.pc.Top? && e.attached == e.wt && !e.acks.Ready(now)
       case TakeAck(now, _) => e.wt.Some? && (e.pc.Top? || e.pc.AckChecked?) && e.acks.Take(now).1
       case Resume(_) => e.wt.Some? && e.pc.AckChecked? && e.w.resume != []
       case Live(_, _) => e.wt.Some? && (e.pc.AckChecked? || e.pc.Blocked?) && e.w.resume == [] && e.w.held.None?
       case LiveHeld(_) => e.wt.Some? && e.pc.AckChecked? && e.w.resume == [] && e.w.held.Some?
       case Park(_) => e.wt.Some? && (e.pc.Full? || (e.pc.AckChecked? && e.w.resume == [] && e.w.held.None?))
       case WriteClose => e.wt.Some? && (e.pc.AckChecked? || e.pc.Blocked?) && e.w.resume == [] && e.w.held.None?
       case GiveUp => e.pc.OffWait? && e.w.held.None?
       case Idle => e.pc.OffTop? && e.attached.None?
       case Wake => (e.pc.OffWait? || e.pc.Blocked?) && e.notify
       case Timeout(_, _) => e.wt.Some? && e.pc.Blocked?
       case Signal => e.owed > 0
       case Attach(t) =>
         t < |s.out| && s.out[t].reported.Some? && s.inn[t].reported.Some? && (isClient ==> e.dialing == Some(t))
       case Detach => e.attached.Some?
       case Switch => !e.sawClose && e.attached.Some? && e.rt != e.attached
       case Read(_, _, _) => !e.sawClose && e.rt.Some? && e.rt.value < |s.inn| && s.inn[e.rt.value].frames != []
       case Shutdown => true
       case Dial => isClient
       case Report(r) => !isClient && r < |s.out| && s.out[r].reported.None?
       case Cut(c, keep) => c < |s.out| && keep <= |s.out[c].frames|
  }

  // ---------------------------------------------------------------- the moves

  /** Writes at most one frame on the writer's transport, or loses the transport trying: it is closed then. */
  function Emit(s: Sys, e: Endpoint, ws: seq<Wire>, ok: bool): Sys
    requires e.wt.Some? && e.wt.value < |s.out| && |ws| <= 1
  {
    if ok then s.(e := e, out := s.out[e.wt.value := s.out[e.wt.value].PutAll(ws)])
    else s.(e := e.LostTransport(), out := s.out[e.wt.value := s.out[e.wt.value].Broken()])
  }

  function DoBegin(e: Endpoint): Endpoint {
    var w' := e.w.Begin(e.resumeAt);
    e.(w := w', wt := e.attached, start := w'.lastSent, pc := Top,
       past := if e.attached.Some? then e.past.(tookOver := e.past.tookOver + {e.attached.value}) else e.past)
  }

  function DoTakeAck(s: Sys, ok: bool): Sys
    requires s.e.wt.Some? && s.e.wt.value < |s.out|
  {
    Emit(s, s.e.TakenAck(), [AckUpTo(s.e.acks.lastRecv)], ok)
  }

  /** A failed write leaves the replayed frame unsent. */
  function DoResume(s: Sys, ok: bool): Sys
    requires s.e.wt.Some? && s.e.wt.value < |s.out| && s.e.w.resume != []
  {
    var (w', ws) := s.e.w.WriteResume();
    Emit(s, s.e.(w := if ok || ws == [] then w' else w'.(lastSent := s.e.w.lastSent), pc := Top), ws, ok || ws == [])
  }

  /** Stages `f` and writes it. Past the ACK check, a frame without room makes the writer wait; a frame taken
      while waiting returns it to the loop head. */
  function DoLive(s: Sys, f: Frame, ok: bool): Sys
    requires s.e.wt.Some? && s.e.wt.value < |s.out|
  {
    var e := s.e.(w := s.e.w.(held := None));
    var (w', ws) := e.w.WriteLive(f);
    var e' := e.Staging(f);
    var wrote := ok || ws == [];
    var pc' := if w'.held.Some? && s.e.pc.AckChecked? then Full else Top;
    Emit(s, e'.(w := if wrote then w' else e'.w, pc := pc'), ws, wrote)
  }

  function DoClose(s: Sys): Sys
    requires s.e.wt.Some? && s.e.wt.value < |s.out|
  {
    Emit(s, s.e, [Close], true).(e := s.e.(wt := None, pc := Done))
  }

  function DoTimeout(s: Sys, ping: bool, ok: bool): Sys
    requires s.e.wt.Some? && s.e.wt.value < |s.out|
  {
    Emit(s, s.e.(pc := Top), if ping then [Ping] else [], ok)
  }

  function DoWake(e: Endpoint): Endpoint {
    e.(notify := false, pc := if e.pc.Blocked? then Top else OffTop)
  }

  function DoAttach(s: Sys, t: nat): Sys
    requires t < |s.inn| && s.inn[t].reported.Some?
  {
    s.(e := s.e.(attached := Some(t), resumeAt := s.inn[t].reported.value, dialing := None, owed := s.e.owed + 1))
  }

  /** One frame handled by the reader. After CLOSE the reader ends; the connection is closed later, when its streams
      are done. */
  function Handle(e: Endpoint, m: Wire, every: nat, delay: int, at: nat): Endpoint {
    match m
    case Data(seqNo, frame) =>
      if seqNo == 0 then e.Shut().(failed := true)
      else if seqNo <= e.acks.lastRecv then
        e.(acks := e.acks.NoteReceived(seqNo, every, delay, at).0, owed := e.owed + 1)
      else if seqNo != e.acks.lastRecv + 1 then e.Shut().(failed := true)
      else
        var (acks', signal) := e.acks.NoteReceived(seqNo, every, delay, at);
        e.(acks := acks', delivered := e.delivered + [frame], owed := if signal then e.owed + 1 else e.owed)
    case AckUpTo(seqNo) => e.(w := e.w.Acked(seqNo), owed := e.owed + 1)
    case Ping => e
    case Close => e.(sawClose := true)
  }

  function DoRead(s: Sys, every: nat, delay: int, at: nat): Sys
    requires s.e.rt.Some? && s.e.rt.value < |s.inn| && s.inn[s.e.rt.value].frames != []
  {
    var t := s.e.rt.value;
    var c := s.inn[t];
    s.(e := Handle(s.e, c.frames[0], every, delay, at).Noted(c.frames[0]), inn := s.inn[t := c.(frames := c.frames[1..])])
  }

  function DoDial(s: Sys): Sys {
    Sys(s.e.(dialing := Some(|s.out|)),
        s.out + [Channel([], false, Some(s.e.acks.lastRecv), [])],
        s.inn + [Channel([], false, None, [])])
  }

  function DoReport(s: Sys, t: nat): Sys
    requires t < |s.out|
  {
    s.(out := s.out[t := s.out[t].(reported := Some(s.e.acks.lastRecv))])
  }

  function DoCut(s: Sys, t: nat, keep: nat): Sys
    requires t < |s.out| && keep <= |s.out[t].frames|
  {
    s.(out := s.out[t := s.out[t].(frames := s.out[t].frames[..keep], broken := true)])
  }

  function Do(s: Sys, a: Act, isClient: bool): Sys
    requires Enabled(s, a, isClient)
  {
    match a
    case StageOff(f) => s.(e := s.e.Staging(f).(pc := OffTop))
    case Begin => s.(e := DoBegin(s.e))
    case Leave => s.(e := s.e.(wt := None, pc := OffTop))
    case PassAck(_) => s.(e := s.e.(pc := AckChecked))
    case TakeAck(_, ok) => DoTakeAck(s, ok)
    case Resume(ok) => DoResume(s, ok)
    case Live(f, ok) => DoLive(s, f, ok)
    case LiveHeld(ok) => DoLive(s, s.e.w.held.value, ok)
    case Park(now) => s.(e := s.e.Parked(now))
    case WriteClose => DoClose(s)
    case GiveUp => s.(e := s.e.(pc := Done))
    case Idle => s.(e := s.e.(pc := OffWait))
    case Wake => s.(e := DoWake(s.e))
    case Timeout(ping, ok) => DoTimeout(s, ping, ok)
    case Signal => s.(e := s.e.(notify := true, owed := s.e.owed - 1))
    case Attach(t) => DoAttach(s, t)
    case Detach => s.(e := s.e.Detached())
    case Switch => s.(e := s.e.(rt := s.e.attached))
    case Read(every, delay, at) => DoRead(s, every, delay, at)
    case Shutdown => s.(e := s.e.Shut())
    case Dial => DoDial(s)
    case Report(t) => DoReport(s, t)
    case Cut(t, keep) => DoCut(s, t, keep)
  }

  // ---------------------------------------------------------------- runs of two endpoints

  datatype World = World(client: Endpoint, server: Endpoint, toServer: seq<Channel>, toClient: seq<Channel>) {
    function View(isClient: bool): Sys {
      if isClient then Sys(client, toServer, toClient) else Sys(server, toClient, toServer)
    }

    function Update(isClient: bool, s: Sys): World {
      if isClient then World(s.e, server, s.out, s.inn) else World(client, s.e, s.inn, s.out)
    }

    function Peer(isClient: bool): Endpoint {
      if isClient then server else client
    }
  }

  function Fresh(maxBytes: int): Endpoint {
    Endpoint(WriterState(0, Log(18, maxBytes, 0, []), None, 0, []), INITIAL, [], [],
             None, 0, None, None, 0, OffTop, None, false, 0, 0, 0, false, false, false, Past(None, {}, []))
  }

  function Init(clientMax: int, serverMax: int): World {
    World(Fresh(clientMax), Fresh(serverMax), [], [])
  }

  datatype Move = Move(isClient: bool, act: Act)

  predicate CanMove(w: World, m: Move) {
    Enabled(w.View(m.isClient), m.act, m.isClient)
  }

  function Next(w: World, m: Move): World
    requires CanMove(w, m)
  {
    w.Update(m.isClient, Do(w.View(m.isClient), m.act, m.isClient))
  }

  /** A run from the start; a move that is not enabled changes nothing. */
  datatype Run = Start(clientMax: int, serverMax: int) | Then(before: Run, move: Move)

  function End(r: Run): World {
    match r
    case Start(clientMax, serverMax) => Init(clientMax, serverMax)
    case Then(before, m) => if CanMove(End(before), m) then Next(End(before), m) else End(before)
  }
}
