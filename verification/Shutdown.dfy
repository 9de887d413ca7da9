/** Server shutdown: what it snapshots, what its goroutines still do, and what a nil return means. */
module Shutdown {

  import opened Prelude

  /** What `lifecycleMu` guards. Sockets and the connections made from them share their numbers. */
  datatype Registry = Registry(stopping: bool, handshakes: set<nat>, conns: set<nat>, running: nat) {

    function BeginHandshake(i: nat): Registry {
      if stopping then this else this.(handshakes := handshakes + {i}, running := running + 1)
    }

    function EndHandshake(i: nat): Registry { this.(handshakes := handshakes - {i}) }

    function TrackConn(i: nat): Registry {
      this.(handshakes := handshakes - {i}, conns := if stopping then conns else conns + {i})
    }

    function UntrackConn(i: nat): Registry { this.(conns := conns - {i}) }
  }

  /** The lifecycle fields of `Server`; each method is one critical section. */
  class Server {
    var stopping: bool
    var handshakes: set<nat>
    var conns: set<nat>
    var running: nat

    ghost function Abs(): Registry
      reads this
    {
      Registry(stopping, handshakes, conns, running)
    }

    constructor ()
      ensures Abs() == Registry(false, {}, {}, 0)
    {
      stopping, handshakes, conns, running := false, {}, {}, 0;
    }

    method BeginHandshake(i: nat) returns (ok: bool)
      modifies this
      ensures ok == !old(stopping) && Abs() == old(Abs()).BeginHandshake(i)
    {
      if stopping {
        return false;
      }
      handshakes := handshakes + {i};
      running := running + 1;
      return true;
    }

    method EndHandshake(i: nat)
      modifies this
      ensures Abs() == old(Abs()).EndHandshake(i)
    {
      handshakes := handshakes - {i};
    }

    method TrackConn(i: nat) returns (ok: bool)
      modifies this
      ensures ok == !old(stopping) && Abs() == old(Abs()).TrackConn(i)
    {
      handshakes := handshakes - {i};
      if stopping {
        return false;
      }
      conns := conns + {i};
      return true;
    }

    method UntrackConn(i: nat)
      modifies this
      ensures Abs() == old(Abs()).UntrackConn(i)
    {
      conns := conns - {i};
    }

    method Stop() returns (handshakesNow: set<nat>, connsNow: set<nat>)
      modifies this
      ensures Abs() == old(Abs()).(stopping := true)
      ensures handshakesNow == handshakes && connsNow == conns
    {
      stopping := true;
      return handshakes, conns;
    }
  }

  // ---------------------------------------------------------------- the goroutines

  /** The goroutine that serves an accepted socket. */
  datatype Pc =
    | Accepted   // accepted, not registered yet
    | Refused    // refused by BeginHandshake; the accept loop closes it next
    | Shaking    // in the handshake or the attach
    | Starting   // its connection runs and is not tracked yet
    | MustClose  // TrackConn refused it; it closes its connection next
    | Tracked    // tracked, or closed by itself
    | Awaiting   // waiting for its connection to close
    | Leaving    // untracked; OnDisconnect runs next
    | Ending     // about to forget the handshake and to stop counting
    | Gone

  /** The goroutine that a recovery connection leaves behind to wait for its end. */
  datatype Waiter = NoWaiter | Waiting | WaiterLeaving | WaiterGone

  datatype Life = NotMade | Open | Closed

  /** `shut` is a socket closed on its own; `owner` is the connection that a resume moved it to; `notified` holds
      once OnDisconnect has returned; `rejected` marks a connection that OnConnect refused. */
  datatype Proc = Proc(pc: Pc, waiter: Waiter, life: Life, v3: bool, shut: bool, owner: Option<nat>, notified: bool, rejected: bool) {
    function Live(): nat {
      (if pc.Accepted? || pc.Refused? || pc.Gone? then 0 else 1) + (if waiter.Waiting? || waiter.WaiterLeaving? then 1 else 0)
    }
  }

  /** `snapHandshakes` and `snapConns` are what the Shutdown calls so far close. */
  datatype State = State(reg: Registry, procs: seq<Proc>, snapHandshakes: set<nat>, snapConns: set<nat>)

  datatype Event =
    | Accept
    | Begin(i: nat)
    | DropRefused(i: nat)
    | Fail(i: nat)                 // handshake, attach or OnConnect fails before a connection runs
    | Start(i: nat, v3: bool)
    | Reject(i: nat)               // OnConnect refuses a recovery connection
    | MoveTo(i: nat, k: nat)       // a resume hands the socket to connection k
    | Track(i: nat)
    | CloseOwn(i: nat)
    | Await(i: nat)
    | Closes(i: nat)               // a connection closes: by its peer, by a failure, or by Shutdown
    | Untrack(i: nat)
    | Notified(i: nat)             // OnDisconnect returns
    | WaiterUntrack(i: nat)
    | WaiterNotified(i: nat)
    | Finish(i: nat)
    | Stop                         // the critical section of Shutdown
    | DropHandshake(i: nat)        // Shutdown closes a socket of its snapshot

  predicate At(s: State, i: nat, pc: Pc) {
    i < |s.procs| && s.procs[i].pc == pc
  }

  function Put(s: State, i: nat, p: Proc): State
    requires i < |s.procs|
  {
    s.(procs := s.procs[i := p])
  }

  predicate Enabled(s: State, e: Event) {
    match e
    case Accept => true
    case Begin(i) => At(s, i, Accepted)
    case DropRefused(i) => At(s, i, Refused)
    case Fail(i) => At(s, i, Shaking)
    case Start(i, _) => At(s, i, Shaking)
    case Reject(i) => At(s, i, Starting) && s.procs[i].v3
    case MoveTo(i, k) => At(s, i, Shaking) && k < |s.procs| && k != i && s.procs[k].life.Open?
    case Track(i) => At(s, i, Starting)
    case CloseOwn(i) => At(s, i, MustClose)
    case Await(i) => At(s, i, Tracked)
    case Closes(i) => i < |s.procs| && s.procs[i].life.Open?
    case Untrack(i) => At(s, i, Awaiting) && s.procs[i].life.Closed?
    case Notified(i) => At(s, i, Leaving)
    case WaiterUntrack(i) => i < |s.procs| && s.procs[i].waiter.Waiting? && s.procs[i].life.Closed?
    case WaiterNotified(i) => i < |s.procs| && s.procs[i].waiter.WaiterLeaving? && s.reg.running > 0
    case Finish(i) => At(s, i, Ending) && s.reg.running > 0
    case Stop => true
    case DropHandshake(i) => i < |s.procs| && i in s.snapHandshakes
  }

  function Apply(s: State, e: Event): State
    requires Enabled(s, e)
  {
    match e
    case Accept => s.(procs := s.procs + [Proc(Accepted, NoWaiter, NotMade, false, false, None, false, false)])
    case Begin(i) => Put(s, i, s.procs[i].(pc := if s.reg.stopping then Refused else Shaking)).(reg := s.reg.BeginHandshake(i))
    case DropRefused(i) => Put(s, i, s.procs[i].(pc := Gone, shut := true))
    case Fail(i) => Put(s, i, s.procs[i].(pc := Ending, shut := true))
    case Start(i, v3) => Put(s, i, s.procs[i].(pc := Starting, life := Open, v3 := v3))
    case Reject(i) => Put(s, i, s.procs[i].(pc := Ending, life := Closed, shut := true, rejected := true))
    case MoveTo(i, k) => Put(s, i, s.procs[i].(pc := Ending, owner := Some(k)))
    case Track(i) => Put(s, i, s.procs[i].(pc := if s.reg.stopping then MustClose else Tracked)).(reg := s.reg.TrackConn(i))
    case CloseOwn(i) => Put(s, i, s.procs[i].(pc := Tracked, life := Closed))
    case Await(i) =>
      if s.procs[i].v3
      then Put(s, i, s.procs[i].(pc := Ending, waiter := Waiting)).(reg := s.reg.(running := s.reg.running + 1))
      else Put(s, i, s.procs[i].(pc := Awaiting))
    case Closes(i) => Put(s, i, s.procs[i].(life := Closed))
    case Untrack(i) => Put(s, i, s.procs[i].(pc := Leaving)).(reg := s.reg.UntrackConn(i))
    case Notified(i) => Put(s, i, s.procs[i].(pc := Ending, notified := true))
    case WaiterUntrack(i) => Put(s, i, s.procs[i].(waiter := WaiterLeaving)).(reg := s.reg.UntrackConn(i))
    case WaiterNotified(i) =>
      Put(s, i, s.procs[i].(waiter := WaiterGone, notified := true)).(reg := s.reg.(running := s.reg.running - 1))
    case Finish(i) =>
      Put(s, i, s.procs[i].(pc := Gone)).(reg := s.reg.EndHandshake(i).(running := s.reg.running - 1))
    case Stop =>
      State(s.reg.(stopping := true), s.procs, s.snapHandshakes + s.reg.handshakes, s.snapConns + s.reg.conns)
    case DropHandshake(i) => Put(s, i, s.procs[i].(shut := true))
  }

  datatype Run = Fresh | Then(before: Run, e: Event)

  function End(r: Run): State {
    match r
    case Fresh => State(Registry(false, {}, {}, 0), [], {}, {})
    case Then(before, e) => if Enabled(End(before), e) then Apply(End(before), e) else End(before)
  }

  // ---------------------------------------------------------------- invariants

  function LiveCount(procs: seq<Proc>): nat {
    if procs == [] then 0 else LiveCount(procs[..|procs| - 1]) + procs[|procs| - 1].Live()
  }

  lemma {:induction false} LiveCountUpdate(procs: seq<Proc>, i: nat, p: Proc)
    requires i < |procs|
    ensures LiveCount(procs[i := p]) == LiveCount(procs) - procs[i].Live() + p.Live()
  {
    var n := |procs| - 1;
    if i < n {
      LiveCountUpdate(procs[..n], i, p);
      assert procs[i := p][..n] == procs[..n][i := p];
    } else {
      assert procs[i := p][..n] == procs[..n];
    }
  }

  lemma {:induction false} LiveCountAt(procs: seq<Proc>, i: nat)
    requires i < |procs|
    ensures LiveCount(procs) >= procs[i].Live()
  {
    if i < |procs| - 1 {
      LiveCountAt(procs[..|procs| - 1], i);
    }
  }

  /** One goroutine against the registry and the snapshots. */
  ghost predicate ProcValid(s: State, i: nat)
    requires i < |s.procs|
  {
    var p := s.procs[i];
    && (p.pc.Shaking? || p.pc.Starting? ==> i in s.reg.handshakes)
    // An open connection is being started, is closed next, or is tracked by a goroutine that awaits its end.
    && (p.life.Open? ==>
          p.pc.Starting? || p.pc.MustClose? || ((p.pc.Tracked? || p.pc.Awaiting? || p.waiter.Waiting?) && i in s.reg.conns))
    && (p.pc.Starting? || p.pc.MustClose? || p.pc.Tracked? || p.pc.Awaiting? ==> !p.life.NotMade? && p.waiter.NoWaiter?)
    && (p.pc.Accepted? || p.pc.Refused? || p.pc.Shaking? ==> p.life.NotMade? && p.waiter.NoWaiter? && p.owner.None?)
    && (p.pc.Leaving? || p.waiter.WaiterLeaving? || p.waiter.WaiterGone? ==> p.life.Closed?)
    && (p.waiter.Waiting? ==> !p.life.NotMade?)
    // A connection that ran is notified before its last goroutine ends.
    && (p.life.Closed? && !p.rejected && !p.notified ==>
          p.pc.Starting? || p.pc.MustClose? || p.pc.Tracked? || p.pc.Awaiting? || p.pc.Leaving?
          || p.waiter.Waiting? || p.waiter.WaiterLeaving?)
    && (p.owner.Some? ==> p.owner.value < |s.procs| && !s.procs[p.owner.value].life.NotMade?)
    // A socket still open on its own account is served, refused next, or in the hands of a connection.
    && (!p.shut && (p.pc.Ending? || p.pc.Gone?) ==> p.owner.Some? || !p.life.NotMade?)
  }

  ghost predicate Valid(s: State) {
    && (forall i :: 0 <= i < |s.procs| ==> ProcValid(s, i))
    && s.reg.running == LiveCount(s.procs)
    && (s.reg.stopping ==> s.reg.handshakes <= s.snapHandshakes && s.reg.conns <= s.snapConns)
  }

  /** A step of the goroutines of `i` that leaves the others' sockets and connections alone. */
  lemma {:induction false} StepKeeps(s: State, i: nat, p: Proc, reg': Registry, s': State)
    requires Valid(s) && i < |s.procs| && s' == Put(s, i, p).(reg := reg') && ProcValid(s', i)
    requires s.procs[i].life.NotMade? || !p.life.NotMade?
    requires reg'.stopping == s.reg.stopping
    requires forall j :: j != i ==> (j in reg'.handshakes <==> j in s.reg.handshakes) && (j in reg'.conns <==> j in s.reg.conns)
    requires s.reg.stopping ==> reg'.handshakes <= s.reg.handshakes && reg'.conns <= s.reg.conns
    requires reg'.running == s.reg.running - s.procs[i].Live() + p.Live()
    ensures Valid(s')
  {
    LiveCountUpdate(s.procs, i, p);
    forall j | 0 <= j < |s'.procs| ensures ProcValid(s', j) {
      if j != i {
        assert ProcValid(s, j);
      }
    }
  }

  lemma {:induction false} AcceptKeeps(s: State)
    requires Valid(s)
    ensures Valid(Apply(s, Accept))
  {
    var s' := Apply(s, Accept);
    assert s'.procs[..|s.procs|] == s.procs;
    forall j | 0 <= j < |s'.procs| ensures ProcValid(s', j) {
      if j < |s.procs| {
        assert ProcValid(s, j);
      }
    }
  }

  lemma {:induction false} StopKeeps(s: State)
    requires Valid(s)
    ensures Valid(Apply(s, Stop))
  {
    forall j | 0 <= j < |s.procs| ensures ProcValid(Apply(s, Stop), j) {
      assert ProcValid(s, j);
    }
  }

  predicate BeforeTracking(e: Event) {
    e.Begin? || e.DropRefused? || e.Fail? || e.Start? || e.Reject? || e.MoveTo? || e.Track? || e.DropHandshake?
  }

  lemma {:induction false} EarlyKeeps(s: State, e: Event)
    requires Valid(s) && Enabled(s, e) && BeforeTracking(e)
    ensures Valid(Apply(s, e))
  {
    var s' := Apply(s, e);
    assert ProcValid(s, e.i);
    StepKeeps(s, e.i, s'.procs[e.i], s'.reg, s');
  }

  lemma {:induction false} LateKeeps(s: State, e: Event)
    requires Valid(s) && Enabled(s, e) && !BeforeTracking(e) && !e.Accept? && !e.Stop?
    ensures Valid(Apply(s, e))
  {
    var s' := Apply(s, e);
    assert ProcValid(s, e.i);
    StepKeeps(s, e.i, s'.procs[e.i], s'.reg, s');
  }

  lemma {:induction false} RunsAreValid(r: Run)
    ensures Valid(End(r))
  {
    if r.Then? {
      RunsAreValid(r.before);
      if Enabled(End(r.before), r.e) {
        if r.e.Accept? {
          AcceptKeeps(End(r.before));
        } else if r.e.Stop? {
          StopKeeps(End(r.before));
        } else if BeforeTracking(r.e) {
          EarlyKeeps(End(r.before), r.e);
        } else {
          LateKeeps(End(r.before), r.e);
        }
      }
    }
  }

  // ---------------------------------------------------------------- what Shutdown guarantees

  /** Connection `i` is in Shutdown's snapshot, or its own goroutine is about to close it: the goroutine that
      started it is refused by TrackConn, and its socket is in the snapshot as well. */
  ghost predicate ConnDoomed(s: State, i: nat)
    requires i < |s.procs|
  {
    || i in s.snapConns
    || s.procs[i].pc.MustClose?
    || (s.procs[i].pc.Starting? && i in s.snapHandshakes)
  }

  /** Socket `i` is closed or about to be refused, in the snapshot, or held by a connection that is. */
  ghost predicate SocketDoomed(s: State, i: nat)
    requires i < |s.procs|
  {
    var p := s.procs[i];
    || p.shut || p.pc.Accepted? || p.pc.Refused? || i in s.snapHandshakes
    || p.life.Closed? || (p.life.Open? && ConnDoomed(s, i))
    || (p.owner.Some? && p.owner.value < |s.procs| &&
        (s.procs[p.owner.value].life.Closed? || ConnDoomed(s, p.owner.value)))
  }

  /** Shutdown misses nothing: once its critical section is through, every connection and every socket is in a
      snapshot, closed, or about to be closed by its own goroutine. */
  lemma {:induction false} ShutdownIsComplete(r: Run, s: State, i: nat)
    requires s == End(r) && s.reg.stopping && i < |s.procs|
    ensures s.procs[i].life.Open? ==> ConnDoomed(s, i)
    ensures SocketDoomed(s, i)
    ensures s.procs[i].pc.Accepted? ==> Apply(s, Begin(i)).procs[i].pc.Refused?
    ensures s.procs[i].pc.Starting? ==> Apply(s, Track(i)).procs[i].pc.MustClose?
  {
    RunsAreValid(r);
    assert ProcValid(s, i);
    if s.procs[i].owner.Some? {
      assert ProcValid(s, s.procs[i].owner.value);
    }
  }

  /** Once Shutdown has begun and no goroutine is counted, none ever is again. */
  lemma {:induction false} RunningStaysZero(s: State, e: Event)
    requires Valid(s) && s.reg.stopping && s.reg.running == 0 && Enabled(s, e)
    ensures Apply(s, e).reg.stopping && Apply(s, e).reg.running == 0
  {
    if e.Await? {
      LiveCountAt(s.procs, e.i);
    }
  }

  ghost function Extend(r: Run, later: seq<Event>): Run {
    if later == [] then r else Then(Extend(r, later[..|later| - 1]), later[|later| - 1])
  }

  /** A nil return of Shutdown: when it sees no goroutine counted, every serving goroutine has ended, every
      connection that ran is closed and its OnDisconnect has returned; and it stays so. */
  lemma {:induction false} NilReturnMeansDone(r: Run, later: seq<Event>, s: State, i: nat)
    requires End(r).reg.stopping && End(r).reg.running == 0
    requires s == End(Extend(r, later)) && i < |s.procs|
    ensures s.reg.stopping && s.reg.running == 0
    ensures var p := s.procs[i];
            && (p.pc.Accepted? || p.pc.Refused? || p.pc.Gone?) && !p.waiter.Waiting? && !p.waiter.WaiterLeaving?
            && !p.life.Open? && (p.life.Closed? && !p.rejected ==> p.notified)
  {
    StaysZero(r, later);
    RunsAreValid(Extend(r, later));
    LiveCountAt(s.procs, i);
    assert ProcValid(s, i);
  }

  lemma {:induction false} StaysZero(r: Run, later: seq<Event>)
    requires End(r).reg.stopping && End(r).reg.running == 0
    ensures End(Extend(r, later)).reg.stopping && End(Extend(r, later)).reg.running == 0
  {
    if later != [] {
      var before := Extend(r, later[..|later| - 1]);
      StaysZero(r, later[..|later| - 1]);
      RunsAreValid(before);
      if Enabled(End(before), later[|later| - 1]) {
        RunningStaysZero(End(before), later[|later| - 1]);
      }
    }
  }

  // ---------------------------------------------------------------- no dead end

  /** `r'` goes on from `r` without another call of Shutdown. */
  ghost predicate GoesOn(r: Run, r': Run) { r' == r || (r'.Then? && !r'.e.Stop? && GoesOn(r, r'.before)) }

  lemma {:induction false} GoesFurther(r: Run, r1: Run, r2: Run)
    requires GoesOn(r, r1) && GoesOn(r1, r2)
    ensures GoesOn(r, r2)
    decreases r2
  {
    if r2 != r1 {
      GoesFurther(r, r1, r2.before);
    }
  }

  /** A socket that is accepted while the server runs gets to its handshake. */
  lemma {:induction false} Admits(r: Run) returns (r': Run)
    requires !End(r).reg.stopping
    ensures GoesOn(r, r')
    ensures var s, s', i := End(r), End(r'), |End(r).procs|;
            && |s'.procs| == i + 1 && s'.procs[..i] == s.procs && s'.procs[i].pc.Shaking?
            && s'.reg == Registry(false, s.reg.handshakes + {i}, s.reg.conns, s.reg.running + 1)
  {
    var i := |End(r).procs|;
    var r1 := Then(r, Accept);
    assert At(End(r1), i, Accepted) && End(r1).procs[..i] == End(r).procs && End(r1).reg == End(r).reg;
    r' := Then(r1, Begin(i));
    assert GoesOn(r, r1);
  }

  /** A server that is not stopping serves: whatever it has done, the next socket becomes a tracked connection. */
  lemma {:induction false} RunningServerServes(r: Run, v3: bool) returns (r': Run)
    requires !End(r).reg.stopping
    ensures GoesOn(r, r')
    ensures var s, s', i := End(r), End(r'), |End(r).procs|;
            && |s'.procs| == i + 1 && s'.procs[..i] == s.procs && s'.procs[i].pc.Tracked? && s'.procs[i].life.Open?
            && i in s'.reg.conns && i !in s'.reg.handshakes && s'.reg.running == s.reg.running + 1
  {
    var i := |End(r).procs|;
    var r1 := Admits(r);
    var r2 := Then(r1, Start(i, v3));
    assert At(End(r2), i, Starting) && End(r2).reg == End(r1).reg && End(r2).procs[..i] == End(r1).procs[..i];
    r' := Then(r2, Track(i));
    assert GoesOn(r1, r2) && GoesOn(r1, r');
    GoesFurther(r, r1, r');
  }

  function PcWork(pc: Pc): nat {
    match pc
    case Shaking => 7
    case Starting => 6
    case MustClose => 5
    case Tracked => 4
    case Awaiting => 3
    case Leaving => 2
    case Ending => 1
    case _ => 0
  }

  /** What is left to do for the goroutines of one socket. */
  function Work(p: Proc): nat {
    4 * PcWork(p.pc) + (if p.waiter.Waiting? then 2 else if p.waiter.WaiterLeaving? then 1 else 0) + (if p.life.Open? then 1 else 0)
  }

  function AllWork(procs: seq<Proc>): nat {
    if procs == [] then 0 else AllWork(procs[..|procs| - 1]) + Work(procs[|procs| - 1])
  }

  lemma {:induction false} AllWorkUpdate(procs: seq<Proc>, i: nat, p: Proc)
    requires i < |procs|
    ensures AllWork(procs[i := p]) == AllWork(procs) - Work(procs[i]) + Work(p)
  {
    var n := |procs| - 1;
    if i < n {
      AllWorkUpdate(procs[..n], i, p);
      assert procs[i := p][..n] == procs[..n][i := p];
    } else {
      assert procs[i := p][..n] == procs[..n];
    }
  }

  lemma {:induction false} SomeoneIsLive(procs: seq<Proc>) returns (i: nat)
    requires LiveCount(procs) > 0
    ensures i < |procs| && procs[i].Live() > 0
  {
    var n := |procs| - 1;
    if procs[n].Live() > 0 {
      i := n;
    } else {
      i := SomeoneIsLive(procs[..n]);
    }
  }

  /** What a goroutine that is alive can do next. */
  function NextEvent(p: Proc, i: nat): Event {
    match p.pc
    case Shaking => Fail(i)
    case Starting => Track(i)
    case MustClose => CloseOwn(i)
    case Tracked => Await(i)
    case Awaiting => if p.life.Open? then Closes(i) else Untrack(i)
    case Leaving => Notified(i)
    case Ending => Finish(i)
    case _ => if p.waiter.WaiterLeaving? then WaiterNotified(i) else if p.life.Open? then Closes(i) else WaiterUntrack(i)
  }

  ghost predicate Advances(s: State, e: Event, i: nat)
    requires i < |s.procs|
  {
    && Enabled(s, e) && !e.Stop? && Apply(s, e).reg.stopping == s.reg.stopping
    && |Apply(s, e).procs| == |s.procs|
    && Apply(s, e).procs == s.procs[i := Apply(s, e).procs[i]]
    && Work(Apply(s, e).procs[i]) < Work(s.procs[i])
  }

  lemma {:induction false} EarlyProgress(s: State, i: nat)
    requires i < |s.procs| && ProcValid(s, i) && s.reg.running > 0 && PcWork(s.procs[i].pc) >= 4
    ensures Advances(s, NextEvent(s.procs[i], i), i)
  {
  }

  lemma {:induction false} AwaitingProgress(s: State, i: nat)
    requires i < |s.procs| && ProcValid(s, i) && s.procs[i].pc.Awaiting?
    ensures Advances(s, NextEvent(s.procs[i], i), i)
  {
  }

  lemma {:induction false} EndingProgress(s: State, i: nat)
    requires i < |s.procs| && s.reg.running > 0 && (s.procs[i].pc.Leaving? || s.procs[i].pc.Ending?)
    ensures Advances(s, NextEvent(s.procs[i], i), i)
  {
  }

  lemma {:induction false} WaiterProgress(s: State, i: nat)
    requires i < |s.procs| && ProcValid(s, i) && s.reg.running > 0 && PcWork(s.procs[i].pc) == 0 && s.procs[i].Live() > 0
    ensures Advances(s, NextEvent(s.procs[i], i), i)
  {
  }

  lemma {:induction false} Progress(s: State, i: nat)
    requires Valid(s) && i < |s.procs| && s.procs[i].Live() > 0
    ensures Advances(s, NextEvent(s.procs[i], i), i)
  {
    assert ProcValid(s, i);
    LiveCountAt(s.procs, i);
    if PcWork(s.procs[i].pc) >= 4 {
      EarlyProgress(s, i);
    } else if s.procs[i].pc.Awaiting? {
      AwaitingProgress(s, i);
    } else if PcWork(s.procs[i].pc) > 0 {
      EndingProgress(s, i);
    } else {
      WaiterProgress(s, i);
    }
  }

  /** Shutdown can always finish: from every run some continuation, without another connection, ends with no goroutine
      counted. */
  lemma {:induction false} ShutdownCanFinish(r: Run) returns (r': Run)
    ensures GoesOn(r, r') && End(r').reg.running == 0 && End(r').reg.stopping == End(r).reg.stopping
    ensures |End(r').procs| == |End(r).procs|
    decreases AllWork(End(r).procs)
  {
    var s := End(r);
    RunsAreValid(r);
    if s.reg.running == 0 {
      r' := r;
    } else {
      var i := SomeoneIsLive(s.procs);
      Progress(s, i);
      var r1 := Then(r, NextEvent(s.procs[i], i));
      AllWorkUpdate(s.procs, i, End(r1).procs[i]);
      r' := ShutdownCanFinish(r1);
      assert GoesOn(r, r1);
      GoesFurther(r, r1, r');
    }
  }
}
