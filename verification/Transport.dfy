/** Which transport a logical connection uses: attach, detach and close, each one critical section, and the
    client's reconnect goroutines around them. */
module Transport {

  import opened Prelude

  /** `owner` is history: the transport that each generation attached. `closeDone` holds once `markClosed` has
      closed the transport. */
  datatype Slot = Slot(conn: Option<nat>, gen: nat, resume: nat, closed: bool, closeDone: bool, owner: map<nat, nat>) {

    /** A closed connection refuses the transport and closes it. */
    function Attach(c: nat, resumeSeq: nat): Slot {
      if closed then this
      else this.(conn := Some(c), gen := gen + 1, resume := resumeSeq, owner := owner[gen + 1 := c])
    }

    function Detach(c: nat): Slot {
      if conn != Some(c) then this else this.(conn := None, gen := gen + 1, resume := 0)
    }

    function CloseTransport(): Slot {
      this.(conn := None, gen := gen + 1, resume := 0, closeDone := true)
    }

    predicate Active(g: nat) {
      !closed && gen == g
    }

    /** A transport is attached exactly while the current generation attached it, and none is once
        `markClosed` is through. */
    ghost predicate Valid() {
      && (forall g :: g in owner ==> g <= gen)
      && (conn.Some? <==> gen in owner)
      && (conn.Some? ==> owner[gen] == conn.value)
      && (closeDone ==> closed && conn.None?)
    }
  }

  datatype Event =
    | Attach(c: nat, resumeSeq: nat)
    | Detach(c: nat)
    | SetClosed        // the first step of markClosed
    | CloseTransport   // its second step

  function Apply(s: Slot, e: Event): Slot {
    match e
    case Attach(c, resumeSeq) => s.Attach(c, resumeSeq)
    case Detach(c) => s.Detach(c)
    case SetClosed => s.(closed := true)
    case CloseTransport => if s.closed && !s.closeDone then s.CloseTransport() else s
  }

  const INITIAL := Slot(None, 0, 0, false, false, map[])

  function After(s: Slot, events: seq<Event>): Slot {
    if events == [] then s else Apply(After(s, events[..|events| - 1]), events[|events| - 1])
  }

  /** What every event keeps, and what it may do to the generation, to earlier owners and to a closed slot. */
  lemma {:induction false} ApplyKeeps(s: Slot, e: Event)
    requires s.Valid()
    ensures Apply(s, e).Valid()
    ensures Apply(s, e).conn != s.conn ==> Apply(s, e).gen > s.gen
    ensures Apply(s, e).gen >= s.gen
    ensures forall g :: g in s.owner ==> g in Apply(s, e).owner && Apply(s, e).owner[g] == s.owner[g]
    ensures s.closed ==> Apply(s, e).closed && Apply(s, e).owner == s.owner
    ensures s.closeDone ==> Apply(s, e) == s
  {
  }

  lemma {:induction false} RunsAreValid(events: seq<Event>)
    ensures After(INITIAL, events).Valid()
  {
    if events != [] {
      RunsAreValid(events[..|events| - 1]);
      ApplyKeeps(After(INITIAL, events[..|events| - 1]), events[|events| - 1]);
    }
  }

  /** Transport `c` was attached under generation `g` only. */
  ghost predicate OnlyUnder(s: Slot, g: nat, c: nat) {
    g in s.owner && s.owner[g] == c && forall h :: h in s.owner && s.owner[h] == c ==> h == g
  }

  /** Ownership over every interleaving: a transport that finds its generation active is the one attached, and one
      that finds it replaced, on a connection that is not closed, detaches nothing. */
  lemma {:induction false} OnlyCurrentTransportIsActive(events: seq<Event>, g: nat, c: nat)
    ensures var s := After(INITIAL, events);
            && (g in s.owner && s.Active(g) ==> s.conn == Some(s.owner[g]))
            && (OnlyUnder(s, g, c) && !s.closed && !s.Active(g) ==> s.Detach(c) == s)
  {
    RunsAreValid(events);
  }

  /** Once `markClosed` is through, no transport is attached, whatever follows. */
  lemma {:induction false} ClosedForGood(events: seq<Event>, later: seq<Event>)
    requires After(INITIAL, events).closeDone
    ensures After(After(INITIAL, events), later) == After(INITIAL, events)
    ensures After(INITIAL, events).conn.None?
  {
    RunsAreValid(events);
    if later != [] {
      ClosedForGood(events, later[..|later| - 1]);
    }
  }

  /** The last transport offered to a connection that was not closed yet, and the number its peer gave with it. */
  function LastOffer(events: seq<Event>): Option<(nat, nat)> {
    if events == [] then None
    else
      var before, e := events[..|events| - 1], events[|events| - 1];
      if e.Attach? && SetClosed !in before then Some((e.c, e.resumeSeq)) else LastOffer(before)
  }

  /** In every interleaving the attached transport is the last one offered, and its resume value is the one that came
      with it; without a transport there is none. */
  lemma {:induction false} ResumeIsTheOneGiven(events: seq<Event>)
    ensures var s := After(INITIAL, events);
            && (s.closed <==> SetClosed in events)
            && (s.conn.Some? ==> LastOffer(events) == Some((s.conn.value, s.resume)))
            && (s.conn.None? ==> s.resume == 0)
  {
    if events != [] {
      var before, e := events[..|events| - 1], events[|events| - 1];
      ResumeIsTheOneGiven(before);
      assert events == before + [e];
    }
  }

  /** Generations strictly increase with every change of the transport, over any stretch of a run. */
  lemma {:induction false} GenerationsIncrease(s: Slot, events: seq<Event>)
    requires s.Valid()
    ensures After(s, events).Valid()
    ensures After(s, events).gen >= s.gen
    ensures After(s, events).gen == s.gen ==> After(s, events).conn == s.conn
  {
    if events != [] {
      GenerationsIncrease(s, events[..|events| - 1]);
      ApplyKeeps(After(s, events[..|events| - 1]), events[|events| - 1]);
    }
  }

  /** The transport fields of `Connection`; each method is one critical section. */
  class Connection {
    var conn: Option<nat>
    var transportGen: nat
    var transportResume: nat
    var closed: bool
    var socketsClosed: set<nat>
    ghost var closeDone: bool
    ghost var owner: map<nat, nat>

    ghost function Abs(): Slot
      reads this
    {
      Slot(conn, transportGen, transportResume, closed, closeDone, owner)
    }

    /** No socket leaks: every transport ever attached is the current one or was closed. */
    ghost predicate Valid()
      reads this
    {
      Abs().Valid() && forall g :: g in owner ==> conn == Some(owner[g]) || owner[g] in socketsClosed
    }

    constructor ()
      ensures Valid() && Abs() == INITIAL && socketsClosed == {}
    {
      conn, transportGen, transportResume, closed, socketsClosed := None, 0, 0, false, {};
      closeDone, owner := false, map[];
    }

    /** The transport replaced, or the one refused, is closed. */
    method AttachTransport(c: nat, peerLastRecvSeq: nat)
      requires Valid()
      modifies this
      ensures Valid()
      ensures Abs() == old(Abs()).Attach(c, peerLastRecvSeq)
      ensures socketsClosed == old(socketsClosed) +
        (if old(closed) then {c} else if old(conn).Some? && old(conn).value != c then {old(conn).value} else {})
    {
      if closed {
        socketsClosed := socketsClosed + {c};
        return;
      }
      var oldConn := conn;
      conn := Some(c);
      transportGen := transportGen + 1;
      transportResume := peerLastRecvSeq;
      owner := owner[transportGen := c];
      if oldConn.Some? && oldConn.value != c {
        socketsClosed := socketsClosed + {oldConn.value};
      }
    }

    method DetachTransport(c: nat) returns (detached: bool)
      requires Valid()
      modifies this
      ensures Valid()
      ensures Abs() == old(Abs()).Detach(c)
      ensures detached == (old(conn) == Some(c))
      ensures socketsClosed == old(socketsClosed) + (if detached then {c} else {})
    {
      if conn != Some(c) {
        return false;
      }
      conn := None;
      transportGen := transportGen + 1;
      transportResume := 0;
      socketsClosed := socketsClosed + {c};
      return true;
    }

    /** The second step of `markClosed`: after it every transport ever attached is closed. */
    method CloseTransport()
      requires Valid() && closed
      modifies this
      ensures Valid() && conn.None?
      ensures Abs() == old(Abs()).CloseTransport()
      ensures socketsClosed == old(socketsClosed) + (if old(conn).Some? then {old(conn).value} else {})
    {
      var c := conn;
      conn := None;
      transportGen := transportGen + 1;
      transportResume := 0;
      closeDone := true;
      if c.Some? {
        socketsClosed := socketsClosed + {c.value};
      }
    }
  }
}

/** The client's reconnect goroutines and the flag that lets one of them work at a time. */
module Reconnect {

  import opened Prelude
  import opened Transport

  /** `Spawning` is a detach that has yet to start its goroutine. `Begin` is before the compare-and-swap on the flag,
      `Holding` and `Finished` hold the flag while and after resuming, `Released` is before the recheck that follows. */
  datatype Pc = Spawning | Begin | Holding | Finished | Released | Exited

  datatype State = State(slot: Slot, flag: bool, routines: seq<Pc>)

  datatype Event =
    | Link(e: Transport.Event)  // anything but an attach, which only a reconnect performs
    | Spawn(i: nat)             // the detach starts its goroutine
    | Swap(i: nat)              // compare-and-swap
    | Resume(i: nat, c: nat)    // a resume that attaches transport `c`
    | GiveUp(i: nat)            // the connection is closed, or the resume is rejected for good
    | Release(i: nat)
    | Recheck(i: nat)

  function Set(s: State, i: nat, pc: Pc): State
    requires i < |s.routines|
  {
    s.(routines := s.routines[i := pc])
  }

  /** One atomic step; an event whose goroutine is elsewhere changes nothing. A detach will start a goroutine. */
  function Apply(s: State, e: Event): State {
    match e
    case Link(d) =>
      if d.Attach? then s
      else
        var slot' := Transport.Apply(s.slot, d);
        State(slot', s.flag, if d.Detach? && s.slot.conn == Some(d.c) then s.routines + [Spawning] else s.routines)
    case Spawn(i) => if i < |s.routines| && s.routines[i].Spawning? then Set(s, i, Begin) else s
    case Swap(i) =>
      if i < |s.routines| && s.routines[i].Begin? then
        if s.flag then Set(s, i, Exited) else Set(s, i, Holding).(flag := true)
      else s
    case Resume(i, c) =>
      if i < |s.routines| && s.routines[i].Holding? then Set(s, i, Finished).(slot := s.slot.Attach(c, 0)) else s
    case GiveUp(i) =>
      if i < |s.routines| && s.routines[i].Holding? then Set(s, i, Finished).(slot := s.slot.(closed := true)) else s
    case Release(i) =>
      if i < |s.routines| && s.routines[i].Finished? then Set(s, i, Released).(flag := false) else s
    case Recheck(i) =>
      if i < |s.routines| && s.routines[i].Released? then
        Set(s, i, if s.slot.closed || s.slot.conn.Some? then Exited else Begin)
      else s
  }

  function After(s: State, events: seq<Event>): State {
    if events == [] then s else Apply(After(s, events[..|events| - 1]), events[|events| - 1])
  }

  /** A client that has just connected through transport `c`. */
  function Connected(c: nat): State {
    State(Transport.INITIAL.Attach(c, 0), false, [])
  }

  predicate Holds(pc: Pc) { pc.Holding? || pc.Finished? }

  ghost predicate Lost(s: State) { s.slot.conn.None? && !s.slot.closed }

  ghost predicate Held(s: State) { exists i :: 0 <= i < |s.routines| && Holds(s.routines[i]) }

  ghost predicate Attended(s: State) { exists i :: 0 <= i < |s.routines| && !s.routines[i].Exited? }

  /** The flag is set exactly while one goroutine holds it, and a lost transport has a goroutine that will see it. */
  ghost predicate Valid(s: State) {
    && (s.flag <==> Held(s))
    && (forall i, j :: 0 <= i < |s.routines| && 0 <= j < |s.routines| && Holds(s.routines[i]) && Holds(s.routines[j]) ==> i == j)
    && (Lost(s) ==> Attended(s))
  }

  lemma {:induction false} LinkKeeps(s: State, d: Transport.Event)
    requires Valid(s)
    ensures Valid(Apply(s, Link(d)))
  {
    var s' := Apply(s, Link(d));
    var n := |s.routines|;
    assert forall i :: 0 <= i < n ==> s'.routines[i] == s.routines[i];
    if s.flag {
      var i :| 0 <= i < n && Holds(s.routines[i]);
      assert Holds(s'.routines[i]);
    }
    if |s'.routines| > n {
      assert s'.routines[n].Spawning?;
    } else if Lost(s) {
      var i :| 0 <= i < n && !s.routines[i].Exited?;
      assert !s'.routines[i].Exited?;
    }
  }

  lemma {:induction false} SwapKeeps(s: State, i: nat)
    requires Valid(s)
    ensures Valid(Apply(s, Swap(i)))
  {
    var s' := Apply(s, Swap(i));
    if i < |s.routines| && s.routines[i].Begin? {
      if s.flag {
        var j :| 0 <= j < |s.routines| && Holds(s.routines[j]);
        assert Holds(s'.routines[j]);
      } else {
        assert Holds(s'.routines[i]);
      }
    }
  }

  lemma {:induction false} SpawnKeeps(s: State, i: nat)
    requires Valid(s)
    ensures Valid(Apply(s, Spawn(i)))
  {
    if i < |s.routines| && s.routines[i].Spawning? {
      var s' := Apply(s, Spawn(i));
      if s.flag {
        var j :| 0 <= j < |s.routines| && Holds(s.routines[j]);
        assert Holds(s'.routines[j]);
      }
      assert !s'.routines[i].Exited?;
    }
  }

  lemma {:induction false} HolderKeeps(s: State, e: Event)
    requires Valid(s) && (e.Resume? || e.GiveUp?)
    ensures Valid(Apply(s, e))
  {
    if e.i < |s.routines| && s.routines[e.i].Holding? {
      assert Holds(Apply(s, e).routines[e.i]) && Holds(s.routines[e.i]);
    }
  }

  lemma {:induction false} ReleaseKeeps(s: State, i: nat)
    requires Valid(s)
    ensures Valid(Apply(s, Release(i)))
  {
    if i < |s.routines| && s.routines[i].Finished? {
      var s' := Apply(s, Release(i));
      assert Holds(s.routines[i]) && !s'.routines[i].Exited?;
      forall j | 0 <= j < |s'.routines| ensures !Holds(s'.routines[j]) {
        assert j != i ==> s'.routines[j] == s.routines[j];
      }
    }
  }

  lemma {:induction false} RecheckKeeps(s: State, i: nat)
    requires Valid(s)
    ensures Valid(Apply(s, Recheck(i)))
  {
    if i < |s.routines| && s.routines[i].Released? {
      var s' := Apply(s, Recheck(i));
      if s.flag {
        var j :| 0 <= j < |s.routines| && Holds(s.routines[j]);
        assert Holds(s'.routines[j]);
      }
      assert Lost(s) ==> !s'.routines[i].Exited?;
    }
  }

  lemma {:induction false} ApplyKeeps(s: State, e: Event)
    requires Valid(s)
    ensures Valid(Apply(s, e))
  {
    match e
    case Link(d) => LinkKeeps(s, d);
    case Spawn(i) => SpawnKeeps(s, i);
    case Swap(i) => SwapKeeps(s, i);
    case Release(i) => ReleaseKeeps(s, i);
    case Recheck(i) => RecheckKeeps(s, i);
    case _ => HolderKeeps(s, e);
  }

  /** In every interleaving, at most one goroutine holds the flag, and a client that is detached and not closed
      has a goroutine that is about to start or pending, holds the flag, or has yet to recheck. */
  lemma {:induction false} ReconnectNeverLostNorDoubled(c: nat, events: seq<Event>)
    ensures Valid(After(Connected(c), events))
  {
    if events != [] {
      ReconnectNeverLostNorDoubled(c, events[..|events| - 1]);
      ApplyKeeps(After(Connected(c), events[..|events| - 1]), events[|events| - 1]);
    }
  }

  /** A goroutine that finds the flag set ends, any other takes it. */
  lemma {:induction false} SwapIsExact(s: State, i: nat)
    requires i < |s.routines| && s.routines[i].Begin?
    ensures Apply(s, Swap(i)).flag && Apply(s, Swap(i)).routines[i] == if s.flag then Exited else Holding
  {
  }

  /** The goroutine that holds the flag is done only with a transport attached or the connection closed. */
  lemma {:induction false} DoneMeansNotLost(s: State, e: Event)
    requires (e.Resume? || e.GiveUp?) && e.i < |s.routines| && s.routines[e.i].Holding?
    ensures !Lost(Apply(s, e)) && Apply(s, e).routines[e.i].Finished? && Apply(s, e).flag == s.flag
    ensures e.Resume? && !s.slot.closed ==> Apply(s, e).slot.conn == Some(e.c)
  {
  }

  /** Whether a goroutine that has released the flag goes on: exactly if the transport is lost. */
  lemma {:induction false} RecheckGoesOnExactlyIfLost(s: State, i: nat)
    requires i < |s.routines| && s.routines[i].Released?
    ensures Apply(s, Recheck(i)).routines[i] == if Lost(s) then Begin else Exited
  {
  }

  ghost predicate Reached(s: State) { exists events :: After(Connected(0), events) == s }

  lemma {:induction false} Step(s: State, e: Event) returns (s': State)
    requires Reached(s)
    ensures s' == Apply(s, e) && Reached(s')
  {
    var events :| After(Connected(0), events) == s;
    s' := Apply(s, e);
    assert (events + [e])[..|events|] == events;
    assert After(Connected(0), events + [e]) == s';
  }

  /** A goroutine started for one loss can win the flag after another one has attached a new transport, and dials
      while that is attached: nothing checks for it. */
  lemma {:induction false} DialWhileAttached() returns (s: State)
    ensures Reached(s) && s.slot.conn == Some(2) && |s.routines| == 2 && s.routines[1].Holding?
  {
    s := Connected(0);
    assert After(s, []) == s;
    s := Step(s, Link(Transport.Event.Detach(0)));
    s := Step(s, Spawn(0));
    s := Step(s, Swap(0));
    s := Step(s, Resume(0, 1));
    s := Step(s, Release(0));
    s := Step(s, Link(Transport.Event.Detach(1)));
    s := Step(s, Spawn(1));
    s := Step(s, Recheck(0));
    s := Step(s, Swap(0));
    s := Step(s, Resume(0, 2));
    s := Step(s, Release(0));
    s := Step(s, Swap(1));
  }

  /** The goroutines alone, without another detach, bring the client back: from every such state a few of their
      steps attach the next transport. */
  lemma {:induction false} LostTransportCanBeReplaced(s: State, c: nat) returns (events: seq<Event>)
    requires Valid(s) && Lost(s)
    ensures |events| <= 4 && forall k :: 0 <= k < |events| ==> !events[k].Link? && !events[k].GiveUp?
    ensures After(s, events).slot.conn == Some(c)
  {
    var i: nat;
    if s.flag {
      i :| 0 <= i < |s.routines| && Holds(s.routines[i]);
    } else {
      i :| 0 <= i < |s.routines| && !s.routines[i].Exited?;
    }
    match s.routines[i]
    case Holding =>
      events := [Resume(i, c)];
      Unfold1(s, events);
    case Begin => events := BeginAttaches(s, i, c);
    case Spawning =>
      Unfold1(s, [Spawn(i)]);
      events := ThenBegin(s, [Spawn(i)], i, c);
    case Released =>
      Unfold1(s, [Recheck(i)]);
      events := ThenBegin(s, [Recheck(i)], i, c);
    case Finished =>
      Unfold2(s, Release(i), Recheck(i));
      events := ThenBegin(s, [Release(i), Recheck(i)], i, c);
  }

  lemma {:induction false} BeginAttaches(s: State, i: nat, c: nat) returns (events: seq<Event>)
    requires i < |s.routines| && s.routines[i].Begin? && !s.flag && !s.slot.closed
    ensures events == [Swap(i), Resume(i, c)] && After(s, events).slot.conn == Some(c)
  {
    events := [Swap(i), Resume(i, c)];
    Unfold2(s, Swap(i), Resume(i, c));
  }

  /** Steps that bring goroutine `i` to its start, and those that attach from there. */
  lemma {:induction false} ThenBegin(s: State, first: seq<Event>, i: nat, c: nat) returns (events: seq<Event>)
    requires var s' := After(s, first); i < |s'.routines| && s'.routines[i].Begin? && !s'.flag && !s'.slot.closed
    ensures events == first + [Swap(i), Resume(i, c)] && After(s, events).slot.conn == Some(c)
  {
    var rest := BeginAttaches(After(s, first), i, c);
    AfterConcat(s, first, rest);
    events := first + rest;
  }

  lemma {:induction false} Unfold1(s: State, es: seq<Event>)
    requires |es| == 1
    ensures After(s, es) == Apply(s, es[0])
  {
    assert es[..0] == [];
  }

  lemma {:induction false} Unfold2(s: State, a: Event, b: Event)
    ensures After(s, [a, b]) == Apply(Apply(s, a), b)
  {
    assert [a, b][..1] == [a];
    Unfold1(s, [a]);
  }

  lemma {:induction false} AfterConcat(s: State, a: seq<Event>, b: seq<Event>)
    ensures After(s, a + b) == After(After(s, a), b)
  {
    if b == [] {
      assert a + b == a;
    } else {
      assert (a + b)[..|a + b| - 1] == a + b[..|b| - 1];
      AfterConcat(s, a, b[..|b| - 1]);
    }
  }
}
