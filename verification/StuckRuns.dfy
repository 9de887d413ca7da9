/** Why each rule of a clean run is needed: three runs that break one rule each and end quiescent with a sender that
    is never acknowledged.

    In each, a side takes its ACK for a frame on the transport that is being replaced, having told its peer for the
    new transport that it received nothing; the peer replays the frame, and the duplicate asks for no new ACK
    because an ACK was sent. */
module StuckRuns {

  import opened Prelude
  import opened Replay
  import opened Writer
  import opened Acks
  import opened Protocol
  import opened Quiescence
  import opened Jams

  /** `w` ends a run that obeys every rule but perhaps `rule`. */
  ghost predicate Reachable(w: World, rule: Rule) {
    exists r :: End(r) == w && forall q :: q != rule ==> AllObey(r, q)
  }

  lemma {:induction false} Go(w: World, m: Move, rule: Rule) returns (w': World)
    requires Reachable(w, rule) && CanMove(w, m)
    requires forall q :: q != rule ==> Obeys(q, w.View(m.isClient), m.act, m.isClient)
    ensures w' == Next(w, m) && Reachable(w', rule)
  {
    var r :| End(r) == w && forall q :: q != rule ==> AllObey(r, q);
    w' := Next(w, m);
    assert End(Then(r, m)) == w';
    forall q | q != rule ensures AllObey(Then(r, m), q) {
      assert AllObey(r, q);
    }
  }

  const F := Frame(1, 0, [])
  const REC1 := Record(1, F, 18)

  function Ep(w: WriterState, acks: AckState, staged: seq<Frame>, delivered: seq<Frame>, attached: Option<nat>,
              dialing: Option<nat>, wt: Option<nat>, pc: Pc, rt: Option<nat>, owed: nat,
              ackOn: Option<nat>, tookOver: set<nat>, read: seq<Wire>): Endpoint {
    Endpoint(w, acks, staged, delivered, attached, 0, dialing, wt, 0, pc, rt, false, owed, 0, 0, false, false, false,
             Past(ackOn, tookOver, read))
  }

  // the client dialed transport 0 and both sides reported that they received nothing
  ghost function Opened(): World {
    World(
      Ep(WriterState(0, Log(18, 18, 0, []), None, 0, []), AckState(0, 0, 0, false, 0), [], [],
         None, Some(0), None, OffTop, None, 0, None, {}, []),
      Ep(WriterState(0, Log(18, 18, 0, []), None, 0, []), AckState(0, 0, 0, false, 0), [], [],
         None, None, None, OffTop, None, 0, None, {}, []),
      [Channel([], false, Some(0), [])],
      [Channel([], false, Some(0), [])])
  }

  // both sides attached it
  ghost function Connected(): World {
    World(
      Ep(WriterState(0, Log(18, 18, 0, []), None, 0, []), AckState(0, 0, 0, false, 0), [], [],
         Some(0), None, None, OffTop, None, 1, None, {}, []),
      Ep(WriterState(0, Log(18, 18, 0, []), None, 0, []), AckState(0, 0, 0, false, 0), [], [],
         Some(0), None, None, OffTop, None, 1, None, {}, []),
      [Channel([], false, Some(0), [])],
      [Channel([], false, Some(0), [])])
  }

  // both writers and the reader of the server use it
  ghost function Ready(): World {
    World(
      Ep(WriterState(0, Log(18, 18, 0, []), None, 0, []), AckState(0, 0, 0, false, 0), [], [],
         Some(0), None, Some(0), AckChecked, None, 1, None, {0}, []),
      Ep(WriterState(0, Log(18, 18, 0, []), None, 0, []), AckState(0, 0, 0, false, 0), [], [],
         Some(0), None, Some(0), Top, Some(0), 1, None, {0}, []),
      [Channel([], false, Some(0), [])],
      [Channel([], false, Some(0), [])])
  }

  // the client sent one frame
  ghost function Shipped(): World {
    World(
      Ep(WriterState(1, Log(18, 18, 0, [REC1]), None, 1, []), AckState(0, 0, 0, false, 0), [F], [],
         Some(0), None, Some(0), Top, None, 1, None, {0}, []),
      Ep(WriterState(0, Log(18, 18, 0, []), None, 0, []), AckState(0, 0, 0, false, 0), [], [],
         Some(0), None, Some(0), Top, Some(0), 1, None, {0}, []),
      [Channel([Data(1, F)], false, Some(0), [1])],
      [Channel([], false, Some(0), [])])
  }

  // it lost transport 0
  ghost function Lost(): World {
    World(
      Ep(WriterState(1, Log(18, 18, 0, [REC1]), None, 1, []), AckState(0, 0, 0, false, 0), [F], [],
         None, None, None, OffTop, None, 2, None, {0}, []),
      Ep(WriterState(0, Log(18, 18, 0, []), None, 0, []), AckState(0, 0, 0, false, 0), [], [],
         Some(0), None, Some(0), Top, Some(0), 1, None, {0}, []),
      [Channel([Data(1, F)], false, Some(0), [1])],
      [Channel([], false, Some(0), [])])
  }

  // it dialed transport 1, and the server reported for it that it received nothing
  ghost function Interrupted(): World {
    World(
      Ep(WriterState(1, Log(18, 18, 0, [REC1]), None, 1, []), AckState(0, 0, 0, false, 0), [F], [],
         None, Some(1), None, OffTop, None, 2, None, {0}, []),
      Ep(WriterState(0, Log(18, 18, 0, []), None, 0, []), AckState(0, 0, 0, false, 0), [], [],
         Some(0), None, Some(0), Top, Some(0), 1, None, {0}, []),
      [Channel([Data(1, F)], false, Some(0), [1]), Channel([], false, Some(0), [])],
      [Channel([], false, Some(0), []), Channel([], false, Some(0), [])])
  }

  // the server received the frame on transport 0
  ghost function Served(): World {
    World(
      Ep(WriterState(1, Log(18, 18, 0, [REC1]), None, 1, []), AckState(0, 0, 0, false, 0), [F], [],
         None, Some(1), None, OffTop, None, 2, None, {0}, []),
      Ep(WriterState(0, Log(18, 18, 0, []), None, 0, []), AckState(1, 0, 1, true, 0), [], [F],
         Some(0), None, Some(0), Top, Some(0), 2, None, {0}, [Data(1, F)]),
      [Channel([], false, Some(0), [1]), Channel([], false, Some(0), [])],
      [Channel([], false, Some(0), []), Channel([], false, Some(0), [])])
  }

  // the server attached transport 1 at once
  ghost function Hasty(): World {
    World(
      Ep(WriterState(1, Log(18, 18, 0, [REC1]), None, 1, []), AckState(0, 0, 0, false, 0), [F], [],
         None, Some(1), None, OffTop, None, 2, None, {0}, []),
      Ep(WriterState(0, Log(18, 18, 0, []), None, 0, []), AckState(0, 0, 0, false, 0), [], [],
         Some(1), None, Some(0), Top, Some(0), 2, None, {0}, []),
      [Channel([Data(1, F)], false, Some(0), [1]), Channel([], false, Some(0), [])],
      [Channel([], false, Some(0), []), Channel([], false, Some(0), [])])
  }

  // it then received the frame on transport 0
  ghost function Hurried(): World {
    World(
      Ep(WriterState(1, Log(18, 18, 0, [REC1]), None, 1, []), AckState(0, 0, 0, false, 0), [F], [],
         None, Some(1), None, OffTop, None, 2, None, {0}, []),
      Ep(WriterState(0, Log(18, 18, 0, []), None, 0, []), AckState(1, 0, 1, true, 0), [], [F],
         Some(1), None, Some(0), Top, Some(0), 3, None, {0}, [Data(1, F)]),
      [Channel([], false, Some(0), [1]), Channel([], false, Some(0), [])],
      [Channel([], false, Some(0), []), Channel([], false, Some(0), [])])
  }

  // the server attached transport 1 having acknowledged the frame on transport 0 only
  ghost function Orphaned(): World {
    World(
      Ep(WriterState(1, Log(18, 18, 0, [REC1]), None, 1, []), AckState(0, 0, 0, false, 0), [F], [],
         None, Some(1), None, OffTop, None, 2, None, {0}, []),
      Ep(WriterState(0, Log(18, 18, 0, []), None, 0, []), AckState(1, 1, 0, false, 0), [], [F],
         Some(1), None, Some(0), Top, Some(0), 3, Some(0), {0}, [Data(1, F)]),
      [Channel([], false, Some(0), [1]), Channel([], false, Some(0), [])],
      [Channel([AckUpTo(1)], false, Some(0), []), Channel([], false, Some(0), [])])
  }

  // the client attached transport 1
  ghost function Reattached(): World {
    World(
      Ep(WriterState(1, Log(18, 18, 0, [REC1]), None, 1, []), AckState(0, 0, 0, false, 0), [F], [],
         Some(1), None, None, OffTop, None, 3, None, {0}, []),
      Ep(WriterState(0, Log(18, 18, 0, []), None, 0, []), AckState(1, 1, 0, false, 0), [], [F],
         Some(1), None, None, OffTop, Some(0), 3, Some(0), {0}, [Data(1, F)]),
      [Channel([], false, Some(0), [1]), Channel([], false, Some(0), [])],
      [Channel([AckUpTo(1)], false, Some(0), []), Channel([], false, Some(0), [])])
  }

  // it has the frame to replay
  ghost function Resumed(): World {
    World(
      Ep(WriterState(1, Log(18, 18, 0, [REC1]), None, 0, [REC1]), AckState(0, 0, 0, false, 0), [F], [],
         Some(1), None, Some(1), Top, Some(1), 3, None, {0, 1}, []),
      Ep(WriterState(0, Log(18, 18, 0, []), None, 0, []), AckState(1, 1, 0, false, 0), [], [F],
         Some(1), None, None, OffTop, Some(0), 3, Some(0), {0}, [Data(1, F)]),
      [Channel([], false, Some(0), [1]), Channel([], false, Some(0), [])],
      [Channel([AckUpTo(1)], false, Some(0), []), Channel([], false, Some(0), [])])
  }

  // so did the server
  ghost function Resuming(): World {
    World(
      Ep(WriterState(1, Log(18, 18, 0, [REC1]), None, 0, [REC1]), AckState(0, 0, 0, false, 0), [F], [],
         Some(1), None, Some(1), AckChecked, Some(1), 3, None, {0, 1}, []),
      Ep(WriterState(0, Log(18, 18, 0, []), None, 0, []), AckState(1, 1, 0, false, 0), [], [F],
         Some(1), None, Some(1), Top, Some(1), 3, Some(0), {0, 1}, [Data(1, F)]),
      [Channel([], false, Some(0), [1]), Channel([], false, Some(0), [])],
      [Channel([AckUpTo(1)], false, Some(0), []), Channel([], false, Some(0), [])])
  }

  // the server skipped the duplicate, and the writers have nothing left
  ghost function Replayed(): World {
    World(
      Ep(WriterState(1, Log(18, 18, 0, [REC1]), None, 1, []), AckState(0, 0, 0, false, 0), [F], [],
         Some(1), None, Some(1), Top, Some(1), 3, None, {0, 1}, []),
      Ep(WriterState(0, Log(18, 18, 0, []), None, 0, []), AckState(1, 1, 0, false, 0), [], [F],
         Some(1), None, Some(1), Top, Some(1), 4, Some(0), {0, 1}, [Data(1, F), Data(1, F)]),
      [Channel([], false, Some(0), [1]), Channel([], false, Some(0), [1])],
      [Channel([AckUpTo(1)], false, Some(0), []), Channel([], false, Some(0), [])])
  }

  // both writers and the reader of the client use transport 0
  ghost function Watching(): World {
    World(
      Ep(WriterState(0, Log(18, 18, 0, []), None, 0, []), AckState(0, 0, 0, false, 0), [], [],
         Some(0), None, Some(0), Top, Some(0), 1, None, {0}, []),
      Ep(WriterState(0, Log(18, 18, 0, []), None, 0, []), AckState(0, 0, 0, false, 0), [], [],
         Some(0), None, Some(0), AckChecked, None, 1, None, {0}, []),
      [Channel([], false, Some(0), [])],
      [Channel([], false, Some(0), [])])
  }

  // the client dialed transport 1 while transport 0 was attached
  ghost function Redialed(): World {
    World(
      Ep(WriterState(0, Log(18, 18, 0, []), None, 0, []), AckState(0, 0, 0, false, 0), [], [],
         Some(0), Some(1), Some(0), Top, Some(0), 1, None, {0}, []),
      Ep(WriterState(0, Log(18, 18, 0, []), None, 0, []), AckState(0, 0, 0, false, 0), [], [],
         Some(0), None, Some(0), AckChecked, None, 1, None, {0}, []),
      [Channel([], false, Some(0), []), Channel([], false, Some(0), [])],
      [Channel([], false, Some(0), []), Channel([], false, Some(0), [])])
  }

  // the server sent a frame on transport 0
  ghost function Sent(): World {
    World(
      Ep(WriterState(0, Log(18, 18, 0, []), None, 0, []), AckState(0, 0, 0, false, 0), [], [],
         Some(0), Some(1), Some(0), Top, Some(0), 1, None, {0}, []),
      Ep(WriterState(1, Log(18, 18, 0, [REC1]), None, 1, []), AckState(0, 0, 0, false, 0), [F], [],
         Some(0), None, Some(0), Top, None, 1, None, {0}, []),
      [Channel([], false, Some(0), []), Channel([], false, Some(0), [])],
      [Channel([Data(1, F)], false, Some(0), [1]), Channel([], false, Some(0), [])])
  }

  // the client acknowledged the frame on transport 0
  ghost function Answered(): World {
    World(
      Ep(WriterState(0, Log(18, 18, 0, []), None, 0, []), AckState(1, 1, 0, false, 0), [], [F],
         Some(0), Some(1), Some(0), Top, Some(0), 2, Some(0), {0}, [Data(1, F)]),
      Ep(WriterState(1, Log(18, 18, 0, [REC1]), None, 1, []), AckState(0, 0, 0, false, 0), [F], [],
         Some(0), None, Some(0), Top, None, 1, None, {0}, []),
      [Channel([AckUpTo(1)], false, Some(0), []), Channel([], false, Some(0), [])],
      [Channel([], false, Some(0), [1]), Channel([], false, Some(0), [])])
  }

  // both sides attached transport 1
  ghost function Replaced(): World {
    World(
      Ep(WriterState(0, Log(18, 18, 0, []), None, 0, []), AckState(1, 1, 0, false, 0), [], [F],
         Some(1), None, Some(0), Top, Some(0), 3, Some(0), {0}, [Data(1, F)]),
      Ep(WriterState(1, Log(18, 18, 0, [REC1]), None, 1, []), AckState(0, 0, 0, false, 0), [F], [],
         Some(1), None, Some(0), Top, None, 2, None, {0}, []),
      [Channel([AckUpTo(1)], false, Some(0), []), Channel([], false, Some(0), [])],
      [Channel([], false, Some(0), [1]), Channel([], false, Some(0), [])])
  }

  // the server has the frame to replay
  ghost function Caught(): World {
    World(
      Ep(WriterState(0, Log(18, 18, 0, []), None, 0, []), AckState(1, 1, 0, false, 0), [], [F],
         Some(1), None, Some(0), Top, Some(0), 3, Some(0), {0}, [Data(1, F)]),
      Ep(WriterState(1, Log(18, 18, 0, [REC1]), None, 0, [REC1]), AckState(0, 0, 0, false, 0), [F], [],
         Some(1), None, Some(1), Top, None, 2, None, {0, 1}, []),
      [Channel([AckUpTo(1)], false, Some(0), []), Channel([], false, Some(0), [])],
      [Channel([], false, Some(0), [1]), Channel([], false, Some(0), [])])
  }

  // it listens on transport 1, which the client has yet to take over
  ghost function Ended(): World {
    World(
      Ep(WriterState(0, Log(18, 18, 0, []), None, 0, []), AckState(1, 1, 0, false, 0), [], [F],
         Some(1), None, None, OffTop, Some(0), 3, Some(0), {0}, [Data(1, F)]),
      Ep(WriterState(1, Log(18, 18, 0, [REC1]), None, 0, [REC1]), AckState(0, 0, 0, false, 0), [F], [],
         Some(1), None, Some(1), Top, Some(1), 2, None, {0, 1}, []),
      [Channel([AckUpTo(1)], false, Some(0), []), Channel([], false, Some(0), [])],
      [Channel([], false, Some(0), [1]), Channel([], false, Some(0), [])])
  }

  // so the client listens on transport 1
  ghost function Catching(): World {
    World(
      Ep(WriterState(0, Log(18, 18, 0, []), None, 0, []), AckState(1, 1, 0, false, 0), [], [F],
         Some(1), None, Some(1), Top, Some(1), 3, Some(0), {0, 1}, [Data(1, F)]),
      Ep(WriterState(1, Log(18, 18, 0, [REC1]), None, 0, [REC1]), AckState(0, 0, 0, false, 0), [F], [],
         Some(1), None, Some(1), AckChecked, Some(1), 2, None, {0, 1}, []),
      [Channel([AckUpTo(1)], false, Some(0), []), Channel([], false, Some(0), [])],
      [Channel([], false, Some(0), [1]), Channel([], false, Some(0), [])])
  }

  // the client skipped the duplicate, and the writers have nothing left
  ghost function Repeated(): World {
    World(
      Ep(WriterState(0, Log(18, 18, 0, []), None, 0, []), AckState(1, 1, 0, false, 0), [], [F],
         Some(1), None, Some(1), Top, Some(1), 4, Some(0), {0, 1}, [Data(1, F), Data(1, F)]),
      Ep(WriterState(1, Log(18, 18, 0, [REC1]), None, 1, []), AckState(0, 0, 0, false, 0), [F], [],
         Some(1), None, Some(1), Top, Some(1), 2, None, {0, 1}, []),
      [Channel([AckUpTo(1)], false, Some(0), []), Channel([], false, Some(0), [])],
      [Channel([], false, Some(0), [1]), Channel([], false, Some(0), [1])])
  }

  lemma {:induction false} ToOpened(rule: Rule)
    ensures Reachable(Opened(), rule)
  {
    assert End(Start(18, 18)) == Init(18, 18) && forall q :: AllObey(Start(18, 18), q);
    var w := Init(18, 18);
    w := Go(w, Move(true, Dial), rule);
    assert w.toServer == [Channel([], false, Some(0), [])];
    assert w.toClient == [Channel([], false, None, [])];
    w := Go(w, Move(false, Report(0)), rule);
    assert w.toClient == [Channel([], false, Some(0), [])];
    assert w.client == Opened().client && w.server == Opened().server;
  }

  lemma {:induction false} ToConnected(rule: Rule)
    requires Reachable(Opened(), rule)
    ensures Reachable(Connected(), rule)
  {
    var w := Opened();
    w := Go(w, Move(false, Attach(0)), rule);
    w := Go(w, Move(true, Attach(0)), rule);
    assert w.client == Connected().client && w.server == Connected().server;
  }

  lemma {:induction false} ToReady(rule: Rule)
    requires Reachable(Connected(), rule)
    ensures Reachable(Ready(), rule)
  {
    var w := Connected();
    w := Go(w, Move(true, Begin), rule);
    w := Go(w, Move(false, Begin), rule);
    w := Go(w, Move(false, Switch), rule);
    w := Go(w, Move(true, PassAck(0)), rule);
    assert w.client == Ready().client && w.server == Ready().server;
  }

  lemma {:induction false} ToShipped(rule: Rule)
    requires Reachable(Ready(), rule)
    ensures Reachable(Shipped(), rule)
  {
    var w := Ready();
    assert RecordBytes([]) == 0 && [] + [REC1] == [REC1];
    w := Go(w, Move(true, Live(F, true)), rule);
    assert w.toServer[0].frames == [Data(1, F)];
    assert w.toServer[0].written == [1];
    assert w.toServer == [Channel([Data(1, F)], false, Some(0), [1])];
    assert w.client.w.log.kept == [REC1];
    assert w.client.staged == [F];
    assert w.client == Shipped().client && w.server == Shipped().server;
  }

  lemma {:induction false} ToLost(rule: Rule)
    requires Reachable(Shipped(), rule)
    ensures Reachable(Lost(), rule)
  {
    var w := Shipped();
    w := Go(w, Move(true, Detach), rule);
    w := Go(w, Move(true, Leave), rule);
    assert w.client == Lost().client && w.server == Lost().server;
  }

  lemma {:induction false} ToInterrupted(rule: Rule)
    requires Reachable(Lost(), rule)
    ensures Reachable(Interrupted(), rule)
  {
    var w := Lost();
    w := Go(w, Move(true, Dial), rule);
    assert w.toServer == [Channel([Data(1, F)], false, Some(0), [1]), Channel([], false, Some(0), [])];
    assert w.toClient == [Channel([], false, Some(0), []), Channel([], false, None, [])];
    w := Go(w, Move(false, Report(1)), rule);
    assert w.toClient == [Channel([], false, Some(0), []), Channel([], false, Some(0), [])];
    assert w.client == Interrupted().client && w.server == Interrupted().server;
  }

  lemma {:induction false} ToServed(rule: Rule)
    requires Reachable(Interrupted(), rule)
    ensures Reachable(Served(), rule)
  {
    var w := Interrupted();
    w := Go(w, Move(false, Read(1, 0, 0)), rule);
    assert w.toServer[0].frames == [];
    assert w.toServer == [Channel([], false, Some(0), [1]), Channel([], false, Some(0), [])];
    assert w.server.past.read == [Data(1, F)];
    assert w.server.delivered == [F];
    assert w.client == Served().client && w.server == Served().server;
  }

  /** The server takes the ACK before it attaches: the attach is not covered. */
  lemma {:induction false} StaleReport(rule: Rule)
    requires Reachable(Served(), rule) && rule == ServerAttachesCovered
    ensures Reachable(Orphaned(), rule)
  {
    var w := Served();
    w := Go(w, Move(false, TakeAck(0, true)), rule);
    assert w.toClient[0].frames == [AckUpTo(1)];
    assert w.toClient == [Channel([AckUpTo(1)], false, Some(0), []), Channel([], false, Some(0), [])];
    w := Go(w, Move(false, Attach(1)), rule);
    assert w.client == Orphaned().client && w.server == Orphaned().server;
  }

  lemma {:induction false} ToHasty(rule: Rule)
    requires Reachable(Interrupted(), rule)
    ensures Reachable(Hasty(), rule)
  {
    var w := Interrupted();
    w := Go(w, Move(false, Attach(1)), rule);
    assert w.client == Hasty().client && w.server == Hasty().server;
  }

  lemma {:induction false} ToHurried(rule: Rule)
    requires Reachable(Hasty(), rule)
    ensures Reachable(Hurried(), rule)
  {
    var w := Hasty();
    w := Go(w, Move(false, Read(1, 0, 0)), rule);
    assert w.toServer[0].frames == [];
    assert w.toServer == [Channel([], false, Some(0), [1]), Channel([], false, Some(0), [])];
    assert w.server.past.read == [Data(1, F)];
    assert w.server.delivered == [F];
    assert w.client == Hurried().client && w.server == Hurried().server;
  }

  /** The server attached at once, but its old writer still acknowledges the frame: the ACK is taken for a transport
      that is not attached. */
  lemma {:induction false} LateAck(rule: Rule)
    requires Reachable(Hurried(), rule) && rule == TakesOnlyOnAttached
    ensures Reachable(Orphaned(), rule)
  {
    var w := Hurried();
    w := Go(w, Move(false, TakeAck(0, true)), rule);
    assert w.toClient[0].frames == [AckUpTo(1)];
    assert w.toClient == [Channel([AckUpTo(1)], false, Some(0), []), Channel([], false, Some(0), [])];
    assert w.client == Orphaned().client && w.server == Orphaned().server;
  }

  lemma {:induction false} ToReattached(rule: Rule)
    requires Reachable(Orphaned(), rule)
    ensures Reachable(Reattached(), rule)
  {
    var w := Orphaned();
    w := Go(w, Move(true, Attach(1)), rule);
    w := Go(w, Move(false, Leave), rule);
    assert w.client == Reattached().client && w.server == Reattached().server;
  }

  lemma {:induction false} ToResumed(rule: Rule)
    requires Reachable(Reattached(), rule)
    ensures Reachable(Resumed(), rule)
  {
    var w := Reattached();
    assert [REC1][1..] == [] && Replay.After([REC1], 0) == [REC1];
    w := Go(w, Move(true, Begin), rule);
    assert w.client.w.resume == [REC1];
    w := Go(w, Move(true, Switch), rule);
    assert w.client == Resumed().client && w.server == Resumed().server;
  }

  lemma {:induction false} ToResuming(rule: Rule)
    requires Reachable(Resumed(), rule)
    ensures Reachable(Resuming(), rule)
  {
    var w := Resumed();
    w := Go(w, Move(false, Begin), rule);
    w := Go(w, Move(false, Switch), rule);
    w := Go(w, Move(true, PassAck(0)), rule);
    assert w.client == Resuming().client && w.server == Resuming().server;
  }

  lemma {:induction false} ToReplayed(rule: Rule)
    requires Reachable(Resuming(), rule)
    ensures Reachable(Replayed(), rule)
  {
    var w := Resuming();
    w := Go(w, Move(true, Resume(true)), rule);
    assert w.toServer[1].frames == [Data(1, F)];
    assert w.toServer[1].written == [1];
    assert w.toServer == [Channel([], false, Some(0), [1]), Channel([Data(1, F)], false, Some(0), [1])];
    assert w.client.w.resume == [];
    w := Go(w, Move(false, Read(1, 0, 0)), rule);
    assert w.toServer[1].frames == [];
    assert w.toServer == [Channel([], false, Some(0), [1]), Channel([], false, Some(0), [1])];
    assert w.server.past.read == [Data(1, F), Data(1, F)];
    assert w.client == Replayed().client && w.server == Replayed().server;
  }

  lemma {:induction false} ToWatching(rule: Rule)
    requires Reachable(Connected(), rule)
    ensures Reachable(Watching(), rule)
  {
    var w := Connected();
    w := Go(w, Move(true, Begin), rule);
    w := Go(w, Move(false, Begin), rule);
    w := Go(w, Move(true, Switch), rule);
    w := Go(w, Move(false, PassAck(0)), rule);
    assert w.client == Watching().client && w.server == Watching().server;
  }

  lemma {:induction false} ToRedialed(rule: Rule)
    requires Reachable(Watching(), rule)
    ensures Reachable(Redialed(), rule)
  {
    var w := Watching();
    w := Go(w, Move(true, Dial), rule);
    assert w.toServer == [Channel([], false, Some(0), []), Channel([], false, Some(0), [])];
    assert w.toClient == [Channel([], false, Some(0), []), Channel([], false, None, [])];
    w := Go(w, Move(false, Report(1)), rule);
    assert w.toClient == [Channel([], false, Some(0), []), Channel([], false, Some(0), [])];
    assert w.client == Redialed().client && w.server == Redialed().server;
  }

  lemma {:induction false} ToSent(rule: Rule)
    requires Reachable(Redialed(), rule)
    ensures Reachable(Sent(), rule)
  {
    var w := Redialed();
    assert RecordBytes([]) == 0 && [] + [REC1] == [REC1];
    w := Go(w, Move(false, Live(F, true)), rule);
    assert w.toClient[0].frames == [Data(1, F)];
    assert w.toClient[0].written == [1];
    assert w.toClient == [Channel([Data(1, F)], false, Some(0), [1]), Channel([], false, Some(0), [])];
    assert w.server.w.log.kept == [REC1];
    assert w.server.staged == [F];
    assert w.client == Sent().client && w.server == Sent().server;
  }

  lemma {:induction false} ToAnswered(rule: Rule)
    requires Reachable(Sent(), rule)
    ensures Reachable(Answered(), rule)
  {
    var w := Sent();
    w := Go(w, Move(true, Read(1, 0, 0)), rule);
    assert w.toClient[0].frames == [];
    assert w.toClient == [Channel([], false, Some(0), [1]), Channel([], false, Some(0), [])];
    assert w.client.past.read == [Data(1, F)];
    assert w.client.delivered == [F];
    w := Go(w, Move(true, TakeAck(0, true)), rule);
    assert w.toServer[0].frames == [AckUpTo(1)];
    assert w.toServer == [Channel([AckUpTo(1)], false, Some(0), []), Channel([], false, Some(0), [])];
    assert w.client == Answered().client && w.server == Answered().server;
  }

  /** A second reconnect goroutine dials while transport 0 is attached: the client acknowledges a frame there after
      it reported for transport 1 that it received nothing, so its attach is not covered. */
  lemma {:induction false} ToReplaced(rule: Rule)
    requires Reachable(Answered(), rule) && rule == ClientAttachesCovered
    ensures Reachable(Replaced(), rule)
  {
    var w := Answered();
    w := Go(w, Move(false, Attach(1)), rule);
    w := Go(w, Move(true, Attach(1)), rule);
    assert w.client == Replaced().client && w.server == Replaced().server;
  }

  lemma {:induction false} ToCaught(rule: Rule)
    requires Reachable(Replaced(), rule)
    ensures Reachable(Caught(), rule)
  {
    var w := Replaced();
    w := Go(w, Move(false, Leave), rule);
    assert [REC1][1..] == [] && Replay.After([REC1], 0) == [REC1];
    w := Go(w, Move(false, Begin), rule);
    assert w.server.w.resume == [REC1];
    assert w.client == Caught().client && w.server == Caught().server;
  }

  lemma {:induction false} ToEnded(rule: Rule)
    requires Reachable(Caught(), rule)
    ensures Reachable(Ended(), rule)
  {
    var w := Caught();
    w := Go(w, Move(false, Switch), rule);
    w := Go(w, Move(true, Leave), rule);
    assert w.client == Ended().client && w.server == Ended().server;
  }

  lemma {:induction false} ToCatching(rule: Rule)
    requires Reachable(Ended(), rule)
    ensures Reachable(Catching(), rule)
  {
    var w := Ended();
    w := Go(w, Move(true, Begin), rule);
    w := Go(w, Move(true, Switch), rule);
    w := Go(w, Move(false, PassAck(0)), rule);
    assert w.client == Catching().client && w.server == Catching().server;
  }

  lemma {:induction false} ToRepeated(rule: Rule)
    requires Reachable(Catching(), rule)
    ensures Reachable(Repeated(), rule)
  {
    var w := Catching();
    w := Go(w, Move(false, Resume(true)), rule);
    assert w.toClient[1].frames == [Data(1, F)];
    assert w.toClient[1].written == [1];
    assert w.toClient == [Channel([], false, Some(0), [1]), Channel([Data(1, F)], false, Some(0), [1])];
    assert w.server.w.resume == [];
    w := Go(w, Move(true, Read(1, 0, 0)), rule);
    assert w.toClient[1].frames == [];
    assert w.toClient == [Channel([], false, Some(0), [1]), Channel([], false, Some(0), [1])];
    assert w.client.past.read == [Data(1, F), Data(1, F)];
    assert w.client == Repeated().client && w.server == Repeated().server;
  }

  /** A writer on the attached transport with nothing to write. */
  ghost predicate HasNothing(s: Sys) {
    && |s.out| == |s.inn| && !s.e.closed && s.e.pc.Top? && s.e.wt.Some? && s.e.wt.value < |s.out| && s.e.attached == s.e.wt
    && !s.e.acks.due && s.e.w.resume == []
  }

  lemma {:induction false} Wait(w: World, isClient: bool, rule: Rule) returns (w': World)
    requires Reachable(w, rule) && HasNothing(w.View(isClient)) && w.View(isClient).e.w.held.None?
    ensures Reachable(w', rule)
    ensures var s := w.View(isClient);
            w' == w.Update(isClient, s.(e := s.e.(pc := Blocked, timer := s.e.acks.dueAt, parkedAt := 0)))
  {
    w' := Go(w, Move(isClient, PassAck(0)), rule);
    w' := Go(w', Move(isClient, Park(0)), rule);
  }

  /** A writer with nothing to do works off the signals owed to it. */
  lemma {:induction false} Drain(w: World, isClient: bool, rule: Rule) returns (w': World)
    requires Reachable(w, rule) && HasNothing(w.View(isClient)) && w.View(isClient).e.w.held.None?
    ensures Reachable(w', rule)
    ensures var s, e' := w.View(isClient), w'.View(isClient).e;
            w' == w.Update(isClient, s.(e := s.e.(notify := false, owed := 0, timer := e'.timer, parkedAt := e'.parkedAt)))
    decreases w.View(isClient).e.owed, if w.View(isClient).e.notify then 1 else 0
  {
    w' := w;
    if w.View(isClient).e.owed > 0 {
      w' := Go(w, Move(isClient, Signal), rule);
      w' := Drain(w', isClient, rule);
    } else if w.View(isClient).e.notify {
      w' := Wait(w, isClient, rule);
      w' := Go(w', Move(isClient, Wake), rule);
    }
  }

  lemma {:induction false} Settle(w: World, isClient: bool, rule: Rule) returns (w': World)
    requires Reachable(w, rule) && HasNothing(w.View(isClient)) && w.View(isClient).e.w.held.None?
    ensures Reachable(w', rule)
    ensures var s := w.View(isClient);
            w' == w.Update(isClient, s.(e := s.e.(pc := Blocked, notify := false, owed := 0, timer := s.e.acks.dueAt, parkedAt := 0)))
  {
    w' := Drain(w, isClient, rule);
    w' := Wait(w', isClient, rule);
  }

  /** A writer that waits on transport 1 with a full buffer and nothing held. */
  ghost predicate FullAndWaiting(e: Endpoint) {
    && e.pc.Blocked? && e.wt == Some(1) && !e.acks.due && e.w.resume == [] && e.w.held.None?
    && e.w.log.maxBytes == e.w.log.headerLen == 18 && e.w.log.kept == [REC1]
  }

  lemma {:induction false} ToOrphaned(rule: Rule)
    requires rule != ClientAttachesCovered
    ensures Reachable(Orphaned(), rule)
  {
    ToOpened(rule);
    ToConnected(rule);
    ToReady(rule);
    ToShipped(rule);
    ToLost(rule);
    ToInterrupted(rule);
    if rule == ServerAttachesCovered {
      ToServed(rule);
      StaleReport(rule);
    } else {
      ToHasty(rule);
      ToHurried(rule);
      LateAck(rule);
    }
  }

  /** The client's frame is delivered and never acknowledged. */
  lemma {:induction false} ClientSticks(rule: Rule) returns (w: World)
    requires rule != ClientAttachesCovered
    ensures Reachable(w, rule) && Quiescent(w, 1) && Stuck(w.client) && FullAndWaiting(w.client)
  {
    ToOrphaned(rule);
    ToReattached(rule);
    ToResumed(rule);
    ToResuming(rule);
    ToReplayed(rule);
    w := Settle(Replayed(), true, rule);
    w := Settle(w, false, rule);
  }

  /** The server's frame is delivered and never acknowledged. */
  lemma {:induction false} ServerSticks(rule: Rule) returns (w: World)
    requires rule == ClientAttachesCovered
    ensures Reachable(w, rule) && Quiescent(w, 1) && Stuck(w.server) && FullAndWaiting(w.server)
  {
    ToOpened(rule);
    ToConnected(rule);
    ToWatching(rule);
    ToRedialed(rule);
    ToSent(rule);
    ToAnswered(rule);
    ToReplaced(rule);
    ToCaught(rule);
    ToEnded(rule);
    ToCatching(rule);
    ToRepeated(rule);
    w := Settle(Repeated(), true, rule);
    w := Settle(w, false, rule);
  }

  /** Each rule is needed: a run that breaks it and no other can end quiescent with a stuck sender. */
  lemma {:induction false} EachRuleIsNeeded(rule: Rule) returns (r: Run)
    ensures forall q :: AllObey(r, q) <==> q != rule
    ensures Quiescent(End(r), 1)
    ensures if rule == ClientAttachesCovered then Stuck(End(r).server) && End(r).server.w.log.kept != []
            else Stuck(End(r).client) && End(r).client.w.log.kept != []
  {
    var w;
    if rule == ClientAttachesCovered {
      w := ServerSticks(rule);
    } else {
      w := ClientSticks(rule);
    }
    r :| End(r) == w && forall q :: q != rule ==> AllObey(r, q);
    if AllObey(r, rule) {
      assert IsClean(r);
      QuiescentIsComplete(r, w, 1);
    }
  }

  // ---------------------------------------------------------------- jams

  lemma {:induction false} OneIsFull()
    ensures RecordBytes([REC1]) == 18
  {
    assert [REC1][..0] == [] && RecordBytes([REC1][..0]) == 0;
  }

  /** A frame without room is held and changes nothing else. */
  lemma {:induction false} NoRoomStep(s: Sys, ok: bool)
    requires s.e.wt.Some? && s.e.wt.value < |s.out| && !s.e.w.log.Fits(F) && s.e.w.log.SizeOf(F) <= s.e.w.log.maxBytes
    ensures DoLive(s, F, ok) ==
            s.(e := s.e.(w := s.e.w.(held := Some(F)), pc := if s.e.pc.AckChecked? then Full else Top))
  {
    assert s.out[s.e.wt.value := s.out[s.e.wt.value]] == s.out;
    assert s.e.w.(held := None).WriteLive(F) == (s.e.w.(held := Some(F)), []);
  }

  /** A stuck writer that waits takes one more frame, for which it has no room, and waits again. */
  lemma {:induction false} Overfill(w: World, isClient: bool, rule: Rule) returns (w': World)
    requires Reachable(w, rule)
    requires var s := w.View(isClient);
             && |s.out| == |s.inn| && !s.e.closed && s.e.pc.Blocked? && s.e.wt.Some? && s.e.wt.value < |s.out|
             && s.e.attached == s.e.wt && !s.e.acks.due && s.e.acks.dueAt == 0
             && s.e.w.resume == [] && s.e.w.held.None? && s.e.w.log.maxBytes == s.e.w.log.headerLen == 18
             && s.e.w.log.kept == [REC1]
    ensures Reachable(w', rule)
    ensures var s := w.View(isClient);
            w' == w.Update(isClient, s.(e := s.e.(w := s.e.w.(held := Some(F)), timer := 0, parkedAt := 0)))
  {
    OneIsFull();
    NoRoomStep(w.View(isClient), true);
    w' := Go(w, Move(isClient, Live(F, true)), rule);
    w' := WaitFull(w', isClient, rule);
  }

  lemma {:induction false} WaitFull(w: World, isClient: bool, rule: Rule) returns (w': World)
    requires Reachable(w, rule) && HasNothing(w.View(isClient))
    requires var e := w.View(isClient).e;
             e.acks.dueAt == 0 && e.w.held == Some(F) && !e.w.log.Fits(F) && e.w.log.SizeOf(F) <= e.w.log.maxBytes
    ensures Reachable(w', rule)
    ensures var s := w.View(isClient); w' == w.Update(isClient, s.(e := s.e.(pc := Blocked, timer := 0, parkedAt := 0)))
  {
    w' := Go(w, Move(isClient, PassAck(0)), rule);
    NoRoomStep(w'.View(isClient), true);
    w' := Go(w', Move(isClient, LiveHeld(true)), rule);
    w' := Go(w', Move(isClient, Park(0)), rule);
  }

  /** Each of these runs can go on to a jam: with one more frame than its cap allows, the stuck sender takes no frame
      again until its side attaches another transport. */
  lemma {:induction false} EachRuleCanJam(rule: Rule) returns (r: Run, isClient: bool)
    ensures forall q :: q != rule ==> AllObey(r, q)
    ensures Quiescent(End(r), 1) && Jammed(End(r).View(isClient), End(r).Peer(isClient), 1)
    ensures forall r' :: Continues(r, r', isClient) ==>
              Stuck(End(r').View(isClient).e) && End(r').View(isClient).e.staged == End(r).View(isClient).e.staged
  {
    var w;
    isClient := rule != ClientAttachesCovered;
    if isClient {
      w := ClientSticks(rule);
    } else {
      w := ServerSticks(rule);
    }
    w := Overfill(w, isClient, rule);
    r :| End(r) == w && forall q :: q != rule ==> AllObey(r, q);
    QuiescentAtRest(r, w, 1, isClient);
    RestingJams(w.View(isClient), w.View(!isClient), 1);
    forall r' | Continues(r, r', isClient)
      ensures Stuck(End(r').View(isClient).e) && End(r').View(isClient).e.staged == w.View(isClient).e.staged
    {
      JamLasts(r, r', isClient, 1);
    }
  }

  // ---------------------------------------------------------------- a missed timer

  /** The exception of `Watched` is reached: a run ends with a writer that waits, without a signal or a timer, while an
      ACK is scheduled. */
  lemma {:induction false} TimerMissed() returns (r: Run)
    ensures var e := End(r).server;
            e.pc.Blocked? && e.acks.dueAt != 0 && e.timer == 0 && !e.Signalled() && e.attached.Some? && e.attached == e.wt
  {
    var rule := TakesOnlyOnAttached;
    ToOpened(rule);
    ToConnected(rule);
    ToReady(rule);
    ToShipped(rule);
    var w := Go(Shipped(), Move(false, Read(64, 5, 0)), rule);
    w := Drain(w, false, rule);
    w := Go(w, Move(false, PassAck(4)), rule);
    w := Go(w, Move(false, Park(5)), rule);
    r :| End(r) == w && forall q :: q != rule ==> AllObey(r, q);
  }
}
