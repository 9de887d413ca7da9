/** The streams of one connection: creation by either side, inbound frames, FIN, local close, and the decode
    queue of each stream. */
module Streams {

  import opened Prelude
  import opened Bytes

  const CONTROL_STREAM := 0xFFFF_FFFF
  const MAX_STREAM := CONTROL_STREAM - 1

  datatype Frame = Frame(id: nat, finFlag: bool, payload: seq<Byte>) {
    /** Stream 0 and the control stream ignore the flag. */
    predicate Fin() { finFlag && id != 0 && id != CONTROL_STREAM }
  }

  /** An entry of a stream's decode queue: a payload, or the mark that releases the stream. */
  datatype Item = Payload(bytes: seq<Byte>) | FinMark

  /** What a frame adds to the queue. */
  function Items(f: Frame): seq<Item> {
    (if f.payload != [] then [Payload(f.payload)] else []) + (if f.Fin() then [FinMark] else [])
  }

  /** `streams` maps the open streams to their decode queues. */
  datatype Table = Table(streams: map<nat, seq<Item>>, closedPeer: set<nat>, nextId: nat) {

    predicate OpenedHere(id: nat) { id != 0 && id <= nextId }

    /** An inbound frame does not bring back a stream that this side closed. */
    function Lookup(id: nat, inbound: bool): Table {
      if id in streams || (inbound && (id in closedPeer || OpenedHere(id))) then this
      else this.(streams := streams[id := []])
    }

    function Remove(id: nat): Table { this.(streams := streams - {id}) }

    function CloseStream(id: nat): Table {
      if OpenedHere(id) then Remove(id)
      else (if id in streams then this.(closedPeer := closedPeer + {id}) else this).Remove(id)
    }

    function Forget(id: nat): Table { this.(closedPeer := closedPeer - {id}) }

    /** The first half of accepting a frame: the lookup, and whether the frame goes on to a stream. */
    function Find(f: Frame): (Table, bool) {
      if f.Fin() && f.payload == [] then (Forget(f.id), f.id in streams)
      else
        var t := Lookup(f.id, true);
        if f.id in t.streams then (t, true) else (if f.Fin() then t.Forget(f.id) else t, false)
    }

    /** The second half: the frame is dropped if its stream was closed after the lookup. */
    function Deliver(f: Frame): Table {
      if f.id in streams then this.(streams := streams[f.id := streams[f.id] + Items(f)]) else this
    }

    function Accept(f: Frame): Table {
      var (t, found) := Find(f);
      if found then t.Deliver(f) else t
    }

    function NewStream(): Table {
      var t := this.(nextId := nextId + 1);
      if nextId + 1 > MAX_STREAM then t else t.Lookup(nextId + 1, false)
    }

    /** The decode loop of stream `id` takes one entry. */
    function Decode(id: nat): Table
      requires id in streams && streams[id] != []
    {
      if streams[id][0].FinMark? then Remove(id) else this.(streams := streams[id := streams[id][1..]])
    }

    /** When the peer ends the connection in order, every open stream is marked. */
    function MarkAll(): Table {
      this.(streams := map id | id in streams :: streams[id] + [FinMark])
    }
  }

  // ---------------------------------------------------------------- the mutable table

  /** `fins` are the streams for which a FIN was queued, in order. */
  class Connection {
    var streams: map<nat, seq<Item>>
    var closedPeerStreams: set<nat>
    var nextStreamID: nat
    var closing: bool
    var closed: bool
    var fins: seq<nat>

    ghost function Abs(): Table
      reads this
    {
      Table(streams, closedPeerStreams, nextStreamID)
    }

    constructor ()
      ensures Abs() == Table(map[], {}, 0) && !closing && !closed && fins == []
    {
      streams, closedPeerStreams, nextStreamID, closing, closed, fins := map[], {}, 0, false, false, [];
    }

    /** A closed connection finds no stream and creates none. */
    method GetStreamCtx(id: nat, inbound: bool) returns (found: bool)
      modifies this`streams
      ensures Abs() == if closed then old(Abs()) else old(Abs()).Lookup(id, inbound)
      ensures found == (!closed && id in streams)
    {
      if closed {
        return false;
      }
      if id in streams {
        return true;
      }
      if inbound {
        if id in closedPeerStreams || (id != 0 && id <= nextStreamID) {
          return false;
        }
      }
      streams := streams[id := []];
      return true;
    }

    method RemoveStream(id: nat)
      modifies this`streams
      ensures Abs() == old(Abs()).Remove(id)
    {
      streams := streams - {id};
    }

    /** `Stream.Close`. Only the side that opened a stream sends FIN, once, and only while
        the connection is neither closing nor closed. */
    method CloseStream(id: nat)
      modifies this`streams, this`closedPeerStreams, this`fins
      ensures Abs() == old(Abs()).CloseStream(id)
      ensures fins == old(fins) +
                if old(Abs()).OpenedHere(id) && id in old(streams) && !closing && !closed then [id] else []
    {
      if id == 0 || id > nextStreamID {
        if id in streams {
          closedPeerStreams := closedPeerStreams + {id};
        }
      } else if id in streams && !closing && !closed {
        fins := fins + [id];
      }
      RemoveStream(id);
    }

    /** The lookup of `acceptFrame`. A frame with a payload fails on a closed connection; a bare FIN never does. */
    method FindForFrame(f: Frame) returns (ok: bool, found: bool)
      modifies this`streams, this`closedPeerStreams
      ensures ok == (!closed || (f.Fin() && f.payload == []))
      ensures if ok then (Abs(), found) == old(Abs()).Find(f) else Abs() == old(Abs()) && !found
    {
      if f.Fin() && f.payload == [] {
        closedPeerStreams := closedPeerStreams - {f.id};
        return true, f.id in streams;
      }
      found := GetStreamCtx(f.id, true);
      ok := !closed;
      if !found && ok && f.Fin() {
        closedPeerStreams := closedPeerStreams - {f.id};
      }
    }

    /** Queues a frame on the stream found for it, if that is still open. */
    method DeliverFrame(f: Frame)
      modifies this`streams
      ensures Abs() == old(Abs()).Deliver(f)
    {
      if f.id !in streams {
        return;
      }
      var q := streams[f.id];
      if f.payload != [] {
        q := q + [Payload(f.payload)];
      }
      if f.Fin() {
        q := q + [FinMark];
      }
      assert q == old(streams[f.id]) + Items(f);
      streams := streams[f.id := q];
    }

    /** `acceptFrame` when nothing comes between its two halves. */
    method AcceptFrame(f: Frame) returns (ok: bool)
      modifies this`streams, this`closedPeerStreams
      ensures ok == (!closed || (f.Fin() && f.payload == []))
      ensures Abs() == if ok then old(Abs()).Accept(f) else old(Abs())
    {
      var found;
      ok, found := FindForFrame(f);
      if found {
        DeliverFrame(f);
      }
    }

    /** `None` stands for a stream that is closed from the start. */
    method NewStream() returns (id: Option<nat>)
      modifies this`streams, this`nextStreamID
      ensures nextStreamID == old(nextStreamID) + 1
      ensures !closed ==> Abs() == old(Abs()).NewStream()
      ensures closed ==> Abs() == old(Abs()).(nextId := nextStreamID)
      ensures id == if nextStreamID <= MAX_STREAM && !closed then Some(nextStreamID) else None
    {
      nextStreamID := nextStreamID + 1;
      if nextStreamID > MAX_STREAM {
        return None;
      }
      var found := GetStreamCtx(nextStreamID, false);
      return if found then Some(nextStreamID) else None;
    }

    /** Only the first close goes on; sends fail from here on. */
    method BeginClosing() returns (first: bool)
      modifies this`closing
      ensures closing && first == !old(closing)
    {
      first := !closing;
      closing := true;
    }

    /** `markClosed` releases every stream. */
    method MarkClosed()
      modifies this`streams, this`closed
      ensures closed && Abs() == old(Abs()).(streams := map[])
    {
      closed := true;
      streams := map[];
    }
  }

  // ---------------------------------------------------------------- runs

  /** `pending` is the frame whose stream the reader has looked up and not delivered to yet; `accepted` are the inbound
      frames before it, `finSeen` the streams the peer has finished, `closedHere` those closed on
      this side, `since` where in `accepted` each open stream began, `delivered` what each stream's decode loop has
      passed on, `passed` all that was passed on, in order, and `released` what a stream had delivered when its FIN released it, with what it should have. */
  datatype State = State(
    table: Table, pending: Option<Frame>, accepted: seq<Frame>, finSeen: set<nat>, closedHere: set<nat>, ending: bool,
    since: map<nat, nat>, delivered: map<nat, seq<seq<Byte>>>, released: seq<(seq<seq<Byte>>, seq<seq<Byte>>)>,
    passed: seq<Passed>)

  datatype Passed = Passed(id: nat, bytes: seq<Byte>)

  datatype Event =
    | Find(f: Frame)
    | Deliver
    | Open
    | CloseLocal(id: nat)   // also what a decode error leads to
    | DecodeOne(id: nat)
    | CloseByPeer

  /** The peer sends nothing on a stream after its FIN. */
  predicate Enabled(s: State, e: Event) {
    match e
    case Find(f) => s.pending.None? && f.id !in s.finSeen && !s.ending
    case Deliver => s.pending.Some?
    case DecodeOne(id) => id in s.table.streams && s.table.streams[id] != [] && id in s.since && id in s.delivered
    case CloseByPeer => s.pending.None?
    case _ => true
  }

  /** The payloads that frames carry for stream `id`. */
  function Project(fs: seq<Frame>, id: nat): seq<seq<Byte>> {
    if fs == [] then []
    else
      var f := fs[|fs| - 1];
      Project(fs[..|fs| - 1], id) + (if f.id == id && f.payload != [] then [f.payload] else [])
  }

  function Payloads(items: seq<Item>): seq<seq<Byte>> {
    if items == [] then []
    else if items[0].Payload? then [items[0].bytes] + Payloads(items[1..])
    else Payloads(items[1..])
  }

  /** Streams created by a step start empty behind the first `n` accepted frames. */
  function Track(s: State, t: Table, n: nat): State {
    s.(table := t,
       since := map id | id in t.streams :: if id in s.table.streams && id in s.since then s.since[id] else n,
       delivered := map id | id in t.streams :: if id in s.table.streams && id in s.delivered then s.delivered[id] else [])
  }

  function Apply(s: State, e: Event): State
    requires Enabled(s, e)
  {
    match e
    case Find(f) =>
      var (t, found) := s.table.Find(f);
      Track(s, t, |s.accepted|).(
        pending := if found then Some(f) else None, accepted := if found then s.accepted else s.accepted + [f],
        finSeen := if f.Fin() then s.finSeen + {f.id} else s.finSeen)
    case Deliver =>
      var f := s.pending.value;
      Track(s, s.table.Deliver(f), |s.accepted|).(pending := None, accepted := s.accepted + [f])
    case Open => Track(s, s.table.NewStream(), |s.accepted|)
    case CloseLocal(id) =>
      Track(s, s.table.CloseStream(id), |s.accepted|).(
        closedHere := if id in s.table.streams then s.closedHere + {id} else s.closedHere)
    case DecodeOne(id) =>
      var item := s.table.streams[id][0];
      var s' := Track(s, s.table.Decode(id), |s.accepted|);
      if item.Payload? then
        s'.(delivered := s'.delivered[id := s.delivered[id] + [item.bytes]], passed := s.passed + [Passed(id, item.bytes)])
      else s'.(released := s.released + [(s.delivered[id], Project(if s.since[id] <= |s.accepted| then s.accepted[s.since[id]..] else [], id))])
    case CloseByPeer => Track(s, s.table.MarkAll(), |s.accepted|).(ending := true)
  }

  const INITIAL := State(Table(map[], {}, 0), None, [], {}, {}, false, map[], map[], [], [])

  datatype Run = Fresh | Then(before: Run, e: Event)

  function End(r: Run): State {
    match r
    case Fresh => INITIAL
    case Then(before, e) => if Enabled(End(before), e) then Apply(End(before), e) else End(before)
  }

  // ---------------------------------------------------------------- no resurrection

  /** A stream closed on this side stays recognisable until its peer has finished it. */
  ghost predicate Remembered(s: State) {
    forall id :: id in s.closedHere ==> s.table.OpenedHere(id) || id in s.table.closedPeer || id in s.finSeen
  }

  lemma {:induction false} ApplyRemembers(s: State, e: Event)
    requires Remembered(s) && Enabled(s, e)
    ensures Remembered(Apply(s, e))
  {
  }

  lemma {:induction false} RunsRemember(r: Run)
    ensures Remembered(End(r))
  {
    if r.Then? {
      RunsRemember(r.before);
      if Enabled(End(r.before), r.e) {
        ApplyRemembers(End(r.before), r.e);
      }
    }
  }

  /** No resurrection: in every run, an inbound frame never re-creates a stream that this side closed. */
  lemma {:induction false} NoResurrection(r: Run, e: Event, s: State, id: nat)
    requires s == End(r) && Enabled(s, e) && (e.Find? || e.Deliver?)
    requires id in s.closedHere && id !in s.table.streams
    ensures id !in Apply(s, e).table.streams
  {
    RunsRemember(r);
  }

  // ---------------------------------------------------------------- order

  /** No payload follows a mark. */
  ghost predicate Tidy(items: seq<Item>) {
    items == [] || (Tidy(items[1..]) && (items[0].FinMark? ==> Payloads(items[1..]) == []))
  }

  ghost predicate NoMark(items: seq<Item>) {
    items == [] || (items[0].Payload? && NoMark(items[1..]))
  }

  lemma {:induction false} QueueItem(items: seq<Item>, item: Item)
    requires Tidy(items) && (item.Payload? ==> NoMark(items))
    ensures Tidy(items + [item])
    ensures Payloads(items + [item]) == Payloads(items) + (if item.Payload? then [item.bytes] else [])
    ensures NoMark(items) && item.Payload? ==> NoMark(items + [item])
  {
    if items != [] {
      QueueItem(items[1..], item);
      assert (items + [item])[1..] == items[1..] + [item];
    } else {
      assert (items + [item])[1..] == [];
    }
  }

  lemma {:induction false} ProjectAppend(fs: seq<Frame>, f: Frame, id: nat)
    ensures Project(fs + [f], id) == Project(fs, id) + (if f.id == id && f.payload != [] then [f.payload] else [])
  {
    assert (fs + [f])[..|fs|] == fs;
  }

  /** A queue that, behind what was passed on, holds the projection of `fs`. */
  ghost predicate Fits(q: seq<Item>, passed: seq<seq<Byte>>, fs: seq<Frame>, id: nat) {
    passed + Payloads(q) == Project(fs, id) && Tidy(q)
  }

  /** What an open stream has passed on and still queues is, in order, the projection of the frames accepted
      since it opened; the peer's frames end with its mark. */
  ghost predicate InOrder(s: State, id: nat) {
    && id in s.since && id in s.delivered && id in s.table.streams
    && s.since[id] <= |s.accepted|
    && Fits(s.table.streams[id], s.delivered[id], s.accepted[s.since[id]..], id)
    && ((id !in s.finSeen || IsPending(s, id)) && !s.ending ==> NoMark(s.table.streams[id]))
  }

  predicate IsPending(s: State, id: nat) { s.pending.Some? && s.pending.value.id == id }

  predicate FinCounted(s: State) { s.pending.Some? && s.pending.value.Fin() ==> s.pending.value.id in s.finSeen }

  ghost predicate Ordered(s: State) {
    && (s.pending.Some? ==> !s.ending)
    && FinCounted(s)
    && (forall id :: id in s.table.streams ==> InOrder(s, id))
    && (forall i :: 0 <= i < |s.released| ==> s.released[i].0 == s.released[i].1)
  }

  lemma {:induction false} QueueFrame(q: seq<Item>, f: Frame)
    requires Tidy(q) && NoMark(q)
    ensures Tidy(q + Items(f))
    ensures Payloads(q + Items(f)) == Payloads(q) + (if f.payload != [] then [f.payload] else [])
    ensures !f.Fin() ==> NoMark(q + Items(f))
  {
    var q1 := if f.payload != [] then q + [Payload(f.payload)] else q;
    if f.payload != [] {
      QueueItem(q, Payload(f.payload));
    }
    if f.Fin() {
      QueueItem(q1, FinMark);
      assert q + Items(f) == q1 + [FinMark];
    } else {
      assert q + Items(f) == q1;
    }
  }

  /** An inbound frame extends the projection of its own stream by what it queues, and no other projection. */
  lemma {:induction false} InboundFits(q: seq<Item>, passed: seq<seq<Byte>>, fs: seq<Frame>, id: nat, f: Frame)
    requires Fits(q, passed, fs, id) && (f.id == id ==> NoMark(q))
    ensures Fits(if f.id == id then q + Items(f) else q, passed, fs + [f], id)
    ensures f.id == id && !f.Fin() ==> NoMark(q + Items(f))
  {
    ProjectAppend(fs, f, id);
    if f.id == id {
      QueueFrame(q, f);
      var p := if f.payload != [] then [f.payload] else [];
      assert passed + (Payloads(q) + p) == passed + Payloads(q) + p;
    } else {
      assert passed + Payloads(q) + [] == passed + Payloads(q);
    }
  }

  /** A lookup may open the stream of its frame, with nothing queued. */
  lemma {:induction false} FindOpens(t: Table, f: Frame, id: nat)
    requires id in t.Find(f).0.streams
    ensures t.Find(f).0.streams[id] == if id in t.streams then t.streams[id] else []
    ensures id !in t.streams ==> id == f.id && t.Find(f).1
    ensures id == f.id ==> t.Find(f).1
  {}

  lemma {:induction false} FindEffect(s: State, f: Frame, id: nat)
    requires Enabled(s, Find(f)) && id in s.table.streams && id in s.since && id in s.delivered
    requires id in Apply(s, Find(f)).table.streams
    ensures var s' := Apply(s, Find(f));
            && id in s'.since && s'.since[id] == s.since[id] && id in s'.delivered && s'.delivered[id] == s.delivered[id]
            && s'.table.streams[id] == s.table.streams[id]
            && (if s'.pending.Some? then s'.pending == Some(f) && s'.accepted == s.accepted
                else id != f.id && s'.accepted == s.accepted + [f])
  {
    FindOpens(s.table, f, id);
  }

  lemma {:induction false} FindKeepsOpen(s: State, f: Frame, id: nat)
    requires InOrder(s, id) && Enabled(s, Find(f)) && id in Apply(s, Find(f)).table.streams
    ensures InOrder(Apply(s, Find(f)), id)
  {
    var s', n := Apply(s, Find(f)), s.since[id];
    FindEffect(s, f, id);
    if s'.pending.None? {
      InboundFits(s.table.streams[id], s.delivered[id], s.accepted[n..], id, f);
      assert s'.accepted[n..] == s.accepted[n..] + [f];
    }
  }

  lemma {:induction false} FindStarts(s: State, f: Frame, id: nat)
    requires id !in s.table.streams && Enabled(s, Find(f)) && id in Apply(s, Find(f)).table.streams
    ensures InOrder(Apply(s, Find(f)), id)
  {
    FindOpens(s.table, f, id);
    assert s.accepted[|s.accepted|..] == [];
  }

  lemma {:induction false} FindKeepsOrder(s: State, f: Frame, id: nat)
    requires Ordered(s) && Enabled(s, Find(f)) && id in Apply(s, Find(f)).table.streams
    ensures InOrder(Apply(s, Find(f)), id)
  {
    if id in s.table.streams {
      FindKeepsOpen(s, f, id);
    } else {
      FindStarts(s, f, id);
    }
  }

  /** What delivering does to an open stream, its own or another. */
  lemma {:induction false} DeliverEffect(s: State, id: nat)
    requires Enabled(s, Deliver) && id in s.table.streams && id in s.since && id in s.delivered
    ensures var f, s' := s.pending.value, Apply(s, Deliver);
            && id in s'.table.streams && id in s'.since && id in s'.delivered
            && s'.since[id] == s.since[id] && s'.delivered[id] == s.delivered[id]
            && s'.table.streams[id] == if f.id == id then s.table.streams[id] + Items(f) else s.table.streams[id]
  {}

  lemma {:induction false} Suffix(fs: seq<Frame>, f: Frame, n: nat)
    requires n <= |fs|
    ensures (fs + [f])[n..] == fs[n..] + [f]
  {}

  lemma {:induction false} DeliverKeepsOrder(s: State, id: nat)
    requires InOrder(s, id) && FinCounted(s) && Enabled(s, Deliver) && !s.ending
    ensures InOrder(Apply(s, Deliver), id)
  {
    var f, n, q := s.pending.value, s.since[id], s.table.streams[id];
    DeliverEffect(s, id);
    Suffix(s.accepted, f, n);
    if f.id == id {
      InboundFits(q, s.delivered[id], s.accepted[n..], id, f);
    } else {
      OtherFits(q, s.delivered[id], s.accepted[n..], id, f);
    }
  }

  /** A frame for another stream. */
  lemma {:induction false} OtherFits(q: seq<Item>, passed: seq<seq<Byte>>, fs: seq<Frame>, id: nat, f: Frame)
    requires Fits(q, passed, fs, id) && f.id != id
    ensures Fits(q, passed, fs + [f], id)
  {
    InboundFits(q, passed, fs, id, f);
  }

  /** A decode loop that passes a payload on. */
  lemma {:induction false} DecodeFits(q: seq<Item>, passed: seq<seq<Byte>>, fs: seq<Frame>, id: nat)
    requires Fits(q, passed, fs, id) && q != [] && q[0].Payload?
    ensures Fits(q[1..], passed + [q[0].bytes], fs, id)
    ensures NoMark(q) ==> NoMark(q[1..])
  {
    Regroup(passed, [q[0].bytes], Payloads(q[1..]));
  }

  lemma {:induction false} DecodeKeepsOrder(s: State, d: nat, id: nat)
    requires Ordered(s) && Enabled(s, DecodeOne(d)) && id in Apply(s, DecodeOne(d)).table.streams
    ensures InOrder(Apply(s, DecodeOne(d)), id)
  {
    assert InOrder(s, id);
    if id == d {
      DecodeFits(s.table.streams[id], s.delivered[id], s.accepted[s.since[id]..], id);
    }
  }

  lemma {:induction false} ReleaseIsComplete(s: State, d: nat)
    requires Ordered(s) && Enabled(s, DecodeOne(d)) && s.table.streams[d][0].FinMark?
    ensures s.delivered[d] == Project(s.accepted[s.since[d]..], d)
  {
    assert InOrder(s, d);
  }

  lemma {:induction false} EndKeepsOrder(s: State, id: nat)
    requires InOrder(s, id) && Enabled(s, CloseByPeer)
    ensures InOrder(Apply(s, CloseByPeer), id)
  {
    var q := s.table.streams[id];
    QueueItem(q, FinMark);
    assert Payloads(q) + [] == Payloads(q);
  }

  lemma {:induction false} OpenKeepsOrder(s: State, id: nat)
    requires Ordered(s) && id in Apply(s, Open).table.streams
    ensures InOrder(Apply(s, Open), id)
  {
    if id in s.table.streams {
      assert InOrder(s, id);
    } else {
      assert s.accepted[|s.accepted|..] == [];
    }
  }

  lemma {:induction false} CloseKeepsOrder(s: State, c: nat, id: nat)
    requires Ordered(s) && id in Apply(s, CloseLocal(c)).table.streams
    ensures InOrder(Apply(s, CloseLocal(c)), id)
  {
    assert InOrder(s, id);
  }

  lemma {:induction false} StepKeepsOrder(s: State, e: Event, id: nat)
    requires Ordered(s) && Enabled(s, e) && id in Apply(s, e).table.streams
    ensures InOrder(Apply(s, e), id)
  {
    match e
    case Find(f) => FindKeepsOrder(s, f, id);
    case Deliver =>
      assert InOrder(s, id);
      DeliverKeepsOrder(s, id);
    case DecodeOne(d) => DecodeKeepsOrder(s, d, id);
    case Open => OpenKeepsOrder(s, id);
    case CloseLocal(c) => CloseKeepsOrder(s, c, id);
    case CloseByPeer => EndKeepsOrder(s, id);
  }

  /** What a step keeps of the reader and of the streams released. */
  lemma {:induction false} StepKeepsRest(s: State, e: Event)
    requires Ordered(s) && Enabled(s, e)
    ensures var s' := Apply(s, e);
            && (s'.pending.Some? ==> !s'.ending) && FinCounted(s')
            && forall i :: 0 <= i < |s'.released| ==> s'.released[i].0 == s'.released[i].1
  {
    if e.DecodeOne? {
      DecodeReleases(s, e.id);
    }
  }

  lemma {:induction false} DecodeReleases(s: State, d: nat)
    requires Ordered(s) && Enabled(s, DecodeOne(d))
    ensures var s' := Apply(s, DecodeOne(d));
            && s'.pending == s.pending && s'.ending == s.ending && s'.finSeen == s.finSeen
            && (s'.released == s.released
                || (|s'.released| == |s.released| + 1 && s'.released[..|s.released|] == s.released
                    && s'.released[|s.released|].0 == s'.released[|s.released|].1))
  {
    assert InOrder(s, d);
    if s.table.streams[d][0].FinMark? {
      ReleaseIsComplete(s, d);
    }
  }

  lemma {:induction false} ApplyKeepsOrder(s: State, e: Event)
    requires Ordered(s) && Enabled(s, e)
    ensures Ordered(Apply(s, e))
  {
    StepKeepsRest(s, e);
    forall id | id in Apply(s, e).table.streams ensures InOrder(Apply(s, e), id) {
      StepKeepsOrder(s, e, id);
    }
  }

  /** Per-stream order in every run: what an open stream delivered is a prefix of the frames accepted for it, in
      order, the rest being queued; and a stream released by its mark had delivered all of them. */
  lemma {:induction false} StreamsAreInOrder(r: Run)
    ensures Ordered(End(r))
  {
    if r.Then? {
      StreamsAreInOrder(r.before);
      if Enabled(End(r.before), r.e) {
        ApplyKeepsOrder(End(r.before), r.e);
      }
    }
  }

  // ---------------------------------------------------------------- nothing is dropped

  /** What was passed on for stream `id`. */
  function PassedFor(ps: seq<Passed>, id: nat): seq<seq<Byte>> {
    if ps == [] then []
    else
      var last := ps[|ps| - 1];
      PassedFor(ps[..|ps| - 1], id) + (if last.id == id then [last.bytes] else [])
  }

  function QueueOf(s: State, id: nat): seq<Item> { if id in s.table.streams then s.table.streams[id] else [] }

  predicate NumberedHere(s: State, id: nat) { 1 <= id <= s.table.nextId }

  /** Every payload accepted for stream `id` was passed on or is queued, in order. */
  ghost predicate Whole(s: State, id: nat) {
    PassedFor(s.passed, id) + Payloads(QueueOf(s, id)) == Project(s.accepted, id)
  }

  /** A stream that was never closed here is whole; a stream missing from the table was closed here, ended by its peer,
      or never opened; and a stream that its peer opened and ended has a mark to come. */
  ghost predicate Kept(s: State, id: nat) {
    && (id !in s.closedHere ==> Whole(s, id))
    && (id !in s.closedHere && IsPending(s, id) ==> id in s.table.streams)
    && (NumberedHere(s, id) && id !in s.table.streams && id !in s.closedHere ==> id in s.finSeen || s.ending)
    && (id in s.table.closedPeer ==> id in s.closedHere)
    && (id in s.closedHere && !NumberedHere(s, id) ==> id !in s.table.streams)
    && (IsPending(s, id) ==> (id in s.finSeen <==> s.pending.value.Fin()))
    && ((id in s.finSeen || s.ending) && id in s.table.streams && !IsPending(s, id) && !NumberedHere(s, id) ==>
          !NoMark(s.table.streams[id]))
  }

  lemma {:induction false} PassedAppend(ps: seq<Passed>, p: Passed, id: nat)
    ensures PassedFor(ps + [p], id) == PassedFor(ps, id) + (if p.id == id then [p.bytes] else [])
  {
    assert (ps + [p])[..|ps|] == ps;
  }

  /** Which stream an inbound frame goes on to. */
  ghost predicate GoesTo(s: State, f: Frame) {
    f.id in s.table.streams
    || (!(f.Fin() && f.payload == []) && f.id !in s.closedHere && !NumberedHere(s, f.id))
  }

  lemma {:induction false} FindsExactlyHere(s: State, f: Frame)
    requires Remembered(s) && Enabled(s, Find(f)) && Kept(s, f.id)
    ensures Apply(s, Find(f)).pending == (if GoesTo(s, f) then Some(f) else None)
    ensures GoesTo(s, f) ==> f.id in Apply(s, Find(f)).table.streams
  {
  }

  /** A frame that goes nowhere carries nothing, or is for a stream that was closed here. */
  lemma {:induction false} DroppedFrame(s: State, f: Frame)
    requires Kept(s, f.id) && Enabled(s, Find(f)) && !GoesTo(s, f)
    ensures f.payload == [] || f.id in s.closedHere
  {
  }

  lemma {:induction false} FindKeepsOwn(s: State, f: Frame)
    requires Remembered(s) && Kept(s, f.id) && Enabled(s, Find(f))
    ensures Kept(Apply(s, Find(f)), f.id)
  {
    FindsExactlyHere(s, f);
    if !GoesTo(s, f) {
      DroppedFrame(s, f);
      ProjectAppend(s.accepted, f, f.id);
    }
  }

  /** A step that does not concern stream `id`. */
  ghost predicate Apart(s: State, s': State, id: nat) {
    && (id in s'.table.streams <==> id in s.table.streams) && QueueOf(s', id) == QueueOf(s, id)
    && (id in s'.table.closedPeer <==> id in s.table.closedPeer) && (id in s'.closedHere <==> id in s.closedHere)
    && (id in s'.finSeen <==> id in s.finSeen) && s'.ending == s.ending && s'.table.nextId == s.table.nextId
    && (IsPending(s', id) <==> IsPending(s, id)) && (IsPending(s, id) ==> s'.pending == s.pending)
    && Project(s'.accepted, id) == Project(s.accepted, id) && PassedFor(s'.passed, id) == PassedFor(s.passed, id)
  }

  lemma {:induction false} ApartKeeps(s: State, s': State, id: nat)
    requires Kept(s, id) && Apart(s, s', id)
    ensures Kept(s', id)
  {
  }

  lemma {:induction false} TableFindIsApart(t: Table, f: Frame, id: nat)
    requires id != f.id
    ensures var t' := t.Find(f).0;
            && (id in t'.streams <==> id in t.streams) && (id in t.streams ==> t'.streams[id] == t.streams[id])
            && (id in t'.closedPeer <==> id in t.closedPeer) && t'.nextId == t.nextId
  {
  }

  lemma {:induction false} OtherFrame(fs: seq<Frame>, f: Frame, id: nat)
    requires id != f.id
    ensures Project(fs + [f], id) == Project(fs, id)
  {
    ProjectAppend(fs, f, id);
    assert Project(fs, id) + [] == Project(fs, id);
  }

  lemma {:induction false} FindIsApart(s: State, f: Frame, id: nat)
    requires Enabled(s, Find(f)) && id != f.id
    ensures Apart(s, Apply(s, Find(f)), id)
  {
    TableFindIsApart(s.table, f, id);
    OtherFrame(s.accepted, f, id);
  }

  lemma {:induction false} DeliverIsApart(s: State, id: nat)
    requires Enabled(s, Deliver) && id != s.pending.value.id
    ensures Apart(s, Apply(s, Deliver), id)
  {
    OtherFrame(s.accepted, s.pending.value, id);
  }

  lemma {:induction false} MarkCounts(q: seq<Item>, f: Frame)
    ensures f.Fin() ==> !NoMark(q + Items(f))
    ensures !NoMark(q) ==> !NoMark(q + Items(f))
  {
    if q == [] {
      assert q + Items(f) == Items(f);
    } else {
      MarkCounts(q[1..], f);
      assert (q + Items(f))[0] == q[0] && (q + Items(f))[1..] == q[1..] + Items(f);
    }
  }

  lemma {:induction false} DeliverKeeps(s: State, id: nat)
    requires Ordered(s) && Kept(s, id) && Enabled(s, Deliver) && s.pending.value.id == id
    ensures Kept(Apply(s, Deliver), id)
  {
    var f := s.pending.value;
    ProjectAppend(s.accepted, f, id);
    if id in s.table.streams {
      assert InOrder(s, id);
      var q, p := s.table.streams[id], if f.payload != [] then [f.payload] else [];
      QueueFrame(q, f);
      MarkCounts(q, f);
      Regroup(PassedFor(s.passed, id), Payloads(q), p);
      assert Apply(s, Deliver).table.streams[id] == q + Items(f);
    }
  }

  lemma {:induction false} OpenKeeps(s: State, id: nat)
    requires Kept(s, id) && id <= MAX_STREAM
    ensures Kept(Apply(s, Open), id)
  {
  }

  lemma {:induction false} CloseKeeps(s: State, c: nat, id: nat)
    requires Kept(s, id)
    ensures Kept(Apply(s, CloseLocal(c)), id)
  {
  }

  lemma {:induction false} PassKeeps(s: State, d: nat, id: nat)
    requires Kept(s, id) && Enabled(s, DecodeOne(d)) && s.table.streams[d][0].Payload?
    ensures Kept(Apply(s, DecodeOne(d)), id)
  {
    var q := s.table.streams[d];
    PassedAppend(s.passed, Passed(d, q[0].bytes), id);
    if id == d {
      Regroup(PassedFor(s.passed, id), [q[0].bytes], Payloads(q[1..]));
    } else {
      assert PassedFor(s.passed, id) + [] == PassedFor(s.passed, id);
    }
  }

  lemma {:induction false} ReleaseKeeps(s: State, d: nat, id: nat)
    requires Ordered(s) && Kept(s, id) && Enabled(s, DecodeOne(d)) && s.table.streams[d][0].FinMark?
    ensures Kept(Apply(s, DecodeOne(d)), id)
  {
    if id == d {
      assert InOrder(s, d);
      assert Payloads(s.table.streams[d]) == [];
    }
  }

  lemma {:induction false} EndKeeps(s: State, id: nat)
    requires Ordered(s) && Kept(s, id) && Enabled(s, CloseByPeer)
    ensures Kept(Apply(s, CloseByPeer), id)
  {
    if id in s.table.streams {
      assert InOrder(s, id);
      var q := s.table.streams[id];
      QueueItem(q, FinMark);
      assert Payloads(q) + [] == Payloads(q);
      MarkCounts(q, Frame(1, true, []));
      assert Items(Frame(1, true, [])) == [FinMark];
    }
  }

  lemma {:induction false} StepKeepsWhole(s: State, e: Event, id: nat)
    requires Ordered(s) && Remembered(s) && Kept(s, id) && id <= MAX_STREAM && Enabled(s, e)
    ensures Kept(Apply(s, e), id)
  {
    match e
    case Find(f) =>
      if f.id == id {
        FindKeepsOwn(s, f);
      } else {
        FindIsApart(s, f, id);
        ApartKeeps(s, Apply(s, e), id);
      }
    case Deliver =>
      if s.pending.value.id == id {
        DeliverKeeps(s, id);
      } else {
        DeliverIsApart(s, id);
        ApartKeeps(s, Apply(s, e), id);
      }
    case Open => OpenKeeps(s, id);
    case CloseLocal(c) => CloseKeeps(s, c, id);
    case DecodeOne(d) =>
      if s.table.streams[d][0].Payload? {
        PassKeeps(s, d, id);
      } else {
        ReleaseKeeps(s, d, id);
      }
    case CloseByPeer => EndKeeps(s, id);
  }

  lemma {:induction false} RunsAreWhole(r: Run, id: nat)
    requires id <= MAX_STREAM
    ensures Kept(End(r), id)
  {
    if r.Then? {
      RunsAreWhole(r.before, id);
      if Enabled(End(r.before), r.e) {
        StreamsAreInOrder(r.before);
        RunsRemember(r.before);
        StepKeepsWhole(End(r.before), r.e, id);
      }
    }
  }

  /** Nothing is dropped: in every run, every payload accepted for a stream that was never closed here was passed on, in
      order, or is queued; once the stream has left the table all of it was passed on. */
  lemma {:induction false} NothingIsDropped(r: Run, s: State, id: nat)
    requires s == End(r) && id <= MAX_STREAM && id !in s.closedHere
    ensures PassedFor(s.passed, id) + Payloads(QueueOf(s, id)) == Project(s.accepted, id)
    ensures id !in s.table.streams ==> PassedFor(s.passed, id) == Project(s.accepted, id)
  {
    RunsAreWhole(r, id);
    assert PassedFor(s.passed, id) + [] == PassedFor(s.passed, id);
  }

  /** Where a frame goes, in every run: to its stream if that is open, or, with a payload or without FIN, if it was
      neither closed here nor numbered by this side; then the stream is opened for it. */
  lemma {:induction false} FindsExactly(r: Run, s: State, f: Frame)
    requires s == End(r) && Enabled(s, Find(f)) && f.id <= MAX_STREAM
    ensures Apply(s, Find(f)).pending == (if GoesTo(s, f) then Some(f) else None)
    ensures GoesTo(s, f) ==> f.id in Apply(s, Find(f)).table.streams
  {
    RunsRemember(r);
    RunsAreWhole(r, f.id);
    FindsExactlyHere(s, f);
  }

  /** `r'` goes on from `r` by steps of the decode loop of stream `id`. */
  ghost predicate OnlyDecodes(r: Run, r': Run, id: nat) {
    r' == r || (r'.Then? && r'.e == DecodeOne(id) && OnlyDecodes(r, r'.before, id))
  }

  lemma {:induction false} DecodesFirst(r: Run, r': Run, id: nat)
    requires OnlyDecodes(Then(r, DecodeOne(id)), r', id)
    ensures OnlyDecodes(r, r', id)
    decreases r'
  {
    if r' != Then(r, DecodeOne(id)) {
      DecodesFirst(r, r'.before, id);
    } else {
      assert OnlyDecodes(r, r, id);
    }
  }

  /** A stream that its peer opened and ended, or whose connection it ended, is released: its decode loop alone takes it from the table, with everything
      passed on. */
  lemma {:induction false} EndedIsReleased(r: Run, id: nat) returns (r': Run)
    requires var s := End(r);
             && id <= MAX_STREAM && id in s.table.streams && (id in s.finSeen || s.ending) && id !in s.closedHere
             && !IsPending(s, id) && !NumberedHere(s, id)
    ensures OnlyDecodes(r, r', id)
    ensures var s, s' := End(r), End(r');
            && id !in s'.table.streams && s'.accepted == s.accepted
            && PassedFor(s'.passed, id) == Project(s.accepted, id)
    decreases |End(r).table.streams[id]|
  {
    var s := End(r);
    RunsAreWhole(r, id);
    StreamsAreInOrder(r);
    assert InOrder(s, id);
    var r1 := Then(r, DecodeOne(id));
    assert Enabled(s, DecodeOne(id));
    if s.table.streams[id][0].FinMark? {
      r' := r1;
      NothingIsDropped(r1, End(r1), id);
      assert OnlyDecodes(r, r, id);
    } else {
      r' := EndedIsReleased(r1, id);
      DecodesFirst(r, r', id);
    }
  }

  /** After FIN the number of a stream that its peer opened is no longer kept in mind. */
  lemma {:induction false} FinForgets(r: Run, s: State, f: Frame)
    requires s == End(r) && Enabled(s, Find(f)) && f.id <= MAX_STREAM && f.Fin() && !NumberedHere(s, f.id)
    ensures f.id !in Apply(s, Find(f)).table.closedPeer
  {
    RunsAreWhole(r, f.id);
  }

  /** A stream that is closed here is gone. */
  lemma {:induction false} ClosedIsGone(s: State, id: nat)
    ensures id !in Apply(s, CloseLocal(id)).table.streams
    ensures id in s.table.streams ==> id in Apply(s, CloseLocal(id)).closedHere
  {
  }
}
