/** The ACK scheduler of the v3 protocol: when the receiver owes its peer a cumulative acknowledgement. */
module Acks {

  /** `dueAt` is when a delayed ACK becomes due; zero means that none is. */
  datatype AckState = AckState(lastRecv: nat, lastAckSent: nat, pending: nat, due: bool, dueAt: nat) {

    /** What every step keeps, whatever the batching options are. */
    predicate Valid() {
      && lastAckSent <= lastRecv
      && pending == lastRecv - lastAckSent
      && (pending > 0 ==> due || dueAt != 0)
      && (due || dueAt != 0 ==> pending > 0)
    }

    /** With a fixed batch size, fewer than a batch wait without an ACK being due. */
    predicate Batched(ackEvery: nat) {
      !due ==> pending < if ackEvery <= 1 then 1 else ackEvery
    }

    /** An ACK is due, or its delay is over, at time `now`. */
    predicate Ready(now: nat) {
      due || (dueAt != 0 && dueAt <= now)
    }

    /** The state after data frame `seqNo` arrived, and whether the writer is signalled. */
    function NoteReceived(seqNo: nat, ackEvery: nat, ackDelay: int, now: nat): (AckState, bool) {
      if seqNo <= lastRecv then
        (if lastAckSent < lastRecv then this.(due := true) else this, true)
      else
        var s := this.(lastRecv := seqNo, pending := pending + 1);
        if ackEvery <= 1 || s.pending >= ackEvery || ackDelay <= 0 then
          (s.(due := true, dueAt := 0), true)
        else if dueAt == 0 then
          (s.(dueAt := now + ackDelay), true)
        else
          (s, false)
    }

    /** Every received frame becomes acknowledged. */
    function Taken(): AckState {
      AckState(lastRecv, lastRecv, 0, false, 0)
    }

    /** The state after the writer asked for an ACK at time `now`, and whether it got one. */
    function Take(now: nat): (AckState, bool) {
      if !Ready(now) then (this, false)
      else if lastAckSent >= lastRecv then (this.(due := false, dueAt := 0), false)
      else (Taken(), true)
    }
  }

  const INITIAL := AckState(0, 0, 0, false, 0)

  /** One received frame keeps the accounting; the writer is signalled whenever an ACK becomes due or
      scheduled, so nothing that it must look at appears silently. */
  lemma NoteReceivedKeepsAccounting(s: AckState, seqNo: nat, ackEvery: nat, ackDelay: int, now: nat)
    requires s.Valid() && seqNo <= s.lastRecv + 1
    ensures var (s', signal) := s.NoteReceived(seqNo, ackEvery, ackDelay, now);
            && s'.Valid()
            && s'.lastRecv == (if seqNo > s.lastRecv then seqNo else s.lastRecv)
            && s'.lastAckSent == s.lastAckSent
            && (s.Batched(ackEvery) ==> s'.Batched(ackEvery))
            && (s'.due && !s.due ==> signal)
            && (s'.dueAt != 0 && s.dueAt == 0 ==> signal)
  {
  }

  /** The writer gets an ACK exactly when one is ready: the branch that finds nothing to acknowledge is
      never entered. */
  lemma TakeReturnsReadyAck(s: AckState, now: nat)
    requires s.Valid()
    ensures s.Take(now) == (if s.Ready(now) then (s.Taken(), true) else (s, false))
    ensures s.Ready(now) ==> s.lastRecv > s.lastAckSent
    ensures s.Take(now).0.Valid()
  {
  }

  datatype Event =
    | Receive(seqNo: nat, ackDelay: int, now: nat)
    | Poll(at: nat)

  /** One event of the reader or of the writer's poll. The reader never skips a number. */
  function Apply(s: AckState, e: Event, ackEvery: nat): AckState {
    match e
    case Receive(seqNo, ackDelay, now) =>
      if seqNo <= s.lastRecv + 1 then s.NoteReceived(seqNo, ackEvery, ackDelay, now).0 else s
    case Poll(at) => s.Take(at).0
  }

  function After(s: AckState, events: seq<Event>, ackEvery: nat): AckState {
    if events == [] then s else Apply(After(s, events[..|events| - 1], ackEvery), events[|events| - 1], ackEvery)
  }

  /** Whether one of the events signals the writer. */
  predicate Signals(s: AckState, events: seq<Event>, ackEvery: nat) {
    events != [] && (
      || Signals(s, events[..|events| - 1], ackEvery)
      || (var e := events[|events| - 1]; var last := After(s, events[..|events| - 1], ackEvery);
          e.Receive? && e.seqNo <= last.lastRecv + 1
          && last.NoteReceived(e.seqNo, ackEvery, e.ackDelay, e.now).1))
  }

  /** The writer reads the due flag and the due time one after the other without the lock, and frames may
      arrive between the two reads. When it concludes that no ACK is ready, none is, or a signal raised
      after the first read makes it look again. */
  lemma {:induction false} TornCheckHidesNothing(s: AckState, events: seq<Event>, ackEvery: nat, now: nat)
    requires s.Valid() && forall i :: 0 <= i < |events| ==> events[i].Receive?
    requires !s.due
    requires var s' := After(s, events, ackEvery); s'.dueAt == 0 || now < s'.dueAt
    ensures !After(s, events, ackEvery).Ready(now) || Signals(s, events, ackEvery)
  {
    DueImpliesSignal(s, events, ackEvery);
  }

  lemma {:induction false} DueImpliesSignal(s: AckState, events: seq<Event>, ackEvery: nat)
    requires forall i :: 0 <= i < |events| ==> events[i].Receive?
    requires !s.due
    ensures After(s, events, ackEvery).due ==> Signals(s, events, ackEvery)
  {
    if events != [] {
      DueImpliesSignal(s, events[..|events| - 1], ackEvery);
    }
  }

  /** ACK accounting over any run with a fixed batch size. */
  lemma {:induction false} AccountingHolds(events: seq<Event>, ackEvery: nat)
    ensures After(INITIAL, events, ackEvery).Valid() && After(INITIAL, events, ackEvery).Batched(ackEvery)
  {
    if events != [] {
      AccountingHolds(events[..|events| - 1], ackEvery);
    }
  }

  // ---------------------------------------------------------------- neither late nor early

  /** A frame that waits for its ACK: when it came, and the delay it was given. */
  datatype Arrival = Arrival(at: nat, delay: int)

  /** What an ACK is for, without any of the scheduler's fields: the frames received, those that wait, and whether one
      came again since the last ACK. */
  datatype Book = Book(recv: nat, waiting: seq<Arrival>, again: bool) {

    /** An ACK is owed at once: for a full batch, a frame that came again, or a frame without a delay. */
    predicate Owed(ackEvery: nat) {
      waiting != [] && (|waiting| >= ackEvery || again || exists i :: 0 <= i < |waiting| && waiting[i].delay <= 0)
    }

    /** Otherwise it is owed when the delay of the first frame that waits is over. */
    predicate OwedAt(ackEvery: nat, now: nat) {
      Owed(ackEvery) || (waiting != [] && waiting[0].at + waiting[0].delay <= now)
    }

    function Next(e: Event, ackEvery: nat): Book {
      match e
      case Receive(seqNo, delay, now) =>
        if seqNo == recv + 1 then this.(recv := recv + 1, waiting := waiting + [Arrival(now, delay)])
        else if seqNo <= recv && waiting != [] then this.(again := true)
        else this
      case Poll(at) => if OwedAt(ackEvery, at) then this.(waiting := [], again := false) else this
    }
  }

  function BookAfter(events: seq<Event>, ackEvery: nat): Book {
    if events == [] then Book(0, [], false)
    else BookAfter(events[..|events| - 1], ackEvery).Next(events[|events| - 1], ackEvery)
  }

  predicate Delayed(waiting: seq<Arrival>) { forall i :: 0 <= i < |waiting| ==> waiting[i].delay > 0 }

  /** The scheduler's fields say exactly what the book says. */
  ghost predicate Matches(s: AckState, b: Book, ackEvery: nat) {
    && s.lastRecv == b.recv && s.pending == |b.waiting| && s.lastAckSent == b.recv - |b.waiting|
    && s.due == b.Owed(ackEvery)
    && (b.waiting == [] ==> s.dueAt == 0 && !b.again)
    && (b.waiting != [] && Delayed(b.waiting) && |b.waiting| < ackEvery ==> s.dueAt == b.waiting[0].at + b.waiting[0].delay)
  }

  lemma {:induction false} OwedGrows(b: Book, a: Arrival, ackEvery: nat)
    ensures b.(waiting := b.waiting + [a]).Owed(ackEvery) <==>
            b.Owed(ackEvery) || |b.waiting| + 1 >= ackEvery || a.delay <= 0 || b.again
    ensures Delayed(b.waiting + [a]) <==> Delayed(b.waiting) && a.delay > 0
  {
    var w := b.waiting + [a];
    assert w[|b.waiting|] == a && forall i :: 0 <= i < |b.waiting| ==> w[i] == b.waiting[i];
  }

  lemma {:induction false} NextMatches(s: AckState, b: Book, e: Event, ackEvery: nat)
    requires Matches(s, b, ackEvery)
    ensures Matches(Apply(s, e, ackEvery), b.Next(e, ackEvery), ackEvery)
  {
    match e
    case Receive(seqNo, delay, now) =>
      if seqNo == b.recv + 1 {
        OwedGrows(b, Arrival(now, delay), ackEvery);
      }
    case Poll(at) =>
  }

  /** The scheduler is exact, for every batch size, every delay and every order of frames, duplicates and polls: an ACK
      is due if and only if one is owed at once, and else it is scheduled for the first frame that waits. */
  lemma {:induction false} SchedulerIsExact(events: seq<Event>, ackEvery: nat)
    ensures Matches(After(INITIAL, events, ackEvery), BookAfter(events, ackEvery), ackEvery)
  {
    if events != [] {
      var before := events[..|events| - 1];
      SchedulerIsExact(before, ackEvery);
      NextMatches(After(INITIAL, before, ackEvery), BookAfter(before, ackEvery), events[|events| - 1], ackEvery);
    }
  }

  /** So a poll takes an ACK exactly when one is owed, and a frame signals the writer exactly when it came again, fills a
      batch, has no delay, or is the first to wait. */
  lemma {:induction false} PollsAndSignalsAreExact(events: seq<Event>, ackEvery: nat, seqNo: nat, delay: int, now: nat)
    ensures var s, b := After(INITIAL, events, ackEvery), BookAfter(events, ackEvery);
            && s.Take(now).1 == b.OwedAt(ackEvery, now)
            && (seqNo <= b.recv ==> s.NoteReceived(seqNo, ackEvery, delay, now).1)
            && (seqNo == b.recv + 1 && Delayed(b.waiting) ==>
                  (s.NoteReceived(seqNo, ackEvery, delay, now).1 <==>
                     |b.waiting| + 1 >= ackEvery || delay <= 0 || b.waiting == []))
  {
    SchedulerIsExact(events, ackEvery);
    OwedWhenDelayed(BookAfter(events, ackEvery), ackEvery);
  }

  lemma {:induction false} OwedWhenDelayed(b: Book, ackEvery: nat)
    ensures !Delayed(b.waiting) ==> b.Owed(ackEvery)
  {
  }

  /** `recoveryState`, reduced to its ACK fields. */
  class AckScheduler {
    var ackEvery: nat
    var ackDelay: int
    var lastRecvSeq: nat
    var lastAckSent: nat
    var ackPending: nat
    var ackDue: bool
    var ackDueAt: nat

    ghost function Abs(): AckState
      reads this
    {
      AckState(lastRecvSeq, lastAckSent, ackPending, ackDue, ackDueAt)
    }

    constructor (ackEvery: nat, ackDelay: int)
      ensures Abs() == INITIAL && this.ackEvery == ackEvery && this.ackDelay == ackDelay
    {
      this.ackEvery, this.ackDelay := ackEvery, ackDelay;
      lastRecvSeq, lastAckSent, ackPending, ackDue, ackDueAt := 0, 0, 0, false, 0;
    }

    /** Returns whether the writer is signalled. */
    method NoteReceived(seqNo: nat, now: nat) returns (signal: bool)
      modifies this`lastRecvSeq, this`ackPending, this`ackDue, this`ackDueAt
      ensures (Abs(), signal) == old(Abs()).NoteReceived(seqNo, ackEvery, ackDelay, now)
    {
      if seqNo <= lastRecvSeq {
        if lastAckSent < lastRecvSeq {
          ackDue := true;
        }
        return true;
      }
      lastRecvSeq := seqNo;
      ackPending := ackPending + 1;
      signal := false;
      if ackEvery <= 1 || ackPending >= ackEvery {
        ackDue, ackDueAt, signal := true, 0, true;
      } else if ackDelay <= 0 {
        ackDue, ackDueAt, signal := true, 0, true;
      } else if ackDueAt == 0 {
        ackDueAt, signal := now + ackDelay, true;
      }
    }

    /** The lock-free check first, then the decision under the lock. */
    method TakePendingControl(now: nat) returns (taken: bool, seqNo: nat)
      modifies this`lastAckSent, this`ackPending, this`ackDue, this`ackDueAt
      ensures (Abs(), taken) == old(Abs()).Take(now)
      ensures taken ==> seqNo == lastRecvSeq > old(lastAckSent)
    {
      if !ackDue {
        if ackDueAt == 0 || now < ackDueAt {
          return false, 0;
        }
      }
      if lastAckSent >= lastRecvSeq {
        ackDue, ackDueAt := false, 0;
        return false, 0;
      }
      seqNo := lastRecvSeq;
      lastAckSent := seqNo;
      ackPending := 0;
      ackDue, ackDueAt := false, 0;
      taken := true;
    }
  }
}
