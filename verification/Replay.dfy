/** The replay buffer of the v3 protocol: the frames sent and not yet acknowledged.

    `Log` is the plain value the buffer stands for; `ReplayBuffer` is the mutable structure with its
    lazily advanced head and its compaction, proved against `Log`. */
module Replay {

  import opened Prelude
  import opened Bytes

  /** A frame as its sender queues it. */
  datatype Frame = Frame(stream: nat, flags: nat, payload: seq<Byte>)

  /** A frame kept under its sequence number; `size` counts the header too. */
  datatype Record = Record(seqNo: nat, frame: Frame, size: nat)

  datatype StageOutcome =
    | Staged(record: Record)
    | Held          // waits for room
    | TooLarge      // can never fit
    | AlreadyAcked  // the number was acknowledged before the frame was kept
    | NotIncreasing // the number does not follow the last frame kept

  function RecordBytes(kept: seq<Record>): nat {
    if kept == [] then 0 else RecordBytes(kept[..|kept| - 1]) + kept[|kept| - 1].size
  }

  /** The unacknowledged frames, oldest first, and the highest number acknowledged. A `maxBytes` of zero or
      less means no cap. */
  datatype Log = Log(headerLen: nat, maxBytes: int, lastAcked: nat, kept: seq<Record>) {

    ghost predicate Valid() {
      && Ordered(kept, headerLen, lastAcked)
      && (maxBytes > 0 ==> RecordBytes(kept) <= maxBytes)
    }

    function SizeOf(frame: Frame): nat {
      headerLen + |frame.payload|
    }

    predicate Fits(frame: Frame) {
      maxBytes <= 0 || RecordBytes(kept) + SizeOf(frame) <= maxBytes
    }

    /** The frame fits once nothing is kept. */
    predicate Alone(frame: Frame) {
      maxBytes <= 0 || SizeOf(frame) <= maxBytes
    }

    function Outcome(frame: Frame, seqNo: nat): StageOutcome {
      if !Fits(frame) then
        if SizeOf(frame) <= maxBytes then Held else TooLarge
      else if seqNo <= lastAcked then AlreadyAcked
      else if kept != [] && seqNo <= kept[|kept| - 1].seqNo then NotIncreasing
      else Staged(Record(seqNo, frame, SizeOf(frame)))
    }

    /** The log after a frame was offered: only a staged frame changes it. */
    function Stage(frame: Frame, seqNo: nat): Log {
      var out := Outcome(frame, seqNo);
      if out.Staged? then this.(kept := kept + [out.record]) else this
    }

    /** The log after a cumulative acknowledgement of every number up to `seqNo`. */
    function Ack(seqNo: nat): Log {
      if seqNo <= lastAcked then this else this.(lastAcked := seqNo, kept := After(kept, seqNo))
    }
  }

  /** The records numbered above `seqNo`, in order. */
  function After(kept: seq<Record>, seqNo: nat): (r: seq<Record>)
  {
    if kept == [] then []
    else if kept[0].seqNo > seqNo then [kept[0]] + After(kept[1..], seqNo)
    else After(kept[1..], seqNo)
  }

  /** The numbers of `kept` strictly increase from above `low`, and each size is that of its frame. */
  ghost predicate Ordered(kept: seq<Record>, headerLen: nat, low: nat) {
    kept == [] || (
      && kept[0].seqNo > low
      && kept[0].size == headerLen + |kept[0].frame.payload|
      && Ordered(kept[1..], headerLen, kept[0].seqNo))
  }

  // ---------------------------------------------------------------- properties of the plain log

  /** What the recursive `Ordered` says position by position. */
  lemma {:induction false} OrderedAt(kept: seq<Record>, headerLen: nat, low: nat, i: nat)
    requires Ordered(kept, headerLen, low) && i < |kept|
    ensures kept[i].seqNo > low
    ensures kept[i].size == headerLen + |kept[i].frame.payload|
    ensures forall j :: i < j < |kept| ==> kept[i].seqNo < kept[j].seqNo
    decreases |kept|
  {
    if i > 0 {
      OrderedAt(kept[1..], headerLen, kept[0].seqNo, i - 1);
    } else {
      forall j | 0 < j < |kept| ensures kept[0].seqNo < kept[j].seqNo {
        OrderedAt(kept[1..], headerLen, kept[0].seqNo, j - 1);
      }
    }
  }

  lemma {:induction false} OrderedBelow(kept: seq<Record>, headerLen: nat, low: nat, h: nat)
    requires Ordered(kept, headerLen, low) && h < |kept|
    ensures forall k :: 0 <= k < h ==> kept[k].seqNo < kept[h].seqNo
  {
    forall k | 0 <= k < h ensures kept[k].seqNo < kept[h].seqNo {
      OrderedAt(kept, headerLen, low, k);
    }
  }

  lemma {:induction false} OrderedAppend(kept: seq<Record>, headerLen: nat, low: nat, r: Record)
    requires Ordered(kept, headerLen, low) && r.size == headerLen + |r.frame.payload|
    requires r.seqNo > if kept == [] then low else kept[|kept| - 1].seqNo
    ensures Ordered(kept + [r], headerLen, low)
  {
    if kept != [] {
      OrderedAppend(kept[1..], headerLen, kept[0].seqNo, r);
      assert (kept + [r])[1..] == kept[1..] + [r];
    }
  }

  /** The filter of an ordered log is the rest after its covered prefix. */
  lemma {:induction false} AfterSplit(kept: seq<Record>, headerLen: nat, low: nat, seqNo: nat, n: nat)
    requires Ordered(kept, headerLen, low) && n <= |kept|
    requires forall i :: 0 <= i < n ==> kept[i].seqNo <= seqNo
    requires n < |kept| ==> kept[n].seqNo > seqNo
    ensures After(kept, seqNo) == kept[n..]
    ensures seqNo >= low ==> Ordered(kept[n..], headerLen, seqNo)
    decreases |kept|
  {
    if kept != [] && n > 0 {
      AfterSplit(kept[1..], headerLen, kept[0].seqNo, seqNo, n - 1);
    } else if kept != [] {
      AllAfter(kept, headerLen, low, seqNo);
      assert kept[0..] == kept;
    }
  }

  lemma {:induction false} AllAfter(kept: seq<Record>, headerLen: nat, low: nat, seqNo: nat)
    requires Ordered(kept, headerLen, low)
    requires kept != [] ==> kept[0].seqNo > seqNo
    ensures After(kept, seqNo) == kept
  {
    if |kept| > 0 {
      if |kept| > 1 {
        assert kept[1..][0].seqNo > kept[0].seqNo;
      }
      AllAfter(kept[1..], headerLen, kept[0].seqNo, seqNo);
    }
  }

  lemma {:induction false} RecordBytesAppend(a: seq<Record>, b: seq<Record>)
    ensures RecordBytes(a + b) == RecordBytes(a) + RecordBytes(b)
  {
    if b == [] {
      assert a + b == a;
    } else {
      assert (a + b)[..|a + b| - 1] == a + b[..|b| - 1];
      RecordBytesAppend(a, b[..|b| - 1]);
    }
  }

  /** The length of the prefix that an acknowledgement covers. */
  ghost function Covered(kept: seq<Record>, seqNo: nat): (n: nat)
    ensures n <= |kept|
    ensures forall i :: 0 <= i < n ==> kept[i].seqNo <= seqNo
    ensures n < |kept| ==> kept[n].seqNo > seqNo
  {
    if kept == [] || kept[0].seqNo > seqNo then 0 else 1 + Covered(kept[1..], seqNo)
  }

  lemma {:induction false} RecordBytesSplit(kept: seq<Record>, n: nat)
    requires n <= |kept|
    ensures RecordBytes(kept) == RecordBytes(kept[..n]) + RecordBytes(kept[n..])
  {
    RecordBytesAppend(kept[..n], kept[n..]);
    assert kept == kept[..n] + kept[n..];
  }

  /** An acknowledgement drops exactly the covered prefix, keeps the log valid, and frees exactly the
      bytes of what it drops. */
  lemma {:induction false} AckDropsCoveredPrefix(log: Log, seqNo: nat, n: nat)
    requires log.Valid() && n <= |log.kept|
    requires forall i :: 0 <= i < n ==> log.kept[i].seqNo <= seqNo
    requires n < |log.kept| ==> log.kept[n].seqNo > seqNo
    ensures log.Ack(seqNo).Valid()
    ensures log.Ack(seqNo).kept == log.kept[n..]
    ensures log.Ack(seqNo).lastAcked == if seqNo > log.lastAcked then seqNo else log.lastAcked
    ensures RecordBytes(log.kept) == RecordBytes(log.kept[..n]) + RecordBytes(log.Ack(seqNo).kept)
  {
    AfterSplit(log.kept, log.headerLen, log.lastAcked, seqNo, n);
    RecordBytesSplit(log.kept, n);
    if seqNo <= log.lastAcked {
      AllAfter(log.kept, log.headerLen, log.lastAcked, seqNo);
      assert n == 0;
    }
  }

  lemma {:induction false} AckKeepsValid(log: Log, seqNo: nat)
    requires log.Valid()
    ensures log.Ack(seqNo).Valid()
  {
    AckDropsCoveredPrefix(log, seqNo, Covered(log.kept, seqNo));
  }

  /** Acknowledgements are cumulative: their order and repetition do not matter. */
  lemma {:induction false} AcksAreCumulative(log: Log, a: nat, b: nat)
    requires log.Valid()
    ensures log.Ack(a).Ack(b) == log.Ack(if a < b then b else a)
  {
    if a > log.lastAcked {
      AfterTwice(log.kept, a, b);
    }
  }

  lemma {:induction false} AfterTwice(kept: seq<Record>, a: nat, b: nat)
    ensures After(After(kept, a), b) == After(kept, if a < b then b else a)
  {
    if kept != [] {
      AfterTwice(kept[1..], a, b);
      if kept[0].seqNo > a {
        assert ([kept[0]] + After(kept[1..], a))[1..] == After(kept[1..], a);
      }
    }
  }

  lemma {:induction false} RecordBytesOne(record: Record)
    ensures RecordBytes([record]) == record.size
  {
    assert [record][..0] == [];
  }

  /** A staged frame is appended, everything else leaves the log alone, and the log stays valid. A held
      frame is one that fits as soon as the frames kept are acknowledged. */
  lemma {:induction false} StageKeepsValid(log: Log, frame: Frame, seqNo: nat)
    requires log.Valid()
    ensures log.Stage(frame, seqNo).Valid()
    ensures log.Outcome(frame, seqNo).Held? ==> log.Alone(frame)
  {
    var record := Record(seqNo, frame, log.SizeOf(frame));
    RecordBytesAppend(log.kept, [record]);
    RecordBytesOne(record);
    if log.Outcome(frame, seqNo).Staged? {
      OrderedAppend(log.kept, log.headerLen, log.lastAcked, record);
    }
  }

  // ---------------------------------------------------------------- the mutable buffer

  /** The records in the slots from `head` on. */
  function Live(frames: seq<Option<Record>>, head: nat): (r: seq<Record>)
    decreases |frames| - head
  {
    if head >= |frames| then []
    else if frames[head].Some? then [frames[head].value] + Live(frames, head + 1)
    else Live(frames, head + 1)
  }

  /** Slots before `head` are cleared, the others are not. */
  ghost predicate Shape(frames: seq<Option<Record>>, head: nat) {
    head <= |frames| && forall i :: 0 <= i < |frames| ==> (frames[i].None? <==> i < head)
  }

  lemma {:induction false} LiveLength(frames: seq<Option<Record>>, head: nat)
    requires Shape(frames, head)
    ensures |Live(frames, head)| == |frames| - head
    ensures head < |frames| ==> Live(frames, head)[0] == frames[head].value
    ensures head < |frames| ==> Live(frames, head)[|frames| - head - 1] == frames[|frames| - 1].value
  {
    LiveFrom(frames, head, head);
  }

  lemma {:induction false} LiveFrom(frames: seq<Option<Record>>, head: nat, i: nat)
    requires Shape(frames, head) && head <= i <= |frames|
    ensures |Live(frames, i)| == |frames| - i
    ensures i < |frames| ==> Live(frames, i)[|frames| - i - 1] == frames[|frames| - 1].value
    decreases |frames| - i
  {
    if i < |frames| {
      LiveFrom(frames, head, i + 1);
    }
  }

  /** The slots below `i` do not matter to what is kept from `i` on. */
  lemma {:induction false} LiveSame(a: seq<Option<Record>>, b: seq<Option<Record>>, i: nat, d: nat)
    requires |a| == |b| + d && forall k :: i <= k < |b| ==> a[k + d] == b[k]
    ensures Live(a, i + d) == Live(b, i)
    decreases |b| - i
  {
    if i < |b| {
      LiveSame(a, b, i + 1, d);
      assert a[i + d] == b[i];
    }
  }

  lemma {:induction false} LiveAppend(frames: seq<Option<Record>>, head: nat, r: Record)
    requires head <= |frames|
    ensures Shape(frames, head) ==> Shape(frames + [Some(r)], head)
    ensures Live(frames + [Some(r)], head) == Live(frames, head) + [r]
    decreases |frames| - head
  {
    if head < |frames| {
      LiveAppend(frames, head + 1, r);
    } else {
      assert Live(frames + [Some(r)], head + 1) == [];
    }
  }

  /** Clearing the slot at `head` and advancing drops the first record and no other. */
  lemma {:induction false} LiveClear(frames: seq<Option<Record>>, head: nat)
    requires Shape(frames, head) && head < |frames|
    ensures Shape(frames[head := None], head + 1)
    ensures Live(frames, head) == [frames[head].value] + Live(frames[head := None], head + 1)
  {
    LiveSame(frames[head := None], frames, head + 1, 0);
  }

  /** Moving the live slots to the front keeps the records. */
  lemma {:induction false} LiveCompact(frames: seq<Option<Record>>, head: nat)
    requires Shape(frames, head)
    ensures Shape(frames[head..], 0)
    ensures Live(frames[head..], 0) == Live(frames, head)
  {
    LiveSame(frames, frames[head..], 0, head);
  }

  class ReplayBuffer {
    const headerLen: nat
    const maxBytes: int
    var usedBytes: int
    var lastAcked: nat
    // The live part is frames[head..]; an acknowledgement clears entries and advances head.
    var frames: seq<Option<Record>>
    var head: nat
    // History: frames staged so far, and record moves that compaction made so far.
    ghost var stagedCount: nat
    ghost var moves: nat

    ghost function Abs(): Log
      reads this
    {
      Log(headerLen, maxBytes, lastAcked, Live(frames, head))
    }

    /** The slice never keeps more cleared entries than live ones, and compaction has moved at most as
        many records as were ever staged. */
    ghost predicate Valid()
      reads this
    {
      && Shape(frames, head)
      && Abs().Valid()
      && usedBytes == RecordBytes(Live(frames, head))
      && 2 * head <= |frames|
      && moves + |frames| <= stagedCount
    }

    constructor (headerLen: nat, maxBytes: int)
      ensures Valid() && fresh(this)
      ensures Abs() == Log(headerLen, maxBytes, 0, [])
      ensures stagedCount == moves == 0
    {
      this.headerLen := headerLen;
      this.maxBytes := maxBytes;
      usedBytes, lastAcked, frames, head := 0, 0, [], 0;
      stagedCount, moves := 0, 0;
    }

    method Stage(frame: Frame, seqNo: nat) returns (out: StageOutcome)
      requires Valid()
      modifies this
      ensures Valid()
      ensures out == old(Abs()).Outcome(frame, seqNo)
      ensures Abs() == old(Abs()).Stage(frame, seqNo)
      ensures stagedCount == old(stagedCount) + (if out.Staged? then 1 else 0)
    {
      LiveLength(frames, head);
      var size := headerLen + |frame.payload|;
      if maxBytes > 0 && usedBytes + size > maxBytes {
        return if size <= maxBytes then Held else TooLarge;
      }
      if seqNo <= lastAcked {
        return AlreadyAcked;
      }
      var n := |frames|;
      if n > head && seqNo <= frames[n - 1].value.seqNo {
        return NotIncreasing;
      }
      var record := Record(seqNo, frame, size);
      Keep(record);
      return Staged(record);
    }

    method Keep(record: Record)
      requires Valid()
      requires Abs().Outcome(record.frame, record.seqNo) == Staged(record)
      modifies this
      ensures Valid()
      ensures Abs() == old(Abs()).Stage(record.frame, record.seqNo)
      ensures stagedCount == old(stagedCount) + 1
    {
      StageKeepsValid(Abs(), record.frame, record.seqNo);
      LiveAppend(frames, head, record);
      RecordBytesAppend(Live(frames, head), [record]);
      RecordBytesOne(record);
      frames := frames + [Some(record)];
      usedBytes := usedBytes + record.size;
      stagedCount := stagedCount + 1;
    }

    /** Drops the covered frames from the front, leaving compaction to the caller. */
    method DropCovered(lastSeq: nat) returns (dropped: int, ghost gone: seq<Record>)
      requires Shape(frames, head)
      modifies this`frames, this`head
      ensures Shape(frames, head) && |frames| == |old(frames)|
      ensures head == old(head) + |gone|
      ensures old(Live(frames, head)) == gone + Live(frames, head)
      ensures forall i :: 0 <= i < |gone| ==> gone[i].seqNo <= lastSeq
      ensures Live(frames, head) != [] ==> Live(frames, head)[0].seqNo > lastSeq
      ensures dropped == RecordBytes(gone)
    {
      dropped, gone := 0, [];
      while head < |frames| && frames[head].value.seqNo <= lastSeq
        invariant Shape(frames, head) && |frames| == |old(frames)|
        invariant head == old(head) + |gone|
        invariant old(Live(frames, head)) == gone + Live(frames, head)
        invariant forall i :: 0 <= i < |gone| ==> gone[i].seqNo <= lastSeq
        invariant dropped == RecordBytes(gone)
      {
        var record := frames[head].value;
        LiveClear(frames, head);
        RecordBytesAppend(gone, [record]);
        RecordBytesOne(record);
        dropped := dropped + record.size;
        frames := frames[head := None];
        head := head + 1;
        gone := gone + [record];
      }
    }

    method Ack(lastSeq: nat) returns (dropped: int)
      requires Valid()
      modifies this
      ensures Valid()
      ensures Abs() == old(Abs()).Ack(lastSeq)
      ensures dropped == old(usedBytes) - usedBytes
      ensures stagedCount == old(stagedCount)
    {
      if lastSeq == 0 || lastSeq <= lastAcked {
        return 0;
      }
      ghost var before := Abs();
      ghost var gone: seq<Record>;
      dropped, gone := DropCovered(lastSeq);
      ghost var rest := Live(frames, head);
      assert before.kept[..|gone|] == gone && before.kept[|gone|..] == rest;
      AckDropsCoveredPrefix(before, lastSeq, |gone|);
      lastAcked := lastSeq;
      usedBytes := usedBytes - dropped;
      Compact();
    }

    /** Drops the cleared entries, at the price of a copy only when they outnumber the live ones. */
    method Compact()
      requires Shape(frames, head) && moves + |frames| <= stagedCount
      modifies this`frames, this`head, this`moves
      ensures Shape(frames, head) && moves + |frames| <= stagedCount && 2 * head <= |frames|
      ensures Live(frames, head) == old(Live(frames, head))
    {
      LiveLength(frames, head);
      LiveCompact(frames, head);
      if head == |frames| {
        frames := [];
        head := 0;
      } else if head > |frames| / 2 {
        moves := moves + (|frames| - head);
        frames := frames[head..];
        head := 0;
      }
    }

    method SnapshotFrom(lastSeq: nat) returns (r: seq<Record>)
      requires Valid()
      ensures r == After(Abs().kept, lastSeq)
    {
      var kept := Live(frames, head);
      // The smallest index whose record is above lastSeq, by binary search.
      var i, j := 0, |kept|;
      while i < j
        invariant 0 <= i <= j <= |kept|
        invariant forall k :: 0 <= k < i ==> kept[k].seqNo <= lastSeq
        invariant j < |kept| ==> kept[j].seqNo > lastSeq
      {
        var h := (i + j) / 2;
        if kept[h].seqNo <= lastSeq {
          OrderedBelow(kept, headerLen, lastAcked, h);
          i := h + 1;
        } else {
          j := h;
        }
      }
      AfterSplit(kept, headerLen, lastAcked, lastSeq, i);
      r := kept[i..];
    }
  }
}
