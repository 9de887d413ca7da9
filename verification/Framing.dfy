/** Frames on a byte stream, for protocol versions 2 and 3. */
module Framing {

  import opened Prelude
  import opened Bytes

  const V2: Byte := 2
  const V3: Byte := 3
  const FRAME_HEADER_LEN := 10
  const FRAME_HEADER_LEN_V3 := 18
  const U32: nat := 0x1_0000_0000
  const U64: nat := 0x1_0000_0000_0000_0000

  lemma {:induction false} Pow256Values()
    ensures Pow256(4) == U32 && Pow256(8) == U64 && Pow256(2) == 0x1_0000 && Pow256(1) == 0x100
  {
    assert Pow256(1) == 256 && Pow256(2) == 0x1_0000 && Pow256(3) == 0x100_0000;
    assert Pow256(5) == 256 * U32 && Pow256(6) == 0x1_0000 * U32 && Pow256(7) == 0x100_0000 * U32;
  }

  datatype Frame = Frame(stream: nat, seqNo: nat, flags: Byte, payload: seq<Byte>)

  /** The negotiated settings that framing uses. */
  datatype Config = Config(version: Byte, maxFrame: nat) {
    predicate Valid() { (version == V2 || version == V3) && maxFrame < U32 }

    function HeaderLen(): nat { if version == V3 then FRAME_HEADER_LEN_V3 else FRAME_HEADER_LEN }
  }

  /** The field widths of the header, and the flags a sender sets. */
  predicate Sendable(f: Frame) {
    f.stream < U32 && f.seqNo < U64 && f.flags <= 1
  }

  /** `Short` stands for every way a transport ends before a whole frame; the others close the connection. */
  datatype ReadError = Short | BadVersion | BadFlags | TooLarge

  datatype ReadResult = Read(frame: Frame, rest: seq<Byte>) | Failed(error: ReadError)

  function Header(c: Config, f: Frame): (h: seq<Byte>)
    requires c.Valid()
    ensures |h| == c.HeaderLen()
  {
    [c.version, f.flags] + PutBE(f.stream, 4) + PutBE(|f.payload|, 4) + (if c.version == V3 then PutBE(f.seqNo, 8) else [])
  }

  /** `parseHeader` and `readFrameFrom` on the bytes that the transport still yields. */
  function ReadFrame(c: Config, b: seq<Byte>): ReadResult
    requires c.Valid()
  {
    var n := c.HeaderLen();
    if |b| < n then Failed(Short)
    else if b[0] != c.version then Failed(BadVersion)
    else if b[1] > 1 then Failed(BadFlags)
    else
      var len := GetBE(b[6..10]);
      var seqNo := if c.version == V3 then GetBE(b[10..18]) else 0;
      if len > c.maxFrame then Failed(TooLarge)
      else if |b| - n < len then Failed(Short)
      else Read(Frame(GetBE(b[2..6]), seqNo, b[1], b[n..n + len]), b[n + len..])
  }

  /** What a reader gets from a byte stream: frames until the first error. */
  function ReadAll(c: Config, b: seq<Byte>): (seq<Frame>, ReadError)
    requires c.Valid()
    decreases |b|
  {
    match ReadFrame(c, b)
    case Failed(e) => ([], e)
    case Read(f, rest) =>
      var (fs, e) := ReadAll(c, rest);
      ([f] + fs, e)
  }

  /** A frame as the peer sees it: version 2 carries no sequence number. */
  function Received(c: Config, f: Frame): Frame {
    if c.version == V3 then f else f.(seqNo := 0)
  }

  predicate AllSendable(c: Config, fs: seq<Frame>) {
    forall i :: 0 <= i < |fs| ==> Sendable(fs[i]) && |fs[i].payload| <= c.maxFrame
  }

  function EncodeAll(c: Config, fs: seq<Frame>): seq<Byte>
    requires c.Valid()
  {
    if fs == [] then [] else Header(c, fs[0]) + fs[0].payload + EncodeAll(c, fs[1..])
  }

  /** The number of whole frames in the first `n` bytes. */
  function WholeFrames(c: Config, fs: seq<Frame>, n: nat): (k: nat)
    requires c.Valid()
    ensures k <= |fs|
  {
    if fs == [] || n < c.HeaderLen() + |fs[0].payload| then 0
    else 1 + WholeFrames(c, fs[1..], n - c.HeaderLen() - |fs[0].payload|)
  }

  // ---------------------------------------------------------------- the bytes themselves

  /** The header, byte for byte. */
  lemma {:induction false} FrameHeaderBytes(c: Config, f: Frame)
    requires c.Valid()
    ensures Header(c, f) ==
            [c.version, f.flags] + Four(f.stream) + Four(|f.payload|) + (if c.version == V3 then PutBE(f.seqNo, 8) else [])
  {
    FourOf(f.stream);
    FourOf(|f.payload|);
  }

  /** What the reader does with any input: too little is short; then another version, unknown flags and a length above
      the limit are refused, in this order; and a frame whose payload is not all there is short. */
  lemma {:induction false} ReadFrameIsExact(c: Config, b: seq<Byte>)
    requires c.Valid()
    ensures |b| < (if c.version == V3 then 18 else 10) ==> ReadFrame(c, b) == Failed(Short)
    ensures |b| >= (if c.version == V3 then 18 else 10) ==>
              var len := 0x100_0000 * (b[6] as int) + 0x1_0000 * (b[7] as int) + 0x100 * (b[8] as int) + b[9] as int;
              && (ReadFrame(c, b) == Failed(BadVersion) <==> b[0] != c.version)
              && (ReadFrame(c, b) == Failed(BadFlags) <==> b[0] == c.version && b[1] >= 2)
              && (ReadFrame(c, b) == Failed(TooLarge) <==> b[0] == c.version && b[1] < 2 && len > c.maxFrame)
              && (ReadFrame(c, b) == Failed(Short) <==>
                    b[0] == c.version && b[1] < 2 && len <= c.maxFrame && |b| < c.HeaderLen() + len)
  {
    if |b| >= 10 {
      FourBytes(b[6], b[7], b[8], b[9]);
      assert b[6..10] == [b[6], b[7], b[8], b[9]];
    }
  }

  // ---------------------------------------------------------------- reading back

  lemma {:induction false} Middle(a: seq<Byte>, b: seq<Byte>, c: seq<Byte>)
    ensures (a + b + c)[|a|..|a| + |b|] == b
  {}

  lemma {:induction false} HeaderFields(c: Config, f: Frame)
    requires c.Valid() && Sendable(f) && |f.payload| <= c.maxFrame
    ensures var h := Header(c, f);
            && h[0] == c.version && h[1] == f.flags
            && GetBE(h[2..6]) == f.stream && GetBE(h[6..10]) == |f.payload|
            && (c.version == V3 ==> GetBE(h[10..18]) == f.seqNo)
  {
    var h := Header(c, f);
    var a, b, d := [c.version, f.flags], PutBE(f.stream, 4), PutBE(|f.payload|, 4);
    var e := if c.version == V3 then PutBE(f.seqNo, 8) else [];
    Pow256Values();
    GetPutBE(f.stream, 4);
    GetPutBE(|f.payload|, 4);
    GetPutBE(f.seqNo, 8);
    assert h == a + b + (d + e);
    Middle(a, b, d + e);
    assert h == (a + b) + d + e;
    Middle(a + b, d, e);
    assert h == (a + b + d) + e + [];
    Middle(a + b + d, e, []);
  }

  /** A whole frame in front of anything reads back. */
  lemma {:induction false} FrameReadsBack(c: Config, f: Frame, rest: seq<Byte>)
    requires c.Valid() && Sendable(f) && |f.payload| <= c.maxFrame
    ensures ReadFrame(c, Header(c, f) + f.payload + rest) == Read(Received(c, f), rest)
  {
    var h := Header(c, f);
    var b := h + f.payload + rest;
    var n := c.HeaderLen();
    HeaderFields(c, f);
    assert b[2..6] == h[2..6] && b[6..10] == h[6..10];
    if c.version == V3 {
      assert b[10..18] == h[10..18];
    }
    assert b[n..n + |f.payload|] == f.payload;
    assert b[n + |f.payload|..] == rest;
  }

  /** A cut inside a frame is always noticed, and never taken for a malformed frame. */
  lemma {:induction false} CutFrameIsShort(c: Config, f: Frame, b: seq<Byte>)
    requires c.Valid() && Sendable(f) && |f.payload| <= c.maxFrame
    requires |b| < c.HeaderLen() + |f.payload| && b <= Header(c, f) + f.payload
    ensures ReadFrame(c, b) == Failed(Short)
  {
    var h := Header(c, f);
    HeaderFields(c, f);
    if |b| >= c.HeaderLen() {
      assert b[..c.HeaderLen()] == h;
      assert b[6..10] == h[6..10];
    }
  }

  /** The first `k` frames as the peer sees them. */
  function ReceivedAll(c: Config, fs: seq<Frame>, k: nat): seq<Frame>
    requires k <= |fs|
  {
    if k == 0 then [] else [Received(c, fs[0])] + ReceivedAll(c, fs[1..], k - 1)
  }

  lemma {:induction false} ReadAllFirst(c: Config, f: Frame, rest: seq<Byte>)
    requires c.Valid() && Sendable(f) && |f.payload| <= c.maxFrame
    ensures ReadAll(c, Header(c, f) + f.payload + rest) == ([Received(c, f)] + ReadAll(c, rest).0, ReadAll(c, rest).1)
  {
    FrameReadsBack(c, f, rest);
  }

  lemma {:induction false} EncodePrefix(c: Config, fs: seq<Frame>, n: nat)
    requires c.Valid() && fs != [] && n <= |EncodeAll(c, fs)|
    ensures var m := c.HeaderLen() + |fs[0].payload|;
            && (n < m ==> EncodeAll(c, fs)[..n] <= Header(c, fs[0]) + fs[0].payload)
            && (n >= m ==> n - m <= |EncodeAll(c, fs[1..])|)
            && (n >= m ==> EncodeAll(c, fs)[..n] == Header(c, fs[0]) + fs[0].payload + EncodeAll(c, fs[1..])[..n - m])
  {
  }

  lemma {:induction false} NothingToRead(c: Config, b: seq<Byte>)
    requires c.Valid() && |b| == 0
    ensures ReadAll(c, b) == ([], Short)
  {
  }

  lemma {:induction false} TruncatedInFirst(c: Config, fs: seq<Frame>, n: nat)
    requires c.Valid() && AllSendable(c, fs) && fs != [] && n <= |EncodeAll(c, fs)| && n < c.HeaderLen() + |fs[0].payload|
    ensures ReadAll(c, EncodeAll(c, fs)[..n]) == ([], Short)
  {
    EncodePrefix(c, fs, n);
    CutFrameIsShort(c, fs[0], EncodeAll(c, fs)[..n]);
  }

  lemma {:induction false} TruncatedLater(c: Config, fs: seq<Frame>, n: nat, k: nat)
    requires c.Valid() && AllSendable(c, fs) && fs != [] && n <= |EncodeAll(c, fs)|
    requires var m := c.HeaderLen() + |fs[0].payload|;
             && m <= n && n - m <= |EncodeAll(c, fs[1..])| && k < |fs|
             && ReadAll(c, EncodeAll(c, fs[1..])[..n - m]) == (ReceivedAll(c, fs[1..], k), Short)
    ensures ReadAll(c, EncodeAll(c, fs)[..n]) == (ReceivedAll(c, fs, 1 + k), Short)
  {
    EncodePrefix(c, fs, n);
    ReadAllFirst(c, fs[0], EncodeAll(c, fs[1..])[..n - c.HeaderLen() - |fs[0].payload|]);
  }

  /** Framing survives truncation: the first `n` bytes of the frames written read back as exactly the whole frames
      among them, and then the reader stops because the transport ended. */
  lemma {:induction false} TruncationIsSafe(c: Config, fs: seq<Frame>, n: nat)
    requires c.Valid() && AllSendable(c, fs) && n <= |EncodeAll(c, fs)|
    ensures ReadAll(c, EncodeAll(c, fs)[..n]) == (ReceivedAll(c, fs, WholeFrames(c, fs, n)), Short)
    decreases |fs|
  {
    if |fs| == 0 {
      NothingToRead(c, EncodeAll(c, fs)[..n]);
    } else if n < c.HeaderLen() + |fs[0].payload| {
      TruncatedInFirst(c, fs, n);
    } else {
      var m := c.HeaderLen() + |fs[0].payload|;
      EncodePrefix(c, fs, n);
      TruncationIsSafe(c, fs[1..], n - m);
      TruncatedLater(c, fs, n, WholeFrames(c, fs[1..], n - m));
    }
  }

  /** All the bytes read back as all the frames. */
  lemma {:induction false} AllFramesReadBack(c: Config, fs: seq<Frame>)
    requires c.Valid() && AllSendable(c, fs)
    ensures WholeFrames(c, fs, |EncodeAll(c, fs)|) == |fs|
    ensures ReadAll(c, EncodeAll(c, fs)) == (ReceivedAll(c, fs, |fs|), Short)
  {
    var b := EncodeAll(c, fs);
    WholeFramesAll(c, fs);
    TruncationIsSafe(c, fs, |b|);
    assert b[..|b|] == b;
  }

  lemma {:induction false} WholeFramesAll(c: Config, fs: seq<Frame>)
    requires c.Valid()
    ensures WholeFrames(c, fs, |EncodeAll(c, fs)|) == |fs|
  {
    if fs != [] {
      WholeFramesAll(c, fs[1..]);
    }
  }

  // ---------------------------------------------------------------- writing with short writes

  /** A transport that takes as many bytes of each write as its schedule says, and fails when the schedule ends. */
  class Sink {
    var written: seq<Byte>
    var schedule: seq<nat>

    constructor (schedule: seq<nat>)
      ensures written == [] && this.schedule == schedule
    {
      written := [];
      this.schedule := schedule;
    }

    method Write(buf: seq<Byte>) returns (n: nat, ok: bool)
      modifies this
      ensures n <= |buf| && written == old(written) + buf[..n]
      ensures old(schedule) == [] ==> !ok && schedule == []
      ensures old(schedule) != [] ==>
              ok && n == (if old(schedule)[0] < |buf| then old(schedule)[0] else |buf|) && schedule == old(schedule)[1..]
    {
      if schedule == [] {
        return 0, false;
      }
      n := if schedule[0] < |buf| then schedule[0] else |buf|;
      schedule := schedule[1..];
      written := written + buf[..n];
      ok := true;
    }

    /** Writes all of `buf`, or fails having written a prefix of it. It never fails while every write takes
        something. */
    method WriteFull(buf: seq<Byte>) returns (ok: bool)
      modifies this
      ensures old(written) <= written <= old(written) + buf
      ensures ok ==> written == old(written) + buf
      ensures Enough(old(schedule), |buf|) ==> ok && Enough(schedule, |old(schedule)| - |buf|)
    {
      var rest := buf;
      while rest != []
        invariant written + rest == old(written) + buf
        invariant old(written) <= written
        invariant Enough(old(schedule), |buf|) ==> Enough(schedule, |old(schedule)| - |buf| + |rest|)
        decreases |schedule| + |rest|
      {
        ghost var was := written;
        var n, wrote := Write(rest);
        assert was + rest == was + rest[..n] + rest[n..];
        rest := rest[n..];
        if !wrote || n == 0 {
          return false;
        }
      }
      ok := true;
      assert written == written + rest;
    }

    /** Writes a frame; a frame above the limit is refused before anything is written. */
    method WriteFrame(c: Config, f: Frame) returns (ok: bool)
      requires c.Valid()
      modifies this
      ensures |f.payload| > c.maxFrame ==> !ok && written == old(written)
      ensures |f.payload| <= c.maxFrame ==> old(written) <= written <= old(written) + (Header(c, f) + f.payload)
      ensures ok ==> written == old(written) + (Header(c, f) + f.payload)
      ensures var n := c.HeaderLen() + |f.payload|;
              |f.payload| <= c.maxFrame && Enough(old(schedule), n) ==> ok && Enough(schedule, |old(schedule)| - n)
    {
      if |f.payload| > c.maxFrame {
        return false;
      }
      ghost var w0 := written;
      ok := WriteFull(Header(c, f));
      assert w0 + (Header(c, f) + f.payload) == w0 + Header(c, f) + f.payload;
      if !ok {
        return;
      }
      ok := WriteFull(f.payload);
    }
  }

  /** The schedule lets through at least `n` bytes however they are split. */
  predicate Enough(schedule: seq<nat>, n: int) {
    |schedule| >= n && forall i :: 0 <= i < |schedule| ==> schedule[i] > 0
  }

  /** Whatever the schedule of short writes, what reaches the transport is a prefix of the frames' bytes, so a
      reader gets a prefix of the frames and never a wrong one; short writes alone lose nothing. */
  method WriteFrames(c: Config, fs: seq<Frame>, schedule: seq<nat>) returns (written: seq<Byte>, k: nat)
    requires c.Valid() && AllSendable(c, fs)
    ensures written <= EncodeAll(c, fs) && k <= |fs|
    ensures exists m :: k <= m <= |fs| && ReadAll(c, written) == (ReceivedAll(c, fs, m), Short)
    ensures Enough(schedule, |EncodeAll(c, fs)|) ==> k == |fs|
  {
    var sink := new Sink(schedule);
    k := 0;
    var ok := true;
    ghost var total := |EncodeAll(c, fs)|;
    while k < |fs| && ok
      invariant k <= |fs|
      invariant EncodeAll(c, fs[..k]) <= sink.written <= EncodeAll(c, fs)
      invariant ok ==> sink.written == EncodeAll(c, fs[..k])
      invariant Enough(schedule, total) ==> ok && Enough(sink.schedule, total - |EncodeAll(c, fs[..k])|)
      decreases |fs| - k, ok
    {
      EncodeSplit(c, fs, k);
      ok := sink.WriteFrame(c, fs[k]);
      if ok {
        k := k + 1;
      }
    }
    written := sink.written;
    TruncationIsSafe(c, fs, |written|);
    assert EncodeAll(c, fs)[..|written|] == written;
    WholeAtLeast(c, fs, k, |written|);
  }

  lemma {:induction false} EncodeConcat(c: Config, a: seq<Frame>, b: seq<Frame>)
    requires c.Valid()
    ensures EncodeAll(c, a + b) == EncodeAll(c, a) + EncodeAll(c, b)
  {
    if a == [] {
      assert a + b == b;
    } else {
      assert (a + b)[0] == a[0] && (a + b)[1..] == a[1..] + b;
      EncodeConcat(c, a[1..], b);
      Regroup(Header(c, a[0]) + a[0].payload, EncodeAll(c, a[1..]), EncodeAll(c, b));
    }
  }

  lemma {:induction false} EncodeOne(c: Config, f: Frame)
    requires c.Valid()
    ensures EncodeAll(c, [f]) == Header(c, f) + f.payload
  {
    assert [f][1..] == [];
    assert EncodeAll(c, [f][1..]) == [];
  }

  lemma {:induction false} EncodeSplit(c: Config, fs: seq<Frame>, k: nat)
    requires c.Valid() && k < |fs|
    ensures EncodeAll(c, fs[..k + 1]) == EncodeAll(c, fs[..k]) + (Header(c, fs[k]) + fs[k].payload)
    ensures EncodeAll(c, fs) == EncodeAll(c, fs[..k + 1]) + EncodeAll(c, fs[k + 1..])
  {
    var a, b := fs[..k + 1], fs[k + 1..];
    assert fs == a + b;
    assert a == fs[..k] + [fs[k]];
    EncodeOne(c, fs[k]);
    EncodeConcat(c, fs[..k], [fs[k]]);
    EncodeConcat(c, a, b);
  }

  lemma {:induction false} WholeAtLeast(c: Config, fs: seq<Frame>, k: nat, n: nat)
    requires c.Valid() && k <= |fs| && |EncodeAll(c, fs[..k])| <= n
    ensures WholeFrames(c, fs, n) >= k
    decreases k
  {
    if k > 0 {
      assert fs[..k][1..] == fs[1..][..k - 1];
      WholeAtLeast(c, fs[1..], k - 1, n - c.HeaderLen() - |fs[0].payload|);
    }
  }
}
