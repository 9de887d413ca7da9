/** The recovery options that the server decides and sends to the client, and the fixed formats of the recovery
    protocol that carry them. Durations are signed 64-bit nanoseconds. */
module RecoveryOptions {

  import opened Bytes
  import opened Framing

  const MILLISECOND := 1_000_000
  const SECOND := 1000 * MILLISECOND

  /** 64-bit addition and multiplication wrap around. */
  function Wrap64(x: int): (r: int)
    ensures -0x8000_0000_0000_0000 <= r < 0x8000_0000_0000_0000
    ensures -0x8000_0000_0000_0000 <= x < 0x8000_0000_0000_0000 ==> r == x
  {
    (x + 0x8000_0000_0000_0000) % 0x1_0000_0000_0000_0000 - 0x8000_0000_0000_0000
  }

  predicate IsInt64(x: int) { -0x8000_0000_0000_0000 <= x < 0x8000_0000_0000_0000 }

  datatype Negotiated = Negotiated(ackEvery: nat, ackDelay: int, heartbeatInterval: int, heartbeatTimeout: int) {

    predicate InRange() {
      ackEvery < U32 && IsInt64(ackDelay) && IsInt64(heartbeatInterval) && IsInt64(heartbeatTimeout)
    }

    /** Missing values get their defaults, and a timeout below two intervals is raised. */
    function Normalized(): (r: Negotiated)
      ensures InRange() ==> r.InRange()
      ensures r.ackEvery > 0 && r.ackDelay > 0 && r.heartbeatInterval > 0
    {
      var every := if ackEvery == 0 then 64 else ackEvery;
      var delay := if ackDelay <= 0 then 20 * MILLISECOND else ackDelay;
      var interval := if heartbeatInterval <= 0 then 30 * SECOND else heartbeatInterval;
      var timeout := if heartbeatTimeout <= 0 then 90 * SECOND else heartbeatTimeout;
      Negotiated(every, delay, interval, if timeout < Wrap64(2 * interval) then Wrap64(2 * interval) else timeout)
    }
  }

  datatype Encoded = Encoded(ackEvery: nat, ackDelayMs: nat, heartbeatIntervalMs: nat, heartbeatTimeoutMs: nat) {
    predicate InRange() {
      ackEvery < U32 && ackDelayMs < U32 && heartbeatIntervalMs < U32 && heartbeatTimeoutMs < U32
    }
  }

  datatype Error = DurationNotPositive | DurationTooLarge | BadAckEvery | BadAckDelay | BadInterval | TimeoutTooSmall
                 | EmptyControl | BadControlLength | UnknownControl | Truncated

  datatype Result<+T> = Ok(value: T) | Err(error: Error)

  /** Whole milliseconds, at least one. */
  function DurationToMillis(d: int): (r: Result<nat>)
    ensures r.Ok? ==> 0 < r.value < U32
  {
    if d <= 0 then Err(DurationNotPositive)
    else
      var ms := if d / MILLISECOND <= 0 then 1 else d / MILLISECOND;
      if ms > U32 - 1 then Err(DurationTooLarge) else Ok(ms)
  }

  function EncodeOptions(o: Negotiated): Result<Encoded> {
    var n := o.Normalized();
    match (DurationToMillis(n.ackDelay), DurationToMillis(n.heartbeatInterval), DurationToMillis(n.heartbeatTimeout))
    case (Ok(a), Ok(i), Ok(t)) => Ok(Encoded(n.ackEvery, a, i, t))
    case (Err(e), _, _) => Err(e)
    case (Ok(_), Err(e), _) => Err(e)
    case (Ok(_), Ok(_), Err(e)) => Err(e)
  }

  function DecodeOptions(e: Encoded): Result<Negotiated> {
    var o := Negotiated(e.ackEvery, e.ackDelayMs * MILLISECOND, e.heartbeatIntervalMs * MILLISECOND, e.heartbeatTimeoutMs * MILLISECOND);
    if o.ackEvery == 0 then Err(BadAckEvery)
    else if o.ackDelay <= 0 then Err(BadAckDelay)
    else if o.heartbeatInterval <= 0 then Err(BadInterval)
    else if o.heartbeatTimeout < 2 * o.heartbeatInterval then Err(TimeoutTooSmall)
    else Ok(o)
  }

  /** A duration cut to whole milliseconds, at least one. */
  function WholeMillis(d: int): int {
    if d < MILLISECOND then MILLISECOND else d / MILLISECOND * MILLISECOND
  }

  function Truncate(o: Negotiated): Negotiated {
    Negotiated(o.ackEvery, WholeMillis(o.ackDelay), WholeMillis(o.heartbeatInterval), WholeMillis(o.heartbeatTimeout))
  }

  /** A timeout of at least two intervals stays so in whole milliseconds, unless a short interval is rounded up. */
  lemma {:induction false} TimeoutInMillis(i: int, t: int)
    requires 0 < i && 2 * i <= t
    ensures WholeMillis(t) >= 2 * WholeMillis(i) <==> i >= MILLISECOND || t >= 2 * MILLISECOND
  {
    if i >= MILLISECOND {
      assert t / MILLISECOND >= 2 * (i / MILLISECOND);
    } else if t >= 2 * MILLISECOND {
      assert t / MILLISECOND >= 2;
    }
  }

  /** A doubled interval wraps around only for intervals that are too long to encode. */
  lemma {:induction false} NormalizedTimeout(o: Negotiated)
    requires o.InRange() && EncodeOptions(o).Ok?
    ensures var n := o.Normalized(); n.heartbeatTimeout >= 2 * n.heartbeatInterval
  {
    var n := o.Normalized();
    assert n.heartbeatInterval / MILLISECOND < U32;
    assert n.heartbeatInterval < U32 * MILLISECOND;
  }

  /** Negotiated options survive the wire: for every option set in range, encoding fails only because a duration is
      too large; otherwise decoding accepts it exactly when the interval is at least a millisecond or the timeout
      at least two, and then yields the options in whole milliseconds, which normalizing leaves unchanged. */
  lemma {:induction false} OptionsSurviveTheWire(o: Negotiated)
    requires o.InRange()
    ensures EncodeOptions(o).Ok? || EncodeOptions(o) == Err(DurationTooLarge)
    ensures EncodeOptions(o).Ok? ==> EncodeOptions(o).value.InRange()
    ensures EncodeOptions(o).Ok? ==>
              var n := o.Normalized();
              DecodeOptions(EncodeOptions(o).value) ==
                if n.heartbeatInterval >= MILLISECOND || n.heartbeatTimeout >= 2 * MILLISECOND
                then Ok(Truncate(n)) else Err(TimeoutTooSmall)
    ensures EncodeOptions(o).Ok? && DecodeOptions(EncodeOptions(o).value).Ok? ==>
              Truncate(o.Normalized()).Normalized() == Truncate(o.Normalized())
  {
    var n := o.Normalized();
    if EncodeOptions(o).Ok? {
      NormalizedTimeout(o);
      TimeoutInMillis(n.heartbeatInterval, n.heartbeatTimeout);
    }
  }

  /** What is configured is kept: positive values stay, the timeout too if it is at least two intervals; and options
      without any value get a batch of 64, 20 ms, 30 s and 90 s. */
  lemma {:induction false} ConfiguredValuesAreKept(o: Negotiated)
    requires o.InRange()
    ensures o.ackEvery > 0 ==> o.Normalized().ackEvery == o.ackEvery
    ensures o.ackDelay > 0 ==> o.Normalized().ackDelay == o.ackDelay
    ensures o.heartbeatInterval > 0 ==> o.Normalized().heartbeatInterval == o.heartbeatInterval
    ensures IsConfigured(o) ==> o.Normalized() == o
    ensures 0 < o.heartbeatTimeout < 2 * o.heartbeatInterval <= 0x7FFF_FFFF_FFFF_FFFF ==>
              o.Normalized().heartbeatTimeout == 2 * o.heartbeatInterval
    ensures o.heartbeatInterval > 0 && o.heartbeatTimeout <= 0 && 2 * o.heartbeatInterval <= 90_000_000_000 ==>
              o.Normalized().heartbeatTimeout == 90_000_000_000
    ensures o.ackEvery == 0 && o.ackDelay <= 0 && o.heartbeatInterval <= 0 && o.heartbeatTimeout <= 0 ==>
              o.Normalized() == Negotiated(64, 20_000_000, 30_000_000_000, 90_000_000_000)
  {
  }

  predicate IsConfigured(o: Negotiated) {
    o.ackEvery > 0 && o.ackDelay > 0 && o.heartbeatInterval > 0 && o.heartbeatTimeout >= 2 * o.heartbeatInterval
  }

  /** So configured options arrive as they are, cut to whole milliseconds. */
  lemma {:induction false} ConfiguredOptionsArrive(o: Negotiated)
    requires o.InRange() && IsConfigured(o) && o.heartbeatInterval >= MILLISECOND
    ensures EncodeOptions(o) == Err(DurationTooLarge) <==>
            o.ackDelay >= U32 * MILLISECOND || o.heartbeatInterval >= U32 * MILLISECOND || o.heartbeatTimeout >= U32 * MILLISECOND
    ensures EncodeOptions(o) != Err(DurationTooLarge) ==>
              EncodeOptions(o).Ok? && DecodeOptions(EncodeOptions(o).value) ==
                Ok(Negotiated(o.ackEvery, if o.ackDelay < MILLISECOND then MILLISECOND else o.ackDelay - o.ackDelay % MILLISECOND,
                              o.heartbeatInterval - o.heartbeatInterval % MILLISECOND,
                              o.heartbeatTimeout - o.heartbeatTimeout % MILLISECOND))
  {
    ConfiguredValuesAreKept(o);
    OptionsSurviveTheWire(o);
  }

  /** The round-up to a millisecond breaks the rule that the decoder checks. */
  lemma {:induction false} ShortHeartbeatIsRejected()
    ensures var o := Negotiated(64, 20 * MILLISECOND, MILLISECOND / 2, MILLISECOND);
            o.Normalized() == o && EncodeOptions(o).Ok? && DecodeOptions(EncodeOptions(o).value) == Err(TimeoutTooSmall)
  {
    OptionsSurviveTheWire(Negotiated(64, 20 * MILLISECOND, MILLISECOND / 2, MILLISECOND));
  }

  // ---------------------------------------------------------------- attach messages

  const TOKEN_LEN := 16
  const ATTACH_REQUEST_LEN := 44
  const ATTACH_RESPONSE_LEN := 60

  datatype AttachRequest = AttachRequest(mode: Byte, connectionId: seq<Byte>, secret: seq<Byte>, lastRecv: nat) {
    predicate InRange() { |connectionId| == TOKEN_LEN && |secret| == TOKEN_LEN && lastRecv < U64 }
  }

  datatype AttachResponse =
    AttachResponse(status: Byte, connectionId: seq<Byte>, secret: seq<Byte>, lastRecv: nat, options: Negotiated) {
    predicate InRange() { |connectionId| == TOKEN_LEN && |secret| == TOKEN_LEN && lastRecv < U64 && options.InRange() }
  }

  function PutRequest(r: AttachRequest): seq<Byte>
    requires r.InRange()
  {
    [r.mode, 0, 0, 0] + r.connectionId + r.secret + PutBE(r.lastRecv, 8)
  }

  function GetRequest(b: seq<Byte>): Result<AttachRequest> {
    if |b| < ATTACH_REQUEST_LEN then Err(Truncated)
    else Ok(AttachRequest(b[0], b[4..20], b[20..36], GetBE(b[36..44])))
  }

  function PutResponse(r: AttachResponse): Result<seq<Byte>>
    requires r.InRange()
  {
    match EncodeOptions(r.options)
    case Err(e) => Err(e)
    case Ok(o) =>
      Ok([r.status, 0, 0, 0] + r.connectionId + r.secret + PutBE(r.lastRecv, 8)
         + PutBE(o.ackEvery, 4) + PutBE(o.ackDelayMs, 4) + PutBE(o.heartbeatIntervalMs, 4) + PutBE(o.heartbeatTimeoutMs, 4))
  }

  function GetResponse(b: seq<Byte>): Result<AttachResponse> {
    if |b| < ATTACH_RESPONSE_LEN then Err(Truncated)
    else
      var e := Encoded(GetBE(b[44..48]), GetBE(b[48..52]), GetBE(b[52..56]), GetBE(b[56..60]));
      match DecodeOptions(e)
      case Err(x) => Err(x)
      case Ok(o) => Ok(AttachResponse(b[0], b[4..20], b[20..36], GetBE(b[36..44]), o))
  }

  /** A request reads back whatever follows it, and no shorter prefix of it reads as a request. */
  lemma {:induction false} RequestReadsBack(r: AttachRequest, rest: seq<Byte>, n: nat)
    requires r.InRange() && n < ATTACH_REQUEST_LEN
    ensures |PutRequest(r)| == ATTACH_REQUEST_LEN && GetRequest(PutRequest(r) + rest) == Ok(r)
    ensures GetRequest(PutRequest(r)[..n]) == Err(Truncated)
  {
    var b := PutRequest(r) + rest;
    Pow256Values();
    GetPutBE(r.lastRecv, 8);
    assert b[4..20] == r.connectionId && b[20..36] == r.secret && b[36..44] == PutBE(r.lastRecv, 8);
  }

  /** A response carries the resume number and the options in whole milliseconds, if its reader accepts those. */
  lemma {:induction false} ResponseReadsBack(r: AttachResponse, rest: seq<Byte>)
    requires r.InRange()
    ensures PutResponse(r).Ok? || PutResponse(r) == Err(DurationTooLarge)
    ensures PutResponse(r).Ok? ==>
              && |PutResponse(r).value| == ATTACH_RESPONSE_LEN
              && var n := r.options.Normalized();
                 GetResponse(PutResponse(r).value + rest) ==
                   if n.heartbeatInterval >= MILLISECOND || n.heartbeatTimeout >= 2 * MILLISECOND
                   then Ok(r.(options := Truncate(n))) else Err(TimeoutTooSmall)
  {
    OptionsSurviveTheWire(r.options);
    if PutResponse(r).Ok? {
      var o := EncodeOptions(r.options).value;
      var head := [r.status, 0, 0, 0] + r.connectionId + r.secret + PutBE(r.lastRecv, 8);
      var tail := OptionBytes(o);
      var b := PutResponse(r).value + rest;
      assert b == head + (tail + rest);
      HeadSlices(r.status, r.connectionId, r.secret, r.lastRecv, tail + rest);
      OptionSlices(o, rest);
      forall k, m | 0 <= k <= m <= 16 ensures b[44 + k..44 + m] == (tail + rest)[k..m] {
      }
    }
  }

  function OptionBytes(o: Encoded): (b: seq<Byte>)
    ensures |b| == 16
  {
    PutBE(o.ackEvery, 4) + PutBE(o.ackDelayMs, 4) + PutBE(o.heartbeatIntervalMs, 4) + PutBE(o.heartbeatTimeoutMs, 4)
  }

  lemma {:induction false} HeadSlices(first: Byte, id: seq<Byte>, secret: seq<Byte>, n: nat, rest: seq<Byte>)
    requires |id| == |secret| == 16 && n < U64
    ensures var b := [first, 0, 0, 0] + id + secret + PutBE(n, 8) + rest;
            b[0] == first && b[4..20] == id && b[20..36] == secret && GetBE(b[36..44]) == n
  {
    var b := [first, 0, 0, 0] + id + secret + PutBE(n, 8) + rest;
    Pow256Values();
    GetPutBE(n, 8);
    assert b[36..44] == PutBE(n, 8);
  }

  lemma {:induction false} OptionSlices(o: Encoded, rest: seq<Byte>)
    requires o.InRange()
    ensures var b := OptionBytes(o) + rest;
            && GetBE(b[0..4]) == o.ackEvery && GetBE(b[4..8]) == o.ackDelayMs
            && GetBE(b[8..12]) == o.heartbeatIntervalMs && GetBE(b[12..16]) == o.heartbeatTimeoutMs
  {
    var b := OptionBytes(o) + rest;
    Pow256Values();
    GetPutBE(o.ackEvery, 4);
    GetPutBE(o.ackDelayMs, 4);
    GetPutBE(o.heartbeatIntervalMs, 4);
    GetPutBE(o.heartbeatTimeoutMs, 4);
    FourParts(PutBE(o.ackEvery, 4), PutBE(o.ackDelayMs, 4), PutBE(o.heartbeatIntervalMs, 4), PutBE(o.heartbeatTimeoutMs, 4), rest);
  }

  lemma {:induction false} FourParts(a: seq<Byte>, b: seq<Byte>, c: seq<Byte>, d: seq<Byte>, rest: seq<Byte>)
    requires |a| == |b| == |c| == |d| == 4
    ensures var s := a + b + c + d + rest; s[0..4] == a && s[4..8] == b && s[8..12] == c && s[12..16] == d
  {
    Middle([], a, b + c + d + rest);
    Middle(a, b, c + d + rest);
    Middle(a + b, c, d + rest);
    Middle(a + b + c, d, rest);
    assert [] + a + (b + c + d + rest) == a + b + c + d + rest;
    assert a + b + (c + d + rest) == a + b + c + d + rest;
    assert a + b + c + (d + rest) == a + b + c + d + rest;
  }

  // ---------------------------------------------------------------- control payloads

  datatype Control = Ack(lastRecv: nat) | Ping | Close

  function PutControl(c: Control): seq<Byte> {
    match c
    case Ack(n) => [1] + PutBE(n, 8)
    case Ping => [2]
    case Close => [3]
  }

  function GetControl(b: seq<Byte>): Result<Control> {
    if b == [] then Err(EmptyControl)
    else if b[0] == 1 then (if |b| != 9 then Err(BadControlLength) else Ok(Ack(GetBE(b[1..9]))))
    else if b[0] == 2 then (if |b| != 1 then Err(BadControlLength) else Ok(Ping))
    else if b[0] == 3 then (if |b| != 1 then Err(BadControlLength) else Ok(Close))
    else Err(UnknownControl)
  }

  /** What the client makes of any options it is sent, and of any control payload. */
  lemma {:induction false} RefusalsAreExact(e: Encoded, b: seq<Byte>)
    ensures DecodeOptions(e) ==
            if e.ackEvery == 0 then Err(BadAckEvery)
            else if e.ackDelayMs == 0 then Err(BadAckDelay)
            else if e.heartbeatIntervalMs == 0 then Err(BadInterval)
            else if e.heartbeatTimeoutMs < 2 * e.heartbeatIntervalMs then Err(TimeoutTooSmall)
            else Ok(Negotiated(e.ackEvery, 1_000_000 * e.ackDelayMs, 1_000_000 * e.heartbeatIntervalMs, 1_000_000 * e.heartbeatTimeoutMs))
    ensures GetControl(b).Ok? <==> b == [2] || b == [3] || (|b| == 9 && b[0] == 1)
    ensures GetControl(b) == Err(EmptyControl) <==> b == []
    ensures GetControl(b) == Err(UnknownControl) <==> b != [] && (b[0] == 0 || b[0] > 3)
  {
  }

  /** The attach messages and the control payloads, byte for byte. */
  lemma {:induction false} AttachRequestBytes(q: AttachRequest, n: nat)
    requires q.InRange()
    ensures PutRequest(q) == [q.mode, 0, 0, 0] + q.connectionId + q.secret + PutBE(q.lastRecv, 8)
    ensures PutControl(Ack(n)) == [1] + PutBE(n, 8) && PutControl(Ping) == [2] && PutControl(Close) == [3]
  {
  }

  lemma {:induction false} AttachResponseBytes(p: AttachResponse, o: Encoded)
    requires p.InRange() && EncodeOptions(p.options) == Ok(o)
    ensures PutResponse(p) ==
            Ok([p.status, 0, 0, 0] + p.connectionId + p.secret + PutBE(p.lastRecv, 8)
               + Four(o.ackEvery) + Four(o.ackDelayMs) + Four(o.heartbeatIntervalMs) + Four(o.heartbeatTimeoutMs))
  {
    FourOf(o.ackEvery);
    FourOf(o.ackDelayMs);
    FourOf(o.heartbeatIntervalMs);
    FourOf(o.heartbeatTimeoutMs);
  }

  /** Control payloads are read back, and nothing but a control payload is accepted. */
  lemma {:induction false} ControlIsExact(c: Control, b: seq<Byte>)
    requires c.Ack? ==> c.lastRecv < U64
    ensures GetControl(PutControl(c)) == Ok(c)
    ensures GetControl(b).Ok? ==> PutControl(GetControl(b).value) == b
  {
    Pow256Values();
    if c.Ack? {
      GetPutBE(c.lastRecv, 8);
      assert PutControl(c)[1..9] == PutBE(c.lastRecv, 8);
    }
    if GetControl(b).Ok? && b[0] == 1 {
      PutGetBE(b[1..9]);
      assert b == [1] + b[1..9];
    }
  }
}
