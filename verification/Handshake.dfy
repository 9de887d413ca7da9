/** The handshake that opens a transport: version, codec and frame limit. */
module Handshake {

  import opened Prelude
  import opened Bytes
  import opened Framing

  const MAGIC: seq<Byte> := ['A' as int, 'M' as int]
  const HANDSHAKE_LEN := 12
  const MAX_CODECS := 16

  datatype Agreement = Agreement(version: Byte, codec: Byte, maxFrame: nat)

  datatype Error =
    | InvalidCodecs | UnknownVersion(version: Byte) | NoCommonCodec | TooManyCodecs | BadMagic | Truncated

  datatype Result<+T> = Ok(value: T) | Err(error: Error)

  /** The server's settings; `known` are the codecs registered in its process. */
  datatype Server = Server(codecs: seq<Byte>, maxFrame: nat, recovery: bool, known: set<Byte>) {
    predicate Valid() { maxFrame < U32 }
  }

  datatype Client = Client(codecs: seq<Byte>, maxFrame: nat, known: set<Byte>) {
    predicate Valid() { maxFrame < U32 }
  }

  predicate ValidCodecs(codecs: seq<Byte>, known: set<Byte>) {
    0 < |codecs| <= MAX_CODECS && forall i :: 0 <= i < |codecs| ==> codecs[i] != 0 && codecs[i] in known
  }

  function MinNat(a: nat, b: nat): nat { if a < b then a else b }

  function NegotiateMaxFrame(client: nat, server: nat): (r: nat)
    ensures r == MinNat(client, server)
  {
    if client == 0 then 0 else if client < server then client else server
  }

  // ---------------------------------------------------------------- choosing the codec

  /** The client's first codec that the server supports. */
  function FirstCommon(client: seq<Byte>, server: seq<Byte>): (r: Option<Byte>)
    ensures r.Some? ==> r.value in client && r.value in server
  {
    if client == [] then None
    else if client[0] in server then Some(client[0])
    else FirstCommon(client[1..], server)
  }

  /** What "first" means: `n` codecs that the server lacks come before it, or all of them are missing. */
  lemma {:induction false} FirstCommonAt(client: seq<Byte>, server: seq<Byte>, n: nat)
    requires n <= |client| && forall j :: 0 <= j < n ==> client[j] !in server
    requires n < |client| ==> client[n] in server
    ensures FirstCommon(client, server) == if n < |client| then Some(client[n]) else None
  {
    if n > 0 {
      FirstCommonAt(client[1..], server, n - 1);
    }
  }

  /** The two nested loops over both lists. */
  method SelectCodec(client: seq<Byte>, supported: seq<Byte>) returns (r: Option<Byte>)
    ensures r == FirstCommon(client, supported)
    ensures r.None? <==> forall k :: 0 <= k < |client| ==> client[k] !in supported
    ensures r.Some? ==> exists i :: 0 <= i < |client| && client[i] == r.value && r.value in supported
                                 && forall j :: 0 <= j < i ==> client[j] !in supported
  {
    for i := 0 to |client|
      invariant forall k :: 0 <= k < i ==> client[k] !in supported
    {
      for j := 0 to |supported|
        invariant forall k :: 0 <= k < j ==> client[i] != supported[k]
      {
        if client[i] == supported[j] {
          FirstCommonAt(client, supported, i);
          return Some(supported[j]);
        }
      }
    }
    FirstCommonAt(client, supported, |client|);
    return None;
  }

  // ---------------------------------------------------------------- the two sides

  /** Header and codec list in one write. */
  function Request(c: Client, version: Byte): (b: seq<Byte>)
    requires c.Valid() && |c.codecs| <= MAX_CODECS
    ensures |b| == HANDSHAKE_LEN + |c.codecs|
  {
    MAGIC + [version, |c.codecs|] + [0, 0, 0, 0] + PutBE(c.maxFrame, 4) + c.codecs
  }

  function Reply(accept: Byte, version: Byte, codec: Byte, maxFrame: nat): (b: seq<Byte>)
    ensures |b| == HANDSHAKE_LEN
  {
    MAGIC + [accept, version, codec, 0, 0, 0] + PutBE(maxFrame, 4)
  }

  /** What the server read, what it answered, and what it holds. */
  datatype Served = Served(consumed: nat, reply: seq<Byte>, result: Result<Agreement>)

  function Serve(s: Server, b: seq<Byte>): Served {
    if !ValidCodecs(s.codecs, s.known) then Served(0, [], Err(InvalidCodecs))
    else if |b| < HANDSHAKE_LEN then Served(|b|, [], Err(Truncated))
    else if b[0..2] != MAGIC then Served(HANDSHAKE_LEN, [], Err(BadMagic))
    else
      var version, count := b[2], b[3];
      var end := HANDSHAKE_LEN + count;
      if (version != V2 && version != V3) || (version == V3 && !s.recovery) then
        if |b| < end then Served(|b|, [], Err(Truncated))
        else Served(end, Reply(0, if s.recovery then V3 else V2, 0, 0), Err(UnknownVersion(version)))
      else if count == 0 then Served(HANDSHAKE_LEN, Reply(0, version, 0, 0), Err(NoCommonCodec))
      else if |b| < end then Served(|b|, [], Err(Truncated))
      else if count > MAX_CODECS then Served(end, Reply(0, version, 0, 0), Err(TooManyCodecs))
      else
        match FirstCommon(b[HANDSHAKE_LEN..end], s.codecs)
        case None => Served(end, Reply(0, version, 0, 0), Err(NoCommonCodec))
        case Some(codec) =>
          var limit := NegotiateMaxFrame(GetBE(b[8..12]), s.maxFrame);
          Served(end, Reply(1, version, codec, limit), Ok(Agreement(version, codec, limit)))
  }

  /** The client's verdict on the reply. */
  function Finish(c: Client, version: Byte, reply: seq<Byte>): Result<Agreement> {
    if |reply| < HANDSHAKE_LEN then Err(Truncated)
    else if reply[0..2] != MAGIC then Err(BadMagic)
    else if reply[3] != version then Err(UnknownVersion(reply[3]))
    else if reply[2] == 0 then Err(NoCommonCodec)
    else if reply[4] !in c.codecs then Err(NoCommonCodec)
    else if reply[4] !in c.known then Err(InvalidCodecs)
    else Ok(Agreement(reply[3], reply[4], GetBE(reply[8..12])))
  }

  /** One handshake over a transport that loses nothing. */
  function Shake(c: Client, s: Server, version: Byte): (Result<Agreement>, Served)
    requires c.Valid() && s.Valid()
  {
    if !ValidCodecs(c.codecs, c.known) then (Err(InvalidCodecs), Served(0, [], Err(Truncated)))
    else if version != V2 && version != V3 then (Err(UnknownVersion(version)), Served(0, [], Err(Truncated)))
    else
      var served := Serve(s, Request(c, version));
      (Finish(c, version, served.reply), served)
  }

  lemma {:induction false} RequestFields(c: Client, version: Byte)
    requires c.Valid() && 0 < |c.codecs| <= MAX_CODECS
    ensures var b := Request(c, version);
            && b[0..2] == MAGIC && b[2] == version && b[3] == |c.codecs|
            && GetBE(b[8..12]) == c.maxFrame && b[HANDSHAKE_LEN..HANDSHAKE_LEN + |c.codecs|] == c.codecs
  {
    var b := Request(c, version);
    Pow256Values();
    GetPutBE(c.maxFrame, 4);
    assert b[8..12] == PutBE(c.maxFrame, 4);
  }

  lemma {:induction false} ReplyFields(accept: Byte, version: Byte, codec: Byte, maxFrame: nat)
    requires maxFrame < U32
    ensures var b := Reply(accept, version, codec, maxFrame);
            b[0..2] == MAGIC && b[2] == accept && b[3] == version && b[4] == codec && GetBE(b[8..12]) == maxFrame
  {
    var b := Reply(accept, version, codec, maxFrame);
    Pow256Values();
    GetPutBE(maxFrame, 4);
    assert b[8..12] == PutBE(maxFrame, 4);
  }

  /** What a handshake comes to, for every client, server and version: both sides succeed or both fail; on success
      they hold the same version, the client's first codec that the server supports, and the smaller limit; and the
      server has read every byte of the request. */
  lemma {:induction false} HandshakeAgrees(c: Client, s: Server, version: Byte)
    requires c.Valid() && s.Valid() && ValidCodecs(c.codecs, c.known) && ValidCodecs(s.codecs, s.known)
    requires version == V2 || version == V3
    ensures var (atClient, served) := Shake(c, s, version);
            var common := FirstCommon(c.codecs, s.codecs);
            && served.consumed == |Request(c, version)| && |served.reply| == HANDSHAKE_LEN
            && (atClient.Ok? <==> served.result.Ok?)
            && (atClient.Ok? <==> common.Some? && (version == V3 ==> s.recovery))
            && (atClient.Ok? ==>
                  && atClient == served.result
                  && atClient.value == Agreement(version, common.value, MinNat(c.maxFrame, s.maxFrame)))
            && (version == V3 && !s.recovery ==> atClient == Err(UnknownVersion(V2)))
            && (common.None? && (version == V3 ==> s.recovery) ==> atClient == Err(NoCommonCodec))
  {
    ServedExactly(c, s, version);
    FinishedExactly(c, version, FirstCommon(c.codecs, s.codecs), MinNat(c.maxFrame, s.maxFrame));
  }

  /** What the server makes of a client's request. */
  lemma {:induction false} ServedExactly(c: Client, s: Server, version: Byte)
    requires c.Valid() && ValidCodecs(c.codecs, c.known) && ValidCodecs(s.codecs, s.known) && (version == V2 || version == V3)
    ensures var common, n := FirstCommon(c.codecs, s.codecs), |Request(c, version)|;
            Serve(s, Request(c, version)) ==
              if version == V3 && !s.recovery then Served(n, Reply(0, V2, 0, 0), Err(UnknownVersion(version)))
              else if common.None? then Served(n, Reply(0, version, 0, 0), Err(NoCommonCodec))
              else
                var limit := MinNat(c.maxFrame, s.maxFrame);
                Served(n, Reply(1, version, common.value, limit), Ok(Agreement(version, common.value, limit)))
  {
    RequestFields(c, version);
  }

  /** What the client makes of those replies. */
  lemma {:induction false} FinishedExactly(c: Client, version: Byte, common: Option<Byte>, limit: nat)
    requires ValidCodecs(c.codecs, c.known) && limit < U32 && (common.Some? ==> common.value in c.codecs)
    ensures version != V2 ==> Finish(c, version, Reply(0, V2, 0, 0)) == Err(UnknownVersion(V2))
    ensures Finish(c, version, Reply(0, version, 0, 0)) == Err(NoCommonCodec)
    ensures common.Some? ==> Finish(c, version, Reply(1, version, common.value, limit)) == Ok(Agreement(version, common.value, limit))
  {
    ReplyFields(0, V2, 0, 0);
    ReplyFields(0, version, 0, 0);
    if common.Some? {
      ReplyFields(1, version, common.value, limit);
    }
  }

  /** Request and reply, byte for byte. */
  lemma {:induction false} HandshakeBytes(c: Client, version: Byte, accept: Byte, codec: Byte, limit: nat)
    requires c.Valid() && |c.codecs| <= MAX_CODECS
    ensures Request(c, version) == [0x41, 0x4D, version, |c.codecs|, 0, 0, 0, 0] + Four(c.maxFrame) + c.codecs
    ensures Reply(accept, version, codec, limit) == [0x41, 0x4D, accept, version, codec, 0, 0, 0] + Four(limit)
  {
    FourOf(c.maxFrame);
    FourOf(limit);
  }

  /** One to sixteen codecs, none of them zero and all of them registered. */
  predicate Acceptable(codecs: seq<Byte>, known: set<Byte>) {
    1 <= |codecs| && |codecs| < 17 && 0 !in codecs && forall x :: x in codecs ==> x in known
  }

  lemma {:induction false} ListsAreCheckedExactly(codecs: seq<Byte>, known: set<Byte>)
    ensures ValidCodecs(codecs, known) <==> Acceptable(codecs, known)
  {
    if ValidCodecs(codecs, known) {
      assert forall x :: x in codecs ==> x in known;
    } else if 0 < |codecs| <= MAX_CODECS {
      var i :| 0 <= i < |codecs| && (codecs[i] == 0 || codecs[i] !in known);
      assert codecs[i] in codecs;
    }
  }

  /** For every client and server, whatever their lists: the client's list is refused before a byte is sent, the
      server's before one is read, and else the handshake succeeds exactly with a common codec and a version that the
      server accepts. */
  lemma {:induction false} HandshakeOutcome(c: Client, s: Server, version: Byte)
    requires c.Valid() && s.Valid() && (version == V2 || version == V3)
    ensures !Acceptable(c.codecs, c.known) ==> Shake(c, s, version).0 == Err(InvalidCodecs) && Shake(c, s, version).1.consumed == 0
    ensures Acceptable(c.codecs, c.known) && !Acceptable(s.codecs, s.known) ==>
              Shake(c, s, version).0.Err? && Shake(c, s, version).1 == Served(0, [], Err(InvalidCodecs))
    ensures Shake(c, s, version).0.Ok? <==>
              && Acceptable(c.codecs, c.known) && Acceptable(s.codecs, s.known) && (version == V3 ==> s.recovery)
              && exists x :: x in c.codecs && x in s.codecs
  {
    ListsAreCheckedExactly(c.codecs, c.known);
    ListsAreCheckedExactly(s.codecs, s.known);
    if Acceptable(c.codecs, c.known) && Acceptable(s.codecs, s.known) {
      HandshakeAgrees(c, s, version);
      CommonExists(c.codecs, s.codecs);
    }
  }

  lemma {:induction false} CommonExists(client: seq<Byte>, server: seq<Byte>)
    ensures FirstCommon(client, server).Some? <==> exists x :: x in client && x in server
  {
    if client != [] {
      CommonExists(client[1..], server);
      assert client == [client[0]] + client[1..];
    }
  }

  /** What a server with a good list makes of any request: too little, another magic, a version that it does not accept,
      no codecs, and too many. Whatever it answers, it answers behind the whole request. */
  lemma {:induction false} ServerRefuses(s: Server, b: seq<Byte>)
    requires ValidCodecs(s.codecs, s.known)
    ensures |b| < 12 ==> Serve(s, b).result == Err(Truncated)
    ensures |b| >= 12 && (b[0] != 0x41 || b[1] != 0x4D) ==> Serve(s, b).result == Err(BadMagic) && Serve(s, b).reply == []
    ensures |b| >= 12 && b[0] == 0x41 && b[1] == 0x4D && |b| - 12 >= b[3] ==>
              if (b[2] != 3 && b[2] != 2) || (b[2] == 3 && !s.recovery)
              then Serve(s, b) == Served(12 + b[3] as int, Reply(0, if s.recovery then 3 else 2, 0, 0), Err(UnknownVersion(b[2])))
              else if b[3] == 0 then Serve(s, b) == Served(12, Reply(0, b[2], 0, 0), Err(NoCommonCodec))
              else b[3] > 16 ==> Serve(s, b) == Served(12 + b[3] as int, Reply(0, b[2], 0, 0), Err(TooManyCodecs))
  {
    if |b| >= 2 {
      assert b[0..2] == [b[0], b[1]];
    }
  }

  /** What a client makes of any reply: too little, another magic, another version, a refusal, a codec that it did not
      offer, and else what the reply says. */
  lemma {:induction false} ClientRefuses(c: Client, version: Byte, b: seq<Byte>)
    requires ValidCodecs(c.codecs, c.known)
    ensures |b| < 12 ==> Finish(c, version, b) == Err(Truncated)
    ensures |b| >= 12 ==>
              Finish(c, version, b) ==
                if b[0] != 0x41 || b[1] != 0x4D then Err(BadMagic)
                else if b[3] != version then Err(UnknownVersion(b[3]))
                else if b[2] == 0 || b[4] !in c.codecs then Err(NoCommonCodec)
                else Ok(Agreement(version, b[4], GetBE(b[8..12])))
  {
    if |b| >= 2 {
      assert b[0..2] == [b[0], b[1]];
    }
  }

  // ---------------------------------------------------------------- falling back

  /** The versions a client tries in turn: only a server that answers with version 2 makes it try the next. */
  method ConnectAttempt(c: Client, s: Server, recovery: bool) returns (r: Result<Agreement>)
    requires c.Valid() && s.Valid()
    ensures r == Attempt(c, s, recovery)
  {
    var versions := if recovery then [V3, V2] else [V2];
    var i := 0;
    r := Err(Truncated);
    while i < |versions|
      invariant i <= |versions|
      invariant i == 1 ==> recovery && r == Shake(c, s, V3).0 == Err(UnknownVersion(V2))
      invariant i < 2 && (!recovery ==> i < 1)
    {
      r := Shake(c, s, versions[i]).0;
      if r.Ok? {
        return;
      }
      if versions[i] == V3 && r.error == UnknownVersion(V2) {
        i := i + 1;
        continue;
      }
      return;
    }
  }

  function Attempt(c: Client, s: Server, recovery: bool): Result<Agreement>
    requires c.Valid() && s.Valid()
  {
    if recovery && Shake(c, s, V3).0 != Err(UnknownVersion(V2)) then Shake(c, s, V3).0 else Shake(c, s, V2).0
  }

  /** A recovery client ends on version 3 exactly when the server has recovery enabled, any other on version 2; it
      succeeds exactly when there is a common codec. */
  lemma {:induction false} VersionFallback(c: Client, s: Server, recovery: bool)
    requires c.Valid() && s.Valid() && ValidCodecs(c.codecs, c.known) && ValidCodecs(s.codecs, s.known)
    ensures Attempt(c, s, recovery).Ok? <==> FirstCommon(c.codecs, s.codecs).Some?
    ensures Attempt(c, s, recovery).Ok? ==>
              Attempt(c, s, recovery).value.version == if recovery && s.recovery then V3 else V2
  {
    HandshakeAgrees(c, s, V3);
    HandshakeAgrees(c, s, V2);
  }
}
