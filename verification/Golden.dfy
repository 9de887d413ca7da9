/** The two messages whose bytes the program shares with its implementation in another language. */
module Golden {

  import opened Prelude
  import opened Bytes
  import opened Framing
  import opened MsgPack
  import opened CompactCodec

  const ENV: Env := []

  function Text(s: seq<Byte>): Value { VAtom(AString(s)) }

  lemma {:induction false} ShortString(s: seq<Byte>)
    requires |s| < 32
    ensures HasType(ENV, TScalar(SString), Text(s)) && Encode(ENV, TScalar(SString), Text(s)) == [0xA0 + |s|] + s
  {
    HeaderBytes(|s|);
  }

  lemma {:induction false} ShortBytes(s: seq<Byte>)
    requires |s| < 256
    ensures HasType(ENV, TBytes, VBytes(s)) && Encode(ENV, TBytes, VBytes(s)) == [0xC4, |s|] + s
  {
    HeaderBytes(|s|);
  }

  /** The fields of a struct or a message, one by one. */
  lemma {:induction false} FieldsOf(t: Type, v: Value, ts: seq<Type>, vs: seq<Value>)
    requires HasType(ENV, t, v) && FieldsHave(ENV, ts, vs)
    ensures FieldsHave(ENV, [t] + ts, [v] + vs)
    ensures EncodeFields(ENV, [t] + ts, [v] + vs) == Encode(ENV, t, v) + EncodeFields(ENV, ts, vs)
  {
    assert ([t] + ts)[1..] == ts && ([v] + vs)[1..] == vs;
  }

  /** Three fields, from the bytes of each. */
  lemma {:induction false} ThreeFields(t: seq<Type>, v: seq<Value>, a: seq<Byte>, b: seq<Byte>, c: seq<Byte>)
    requires |t| == |v| == 3 && HasType(ENV, t[0], v[0]) && HasType(ENV, t[1], v[1]) && HasType(ENV, t[2], v[2])
    requires Encode(ENV, t[0], v[0]) == a && Encode(ENV, t[1], v[1]) == b && Encode(ENV, t[2], v[2]) == c
    ensures FieldsHave(ENV, t, v) && EncodeFields(ENV, t, v) == a + (b + c)
  {
    FieldsOf(t[2], v[2], [], []);
    assert t[2..] == [t[2]] + [] && v[2..] == [v[2]] + [];
    FieldsOf(t[1], v[1], t[2..], v[2..]);
    assert t[1..] == [t[1]] + t[2..] && v[1..] == [v[1]] + v[2..];
    FieldsOf(t[0], v[0], t[1..], v[1..]);
    assert t == [t[0]] + t[1..] && v == [v[0]] + v[1..];
  }

  lemma {:induction false} FieldsJoin(ts: seq<Type>, vs: seq<Value>, us: seq<Type>, ws: seq<Value>)
    requires FieldsHave(ENV, ts, vs) && FieldsHave(ENV, us, ws)
    ensures FieldsHave(ENV, ts + us, vs + ws)
    ensures EncodeFields(ENV, ts + us, vs + ws) == EncodeFields(ENV, ts, vs) + EncodeFields(ENV, us, ws)
  {
    if ts == [] {
      assert ts + us == us && vs + ws == ws;
    } else {
      FieldsJoin(ts[1..], vs[1..], us, ws);
      FieldsOf(ts[0], vs[0], ts[1..] + us, vs[1..] + ws);
      assert ts + us == [ts[0]] + (ts[1..] + us) && vs + ws == [vs[0]] + (vs[1..] + ws);
      Regroup(Encode(ENV, ts[0], vs[0]), EncodeFields(ENV, ts[1..], vs[1..]), EncodeFields(ENV, us, ws));
    }
  }

  /** A message with a short name, from the bytes of its fields. */
  lemma {:induction false} ShortMessage(name: seq<Byte>, ts: seq<Type>, vs: seq<Value>, body: seq<Byte>)
    requires |name| < 32 && |ts| < 15 && FieldsHave(ENV, ts, vs) && EncodeFields(ENV, ts, vs) == body
    ensures IsMessage(ENV, ts, Message(name, vs))
    ensures EncodeMessage(ENV, ts, Message(name, vs)) == [0x91 + |ts|, 0xA0 + |name|] + name + body
  {
    HeaderBytes(1 + |ts|);
    HeaderBytes(|name|);
  }

  lemma {:induction false} ItemsOf(e: Type, v: Value, vs: seq<Value>)
    requires HasType(ENV, e, v) && ItemsHave(ENV, e, vs)
    ensures ItemsHave(ENV, e, [v] + vs)
    ensures EncodeItems(ENV, e, [v] + vs) == Encode(ENV, e, v) + EncodeItems(ENV, e, vs)
  {
    assert ([v] + vs)[1..] == vs;
  }

  lemma {:induction false} TwoItems(e: Type, a: Value, b: Value)
    requires HasType(ENV, e, a) && HasType(ENV, e, b)
    ensures HasType(ENV, TSlice(e), VList([a, b]))
    ensures Encode(ENV, TSlice(e), VList([a, b])) == [0x92] + Encode(ENV, e, a) + Encode(ENV, e, b)
  {
    ItemsOf(e, b, []);
    ItemsOf(e, a, [b]);
    assert [b] + [] == [b] && [a] + [b] == [a, b];
    HeaderBytes(2);
  }

  lemma {:induction false} TwoLetters(a: Byte, b: Byte)
    ensures var t, v := TSlice(TScalar(SString)), VList([Text([a]), Text([b])]);
            HasType(ENV, t, v) && Encode(ENV, t, v) == [0x92, 0xA1, a, 0xA1, b]
  {
    ShortString([a]);
    ShortString([b]);
    TwoItems(TScalar(SString), Text([a]), Text([b]));
  }

  lemma {:induction false} OneByteAndNone(a: Byte)
    ensures var t, v := TSlice(TBytes), VList([VBytes([a]), VBytes([])]);
            HasType(ENV, t, v) && Encode(ENV, t, v) == [0x92, 0xC4, 1, a, 0xC4, 0]
  {
    ShortBytes([a]);
    ShortBytes([]);
    TwoItems(TBytes, VBytes([a]), VBytes([]));
  }

  // ---------------------------------------------------------------- a message of each kind of field

  const STRING := TScalar(SString)
  const INNER := TStruct([STRING, TScalar(SBool)])
  const MESSAGE_NAME: seq<Byte> := [0x61, 0x6D, 0x2E, 0x69, 0x6E, 0x74, 0x65, 0x72, 0x6F, 0x70, 0x2E, 0x4D, 0x65, 0x73, 0x73, 0x61, 0x67, 0x65]
  const HALF: seq<Byte> := [0x3F, 0xE0, 0x00, 0x00, 0x00, 0x00, 0x00, 0x00]

  /** Field by field: its type, its value and its bytes. */
  ghost predicate IsExample(ts: seq<Type>, m: Message) {
    && |ts| == |m.values| == 6 && m.name == MESSAGE_NAME
    && ts[0] == STRING && m.values[0] == Text([0x6E])
    && ts[1] == TBytes && m.values[1] == VBytes([1, 2, 3])
    && ts[2] == TSlice(STRING) && m.values[2] == VList([Text([0x61]), Text([0x62])])
    && ts[3] == TPtr(STRING) && m.values[3] == VNil
    && ts[4] == INNER && m.values[4] == VList([Text([0x74]), VAtom(ABool(true))])
    && ts[5] == TScalar(SFloat(8)) && m.values[5] == VAtom(AFloat(HALF))
  }

  lemma {:induction false} InnerBytes()
    ensures HasType(ENV, INNER, VList([Text([0x74]), VAtom(ABool(true))]))
    ensures Encode(ENV, INNER, VList([Text([0x74]), VAtom(ABool(true))])) == [0x92, 0xA1, 0x74, 0xC3]
  {
    var t, v := TScalar(SBool), VAtom(ABool(true));
    ShortString([0x74]);
    FieldsOf(t, v, [], []);
    assert [t] + [] == [t] && [v] + [] == [v] && [STRING] + [t] == [STRING, t] && [Text([0x74])] + [v] == [Text([0x74]), v];
    FieldsOf(STRING, Text([0x74]), [t], [v]);
    HeaderBytes(2);
  }

  lemma {:induction false} ExampleHead(ts: seq<Type>, vs: seq<Value>)
    requires |ts| == |vs| == 3 && ts[0] == STRING && vs[0] == Text([0x6E]) && ts[1] == TBytes && vs[1] == VBytes([1, 2, 3])
    requires ts[2] == TSlice(STRING) && vs[2] == VList([Text([0x61]), Text([0x62])])
    ensures FieldsHave(ENV, ts, vs)
    ensures EncodeFields(ENV, ts, vs) == [0xA1, 0x6E, 0xC4, 3, 1, 2, 3, 0x92, 0xA1, 0x61, 0xA1, 0x62]
  {
    ShortString([0x6E]);
    ShortBytes([1, 2, 3]);
    TwoLetters(0x61, 0x62);
    ThreeFields(ts, vs, [0xA1, 0x6E], [0xC4, 3, 1, 2, 3], [0x92, 0xA1, 0x61, 0xA1, 0x62]);
  }

  lemma {:induction false} ExampleTail(ts: seq<Type>, vs: seq<Value>)
    requires |ts| == |vs| == 3 && ts[0] == TPtr(STRING) && vs[0] == VNil
    requires ts[1] == INNER && vs[1] == VList([Text([0x74]), VAtom(ABool(true))])
    requires ts[2] == TScalar(SFloat(8)) && vs[2] == VAtom(AFloat(HALF))
    ensures FieldsHave(ENV, ts, vs) && EncodeFields(ENV, ts, vs) == [0xC0, 0x92, 0xA1, 0x74, 0xC3, 0xCB] + HALF
  {
    InnerBytes();
    ThreeFields(ts, vs, [0xC0], [0x92, 0xA1, 0x74, 0xC3], [0xCB] + HALF);
  }

  /** Strings, bytes, a list, a nil pointer, a struct, a bool and a float, byte for byte. */
  lemma {:induction false} ExampleBytes(ts: seq<Type>, m: Message)
    requires IsExample(ts, m)
    ensures IsMessage(ENV, ts, m)
    ensures EncodeMessage(ENV, ts, m) ==
            [0x97, 0xB2] + MESSAGE_NAME +
            ([0xA1, 0x6E, 0xC4, 3, 1, 2, 3, 0x92, 0xA1, 0x61, 0xA1, 0x62] + ([0xC0, 0x92, 0xA1, 0x74, 0xC3, 0xCB] + HALF))
  {
    var vs := m.values;
    ExampleHead(ts[..3], vs[..3]);
    ExampleTail(ts[3..], vs[3..]);
    FieldsJoin(ts[..3], vs[..3], ts[3..], vs[3..]);
    assert ts == ts[..3] + ts[3..] && vs == vs[..3] + vs[3..];
    ShortMessage(m.name, ts, vs, EncodeFields(ENV, ts, vs));
    assert m == Message(m.name, vs);
  }

  // ---------------------------------------------------------------- bytes wherever they can be

  const BLOB_NAME: seq<Byte> := [0x61, 0x6D, 0x2E, 0x69, 0x6E, 0x74, 0x65, 0x72, 0x6F, 0x70, 0x2E, 0x42, 0x6C, 0x6F, 0x62]
  const NAMED_BYTES := [Entry(AString([0x6B]), VBytes([5, 6]))]

  ghost predicate IsBlob(ts: seq<Type>, m: Message) {
    && |ts| == |m.values| == 4 && m.name == BLOB_NAME
    && ts[0] == TBytes && m.values[0] == VBytes([1, 2])
    && ts[1] == TPtr(TBytes) && m.values[1] == VPtr(VBytes([4]))
    && ts[2] == TSlice(TBytes) && m.values[2] == VList([VBytes([3]), VBytes([])])
    && ts[3] == TMap(SString, TBytes) && m.values[3] == VMap(NAMED_BYTES)
  }

  lemma {:induction false} MapBytes()
    ensures HasType(ENV, TMap(SString, TBytes), VMap(NAMED_BYTES))
    ensures Encode(ENV, TMap(SString, TBytes), VMap(NAMED_BYTES)) == [0x81, 0xA1, 0x6B, 0xC4, 2, 5, 6]
  {
    var x := Entry(AString([0x6B]), VBytes([5, 6]));
    ShortBytes([5, 6]);
    HeaderBytes(1);
    assert EntryHas(ENV, SString, TBytes, x) && [x][1..] == [];
    assert EncodeEntries(ENV, SString, TBytes, [x]) == EncodeEntry(ENV, SString, TBytes, x) + [];
  }

  /** A field in front of others whose bytes are known. */
  lemma {:induction false} FieldBefore(ts: seq<Type>, vs: seq<Value>, head: seq<Byte>, tail: seq<Byte>)
    requires |ts| == |vs| > 0 && HasType(ENV, ts[0], vs[0]) && Encode(ENV, ts[0], vs[0]) == head
    requires FieldsHave(ENV, ts[1..], vs[1..]) && EncodeFields(ENV, ts[1..], vs[1..]) == tail
    ensures FieldsHave(ENV, ts, vs) && EncodeFields(ENV, ts, vs) == head + tail
  {
    FieldsOf(ts[0], vs[0], ts[1..], vs[1..]);
    assert ts == [ts[0]] + ts[1..] && vs == [vs[0]] + vs[1..];
  }

  lemma {:induction false} BlobMap(ts: seq<Type>, vs: seq<Value>)
    requires |ts| == |vs| == 1 && ts[0] == TMap(SString, TBytes) && vs[0] == VMap(NAMED_BYTES)
    ensures FieldsHave(ENV, ts, vs) && EncodeFields(ENV, ts, vs) == [0x81, 0xA1, 0x6B, 0xC4, 2, 5, 6]
  {
    MapBytes();
    FieldBefore(ts, vs, [0x81, 0xA1, 0x6B, 0xC4, 2, 5, 6], []);
  }

  lemma {:induction false} BlobList(ts: seq<Type>, vs: seq<Value>)
    requires |ts| == |vs| == 2 && ts[0] == TSlice(TBytes) && vs[0] == VList([VBytes([3]), VBytes([])])
    requires ts[1] == TMap(SString, TBytes) && vs[1] == VMap(NAMED_BYTES)
    ensures FieldsHave(ENV, ts, vs)
    ensures EncodeFields(ENV, ts, vs) == [0x92, 0xC4, 1, 3, 0xC4, 0] + [0x81, 0xA1, 0x6B, 0xC4, 2, 5, 6]
  {
    OneByteAndNone(3);
    BlobMap(ts[1..], vs[1..]);
    FieldBefore(ts, vs, [0x92, 0xC4, 1, 3, 0xC4, 0], [0x81, 0xA1, 0x6B, 0xC4, 2, 5, 6]);
  }

  lemma {:induction false} BytesBehindPointer(s: seq<Byte>)
    requires |s| < 256
    ensures HasType(ENV, TPtr(TBytes), VPtr(VBytes(s))) && Encode(ENV, TPtr(TBytes), VPtr(VBytes(s))) == [0xC4, |s|] + s
  {
    ShortBytes(s);
  }

  lemma {:induction false} BlobTail(ts: seq<Type>, vs: seq<Value>)
    requires |ts| == |vs| == 3 && ts[0] == TPtr(TBytes) && vs[0] == VPtr(VBytes([4]))
    requires ts[1] == TSlice(TBytes) && vs[1] == VList([VBytes([3]), VBytes([])])
    requires ts[2] == TMap(SString, TBytes) && vs[2] == VMap(NAMED_BYTES)
    ensures FieldsHave(ENV, ts, vs)
    ensures EncodeFields(ENV, ts, vs) == [0xC4, 1, 4] + ([0x92, 0xC4, 1, 3, 0xC4, 0] + [0x81, 0xA1, 0x6B, 0xC4, 2, 5, 6])
  {
    BytesBehindPointer([4]);
    BlobList(ts[1..], vs[1..]);
    FieldBefore(ts, vs, [0xC4, 1, 4], EncodeFields(ENV, ts[1..], vs[1..]));
  }

  /** Bytes in a field, behind a pointer, in a list and in a map, byte for byte. */
  lemma {:induction false} BlobBytes(ts: seq<Type>, m: Message)
    requires IsBlob(ts, m)
    ensures IsMessage(ENV, ts, m)
    ensures EncodeMessage(ENV, ts, m) ==
            [0x95, 0xAF] + BLOB_NAME +
            ([0xC4, 2, 1, 2] + ([0xC4, 1, 4] + ([0x92, 0xC4, 1, 3, 0xC4, 0] + [0x81, 0xA1, 0x6B, 0xC4, 2, 5, 6])))
  {
    BlobTail(ts[1..], m.values[1..]);
    ShortBytes([1, 2]);
    FieldBefore(ts, m.values, [0xC4, 2, 1, 2], EncodeFields(ENV, ts[1..], m.values[1..]));
    ShortMessage(m.name, ts, m.values, EncodeFields(ENV, ts, m.values));
    assert m == Message(m.name, m.values);
  }

  /** One encoding for each kind of scalar: true, -5 as a 64-bit integer, -3 as an 8-bit one, 65000 as an unsigned 16-bit
      one, 300 as a native one, and 1.5 as a 32-bit float. */
  lemma {:induction false} ScalarBytes()
    ensures EncodeAtom(SBool, ABool(true)) == [0xC3] && EncodeAtom(SBool, ABool(false)) == [0xC2]
    ensures ScalarHas(SInt(true, 1, false), AInt(-3)) && EncodeAtom(SInt(true, 1, false), AInt(-3)) == [0xD0, 0xFD]
    ensures ScalarHas(SInt(false, 2, false), AInt(65000)) && EncodeAtom(SInt(false, 2, false), AInt(65000)) == [0xCD, 0xFD, 0xE8]
    ensures ScalarHas(SInt(true, 8, true), AInt(300)) && EncodeAtom(SInt(true, 8, true), AInt(300)) == [0xCD, 0x01, 0x2C]
    ensures EncodeAtom(SFloat(4), AFloat([0x3F, 0xC0, 0, 0])) == [0xCA, 0x3F, 0xC0, 0, 0]
  {
    Pow256Values();
    BytesOf(253);
    BytesOf(65000);
    NaturalBytes(300);
  }
}
