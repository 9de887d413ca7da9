/** The compact codec: a message is an array of its wire name and its fields, and a nested struct, at any
    depth, is an array of its own. The types are the destinations the decoder is driven by. */
module CompactCodec {

  import opened Prelude
  import opened Bytes
  import opened Framing
  import opened MsgPack

  /** `native` integers (int, uint) are written in their shortest form, sized ones in their own width. */
  datatype Scalar = SBool | SInt(signed: bool, width: nat, native: bool) | SFloat(width: nat) | SString

  datatype Type =
    | TScalar(scalar: Scalar)
    | TBytes
    | TPtr(elem: Type)
    | TSlice(elem: Type)
    | TArray(len: nat, elem: Type)
    | TMap(key: Scalar, elem: Type)
    | TStruct(fields: seq<Type>)
    | TNamed(id: nat)

  /** What the named types stand for, never another name. Types may refer to themselves and to each other. */
  type Env = e: seq<Type> | forall i :: 0 <= i < |e| ==> !e[i].TNamed?

  function Resolve(env: Env, t: Type): (r: Type)
    ensures !t.TNamed? ==> r == t
    ensures r.TNamed? ==> r == t && t.id >= |env|
  {
    if t.TNamed? && t.id < |env| then env[t.id] else t
  }

  /** A float is its bits. */
  datatype Atom = ABool(b: bool) | AInt(i: int) | AFloat(bits: seq<Byte>) | AString(s: seq<Byte>)

  datatype Entry = Entry(key: Atom, value: Value)

  /** `VNil` is a nil pointer, slice or map. A map is its entries, in the order in which an iteration meets them. */
  datatype Value =
    | VNil
    | VAtom(a: Atom)
    | VBytes(s: seq<Byte>)
    | VPtr(target: Value)
    | VList(items: seq<Value>)
    | VMap(entries: seq<Entry>)

  // ---------------------------------------------------------------- typing

  predicate ScalarHas(s: Scalar, a: Atom) {
    match s
    case SBool => a.ABool?
    case SInt(signed, n, _) => IsWidth(n) && a.AInt? && if signed then FitsSigned(a.i, n) else FitsUnsigned(a.i, n)
    case SFloat(n) => (n == 4 || n == 8) && a.AFloat? && |a.bits| == n
    case SString => a.AString? && |a.s| < U32
  }

  /** `v` is a value of type `t`. Lengths are those a MessagePack header can hold. */
  predicate HasType(env: Env, t: Type, v: Value)
    decreases v
  {
    match Resolve(env, t)
    case TNamed(_) => false
    case TScalar(s) => v.VAtom? && ScalarHas(s, v.a)
    case TBytes => v.VNil? || (v.VBytes? && |v.s| < U32)
    case TPtr(e) => v.VNil? || (v.VPtr? && HasType(env, e, v.target))
    case TSlice(e) => v.VNil? || (v.VList? && |v.items| < U32 && ItemsHave(env, e, v.items))
    case TArray(n, e) => v.VList? && |v.items| == n < U32 && ItemsHave(env, e, v.items)
    case TMap(k, e) => v.VNil? || (v.VMap? && |v.entries| < U32 && EntriesHave(env, k, e, v.entries))
    case TStruct(ts) => v.VList? && |ts| < U32 && FieldsHave(env, ts, v.items)
  }

  predicate ItemsHave(env: Env, e: Type, vs: seq<Value>)
    decreases vs
  {
    vs == [] || (HasType(env, e, vs[0]) && ItemsHave(env, e, vs[1..]))
  }

  predicate FieldsHave(env: Env, ts: seq<Type>, vs: seq<Value>)
    decreases vs
  {
    |ts| == |vs| && (vs == [] || (HasType(env, ts[0], vs[0]) && FieldsHave(env, ts[1..], vs[1..])))
  }

  /** No key occurs twice. */
  predicate EntriesHave(env: Env, k: Scalar, e: Type, es: seq<Entry>)
    decreases es
  {
    es == [] || (EntryHas(env, k, e, es[0]) && Fresh(es[0].key, es[1..]) && EntriesHave(env, k, e, es[1..]))
  }

  predicate EntryHas(env: Env, k: Scalar, e: Type, x: Entry)
    decreases x
  {
    ScalarHas(k, x.key) && HasType(env, e, x.value)
  }

  predicate Zeros(b: seq<Byte>) { forall i :: 0 <= i < |b| ==> b[i] == 0 }

  /** IEEE 754: an exponent of ones and a fraction that is not zero. */
  predicate IsNaN(a: Atom) {
    a.AFloat? && (
      if |a.bits| == 4 then
        a.bits[0] % 128 == 127 && a.bits[1] >= 128 && !(a.bits[1] == 128 && Zeros(a.bits[2..]))
      else
        |a.bits| == 8 && a.bits[0] % 128 == 127 && a.bits[1] >= 240 && !(a.bits[1] == 240 && Zeros(a.bits[2..])))
  }

  predicate IsZero(a: Atom) { a.AFloat? && |a.bits| > 0 && a.bits[0] % 128 == 0 && Zeros(a.bits[1..]) }

  /** Equality of map keys: a NaN equals nothing, and the two zeros are equal. */
  predicate SameKey(a: Atom, b: Atom) { (a == b && !IsNaN(a)) || (IsZero(a) && IsZero(b)) }

  predicate Fresh(a: Atom, es: seq<Entry>) { forall i :: 0 <= i < |es| ==> !SameKey(es[i].key, a) }

  // ---------------------------------------------------------------- encoding

  function EncodeAtom(s: Scalar, a: Atom): (r: seq<Byte>)
    requires ScalarHas(s, a)
    ensures |r| > 0 && r[0] != NIL
  {
    match s
    case SBool => [if a.b then 0xC3 else 0xC2]
    case SInt(signed, n, native) =>
      Widest(signed, n, a.i);
      if native then PutCompact(a.i) else PutFixed(a.i, signed, n)
    case SFloat(n) => [if n == 4 then 0xCA else 0xCB] + a.bits
    case SString => PutString(a.s)
  }

  lemma {:induction false} Widest(signed: bool, n: nat, v: int)
    requires IsWidth(n) && (if signed then FitsSigned(v, n) else FitsUnsigned(v, n))
    ensures FitsSigned(v, 8) || FitsUnsigned(v, 8)
  {
    Pow256Values();
  }

  /** `encodeCompactValue`. Only a nil, or a pointer that leads to one, is written as nil. */
  function Encode(env: Env, t: Type, v: Value): (r: seq<Byte>)
    requires HasType(env, t, v)
    ensures |r| > 0 && (r[0] == NIL <==> NilEncoded(v))
    decreases v
  {
    if v.VNil? then [NIL]
    else
      match Resolve(env, t)
      case TScalar(s) => EncodeAtom(s, v.a)
      case TBytes => PutBytes(v.s)
      case TPtr(e) => Encode(env, e, v.target)
      case TSlice(e) => PutLen(ARRAY, |v.items|) + EncodeItems(env, e, v.items)
      case TArray(_, e) => PutLen(ARRAY, |v.items|) + EncodeItems(env, e, v.items)
      case TMap(k, e) => PutLen(MAP, |v.entries|) + EncodeEntries(env, k, e, v.entries)
      case TStruct(ts) => PutLen(ARRAY, |ts|) + EncodeFields(env, ts, v.items)
  }

  function EncodeItems(env: Env, e: Type, vs: seq<Value>): seq<Byte>
    requires ItemsHave(env, e, vs)
    decreases vs
  {
    if vs == [] then [] else Encode(env, e, vs[0]) + EncodeItems(env, e, vs[1..])
  }

  function EncodeFields(env: Env, ts: seq<Type>, vs: seq<Value>): seq<Byte>
    requires FieldsHave(env, ts, vs)
    decreases vs
  {
    if vs == [] then [] else Encode(env, ts[0], vs[0]) + EncodeFields(env, ts[1..], vs[1..])
  }

  function EncodeEntries(env: Env, k: Scalar, e: Type, es: seq<Entry>): seq<Byte>
    requires EntriesHave(env, k, e, es)
    decreases es
  {
    if es == [] then []
    else EncodeEntry(env, k, e, es[0]) + EncodeEntries(env, k, e, es[1..])
  }

  function EncodeEntry(env: Env, k: Scalar, e: Type, x: Entry): seq<Byte>
    requires EntryHas(env, k, e, x)
    decreases x
  {
    EncodeAtom(k, x.key) + Encode(env, e, x.value)
  }

  // ---------------------------------------------------------------- decoding

  /** The value of an integer once it is stored in `n` bytes. */
  function Stored(v: int, signed: bool, n: nat): int {
    var u := v % Pow256(n);
    if signed && 2 * u >= Pow256(n) then u - Pow256(n) else u
  }

  function DecodeAtom(s: Scalar, b: seq<Byte>): (r: Read<Atom>)
    ensures r.Some? ==> |r.value.1| < |b|
  {
    match s
    case SBool =>
      if b == [] || (b[0] != 0xC2 && b[0] != 0xC3) then None else Some((ABool(b[0] == 0xC3), b[1..]))
    case SInt(signed, n, _) =>
      (match GetInt(b)
       case None => None
       case Some((i, rest)) => Some((AInt(Stored(i, signed, n)), rest)))
    case SFloat(n) =>
      if b == [] || b[0] != (if n == 4 then 0xCA else 0xCB) then None
      else
        (match ReadRaw(b[1..], n)
         case None => None
         case Some((bits, rest)) => Some((AFloat(bits), rest)))
    case SString =>
      match ReadString(b)
      case None => None
      case Some((text, rest)) => Some((AString(text), rest))
  }

  /** `DecodeArrayLen` with nil read as no elements. */
  function ArrayLen(b: seq<Byte>): (r: Read<nat>)
    ensures r.Some? ==> |r.value.1| < |b|
  {
    if b != [] && b[0] == NIL then Some((0, b[1..])) else GetLen(ARRAY, b)
  }

  function Ids(n: nat): (r: set<nat>)
    ensures forall i :: i in r <==> 0 <= i < n
  {
    if n == 0 then {} else Ids(n - 1) + {n - 1}
  }

  /** `decodeCompactValue`. Nil goes into pointers, slices and maps, and into a struct without fields. `seen` are the
      names followed since the last byte was taken: only a pointer type that leads to itself and to nothing else meets
      one again, and for that the code never returns. */
  function Decode(env: Env, t: Type, b: seq<Byte>, seen: set<nat>): (r: Read<Value>)
    ensures r.Some? ==> |r.value.1| < |b|
    decreases |b|, 0, Ids(|env|) - seen, t
  {
    if b == [] then None
    else
      match t
      case TNamed(id) => if id >= |env| || id in seen then None else Decode(env, env[id], b, seen + {id})
      case TStruct(ts) =>
        (match ArrayLen(b)
         case None => None
         case Some((n, rest)) => if n != |ts| then None else AsList(DecodeFields(env, ts, rest)))
      case TScalar(s) =>
        if b[0] == NIL then None
        else
          (match DecodeAtom(s, b)
           case None => None
           case Some((a, rest)) => Some((VAtom(a), rest)))
      case TArray(len, e) =>
        if b[0] == NIL then None
        else
          (match GetLen(ARRAY, b)
           case None => None
           case Some((n, rest)) => if n != len then None else AsList(DecodeItems(env, e, n, rest)))
      case TBytes =>
        if b[0] == NIL then Some((VNil, b[1..]))
        else
          (match ReadString(b)
           case None => None
           case Some((s, rest)) => Some((VBytes(s), rest)))
      case TPtr(e) =>
        if b[0] == NIL then Some((VNil, b[1..]))
        else
          (match Decode(env, e, b, seen)
           case None => None
           case Some((v, rest)) => Some((VPtr(v), rest)))
      case TSlice(e) =>
        if b[0] == NIL then Some((VNil, b[1..]))
        else
          (match GetLen(ARRAY, b)
           case None => None
           case Some((n, rest)) => AsList(DecodeItems(env, e, n, rest)))
      case TMap(k, e) =>
        if b[0] == NIL then Some((VNil, b[1..]))
        else
          match GetLen(MAP, b)
          case None => None
          case Some((n, rest)) => AsMap(DecodeEntries(env, k, e, n, rest, []))
  }

  function AsList(r: Read<seq<Value>>): Read<Value> {
    match r
    case None => None
    case Some((vs, rest)) => Some((VList(vs), rest))
  }

  function AsMap(r: Read<seq<Entry>>): Read<Value> {
    match r
    case None => None
    case Some((es, rest)) => Some((VMap(es), rest))
  }

  /** What was read before, and then what `r` reads. */
  function Prepend<T>(done: seq<T>, r: Read<seq<T>>): Read<seq<T>> {
    match r
    case None => None
    case Some((more, rest)) => Some((done + more, rest))
  }

  function DecodeItems(env: Env, e: Type, n: nat, b: seq<Byte>): (r: Read<seq<Value>>)
    ensures r.Some? ==> |r.value.1| <= |b|
    decreases |b|, 1
  {
    if n == 0 then Some(([], b))
    else
      match Decode(env, e, b, {})
      case None => None
      case Some((v, rest)) => Prepend([v], DecodeItems(env, e, n - 1, rest))
  }

  function DecodeFields(env: Env, ts: seq<Type>, b: seq<Byte>): (r: Read<seq<Value>>)
    ensures r.Some? ==> |r.value.1| <= |b|
    decreases |b|, 1
  {
    if ts == [] then Some(([], b))
    else
      match Decode(env, ts[0], b, {})
      case None => None
      case Some((v, rest)) => Prepend([v], DecodeFields(env, ts[1..], rest))
  }

  /** `SetMapIndex`: a key that is already there gets the new value. */
  function Put(es: seq<Entry>, k: Atom, v: Value): seq<Entry> {
    if es == [] then [Entry(k, v)]
    else if SameKey(es[0].key, k) then [Entry(k, v)] + es[1..]
    else [es[0]] + Put(es[1..], k, v)
  }

  function DecodeEntry(env: Env, k: Scalar, e: Type, b: seq<Byte>): (r: Read<Entry>)
    ensures r.Some? ==> |r.value.1| < |b|
    decreases |b|, 1
  {
    match DecodeAtom(k, b)
    case None => None
    case Some((a, rest)) =>
      match Decode(env, e, rest, {})
      case None => None
      case Some((v, left)) => Some((Entry(a, v), left))
  }

  function DecodeEntries(env: Env, k: Scalar, e: Type, n: nat, b: seq<Byte>, got: seq<Entry>): (r: Read<seq<Entry>>)
    ensures r.Some? ==> |r.value.1| <= |b|
    decreases |b|, 2
  {
    if n == 0 then Some((got, b))
    else
      match DecodeEntry(env, k, e, b)
      case None => None
      case Some((x, rest)) => DecodeEntries(env, k, e, n - 1, rest, Put(got, x.key, x.value))
  }

  // ---------------------------------------------------------------- what a value decodes to

  /** A nil, or a pointer that leads to one. */
  predicate NilEncoded(v: Value) { v.VNil? || (v.VPtr? && NilEncoded(v.target)) }

  /** `v` with every pointer that leads to a nil replaced by a nil pointer. */
  function Collapsed(v: Value): Value
    decreases v
  {
    match v
    case VPtr(x) => if NilEncoded(x) then VNil else VPtr(Collapsed(x))
    case VList(vs) => VList(CollapsedItems(vs))
    case VMap(es) => VMap(CollapsedEntries(es))
    case _ => v
  }

  function CollapsedItems(vs: seq<Value>): (r: seq<Value>)
    ensures |r| == |vs|
    decreases vs
  {
    if vs == [] then [] else [Collapsed(vs[0])] + CollapsedItems(vs[1..])
  }

  function CollapsedEntries(es: seq<Entry>): (r: seq<Entry>)
    ensures |r| == |es|
    decreases es
  {
    if es == [] then [] else [CollapsedEntry(es[0])] + CollapsedEntries(es[1..])
  }

  function CollapsedEntry(x: Entry): Entry
    decreases x
  {
    Entry(x.key, Collapsed(x.value))
  }

  /** No pointer in `v` leads to a nil. */
  predicate NoPointerToNil(v: Value)
    decreases v
  {
    match v
    case VPtr(x) => !NilEncoded(x) && NoPointerToNil(x)
    case VList(vs) => forall x :: x in vs ==> NoPointerToNil(x)
    case VMap(es) => forall x :: x in es ==> NoPointerToNil(x.value)
    case _ => true
  }

  lemma {:induction false} CollapsedIsIdentity(v: Value)
    ensures Collapsed(v) == v <==> NoPointerToNil(v)
    decreases v
  {
    match v
    case VPtr(x) => CollapsedIsIdentity(x);
    case VList(vs) => CollapsedItemsIdentity(vs);
    case VMap(es) => CollapsedEntriesIdentity(es);
    case _ =>
  }

  lemma {:induction false} CollapsedItemsIdentity(vs: seq<Value>)
    ensures CollapsedItems(vs) == vs <==> forall x :: x in vs ==> NoPointerToNil(x)
    decreases vs
  {
    if vs != [] {
      var r := CollapsedItems(vs);
      assert vs == [vs[0]] + vs[1..];
      assert r[0] == Collapsed(vs[0]) && r[1..] == CollapsedItems(vs[1..]);
      CollapsedIsIdentity(vs[0]);
      CollapsedItemsIdentity(vs[1..]);
    }
  }

  lemma {:induction false} CollapsedEntriesIdentity(es: seq<Entry>)
    ensures CollapsedEntries(es) == es <==> forall x :: x in es ==> NoPointerToNil(x.value)
    decreases es
  {
    if es != [] {
      var r := CollapsedEntries(es);
      assert es == [es[0]] + es[1..];
      assert r[0] == CollapsedEntry(es[0]) && r[1..] == CollapsedEntries(es[1..]);
      CollapsedEntryIdentity(es[0]);
      CollapsedEntriesIdentity(es[1..]);
    }
  }

  lemma {:induction false} CollapsedEntryIdentity(x: Entry)
    ensures CollapsedEntry(x) == x <==> NoPointerToNil(x.value)
    decreases x
  {
    CollapsedIsIdentity(x.value);
  }

  // ---------------------------------------------------------------- round trip

  lemma {:induction false} Remainder(v: int, m: int)
    requires 0 < m && 0 <= v + m && v < m
    ensures v % m == if v < 0 then v + m else v
  {}

  lemma {:induction false} StoredFits(v: int, signed: bool, n: nat)
    requires if signed then FitsSigned(v, n) else FitsUnsigned(v, n)
    ensures Stored(v, signed, n) == v
  {
    Remainder(v, Pow256(n));
  }

  lemma {:induction false} AtomReadsBack(s: Scalar, a: Atom, rest: seq<Byte>)
    requires ScalarHas(s, a)
    ensures DecodeAtom(s, EncodeAtom(s, a) + rest) == Some((a, rest))
  {
    var b := EncodeAtom(s, a) + rest;
    match s
    case SBool => assert b[1..] == rest;
    case SInt(signed, n, native) =>
      Widest(signed, n, a.i);
      if native {
        CompactReadsBack(a.i, rest);
      } else {
        FixedReadsBack(a.i, signed, n, rest);
      }
      StoredFits(a.i, signed, n);
    case SFloat(n) =>
      assert b[1..] == a.bits + rest;
      assert (a.bits + rest)[..n] == a.bits && (a.bits + rest)[n..] == rest;
    case SString => StringReadsBack(a.s, rest);
  }

  /** The pointers between a value and what they lead to. */
  function Depth(v: Value): nat { if v.VPtr? then 1 + Depth(v.target) else 0 }

  /** The type alone says how many there are, unless they lead to a nil. */
  lemma {:induction false} SameDepth(env: Env, t: Type, v: Value, w: Value)
    requires HasType(env, t, v) && HasType(env, t, w) && !NilEncoded(v) && !NilEncoded(w)
    ensures Depth(v) == Depth(w)
    decreases v
  {
    match Resolve(env, t)
    case TPtr(e) => SameDepth(env, e, v.target, w.target);
    case _ =>
  }

  /** Values of the types named in `seen` lie at least `d` pointers deep. */
  ghost predicate Deep(env: Env, seen: set<nat>, d: nat) {
    forall id, w :: id in seen && HasType(env, TNamed(id), w) && !NilEncoded(w) ==> Depth(w) >= d
  }

  /** So a name is not met twice on the way along pointers to a value. */
  lemma {:induction false} NameIsNew(env: Env, id: nat, v: Value, seen: set<nat>)
    requires HasType(env, TNamed(id), v) && !NilEncoded(v) && Deep(env, seen, Depth(v) + 1)
    ensures id !in seen && Deep(env, seen + {id}, Depth(v))
  {
    forall i, w | i in seen + {id} && HasType(env, TNamed(i), w) && !NilEncoded(w) ensures Depth(w) >= Depth(v) {
      if i == id {
        SameDepth(env, TNamed(id), v, w);
      }
    }
  }

  /** Decoding what was encoded takes exactly those bytes and gives the value back, in any order of its maps'
      entries, with pointers that lead to a nil collapsed. */
  lemma {:induction false} ValueReadsBack(env: Env, t: Type, v: Value, rest: seq<Byte>)
    requires HasType(env, t, v)
    ensures Decode(env, t, Encode(env, t, v) + rest, {}) == Some((Collapsed(v), rest))
    decreases v, 3
  {
    if NilEncoded(v) {
      NilReadsBack(env, t, v, rest);
    } else {
      SolidReadsBack(env, t, v, rest, {});
    }
  }

  lemma {:induction false} SolidReadsBack(env: Env, t: Type, v: Value, rest: seq<Byte>, seen: set<nat>)
    requires HasType(env, t, v) && !NilEncoded(v) && Deep(env, seen, Depth(v) + 1)
    ensures Decode(env, t, Encode(env, t, v) + rest, seen) == Some((Collapsed(v), rest))
    decreases v, 2
  {
    if t.TNamed? {
      NameIsNew(env, t.id, v, seen);
      ResolvedReadsBack(env, env[t.id], v, rest, seen + {t.id});
    } else {
      ResolvedReadsBack(env, t, v, rest, seen);
    }
  }

  lemma {:induction false} ResolvedReadsBack(env: Env, t: Type, v: Value, rest: seq<Byte>, seen: set<nat>)
    requires !t.TNamed? && HasType(env, t, v) && !NilEncoded(v) && Deep(env, seen, Depth(v))
    ensures Decode(env, t, Encode(env, t, v) + rest, seen) == Some((Collapsed(v), rest))
    decreases v, 1
  {
    var b := Encode(env, t, v) + rest;
    assert b[0] == Encode(env, t, v)[0];
    match t
    case TScalar(s) => AtomReadsBack(s, v.a, rest);
    case TBytes => BytesReadBack(v.s, rest);
    case TPtr(e) => SolidReadsBack(env, e, v.target, rest, seen);
    case TSlice(e) => ListHeader(v.items, EncodeItems(env, e, v.items), rest); ItemsReadBack(env, e, v.items, rest);
    case TArray(_, e) => ListHeader(v.items, EncodeItems(env, e, v.items), rest); ItemsReadBack(env, e, v.items, rest);
    case TMap(k, e) =>
      var body := EncodeEntries(env, k, e, v.entries);
      Regroup(PutLen(MAP, |v.entries|), body, rest);
      LenReadsBack(MAP, |v.entries|, body + rest);
      EntriesReadBack(env, k, e, v.entries, rest, []);
      assert [] + CollapsedEntries(v.entries) == CollapsedEntries(v.entries);
    case TStruct(ts) => ListHeader(v.items, EncodeFields(env, ts, v.items), rest); FieldsReadBack(env, ts, v.items, rest);
  }

  lemma {:induction false} NilIsEncoded(env: Env, t: Type, v: Value)
    requires HasType(env, t, v) && NilEncoded(v)
    ensures Encode(env, t, v) == [NIL] && Collapsed(v) == VNil
    decreases v
  {
    if v.VPtr? {
      NilIsEncoded(env, Resolve(env, t).elem, v.target);
    }
  }

  lemma {:induction false} NilReadsBack(env: Env, t: Type, v: Value, rest: seq<Byte>)
    requires HasType(env, t, v) && NilEncoded(v)
    ensures Decode(env, t, Encode(env, t, v) + rest, {}) == Some((Collapsed(v), rest))
  {
    NilIsEncoded(env, t, v);
    var b := [NIL] + rest;
    assert b[1..] == rest;
    assert Decode(env, Resolve(env, t), b, if t.TNamed? then {t.id} else {}) == Some((VNil, rest));
    assert {} + {if t.TNamed? then t.id else 0} == {if t.TNamed? then t.id else 0};
  }

  lemma {:induction false} ListHeader(vs: seq<Value>, body: seq<Byte>, rest: seq<Byte>)
    requires |vs| < U32
    ensures GetLen(ARRAY, PutLen(ARRAY, |vs|) + body + rest) == Some((|vs|, body + rest))
  {
    assert PutLen(ARRAY, |vs|) + body + rest == PutLen(ARRAY, |vs|) + (body + rest);
    LenReadsBack(ARRAY, |vs|, body + rest);
  }

  lemma {:induction false} ItemsReadBack(env: Env, e: Type, vs: seq<Value>, rest: seq<Byte>)
    requires ItemsHave(env, e, vs)
    ensures DecodeItems(env, e, |vs|, EncodeItems(env, e, vs) + rest) == Some((CollapsedItems(vs), rest))
    decreases vs
  {
    if vs == [] {
      assert EncodeItems(env, e, vs) + rest == rest;
    } else {
      var more := EncodeItems(env, e, vs[1..]) + rest;
      assert EncodeItems(env, e, vs) + rest == Encode(env, e, vs[0]) + more;
      ValueReadsBack(env, e, vs[0], more);
      ItemsReadBack(env, e, vs[1..], rest);
    }
  }

  lemma {:induction false} FieldsReadBack(env: Env, ts: seq<Type>, vs: seq<Value>, rest: seq<Byte>)
    requires FieldsHave(env, ts, vs)
    ensures DecodeFields(env, ts, EncodeFields(env, ts, vs) + rest) == Some((CollapsedItems(vs), rest))
    decreases vs
  {
    if vs == [] {
      assert EncodeFields(env, ts, vs) + rest == rest;
    } else {
      var more := EncodeFields(env, ts[1..], vs[1..]) + rest;
      assert EncodeFields(env, ts, vs) + rest == Encode(env, ts[0], vs[0]) + more;
      ValueReadsBack(env, ts[0], vs[0], more);
      FieldsReadBack(env, ts[1..], vs[1..], rest);
    }
  }

  lemma {:induction false} PutAppends(es: seq<Entry>, k: Atom, v: Value)
    requires Fresh(k, es)
    ensures Put(es, k, v) == es + [Entry(k, v)]
  {
    if es != [] {
      PutAppends(es[1..], k, v);
    }
  }

  /** The entries read so far share no key with those still to come. */
  ghost predicate Apart(got: seq<Entry>, es: seq<Entry>) {
    forall i :: 0 <= i < |es| ==> Fresh(es[i].key, got)
  }

  lemma {:induction false} ApartStep(got: seq<Entry>, es: seq<Entry>, x: Entry)
    requires es != [] && Apart(got, es) && Fresh(es[0].key, es[1..]) && x.key == es[0].key
    ensures Fresh(es[0].key, got) && Apart(got + [x], es[1..])
  {
    forall i | 0 <= i < |es[1..]| ensures Fresh(es[1..][i].key, got + [x]) {
      assert Fresh(es[i + 1].key, got);
    }
  }

  /** An entry whose key is new is appended. */
  lemma {:induction false} EntryReadsBack(env: Env, k: Scalar, e: Type, x: Entry, n: nat, more: seq<Byte>, got: seq<Entry>)
    requires EntryHas(env, k, e, x) && Fresh(x.key, got)
    ensures DecodeEntries(env, k, e, n + 1, EncodeEntry(env, k, e, x) + more, got)
         == DecodeEntries(env, k, e, n, more, got + [CollapsedEntry(x)])
    decreases x
  {
    var body := Encode(env, e, x.value) + more;
    assert EncodeEntry(env, k, e, x) + more == EncodeAtom(k, x.key) + body;
    AtomReadsBack(k, x.key, body);
    ValueReadsBack(env, e, x.value, more);
    PutAppends(got, x.key, Collapsed(x.value));
  }

  lemma {:induction false} EntriesReadBack(env: Env, k: Scalar, e: Type, es: seq<Entry>, rest: seq<Byte>, got: seq<Entry>)
    requires EntriesHave(env, k, e, es) && Apart(got, es)
    ensures DecodeEntries(env, k, e, |es|, EncodeEntries(env, k, e, es) + rest, got)
         == Some((got + CollapsedEntries(es), rest))
    decreases es
  {
    if es == [] {
      assert EncodeEntries(env, k, e, es) + rest == rest && got + [] == got;
    } else {
      var c, d := CollapsedEntry(es[0]), CollapsedEntries(es[1..]);
      var mine, tail := EncodeEntry(env, k, e, es[0]), EncodeEntries(env, k, e, es[1..]);
      Regroup(mine, tail, rest);
      Regroup(got, [c], d);
      ApartStep(got, es, c);
      EntryReadsBack(env, k, e, es[0], |es| - 1, tail + rest, got);
      EntriesReadBack(env, k, e, es[1..], rest, got + [c]);
    }
  }

  /** The value itself comes back exactly when no pointer in it leads to a nil. */
  lemma {:induction false} RoundTrip(env: Env, t: Type, v: Value, rest: seq<Byte>)
    requires HasType(env, t, v)
    ensures Decode(env, t, Encode(env, t, v) + rest, {}) == Some((v, rest)) <==> NoPointerToNil(v)
  {
    ValueReadsBack(env, t, v, rest);
    CollapsedIsIdentity(v);
  }

  /** The exception is real: a pointer to a nil pointer comes back nil. */
  lemma {:induction false} PointerToNilIsLost(env: Env)
    ensures var t, v := TPtr(TPtr(TScalar(SBool))), VPtr(VNil);
            HasType(env, t, v) && Decode(env, t, Encode(env, t, v), {}) == Some((VNil, []))
  {
    var t, v := TPtr(TPtr(TScalar(SBool))), VPtr(VNil);
    assert HasType(env, TPtr(TScalar(SBool)), VNil);
    ValueReadsBack(env, t, v, []);
    assert Encode(env, t, v) + [] == Encode(env, t, v);
  }

  /** Nil goes into pointers, slices, maps and bytes, and into a struct without fields; any other destination refuses
      it. */
  lemma {:induction false} NilDestinations(env: Env, t: Type, rest: seq<Byte>)
    ensures var u := Resolve(env, t);
            Decode(env, t, [NIL] + rest, {}) ==
              if u.TPtr? || u.TSlice? || u.TMap? || u.TBytes? then Some((VNil, rest))
              else if u == TStruct([]) then Some((VList([]), rest))
              else None
  {
    assert ([NIL] + rest)[1..] == rest;
    if !Resolve(env, t).TNamed? {
      NilDestination(env, Resolve(env, t), rest, if t.TNamed? then {t.id} else {});
      assert {} + {if t.TNamed? then t.id else 0} == {if t.TNamed? then t.id else 0};
    }
  }

  lemma {:induction false} NilDestination(env: Env, u: Type, rest: seq<Byte>, seen: set<nat>)
    requires !u.TNamed?
    ensures Decode(env, u, [NIL] + rest, seen) ==
              if u.TPtr? || u.TSlice? || u.TMap? || u.TBytes? then Some((VNil, rest))
              else if u == TStruct([]) then Some((VList([]), rest))
              else None
  {
    var b := [NIL] + rest;
    assert b[0] == NIL && b[1..] == rest;
    if u.TStruct? {
      assert ArrayLen(b) == Some((0, rest));
    }
  }

  /** A scalar is read only from a code of its own kind, and a float only from all of its bytes. */
  lemma {:induction false} ScalarCodes(s: Scalar, b: seq<Byte>)
    ensures s == SBool ==> (DecodeAtom(s, b).Some? <==> b != [] && (b[0] == 0xC2 || b[0] == 0xC3))
    ensures s.SInt? && DecodeAtom(s, b).Some? ==> b != [] && (b[0] < 0x80 || b[0] >= 0xE0 || 0xCC <= b[0] <= 0xD3)
    ensures s.SString? && DecodeAtom(s, b).Some? ==>
              b != [] && (0xA0 <= b[0] <= 0xBF || 0xD9 <= b[0] <= 0xDB || 0xC4 <= b[0] <= 0xC6)
    ensures s == SFloat(4) ==> (DecodeAtom(s, b).Some? <==> |b| >= 5 && b[0] == 0xCA)
    ensures s == SFloat(8) ==> (DecodeAtom(s, b).Some? <==> |b| >= 9 && b[0] == 0xCB)
  {
    HeaderCodes(b);
  }

  /** A list goes into an array or a struct only with as many elements. */
  lemma {:induction false} CountsMustMatch(env: Env, e: Type, vs: seq<Value>, rest: seq<Byte>, u: Type)
    requires HasType(env, TSlice(e), VList(vs))
    requires (u.TArray? && u.len != |vs|) || (u.TStruct? && |u.fields| != |vs|)
    ensures Decode(env, u, Encode(env, TSlice(e), VList(vs)) + rest, {}).None?
  {
    var b := Encode(env, TSlice(e), VList(vs)) + rest;
    assert b[0] == Encode(env, TSlice(e), VList(vs))[0];
    ListHeader(vs, EncodeItems(env, e, vs), rest);
  }

  /** The value that a map has under a key. */
  function ValueUnder(es: seq<Entry>, k: Atom): Option<Value> {
    if es == [] then None else if SameKey(es[0].key, k) then Some(es[0].value) else ValueUnder(es[1..], k)
  }

  /** Storing under a key that can be found replaces its value and no other. */
  lemma {:induction false} PutReplaces(es: seq<Entry>, k: Atom, v: Value, other: Atom)
    requires !IsNaN(k) && !SameKey(other, k)
    ensures ValueUnder(Put(es, k, v), k) == Some(v) && ValueUnder(Put(es, k, v), other) == ValueUnder(es, other)
    ensures |Put(es, k, v)| == if ValueUnder(es, k).Some? then |es| else |es| + 1
  {
    if es != [] {
      PutReplaces(es[1..], k, v, other);
      assert Put(es, k, v)[1..] == if SameKey(es[0].key, k) then es[1..] else Put(es[1..], k, v);
    }
  }

  // ---------------------------------------------------------------- iteration order

  /** A value without the order of its maps' entries. */
  datatype Plain =
    | PNil
    | PAtom(a: Atom)
    | PBytes(s: seq<Byte>)
    | PPtr(target: Plain)
    | PList(items: seq<Plain>)
    | PMap(entries: multiset<PlainEntry>)

  datatype PlainEntry = PlainEntry(key: Atom, value: Plain)

  ghost function AsPlain(v: Value): Plain
    decreases v
  {
    match v
    case VNil => PNil
    case VAtom(a) => PAtom(a)
    case VBytes(s) => PBytes(s)
    case VPtr(x) => PPtr(AsPlain(x))
    case VList(vs) => PList(PlainItems(vs))
    case VMap(es) => PMap(PlainEntries(es))
  }

  ghost function PlainItems(vs: seq<Value>): (r: seq<Plain>)
    ensures |r| == |vs|
    decreases vs
  {
    if vs == [] then [] else [AsPlain(vs[0])] + PlainItems(vs[1..])
  }

  ghost function PlainEntries(es: seq<Entry>): multiset<PlainEntry>
    decreases es
  {
    if es == [] then multiset{} else multiset{AsPlainEntry(es[0])} + PlainEntries(es[1..])
  }

  ghost function AsPlainEntry(x: Entry): PlainEntry
    decreases x
  {
    PlainEntry(x.key, AsPlain(x.value))
  }

  /** The same value: only the orders of its maps' entries differ. */
  ghost predicate Same(v: Value, w: Value) { AsPlain(v) == AsPlain(w) }

  /** An entry of one listing is somewhere in the other. */
  lemma {:induction false} FindEntry(es: seq<Entry>, x: PlainEntry) returns (j: nat)
    requires x in PlainEntries(es)
    ensures j < |es| && AsPlainEntry(es[j]) == x
  {
    if AsPlainEntry(es[0]) == x {
      j := 0;
    } else {
      j := FindEntry(es[1..], x);
      j := j + 1;
    }
  }

  lemma {:induction false} PlainSize(es: seq<Entry>)
    ensures |PlainEntries(es)| == |es|
  {
    if es != [] {
      PlainSize(es[1..]);
    }
  }

  function Without(es: seq<Entry>, j: nat): seq<Entry>
    requires j < |es|
  {
    es[..j] + es[j + 1..]
  }

  lemma {:induction false} WithoutStep(es: seq<Entry>, j: nat)
    requires 0 < j < |es|
    ensures Without(es, j) == [es[0]] + Without(es[1..], j - 1)
    ensures Without(es, j)[0] == es[0] && Without(es, j)[1..] == Without(es[1..], j - 1)
  {}

  lemma {:induction false} TakeOut(es: seq<Entry>, j: nat)
    requires j < |es|
    ensures PlainEntries(es) == multiset{AsPlainEntry(es[j])} + PlainEntries(Without(es, j))
    decreases j
  {
    if j == 0 {
      assert Without(es, 0) == es[1..];
    } else {
      TakeOut(es[1..], j - 1);
      WithoutStep(es, j);
    }
  }

  lemma {:induction false} CollapsedStep(es: seq<Entry>)
    requires es != []
    ensures CollapsedEntries(es)[0] == CollapsedEntry(es[0]) && CollapsedEntries(es)[1..] == CollapsedEntries(es[1..])
  {}

  lemma {:induction false} CollapsedWithout(es: seq<Entry>, j: nat)
    requires j < |es|
    ensures CollapsedEntries(Without(es, j)) == Without(CollapsedEntries(es), j)
    ensures CollapsedEntries(es)[j] == CollapsedEntry(es[j])
    decreases j
  {
    CollapsedStep(es);
    if j == 0 {
      assert Without(es, 0) == es[1..];
      assert Without(CollapsedEntries(es), 0) == CollapsedEntries(es)[1..];
    } else {
      CollapsedWithout(es[1..], j - 1);
      WithoutStep(es, j);
      WithoutStep(CollapsedEntries(es), j);
    }
  }

  lemma {:induction false} SameNil(v: Value, w: Value)
    requires Same(v, w)
    ensures NilEncoded(v) == NilEncoded(w)
    decreases v
  {
    if v.VPtr? {
      SameNil(v.target, w.target);
    }
  }

  lemma {:induction false} SameCollapsed(v: Value, w: Value)
    requires Same(v, w)
    ensures Same(Collapsed(v), Collapsed(w))
    decreases v
  {
    match v
    case VPtr(x) =>
      SameNil(x, w.target);
      SameCollapsed(x, w.target);
    case VList(vs) => SameItemsCollapsed(vs, w.items);
    case VMap(es) => SameEntriesCollapsed(es, w.entries);
    case _ =>
  }

  lemma {:induction false} SameItemsCollapsed(vs: seq<Value>, ws: seq<Value>)
    requires PlainItems(vs) == PlainItems(ws)
    ensures PlainItems(CollapsedItems(vs)) == PlainItems(CollapsedItems(ws))
    decreases vs
  {
    if vs != [] {
      assert PlainItems(vs)[0] == AsPlain(vs[0]) && PlainItems(ws)[0] == AsPlain(ws[0]);
      assert PlainItems(vs)[1..] == PlainItems(vs[1..]) && PlainItems(ws)[1..] == PlainItems(ws[1..]);
      SameCollapsed(vs[0], ws[0]);
      SameItemsCollapsed(vs[1..], ws[1..]);
    }
  }

  lemma {:induction false} SameEntriesCollapsed(es: seq<Entry>, fs: seq<Entry>)
    requires PlainEntries(es) == PlainEntries(fs)
    ensures PlainEntries(CollapsedEntries(es)) == PlainEntries(CollapsedEntries(fs))
    decreases es
  {
    if es == [] {
      PlainSize(es);
      PlainSize(fs);
    } else {
      var x := AsPlainEntry(es[0]);
      assert x in PlainEntries(es);
      var j := FindEntry(fs, x);
      TakeOut(fs, j);
      assert PlainEntries(es[1..]) == PlainEntries(es) - multiset{x};
      assert PlainEntries(Without(fs, j)) == PlainEntries(fs) - multiset{x};
      SameEntryCollapsed(es[0], fs[j]);
      SameEntriesCollapsed(es[1..], Without(fs, j));
      TakeOutCollapsed(fs, j);
    }
  }

  lemma {:induction false} TakeOutCollapsed(fs: seq<Entry>, j: nat)
    requires j < |fs|
    ensures PlainEntries(CollapsedEntries(fs))
         == multiset{AsPlainEntry(CollapsedEntry(fs[j]))} + PlainEntries(CollapsedEntries(Without(fs, j)))
  {
    CollapsedWithout(fs, j);
    TakeOut(CollapsedEntries(fs), j);
  }

  lemma {:induction false} SameEntryCollapsed(x: Entry, y: Entry)
    requires AsPlainEntry(x) == AsPlainEntry(y)
    ensures AsPlainEntry(CollapsedEntry(x)) == AsPlainEntry(CollapsedEntry(y))
    decreases x
  {
    SameCollapsed(x.value, y.value);
  }

  /** Whatever orders two encodings of one value iterate its maps in, they decode to one value. */
  lemma {:induction false} OrderIsIrrelevant(env: Env, t: Type, v: Value, w: Value, rest: seq<Byte>)
    requires HasType(env, t, v) && HasType(env, t, w) && Same(v, w)
    ensures var a, b := Decode(env, t, Encode(env, t, v) + rest, {}), Decode(env, t, Encode(env, t, w) + rest, {});
            a.Some? && b.Some? && Same(a.value.0, b.value.0) && a.value.1 == b.value.1 == rest
  {
    ValueReadsBack(env, t, v, rest);
    ValueReadsBack(env, t, w, rest);
    SameCollapsed(v, w);
  }

  // ---------------------------------------------------------------- truncation

  lemma {:induction false} AtomExtends(s: Scalar, b: seq<Byte>, x: seq<Byte>)
    ensures Extends(DecodeAtom(s, b), DecodeAtom(s, b + x), x)
  {
    if b != [] {
      assert (b + x)[0] == b[0] && (b + x)[1..] == b[1..] + x;
    }
    match s
    case SBool =>
    case SInt(_, _, _) => IntExtends(b, x);
    case SFloat(n) =>
      if b != [] {
        UintExtends(b[1..], n, x);
      }
    case SString => StringExtends(b, x);
  }

  /** The decoder looks only at the bytes it takes. */
  lemma {:induction false} DecodeExtends(env: Env, t: Type, b: seq<Byte>, x: seq<Byte>, seen: set<nat>)
    ensures Extends(Decode(env, t, b, seen), Decode(env, t, b + x, seen), x)
    decreases |b|, 0, Ids(|env|) - seen, t
  {
    if Decode(env, t, b, seen).Some? {
      assert (b + x)[0] == b[0] && (b + x)[1..] == b[1..] + x;
      match t
      case TNamed(id) => DecodeExtends(env, env[id], b, x, seen + {id});
      case TScalar(s) => AtomExtends(s, b, x);
      case TBytes => StringExtends(b, x);
      case TPtr(e) =>
        if b[0] != NIL {
          DecodeExtends(env, e, b, x, seen);
        }
      case TSlice(e) =>
        LenExtends(ARRAY, b, x);
        if b[0] != NIL {
          var (n, rest) := GetLen(ARRAY, b).value;
          ItemsExtend(env, e, n, rest, x);
        }
      case TArray(_, e) =>
        LenExtends(ARRAY, b, x);
        var (n, rest) := GetLen(ARRAY, b).value;
        ItemsExtend(env, e, n, rest, x);
      case TMap(k, e) =>
        LenExtends(MAP, b, x);
        if b[0] != NIL {
          var (n, rest) := GetLen(MAP, b).value;
          EntriesExtend(env, k, e, n, rest, [], x);
        }
      case TStruct(ts) =>
        LenExtends(ARRAY, b, x);
        var (n, rest) := ArrayLen(b).value;
        FieldsExtend(env, ts, rest, x);
    }
  }

  lemma {:induction false} ItemsExtend(env: Env, e: Type, n: nat, b: seq<Byte>, x: seq<Byte>)
    ensures Extends(DecodeItems(env, e, n, b), DecodeItems(env, e, n, b + x), x)
    decreases |b|, 1
  {
    if n > 0 && Decode(env, e, b, {}).Some? {
      DecodeExtends(env, e, b, x, {});
      ItemsExtend(env, e, n - 1, Decode(env, e, b, {}).value.1, x);
    }
  }

  lemma {:induction false} FieldsExtend(env: Env, ts: seq<Type>, b: seq<Byte>, x: seq<Byte>)
    ensures Extends(DecodeFields(env, ts, b), DecodeFields(env, ts, b + x), x)
    decreases |b|, 1
  {
    if ts != [] && Decode(env, ts[0], b, {}).Some? {
      DecodeExtends(env, ts[0], b, x, {});
      FieldsExtend(env, ts[1..], Decode(env, ts[0], b, {}).value.1, x);
    }
  }

  lemma {:induction false} EntryExtends(env: Env, k: Scalar, e: Type, b: seq<Byte>, x: seq<Byte>)
    ensures Extends(DecodeEntry(env, k, e, b), DecodeEntry(env, k, e, b + x), x)
    decreases |b|, 1
  {
    AtomExtends(k, b, x);
    if DecodeAtom(k, b).Some? {
      DecodeExtends(env, e, DecodeAtom(k, b).value.1, x, {});
    }
  }

  lemma {:induction false} EntriesExtend(env: Env, k: Scalar, e: Type, n: nat, b: seq<Byte>, got: seq<Entry>, x: seq<Byte>)
    ensures Extends(DecodeEntries(env, k, e, n, b, got), DecodeEntries(env, k, e, n, b + x, got), x)
    decreases |b|, 2
  {
    EntryExtends(env, k, e, b, x);
    if n > 0 && DecodeEntry(env, k, e, b).Some? {
      var (entry, rest) := DecodeEntry(env, k, e, b).value;
      EntriesExtend(env, k, e, n - 1, rest, Put(got, entry.key, entry.value), x);
    }
  }

  /** A value cut short anywhere is rejected. */
  lemma {:induction false} CutValueIsRejected(env: Env, t: Type, v: Value, n: nat)
    requires HasType(env, t, v) && n < |Encode(env, t, v)|
    ensures Decode(env, t, Encode(env, t, v)[..n], {}).None?
  {
    var b := Encode(env, t, v);
    assert b[..n] + b[n..] == b && b + [] == b;
    ValueReadsBack(env, t, v, []);
    DecodeExtends(env, t, b[..n], b[n..], {});
  }

  // ---------------------------------------------------------------- messages

  datatype Failure = NotAnArray | BadName | FieldCount(expected: nat, got: nat) | BadField

  datatype Result<+T> = Ok(value: T) | Err(error: Failure)

  datatype Body = Body(fields: seq<Byte>, count: nat)

  datatype Message = Message(name: seq<Byte>, values: seq<Value>)

  predicate IsMessage(env: Env, ts: seq<Type>, m: Message) {
    |m.name| < U32 && |ts| + 1 < U32 && FieldsHave(env, ts, m.values)
  }

  function EncodeMessage(env: Env, ts: seq<Type>, m: Message): seq<Byte>
    requires IsMessage(env, ts, m)
  {
    PutLen(ARRAY, 1 + |ts|) + PutString(m.name) + EncodeFields(env, ts, m.values)
  }

  /** `decodeCompactEnvelope`. */
  function DecodeEnvelope(b: seq<Byte>): Result<(seq<Byte>, Body)> {
    match GetLen(ARRAY, b)
    case None => Err(NotAnArray)
    case Some((n, rest)) =>
      if n == 0 then Err(NotAnArray)
      else
        match ReadString(rest)
        case None => Err(BadName)
        case Some((name, fields)) => Ok((name, Body(fields, n - 1)))
  }

  /** `decodeCompactInto`, with the bytes it leaves unread. */
  function DecodeInto(env: Env, body: Body, ts: seq<Type>): Result<(seq<Value>, seq<Byte>)> {
    if body.count != |ts| then Err(FieldCount(|ts|, body.count))
    else
      match DecodeFields(env, ts, body.fields)
      case None => Err(BadField)
      case Some(r) => Ok(r)
  }

  function DecodeMessage(env: Env, ts: seq<Type>, b: seq<Byte>): Result<(Message, seq<Byte>)> {
    match DecodeEnvelope(b)
    case Err(e) => Err(e)
    case Ok((name, body)) =>
      match DecodeInto(env, body, ts)
      case Err(e) => Err(e)
      case Ok((vs, left)) => Ok((Message(name, vs), left))
  }

  lemma {:induction false} EnvelopeReadsBack(env: Env, ts: seq<Type>, m: Message)
    requires IsMessage(env, ts, m)
    ensures DecodeEnvelope(EncodeMessage(env, ts, m)) == Ok((m.name, Body(EncodeFields(env, ts, m.values), |ts|)))
  {
    var fields := EncodeFields(env, ts, m.values);
    var rest := PutString(m.name) + fields;
    assert EncodeMessage(env, ts, m) == PutLen(ARRAY, 1 + |ts|) + rest;
    LenReadsBack(ARRAY, 1 + |ts|, rest);
    StringReadsBack(m.name, fields);
  }

  /** The wire name comes back, every byte is taken, and the fields come back unless one holds a pointer to nil. */
  lemma {:induction false} MessageReadsBack(env: Env, ts: seq<Type>, m: Message)
    requires IsMessage(env, ts, m)
    ensures DecodeMessage(env, ts, EncodeMessage(env, ts, m)) == Ok((Message(m.name, CollapsedItems(m.values)), []))
    ensures DecodeMessage(env, ts, EncodeMessage(env, ts, m)) == Ok((m, [])) <==>
            forall x :: x in m.values ==> NoPointerToNil(x)
  {
    EnvelopeReadsBack(env, ts, m);
    FieldsReadBack(env, ts, m.values, []);
    assert EncodeFields(env, ts, m.values) + [] == EncodeFields(env, ts, m.values);
    CollapsedItemsIdentity(m.values);
  }

  /** A payload that is no array, an empty one, or one that does not start with a name is no message. */
  lemma {:induction false} NoMessage(ts: seq<Type>, env: Env, b: seq<Byte>, rest: seq<Byte>)
    requires b == [] || b[0] < 0x90 || 0xA0 <= b[0] < 0xDC || b[0] > 0xDD
    ensures DecodeMessage(env, ts, b) == Err(NotAnArray)
    ensures DecodeMessage(env, ts, [0x90] + rest) == Err(NotAnArray)
    ensures DecodeMessage(env, ts, [0x91, 0xC3] + rest) == Err(BadName)
  {
    HeaderCodes(b);
    var c := [0x91, 0xC3] + rest;
    assert c[0] == 0x91 && c[1..] == [0xC3] + rest;
    HeaderCodes(c[1..]);
    assert ([0x90] + rest)[0] == 0x90;
  }

  /** A message read as a type with another number of fields is refused with both counts. */
  lemma {:induction false} OtherFieldCountIsRefused(env: Env, ts: seq<Type>, m: Message, us: seq<Type>)
    requires IsMessage(env, ts, m) && |us| != |ts|
    ensures DecodeMessage(env, us, EncodeMessage(env, ts, m)) == Err(FieldCount(|us|, |ts|))
  {
    EnvelopeReadsBack(env, ts, m);
  }

  lemma {:induction false} MessageExtends(env: Env, ts: seq<Type>, b: seq<Byte>, x: seq<Byte>)
    requires DecodeMessage(env, ts, b).Ok?
    ensures DecodeMessage(env, ts, b + x) == Ok((DecodeMessage(env, ts, b).value.0, DecodeMessage(env, ts, b).value.1 + x))
  {
    LenExtends(ARRAY, b, x);
    var (n, rest) := GetLen(ARRAY, b).value;
    StringExtends(rest, x);
    var (name, fields) := ReadString(rest).value;
    FieldsExtend(env, ts, fields, x);
  }

  /** A message cut short anywhere is rejected. */
  lemma {:induction false} CutMessageIsRejected(env: Env, ts: seq<Type>, m: Message, n: nat)
    requires IsMessage(env, ts, m) && n < |EncodeMessage(env, ts, m)|
    ensures DecodeMessage(env, ts, EncodeMessage(env, ts, m)[..n]).Err?
  {
    var b := EncodeMessage(env, ts, m);
    MessageReadsBack(env, ts, m);
    assert b[..n] + b[n..] == b;
    if DecodeMessage(env, ts, b[..n]).Ok? {
      MessageExtends(env, ts, b[..n], b[n..]);
    }
  }

  // ---------------------------------------------------------------- the encoder

  class Encoder {
    var buf: seq<Byte>

    constructor ()
      ensures buf == []
    {
      buf := [];
    }

    method EncodeCompactValue(env: Env, t: Type, v: Value)
      requires HasType(env, t, v)
      modifies this
      ensures buf == old(buf) + Encode(env, t, v)
      decreases v
    {
      if v.VNil? {
        buf := buf + [NIL];
      } else {
        match Resolve(env, t)
        case TScalar(s) => buf := buf + EncodeAtom(s, v.a);
        case TBytes => buf := buf + PutBytes(v.s);
        case TPtr(e) => EncodeCompactValue(env, e, v.target);
        case TSlice(e) =>
          Regroup(buf, PutLen(ARRAY, |v.items|), EncodeItems(env, e, v.items));
          EncodeCompactElements(env, e, v.items);
        case TArray(_, e) =>
          Regroup(buf, PutLen(ARRAY, |v.items|), EncodeItems(env, e, v.items));
          EncodeCompactElements(env, e, v.items);
        case TMap(k, e) =>
          Regroup(buf, PutLen(MAP, |v.entries|), EncodeEntries(env, k, e, v.entries));
          EncodeCompactMap(env, k, e, v.entries);
        case TStruct(ts) =>
          Regroup(buf, PutLen(ARRAY, |ts|), EncodeFields(env, ts, v.items));
          buf := buf + PutLen(ARRAY, |ts|);
          EncodeCompactFields(env, ts, v.items);
      }
    }

    method EncodeCompactElements(env: Env, e: Type, vs: seq<Value>)
      requires |vs| < U32 && ItemsHave(env, e, vs)
      modifies this
      ensures buf == old(buf) + PutLen(ARRAY, |vs|) + EncodeItems(env, e, vs)
      decreases vs
    {
      buf := buf + PutLen(ARRAY, |vs|);
      ghost var whole := buf + EncodeItems(env, e, vs);
      assert vs[0..] == vs;
      for i := 0 to |vs|
        invariant ItemsHave(env, e, vs[i..])
        invariant buf + EncodeItems(env, e, vs[i..]) == whole
      {
        assert vs[i..][1..] == vs[i + 1..];
        Regroup(buf, Encode(env, e, vs[i]), EncodeItems(env, e, vs[i + 1..]));
        EncodeCompactValue(env, e, vs[i]);
      }
    }

    method EncodeCompactFields(env: Env, ts: seq<Type>, vs: seq<Value>)
      requires FieldsHave(env, ts, vs)
      modifies this
      ensures buf == old(buf) + EncodeFields(env, ts, vs)
      decreases vs
    {
      ghost var whole := buf + EncodeFields(env, ts, vs);
      assert vs[0..] == vs && ts[0..] == ts;
      for i := 0 to |ts|
        invariant FieldsHave(env, ts[i..], vs[i..])
        invariant buf + EncodeFields(env, ts[i..], vs[i..]) == whole
      {
        assert vs[i..][1..] == vs[i + 1..] && ts[i..][1..] == ts[i + 1..];
        Regroup(buf, Encode(env, ts[i], vs[i]), EncodeFields(env, ts[i + 1..], vs[i + 1..]));
        EncodeCompactValue(env, ts[i], vs[i]);
      }
    }

    method EncodeCompactMap(env: Env, k: Scalar, e: Type, es: seq<Entry>)
      requires |es| < U32 && EntriesHave(env, k, e, es)
      modifies this
      ensures buf == old(buf) + PutLen(MAP, |es|) + EncodeEntries(env, k, e, es)
      decreases es
    {
      buf := buf + PutLen(MAP, |es|);
      ghost var whole := buf + EncodeEntries(env, k, e, es);
      assert es[0..] == es;
      for i := 0 to |es|
        invariant EntriesHave(env, k, e, es[i..])
        invariant buf + EncodeEntries(env, k, e, es[i..]) == whole
      {
        assert es[i..][1..] == es[i + 1..];
        Regroup(buf, EncodeEntry(env, k, e, es[i]), EncodeEntries(env, k, e, es[i + 1..]));
        EncodeCompactEntry(env, k, e, es[i]);
      }
    }

    method EncodeCompactEntry(env: Env, k: Scalar, e: Type, x: Entry)
      requires EntryHas(env, k, e, x)
      modifies this
      ensures buf == old(buf) + EncodeEntry(env, k, e, x)
      decreases x
    {
      Regroup(buf, EncodeAtom(k, x.key), Encode(env, e, x.value));
      buf := buf + EncodeAtom(k, x.key);
      EncodeCompactValue(env, e, x.value);
    }

    /** `encodeCompact`. */
    method EncodeCompact(env: Env, ts: seq<Type>, m: Message)
      requires IsMessage(env, ts, m)
      modifies this
      ensures buf == EncodeMessage(env, ts, m)
    {
      buf := PutLen(ARRAY, 1 + |ts|);
      buf := buf + PutString(m.name);
      EncodeCompactFields(env, ts, m.values);
    }
  }

  // ---------------------------------------------------------------- the decoder

  lemma {:induction false} PrependNothing<T>(r: Read<seq<T>>)
    ensures Prepend([], r) == r
  {
    if r.Some? {
      assert [] + r.value.0 == r.value.0;
    }
  }

  lemma {:induction false} PrependTwice<T>(a: seq<T>, b: seq<T>, r: Read<seq<T>>)
    ensures Prepend(a, Prepend(b, r)) == Prepend(a + b, r)
  {
    if r.Some? {
      Regroup(a, b, r.value.0);
    }
  }

  class Decoder {
    var rest: seq<Byte>

    constructor (input: seq<Byte>)
      ensures rest == input
    {
      rest := input;
    }

    /** The step's answer and what it leaves are those of `r`. */
    ghost predicate Took<T(!new)>(out: Option<T>, r: Read<T>)
      reads this
    {
      match r
      case None => out.None?
      case Some((v, left)) => out == Some(v) && rest == left
    }

    method ReadLen(r: Read<nat>) returns (out: Option<nat>)
      modifies this
      ensures Took(out, r)
    {
      match r {
        case None => out := None;
        case Some((n, left)) =>
          rest := left;
          out := Some(n);
      }
    }

    method DecodeCompactValue(env: Env, t: Type, seen: set<nat>) returns (out: Option<Value>)
      modifies this
      ensures Took(out, Decode(env, t, old(rest), seen))
      decreases |rest|, 0, Ids(|env|) - seen, t
    {
      out := None;
      if rest == [] {
        return;
      }
      if t.TNamed? {
        if t.id < |env| && t.id !in seen {
          out := DecodeCompactValue(env, env[t.id], seen + {t.id});
        }
        return;
      }
      if rest[0] == NIL {
        if t.TBytes? || t.TPtr? || t.TSlice? || t.TMap? {
          rest := rest[1..];
          return Some(VNil);
        }
        if !t.TStruct? {
          return;
        }
      }
      match t {
        case TScalar(s) =>
          match DecodeAtom(s, rest) {
            case None =>
            case Some((a, left)) =>
              rest := left;
              out := Some(VAtom(a));
          }
        case TBytes =>
          match ReadString(rest) {
            case None =>
            case Some((s, left)) =>
              rest := left;
              out := Some(VBytes(s));
          }
        case TPtr(e) =>
          var v := DecodeCompactValue(env, e, seen);
          if v.Some? {
            out := Some(VPtr(v.value));
          }
        case TStruct(ts) =>
          var n := ReadLen(ArrayLen(rest));
          if n == Some(|ts|) {
            out := DecodeCompactFields(env, ts);
          }
        case TSlice(e) =>
          var n := ReadLen(GetLen(ARRAY, rest));
          if n.Some? {
            out := DecodeCompactItems(env, e, n.value);
          }
        case TArray(len, e) =>
          var n := ReadLen(GetLen(ARRAY, rest));
          if n == Some(len) {
            out := DecodeCompactItems(env, e, len);
          }
        case TMap(k, e) =>
          var n := ReadLen(GetLen(MAP, rest));
          if n.Some? {
            out := DecodeCompactMap(env, k, e, n.value);
          }
      }
    }

    /** The loop of slices and arrays. */
    method DecodeCompactItems(env: Env, e: Type, n: nat) returns (out: Option<Value>)
      modifies this
      ensures Took(out, AsList(DecodeItems(env, e, n, old(rest))))
      decreases |rest|, 1
    {
      ghost var whole := DecodeItems(env, e, n, rest);
      var vs: seq<Value> := [];
      PrependNothing(whole);
      for i := 0 to n
        invariant |rest| <= |old(rest)|
        invariant whole == Prepend(vs, DecodeItems(env, e, n - i, rest))
      {
        var v := DecodeCompactValue(env, e, {});
        if v.None? {
          return None;
        }
        PrependTwice(vs, [v.value], DecodeItems(env, e, n - i - 1, rest));
        vs := vs + [v.value];
      }
      assert vs + [] == vs;
      out := Some(VList(vs));
    }

    /** The loop of structs and messages. */
    method DecodeCompactFields(env: Env, ts: seq<Type>) returns (out: Option<Value>)
      modifies this
      ensures Took(out, AsList(DecodeFields(env, ts, old(rest))))
      decreases |rest|, 1
    {
      ghost var whole := DecodeFields(env, ts, rest);
      var vs: seq<Value> := [];
      PrependNothing(whole);
      assert ts[0..] == ts;
      for i := 0 to |ts|
        invariant |rest| <= |old(rest)|
        invariant whole == Prepend(vs, DecodeFields(env, ts[i..], rest))
      {
        assert ts[i..][0] == ts[i] && ts[i..][1..] == ts[i + 1..];
        var v := DecodeCompactValue(env, ts[i], {});
        if v.None? {
          return None;
        }
        PrependTwice(vs, [v.value], DecodeFields(env, ts[i + 1..], rest));
        vs := vs + [v.value];
      }
      assert vs + [] == vs;
      out := Some(VList(vs));
    }

    method DecodeCompactMap(env: Env, k: Scalar, e: Type, n: nat) returns (out: Option<Value>)
      modifies this
      ensures Took(out, AsMap(DecodeEntries(env, k, e, n, old(rest), [])))
      decreases |rest|, 1
    {
      var es: seq<Entry> := [];
      for i := 0 to n
        invariant |rest| <= |old(rest)|
        invariant DecodeEntries(env, k, e, n, old(rest), []) == DecodeEntries(env, k, e, n - i, rest, es)
      {
        match DecodeAtom(k, rest) {
          case None => return None;
          case Some((a, left)) =>
            rest := left;
            var v := DecodeCompactValue(env, e, {});
            if v.None? {
              return None;
            }
            es := Put(es, a, v.value);
        }
      }
      out := Some(VMap(es));
    }
  }
}
