/** The MessagePack formats that the compact codec uses: nil, bool, int, float, str, bin, and the headers of array
    and map, as in the "Formats" section of the MessagePack specification. */
module MsgPack {

  import opened Prelude
  import opened Bytes
  import opened Framing

  const NIL: Byte := 0xC0

  /** What a reader takes from the front of its input, and what is left. */
  type Read<T> = Option<(T, seq<Byte>)>

  /** An unsigned integer of `n` bytes. */
  function ReadUint(b: seq<Byte>, n: nat): (r: Read<nat>)
    ensures r.Some? ==> |r.value.1| == |b| - n
  {
    if |b| < n then None else Some((GetBE(b[..n]), b[n..]))
  }

  function ReadRaw(b: seq<Byte>, n: nat): (r: Read<seq<Byte>>)
    ensures r.Some? ==> |r.value.1| == |b| - n
  {
    if |b| < n then None else Some((b[..n], b[n..]))
  }

  // ---------------------------------------------------------------- lengths

  /** A header family: lengths below `fixed` fit in the first byte above `base`; the 8-bit form exists only for
      strings and bytes. */
  datatype Family = Family(base: Byte, fixed: nat, code8: Option<Byte>, code16: Byte, code32: Byte)

  const ARRAY := Family(0x90, 16, None, 0xDC, 0xDD)
  const MAP := Family(0x80, 16, None, 0xDE, 0xDF)
  const STR := Family(0xA0, 32, Some(0xD9), 0xDA, 0xDB)
  const BIN := Family(0xC4, 0, Some(0xC4), 0xC5, 0xC6)

  predicate IsFamily(f: Family) { f == ARRAY || f == MAP || f == STR || f == BIN }

  function PutLen(f: Family, n: nat): (r: seq<Byte>)
    requires IsFamily(f) && n < U32
    ensures |r| > 0 && r[0] != NIL
  {
    if n < f.fixed then [f.base + n]
    else if f.code8.Some? && n < 0x100 then [f.code8.value, n]
    else if n < 0x1_0000 then [f.code16] + PutBE(n, 2)
    else [f.code32] + PutBE(n, 4)
  }

  /** For arrays, `readArrayHeader`. */
  function GetLen(f: Family, b: seq<Byte>): (r: Read<nat>)
    ensures r.Some? ==> |r.value.1| < |b|
  {
    if b == [] then None
    else if f.base <= b[0] < f.base + f.fixed then Some((b[0] - f.base, b[1..]))
    else if f.code8 == Some(b[0]) then ReadUint(b[1..], 1)
    else if b[0] == f.code16 then ReadUint(b[1..], 2)
    else if b[0] == f.code32 then ReadUint(b[1..], 4)
    else None
  }

  lemma {:induction false} UintReadsBack(v: nat, n: nat, rest: seq<Byte>)
    requires v < Pow256(n)
    ensures ReadUint(PutBE(v, n) + rest, n) == Some((v, rest))
  {
    var b := PutBE(v, n) + rest;
    GetPutBE(v, n);
    assert b[..n] == PutBE(v, n) && b[n..] == rest;
  }

  /** Every length reads back, in every size class. */
  lemma {:induction false} LenReadsBack(f: Family, n: nat, rest: seq<Byte>)
    requires IsFamily(f) && n < U32
    ensures GetLen(f, PutLen(f, n) + rest) == Some((n, rest))
  {
    var b := PutLen(f, n) + rest;
    Pow256Values();
    assert b[0] == PutLen(f, n)[0];
    if n < f.fixed {
      assert b[1..] == rest;
    } else if f.code8.Some? && n < 0x100 {
      UintReadsBack(n, 1, rest);
      assert PutBE(n, 1) == [n] by { assert PutBE(n / 256, 0) == []; }
      assert b[1..] == PutBE(n, 1) + rest;
    } else if n < 0x1_0000 {
      UintReadsBack(n, 2, rest);
      assert b[1..] == PutBE(n, 2) + rest;
    } else {
      UintReadsBack(n, 4, rest);
      assert b[1..] == PutBE(n, 4) + rest;
    }
  }

  /** The bytes of every header, as in the MessagePack specification. */
  lemma {:induction false} HeaderBytes(n: nat)
    requires n < U32
    ensures var two, four := [n / 256, n % 256], [n / 0x100_0000, n / 0x1_0000 % 256, n / 256 % 256, n % 256];
            && PutLen(ARRAY, n) == (if n < 16 then [0x90 + n] else if n < 0x1_0000 then [0xDC] + two else [0xDD] + four)
            && PutLen(MAP, n) == (if n < 16 then [0x80 + n] else if n < 0x1_0000 then [0xDE] + two else [0xDF] + four)
            && PutLen(STR, n) == (if n < 32 then [0xA0 + n] else if n < 256 then [0xD9, n]
                                  else if n < 0x1_0000 then [0xDA] + two else [0xDB] + four)
            && PutLen(BIN, n) == (if n < 256 then [0xC4, n] else if n < 0x1_0000 then [0xC5] + two else [0xC6] + four)
  {
    BytesOf(n);
  }

  /** Only its own codes start a header. */
  lemma {:induction false} HeaderCodes(b: seq<Byte>)
    ensures GetLen(ARRAY, b).Some? ==> b != [] && (0x90 <= b[0] <= 0x9F || b[0] == 0xDC || b[0] == 0xDD)
    ensures GetLen(MAP, b).Some? ==> b != [] && (0x80 <= b[0] <= 0x8F || b[0] == 0xDE || b[0] == 0xDF)
    ensures GetLen(STR, b).Some? ==> b != [] && (0xA0 <= b[0] <= 0xBF || 0xD9 <= b[0] <= 0xDB)
    ensures GetLen(BIN, b).Some? ==> b != [] && 0xC4 <= b[0] <= 0xC6
    ensures GetInt(b).Some? ==> b != [] && (b[0] < 0x80 || b[0] >= 0xE0 || 0xCC <= b[0] <= 0xD3)
  {
  }

  /** `readStringValue`: a string, or bytes in its place. */
  function ReadString(b: seq<Byte>): (r: Read<seq<Byte>>)
    ensures r.Some? ==> |r.value.1| < |b|
  {
    var len := if GetLen(STR, b).Some? then GetLen(STR, b) else GetLen(BIN, b);
    match len
    case None => None
    case Some((n, rest)) => ReadRaw(rest, n)
  }

  function PutString(s: seq<Byte>): (r: seq<Byte>)
    requires |s| < U32
    ensures |r| > 0 && r[0] != NIL
  {
    PutLen(STR, |s|) + s
  }

  function PutBytes(s: seq<Byte>): (r: seq<Byte>)
    requires |s| < U32
    ensures |r| > 0 && r[0] != NIL
  {
    PutLen(BIN, |s|) + s
  }

  lemma {:induction false} StringReadsBack(s: seq<Byte>, rest: seq<Byte>)
    requires |s| < U32
    ensures ReadString(PutString(s) + rest) == Some((s, rest))
  {
    assert PutString(s) + rest == PutLen(STR, |s|) + (s + rest);
    LenReadsBack(STR, |s|, s + rest);
    assert (s + rest)[..|s|] == s && (s + rest)[|s|..] == rest;
  }

  lemma {:induction false} BytesReadBack(s: seq<Byte>, rest: seq<Byte>)
    requires |s| < U32
    ensures ReadString(PutBytes(s) + rest) == Some((s, rest))
  {
    var b := PutLen(BIN, |s|) + (s + rest);
    assert PutBytes(s) + rest == b;
    LenReadsBack(BIN, |s|, s + rest);
    assert b[0] == PutLen(BIN, |s|)[0];
    assert GetLen(STR, b).None?;
    assert (s + rest)[..|s|] == s && (s + rest)[|s|..] == rest;
  }

  // ---------------------------------------------------------------- integers

  /** Two's complement in `n` bytes. */
  function PutInt(v: int, n: nat): (r: seq<Byte>)
    requires 0 <= v + Pow256(n) && v < Pow256(n)
    ensures |r| == n
  {
    PutBE(if v < 0 then v + Pow256(n) else v, n)
  }

  function ReadInt(b: seq<Byte>, n: nat): (r: Read<int>)
    ensures r.Some? ==> |r.value.1| == |b| - n
  {
    match ReadUint(b, n)
    case None => None
    case Some((u, rest)) => Some((if 2 * u >= Pow256(n) then u - Pow256(n) else u, rest))
  }

  predicate FitsSigned(v: int, n: nat) { 0 <= 2 * v + Pow256(n) && 2 * v < Pow256(n) }

  predicate FitsUnsigned(v: int, n: nat) { 0 <= v < Pow256(n) }

  /** The shortest form of an integer. */
  function PutCompact(v: int): (r: seq<Byte>)
    requires FitsSigned(v, 8) || FitsUnsigned(v, 8)
    ensures |r| > 0 && r[0] != NIL
  {
    if 0 <= v < 128 then [v]
    else if FitsUnsigned(v, 1) then [0xCC] + PutInt(v, 1)
    else if FitsUnsigned(v, 2) then [0xCD] + PutInt(v, 2)
    else if FitsUnsigned(v, 4) then [0xCE] + PutInt(v, 4)
    else if v >= 0 then [0xCF] + PutInt(v, 8)
    else if v >= -32 then [256 + v]
    else if FitsSigned(v, 1) then [0xD0] + PutInt(v, 1)
    else if FitsSigned(v, 2) then [0xD1] + PutInt(v, 2)
    else if FitsSigned(v, 4) then [0xD2] + PutInt(v, 4)
    else [0xD3] + PutInt(v, 8)
  }

  predicate IsWidth(n: nat) { n == 1 || n == 2 || n == 4 || n == 8 }

  /** The code of a fixed-width integer. */
  function IntCode(signed: bool, n: nat): (c: Byte)
    requires IsWidth(n)
    ensures 0xCC <= c <= 0xD3
  {
    (if signed then 0xD0 else 0xCC) + (if n == 1 then 0 else if n == 2 then 1 else if n == 4 then 2 else 3)
  }

  function PutFixed(v: int, signed: bool, n: nat): (r: seq<Byte>)
    requires IsWidth(n) && (if signed then FitsSigned(v, n) else FitsUnsigned(v, n))
    ensures |r| > 0 && r[0] != NIL
  {
    [IntCode(signed, n)] + PutInt(v, n)
  }

  /** An integer in any of its forms. */
  function GetInt(b: seq<Byte>): (r: Read<int>)
    ensures r.Some? ==> |r.value.1| < |b|
  {
    if b == [] then None
    else if b[0] < 128 then Some((b[0], b[1..]))
    else if b[0] >= 0xE0 then Some((b[0] as int - 256, b[1..]))
    else if b[0] == 0xCC then ReadUint(b[1..], 1)
    else if b[0] == 0xCD then ReadUint(b[1..], 2)
    else if b[0] == 0xCE then ReadUint(b[1..], 4)
    else if b[0] == 0xCF then ReadUint(b[1..], 8)
    else if b[0] == 0xD0 then ReadInt(b[1..], 1)
    else if b[0] == 0xD1 then ReadInt(b[1..], 2)
    else if b[0] == 0xD2 then ReadInt(b[1..], 4)
    else if b[0] == 0xD3 then ReadInt(b[1..], 8)
    else None
  }

  lemma {:induction false} IntReadsBack(v: int, n: nat, rest: seq<Byte>)
    requires FitsSigned(v, n)
    ensures ReadInt(PutInt(v, n) + rest, n) == Some((v, rest))
  {
    UintReadsBack(if v < 0 then v + Pow256(n) else v, n, rest);
  }

  /** The body of a fixed-width integer, in whatever width. */
  function ReadBody(b: seq<Byte>, signed: bool, n: nat): Read<int> {
    if signed then ReadInt(b, n) else ReadUint(b, n)
  }

  /** The code says how to read the body. */
  lemma {:induction false} CodeSelects(b: seq<Byte>, signed: bool, n: nat)
    requires IsWidth(n) && b != [] && b[0] == IntCode(signed, n)
    ensures GetInt(b) == ReadBody(b[1..], signed, n)
  {
  }

  lemma {:induction false} BodyReadsBack(v: int, signed: bool, n: nat, rest: seq<Byte>)
    requires if signed then FitsSigned(v, n) else FitsUnsigned(v, n)
    ensures ReadBody(PutInt(v, n) + rest, signed, n) == Some((v, rest))
  {
    if signed {
      IntReadsBack(v, n, rest);
    } else {
      UintReadsBack(v, n, rest);
    }
  }

  lemma {:induction false} FixedReadsBack(v: int, signed: bool, n: nat, rest: seq<Byte>)
    requires IsWidth(n) && (if signed then FitsSigned(v, n) else FitsUnsigned(v, n))
    ensures GetInt(PutFixed(v, signed, n) + rest) == Some((v, rest))
  {
    var body := PutInt(v, n) + rest;
    var b := PutFixed(v, signed, n) + rest;
    BodyReadsBack(v, signed, n, rest);
    assert b == [IntCode(signed, n)] + body;
    CodeSelects(b, signed, n);
    assert b[1..] == body;
  }

  lemma {:induction false} CompactReadsBack(v: int, rest: seq<Byte>)
    requires FitsSigned(v, 8) || FitsUnsigned(v, 8)
    ensures GetInt(PutCompact(v) + rest) == Some((v, rest))
  {
    Pow256Values();
    if 0 <= v < 128 {
      assert ([v] + rest)[1..] == rest;
    } else if v >= 0 {
      var n := if FitsUnsigned(v, 1) then 1 else if FitsUnsigned(v, 2) then 2 else if FitsUnsigned(v, 4) then 4 else 8;
      assert PutCompact(v) == PutFixed(v, false, n);
      FixedReadsBack(v, false, n, rest);
    } else if v >= -32 {
      assert ([256 + v] + rest)[1..] == rest;
    } else {
      var n := if FitsSigned(v, 1) then 1 else if FitsSigned(v, 2) then 2 else if FitsSigned(v, 4) then 4 else 8;
      assert PutCompact(v) == PutFixed(v, true, n);
      FixedReadsBack(v, true, n, rest);
    }
  }

  /** The bytes of every integer in its shortest form, from zero up and below. */
  lemma {:induction false} NaturalBytes(v: nat)
    requires v < U64
    ensures FitsUnsigned(v, 8)
    ensures PutCompact(v) ==
            if v < 128 then [v]
            else if v < 256 then [0xCC, v]
            else if v < 0x1_0000 then [0xCD, v / 256, v % 256]
            else if v < U32 then [0xCE, v / 0x100_0000, v / 0x1_0000 % 256, v / 256 % 256, v % 256]
            else [0xCF] + PutBE(v, 8)
  {
    Pow256Values();
    BytesOf(v);
  }

  lemma {:induction false} NegativeBytes(v: int)
    requires -0x8000_0000_0000_0000 <= v < 0
    ensures FitsSigned(v, 8)
    ensures PutCompact(v) ==
            if v >= -32 then [256 + v]
            else if v >= -128 then [0xD0, 256 + v]
            else if v >= -0x8000 then [0xD1, (0x1_0000 + v) / 256, (0x1_0000 + v) % 256]
            else if v >= -0x8000_0000 then [0xD2] + PutBE(U32 + v, 4)
            else [0xD3] + PutBE(U64 + v, 8)
  {
    Pow256Values();
    if v >= -128 {
      BytesOf(256 + v);
    } else if v >= -0x8000 {
      BytesOf(0x1_0000 + v);
    }
  }

  lemma {:induction false} IntegerCodes()
    ensures IntCode(false, 1) == 0xCC && IntCode(false, 2) == 0xCD && IntCode(false, 4) == 0xCE && IntCode(false, 8) == 0xCF
    ensures IntCode(true, 1) == 0xD0 && IntCode(true, 2) == 0xD1 && IntCode(true, 4) == 0xD2 && IntCode(true, 8) == 0xD3
  {
  }

  // ---------------------------------------------------------------- readers look only at what they take

  /** A reader's answer does not change when more input follows. */
  ghost predicate Extends<T>(a: Read<T>, b: Read<T>, x: seq<Byte>) {
    a.Some? ==> b == Some((a.value.0, a.value.1 + x))
  }

  lemma {:induction false} UintExtends(b: seq<Byte>, n: nat, x: seq<Byte>)
    ensures Extends(ReadUint(b, n), ReadUint(b + x, n), x) && Extends(ReadRaw(b, n), ReadRaw(b + x, n), x)
  {
    if |b| >= n {
      assert (b + x)[..n] == b[..n] && (b + x)[n..] == b[n..] + x;
    }
  }

  lemma {:induction false} LenExtends(f: Family, b: seq<Byte>, x: seq<Byte>)
    ensures Extends(GetLen(f, b), GetLen(f, b + x), x)
  {
    if b != [] {
      var t := b[1..];
      assert (b + x)[0] == b[0] && (b + x)[1..] == t + x;
      if f.code8 == Some(b[0]) {
        UintExtends(t, 1, x);
      } else if b[0] == f.code16 {
        UintExtends(t, 2, x);
      } else if b[0] == f.code32 {
        UintExtends(t, 4, x);
      }
    }
  }

  lemma {:induction false} IntExtends(b: seq<Byte>, x: seq<Byte>)
    ensures Extends(GetInt(b), GetInt(b + x), x)
  {
    if b != [] {
      var t := b[1..];
      assert (b + x)[0] == b[0] && (b + x)[1..] == t + x;
      if b[0] == 0xCC || b[0] == 0xD0 {
        UintExtends(t, 1, x);
      } else if b[0] == 0xCD || b[0] == 0xD1 {
        UintExtends(t, 2, x);
      } else if b[0] == 0xCE || b[0] == 0xD2 {
        UintExtends(t, 4, x);
      } else {
        UintExtends(t, 8, x);
      }
    }
  }

  lemma {:induction false} StringExtends(b: seq<Byte>, x: seq<Byte>)
    ensures Extends(ReadString(b), ReadString(b + x), x)
  {
    LenExtends(STR, b, x);
    LenExtends(BIN, b, x);
    if b != [] {
      assert (b + x)[0] == b[0];
    }
    if GetLen(STR, b).Some? {
      var (n, rest) := GetLen(STR, b).value;
      UintExtends(rest, n, x);
    } else if GetLen(BIN, b).Some? {
      var (n, rest) := GetLen(BIN, b).value;
      UintExtends(rest, n, x);
      assert GetLen(STR, b + x).None?;
    }
  }
}
