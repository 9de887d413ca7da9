/** Bytes and the big-endian integers of the wire formats. */
module Bytes {

  type Byte = x: int | 0 <= x < 256

  function Pow256(n: nat): (r: nat)
    ensures r > 0
  {
    if n == 0 then 1 else 256 * Pow256(n - 1)
  }

  /** `v` as `n` bytes, most significant first; higher digits of `v` are cut off. */
  function PutBE(v: nat, n: nat): (r: seq<Byte>)
    ensures |r| == n
  {
    if n == 0 then [] else PutBE(v / 256, n - 1) + [v % 256]
  }

  function GetBE(b: seq<Byte>): nat {
    if b == [] then 0 else 256 * GetBE(b[..|b| - 1]) + b[|b| - 1]
  }

  lemma {:induction false} GetPutBE(v: nat, n: nat)
    requires v < Pow256(n)
    ensures GetBE(PutBE(v, n)) == v
  {
    if n > 0 {
      assert v / 256 < Pow256(n - 1);
      GetPutBE(v / 256, n - 1);
      assert PutBE(v, n)[..n - 1] == PutBE(v / 256, n - 1);
    }
  }

  /** The bytes themselves, most significant first. */
  lemma {:induction false} BytesOf(v: nat)
    ensures PutBE(v, 1) == [v % 256]
    ensures PutBE(v, 2) == [v / 256 % 256, v % 256]
    ensures PutBE(v, 4) == [v / 0x100_0000 % 256, v / 0x1_0000 % 256, v / 256 % 256, v % 256]
  {
    assert PutBE(v / 0x100_0000, 1) == PutBE(v / 0x100_0000 / 256, 0) + [v / 0x100_0000 % 256];
    assert v / 256 / 256 == v / 0x1_0000 && v / 256 / 256 / 256 == v / 0x100_0000;
    assert PutBE(v, 2) == PutBE(v / 256, 1) + [v % 256] && PutBE(v / 256, 1) == PutBE(v / 256 / 256, 0) + [v / 256 % 256];
    assert PutBE(v, 3) == PutBE(v / 256, 2) + [v % 256];
    assert PutBE(v, 4) == PutBE(v / 256, 3) + [v % 256];
    assert PutBE(v / 256, 3) == PutBE(v / 256 / 256, 2) + [v / 256 % 256];
    assert PutBE(v / 0x1_0000, 2) == PutBE(v / 0x100_0000, 1) + [v / 0x1_0000 % 256];
  }

  /** Four bytes, most significant first. */
  function Four(v: nat): seq<Byte> { [v / 0x100_0000 % 256, v / 0x1_0000 % 256, v / 256 % 256, v % 256] }

  lemma {:induction false} FourOf(v: nat)
    ensures PutBE(v, 4) == Four(v)
  {
    BytesOf(v);
  }

  lemma {:induction false} OneMore(b: seq<Byte>, x: Byte)
    ensures GetBE(b + [x]) == 256 * GetBE(b) + x
  {
    assert (b + [x])[..|b|] == b;
  }

  /** The number that four bytes stand for. */
  lemma {:induction false} FourBytes(a: Byte, b: Byte, c: Byte, d: Byte)
    ensures GetBE([a, b, c, d]) == 0x100_0000 * a + 0x1_0000 * b + 0x100 * c + d
  {
    OneMore([], a);
    OneMore([a], b);
    OneMore([a, b], c);
    OneMore([a, b, c], d);
    assert [] + [a] == [a] && [a] + [b] == [a, b] && [a, b] + [c] == [a, b, c] && [a, b, c] + [d] == [a, b, c, d];
  }

  lemma {:induction false} PutGetBE(b: seq<Byte>)
    ensures PutBE(GetBE(b), |b|) == b
  {
    if b != [] {
      PutGetBE(b[..|b| - 1]);
      assert b == b[..|b| - 1] + [b[|b| - 1]];
    }
  }
}
