/** Fixed-width unsigned integers and little-endian byte decoding. */
module Bytes {

  newtype u8 = x: int | 0 <= x < 0x100
  newtype u16 = x: int | 0 <= x < 0x1_0000
  newtype u32 = x: int | 0 <= x < 0x1_0000_0000

  function Pow256(n: nat): (r: nat)
    ensures r >= 1
  {
    if n == 0 then 1 else 0x100 * Pow256(n - 1)
  }

  lemma Pow256Four()
    ensures Pow256(1) == 0x100 && Pow256(2) == 0x1_0000 && Pow256(4) == 0x1_0000_0000
  {
  }

  /** The unsigned value of `s` read least significant byte first. */
  function LittleEndian(s: seq<u8>): (r: nat)
    ensures r < Pow256(|s|)
  {
    if s == [] then 0 else s[0] as nat + 0x100 * LittleEndian(s[1..])
  }

  /** The `n` least significant bytes of `x`, least significant first. */
  function LittleEndianBytes(x: nat, n: nat): (r: seq<u8>)
    ensures |r| == n
  {
    if n == 0 then [] else [(x % 0x100) as u8] + LittleEndianBytes(x / 0x100, n - 1)
  }

  lemma {:induction false} LittleEndianRoundTrip(x: nat, n: nat)
    requires x < Pow256(n)
    ensures LittleEndian(LittleEndianBytes(x, n)) == x
  {
    if n > 0 {
      LittleEndianRoundTrip(x / 0x100, n - 1);
      assert LittleEndianBytes(x, n)[1..] == LittleEndianBytes(x / 0x100, n - 1);
    }
  }

  lemma {:induction false} LittleEndianBytesRoundTrip(s: seq<u8>)
    ensures LittleEndianBytes(LittleEndian(s), |s|) == s
  {
    if s != [] {
      var x := LittleEndian(s);
      assert x % 0x100 == s[0] as int && x / 0x100 == LittleEndian(s[1..]);
      LittleEndianBytesRoundTrip(s[1..]);
    }
  }

  lemma LittleEndianOne(s: seq<u8>)
    requires |s| == 1
    ensures LittleEndian(s) == s[0] as nat
  {
    assert s[1..] == [];
  }

  lemma LittleEndianTwo(s: seq<u8>)
    requires |s| == 2
    ensures LittleEndian(s) == s[0] as nat + 0x100 * s[1] as nat
  {
    LittleEndianOne(s[1..]);
  }

  lemma LittleEndianFour(s: seq<u8>)
    requires |s| == 4
    ensures LittleEndian(s) == s[0] as nat + 0x100 * s[1] as nat + 0x1_0000 * s[2] as nat + 0x100_0000 * s[3] as nat
  {
    LittleEndianTwo(s[2..]);
    assert s[1..][1..] == s[2..];
    LittleEndianOne(s[3..]);
  }
}
