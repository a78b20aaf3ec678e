/** Bytes and little-endian 64-bit words. */
module Bytes {
  type Byte = x: int | 0 <= x < 256

  const WORD: nat := 0x1_0000_0000_0000_0000

  // The lowest `k` bytes of a number.
  function Little(k: nat, v: nat): (r: seq<Byte>)
    ensures |r| == k
  {
    if k == 0 then [] else [v % 256] + Little(k - 1, v / 256)
  }

  function Number(s: seq<Byte>): (r: nat) {
    if s == [] then 0 else s[0] + 256 * Number(s[1..])
  }

  function Power(k: nat): (r: nat)
    ensures r >= 1
  {
    if k == 0 then 1 else 256 * Power(k - 1)
  }

  lemma {:induction false} NumberOfLittle(k: nat, v: nat)
    requires v < Power(k)
    ensures Number(Little(k, v)) == v
  {
    if k > 0 {
      assert Little(k, v)[1..] == Little(k - 1, v / 256);
      NumberOfLittle(k - 1, v / 256);
    }
  }

  lemma PowerIs8()
    ensures Power(8) == WORD
  {
    assert Power(2) == 0x1_0000;
    assert Power(4) == 0x1_0000_0000 by { assert Power(3) == 0x100_0000; }
    assert Power(6) == 0x1_0000_0000_0000 by { assert Power(5) == 0x100_0000_0000; }
  }

  function Word(v: nat): (r: seq<Byte>)
    ensures |r| == 8
  {
    Little(8, v)
  }

  lemma WordRoundTrip(v: nat)
    requires v < WORD
    ensures Number(Word(v)) == v
  {
    PowerIs8();
    NumberOfLittle(8, v);
  }

  // The bytes of a word, lowest first.
  lemma WordBytes(v: nat)
    ensures Word(v) == [v % 256, v / 256 % 256, v / 256 / 256 % 256, v / 256 / 256 / 256 % 256] + Little(4, v / 256 / 256 / 256 / 256)
    ensures Little(4, v) == [v % 256, v / 256 % 256, v / 256 / 256 % 256, v / 256 / 256 / 256 % 256]
  {
    LittleFour(v, 4);
    LittleFour(v, 0);
  }

  lemma LittleFour(v: nat, k: nat)
    ensures Little(k + 4, v) == [v % 256, v / 256 % 256, v / 256 / 256 % 256, v / 256 / 256 / 256 % 256] + Little(k, v / 256 / 256 / 256 / 256)
  {
    assert Little(k + 4, v) == [v % 256] + Little(k + 3, v / 256);
    assert Little(k + 3, v / 256) == [v / 256 % 256] + Little(k + 2, v / 256 / 256);
    assert Little(k + 2, v / 256 / 256) == [v / 256 / 256 % 256] + Little(k + 1, v / 256 / 256 / 256);
    assert Little(k + 1, v / 256 / 256 / 256) == [v / 256 / 256 / 256 % 256] + Little(k, v / 256 / 256 / 256 / 256);
  }

  lemma {:induction false} ZeroNumber(s: seq<Byte>)
    ensures Number(s) == 0 <==> forall i :: 0 <= i < |s| ==> s[i] == 0
  {
    if s != [] {
      ZeroNumber(s[1..]);
    }
  }

  // A number below 256 is its lowest byte.
  lemma SmallNumber(s: seq<Byte>, b: Byte)
    requires s != []
    ensures Number(s) == b <==> s[0] == b && forall i :: 1 <= i < |s| ==> s[i] == 0
  {
    ZeroNumber(s[1..]);
    assert forall i :: 1 <= i < |s| ==> s[i] == s[1..][i - 1];
  }

  function WordAt(s: seq<Byte>, at: nat): nat
    requires at + 8 <= |s|
  {
    Number(s[at..at + 8])
  }
}
