/**
 Byte strings as the firmware lays them out: little-endian words and the FNV-1a
 checksum guarding queue records, queue metadata and archived uploads.
 */
module Bytes {

  const WORD := 0x1_0000_0000

  type byte = b: int | 0 <= b < 256
  type bytes = seq<byte>
  type uint32 = w: int | 0 <= w < 0x1_0000_0000

  function Le16(v: int): (b: bytes)
    requires 0 <= v < 0x1_0000
    ensures |b| == 2
  {
    [v % 256, v / 256]
  }

  function Le32(v: uint32): (b: bytes)
    ensures |b| == 4
  {
    [v % 256, v / 0x100 % 256, v / 0x1_0000 % 256, v / 0x100_0000]
  }

  /** The little-endian word stored at offset `at`. */
  function Get32(b: bytes, at: nat): uint32
    requires at + 4 <= |b|
  {
    (b[at] as int) + 0x100 * (b[at + 1] as int) + 0x1_0000 * (b[at + 2] as int) + 0x100_0000 * (b[at + 3] as int)
  }

  function Get16(b: bytes, at: nat): (v: int)
    requires at + 2 <= |b|
    ensures 0 <= v < 0x1_0000
  {
    (b[at] as int) + 0x100 * (b[at + 1] as int)
  }

  lemma SmallMultiple(k: int, d: int)
    requires -k < k * d < k
    ensures d == 0
  {
  }

  lemma Quotient(v: int, k: int, q: int, r: int)
    requires k > 0 && v == k * q + r && 0 <= r < k
    ensures v / k == q && v % k == r
  {
    assert v == k * (v / k) + v % k;
    assert k * (v / k) - k * q == k * (v / k - q);
    SmallMultiple(k, v / k - q);
  }

  /** The four bytes of a word, and the word again. */
  lemma Bytewise(v: uint32)
    ensures v == Le32(v)[0] as int + 0x100 * (Le32(v)[1] as int) + 0x1_0000 * (Le32(v)[2] as int)
      + 0x100_0000 * (Le32(v)[3] as int)
  {
    var q1, q2, q3 := v / 0x100, v / 0x1_0000, v / 0x100_0000;
    Quotient(q1, 0x100, q2, q1 - 0x100 * q2);
    Quotient(q2, 0x100, q3, q2 - 0x100 * q3);
  }

  /** A word written between two byte strings reads back at the offset where it was written. */
  lemma Get32Le32(before: bytes, v: uint32, after: bytes)
    ensures Get32(before + Le32(v) + after, |before|) == v
  {
    Bytewise(v);
    hide Le32;
    var b, w := before + Le32(v) + after, Le32(v);
    assert b[|before|] == w[0] && b[|before| + 1] == w[1] && b[|before| + 2] == w[2] && b[|before| + 3] == w[3];
  }

  lemma WordAt(b: bytes, before: bytes, v: uint32, after: bytes)
    requires b == before + Le32(v) + after
    ensures Get32(b, |before|) == v
  {
    Get32Le32(before, v, after);
  }

  /** Reading a word and writing it again reproduces the four bytes: nothing is lost in either direction. */
  lemma Le32Get32(b: bytes, at: nat)
    requires at + 4 <= |b|
    ensures Le32(Get32(b, at)) == b[at..at + 4]
  {
    var b0: int, b1: int, b2: int, b3: int := b[at], b[at + 1], b[at + 2], b[at + 3];
    var v: int := Get32(b, at);
    var q2, q1 := b2 + 0x100 * b3, b1 + 0x100 * (b2 + 0x100 * b3);
    Quotient(v, 0x100, q1, b0);
    Quotient(v, 0x1_0000, q2, b0 + 0x100 * b1);
    Quotient(v, 0x100_0000, b3, b0 + 0x100 * b1 + 0x1_0000 * b2);
    Quotient(q1, 0x100, q2, b1);
    Quotient(q2, 0x100, b3, b2);
  }

  /** Exclusive or of two octets, bit by bit. */
  function Xor(a: nat, b: nat, bits: nat): (x: nat)
    ensures x < Power2(bits)
    decreases bits
  {
    if bits == 0 then 0 else (a + b) % 2 + 2 * Xor(a / 2, b / 2, bits - 1)
  }

  /** The bit of weight two to the power `k`. */
  function BitOf(v: nat, k: nat): nat
    decreases k
  {
    if k == 0 then v % 2 else BitOf(v / 2, k - 1)
  }

  lemma XorStep(a: nat, b: nat, bits: nat)
    requires bits > 0
    ensures Xor(a, b, bits) == (a + b) % 2 + 2 * Xor(a / 2, b / 2, bits - 1) && Xor(a, b, 0) == 0
  {
  }

  lemma Halves(v: nat, q: nat, d: nat)
    requires v == d + 2 * q && d < 2
    ensures v / 2 == q && v % 2 == d
  {
  }

  /** Each bit is the sum of the two, without a carry. */
  lemma {:induction false} XorBits(a: nat, b: nat, bits: nat, k: nat)
    requires k < bits
    ensures BitOf(Xor(a, b, bits), k) == (if BitOf(a, k) == BitOf(b, k) then 0 else 1)
    decreases bits
  {
    hide Xor;
    XorStep(a, b, bits);
    Halves(a, a / 2, a % 2);
    Halves(b, b / 2, b % 2);
    Halves(Xor(a, b, bits), Xor(a / 2, b / 2, bits - 1), (a + b) % 2);
    if k > 0 { XorBits(a / 2, b / 2, bits - 1, k - 1); }
  }

  function Power2(n: nat): nat
  {
    if n == 0 then 1 else 2 * Power2(n - 1)
  }

  /** One FNV-1a round on 32 bits: fold the octet into the low byte, multiply, wrap. */
  function FnvRound(value: uint32, b: byte): uint32
  {
    assert Power2(8) == 256 by { assert Power2(4) == 16; }
    (value - value % 256 + Xor(value % 256, b, 8)) * 16777619 % WORD
  }

  function Fnv1a(data: bytes): uint32
  {
    if data == [] then 2166136261 else FnvRound(Fnv1a(data[..|data| - 1]), data[|data| - 1])
  }

  lemma XorSample()
    ensures Xor(197, 97, 8) == 164
  {
    hide Xor;
    XorStep(197, 97, 8);
    XorStep(98, 48, 7);
    XorStep(49, 24, 6);
    XorStep(24, 12, 5);
    XorStep(12, 6, 4);
    XorStep(6, 3, 3);
    XorStep(3, 1, 2);
    XorStep(1, 0, 1);
    XorStep(0, 0, 1);
  }

  /** The published values of this hash for nothing and for the letter "a". */
  lemma KnownChecksums()
    ensures Fnv1a([]) == 0x811C_9DC5 && Fnv1a([97]) == 0xE40C_292C
  {
    hide Xor;
    assert [97][..0] == [] && [97][0] == 97;
    XorSample();
  }

  /** The firmware's checksum loop computes the fold that the specifications use. */
  method Checksum(data: bytes) returns (value: uint32)
    ensures value == Fnv1a(data)
  {
    value := 2166136261;
    for index := 0 to |data|
      invariant value == Fnv1a(data[..index])
    {
      assert data[..index + 1][..index] == data[..index];
      value := FnvRound(value, data[index]);
    }
    assert data[..|data|] == data;
  }
}
