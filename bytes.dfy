/**
 * Bytes and 32-bit integers as the source writes them: `BitConverter.GetBytes(int)`
 * on the little-endian target device yields the four bytes of the two's complement
 * pattern, least significant first.
 */
module Bytes {

  type byte = b: int | 0 <= b < 0x100

  const Int32Max: int := 0x7fff_ffff

  /** C#'s `int`. */
  type int32 = n: int | -0x8000_0000 <= n <= 0x7fff_ffff

  /** The 32-bit pattern that represents `n` in two's complement. */
  function Unsigned(n: int32): (u: nat)
    ensures u < 0x1_0000_0000
    ensures Signed(u) == n
  {
    if n < 0 then n + 0x1_0000_0000 else n
  }

  /** The `int` whose two's complement pattern is `u`. */
  function Signed(u: nat): int32
    requires u < 0x1_0000_0000
  {
    if u < 0x8000_0000 then u else u - 0x1_0000_0000
  }

  /** Unchecked 32-bit arithmetic: the `int` congruent to `n` modulo 2^32. */
  function Wrap32(n: int): (r: int32)
    ensures (r - n) % 0x1_0000_0000 == 0
    ensures -0x8000_0000 <= n <= 0x7fff_ffff ==> r == n
  {
    Signed(n % 0x1_0000_0000)
  }

  /** The number four bytes stand for when read least significant first. */
  function LittleEndianValue(b: seq<byte>): (u: nat)
    requires |b| == 4
    ensures u < 0x1_0000_0000
  {
    var b0: int, b1: int, b2: int, b3: int := b[0], b[1], b[2], b[3];
    b0 + 0x100 * (b1 + 0x100 * (b2 + 0x100 * b3))
  }

  /** `BitConverter.GetBytes(n)` on a little-endian machine. */
  function Int32ToBytes(n: int32): (r: seq<byte>)
    ensures |r| == 4
    ensures LittleEndianValue(r) == Unsigned(n)
  {
    var u0 := Unsigned(n);
    var u1 := u0 / 0x100;
    var u2 := u1 / 0x100;
    var u3 := u2 / 0x100;
    [u0 % 0x100, u1 % 0x100, u2 % 0x100, u3]
  }

  /** `BitConverter.ToInt32(b, 0)` on a little-endian machine. */
  function BytesToInt32(b: seq<byte>): (n: int32)
    requires |b| == 4
    ensures Unsigned(n) == LittleEndianValue(b)
    ensures n < 0 <==> b[3] >= 0x80
  {
    Signed(LittleEndianValue(b))
  }

  lemma Int32RoundTrip(n: int32)
    ensures BytesToInt32(Int32ToBytes(n)) == n
  {
  }

  /** Every four bytes are the encoding of exactly one `int`: the encoding is onto. */
  lemma BytesRoundTrip(b: seq<byte>)
    requires |b| == 4
    ensures Int32ToBytes(BytesToInt32(b)) == b
  {
    var u := LittleEndianValue(b);
    assert Unsigned(Signed(u)) == u;
    var r := Int32ToBytes(BytesToInt32(b));
    assert LittleEndianValue(r) == u;
    LittleEndianInjective(r, b);
  }

  lemma LittleEndianInjective(a: seq<byte>, b: seq<byte>)
    requires |a| == 4 && |b| == 4
    requires LittleEndianValue(a) == LittleEndianValue(b)
    ensures a == b
  {
    var x: int := b[1] as int + 0x100 * (b[2] as int + 0x100 * b[3] as int);
    var y: int := a[1] as int + 0x100 * (a[2] as int + 0x100 * a[3] as int);
    SplitLowByte(a[0], y);
    SplitLowByte(b[0], x);
    var x2: int := b[2] as int + 0x100 * b[3] as int;
    var y2: int := a[2] as int + 0x100 * a[3] as int;
    SplitLowByte(a[1], y2);
    SplitLowByte(b[1], x2);
    SplitLowByte(a[2], a[3]);
    SplitLowByte(b[2], b[3]);
  }

  lemma SplitLowByte(d: byte, k: nat)
    ensures (d + 0x100 * k) % 0x100 == d
    ensures (d + 0x100 * k) / 0x100 == k
  {
  }

  /** The bytes of the two's complement pattern, one by one. */
  lemma Int32BytesExplicit(n: int32)
    ensures Int32ToBytes(n)[0] == Unsigned(n) % 0x100
    ensures Int32ToBytes(n)[1] == Unsigned(n) / 0x100 % 0x100
    ensures Int32ToBytes(n)[2] == Unsigned(n) / 0x1_0000 % 0x100
    ensures Int32ToBytes(n)[3] == Unsigned(n) / 0x100_0000
  {
  }
}
