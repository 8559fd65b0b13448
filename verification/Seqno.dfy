/**
 * RTP sequence numbers: 16 bits wide, compared modulo 2^16 (compare in
 * packetmap/packetmap.go and packetcache/packetcache.go).  The models carry
 * beside them the unbounded numbers that they stand for.
 */
module Seqno {
  type u16 = x: int | 0 <= x < 0x1_0000

  /** The 16 bits of an unbounded number; the wrap-around of uint16 arithmetic. */
  function U16(x: int): u16 { x % 0x1_0000 }

  /** compare: negative, zero or positive as s1 comes before, is, or comes after s2. */
  function Compare(s1: u16, s2: u16): int {
    if s1 == s2 then 0 else if U16(s2 - s1) >= 0x8000 then 1 else -1
  }

  /** The number closest to `near` that a sequence number can stand for. */
  function Unwrap(s: u16, near: int): (x: int)
    ensures near - 0x8000 <= x < near + 0x8000
    ensures U16(x) == s
  {
    var d := U16(s - near);
    if d < 0x8000 then near + d else near + d - 0x1_0000
  }

  lemma UnwrapUnique(x: int, near: int)
    requires near - 0x8000 <= x < near + 0x8000
    ensures Unwrap(U16(x), near) == x
  {
  }

  lemma U16Period(x: int, k: int)
    ensures U16(x + 0x1_0000 * k) == U16(x)
  {
  }

  /** Wrapping may be put off to the end. */
  lemma U16Shift(a: int, b: int)
    ensures U16(U16(a) + b) == U16(a + b)
    ensures U16(b - U16(a)) == U16(b - a)
  {
    var k := a / 0x1_0000;
    assert a == U16(a) + 0x1_0000 * k;
    U16Period(U16(a) + b, k);
    U16Period(b - U16(a), -k);
  }

  lemma U16Both(a: int, b: int)
    ensures U16(U16(a) + U16(b)) == U16(a + b)
    ensures U16(U16(a) - U16(b)) == U16(a - b)
  {
    U16Shift(a, U16(b));
    U16Shift(b, a);
    var n: int := U16(b);
    U16Shift(a, -n);
  }

  /** Numbers less than 2^15 apart compare as they should. */
  lemma CompareNear(a: int, b: int)
    requires -0x8000 < a - b < 0x8000
    ensures Compare(U16(a), U16(b)) < 0 <==> a < b
    ensures Compare(U16(a), U16(b)) == 0 <==> a == b
    ensures Compare(U16(a), U16(b)) > 0 <==> a > b
  {
    U16Both(b, a);
    U16Both(a, b);
  }

  /** Numbers just 2^15 apart compare as if the first came after the second, whichever it is. */
  lemma CompareOpposite(a: int, b: int)
    requires a - b == 0x8000 || b - a == 0x8000
    ensures Compare(U16(a), U16(b)) > 0
  {
    U16Both(b, a);
  }
}
