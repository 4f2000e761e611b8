/**
 * Byte-level views the .NET runtime gives the code: BitConverter's
 * little-endian integers, C#'s 32-bit wrap-around and truncating division,
 * and the ASCII encoding (which writes '?' for every non-ASCII character).
 */
module Bytes {

  type byte = x: int | 0 <= x < 0x100
  type uint16 = x: int | 0 <= x < 0x1_0000
  type int16 = x: int | -0x8000 <= x < 0x8000

  const TwoTo32: int := 0x1_0000_0000

  predicate IsInt32(x: int) {
    -0x8000_0000 <= x < 0x8000_0000
  }

  /** The value a C# `int` holds when unchecked arithmetic produced x. */
  function Wrap32(x: int): (r: int)
    ensures IsInt32(r)
    ensures IsInt32(x) ==> r == x
    ensures (x - r) % TwoTo32 == 0
  {
    var u := x % TwoTo32;
    if u < 0x8000_0000 then u else u - TwoTo32
  }

  /** C#'s integer division, which truncates toward zero. */
  function DivTrunc(a: int, b: int): (q: int)
    requires b > 0
    ensures a >= 0 ==> 0 <= q && q * b <= a < q * b + b
    ensures a < 0 ==> q <= 0 && q * b >= a > q * b - b
  {
    if a >= 0 then a / b else -((-a) / b)
  }

  /** BitConverter.GetBytes(UInt16) on a little-endian machine. */
  function LE16(v: uint16): (r: seq<byte>)
    ensures |r| == 2
  {
    [v % 0x100, v / 0x100]
  }

  /** The two bytes of a UInt16, most significant first. */
  function BE16(v: uint16): (r: seq<byte>)
    ensures |r| == 2
  {
    [v / 0x100, v % 0x100]
  }

  /** BitConverter.GetBytes(Int32) of the 32-bit value x wraps to. */
  function LE32(x: int): (r: seq<byte>)
    ensures |r| == 4
  {
    var u := x % TwoTo32;
    [u % 0x100, (u / 0x100) % 0x100, (u / 0x1_0000) % 0x100, u / 0x100_0000]
  }

  /** BitConverter.GetBytes(Int16). */
  function Int16LE(v: int16): (r: seq<byte>)
    ensures |r| == 2
  {
    LE16(if v < 0 then v + 0x1_0000 else v)
  }

  /** BitConverter.ToUInt16(s, off). */
  function ReadU16(s: seq<byte>, off: nat): uint16
    requires off + 2 <= |s|
  {
    s[off] as int + 0x100 * s[off + 1] as int
  }

  /** The big-endian UInt16 at off. */
  function ReadU16BE(s: seq<byte>, off: nat): uint16
    requires off + 2 <= |s|
  {
    0x100 * s[off] as int + s[off + 1] as int
  }

  /** BitConverter.ToInt16(s, off). */
  function ReadI16(s: seq<byte>, off: nat): int16
    requires off + 2 <= |s|
  {
    var u := ReadU16(s, off);
    if u < 0x8000 then u else u - 0x1_0000
  }

  /** BitConverter.ToInt32(s, off). */
  function ReadI32(s: seq<byte>, off: nat): (r: int)
    requires off + 4 <= |s|
    ensures IsInt32(r)
  {
    var u := s[off] as int + 0x100 * s[off + 1] as int + 0x1_0000 * s[off + 2] as int + 0x100_0000 * s[off + 3] as int;
    if u < 0x8000_0000 then u else u - TwoTo32
  }

  lemma ReadLE16(v: uint16)
    ensures ReadU16(LE16(v), 0) == v
  {
  }

  lemma ReadBE16(v: uint16)
    ensures ReadU16BE(BE16(v), 0) == v
  {
  }

  lemma ReadInt16LE(v: int16)
    ensures ReadI16(Int16LE(v), 0) == v
  {
  }

  /** Reading back what GetBytes(Int32) wrote gives the wrapped value. */
  lemma ReadLE32(x: int)
    ensures ReadI32(LE32(x), 0) == Wrap32(x)
  {
    var u := x % TwoTo32;
    var q1 := u / 0x100;
    var q2 := q1 / 0x100;
    var q3 := q2 / 0x100;
    assert u == 0x100 * q1 + u % 0x100;
    assert q1 == 0x100 * q2 + q1 % 0x100;
    assert q2 == 0x100 * q3 + q2 % 0x100;
    assert q3 == u / 0x100_0000;
    assert u == (u % 0x100) + 0x100 * (q1 % 0x100) + 0x1_0000 * (q2 % 0x100) + 0x100_0000 * q3;
  }

  /** Encoding.ASCII.GetBytes: one byte per character, '?' for non-ASCII. */
  function Ascii(s: string): (r: seq<byte>)
    ensures |r| == |s|
    ensures forall i :: 0 <= i < |s| && s[i] as int < 0x80 ==> r[i] == s[i] as int
    ensures forall i :: 0 <= i < |s| && s[i] as int >= 0x80 ==> r[i] == '?' as int
  {
    seq(|s|, i requires 0 <= i < |s| => if s[i] as int < 0x80 then s[i] as int else '?' as int)
  }

  /** Encoding.ASCII.GetString: one character per byte, '?' for bytes above 0x7F. */
  function AsciiString(b: seq<byte>): (r: string)
    ensures |r| == |b|
    ensures forall i :: 0 <= i < |b| ==> (b[i] < 0x80 ==> r[i] as int == b[i]) && (b[i] >= 0x80 ==> r[i] == '?')
  {
    seq(|b|, i requires 0 <= i < |b| => if b[i] < 0x80 then b[i] as char else '?')
  }
}
