/** What a JavaScript DataView does to the numbers it stores: the
    conversion of a number to a fixed-width unsigned integer, and the
    little-endian layout of 16- and 32-bit fields in a byte buffer. A
    JavaScript number is a `real` here; the values that are not finite
    (NaN, Infinity) have no counterpart. */
module WavBytes {

  newtype byte = x: int | 0 <= x < 0x100

  const Two16: int := 0x1_0000
  const Two32: int := 0x1_0000_0000

  /** The integer part of x, rounded toward zero. */
  function Trunc(x: real): (r: int)
    ensures 0.0 <= x ==> 0 <= r && r as real <= x < r as real + 1.0
    ensures x < 0.0 ==> r <= 0 && r as real - 1.0 < x <= r as real
  {
    if x >= 0.0 then x.Floor else -((-x).Floor)
  }

  /** ToUint8, ToUint16 and ToUint32 of ECMAScript: the integer part of a
      number, taken modulo 2^8, 2^16 or 2^32. */
  function ToUint8(x: real): (r: byte)
    ensures (r as int - Trunc(x)) % 0x100 == 0
  {
    (Trunc(x) % 0x100) as byte
  }

  function ToUint16(x: real): (r: nat)
    ensures r < Two16 && (r - Trunc(x)) % Two16 == 0
  {
    Trunc(x) % Two16
  }

  function ToUint32(x: real): (r: nat)
    ensures r < Two32 && (r - Trunc(x)) % Two32 == 0
  {
    Trunc(x) % Two32
  }

  /** A whole number that fits is stored unchanged. */
  lemma ToUintExact(n: int)
    requires 0 <= n < Two32
    ensures ToUint32(n as real) == n
    ensures n < Two16 ==> ToUint16(n as real) == n
  {
    assert Trunc(n as real) == n;
  }

  /** Math.round: the nearest integer, halves rounded up. */
  function Round(x: real): (r: int)
    ensures r as real - 0.5 <= x < r as real + 0.5
  {
    (x + 0.5).Floor
  }

  /** The two's-complement reading of a 16-bit field (DataView.getInt16). */
  function AsInt16(u: nat): (r: int)
    requires u < Two16
    ensures -0x8000 <= r < 0x8000 && (r - u) % Two16 == 0
  {
    if u >= 0x8000 then u - Two16 else u
  }

  /** The two bytes of v, low byte first. */
  function Le16(v: nat): (r: seq<byte>)
    requires v < Two16
    ensures |r| == 2
  {
    [(v % 0x100) as byte, (v / 0x100) as byte]
  }

  /** The four bytes of v, low byte first. */
  function Le32(v: nat): (r: seq<byte>)
    requires v < Two32
    ensures |r| == 4
  {
    [(v % 0x100) as byte, (v / 0x100 % 0x100) as byte,
     (v / 0x1_0000 % 0x100) as byte, (v / 0x100_0000) as byte]
  }

  /** getUint16(off, true) and getUint32(off, true): the value of the two
      or four bytes at off, low byte first. */
  function Get16(b: seq<byte>, off: nat): (r: nat)
    requires off + 2 <= |b|
    ensures r < Two16
  {
    b[off] as int + 0x100 * b[off + 1] as int
  }

  function Get32(b: seq<byte>, off: nat): (r: nat)
    requires off + 4 <= |b|
    ensures r < Two32
  {
    b[off] as int + 0x100 * b[off + 1] as int + 0x1_0000 * b[off + 2] as int + 0x100_0000 * b[off + 3] as int
  }

  /** getInt16(off, true). */
  function GetInt16(b: seq<byte>, off: nat): (r: int)
    requires off + 2 <= |b|
  {
    AsInt16(Get16(b, off))
  }

  /** Reading the bytes of a value gives the value back, and writing the
      value read gives the bytes back. */
  lemma {:induction false} Le16RoundTrip(v: nat)
    requires v < Two16
    ensures Get16(Le16(v), 0) == v
  {
  }

  lemma {:induction false} Get16RoundTrip(b: seq<byte>, off: nat)
    requires off + 2 <= |b|
    ensures Le16(Get16(b, off)) == b[off..off + 2]
  {
    var v := Get16(b, off);
    assert v % 0x100 == b[off] as int && v / 0x100 == b[off + 1] as int;
  }

  lemma {:induction false} Le32RoundTrip(v: nat)
    requires v < Two32
    ensures Get32(Le32(v), 0) == v
  {
    var q1 := v / 0x100;
    var q2 := q1 / 0x100;
    var q3 := q2 / 0x100;
    assert v == v % 0x100 + 0x100 * q1;
    assert q1 == q1 % 0x100 + 0x100 * q2;
    assert q2 == q2 % 0x100 + 0x100 * q3;
    assert v / 0x1_0000 == q2 && v / 0x100_0000 == q3;
  }

  lemma {:induction false} Get32RoundTrip(b: seq<byte>, off: nat)
    requires off + 4 <= |b|
    ensures Le32(Get32(b, off)) == b[off..off + 4]
  {
    var v := Get32(b, off);
    var b0, b1, b2, b3 := b[off] as int, b[off + 1] as int, b[off + 2] as int, b[off + 3] as int;
    var q1 := b1 + 0x100 * b2 + 0x1_0000 * b3;
    var q2 := b2 + 0x100 * b3;
    assert v == b0 + 0x100 * q1;
    assert v % 0x100 == b0 && v / 0x100 == q1;
    assert q1 == b1 + 0x100 * q2;
    assert q1 % 0x100 == b1 && q1 / 0x100 == q2;
    assert q2 % 0x100 == b2 && q2 / 0x100 == b3;
    assert v / 0x1_0000 == q2 by {
      assert v == b0 + 0x100 * b1 + 0x1_0000 * q2;
    }
    assert v / 0x100_0000 == b3 by {
      assert v == b0 + 0x100 * b1 + 0x1_0000 * b2 + 0x100_0000 * b3;
    }
  }

  /** setUint16(off, v, true) and setUint32(off, v, true), v already
      converted: the bytes of v stored at off, low byte first. */
  function Put16(b: seq<byte>, off: nat, v: nat): (r: seq<byte>)
    requires off + 2 <= |b| && v < Two16
    ensures |r| == |b|
  {
    var le := Le16(v);
    b[off := le[0]][off + 1 := le[1]]
  }

  function Put32(b: seq<byte>, off: nat, v: nat): (r: seq<byte>)
    requires off + 4 <= |b| && v < Two32
    ensures |r| == |b|
  {
    var le := Le32(v);
    b[off := le[0]][off + 1 := le[1]][off + 2 := le[2]][off + 3 := le[3]]
  }

  /** A write inside h is the same on h + t as on h alone. */
  lemma {:induction false} Put16Prefix(h: seq<byte>, t: seq<byte>, off: nat, v: nat)
    requires off + 2 <= |h| && v < Two16
    ensures Put16(h + t, off, v) == Put16(h, off, v) + t
  {
    var r, q := Put16(h + t, off, v), Put16(h, off, v) + t;
    assert forall i :: 0 <= i < |r| ==> r[i] == q[i];
  }

  lemma {:induction false} Put32Prefix(h: seq<byte>, t: seq<byte>, off: nat, v: nat)
    requires off + 4 <= |h| && v < Two32
    ensures Put32(h + t, off, v) == Put32(h, off, v) + t
  {
    var r, q := Put32(h + t, off, v), Put32(h, off, v) + t;
    assert forall i :: 0 <= i < |r| ==> r[i] == q[i];
  }

  /** A stored field reads back as the value stored, and every other
      byte keeps its value. */
  lemma {:induction false} GetPut16(b: seq<byte>, off: nat, v: nat)
    requires off + 2 <= |b| && v < Two16
    ensures Get16(Put16(b, off, v), off) == v
    ensures forall i :: 0 <= i < |b| && (i < off || off + 2 <= i) ==> Put16(b, off, v)[i] == b[i]
  {
    Le16RoundTrip(v);
  }

  lemma {:induction false} GetPut32(b: seq<byte>, off: nat, v: nat)
    requires off + 4 <= |b| && v < Two32
    ensures Get32(Put32(b, off, v), off) == v
    ensures forall i :: 0 <= i < |b| && (i < off || off + 4 <= i) ==> Put32(b, off, v)[i] == b[i]
  {
    Le32RoundTrip(v);
  }

  /** A write leaves a field it does not overlap unchanged. */
  lemma {:induction false} Get16Put16(b: seq<byte>, off: nat, v: nat, k: nat)
    requires off + 2 <= |b| && v < Two16 && k + 2 <= |b| && (k + 2 <= off || off + 2 <= k)
    ensures Get16(Put16(b, off, v), k) == Get16(b, k)
  {
  }

  lemma {:induction false} Get16Put32(b: seq<byte>, off: nat, v: nat, k: nat)
    requires off + 4 <= |b| && v < Two32 && k + 2 <= |b| && (k + 2 <= off || off + 4 <= k)
    ensures Get16(Put32(b, off, v), k) == Get16(b, k)
  {
  }

  lemma {:induction false} Get32Put16(b: seq<byte>, off: nat, v: nat, k: nat)
    requires off + 2 <= |b| && v < Two16 && k + 4 <= |b| && (k + 4 <= off || off + 2 <= k)
    ensures Get32(Put16(b, off, v), k) == Get32(b, k)
  {
  }

  lemma {:induction false} Get32Put32(b: seq<byte>, off: nat, v: nat, k: nat)
    requires off + 4 <= |b| && v < Two32 && k + 4 <= |b| && (k + 4 <= off || off + 4 <= k)
    ensures Get32(Put32(b, off, v), k) == Get32(b, k)
  {
  }
}
