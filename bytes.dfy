/**
 * The byte-level operations the gateway performs on a received Node.js Buffer:
 * hexadecimal rendering (`toString('hex')`), two's-complement 8-bit reads
 * (`readInt8`) and sub-buffer extraction (`slice`).
 */
module Bytes {
  import opened Wrappers

  /** One octet of a Buffer. */
  type Byte = b: int | 0 <= b < 256

  // ---------------------------------------------------------------------
  // Hexadecimal rendering, as Buffer.toString('hex') produces it
  // ---------------------------------------------------------------------

  predicate IsLowerHexDigit(c: char) {
    '0' <= c <= '9' || 'a' <= c <= 'f'
  }

  /** The lower-case digit for a nibble. */
  function HexDigit(d: int): (c: char)
    requires 0 <= d < 16
    ensures IsLowerHexDigit(c)
  {
    if d < 10 then ('0' as int + d) as char else ('a' as int + d - 10) as char
  }

  /** The nibble a lower-case hex digit stands for; `None` for any other character. */
  function DigitValue(c: char): (r: Option<int>)
    ensures r.Some? <==> IsLowerHexDigit(c)
    ensures r.Some? ==> 0 <= r.value < 16 && HexDigit(r.value) == c
  {
    if '0' <= c <= '9' then Some(c as int - '0' as int)
    else if 'a' <= c <= 'f' then Some(c as int - 'a' as int + 10)
    else None
  }

  /** Two lower-case digits per byte, high nibble first. */
  function Hex(bs: seq<Byte>): (s: string)
    ensures |s| == 2 * |bs|
    ensures forall i :: 0 <= i < |s| ==> IsLowerHexDigit(s[i])
  {
    if bs == [] then "" else [HexDigit(bs[0] / 16), HexDigit(bs[0] % 16)] + Hex(bs[1..])
  }

  /** Byte `k` is rendered at positions `2k` (high nibble) and `2k+1` (low nibble). */
  lemma {:induction false} HexAt(bs: seq<Byte>, k: nat)
    requires k < |bs|
    ensures Hex(bs)[2 * k] == HexDigit(bs[k] / 16)
    ensures Hex(bs)[2 * k + 1] == HexDigit(bs[k] % 16)
  {
    if k > 0 {
      HexAt(bs[1..], k - 1);
      assert Hex(bs) == [HexDigit(bs[0] / 16), HexDigit(bs[0] % 16)] + Hex(bs[1..]);
    }
  }

  /** The inverse of `Hex`: `None` for an odd length or a character that is not a lower-case hex digit. */
  function ParseHex(s: string): (r: Option<seq<Byte>>)
    ensures r.Some? ==> 2 * |r.value| == |s|
  {
    if s == [] then Some([])
    else if |s| == 1 then None
    else
      match (DigitValue(s[0]), DigitValue(s[1]), ParseHex(s[2..]))
      case (Some(hi), Some(lo), Some(rest)) => Some([hi * 16 + lo] + rest)
      case _ => None
  }

  lemma {:induction false} ParseHexOfHex(bs: seq<Byte>)
    ensures ParseHex(Hex(bs)) == Some(bs)
  {
    if bs != [] {
      var s := Hex(bs);
      assert s == [HexDigit(bs[0] / 16), HexDigit(bs[0] % 16)] + Hex(bs[1..]);
      assert s[2..] == Hex(bs[1..]);
      ParseHexOfHex(bs[1..]);
      assert DigitValue(s[0]) == Some(bs[0] / 16);
      assert DigitValue(s[1]) == Some(bs[0] % 16);
      assert [bs[0]] + bs[1..] == bs;
    }
  }

  /** Distinct byte strings have distinct hex renderings. */
  lemma HexInjective(a: seq<Byte>, b: seq<Byte>)
    requires Hex(a) == Hex(b)
    ensures a == b
  {
    ParseHexOfHex(a);
    ParseHexOfHex(b);
  }

  // ---------------------------------------------------------------------
  // Signed 8-bit reads (Buffer.readInt8)
  // ---------------------------------------------------------------------

  /** The two's-complement value of a byte: the unique value in -128..127 congruent to it modulo 256. */
  function Int8(b: Byte): (v: int)
    ensures -128 <= v < 128
    ensures v % 256 == b
    ensures v < 0 <==> b >= 128
  {
    if b < 128 then b else b - 256
  }

  /** Only `Int8(b)` lies in -128..127 and is congruent to `b`, so the read loses nothing. */
  lemma Int8Unique(b: Byte, v: int)
    requires -128 <= v < 128 && v % 256 == b
    ensures v == Int8(b)
  {
    if v < 0 {
      assert v + 256 == b;
    }
  }

  // ---------------------------------------------------------------------
  // Sub-buffers (Buffer.slice)
  // ---------------------------------------------------------------------

  /**
   * How Buffer.slice resolves an index against a buffer of length `len`:
   * a negative index counts from the end, and the result is clamped to 0..len.
   */
  function SliceIndex(i: int, len: nat): (r: nat)
    ensures r <= len
    ensures 0 <= i <= len ==> r == i
  {
    if i < 0 then (if i + len > 0 then i + len else 0)
    else if i < len then i
    else len
  }

  /** `buf.slice(start, end)`: never fails, and in range it is the plain sub-sequence. */
  function Slice(buf: seq<Byte>, start: int, end: int): (r: seq<Byte>)
    ensures |r| <= |buf|
    ensures 0 <= start <= end <= |buf| ==> r == buf[start..end]
  {
    var s, e := SliceIndex(start, |buf|), SliceIndex(end, |buf|);
    if e > s then buf[s..e] else []
  }

  /** A negative index counts back from the end of the buffer, the start and the end each on its own. */
  lemma SliceFromEnd(buf: seq<Byte>, start: int, end: int)
    ensures -|buf| <= start < 0 ==> Slice(buf, start, end) == Slice(buf, start + |buf|, end)
    ensures -|buf| <= end < 0 ==> Slice(buf, start, end) == Slice(buf, start, end + |buf|)
  {
  }

  /** An index before the start or past the end of the buffer is clamped to it. */
  lemma SliceClamps(buf: seq<Byte>, start: int, end: int)
    ensures start < -|buf| ==> Slice(buf, start, end) == Slice(buf, 0, end)
    ensures end < -|buf| ==> Slice(buf, start, end) == []
    ensures end > |buf| ==> Slice(buf, start, end) == Slice(buf, start, |buf|)
    ensures start >= |buf| ==> Slice(buf, start, end) == []
  {
  }

  /** An end that does not lie after the start gives an empty buffer, not an error. */
  lemma SliceReversed(buf: seq<Byte>, start: int, end: int)
    requires 0 <= end <= start
    ensures Slice(buf, start, end) == []
  {
  }
}
