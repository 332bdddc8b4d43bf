/**
 * The timestamp responder's reply: the current Unix time in whole seconds,
 * written as an unsigned 32-bit integer in big- or little-endian byte order.
 */
module Timestamp {
  import opened Wrappers
  import opened Bytes

  const UInt32Limit := 0x1_0000_0000
  const ReplyLength := 4

  /** 256 to the power `n`. */
  function Pow256(n: nat): (p: nat)
    ensures p > 0
  {
    if n == 0 then 1 else 256 * Pow256(n - 1)
  }

  /** The low `n` bytes of `t`, most significant first. */
  function BytesBE(t: nat, n: nat): (bs: seq<Byte>)
    ensures |bs| == n
  {
    if n == 0 then [] else BytesBE(t / 256, n - 1) + [t % 256]
  }

  /** The low `n` bytes of `t`, least significant first. */
  function BytesLE(t: nat, n: nat): (bs: seq<Byte>)
    ensures |bs| == n
  {
    if n == 0 then [] else [t % 256] + BytesLE(t / 256, n - 1)
  }

  /** The number a big-endian byte string denotes. */
  function ValueBE(bs: seq<Byte>): nat {
    if bs == [] then 0 else ValueBE(bs[..|bs| - 1]) * 256 + bs[|bs| - 1]
  }

  /** The number a little-endian byte string denotes. */
  function ValueLE(bs: seq<Byte>): nat {
    if bs == [] then 0 else bs[0] + 256 * ValueLE(bs[1..])
  }

  function Reverse<T>(s: seq<T>): (r: seq<T>)
    ensures |r| == |s|
  {
    if s == [] then [] else Reverse(s[1..]) + [s[0]]
  }

  /**
   * `writeUInt32BE(t)` or `writeUInt32LE(t)` into a fresh 4-byte buffer. Node
   * throws a RangeError for a value outside 0..2^32-1, and then nothing is written.
   */
  function EncodeTimestamp(t: int, bigEndian: bool): (r: Option<seq<Byte>>)
    ensures r.Some? <==> 0 <= t < UInt32Limit
    ensures r.Some? ==> |r.value| == ReplyLength
  {
    if 0 <= t < UInt32Limit then
      Some(if bigEndian then BytesBE(t, ReplyLength) else BytesLE(t, ReplyLength))
    else
      None
  }

  lemma {:induction false} BytesBERoundTrip(t: nat, n: nat)
    requires t < Pow256(n)
    ensures ValueBE(BytesBE(t, n)) == t
  {
    if n > 0 {
      var high := BytesBE(t / 256, n - 1);
      var bs := high + [t % 256];
      assert BytesBE(t, n) == bs;
      assert bs[..n - 1] == high;
      assert t / 256 < Pow256(n - 1);
      BytesBERoundTrip(t / 256, n - 1);
      assert ValueBE(bs) == ValueBE(high) * 256 + t % 256;
    }
  }

  lemma {:induction false} BytesLERoundTrip(t: nat, n: nat)
    requires t < Pow256(n)
    ensures ValueLE(BytesLE(t, n)) == t
  {
    if n > 0 {
      var high := BytesLE(t / 256, n - 1);
      var bs := [t % 256] + high;
      assert BytesLE(t, n) == bs;
      assert bs[1..] == high;
      assert t / 256 < Pow256(n - 1);
      BytesLERoundTrip(t / 256, n - 1);
      assert ValueLE(bs) == t % 256 + 256 * ValueLE(high);
    }
  }

  /** Reading a big-endian string backwards is the little-endian string. */
  lemma {:induction false} BytesLEIsReverse(t: nat, n: nat)
    ensures BytesLE(t, n) == Reverse(BytesBE(t, n))
  {
    if n > 0 {
      var high := BytesBE(t / 256, n - 1);
      assert BytesBE(t, n) == high + [t % 256];
      BytesLEIsReverse(t / 256, n - 1);
      ReverseSnoc<Byte>(high, t % 256);
    }
  }

  lemma {:induction false} ReverseSnoc<T>(s: seq<T>, x: T)
    ensures Reverse(s + [x]) == [x] + Reverse(s)
  {
    if s != [] {
      assert (s + [x])[1..] == s[1..] + [x];
      ReverseSnoc(s[1..], x);
    }
  }

  lemma UInt32Bound()
    ensures Pow256(ReplyLength) == UInt32Limit
  {
  }

  /** The big-endian reply read back as an unsigned 32-bit integer is the timestamp. */
  lemma BigEndianRoundTrip(t: int)
    requires 0 <= t < UInt32Limit
    ensures EncodeTimestamp(t, true).Some?
    ensures ValueBE(EncodeTimestamp(t, true).value) == t
  {
    UInt32Bound();
    BytesBERoundTrip(t, ReplyLength);
  }

  /** The little-endian reply read back as a little-endian integer is the timestamp. */
  lemma LittleEndianRoundTrip(t: int)
    requires 0 <= t < UInt32Limit
    ensures EncodeTimestamp(t, false).Some?
    ensures ValueLE(EncodeTimestamp(t, false).value) == t
  {
    UInt32Bound();
    BytesLERoundTrip(t, ReplyLength);
  }

  /** The little-endian reply is the big-endian reply with its bytes reversed. */
  lemma LittleEndianIsReversed(t: int)
    requires 0 <= t < UInt32Limit
    ensures EncodeTimestamp(t, false).value == Reverse(EncodeTimestamp(t, true).value)
  {
    BytesLEIsReverse(t, ReplyLength);
  }

  /** Two clients served at different seconds receive different replies, in either byte order. */
  lemma DistinctTimesDistinctReplies(t1: int, t2: int, bigEndian: bool)
    requires 0 <= t1 < UInt32Limit && 0 <= t2 < UInt32Limit
    requires t1 != t2
    ensures EncodeTimestamp(t1, bigEndian) != EncodeTimestamp(t2, bigEndian)
  {
    if bigEndian {
      BigEndianRoundTrip(t1);
      BigEndianRoundTrip(t2);
    } else {
      LittleEndianRoundTrip(t1);
      LittleEndianRoundTrip(t2);
    }
  }

  /**
   * The bytes agree with the shifts Node's writeUInt32BE performs:
   * `t >>> 24`, `t >>> 16`, `t >>> 8` and `t`, each truncated to 8 bits.
   */
  lemma BigEndianLayout(t: int)
    requires 0 <= t < UInt32Limit
    ensures EncodeTimestamp(t, true).value
              == [t / 0x100_0000, t / 0x1_0000 % 256, t / 0x100 % 256, t % 256]
  {
    var q1 := t / 256;
    var q2 := q1 / 256;
    var q3 := q2 / 256;
    assert q2 == t / 0x1_0000 by {
      assert t == q2 * 0x1_0000 + (q1 % 256) * 256 + t % 256;
    }
    assert q3 == t / 0x100_0000 by {
      assert t == q3 * 0x100_0000 + (q2 % 256) * 0x1_0000 + (q1 % 256) * 256 + t % 256;
    }
    assert BytesBE(t, 4) == BytesBE(q1, 3) + [t % 256];
    assert BytesBE(q1, 3) == BytesBE(q2, 2) + [q1 % 256];
    assert BytesBE(q2, 2) == BytesBE(q3, 1) + [q2 % 256];
    assert BytesBE(q3, 1) == [q3 % 256];
  }
}
