/**
 * The payload protocol's frame: an 8-byte device id, a signed block count at
 * offset 8, a signed block size at offset 9, reserved bytes up to the header
 * size, then the blocks back to back. Decoding, the size check and the
 * arithmetic block boundaries the publisher slices at.
 */
module Frames {
  import opened Wrappers
  import opened Bytes

  const DeviceIdLength := 8
  const BlockCountOffset := 8
  const BlockSizeOffset := 9

  /** Defaults used when HEADER_SIZE and MAX_FRAME_SIZE are unset. */
  const DefaultHeaderSize := 12
  const DefaultMaxFrameSize := 512 - DefaultHeaderSize

  datatype Config = Config(headerSize: int, maxFrameSize: int)

  const DefaultConfig := Config(DefaultHeaderSize, DefaultMaxFrameSize)

  /**
   * `1 * value || fallback`: `parsed` is the number the environment value
   * converts to, `None` when it is unset or not a number. Zero is falsy too.
   */
  function Setting(parsed: Option<int>, fallback: int): (v: int)
    ensures parsed.Some? && parsed.value != 0 ==> v == parsed.value
    ensures parsed.None? || parsed.value == 0 ==> v == fallback
  {
    if parsed.Some? && parsed.value != 0 then parsed.value else fallback
  }

  /** HEADER_SIZE and MAX_FRAME_SIZE; the maximum frame size defaults to what is left of 512 bytes. */
  function ConfigFrom(headerSize: Option<int>, maxFrameSize: Option<int>): (cfg: Config)
    ensures cfg.headerSize != 0
    ensures maxFrameSize.None? || maxFrameSize.value == 0 ==> cfg.headerSize + cfg.maxFrameSize == 512
  {
    var h := Setting(headerSize, DefaultHeaderSize);
    Config(h, Setting(maxFrameSize, 512 - h))
  }

  /** What the data handler extracts from a received buffer. */
  datatype Frame = Frame(deviceId: string, blocks: int, size: int)

  /** A `readInt8` past the end of the buffer throws a RangeError naming the offset. */
  datatype DecodeError = OutOfRange(offset: nat)

  function Decode(buf: seq<Byte>): (r: Result<Frame, DecodeError>)
    ensures r.Failure? <==> |buf| < 10
    ensures |buf| < 9 ==> r == Failure(OutOfRange(BlockCountOffset))
    ensures |buf| == 9 ==> r == Failure(OutOfRange(BlockSizeOffset))
    ensures r.Success? ==>
              && |r.value.deviceId| == 16
              && (forall i :: 0 <= i < 16 ==> IsLowerHexDigit(r.value.deviceId[i]))
              && ParseHex(r.value.deviceId) == Some(buf[..DeviceIdLength])
              && -128 <= r.value.blocks < 128 && r.value.blocks % 256 == buf[BlockCountOffset]
              && -128 <= r.value.size < 128 && r.value.size % 256 == buf[BlockSizeOffset]
  {
    // the device id is rendered first and never throws; the two reads do
    if |buf| <= BlockCountOffset then Failure(OutOfRange(BlockCountOffset))
    else if |buf| <= BlockSizeOffset then Failure(OutOfRange(BlockSizeOffset))
    else
      ParseHexOfHex(buf[..DeviceIdLength]);
      Success(Frame(Hex(buf[..DeviceIdLength]), Int8(buf[BlockCountOffset]), Int8(buf[BlockSizeOffset])))
  }

  /** Buffers whose first eight bytes differ decode to different device ids. */
  lemma DeviceIdInjective(a: seq<Byte>, b: seq<Byte>)
    requires Decode(a).Success? && Decode(b).Success?
    requires Decode(a).value.deviceId == Decode(b).value.deviceId
    ensures a[..DeviceIdLength] == b[..DeviceIdLength]
  {
    HexInjective(a[..DeviceIdLength], b[..DeviceIdLength]);
  }

  /** The size check: only the total length is compared, never against blocks * size. */
  predicate TooLarge(cfg: Config, buf: seq<Byte>) {
    |buf| > cfg.headerSize + cfg.maxFrameSize
  }

  /**
   * Unless MAX_FRAME_SIZE is set, whatever the header size, a buffer is
   * dropped exactly when it is longer than 512 bytes.
   */
  lemma DefaultLimit(headerSize: Option<int>, maxFrameSize: Option<int>, buf: seq<Byte>)
    requires maxFrameSize.None? || maxFrameSize.value == 0
    ensures ConfigFrom(headerSize, maxFrameSize).headerSize != 0
    ensures TooLarge(ConfigFrom(headerSize, maxFrameSize), buf) <==> |buf| > 512
    ensures ConfigFrom(None, None) == DefaultConfig
  {
  }

  // ---------------------------------------------------------------------
  // Block boundaries
  // ---------------------------------------------------------------------

  /** Iterations of `for (i = 0; i < blocks; i++)`: none for a zero or negative count. */
  function NumBlocks(blocks: int): (n: nat)
    ensures n >= blocks
    ensures n == blocks || n == 0
  {
    if blocks > 0 then blocks else 0
  }

  /** Block `i`: `buf.slice(start, start + size)` with `start = headerSize + i * size`. */
  function BlockAt(buf: seq<Byte>, headerSize: int, size: int, i: int): seq<Byte> {
    var start := headerSize + i * size;
    Slice(buf, start, start + size)
  }

  /**
   * `n` chunks cut back to back from `start`, each `size` further on than the
   * one before, with Buffer.slice semantics: the reference for the blocks.
   */
  function Blocks(buf: seq<Byte>, start: int, size: int, n: nat): (bs: seq<seq<Byte>>)
    ensures |bs| == n
    decreases n
  {
    if n == 0 then [] else [BlockAt(buf, start, size, 0)] + Blocks(buf, start + size, size, n - 1)
  }

  lemma MulStep(m: nat, size: int)
    ensures (m + 1) * size == m * size + size
    ensures 0 <= size ==> 0 <= m * size <= (m + 1) * size
  {
  }

  /** Block `i` counted from the next block's start is block `i + 1`. */
  lemma BlockAtShift(buf: seq<Byte>, headerSize: int, size: int, i: nat)
    ensures BlockAt(buf, headerSize + size, size, i) == BlockAt(buf, headerSize, size, i + 1)
  {
    MulStep(i, size);
    assert headerSize + size + i * size == headerSize + (i + 1) * size;
  }

  /** Chunk `i` is exactly the block the source slices at `headerSize + i * size`. */
  lemma {:induction false} BlocksAt(buf: seq<Byte>, headerSize: int, size: int, n: nat, i: nat)
    requires i < n
    ensures Blocks(buf, headerSize, size, n)[i] == BlockAt(buf, headerSize, size, i)
    decreases n
  {
    if i > 0 {
      assert Blocks(buf, headerSize, size, n)[i] == Blocks(buf, headerSize + size, size, n - 1)[i - 1];
      BlocksAt(buf, headerSize + size, size, n - 1, i - 1);
      BlockAtShift(buf, headerSize, size, i - 1);
    }
  }

  /** One chunk more is block `n` appended. */
  lemma BlocksSnoc(buf: seq<Byte>, headerSize: int, size: int, n: nat)
    ensures Blocks(buf, headerSize, size, n + 1) == Blocks(buf, headerSize, size, n) + [BlockAt(buf, headerSize, size, n)]
  {
    var longer := Blocks(buf, headerSize, size, n + 1);
    var shorter := Blocks(buf, headerSize, size, n);
    forall i | 0 <= i < n + 1
      ensures longer[i] == (shorter + [BlockAt(buf, headerSize, size, n)])[i]
    {
      BlocksAt(buf, headerSize, size, n + 1, i);
      if i < n {
        BlocksAt(buf, headerSize, size, n, i);
      }
    }
  }

  /** The concatenation of a sequence of blocks. */
  function Flatten(bss: seq<seq<Byte>>): (r: seq<Byte>) {
    if bss == [] then [] else bss[0] + Flatten(bss[1..])
  }

  /**
   * With a non-negative header and size, a block never fails: it is the part of
   * `[start, start + size)` that lies inside the buffer, so a block past the end
   * is truncated or empty.
   */
  lemma BlockClamped(buf: seq<Byte>, headerSize: int, size: int, i: int)
    requires 0 <= headerSize && 0 <= size && 0 <= i
    ensures var start := headerSize + i * size;
            var s := if start < |buf| then start else |buf|;
            var e := if start + size < |buf| then start + size else |buf|;
            s <= e && BlockAt(buf, headerSize, size, i) == buf[s..e]
  {
    assert 0 <= i * size;
    SliceClampedAt(buf, headerSize + i * size, size);
  }

  lemma SliceClampedAt(buf: seq<Byte>, start: int, size: int)
    requires 0 <= start && 0 <= size
    ensures var s := if start < |buf| then start else |buf|;
            var e := if start + size < |buf| then start + size else |buf|;
            s <= e && Slice(buf, start, start + size) == buf[s..e]
  {
  }

  /** A block that ends inside the buffer is exactly `size` bytes. */
  lemma BlockExact(buf: seq<Byte>, headerSize: int, size: int, i: int)
    requires 0 <= headerSize && 0 <= size && 0 <= i
    requires headerSize + i * size + size <= |buf|
    ensures |BlockAt(buf, headerSize, size, i)| == size
    ensures BlockAt(buf, headerSize, size, i) == buf[headerSize + i * size..headerSize + i * size + size]
  {
    assert 0 <= i * size;
  }

  /** When the buffer holds all `n` blocks, every one of them is exactly `size` bytes. */
  lemma {:induction false} BlocksSized(buf: seq<Byte>, headerSize: int, size: int, n: nat)
    requires 0 <= headerSize && 0 <= size
    requires headerSize + n * size <= |buf|
    ensures forall i :: 0 <= i < n ==> |Blocks(buf, headerSize, size, n)[i]| == size
    decreases n
  {
    if n > 0 {
      MulStep(n - 1, size);
      BlocksSized(buf, headerSize + size, size, n - 1);
      assert forall i :: 1 <= i < n ==>
        Blocks(buf, headerSize, size, n)[i] == Blocks(buf, headerSize + size, size, n - 1)[i - 1];
    }
  }

  /**
   * When the buffer holds all `n` blocks they are contiguous, and together they
   * are exactly the payload region `[headerSize, headerSize + n * size)`.
   */
  lemma {:induction false} BlocksContiguous(buf: seq<Byte>, headerSize: int, size: int, n: nat)
    requires 0 <= headerSize && 0 <= size
    requires headerSize + n * size <= |buf|
    ensures Flatten(Blocks(buf, headerSize, size, n)) == buf[headerSize..headerSize + n * size]
    decreases n
  {
    if n > 0 {
      var next := headerSize + size;
      MulStep(n - 1, size);
      assert next + (n - 1) * size == headerSize + n * size;
      var bs := Blocks(buf, headerSize, size, n);
      BlocksContiguous(buf, next, size, n - 1);
      assert bs[1..] == Blocks(buf, next, size, n - 1);
      assert bs[0] == buf[headerSize..next] by {
        BlockExact(buf, headerSize, size, 0);
      }
      assert Flatten(bs) == buf[headerSize..next] + buf[next..headerSize + n * size];
      SplitRange(buf, headerSize, next, headerSize + n * size);
    }
  }

  lemma SplitRange(buf: seq<Byte>, i: int, j: int, k: int)
    requires 0 <= i <= j <= k <= |buf|
    ensures buf[i..j] + buf[j..k] == buf[i..k]
  {
  }

  /**
   * Negative sizes are not rejected. The end index then lies before the
   * start: the block is empty unless the end is negative, in which case it
   * counts back from the buffer's end and the block runs from the start to
   * there.
   */
  lemma NegativeSizeBlock(buf: seq<Byte>, headerSize: int, size: int, i: int)
    requires size < 0
    requires 0 <= headerSize + i * size <= |buf|
    ensures var start := headerSize + i * size;
            var end := start + size;
            BlockAt(buf, headerSize, size, i) == if end < 0 && end + |buf| > start then buf[start..end + |buf|] else []
  {
  }

  /** For example, in a 30-byte frame a block size of -20 makes block 0 the ten bytes 12..21. */
  lemma NegativeSizeCountsFromEnd(buf: seq<Byte>)
    requires |buf| == 30
    ensures BlockAt(buf, DefaultHeaderSize, -20, 0) == buf[12..22]
  {
    NegativeSizeBlock(buf, DefaultHeaderSize, -20, 0);
  }

  /** A block size of -1 gives an empty block: its end, 11, is not after its start, 12. */
  lemma NegativeSizeCanBeEmpty(buf: seq<Byte>)
    requires |buf| == 30
    ensures BlockAt(buf, DefaultHeaderSize, -1, 0) == []
  {
    NegativeSizeBlock(buf, DefaultHeaderSize, -1, 0);
  }
}
