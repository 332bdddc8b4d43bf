# concava-connector-spul, modelled in Dafny

The connector runs two TCP servers for SPUL devices:

- a **timestamp responder**, which answers every connection with the current
  Unix time as four bytes;
- a **payload server**, which receives binary frames and republishes their
  blocks over MQTT.

A payload frame has four parts:

- bytes `[0, 8)`: the device id;
- byte 8: a signed block count;
- byte 9: a signed block size;
- from `headerSize` on: the blocks, back to back.

For every received buffer, the payload server does the following:

1. It decodes the header.
2. It drops a buffer longer than `headerSize + maxFrameSize`.
3. It makes one MQTT client per destination, using the device id (as lowercase
   hex) as the client id. On `connect`, it publishes each block to the topic
   `data`, then ends the client.
4. Destinations are tried in this order: the primary broker, then each entry of
   an optional list of secondary instances. Each secondary call is guarded on
   its own, so a failing instance does not stop the ones after it.

The project models this core, `src/connector.js`, in five modules.

- `Wrappers`: `Option` and `Result`.
- `Bytes`: bytes, with these operations:
  - `buf.toString('hex')` as `Hex`, with its inverse `ParseHex`;
  - `readInt8` as `Int8`;
  - Node's `Buffer.slice` as `Slice`. A negative index counts from the end, and
    indices are clamped to the buffer.
- `Frames`: the frame and its configuration.
  - The `1 * env || default` settings, where a missing, non-numeric or zero
    value falls back to the default.
  - `Decode`. A buffer too short for `readInt8(8)` or `readInt8(9)` is a
    `Failure` naming the offset read.
  - The size check `TooLarge`.
  - The arithmetic block boundaries: `BlockAt`, and `Blocks`, the blocks laid
    end to end.
- `Publisher`: the `data` handler and `sendDataToConcava`, written as methods
  with the source's two loops.
  - The block loop is in `PublishBlocks`.
  - The `forEach` over the instances is in `SendToInstances`.
  - Each method is proved equal to a trace function (`SendTrace`,
    `SecondaryTrace`, `OnDataTrace`).
  - The trace is a sequence of `Event`s: connection attempts, publishes,
    `end()` calls and log lines.
  - Properties are proved about the trace functions: attempt order, isolation,
    publish counts and contents, failures logged, rejected frames reaching no
    broker.
- `Timestamp`: the responder's four-byte reply, big- or little-endian. It has
  round trips through the byte values, and little-endian is proved to be the
  reverse of big-endian.

Each call into the MQTT client has one of three outcomes:

- `mqtt.connect` throws;
- the client reports an error and never connects;
- the client connects.

The outcome is an input, a function of the attempt number: 0 is the primary,
and `k + 1` is entry `k` of the list. The instances list is an input as well.
It is `Unset`, `LoadFailed`, or a sequence of entries, where an entry can be
`Missing` (a `null` element).

Behaviours of `src/connector.js` the model keeps as written:

- **Decode errors.** Decoding fails only when `readInt8` runs off the end,
  that is, for a buffer shorter than 10 bytes; the RangeError is not caught
  by the handler. The header size plays no part in decoding: with the default
  header size of 12, a buffer of 10 or 11 bytes decodes and is sent on.
- **Block lengths.** Blocks are sliced without comparing `blocks * size` with
  the buffer length, so a block past the end is shorter or empty
  (`BlockClamped`). A negative size is not rejected: the block is empty unless
  its end index is negative, in which case that end counts back from the end
  of the buffer (`NegativeSizeBlock`).
- **The primary call is not guarded.** Only the secondary calls are inside a
  `try`. If the primary `sendDataToConcava` throws, the exception leaves the
  handler: no secondary is attempted, and the process-wide uncaught-exception
  handler logs it.
- **Missing entries.** A `null` entry in the list throws while its
  `{name, host}` is destructured. That happens outside the inner `try`, so the
  outer `catch` logs "Failed to read file" and no later entry is attempted.
- **Loading the instances list.** The list is loaded with `require`, which
  caches the module after the first load. The model takes the list as an
  input of each call.

## Model

| member | source | states |
|---|---|---|
| Bytes.Hex | src/connector.js:104 | the hex rendering has two characters per byte, each a lowercase hex digit |
| Bytes.HexAt | src/connector.js:104 | characters `2k` and `2k+1` are the high and low nibble of byte `k` |
| Bytes.ParseHexOfHex | src/connector.js:104 | parsing the hex rendering gives back exactly the bytes rendered |
| Bytes.HexInjective | src/connector.js:104 | different byte strings have different hex renderings |
| Bytes.Int8 | src/connector.js:105-106 | `readInt8` lies in -128..127, agrees with the byte modulo 256, and is negative exactly when the top bit is set |
| Bytes.Int8Unique | src/connector.js:105-106 | the two's-complement reading is the only value in -128..127 congruent to the byte |
| Bytes.Slice | src/connector.js:71 | `buf.slice` never fails and is never longer than the buffer; with indices in range it is the plain sub-sequence |
| Bytes.SliceIndex | src/connector.js:71 | an index resolved against a buffer never lies past its end, and an index inside the buffer is kept as it is |
| Bytes.SliceFromEnd | src/connector.js:71 | a negative start or end index counts back from the end of the buffer: the slice is the one with that index plus the buffer length |
| Bytes.SliceClamps | src/connector.js:71 | a start before the beginning is clamped to 0 and an end past the end to the length; an end before the beginning or a start at or past the end gives an empty slice |
| Bytes.SliceReversed | src/connector.js:71 | an end that is not after the start gives an empty buffer rather than an error |
| Frames.ConfigFrom | src/connector.js:27-28 | the header size is never zero, since zero falls back to 12; unless MAX_FRAME_SIZE is set to a non-zero number, header size plus maximum frame size is 512 |
| Frames.DefaultLimit | src/connector.js:27-28 | unless MAX_FRAME_SIZE is set, the header size is never zero and a buffer is too large exactly when it exceeds 512 bytes, whatever the header size; the unset defaults are 12 and 500 |
| Frames.Decode | src/connector.js:103-106 | decoding fails exactly when the buffer is shorter than 10 bytes, naming offset 8 or 9; otherwise the device id is 16 lowercase hex digits that parse back to bytes `[0, 8)`, and the count and size are the signed readings of bytes 8 and 9 |
| Frames.DeviceIdInjective | src/connector.js:104 | two decoded buffers with the same device id agree on their first eight bytes |
| Frames.TooLarge | src/connector.js:108 | a buffer is dropped exactly when its length exceeds `headerSize + maxFrameSize`; only the length is compared. `DefaultLimit` gives the 512-byte default and `RejectedFramesReachNoBroker` shows that a dropped buffer reaches no broker |
| Frames.NumBlocks | src/connector.js:69 | the loop runs `max(blocks, 0)` times: never fewer than `blocks`, and either `blocks` or zero |
| Frames.BlockAt | src/connector.js:70-71 | block `i` is `buf.slice(start, start + size)` with `start = headerSize + i * size`; `BlockExact`, `BlockClamped` and `NegativeSizeBlock` state what it holds in each case |
| Frames.Blocks | src/connector.js:69-71 | `n` blocks laid end to end are exactly `n` slices |
| Frames.BlocksAt | src/connector.js:69-71 | block `i` of them is the slice starting at `headerSize + i * size` and `size` long |
| Frames.BlocksSnoc | src/connector.js:69-71 | one more iteration appends the slice at the next arithmetic offset |
| Frames.BlockClamped | src/connector.js:70-71 | with non-negative header, size and index, a block is the part of `[start, start + size)` inside the buffer, which may be short or empty |
| Frames.BlockExact | src/connector.js:70-71 | a block that ends inside the buffer is exactly `size` bytes from `headerSize + i * size` |
| Frames.BlocksSized | src/connector.js:69-71 | when all blocks fit, every one of them has length `size` |
| Frames.BlocksContiguous | src/connector.js:69-71 | when all blocks fit, their concatenation is the buffer from `headerSize` to `headerSize + n * size`: no gaps, no overlap |
| Frames.NegativeSizeBlock | src/connector.js:70-71 | with a negative size and a start inside the buffer, the block is empty unless the end index is negative; a negative end counts back from the end of the buffer, and the block runs from the start to there |
| Frames.NegativeSizeCountsFromEnd | src/connector.js:70-71 | one example: in a 30-byte frame a size of -20 makes block 0 the ten bytes 12..21 |
| Frames.NegativeSizeCanBeEmpty | src/connector.js:70-71 | one example: in a 30-byte frame a size of -1 makes block 0 empty |
| Publisher.PublishAll | src/connector.js:77 | one publish per block |
| Publisher.PublishAllAt | src/connector.js:77 | publish `i` carries block `i` on the topic `data` |
| Publisher.PublishNextBlock | src/connector.js:69-77 | one more loop iteration appends the publish of the slice at the next offset |
| Publisher.PublishBlocks | src/connector.js:68-78 | the connect handler's loop publishes exactly the frame's `max(blocks, 0)` blocks, in order, to `data` |
| Publisher.SendDataToConcava | src/connector.js:55-81 | one call makes one attempt as the device; it reports a throw exactly when `mqtt.connect` throws; it logs the error if connecting fails, and otherwise publishes every block and then ends the client |
| Publisher.SendToInstances | src/connector.js:129-135 | the `forEach` gives each entry its guarded call, in list order, and a missing entry ends it with the outer log |
| Publisher.OnData | src/connector.js:102-140 | the handler's events are the trace of decode, size check, unguarded primary call and the guarded secondary calls |
| Publisher.PublishAllAttempts | src/connector.js:77 | publishing makes no connection attempt |
| Publisher.PublishAllPayloads | src/connector.js:77 | the payloads published are exactly the blocks, in order |
| Publisher.SendTraceEffects | src/connector.js:55-81 | a call attempts its host exactly once, and sends the blocks exactly when it connects |
| Publisher.GuardedTrace | src/connector.js:130-134 | the inner `try`: the events of the call, then "Failed to send data" with the name and host exactly when the call throws; `GuardedTraceEffects` and `SecondaryFailureLogged` state its effects |
| Publisher.GuardedTraceEffects | src/connector.js:130-134 | logging a caught failure adds no attempt and no publish |
| Publisher.SecondaryAttempts | src/connector.js:129-135 | the secondary hosts attempted are the listed hosts up to the first missing entry, in list order, whatever the calls' outcomes |
| Publisher.SecondaryPayloads | src/connector.js:129-135 | the secondaries publish the blocks once per reached instance that connects |
| Publisher.InstancesEffects | src/connector.js:126-139 | an unset or unreadable list attempts nothing; a loaded one attempts its hosts up to the first missing entry |
| Publisher.DispatchEffects | src/connector.js:123-139 | for an accepted frame the primary is attempted first; the secondaries follow unless the primary call threw; the blocks go once to each destination that connects, primary first |
| Publisher.RejectedFramesReachNoBroker | src/connector.js:105-115 | a buffer under 10 bytes yields only the decode error, an oversized one only the "Max frame size exceeded" log; neither attempts a broker or publishes |
| Publisher.AttemptOrder | src/connector.js:123-139 | for an accepted frame the attempts are the primary as the device, then, unless that call threw, the secondaries up to the first missing entry |
| Publisher.SecondaryFailuresAreIsolated | src/connector.js:129-135 | how the secondary calls turn out never changes which hosts are attempted or their order |
| Publisher.PublishedPayloads | src/connector.js:123-139 | for an accepted frame the payloads published are the frame's blocks repeated once per connecting destination |
| Publisher.ConnectedCallPublishesEveryBlock | src/connector.js:68-80 | a connected call is the attempt, then `max(blocks, 0)` publishes of block `i` to `data`, then `end()` |
| Publisher.RepeatAt | src/connector.js:129-135 | the blocks sent to `n` destinations number `n` times the block count, copy `c` repeating block `i` at position `c * |bs| + i` |
| Publisher.SecondaryFailureLogged | src/connector.js:130-134 | a reached secondary whose call throws has "Failed to send data" logged with its name and host |
| Publisher.FailureLogged | src/connector.js:126-139 | for an accepted frame whose primary call does not throw, a throwing secondary before any missing entry is logged |
| Timestamp.EncodeTimestamp | src/connector.js:41-42 | the reply is written exactly when the time fits in an unsigned 32-bit integer, and is then four bytes |
| Timestamp.BytesBERoundTrip | src/connector.js:42 | reading big-endian bytes back gives the value written |
| Timestamp.BytesLERoundTrip | src/connector.js:42 | reading little-endian bytes back gives the value written |
| Timestamp.BytesLEIsReverse | src/connector.js:42 | little-endian bytes are the big-endian bytes reversed |
| Timestamp.BigEndianRoundTrip | src/connector.js:42 | the big-endian reply decodes to the time sent |
| Timestamp.LittleEndianRoundTrip | src/connector.js:42 | the little-endian reply decodes to the time sent |
| Timestamp.LittleEndianIsReversed | src/connector.js:42 | the little-endian reply is the big-endian reply reversed |
| Timestamp.DistinctTimesDistinctReplies | src/connector.js:41-42 | different times in range give different replies in either byte order |
| Timestamp.BigEndianLayout | src/connector.js:42 | the big-endian reply is the time's bytes from most to least significant |

## Left out

- The TCP servers are not modelled: listening, socket timeouts, `close` handlers with `process.exit`, and the `total` connection counter. The model starts at one received `data` chunk, treated as one frame.
- Environment parsing is taken as input. The settings arrive already converted to a number, or `None`. Non-integer values are not modelled. The MQTT host, ports and endianness are plain parameters of the operations.
- The clock is an input. `Math.round(Date.now() / 1000)` becomes the time `t` given to `EncodeTimestamp`, and the handler's own timestamp, used only in log records, is dropped.
- Log records are reduced to an event carrying the fields that identify them. This applies to the error handler's fields, the per-block `payload` info lines (lines 72-75) and the `data` info line (lines 117-121), which are not modelled: they only log.
- Loading the instances list is taken as input. `require(path.resolve(...))` and its module cache become the `Instances` value. "Not iterable" and "file unreadable" are both `LoadFailed`.
- MQTT client internals are not modelled: reconnects, QoS, the password and the 3000 ms connect timeout. Each call has one of the three outcomes above, and an error after connecting is not modelled.
- Asynchrony is serialised per destination. Each destination's attempt, publishes and `end()` appear together, in call order. The real interleaving across destinations, in the connect callbacks, is not modelled.
- `EncodeTimestamp`: when the time is out of the 32-bit range, `writeUInt32BE`/`LE` throws. The model returns `None` for that case. What the uncaught error then does to the socket is not modelled.
