/**
 * The payload server's `data` handler and `sendDataToConcava`: decode the
 * buffer, drop oversized frames, then publish every block to the primary
 * broker and to each secondary instance in turn.
 *
 * The broker client and the logger are not modelled; what the handler makes
 * them do is recorded as a sequence of `Event`s, in program order. Whether a
 * call into the MQTT client throws, fails to connect or connects is an input:
 * `outcome(0)` for the primary, `outcome(k + 1)` for entry `k` of the list.
 */
module Publisher {
  import opened Wrappers
  import opened Bytes
  import opened Frames

  /** Every block is published to this topic. */
  const DataTopic := "data"

  /** One element of the secondary-instances list. */
  datatype Entry =
    | Instance(name: string, host: string)
    | Missing   // a null or undefined element: destructuring `{name, host}` throws

  /** What loading the secondary-instances list gives. */
  datatype Instances =
    | Unset                       // CONCAVA_INSTANCES_PATH is empty or not set
    | LoadFailed                  // the module cannot be loaded, or it has no forEach
    | Loaded(entries: seq<Entry>)

  /** How one call into the MQTT client turns out. */
  datatype CallOutcome =
    | Throws        // mqtt.connect throws synchronously
    | ConnectFails  // the client reports an error and never connects
    | Connects      // the client's `connect` event fires

  datatype Event =
    | Attempt(host: string, clientId: string)              // mqtt.connect('mqtt://' + host, {clientId})
    | Publish(host: string, topic: string, payload: seq<Byte>)
    | End(host: string)                                    // client.end()
    | ConnectError(host: string)                           // the client's error handler logs
    | SendFailed(name: string, host: string)               // "Failed to send data", inner catch
    | ListFailed                                           // "Failed to read file", outer catch
    | PrimaryFailed(host: string)                          // uncaught: the primary call is not guarded
    | Oversize(deviceId: string, blocks: int, size: int, payloadHex: string)
    | DecodeFailed(offset: nat)                            // uncaught RangeError from readInt8

  // ---------------------------------------------------------------------
  // Specification functions
  // ---------------------------------------------------------------------

  /** The blocks every destination of a frame is sent. */
  function FrameBlocks(buf: seq<Byte>, headerSize: int, frame: Frame): seq<seq<Byte>> {
    Blocks(buf, headerSize, frame.size, NumBlocks(frame.blocks))
  }

  /** One publish event per block, in block order. */
  function PublishAll(host: string, bs: seq<seq<Byte>>): (es: seq<Event>)
    ensures |es| == |bs|
  {
    if bs == [] then [] else PublishAll(host, bs[..|bs| - 1]) + [Publish(host, DataTopic, bs[|bs| - 1])]
  }

  /** The events of one `sendDataToConcava` call whose client is sent the blocks `bs`. */
  function SendTrace(host: string, clientId: string, bs: seq<seq<Byte>>, outcome: CallOutcome): seq<Event> {
    match outcome
    case Throws => [Attempt(host, clientId)]
    case ConnectFails => [Attempt(host, clientId), ConnectError(host)]
    case Connects => [Attempt(host, clientId)] + PublishAll(host, bs) + [End(host)]
  }

  /** A guarded call to a secondary instance: a throw is logged and swallowed. */
  function GuardedTrace(name: string, host: string, clientId: string, bs: seq<seq<Byte>>,
                        outcome: CallOutcome): seq<Event> {
    SendTrace(host, clientId, bs, outcome) + (if outcome == Throws then [SendFailed(name, host)] else [])
  }

  /** The `forEach` over the entries, the first of which is attempt number `next`. */
  function SecondaryTrace(entries: seq<Entry>, next: nat, clientId: string, bs: seq<seq<Byte>>,
                          outcome: nat -> CallOutcome): seq<Event>
    decreases |entries|
  {
    if entries == [] then []
    else match entries[0]
      case Missing => [ListFailed]
      case Instance(name, host) =>
        GuardedTrace(name, host, clientId, bs, outcome(next))
        + SecondaryTrace(entries[1..], next + 1, clientId, bs, outcome)
  }

  /** The `try` block around the secondary instances. */
  function InstancesTrace(instances: Instances, clientId: string, bs: seq<seq<Byte>>,
                          outcome: nat -> CallOutcome): seq<Event> {
    match instances
    case Unset => []
    case LoadFailed => [ListFailed]
    case Loaded(entries) => SecondaryTrace(entries, 1, clientId, bs, outcome)
  }

  /** The events of the whole `data` handler for one received buffer. */
  function OnDataTrace(cfg: Config, buf: seq<Byte>, primary: string, instances: Instances,
                       outcome: nat -> CallOutcome): seq<Event> {
    match Decode(buf)
    case Failure(e) => [DecodeFailed(e.offset)]
    case Success(frame) =>
      if TooLarge(cfg, buf) then
        [Oversize(frame.deviceId, frame.blocks, frame.size, Hex(Slice(buf, cfg.headerSize, |buf|)))]
      else
        DispatchTrace(primary, frame.deviceId, FrameBlocks(buf, cfg.headerSize, frame), instances, outcome)
  }

  /**
   * An accepted frame: the unguarded call to the primary, then, unless it
   * threw, the secondary instances.
   */
  function DispatchTrace(primary: string, clientId: string, bs: seq<seq<Byte>>, instances: Instances,
                         outcome: nat -> CallOutcome): seq<Event> {
    if outcome(0) == Throws then
      SendTrace(primary, clientId, bs, Throws) + [PrimaryFailed(primary)]
    else
      SendTrace(primary, clientId, bs, outcome(0)) + InstancesTrace(instances, clientId, bs, outcome)
  }

  // ---------------------------------------------------------------------
  // The handler
  // ---------------------------------------------------------------------

  lemma PublishAllSnoc(host: string, bs: seq<seq<Byte>>, b: seq<Byte>)
    ensures PublishAll(host, bs + [b]) == PublishAll(host, bs) + [Publish(host, DataTopic, b)]
  {
    assert (bs + [b])[..|bs|] == bs;
  }

  /** Publishing one block more appends the publish of that block. */
  lemma PublishNextBlock(host: string, buf: seq<Byte>, headerSize: int, size: int, n: nat)
    ensures PublishAll(host, Blocks(buf, headerSize, size, n + 1))
              == PublishAll(host, Blocks(buf, headerSize, size, n))
                 + [Publish(host, DataTopic, Slice(buf, headerSize + n * size, headerSize + n * size + size))]
  {
    BlocksSnoc(buf, headerSize, size, n);
    PublishAllSnoc(host, Blocks(buf, headerSize, size, n), BlockAt(buf, headerSize, size, n));
  }

  /**
   * The client's `connect` handler: for `i` from 0 while `i < blocks`, publish
   * block `i` to the data topic.
   */
  method PublishBlocks(host: string, buf: seq<Byte>, headerSize: int, blocks: int, size: int)
    returns (published: seq<Event>)
    ensures published == PublishAll(host, Blocks(buf, headerSize, size, NumBlocks(blocks)))
  {
    published := [];
    for i := 0 to NumBlocks(blocks)
      invariant published == PublishAll(host, Blocks(buf, headerSize, size, i))
    {
      var start := headerSize + i * size;
      var payload := Slice(buf, start, start + size);
      PublishNextBlock(host, buf, headerSize, size, i);
      published := published + [Publish(host, DataTopic, payload)];
    }
  }

  /**
   * `sendDataToConcava`: connect as the device, publish the blocks in order to
   * the data topic, then end the client. `threw` reports a synchronous throw.
   */
  method SendDataToConcava(host: string, frame: Frame, buf: seq<Byte>, headerSize: int, outcome: CallOutcome)
    returns (events: seq<Event>, threw: bool)
    ensures threw <==> outcome == Throws
    ensures events == SendTrace(host, frame.deviceId, FrameBlocks(buf, headerSize, frame), outcome)
  {
    events := [Attempt(host, frame.deviceId)];
    threw := outcome == Throws;
    if outcome == ConnectFails {
      events := events + [ConnectError(host)];
    } else if outcome == Connects {
      var published := PublishBlocks(host, buf, headerSize, frame.blocks, frame.size);
      events := events + published + [End(host)];
    }
  }

  /** The trace of the remaining entries from entry `k` on, one entry unfolded. */
  lemma SecondaryStep(entries: seq<Entry>, k: nat, clientId: string, bs: seq<seq<Byte>>,
                      outcome: nat -> CallOutcome)
    requires k < |entries|
    ensures entries[k].Missing? ==> SecondaryTrace(entries[k..], k + 1, clientId, bs, outcome) == [ListFailed]
    ensures entries[k].Instance? ==>
              SecondaryTrace(entries[k..], k + 1, clientId, bs, outcome)
              == GuardedTrace(entries[k].name, entries[k].host, clientId, bs, outcome(k + 1))
                 + SecondaryTrace(entries[k + 1..], k + 2, clientId, bs, outcome)
  {
    assert entries[k..][0] == entries[k];
    assert entries[k..][1..] == entries[k + 1..];
  }

  lemma AppendAssoc(a: seq<Event>, b: seq<Event>, c: seq<Event>)
    ensures (a + b) + c == a + (b + c)
  {
  }

  /**
   * The `forEach` over the loaded instances: each call is guarded by its own
   * `try`, but a missing entry throws outside it and ends the loop.
   */
  method SendToInstances(entries: seq<Entry>, frame: Frame, buf: seq<Byte>, headerSize: int,
                         outcome: nat -> CallOutcome)
    returns (events: seq<Event>)
    ensures events == SecondaryTrace(entries, 1, frame.deviceId, FrameBlocks(buf, headerSize, frame), outcome)
  {
    ghost var bs := FrameBlocks(buf, headerSize, frame);
    ghost var goal := SecondaryTrace(entries, 1, frame.deviceId, bs, outcome);
    events := [];
    for k := 0 to |entries|
      invariant events + SecondaryTrace(entries[k..], k + 1, frame.deviceId, bs, outcome) == goal
    {
      SecondaryStep(entries, k, frame.deviceId, bs, outcome);
      if entries[k].Missing? {
        events := events + [ListFailed];
        return;
      }
      var Instance(name, host) := entries[k];
      var sent, failed := SendDataToConcava(host, frame, buf, headerSize, outcome(k + 1));
      if failed {
        sent := sent + [SendFailed(name, host)];
      }
      AppendAssoc(events, sent, SecondaryTrace(entries[k + 1..], k + 2, frame.deviceId, bs, outcome));
      events := events + sent;
    }
  }

  /** The `data` handler for one received buffer. */
  method OnData(cfg: Config, buf: seq<Byte>, primary: string, instances: Instances, outcome: nat -> CallOutcome)
    returns (events: seq<Event>)
    ensures events == OnDataTrace(cfg, buf, primary, instances, outcome)
  {
    var decoded := Decode(buf);
    if decoded.Failure? {
      return [DecodeFailed(decoded.error.offset)];
    }
    var frame := decoded.value;
    if |buf| > cfg.headerSize + cfg.maxFrameSize {
      return [Oversize(frame.deviceId, frame.blocks, frame.size, Hex(Slice(buf, cfg.headerSize, |buf|)))];
    }
    var threw;
    events, threw := SendDataToConcava(primary, frame, buf, cfg.headerSize, outcome(0));
    if threw {
      events := events + [PrimaryFailed(primary)];
      return;
    }
    match instances {
      case Unset =>
      case LoadFailed =>
        events := events + [ListFailed];
      case Loaded(entries) =>
        var secondary := SendToInstances(entries, frame, buf, cfg.headerSize, outcome);
        events := events + secondary;
    }
  }

  // ---------------------------------------------------------------------
  // Properties of the trace
  // ---------------------------------------------------------------------

  /** The host an event attempts to connect to, if it is an attempt. */
  function AttemptedHost(e: Event): seq<string> {
    if e.Attempt? then [e.host] else []
  }

  /** The payload an event publishes, if it is a publish. */
  function PublishedPayload(e: Event): seq<seq<Byte>> {
    if e.Publish? then [e.payload] else []
  }

  /** The hosts connection attempts are made to, in order. */
  function Attempts(es: seq<Event>): seq<string> {
    if es == [] then [] else AttemptedHost(es[0]) + Attempts(es[1..])
  }

  /** The payloads published, to whichever host, in order. */
  function Payloads(es: seq<Event>): seq<seq<Byte>> {
    if es == [] then [] else PublishedPayload(es[0]) + Payloads(es[1..])
  }

  lemma AttemptsAppend(a: seq<Event>, b: seq<Event>)
    ensures Attempts(a + b) == Attempts(a) + Attempts(b)
    ensures Payloads(a + b) == Payloads(a) + Payloads(b)
  {
    AttemptsOfAppend(a, b);
    PayloadsOfAppend(a, b);
  }

  lemma {:induction false} AttemptsOfAppend(a: seq<Event>, b: seq<Event>)
    ensures Attempts(a + b) == Attempts(a) + Attempts(b)
    decreases |a|
  {
    if a == [] {
      assert a + b == b;
    } else {
      var ab := a + b;
      assert ab[0] == a[0];
      assert ab[1..] == a[1..] + b;
      AttemptsOfAppend(a[1..], b);
      assert Attempts(ab) == AttemptedHost(a[0]) + (Attempts(a[1..]) + Attempts(b));
    }
  }

  lemma {:induction false} PayloadsOfAppend(a: seq<Event>, b: seq<Event>)
    ensures Payloads(a + b) == Payloads(a) + Payloads(b)
    decreases |a|
  {
    if a == [] {
      assert a + b == b;
    } else {
      var ab := a + b;
      assert ab[0] == a[0];
      assert ab[1..] == a[1..] + b;
      PayloadsOfAppend(a[1..], b);
      assert Payloads(ab) == PublishedPayload(a[0]) + (Payloads(a[1..]) + Payloads(b));
    }
  }

  /** Publishing makes no connection attempt. */
  lemma {:induction false} PublishAllAttempts(host: string, bs: seq<seq<Byte>>)
    ensures Attempts(PublishAll(host, bs)) == []
    decreases |bs|
  {
    if bs != [] {
      var init := bs[..|bs| - 1];
      var p := Publish(host, DataTopic, bs[|bs| - 1]);
      PublishAllAttempts(host, init);
      AttemptsOfAppend(PublishAll(host, init), [p]);
      assert [p][1..] == [];
    }
  }

  /** Publishing sends exactly the given blocks, in order. */
  lemma {:induction false} PublishAllPayloads(host: string, bs: seq<seq<Byte>>)
    ensures Payloads(PublishAll(host, bs)) == bs
    decreases |bs|
  {
    if bs != [] {
      var init, last := bs[..|bs| - 1], bs[|bs| - 1];
      var p := Publish(host, DataTopic, last);
      PublishAllPayloads(host, init);
      PayloadsOfAppend(PublishAll(host, init), [p]);
      assert [p][1..] == [];
      assert init + [last] == bs;
    }
  }

  /** One call attempts its host once, and sends the blocks only if it connects. */
  lemma SendTraceEffects(host: string, clientId: string, bs: seq<seq<Byte>>, outcome: CallOutcome)
    ensures Attempts(SendTrace(host, clientId, bs, outcome)) == [host]
    ensures Payloads(SendTrace(host, clientId, bs, outcome)) == (if outcome == Connects then bs else [])
  {
    var a := [Attempt(host, clientId)];
    assert a[1..] == [];
    match outcome
    case Throws =>
    case ConnectFails =>
      AttemptsAppend(a, [ConnectError(host)]);
      assert [ConnectError(host)][1..] == [];
    case Connects =>
      var e := [End(host)];
      assert e[1..] == [];
      PublishAllAttempts(host, bs);
      PublishAllPayloads(host, bs);
      AttemptsAppend(a, PublishAll(host, bs));
      AttemptsAppend(a + PublishAll(host, bs), e);
  }

  /** A guarded call does the same, whether or not it logs a failure. */
  lemma GuardedTraceEffects(name: string, host: string, clientId: string, bs: seq<seq<Byte>>,
                            outcome: CallOutcome)
    ensures Attempts(GuardedTrace(name, host, clientId, bs, outcome)) == [host]
    ensures Payloads(GuardedTrace(name, host, clientId, bs, outcome)) == (if outcome == Connects then bs else [])
  {
    var logged: seq<Event> := if outcome == Throws then [SendFailed(name, host)] else [];
    assert Attempts(logged) == [] && Payloads(logged) == [] by {
      if logged != [] {
        assert logged[1..] == [];
      }
    }
    SendTraceEffects(host, clientId, bs, outcome);
    AttemptsAppend(SendTrace(host, clientId, bs, outcome), logged);
  }

  /** The hosts of the entries before the first missing one. */
  function HostsBeforeMissing(entries: seq<Entry>): (hosts: seq<string>)
    ensures |hosts| <= |entries|
  {
    if entries == [] || entries[0].Missing? then [] else [entries[0].host] + HostsBeforeMissing(entries[1..])
  }

  /** How many of the entries before the first missing one connect, the first being attempt `next`. */
  function ConnectedBeforeMissing(entries: seq<Entry>, next: nat, outcome: nat -> CallOutcome): (n: nat)
    ensures n <= |entries|
  {
    if entries == [] || entries[0].Missing? then 0
    else (if outcome(next) == Connects then 1 else 0) + ConnectedBeforeMissing(entries[1..], next + 1, outcome)
  }

  /** The hosts the secondary list makes the handler attempt. */
  function SecondaryHosts(instances: Instances): seq<string> {
    if instances.Loaded? then HostsBeforeMissing(instances.entries) else []
  }

  /** How many secondary instances are sent the blocks. */
  function SecondaryConnected(instances: Instances, outcome: nat -> CallOutcome): nat {
    if instances.Loaded? then ConnectedBeforeMissing(instances.entries, 1, outcome) else 0
  }

  /** `n` copies of the blocks, one after another. */
  function Repeat(bs: seq<seq<Byte>>, n: nat): seq<seq<Byte>> {
    if n == 0 then [] else bs + Repeat(bs, n - 1)
  }

  /** `n` copies hold `n` times as many blocks, and copy `c` starts at block `c * |bs|`. */
  lemma {:induction false} RepeatAt(bs: seq<seq<Byte>>, n: nat, c: nat, i: nat)
    requires c < n && i < |bs|
    ensures |Repeat(bs, n)| == n * |bs|
    ensures Repeat(bs, n)[c * |bs| + i] == bs[i]
    decreases n
  {
    var rest := Repeat(bs, n - 1);
    if n > 1 {
      RepeatAt(bs, n - 1, if c == 0 then 0 else c - 1, i);
    } else {
      assert rest == [];
    }
    assert (n - 1) * |bs| + |bs| == n * |bs|;
    if c > 0 {
      assert (c - 1) * |bs| + i + |bs| == c * |bs| + i;
    }
  }

  /**
   * Every entry up to the first missing one is attempted, in list order, no
   * matter how the calls for the entries before it turn out.
   */
  lemma {:induction false} SecondaryAttempts(entries: seq<Entry>, next: nat, clientId: string,
                                             bs: seq<seq<Byte>>, outcome: nat -> CallOutcome)
    ensures Attempts(SecondaryTrace(entries, next, clientId, bs, outcome)) == HostsBeforeMissing(entries)
    decreases |entries|
  {
    if entries == [] {
    } else if entries[0].Missing? {
      assert [ListFailed][1..] == [];
    } else {
      var Instance(name, host) := entries[0];
      var head := GuardedTrace(name, host, clientId, bs, outcome(next));
      var rest := SecondaryTrace(entries[1..], next + 1, clientId, bs, outcome);
      GuardedTraceEffects(name, host, clientId, bs, outcome(next));
      SecondaryAttempts(entries[1..], next + 1, clientId, bs, outcome);
      AttemptsOfAppend(head, rest);
    }
  }

  /** Each secondary instance reached that connects is sent the blocks once, in list order. */
  lemma {:induction false} SecondaryPayloads(entries: seq<Entry>, next: nat, clientId: string,
                                             bs: seq<seq<Byte>>, outcome: nat -> CallOutcome)
    ensures Payloads(SecondaryTrace(entries, next, clientId, bs, outcome))
              == Repeat(bs, ConnectedBeforeMissing(entries, next, outcome))
    decreases |entries|
  {
    if entries == [] {
    } else if entries[0].Missing? {
      assert [ListFailed][1..] == [];
    } else {
      var Instance(name, host) := entries[0];
      var head := GuardedTrace(name, host, clientId, bs, outcome(next));
      var rest := SecondaryTrace(entries[1..], next + 1, clientId, bs, outcome);
      var n := ConnectedBeforeMissing(entries[1..], next + 1, outcome);
      var c := if outcome(next) == Connects then 1 else 0;
      assert SecondaryTrace(entries, next, clientId, bs, outcome) == head + rest;
      assert ConnectedBeforeMissing(entries, next, outcome) == c + n;
      GuardedTraceEffects(name, host, clientId, bs, outcome(next));
      SecondaryPayloads(entries[1..], next + 1, clientId, bs, outcome);
      PayloadsOfAppend(head, rest);
      RepeatStep(bs, c, n);
    }
  }

  /** One copy more, or none, in front of `n` copies. */
  lemma RepeatStep(bs: seq<seq<Byte>>, c: nat, n: nat)
    requires c <= 1
    ensures Repeat(bs, c + n) == (if c == 1 then bs else []) + Repeat(bs, n)
  {
    if c == 0 {
      assert [] + Repeat(bs, n) == Repeat(bs, n);
    }
  }

  /**
   * The secondary-instances block attempts the listed hosts up to the first
   * missing entry and sends the blocks to each of them that connects.
   */
  lemma InstancesEffects(instances: Instances, clientId: string, bs: seq<seq<Byte>>, outcome: nat -> CallOutcome)
    ensures Attempts(InstancesTrace(instances, clientId, bs, outcome)) == SecondaryHosts(instances)
    ensures Payloads(InstancesTrace(instances, clientId, bs, outcome))
              == Repeat(bs, SecondaryConnected(instances, outcome))
  {
    match instances
    case Unset =>
    case LoadFailed =>
      assert [ListFailed][1..] == [];
    case Loaded(entries) =>
      SecondaryAttempts(entries, 1, clientId, bs, outcome);
      SecondaryPayloads(entries, 1, clientId, bs, outcome);
  }

  /**
   * The primary is attempted first, as the frame's device; then, unless that
   * call throws, every secondary instance up to the first missing entry, in
   * list order. The blocks are published once per destination that
   * connects, the primary first.
   */
  lemma DispatchEffects(primary: string, clientId: string, bs: seq<seq<Byte>>, instances: Instances,
                        outcome: nat -> CallOutcome)
    ensures DispatchTrace(primary, clientId, bs, instances, outcome)[0] == Attempt(primary, clientId)
    ensures Attempts(DispatchTrace(primary, clientId, bs, instances, outcome))
              == [primary] + (if outcome(0) == Throws then [] else SecondaryHosts(instances))
    ensures Payloads(DispatchTrace(primary, clientId, bs, instances, outcome))
              == Repeat(bs, (if outcome(0) == Connects then 1 else 0)
                            + (if outcome(0) == Throws then 0 else SecondaryConnected(instances, outcome)))
  {
    var first := SendTrace(primary, clientId, bs, outcome(0));
    SendTraceEffects(primary, clientId, bs, outcome(0));
    if outcome(0) == Throws {
      AttemptsAppend(first, [PrimaryFailed(primary)]);
      assert [PrimaryFailed(primary)][1..] == [];
    } else {
      var n := SecondaryConnected(instances, outcome);
      AttemptsAppend(first, InstancesTrace(instances, clientId, bs, outcome));
      InstancesEffects(instances, clientId, bs, outcome);
      if outcome(0) == Connects {
        assert Repeat(bs, 1 + n) == bs + Repeat(bs, n);
      } else {
        assert [] + Repeat(bs, n) == Repeat(bs, n);
      }
    }
  }

  /** A frame is accepted when it decodes and is within the size limit. */
  predicate Accepted(cfg: Config, buf: seq<Byte>) {
    Decode(buf).Success? && !TooLarge(cfg, buf)
  }

  /**
   * A buffer too short to decode, or longer than the limit, leads to exactly
   * one logged event and reaches no broker.
   */
  lemma RejectedFramesReachNoBroker(cfg: Config, buf: seq<Byte>, primary: string, instances: Instances,
                                    outcome: nat -> CallOutcome)
    requires !Accepted(cfg, buf)
    ensures |buf| < 10 ==> OnDataTrace(cfg, buf, primary, instances, outcome) == [DecodeFailed(Decode(buf).error.offset)]
    ensures |buf| >= 10 ==> (|OnDataTrace(cfg, buf, primary, instances, outcome)| == 1
                             && OnDataTrace(cfg, buf, primary, instances, outcome)[0].Oversize?)
    ensures Attempts(OnDataTrace(cfg, buf, primary, instances, outcome)) == []
    ensures Payloads(OnDataTrace(cfg, buf, primary, instances, outcome)) == []
  {
    assert OnDataTrace(cfg, buf, primary, instances, outcome)[1..] == [];
  }

  /**
   * For an accepted frame the primary is attempted first, as the frame's
   * device; then, unless that call throws, every secondary instance up to the
   * first missing entry, in list order.
   */
  lemma AttemptOrder(cfg: Config, buf: seq<Byte>, primary: string, instances: Instances,
                     outcome: nat -> CallOutcome)
    requires Accepted(cfg, buf)
    ensures OnDataTrace(cfg, buf, primary, instances, outcome)[0] == Attempt(primary, Decode(buf).value.deviceId)
    ensures Attempts(OnDataTrace(cfg, buf, primary, instances, outcome))
              == [primary] + (if outcome(0) == Throws then [] else SecondaryHosts(instances))
  {
    var frame := Decode(buf).value;
    DispatchEffects(primary, frame.deviceId, FrameBlocks(buf, cfg.headerSize, frame), instances, outcome);
  }

  /**
   * Isolation: how the secondary calls turn out changes nothing about which
   * hosts are attempted, in which order.
   */
  lemma SecondaryFailuresAreIsolated(cfg: Config, buf: seq<Byte>, primary: string, instances: Instances,
                                     outcome1: nat -> CallOutcome, outcome2: nat -> CallOutcome)
    requires Accepted(cfg, buf)
    requires outcome1(0) == outcome2(0)
    ensures Attempts(OnDataTrace(cfg, buf, primary, instances, outcome1))
              == Attempts(OnDataTrace(cfg, buf, primary, instances, outcome2))
  {
    AttemptOrder(cfg, buf, primary, instances, outcome1);
    AttemptOrder(cfg, buf, primary, instances, outcome2);
  }

  /**
   * For an accepted frame, the published payloads are the frame's blocks,
   * once per destination that connects: the primary first, then the
   * secondaries reached.
   */
  lemma PublishedPayloads(cfg: Config, buf: seq<Byte>, primary: string, instances: Instances,
                          outcome: nat -> CallOutcome)
    requires Accepted(cfg, buf)
    ensures Payloads(OnDataTrace(cfg, buf, primary, instances, outcome))
              == Repeat(FrameBlocks(buf, cfg.headerSize, Decode(buf).value),
                        (if outcome(0) == Connects then 1 else 0)
                        + (if outcome(0) == Throws then 0 else SecondaryConnected(instances, outcome)))
  {
    var frame := Decode(buf).value;
    DispatchEffects(primary, frame.deviceId, FrameBlocks(buf, cfg.headerSize, frame), instances, outcome);
  }

  /**
   * A connected destination gets `max(blocks, 0)` publishes to the data
   * topic, block `i` being the slice from `headerSize + i * size`, and the
   * client is ended after the last one.
   */
  lemma ConnectedCallPublishesEveryBlock(host: string, frame: Frame, buf: seq<Byte>, headerSize: int)
    ensures |SendTrace(host, frame.deviceId, FrameBlocks(buf, headerSize, frame), Connects)|
              == NumBlocks(frame.blocks) + 2
    ensures SendTrace(host, frame.deviceId, FrameBlocks(buf, headerSize, frame), Connects)[0]
              == Attempt(host, frame.deviceId)
    ensures forall i :: 0 <= i < NumBlocks(frame.blocks) ==>
              SendTrace(host, frame.deviceId, FrameBlocks(buf, headerSize, frame), Connects)[i + 1]
              == Publish(host, DataTopic, BlockAt(buf, headerSize, frame.size, i))
    ensures SendTrace(host, frame.deviceId, FrameBlocks(buf, headerSize, frame), Connects)[NumBlocks(frame.blocks) + 1]
              == End(host)
  {
    var n := NumBlocks(frame.blocks);
    var bs := FrameBlocks(buf, headerSize, frame);
    var es := SendTrace(host, frame.deviceId, bs, Connects);
    forall i | 0 <= i < n
      ensures es[i + 1] == Publish(host, DataTopic, BlockAt(buf, headerSize, frame.size, i))
    {
      PublishAllAt(host, bs, i);
      BlocksAt(buf, headerSize, frame.size, n, i);
    }
  }

  /** Element `i` of the publishes is the publish of block `i`. */
  lemma {:induction false} PublishAllAt(host: string, bs: seq<seq<Byte>>, i: nat)
    requires i < |bs|
    ensures PublishAll(host, bs)[i] == Publish(host, DataTopic, bs[i])
    decreases |bs|
  {
    if i < |bs| - 1 {
      PublishAllAt(host, bs[..|bs| - 1], i);
    }
  }

  /**
   * A secondary instance whose call throws, reached before any missing entry,
   * has its failure logged; the calls after it still happen (`AttemptOrder`).
   */
  lemma {:induction false} SecondaryFailureLogged(entries: seq<Entry>, next: nat, clientId: string,
                                                  bs: seq<seq<Byte>>, outcome: nat -> CallOutcome, k: nat)
    requires k < |entries|
    requires forall j :: 0 <= j <= k ==> entries[j].Instance?
    requires outcome(next + k) == Throws
    ensures SendFailed(entries[k].name, entries[k].host) in SecondaryTrace(entries, next, clientId, bs, outcome)
    decreases k
  {
    var Instance(name, host) := entries[0];
    var head := GuardedTrace(name, host, clientId, bs, outcome(next));
    var rest := SecondaryTrace(entries[1..], next + 1, clientId, bs, outcome);
    if k == 0 {
      assert head[|head| - 1] == SendFailed(name, host);
      assert (head + rest)[|head| - 1] == SendFailed(name, host);
    } else {
      assert forall j :: 0 <= j <= k - 1 ==> entries[1..][j] == entries[j + 1];
      SecondaryFailureLogged(entries[1..], next + 1, clientId, bs, outcome, k - 1);
      assert entries[1..][k - 1] == entries[k];
    }
  }

  /**
   * For an accepted frame whose primary call does not throw, a throwing
   * secondary before any missing entry is logged.
   */
  lemma FailureLogged(cfg: Config, buf: seq<Byte>, primary: string, entries: seq<Entry>,
                      outcome: nat -> CallOutcome, k: nat)
    requires Accepted(cfg, buf)
    requires outcome(0) != Throws
    requires k < |entries|
    requires forall j :: 0 <= j <= k ==> entries[j].Instance?
    requires outcome(k + 1) == Throws
    ensures SendFailed(entries[k].name, entries[k].host) in OnDataTrace(cfg, buf, primary, Loaded(entries), outcome)
  {
    var frame := Decode(buf).value;
    var bs := FrameBlocks(buf, cfg.headerSize, frame);
    SecondaryFailureLogged(entries, 1, frame.deviceId, bs, outcome, k);
  }
}
