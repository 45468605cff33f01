/** Values shared by every part of the data collector model. */
module Types {

  datatype Option<T> = None | Some(value: T)

  /** The Python exceptions that the modelled code lets escape to its caller. */
  datatype PyError = ValueError | KeyError | AssertionError | AttributeError

  /** What a Python call ends with: a returned value, or an exception that propagates. */
  datatype Outcome<T> = Returned(value: T) | Raised(error: PyError)

  /**
   * One field of a control-port event line: its text, and what Python's
   * int() and float() make of that text (None where they raise ValueError).
   */
  datatype Token = Token(text: string, asInt: Option<int>, asFloat: Option<real>)

  /** A share keeper's identifier, and the digest of its public key. */
  type SkUid = string
  type Digest = string

  /** The traffic class of an exit stream, chosen by its port. */
  datatype TrafficClass = Web | Interactive | P2P | Other

  /** One value per traffic class (the source's dicts keyed 'web', 'interactive', 'p2p', 'other'). */
  datatype PerClass<T> = PerClass(web: T, interactive: T, p2p: T, other: T) {

    function Get(c: TrafficClass): T {
      match c
      case Web => web
      case Interactive => interactive
      case P2P => p2p
      case Other => other
    }

    /** Replaces the value of class `c`, keeping the other three. */
    function Set(c: TrafficClass, v: T): (r: PerClass<T>)
      ensures r.Get(c) == v
      ensures forall d :: d != c ==> r.Get(d) == Get(d)
    {
      match c
      case Web => this.(web := v)
      case Interactive => this.(interactive := v)
      case P2P => this.(p2p := v)
      case Other => this.(other := v)
    }
  }

  /**
   * The value _encode_ratio bins a byte or cell ratio under: an exact number
   * (0, or the float_info exponent sentinels), or log base 2 of a positive
   * quotient (the logarithm itself is not computed).
   */
  datatype Ratio = Exact(v: int) | Log2(quotient: real)

  /** The bin of one counter increment. */
  datatype Bin = SingleBin | IntBin(n: int) | RealBin(x: real) | RatioBin(ratio: Ratio)

  /** One stream byte-transfer observation: [bw_bytes, is_outbound, ts]. */
  datatype ByteSample = ByteSample(bytes: int, isOutbound: int, time: real)

  /** The statistic of an exit stream counter group. */
  datatype StreamStat = Count | ByteCount | OutboundByteCount | InboundByteCount | ByteRatio | LifeTime

  /**
   * The counters the aggregator increments. A per-class counter carries its
   * class; the exit stream counters carry their group (None for the overall
   * group) and statistic. Name() is the counter's name in the counter config.
   */
  datatype Counter =
    | ExitStream(group: Option<TrafficClass>, stat: StreamStat)
    | EntryCircuitCount | EntryActiveCircuitCount | EntryInactiveCircuitCount
    | EntryCircuitInboundCellCount | EntryCircuitOutboundCellCount | EntryCircuitCellRatio
    | ExitCircuitCount | ExitCircuitLifeTime
    | ExitActiveCircuitCount | ExitActiveCircuitLifeTime
    | ExitInactiveCircuitCount | ExitInactiveCircuitLifeTime
    | ExitCircuitStreamCount | ExitCircuitInterStreamCreationTime
    | ExitClassCircuitCount(cls: TrafficClass)
    | ExitCircuitClassStreamCount(cls: TrafficClass)
    | ExitCircuitClassInterStreamCreationTime(cls: TrafficClass)
    | EntryConnectionCount | EntryConnectionLifeTime
    | EntryClientIPActiveCircuitCount | EntryClientIPInactiveCircuitCount
    | EntryClientIPCount | EntryActiveClientIPCount | EntryInactiveClientIPCount
  {
    function Name(): string {
      match this
      case ExitStream(g, st) =>
        "Exit" + (if g.Some? then ClassLabel(g.value) else "") + "Stream" + StatLabel(st)
      case EntryCircuitCount => "EntryCircuitCount"
      case EntryActiveCircuitCount => "EntryActiveCircuitCount"
      case EntryInactiveCircuitCount => "EntryInactiveCircuitCount"
      case EntryCircuitInboundCellCount => "EntryCircuitInboundCellCount"
      case EntryCircuitOutboundCellCount => "EntryCircuitOutboundCellCount"
      case EntryCircuitCellRatio => "EntryCircuitCellRatio"
      case ExitCircuitCount => "ExitCircuitCount"
      case ExitCircuitLifeTime => "ExitCircuitLifeTime"
      case ExitActiveCircuitCount => "ExitActiveCircuitCount"
      case ExitActiveCircuitLifeTime => "ExitActiveCircuitLifeTime"
      case ExitInactiveCircuitCount => "ExitInactiveCircuitCount"
      case ExitInactiveCircuitLifeTime => "ExitInactiveCircuitLifeTime"
      case ExitCircuitStreamCount => "ExitCircuitStreamCount"
      case ExitCircuitInterStreamCreationTime => "ExitCircuitInterStreamCreationTime"
      case ExitClassCircuitCount(c) => "Exit" + ClassLabel(c) + "CircuitCount"
      case ExitCircuitClassStreamCount(c) => "ExitCircuit" + ClassLabel(c) + "StreamCount"
      case ExitCircuitClassInterStreamCreationTime(c) => "ExitCircuit" + ClassLabel(c) + "InterStreamCreationTime"
      case EntryConnectionCount => "EntryConnectionCount"
      case EntryConnectionLifeTime => "EntryConnectionLifeTime"
      case EntryClientIPActiveCircuitCount => "EntryClientIPActiveCircuitCount"
      case EntryClientIPInactiveCircuitCount => "EntryClientIPInactiveCircuitCount"
      case EntryClientIPCount => "EntryClientIPCount"
      case EntryActiveClientIPCount => "EntryActiveClientIPCount"
      case EntryInactiveClientIPCount => "EntryInactiveClientIPCount"
    }
  }

  /** The class part of the per-class counter names. */
  function ClassLabel(c: TrafficClass): string {
    match c
    case Web => "Web"
    case Interactive => "Interactive"
    case P2P => "P2P"
    case Other => "OtherPort"
  }

  function StatLabel(st: StreamStat): string {
    match st
    case Count => "Count"
    case ByteCount => "ByteCount"
    case OutboundByteCount => "OutboundByteCount"
    case InboundByteCount => "InboundByteCount"
    case ByteRatio => "ByteRatio"
    case LifeTime => "LifeTime"
  }

  /**
   * One call into the counter store: an increment of a counter's bin, or a
   * hand-off of a stream's byte samples to the traffic model, which makes
   * its own increments.
   */
  datatype SinkOp =
    | Increment(counter: Counter, bin: Bin, inc: int)
    | TrafficModelUpdate(streamStart: real, samples: seq<ByteSample>)

  /**
   * The secure counter store as the aggregator sees it: the calls made on it
   * so far, and the share keepers whose blinding shares are not yet detached.
   */
  datatype SecureCounters = SecureCounters(ops: seq<SinkOp>, blindingShares: set<SkUid>)

  /** What one operation adds to a counter, whatever the bin. */
  function Added(op: SinkOp, counter: Counter): int {
    if op.Increment? && op.counter == counter then op.inc else 0
  }

  /** What a counter ends up holding over all its bins: the sum of the increments made to it. */
  function Tally(ops: seq<SinkOp>, counter: Counter): int
  {
    if ops == [] then 0 else Added(ops[0], counter) + Tally(ops[1..], counter)
  }

  lemma {:induction false} TallyAppend(a: seq<SinkOp>, b: seq<SinkOp>, counter: Counter)
    ensures Tally(a + b, counter) == Tally(a, counter) + Tally(b, counter)
  {
    if a == [] {
      assert a + b == b;
    } else {
      assert (a + b)[1..] == a[1..] + b;
      TallyAppend(a[1..], b, counter);
    }
  }

  lemma TallySingle(op: SinkOp, counter: Counter)
    ensures Tally([op], counter) == Added(op, counter)
  {
    assert [op][1..] == [];
  }

  lemma TallyPair(a: SinkOp, b: SinkOp, counter: Counter)
    ensures Tally([a, b], counter) == Added(a, counter) + Added(b, counter)
  {
    assert [a, b][1..] == [b];
    TallySingle(b, counter);
  }

  /** The tally of a three-operation sequence, one operation at a time. */
  lemma TallyThree(a: SinkOp, b: SinkOp, c: SinkOp, counter: Counter)
    ensures Tally([a, b, c], counter) == Added(a, counter) + Added(b, counter) + Added(c, counter)
  {
    assert [a, b, c][1..] == [b, c];
    assert [b, c][1..] == [c];
    TallySingle(c, counter);
  }
}
