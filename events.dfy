/**
 * What each control-port event does to the aggregator's counting state:
 * one function per handler, from the state before the event to the
 * handler's result and the state after it.
 */
module Events {
  import opened Types
  import opened Classifier
  import opened Correlation
  import opened ClientWindow
  import opened Increments

  /** The part of the aggregator an event handler reads and writes. */
  datatype AggState = AggState(
    counters: SecureCounters,
    circInfo: CircInfo,
    strmBytes: StrmBytes,
    rotated: real,
    current: ClientMap,
    previous: ClientMap)

  /** The result of a handler, or the exception it raised, and the state it left behind. */
  datatype Step = Step(result: Outcome<bool>, state: AggState)

  /** The state after `ops` were made on the counters. */
  function Emit(s: AggState, ops: seq<SinkOp>): (r: AggState)
    ensures s.counters.ops <= r.counters.ops
    ensures r.counters.blindingShares == s.counters.blindingShares
  {
    var r := s.(counters := s.counters.(ops := s.counters.ops + ops));
    assert r.counters.ops[..|s.counters.ops|] == s.counters.ops;
    r
  }

  /** Two batches of operations made one after the other are one batch. */
  lemma EmitTwice(s: AggState, a: seq<SinkOp>, b: seq<SinkOp>)
    ensures Emit(Emit(s, a), b) == Emit(s, a + b)
  {
    assert s.counters.ops + a + b == s.counters.ops + (a + b);
  }

  /** The number of fields each event type carries after its code. */
  const StreamBytesItems := 6
  const StreamEndedItems := 10
  const CircuitEndedItems := 12
  const ConnectionEndedItems := 5

  /** int() succeeds on every field in [lo, hi). */
  predicate IntsAt(items: seq<Token>, lo: nat, hi: nat)
    requires lo <= hi <= |items|
  {
    forall i :: lo <= i < hi ==> items[i].asInt.Some?
  }

  /** float() succeeds on every field in [lo, hi). */
  predicate FloatsAt(items: seq<Token>, lo: nat, hi: nat)
    requires lo <= hi <= |items|
  {
    forall i :: lo <= i < hi ==> items[i].asFloat.Some?
  }

  function IntOf(t: Token): int
    requires t.asInt.Some?
  {
    t.asInt.value
  }

  function FloatOf(t: Token): real
    requires t.asFloat.Some?
  {
    t.asFloat.value
  }

  // ---------------------------------------------------------------- byte transfers

  /** ChanID, CircID, StreamID, isOutbound and BW are integers and Time is a float. */
  predicate BytesParse(items: seq<Token>)
    requires |items| == StreamBytesItems
  {
    IntsAt(items, 0, 5) && FloatsAt(items, 5, 6)
  }

  /**
   * _handle_bytes_event: ignored without a traffic model; otherwise the
   * sample [bw_bytes, is_outbound, ts] is appended to the (stream, circuit)
   * sample list.
   */
  function BytesEvent(items: seq<Token>, hasTrafficModel: bool, s: AggState): (r: Step)
    requires |items| == StreamBytesItems
    ensures r.state.counters == s.counters && r.state.circInfo == s.circInfo
    ensures r.state.current == s.current && r.state.previous == s.previous && r.state.rotated == s.rotated
    ensures r.result != Returned(false)
    ensures r.result.Raised? <==> hasTrafficModel && !BytesParse(items)
    ensures r.result.Raised? || !hasTrafficModel ==> r.state == s
    ensures WellFormedStrmBytes(s.strmBytes) ==> WellFormedStrmBytes(r.state.strmBytes)
  {
    if !hasTrafficModel then Step(Returned(true), s)
    else if !BytesParse(items) then Step(Raised(ValueError), s)
    else
      var circ, strm := IntOf(items[1]), IntOf(items[2]);
      var sample := ByteSample(IntOf(items[4]), IntOf(items[3]), FloatOf(items[5]));
      Step(Returned(true), s.(strmBytes := AppendSample(s.strmBytes, strm, circ, sample)))
  }

  /** A recorded byte transfer is the newest sample of its (stream, circuit) list; no other stream changes. */
  lemma BytesEventAppends(items: seq<Token>, s: AggState)
    requires |items| == StreamBytesItems && BytesParse(items)
    ensures var r := BytesEvent(items, true, s);
      var circ, strm := IntOf(items[1]), IntOf(items[2]);
      && strm in r.state.strmBytes && circ in r.state.strmBytes[strm]
      && |r.state.strmBytes[strm][circ]| >= 1
      && r.state.strmBytes[strm][circ][|r.state.strmBytes[strm][circ]| - 1]
         == ByteSample(IntOf(items[4]), IntOf(items[3]), FloatOf(items[5]))
      && r.state.strmBytes[strm][circ][..|r.state.strmBytes[strm][circ]| - 1]
         == (if strm in s.strmBytes && circ in s.strmBytes[strm] then s.strmBytes[strm][circ] else [])
      && forall other :: other in s.strmBytes && other != strm ==> r.state.strmBytes[other] == s.strmBytes[other]
  {
  }

  // ---------------------------------------------------------------- stream ends

  /** The six integer fields and the two times parse. */
  predicate StreamParse(items: seq<Token>)
    requires |items| == StreamEndedItems
  {
    IntsAt(items, 0, 6) && FloatsAt(items, 6, 8)
  }

  /** Streams that did not transfer data in both a legitimate and a non-empty way are not counted. */
  predicate StreamRejected(readbw: int, writebw: int) {
    readbw < 0 || writebw < 0 || readbw + writebw <= 0
  }

  /** The traffic model hand-off for a stream that has byte samples, if there is a model. */
  function TrafficModelOps(hasTrafficModel: bool, sb: StrmBytes, strm: int, circ: int, start: real): seq<SinkOp> {
    if hasTrafficModel && strm in sb && circ in sb[strm] then [TrafficModelUpdate(start, sb[strm][circ])] else []
  }

  /**
   * _handle_stream_event: a stream that carried data is recorded in
   * circ_info under its class, counted, handed with its byte samples to the
   * traffic model when there is one, and its samples are cleared.
   */
  function StreamEvent(items: seq<Token>, hasTrafficModel: bool, s: AggState): (r: Step)
    requires |items| == StreamEndedItems
    ensures !StreamParse(items) ==> r == Step(Raised(ValueError), s)
    ensures StreamParse(items) ==> r.result == Returned(true)
    ensures StreamParse(items) && StreamRejected(IntOf(items[4]), IntOf(items[5])) ==> r.state == s
    ensures r.state.current == s.current && r.state.previous == s.previous && r.state.rotated == s.rotated
    ensures s.counters.ops <= r.state.counters.ops && r.state.counters.blindingShares == s.counters.blindingShares
    ensures WellFormedCircInfo(s.circInfo) ==> WellFormedCircInfo(r.state.circInfo)
    ensures WellFormedStrmBytes(s.strmBytes) ==> WellFormedStrmBytes(r.state.strmBytes)
  {
    if !StreamParse(items) then Step(Raised(ValueError), s)
    else
      var chan, circ, strm, port := IntOf(items[0]), IntOf(items[1]), IntOf(items[2]), IntOf(items[3]);
      var readbw, writebw := IntOf(items[4]), IntOf(items[5]);
      var start, end := FloatOf(items[6]), FloatOf(items[7]);
      if StreamRejected(readbw, writebw) then Step(Returned(true), s)
      else Step(Returned(true), CountedStream(hasTrafficModel, s, chan, circ, strm, PortClass(port), readbw, writebw, start, end))
  }

  /**
   * The state after a stream that passed the transfer check: recorded in
   * circ_info, counted, handed to the traffic model, and its samples gone.
   */
  function CountedStream(hasTrafficModel: bool, s: AggState, chan: int, circ: int, strm: int, cls: TrafficClass,
                         readbw: int, writebw: int, start: real, end: real): AggState
    requires readbw >= 0 && writebw >= 0
  {
    var s' := Emit(s, StreamIncrements(cls, readbw, writebw, start, end)
                      + TrafficModelOps(hasTrafficModel, s.strmBytes, strm, circ, start));
    s'.(circInfo := RecordStream(s.circInfo, chan, circ, cls, start),
        strmBytes := PurgeStream(s.strmBytes, strm, circ))
  }

  /**
   * A counted stream adds one stream of its class to its circuit's record
   * and appends its start time there, leaves no byte samples behind, and
   * adds one to ExitStreamCount and to its class's stream count only.
   */
  lemma StreamEventEffects(items: seq<Token>, hasTrafficModel: bool, s: AggState)
    requires |items| == StreamEndedItems && StreamParse(items)
    requires !StreamRejected(IntOf(items[4]), IntOf(items[5]))
    ensures var r := StreamEvent(items, hasTrafficModel, s);
      var chan, circ, strm := IntOf(items[0]), IntOf(items[1]), IntOf(items[2]);
      var cls := PortClass(IntOf(items[3]));
      && CircuitKnown(r.state.circInfo, chan, circ)
      && r.state.circInfo[chan][circ].numStreams.Get(cls) == RecordOf(s.circInfo, chan, circ).numStreams.Get(cls) + 1
      && r.state.circInfo[chan][circ].startTimes.Get(cls) == RecordOf(s.circInfo, chan, circ).startTimes.Get(cls) + [FloatOf(items[6])]
      && !(strm in r.state.strmBytes && circ in r.state.strmBytes[strm])
      && (strm in r.state.strmBytes ==> r.state.strmBytes[strm] != map[])
      && Tally(r.state.counters.ops, ExitStream(None, Count)) == Tally(s.counters.ops, ExitStream(None, Count)) + 1
      && (forall c :: Tally(r.state.counters.ops, ExitStream(Some(c), Count))
                   == Tally(s.counters.ops, ExitStream(Some(c), Count)) + (if c == cls then 1 else 0))
  {
    var circ, strm := IntOf(items[1]), IntOf(items[2]);
    var readbw, writebw := IntOf(items[4]), IntOf(items[5]);
    var start, end := FloatOf(items[6]), FloatOf(items[7]);
    var cls := PortClass(IntOf(items[3]));
    CountedStreamTallies(hasTrafficModel, s, strm, circ, cls, readbw, writebw, start, end);
  }

  /** The counter side of a counted stream: only the stream counts of no class and of its class grow, by one. */
  lemma CountedStreamTallies(hasTrafficModel: bool, s: AggState, strm: int, circ: int, cls: TrafficClass,
                             readbw: int, writebw: int, start: real, end: real)
    requires readbw >= 0 && writebw >= 0
    ensures var ops := s.counters.ops + (StreamIncrements(cls, readbw, writebw, start, end)
                                         + TrafficModelOps(hasTrafficModel, s.strmBytes, strm, circ, start));
      && Tally(ops, ExitStream(None, Count)) == Tally(s.counters.ops, ExitStream(None, Count)) + 1
      && (forall c :: Tally(ops, ExitStream(Some(c), Count))
                   == Tally(s.counters.ops, ExitStream(Some(c), Count)) + (if c == cls then 1 else 0))
  {
    var inc := StreamIncrements(cls, readbw, writebw, start, end);
    var tm := TrafficModelOps(hasTrafficModel, s.strmBytes, strm, circ, start);
    StreamTallies(cls, readbw, writebw, start, end);
    forall counter: Counter ensures Tally(s.counters.ops + (inc + tm), counter) == Tally(s.counters.ops, counter) + Tally(inc, counter) {
      TallyAppend(s.counters.ops, inc + tm, counter);
      TallyAppend(inc, tm, counter);
      if tm != [] { assert tm[1..] == []; }
    }
  }

  // ---------------------------------------------------------------- circuit ends

  /** ChanID to WriteBWExit are integers, the times floats, and PrevIsClient and NextIsEdge integers. */
  predicate CircuitParse(items: seq<Token>)
    requires |items| == CircuitEndedItems
  {
    IntsAt(items, 0, 6) && FloatsAt(items, 6, 8) && items[9].asInt.Some? && items[11].asInt.Some?
  }

  /**
   * The entry branch: count the circuit, then record the client in the
   * current window (and in the previous one when the circuit started before
   * the last rotation) with one more active or inactive completed circuit.
   * When the cell ratio raises, the increments before it remain and the
   * windows are untouched.
   */
  function EntryCircuit(ncellsin: int, ncellsout: int, start: real, ip: string, s: AggState): (r: Step)
    ensures r.state.circInfo == s.circInfo && r.state.strmBytes == s.strmBytes && r.state.rotated == s.rotated
    ensures r.state.counters == s.counters.(ops := s.counters.ops + EntryCircuitIncrements(ncellsin, ncellsout))
    ensures s.counters.ops <= r.state.counters.ops
    ensures r.result.Raised? <==> CellRatioFails(ncellsin, ncellsout)
    ensures r.result.Raised? ==> r.result.error == ValueError && r.state.current == s.current && r.state.previous == s.previous
  {
    var s' := Emit(s, EntryCircuitIncrements(ncellsin, ncellsout));
    if CellRatioFails(ncellsin, ncellsout) then Step(Raised(ValueError), s')
    else
      var active := EntryActive(ncellsin, ncellsout);
      Step(Returned(true), s'.(current := RecordCurrent(s.current, ip, active),
                               previous := if start < s.rotated then MarkSeen(s.previous, ip, active) else s.previous))
  }

  /**
   * A completed entry circuit: active exactly when it carried at least 8
   * cells; the client is in the current window with exactly one of its two
   * completed-circuit counts one higher; no client of either window stops
   * being active; the previous window changes only when the circuit started
   * before the last rotation; EntryCircuitCount rises by one and exactly one
   * of the active and inactive counts by one.
   */
  lemma EntryCircuitEffects(ncellsin: int, ncellsout: int, start: real, ip: string, s: AggState)
    requires !CellRatioFails(ncellsin, ncellsout)
    ensures var r := EntryCircuit(ncellsin, ncellsout, start, ip, s);
      var active := ncellsin + ncellsout >= 8;
      var before := ClientOf(s.current, ip);
      && r.result == Returned(true)
      && ip in r.state.current
      && r.state.current[ip].numActiveCompleted == before.numActiveCompleted + (if active then 1 else 0)
      && r.state.current[ip].numInactiveCompleted == before.numInactiveCompleted + (if active then 0 else 1)
      && (forall x :: x in s.current && s.current[x].isActive ==> r.state.current[x].isActive)
      && (forall x :: x in s.previous && s.previous[x].isActive ==> r.state.previous[x].isActive)
      && (active ==> r.state.current[ip].isActive)
      && (start >= s.rotated ==> r.state.previous == s.previous)
      && (start < s.rotated ==> ip in r.state.previous)
      && Tally(r.state.counters.ops, EntryCircuitCount) == Tally(s.counters.ops, EntryCircuitCount) + 1
      && Tally(r.state.counters.ops, EntryActiveCircuitCount) == Tally(s.counters.ops, EntryActiveCircuitCount) + (if active then 1 else 0)
      && Tally(r.state.counters.ops, EntryInactiveCircuitCount) == Tally(s.counters.ops, EntryInactiveCircuitCount) + (if active then 0 else 1)
  {
    EntryCircuitCounts(s.counters.ops, ncellsin, ncellsout);
  }

  /** The counter side of an entry circuit, on any earlier sequence of increments. */
  lemma EntryCircuitCounts(before: seq<SinkOp>, ncellsin: int, ncellsout: int)
    ensures var ops := before + EntryCircuitIncrements(ncellsin, ncellsout);
      var active := ncellsin + ncellsout >= 8;
      && Tally(ops, EntryCircuitCount) == Tally(before, EntryCircuitCount) + 1
      && Tally(ops, EntryActiveCircuitCount) == Tally(before, EntryActiveCircuitCount) + (if active then 1 else 0)
      && Tally(ops, EntryInactiveCircuitCount) == Tally(before, EntryInactiveCircuitCount) + (if active then 0 else 1)
  {
    var inc := EntryCircuitIncrements(ncellsin, ncellsout);
    EntryCircuitTallies(ncellsin, ncellsout);
    TallyAppend(before, inc, EntryCircuitCount);
    TallyAppend(before, inc, EntryActiveCircuitCount);
    TallyAppend(before, inc, EntryInactiveCircuitCount);
  }

  /**
   * The exit branch: count the circuit and its lifetime, active when its
   * record exists and a stream ended on it, then drop its record.
   */
  function ExitCircuit(chan: int, circ: int, lifetime: real, s: AggState): (r: Step)
    ensures r.result == Returned(true)
    ensures r.state.strmBytes == s.strmBytes && r.state.current == s.current && r.state.previous == s.previous
    ensures r.state.rotated == s.rotated && r.state.counters.blindingShares == s.counters.blindingShares
    ensures s.counters.ops <= r.state.counters.ops
    ensures WellFormedCircInfo(s.circInfo) ==> WellFormedCircInfo(r.state.circInfo)
  {
    Step(Returned(true), Emit(s, ExitCircuitIncrements(s.circInfo, chan, circ, lifetime))
                           .(circInfo := PurgeCircuit(s.circInfo, chan, circ)))
  }

  /**
   * A completed exit circuit is counted active exactly when its record
   * exists with at least one stream, inactive otherwise; an active one adds
   * one inter-stream gap per stream after the first.
   */
  lemma ExitCircuitEffects(chan: int, circ: int, lifetime: real, s: AggState)
    requires WellFormedCircInfo(s.circInfo)
    ensures var r := ExitCircuit(chan, circ, lifetime, s);
      var active := CircuitKnown(s.circInfo, chan, circ) && TotalStreams(s.circInfo[chan][circ]) > 0;
      && Tally(r.state.counters.ops, ExitCircuitCount) == Tally(s.counters.ops, ExitCircuitCount) + 1
      && Tally(r.state.counters.ops, ExitActiveCircuitCount) == Tally(s.counters.ops, ExitActiveCircuitCount) + (if active then 1 else 0)
      && Tally(r.state.counters.ops, ExitInactiveCircuitCount) == Tally(s.counters.ops, ExitInactiveCircuitCount) + (if active then 0 else 1)
      && Tally(r.state.counters.ops, ExitCircuitInterStreamCreationTime)
         == Tally(s.counters.ops, ExitCircuitInterStreamCreationTime) + (if active then TotalStreams(s.circInfo[chan][circ]) - 1 else 0)
  {
    var inc := ExitCircuitIncrements(s.circInfo, chan, circ, lifetime);
    ExitCircuitTallies(s.circInfo, chan, circ, lifetime);
    TallyAppend(s.counters.ops, inc, ExitCircuitCount);
    TallyAppend(s.counters.ops, inc, ExitActiveCircuitCount);
    TallyAppend(s.counters.ops, inc, ExitInactiveCircuitCount);
    TallyAppend(s.counters.ops, inc, ExitCircuitInterStreamCreationTime);
  }

  /**
   * After an exit circuit ends it has no record, its channel is gone if that
   * was its last circuit, and every other circuit's record is as it was.
   */
  lemma ExitCircuitPurges(chan: int, circ: int, lifetime: real, s: AggState)
    ensures var r := ExitCircuit(chan, circ, lifetime, s);
      && !CircuitKnown(r.state.circInfo, chan, circ)
      && (CircuitKnown(s.circInfo, chan, circ) && s.circInfo[chan].Keys == {circ} ==> chan !in r.state.circInfo)
      && (forall ch, c :: CircuitKnown(s.circInfo, ch, c) && (ch, c) != (chan, circ) ==>
            CircuitKnown(r.state.circInfo, ch, c) && r.state.circInfo[ch][c] == s.circInfo[ch][c])
  {
  }

  /**
   * _handle_circuit_event: entry branch when the previous hop is a client,
   * exit branch when the next hop is an edge connection, otherwise nothing.
   */
  function CircuitEvent(items: seq<Token>, s: AggState): (r: Step)
    requires |items| == CircuitEndedItems
    ensures !CircuitParse(items) ==> r == Step(Raised(ValueError), s)
    ensures CircuitParse(items) && IntOf(items[9]) <= 0 && IntOf(items[11]) <= 0 ==> r == Step(Returned(true), s)
    ensures r.result != Returned(false) && (r.result.Raised? ==> r.result.error == ValueError)
    ensures s.counters.ops <= r.state.counters.ops && r.state.counters.blindingShares == s.counters.blindingShares
    ensures r.state.strmBytes == s.strmBytes && r.state.rotated == s.rotated
    ensures WellFormedCircInfo(s.circInfo) ==> WellFormedCircInfo(r.state.circInfo)
  {
    if !CircuitParse(items) then Step(Raised(ValueError), s)
    else
      var chan, circ, ncellsin, ncellsout := IntOf(items[0]), IntOf(items[1]), IntOf(items[2]), IntOf(items[3]);
      var start, end := FloatOf(items[6]), FloatOf(items[7]);
      if IntOf(items[9]) > 0 then EntryCircuit(ncellsin, ncellsout, start, items[8].text, s)
      else if IntOf(items[11]) > 0 then ExitCircuit(chan, circ, end - start, s)
      else Step(Returned(true), s)
  }

  // ---------------------------------------------------------------- connection ends

  predicate ConnectionParse(items: seq<Token>)
    requires |items| == ConnectionEndedItems
  {
    items[0].asInt.Some? && FloatsAt(items, 1, 3) && items[4].asInt.Some?
  }

  /** _handle_connection_event: a connection from a client is counted with its lifetime. */
  function ConnectionEvent(items: seq<Token>, s: AggState): (r: Step)
    requires |items| == ConnectionEndedItems
    ensures !ConnectionParse(items) ==> r == Step(Raised(ValueError), s)
    ensures ConnectionParse(items) ==> r.result == Returned(true)
    ensures ConnectionParse(items) ==>
              Tally(r.state.counters.ops, EntryConnectionCount)
              == Tally(s.counters.ops, EntryConnectionCount) + (if IntOf(items[4]) > 0 then 1 else 0)
    ensures s.counters.ops <= r.state.counters.ops && r.state.counters.blindingShares == s.counters.blindingShares
    ensures r.state.circInfo == s.circInfo && r.state.strmBytes == s.strmBytes
    ensures r.state.current == s.current && r.state.previous == s.previous && r.state.rotated == s.rotated
  {
    if !ConnectionParse(items) then Step(Raised(ValueError), s)
    else
      var start, end := FloatOf(items[1]), FloatOf(items[2]);
      var inc := ConnectionIncrements(IntOf(items[4]) > 0, end - start);
      ConnectionTally(IntOf(items[4]) > 0, end - start);
      TallyAppend(s.counters.ops, inc, EntryConnectionCount);
      Step(Returned(true), Emit(s, inc))
  }

  // ---------------------------------------------------------------- dispatch

  /**
   * handle_event once the counters exist: events without fields, or with an
   * unexpected number of fields for their code, are refused; events of an
   * unknown code are accepted and ignored; the others go to their handler.
   * Whatever the event, a refused event changes nothing, the only exception
   * is ValueError, the counters only ever gain operations and keep their
   * blinding shares, the rotation time is untouched, and well-formed
   * correlation maps stay well formed.
   */
  function EventOutcome(event: seq<Token>, hasTrafficModel: bool, s: AggState): (r: Step)
    ensures |event| <= 1 ==> r == Step(Returned(false), s)
    ensures r.result == Returned(false) ==> r.state == s
    ensures r.result.Raised? ==> r.result.error == ValueError
    ensures s.counters.ops <= r.state.counters.ops
    ensures r.state.counters.blindingShares == s.counters.blindingShares
    ensures r.state.rotated == s.rotated
    ensures WellFormedCircInfo(s.circInfo) ==> WellFormedCircInfo(r.state.circInfo)
    ensures WellFormedStrmBytes(s.strmBytes) ==> WellFormedStrmBytes(r.state.strmBytes)
  {
    if |event| <= 1 then Step(Returned(false), s)
    else
      var code, items := event[0].text, event[1..];
      if code == "PRIVCOUNT_STREAM_BYTES_TRANSFERRED" then
        if |items| == StreamBytesItems then BytesEvent(items, hasTrafficModel, s) else Step(Returned(false), s)
      else if code == "PRIVCOUNT_STREAM_ENDED" then
        if |items| == StreamEndedItems then StreamEvent(items, hasTrafficModel, s) else Step(Returned(false), s)
      else if code == "PRIVCOUNT_CIRCUIT_ENDED" then
        if |items| == CircuitEndedItems then CircuitEvent(items, s) else Step(Returned(false), s)
      else if code == "PRIVCOUNT_CONNECTION_ENDED" then
        if |items| == ConnectionEndedItems then ConnectionEvent(items, s) else Step(Returned(false), s)
      else Step(Returned(true), s)
  }
}
