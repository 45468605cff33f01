/**
 * The counter increments each event handler branch makes, in the order it
 * makes them, and what they add to the single-bin counters.
 */
module Increments {
  import opened Types
  import opened Classifier
  import opened Correlation

  // ---------------------------------------------------------------- streams

  /** The six counters of one exit stream group: the overall group (None) or the group of a class. */
  function StreamGroup(group: Option<TrafficClass>, readbw: int, writebw: int, ratio: Ratio, lifetime: real): seq<SinkOp> {
    [Increment(ExitStream(group, Count), SingleBin, 1),
     Increment(ExitStream(group, ByteCount), SingleBin, readbw + writebw),
     Increment(ExitStream(group, OutboundByteCount), IntBin(writebw), 1),
     Increment(ExitStream(group, InboundByteCount), IntBin(readbw), 1),
     Increment(ExitStream(group, ByteRatio), RatioBin(ratio), 1),
     Increment(ExitStream(group, LifeTime), RealBin(lifetime), 1)]
  }

  /**
   * The increments of a stream that passed the transfer check: the overall
   * group, then the group of its class. The byte ratio of two non-negative
   * values is always defined.
   */
  function StreamIncrements(cls: TrafficClass, readbw: int, writebw: int, start: real, end: real): seq<SinkOp>
    requires readbw >= 0 && writebw >= 0
  {
    var ratio := EncodeRatio(readbw, writebw).value;
    StreamGroup(None, readbw, writebw, ratio, end - start)
    + StreamGroup(Some(cls), readbw, writebw, ratio, end - start)
  }

  /** What one stream group adds to a counter: one to each of its six counters, its transfer to the byte count. */
  lemma StreamGroupTally(group: Option<TrafficClass>, readbw: int, writebw: int, ratio: Ratio, lifetime: real, counter: Counter)
    ensures Tally(StreamGroup(group, readbw, writebw, ratio, lifetime), counter)
         == if counter.ExitStream? && counter.group == group
            then (if counter.stat == ByteCount then readbw + writebw else 1)
            else 0
  {
    var a := Increment(ExitStream(group, Count), SingleBin, 1);
    var b := Increment(ExitStream(group, ByteCount), SingleBin, readbw + writebw);
    var c := Increment(ExitStream(group, OutboundByteCount), IntBin(writebw), 1);
    var d := Increment(ExitStream(group, InboundByteCount), IntBin(readbw), 1);
    var e := Increment(ExitStream(group, ByteRatio), RatioBin(ratio), 1);
    var f := Increment(ExitStream(group, LifeTime), RealBin(lifetime), 1);
    assert StreamGroup(group, readbw, writebw, ratio, lifetime) == [a, b, c] + [d, e, f];
    TallyAppend([a, b, c], [d, e, f], counter);
    TallyThree(a, b, c, counter);
    TallyThree(d, e, f, counter);
  }

  /**
   * A counted stream adds one to ExitStreamCount and to the stream count of
   * its own class and no other, and its total transfer to the matching byte
   * counts.
   */
  lemma StreamTallies(cls: TrafficClass, readbw: int, writebw: int, start: real, end: real)
    requires readbw >= 0 && writebw >= 0
    ensures Tally(StreamIncrements(cls, readbw, writebw, start, end), ExitStream(None, Count)) == 1
    ensures Tally(StreamIncrements(cls, readbw, writebw, start, end), ExitStream(None, ByteCount)) == readbw + writebw
    ensures forall c :: Tally(StreamIncrements(cls, readbw, writebw, start, end), ExitStream(Some(c), Count)) == (if c == cls then 1 else 0)
    ensures forall c :: Tally(StreamIncrements(cls, readbw, writebw, start, end), ExitStream(Some(c), ByteCount)) == (if c == cls then readbw + writebw else 0)
    ensures |StreamIncrements(cls, readbw, writebw, start, end)| == 12
  {
    forall counter: Counter | counter.ExitStream? && counter.stat in {Count, ByteCount}
      ensures Tally(StreamIncrements(cls, readbw, writebw, start, end), counter)
           == (if counter.group.None? || counter.group == Some(cls)
               then (if counter.stat == Count then 1 else readbw + writebw) else 0)
    {
      StreamIncrementsTally(cls, readbw, writebw, start, end, counter);
    }
  }

  /** The two groups of a counted stream, counter by counter. */
  lemma StreamIncrementsTally(cls: TrafficClass, readbw: int, writebw: int, start: real, end: real, counter: Counter)
    requires readbw >= 0 && writebw >= 0
    ensures Tally(StreamIncrements(cls, readbw, writebw, start, end), counter)
         == (if counter.ExitStream? && (counter.group.None? || counter.group == Some(cls))
             then (if counter.stat == ByteCount then readbw + writebw else 1) else 0)
  {
    var ratio := EncodeRatio(readbw, writebw).value;
    var all := StreamGroup(None, readbw, writebw, ratio, end - start);
    var own := StreamGroup(Some(cls), readbw, writebw, ratio, end - start);
    TallyAppend(all, own, counter);
    StreamGroupTally(None, readbw, writebw, ratio, end - start, counter);
    StreamGroupTally(Some(cls), readbw, writebw, ratio, end - start, counter);
  }

  // ---------------------------------------------------------------- entry circuits

  /** The entry branch counts a circuit active when it carried at least 8 cells in the two directions together. */
  predicate EntryActive(ncellsin: int, ncellsout: int) {
    ncellsin + ncellsout >= 8
  }

  /**
   * The increments of an entry circuit, up to where _encode_ratio raises:
   * the circuit count, then either the active count, the two cell counts and
   * the cell ratio, or the inactive count. When the cell counts have
   * opposite signs the ratio raises ValueError and the increments made
   * before it are all there is.
   */
  function EntryCircuitIncrements(ncellsin: int, ncellsout: int): seq<SinkOp> {
    [Increment(EntryCircuitCount, SingleBin, 1)]
    + if EntryActive(ncellsin, ncellsout) then EntryActiveIncrements(ncellsin, ncellsout)
      else [Increment(EntryInactiveCircuitCount, SingleBin, 1)]
  }

  /** The increments of an active entry circuit, the cell ratio only when it has a logarithm. */
  function EntryActiveIncrements(ncellsin: int, ncellsout: int): seq<SinkOp> {
    [Increment(EntryActiveCircuitCount, SingleBin, 1),
     Increment(EntryCircuitInboundCellCount, IntBin(ncellsin), 1),
     Increment(EntryCircuitOutboundCellCount, IntBin(ncellsout), 1)]
    + match EncodeRatio(ncellsin, ncellsout)
      case Some(ratio) => [Increment(EntryCircuitCellRatio, RatioBin(ratio), 1)]
      case None => []
  }

  /** Where the entry branch raises: an active circuit whose cell ratio has no logarithm. */
  predicate CellRatioFails(ncellsin: int, ncellsout: int) {
    EntryActive(ncellsin, ncellsout) && EncodeRatio(ncellsin, ncellsout).None?
  }

  /**
   * What an entry circuit's increments add to one counter: one to
   * EntryCircuitCount; for an active circuit one to the active count, to
   * the two cell counts and, unless its ratio fails, to the cell ratio;
   * for an inactive one, one to the inactive count.
   */
  lemma EntryCircuitTally(ncellsin: int, ncellsout: int, counter: Counter)
    ensures Tally(EntryCircuitIncrements(ncellsin, ncellsout), counter)
         == (if counter == EntryCircuitCount then 1 else 0)
          + if EntryActive(ncellsin, ncellsout) then
              (if counter == EntryActiveCircuitCount then 1 else 0)
              + (if counter == EntryCircuitInboundCellCount then 1 else 0)
              + (if counter == EntryCircuitOutboundCellCount then 1 else 0)
              + (if counter == EntryCircuitCellRatio && !CellRatioFails(ncellsin, ncellsout) then 1 else 0)
            else (if counter == EntryInactiveCircuitCount then 1 else 0)
  {
    var head := Increment(EntryCircuitCount, SingleBin, 1);
    var inactive := Increment(EntryInactiveCircuitCount, SingleBin, 1);
    var tail := if EntryActive(ncellsin, ncellsout) then EntryActiveIncrements(ncellsin, ncellsout) else [inactive];
    TallyAppend([head], tail, counter);
    TallySingle(head, counter);
    if EntryActive(ncellsin, ncellsout) {
      EntryActiveTally(ncellsin, ncellsout, counter);
    } else {
      TallySingle(inactive, counter);
    }
  }

  lemma EntryActiveTally(ncellsin: int, ncellsout: int, counter: Counter)
    ensures Tally(EntryActiveIncrements(ncellsin, ncellsout), counter)
         == (if counter == EntryActiveCircuitCount then 1 else 0)
          + (if counter == EntryCircuitInboundCellCount then 1 else 0)
          + (if counter == EntryCircuitOutboundCellCount then 1 else 0)
          + (if counter == EntryCircuitCellRatio && EncodeRatio(ncellsin, ncellsout).Some? then 1 else 0)
  {
    var a := Increment(EntryActiveCircuitCount, SingleBin, 1);
    var b := Increment(EntryCircuitInboundCellCount, IntBin(ncellsin), 1);
    var c := Increment(EntryCircuitOutboundCellCount, IntBin(ncellsout), 1);
    var ratio := EncodeRatio(ncellsin, ncellsout);
    var rest := if ratio.Some? then [Increment(EntryCircuitCellRatio, RatioBin(ratio.value), 1)] else [];
    TallyAppend([a, b, c], rest, counter);
    TallyThree(a, b, c, counter);
    if ratio.Some? {
      TallySingle(rest[0], counter);
    }
  }

  /**
   * Every entry circuit adds one to EntryCircuitCount and one to exactly one
   * of the active and inactive counts; the cell ratio is counted for every
   * active circuit it does not fail on.
   */
  lemma EntryCircuitTallies(ncellsin: int, ncellsout: int)
    ensures Tally(EntryCircuitIncrements(ncellsin, ncellsout), EntryCircuitCount) == 1
    ensures Tally(EntryCircuitIncrements(ncellsin, ncellsout), EntryActiveCircuitCount)
         == (if EntryActive(ncellsin, ncellsout) then 1 else 0)
    ensures Tally(EntryCircuitIncrements(ncellsin, ncellsout), EntryInactiveCircuitCount)
         == (if EntryActive(ncellsin, ncellsout) then 0 else 1)
    ensures Tally(EntryCircuitIncrements(ncellsin, ncellsout), EntryCircuitCellRatio)
         == (if EntryActive(ncellsin, ncellsout) && !CellRatioFails(ncellsin, ncellsout) then 1 else 0)
    ensures ncellsin >= 0 && ncellsout >= 0 ==> !CellRatioFails(ncellsin, ncellsout)
  {
    EntryCircuitTally(ncellsin, ncellsout, EntryCircuitCount);
    EntryCircuitTally(ncellsin, ncellsout, EntryActiveCircuitCount);
    EntryCircuitTally(ncellsin, ncellsout, EntryInactiveCircuitCount);
    EntryCircuitTally(ncellsin, ncellsout, EntryCircuitCellRatio);
  }

  // ---------------------------------------------------------------- exit circuits

  /** One increment of `counter` per gap, binned by the gap, in order. */
  function GapIncrements(counter: Counter, gaps: seq<real>): seq<SinkOp> {
    if gaps == [] then []
    else GapIncrements(counter, gaps[..|gaps| - 1]) + [Increment(counter, RealBin(gaps[|gaps| - 1]), 1)]
  }

  /** The gap increments add one to their counter per gap and nothing to any other. */
  lemma {:induction false} GapIncrementsTally(counter: Counter, gaps: seq<real>, other: Counter)
    ensures |GapIncrements(counter, gaps)| == |gaps|
    ensures Tally(GapIncrements(counter, gaps), other) == if other == counter then |gaps| else 0
  {
    if gaps != [] {
      var last := [Increment(counter, RealBin(gaps[|gaps| - 1]), 1)];
      GapIncrementsTally(counter, gaps[..|gaps| - 1], other);
      TallyAppend(GapIncrements(counter, gaps[..|gaps| - 1]), last, other);
      assert last[1..] == [];
    }
  }

  /** The inter-stream gaps of a list of start times: sort it, then take adjacent differences. */
  function StartTimeGaps(times: seq<real>): seq<real> {
    Gaps(SortTimes(times))
  }

  /** n start times have n - 1 gaps, or none for fewer than two. */
  lemma StartTimeGapsCount(times: seq<real>)
    ensures |StartTimeGaps(times)| == if |times| <= 1 then 0 else |times| - 1
  {
    SortTimesSorts(times);
  }

  /** The counters of one class on an active exit circuit, made only when the class had a stream. */
  function ClassCircuitIncrements(rec: CircRecord, c: TrafficClass): seq<SinkOp> {
    var n := rec.numStreams.Get(c);
    if n > 0 then
      [Increment(ExitClassCircuitCount(c), SingleBin, 1),
       Increment(ExitCircuitClassStreamCount(c), IntBin(n), 1)]
      + GapIncrements(ExitCircuitClassInterStreamCreationTime(c), StartTimeGaps(rec.startTimes.Get(c)))
    else []
  }

  /**
   * An exit circuit with streams counts itself for each class it carried,
   * with the class's stream count, and one gap per stream after the first.
   */
  lemma ClassCircuitTally(rec: CircRecord, c: TrafficClass, counter: Counter)
    requires ConsistentRecord(rec)
    ensures rec.numStreams.Get(c) == 0 ==> Tally(ClassCircuitIncrements(rec, c), counter) == 0
    ensures rec.numStreams.Get(c) > 0 ==>
              Tally(ClassCircuitIncrements(rec, c), counter)
              == (if counter == ExitClassCircuitCount(c) then 1 else 0)
               + (if counter == ExitCircuitClassStreamCount(c) then 1 else 0)
               + (if counter == ExitCircuitClassInterStreamCreationTime(c) then rec.numStreams.Get(c) - 1 else 0)
  {
    var n := rec.numStreams.Get(c);
    if n > 0 {
      var first := Increment(ExitClassCircuitCount(c), SingleBin, 1);
      var second := Increment(ExitCircuitClassStreamCount(c), IntBin(n), 1);
      var gaps := StartTimeGaps(rec.startTimes.Get(c));
      TallyAppend([first, second], GapIncrements(ExitCircuitClassInterStreamCreationTime(c), gaps), counter);
      TallyPair(first, second, counter);
      GapIncrementsTally(ExitCircuitClassInterStreamCreationTime(c), gaps, counter);
      StartTimeGapsCount(rec.startTimes.Get(c));
    }
  }

  /** Only the per-class counters pick up anything from the class increments. */
  lemma AllClassesTallyOthers(rec: CircRecord, counter: Counter)
    requires ConsistentRecord(rec)
    requires !counter.ExitClassCircuitCount? && !counter.ExitCircuitClassStreamCount? && !counter.ExitCircuitClassInterStreamCreationTime?
    ensures Tally(AllClassesIncrements(rec), counter) == 0
  {
    AllClassesTally(rec, counter);
    ClassCircuitTallyOther(rec, Web, counter);
    ClassCircuitTallyOther(rec, Interactive, counter);
    ClassCircuitTallyOther(rec, P2P, counter);
    ClassCircuitTallyOther(rec, Other, counter);
  }

  lemma ClassCircuitTallyOther(rec: CircRecord, c: TrafficClass, counter: Counter)
    requires ConsistentRecord(rec)
    requires !counter.ExitClassCircuitCount? && !counter.ExitCircuitClassStreamCount? && !counter.ExitCircuitClassInterStreamCreationTime?
    ensures Tally(ClassCircuitIncrements(rec, c), counter) == 0
  {
    ClassCircuitTally(rec, c, counter);
  }

  /** Each class with a stream counts the circuit once under its own name. */
  lemma AllClassesCircuitCount(rec: CircRecord, c: TrafficClass)
    requires ConsistentRecord(rec)
    ensures Tally(AllClassesIncrements(rec), ExitClassCircuitCount(c)) == if rec.numStreams.Get(c) > 0 then 1 else 0
  {
    AllClassesTally(rec, ExitClassCircuitCount(c));
    ClassCircuitTally(rec, Web, ExitClassCircuitCount(c));
    ClassCircuitTally(rec, Interactive, ExitClassCircuitCount(c));
    ClassCircuitTally(rec, P2P, ExitClassCircuitCount(c));
    ClassCircuitTally(rec, Other, ExitClassCircuitCount(c));
  }

  /** The class counters of all four classes, in the order web, interactive, p2p, other. */
  function AllClassesIncrements(rec: CircRecord): seq<SinkOp> {
    ClassCircuitIncrements(rec, Web) + ClassCircuitIncrements(rec, Interactive)
    + ClassCircuitIncrements(rec, P2P) + ClassCircuitIncrements(rec, Other)
  }

  lemma AllClassesTally(rec: CircRecord, counter: Counter)
    ensures Tally(AllClassesIncrements(rec), counter)
      == Tally(ClassCircuitIncrements(rec, Web), counter) + Tally(ClassCircuitIncrements(rec, Interactive), counter)
       + Tally(ClassCircuitIncrements(rec, P2P), counter) + Tally(ClassCircuitIncrements(rec, Other), counter)
  {
    var w, i, p, o := ClassCircuitIncrements(rec, Web), ClassCircuitIncrements(rec, Interactive),
                      ClassCircuitIncrements(rec, P2P), ClassCircuitIncrements(rec, Other);
    TallyAppend(w + i + p, o, counter);
    TallyAppend(w + i, p, counter);
    TallyAppend(w, i, counter);
  }

  /**
   * The increments of an exit circuit on which a stream ended: the active
   * count and lifetime, the total stream count, one gap per pair of
   * consecutive streams over all classes, then the per-class counters.
   */
  function ActiveExitIncrements(rec: CircRecord, lifetime: real): seq<SinkOp> {
    [Increment(ExitActiveCircuitCount, SingleBin, 1),
     Increment(ExitActiveCircuitLifeTime, RealBin(lifetime), 1),
     Increment(ExitCircuitStreamCount, IntBin(TotalStreams(rec)), 1)]
    + GapIncrements(ExitCircuitInterStreamCreationTime, StartTimeGaps(AllStartTimes(rec)))
    + AllClassesIncrements(rec)
  }

  /**
   * The increments of an exit circuit: the circuit count and lifetime, then
   * the active increments when the circuit is known and had a stream end on
   * it, or the inactive count and lifetime otherwise.
   */
  function ExitCircuitIncrements(ci: CircInfo, chan: int, circ: int, lifetime: real): seq<SinkOp> {
    [Increment(ExitCircuitCount, SingleBin, 1), Increment(ExitCircuitLifeTime, RealBin(lifetime), 1)]
    + if HasCompletedStream(ci, chan, circ) then ActiveExitIncrements(ci[chan][circ], lifetime)
      else [Increment(ExitInactiveCircuitCount, SingleBin, 1), Increment(ExitInactiveCircuitLifeTime, RealBin(lifetime), 1)]
  }

  /**
   * Every exit circuit adds one to ExitCircuitCount and one to exactly one of
   * the active and inactive counts, active exactly when it is known and a
   * stream ended on it; an active circuit with n streams adds n - 1 gaps.
   */
  lemma ExitCircuitTallies(ci: CircInfo, chan: int, circ: int, lifetime: real)
    requires WellFormedCircInfo(ci)
    ensures Tally(ExitCircuitIncrements(ci, chan, circ, lifetime), ExitCircuitCount) == 1
    ensures Tally(ExitCircuitIncrements(ci, chan, circ, lifetime), ExitActiveCircuitCount)
         == (if HasCompletedStream(ci, chan, circ) then 1 else 0)
    ensures Tally(ExitCircuitIncrements(ci, chan, circ, lifetime), ExitInactiveCircuitCount)
         == (if HasCompletedStream(ci, chan, circ) then 0 else 1)
    ensures Tally(ExitCircuitIncrements(ci, chan, circ, lifetime), ExitCircuitInterStreamCreationTime)
         == (if HasCompletedStream(ci, chan, circ) then TotalStreams(ci[chan][circ]) - 1 else 0)
    ensures forall c :: Tally(ExitCircuitIncrements(ci, chan, circ, lifetime), ExitClassCircuitCount(c)) == (if HasCompletedStream(ci, chan, circ) && ci[chan][circ].numStreams.Get(c) > 0 then 1 else 0)
  {
    ExitCircuitTally(ci, chan, circ, lifetime, ExitCircuitCount);
    ExitCircuitTally(ci, chan, circ, lifetime, ExitActiveCircuitCount);
    ExitCircuitTally(ci, chan, circ, lifetime, ExitInactiveCircuitCount);
    ExitCircuitTally(ci, chan, circ, lifetime, ExitCircuitInterStreamCreationTime);
    if HasCompletedStream(ci, chan, circ) {
      var rec := ci[chan][circ];
      ActiveExitTally(rec, lifetime);
      forall c ensures Tally(ExitCircuitIncrements(ci, chan, circ, lifetime), ExitClassCircuitCount(c))
                    == (if rec.numStreams.Get(c) > 0 then 1 else 0) {
        ExitCircuitTally(ci, chan, circ, lifetime, ExitClassCircuitCount(c));
      }
    } else {
      forall c ensures Tally(ExitCircuitIncrements(ci, chan, circ, lifetime), ExitClassCircuitCount(c)) == 0 {
        ExitCircuitTally(ci, chan, circ, lifetime, ExitClassCircuitCount(c));
      }
    }
  }

  /** The exit circuit increments for one counter: the two circuit-wide ones, then the active or inactive part. */
  lemma ExitCircuitTally(ci: CircInfo, chan: int, circ: int, lifetime: real, counter: Counter)
    ensures Tally(ExitCircuitIncrements(ci, chan, circ, lifetime), counter)
         == (if counter == ExitCircuitCount then 1 else 0) + (if counter == ExitCircuitLifeTime then 1 else 0)
          + if HasCompletedStream(ci, chan, circ) then Tally(ActiveExitIncrements(ci[chan][circ], lifetime), counter)
            else (if counter == ExitInactiveCircuitCount then 1 else 0) + (if counter == ExitInactiveCircuitLifeTime then 1 else 0)
  {
    var a := Increment(ExitCircuitCount, SingleBin, 1);
    var b := Increment(ExitCircuitLifeTime, RealBin(lifetime), 1);
    var c := Increment(ExitInactiveCircuitCount, SingleBin, 1);
    var d := Increment(ExitInactiveCircuitLifeTime, RealBin(lifetime), 1);
    var tail := if HasCompletedStream(ci, chan, circ) then ActiveExitIncrements(ci[chan][circ], lifetime) else [c, d];
    TallyAppend([a, b], tail, counter);
    TallyPair(a, b, counter);
    TallyPair(c, d, counter);
  }

  /** The active increments of an exit circuit, part by part. */
  lemma ActiveExitSplit(rec: CircRecord, lifetime: real, counter: Counter)
    requires ConsistentRecord(rec) && TotalStreams(rec) > 0
    ensures Tally(ActiveExitIncrements(rec, lifetime), counter)
         == (if counter == ExitActiveCircuitCount then 1 else 0)
          + (if counter == ExitActiveCircuitLifeTime then 1 else 0)
          + (if counter == ExitCircuitStreamCount then 1 else 0)
          + (if counter == ExitCircuitInterStreamCreationTime then TotalStreams(rec) - 1 else 0)
          + Tally(AllClassesIncrements(rec), counter)
  {
    var head := [Increment(ExitActiveCircuitCount, SingleBin, 1),
                 Increment(ExitActiveCircuitLifeTime, RealBin(lifetime), 1),
                 Increment(ExitCircuitStreamCount, IntBin(TotalStreams(rec)), 1)];
    var gaps := GapIncrements(ExitCircuitInterStreamCreationTime, StartTimeGaps(AllStartTimes(rec)));
    AllStartTimesCount(rec);
    StartTimeGapsCount(AllStartTimes(rec));
    TallyAppend(head + gaps, AllClassesIncrements(rec), counter);
    TallyAppend(head, gaps, counter);
    TallyThree(head[0], head[1], head[2], counter);
    GapIncrementsTally(ExitCircuitInterStreamCreationTime, StartTimeGaps(AllStartTimes(rec)), counter);
  }

  lemma ActiveExitTally(rec: CircRecord, lifetime: real)
    requires ConsistentRecord(rec) && TotalStreams(rec) > 0
    ensures Tally(ActiveExitIncrements(rec, lifetime), ExitCircuitCount) == 0
    ensures Tally(ActiveExitIncrements(rec, lifetime), ExitActiveCircuitCount) == 1
    ensures Tally(ActiveExitIncrements(rec, lifetime), ExitInactiveCircuitCount) == 0
    ensures Tally(ActiveExitIncrements(rec, lifetime), ExitCircuitInterStreamCreationTime) == TotalStreams(rec) - 1
    ensures forall c :: Tally(ActiveExitIncrements(rec, lifetime), ExitClassCircuitCount(c)) == (if rec.numStreams.Get(c) > 0 then 1 else 0)
  {
    ActiveExitSplit(rec, lifetime, ExitCircuitCount);
    ActiveExitSplit(rec, lifetime, ExitActiveCircuitCount);
    ActiveExitSplit(rec, lifetime, ExitInactiveCircuitCount);
    ActiveExitSplit(rec, lifetime, ExitCircuitInterStreamCreationTime);
    AllClassesTallyOthers(rec, ExitCircuitCount);
    AllClassesTallyOthers(rec, ExitActiveCircuitCount);
    AllClassesTallyOthers(rec, ExitInactiveCircuitCount);
    AllClassesTallyOthers(rec, ExitCircuitInterStreamCreationTime);
    forall c ensures Tally(ActiveExitIncrements(rec, lifetime), ExitClassCircuitCount(c)) == (if rec.numStreams.Get(c) > 0 then 1 else 0) {
      ActiveExitSplit(rec, lifetime, ExitClassCircuitCount(c));
      AllClassesCircuitCount(rec, c);
    }
  }

  // ---------------------------------------------------------------- connections

  /** A connection from a client is counted with its lifetime; any other connection is not. */
  function ConnectionIncrements(isClient: bool, lifetime: real): seq<SinkOp> {
    if isClient then
      [Increment(EntryConnectionCount, SingleBin, 1), Increment(EntryConnectionLifeTime, RealBin(lifetime), 1)]
    else []
  }

  /** Only connections from clients are counted, once each. */
  lemma ConnectionTally(isClient: bool, lifetime: real)
    ensures Tally(ConnectionIncrements(isClient, lifetime), EntryConnectionCount) == if isClient then 1 else 0
    ensures Tally(ConnectionIncrements(isClient, lifetime), EntryConnectionLifeTime) == if isClient then 1 else 0
  {
    if isClient {
      var ops := ConnectionIncrements(isClient, lifetime);
      assert ops[1..][1..] == [];
      assert Tally(ops[1..], EntryConnectionCount) == Added(ops[1], EntryConnectionCount) + Tally(ops[1..][1..], EntryConnectionCount);
      assert Tally(ops[1..], EntryConnectionLifeTime) == Added(ops[1], EntryConnectionLifeTime) + Tally(ops[1..][1..], EntryConnectionLifeTime);
    }
  }
}
