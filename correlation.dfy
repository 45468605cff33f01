/**
 * The aggregator's correlation state: circ_info (channel -> circuit -> per-class
 * stream counts and start times) and strm_bytes (stream -> circuit -> byte samples),
 * and the setdefault / += / append / pop updates the event handlers make to them.
 */
module Correlation {
  import opened Types

  /** One circ_info entry: 'num_streams' and 'stream_starttimes', each keyed by traffic class. */
  datatype CircRecord = CircRecord(numStreams: PerClass<nat>, startTimes: PerClass<seq<real>>)

  /** The record setdefault creates for a circuit seen for the first time. */
  const EmptyCircRecord := CircRecord(PerClass(0, 0, 0, 0), PerClass([], [], [], []))

  type CircInfo = map<int, map<int, CircRecord>>
  type StrmBytes = map<int, map<int, seq<ByteSample>>>

  /** sum(num_streams.values()) */
  function TotalStreams(rec: CircRecord): nat {
    rec.numStreams.web + rec.numStreams.interactive + rec.numStreams.p2p + rec.numStreams.other
  }

  /** Every start time of the record: web, interactive, p2p, then other. */
  function AllStartTimes(rec: CircRecord): seq<real> {
    rec.startTimes.web + rec.startTimes.interactive + rec.startTimes.p2p + rec.startTimes.other
  }

  /** Each class holds one start time per completed stream. */
  ghost predicate ConsistentRecord(rec: CircRecord) {
    forall c :: |rec.startTimes.Get(c)| == rec.numStreams.Get(c)
  }

  /** No channel entry is left empty, and every record is consistent. */
  ghost predicate WellFormedCircInfo(ci: CircInfo) {
    forall chan :: chan in ci ==>
      ci[chan] != map[] && forall circ :: circ in ci[chan] ==> ConsistentRecord(ci[chan][circ])
  }

  /** No stream entry is left empty. */
  ghost predicate WellFormedStrmBytes(sb: StrmBytes) {
    forall strm :: strm in sb ==> sb[strm] != map[]
  }

  predicate CircuitKnown(ci: CircInfo, chan: int, circ: int) {
    chan in ci && circ in ci[chan]
  }

  /** The record of a circuit, or the record setdefault would create for it. */
  function RecordOf(ci: CircInfo, chan: int, circ: int): CircRecord {
    if CircuitKnown(ci, chan, circ) then ci[chan][circ] else EmptyCircRecord
  }

  /** In a consistent record the start times of all classes are as many as the completed streams. */
  lemma AllStartTimesCount(rec: CircRecord)
    requires ConsistentRecord(rec)
    ensures |AllStartTimes(rec)| == TotalStreams(rec)
  {
    assert |rec.startTimes.Get(Web)| == rec.numStreams.Get(Web);
    assert |rec.startTimes.Get(Interactive)| == rec.numStreams.Get(Interactive);
    assert |rec.startTimes.Get(P2P)| == rec.numStreams.Get(P2P);
    assert |rec.startTimes.Get(Other)| == rec.numStreams.Get(Other);
  }

  /** One more completed stream of class cls, started at start. */
  function AddStream(rec: CircRecord, cls: TrafficClass, start: real): (r: CircRecord)
    ensures r.numStreams.Get(cls) == rec.numStreams.Get(cls) + 1
    ensures r.startTimes.Get(cls) == rec.startTimes.Get(cls) + [start]
    ensures forall c :: c != cls ==> r.numStreams.Get(c) == rec.numStreams.Get(c) && r.startTimes.Get(c) == rec.startTimes.Get(c)
    ensures TotalStreams(r) == TotalStreams(rec) + 1
    ensures ConsistentRecord(rec) ==> ConsistentRecord(r)
  {
    CircRecord(rec.numStreams.Set(cls, rec.numStreams.Get(cls) + 1),
               rec.startTimes.Set(cls, rec.startTimes.Get(cls) + [start]))
  }

  /**
   * The stream-end update: setdefault the (chan, circ) record, add one to the
   * class's num_streams and append start to the class's start times.
   */
  function RecordStream(ci: CircInfo, chan: int, circ: int, cls: TrafficClass, start: real): (r: CircInfo)
    ensures CircuitKnown(r, chan, circ)
    ensures r[chan][circ] == AddStream(RecordOf(ci, chan, circ), cls, start)
    ensures r.Keys == ci.Keys + {chan}
    ensures forall ch :: ch in ci && ch != chan ==> r[ch] == ci[ch]
    ensures r[chan] - {circ} == (if chan in ci then ci[chan] else map[]) - {circ}
    ensures WellFormedCircInfo(ci) ==> WellFormedCircInfo(r)
  {
    var circs := if chan in ci then ci[chan] else map[];
    assert circs[circ := AddStream(RecordOf(ci, chan, circ), cls, start)] - {circ} == circs - {circ};
    ci[chan := circs[circ := AddStream(RecordOf(ci, chan, circ), cls, start)]]
  }

  /** Whether the exit branch counts the circuit active: known, with at least one completed stream. */
  predicate HasCompletedStream(ci: CircInfo, chan: int, circ: int) {
    CircuitKnown(ci, chan, circ) && TotalStreams(ci[chan][circ]) > 0
  }

  /**
   * The circuit-end cleanup: when the circuit is known, pop it from its
   * channel, and pop the channel if that left it empty.
   */
  function PurgeCircuit(ci: CircInfo, chan: int, circ: int): (r: CircInfo)
    ensures !CircuitKnown(r, chan, circ)
    ensures forall ch :: ch != chan ==> (ch in r <==> ch in ci) && (ch in r ==> r[ch] == ci[ch])
    ensures chan in r ==> chan in ci && r[chan] == ci[chan] - {circ}
    ensures CircuitKnown(ci, chan, circ) ==> (chan !in r <==> ci[chan].Keys == {circ})
    ensures !CircuitKnown(ci, chan, circ) ==> r == ci
    ensures WellFormedCircInfo(ci) ==> WellFormedCircInfo(r)
  {
    if CircuitKnown(ci, chan, circ) then
      var circs := ci[chan] - {circ};
      assert circs.Keys == ci[chan].Keys - {circ};
      if |circs| == 0 then
        assert circs.Keys == {};
        ci - {chan}
      else
        assert circs.Keys != {};
        ci[chan := circs]
    else ci
  }

  /** The byte-transfer update: setdefault the (strm, circ) sample list and append the sample. */
  function AppendSample(sb: StrmBytes, strm: int, circ: int, sample: ByteSample): (r: StrmBytes)
    ensures strm in r && circ in r[strm]
    ensures r[strm][circ] == (if strm in sb && circ in sb[strm] then sb[strm][circ] else []) + [sample]
    ensures r.Keys == sb.Keys + {strm}
    ensures forall s :: s in sb && s != strm ==> r[s] == sb[s]
    ensures r[strm] - {circ} == (if strm in sb then sb[strm] else map[]) - {circ}
    ensures WellFormedStrmBytes(sb) ==> WellFormedStrmBytes(r)
  {
    var circs := if strm in sb then sb[strm] else map[];
    var samples := if circ in circs then circs[circ] else [];
    assert circs[circ := samples + [sample]] - {circ} == circs - {circ};
    sb[strm := circs[circ := samples + [sample]]]
  }

  /**
   * The stream-end cleanup: pop (strm, circ), and pop strm when no circuit
   * is left under it.
   */
  function PurgeStream(sb: StrmBytes, strm: int, circ: int): (r: StrmBytes)
    ensures !(strm in r && circ in r[strm])
    ensures forall s :: s != strm ==> (s in r <==> s in sb) && (s in r ==> r[s] == sb[s])
    ensures strm in r ==> strm in sb && r[strm] == sb[strm] - {circ} && r[strm] != map[]
    ensures strm in sb && (sb[strm] - {circ}) != map[] ==> strm in r
    ensures strm !in sb ==> r == sb
    ensures WellFormedStrmBytes(sb) ==> WellFormedStrmBytes(r)
  {
    if strm in sb then
      var circs := sb[strm] - {circ};
      if |circs| == 0 then
        assert circs == map[];
        sb - {strm}
      else
        assert circs != map[];
        sb[strm := circs]
    else sb
  }
}
