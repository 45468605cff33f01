/**
 * The Aggregator: one collection round's secure counters, the correlation
 * state its control-port event handlers keep, the two client windows that
 * _do_rotate swaps, and the relay identity the control port reports.
 */
module AggregatorModel {
  import opened Types
  import opened Classifier
  import opened Correlation
  import opened ClientWindow
  import opened Increments
  import opened Events
  import opened Identity

  /**
   * The tally server's noise weight table, as has_noise_weight and
   * get_noise_weight see it: the weight for a fingerprint, or for the
   * fingerprint None when it is looked up before one is known.
   */
  type NoiseWeights = map<Option<string>, real>

  class Aggregator {
    /** None once the round was given up or stopped: the counters are gone for good. */
    var secureCounters: Option<SecureCounters>
    const hasTrafficModel: bool
    const noiseWeightConfig: NoiseWeights
    var noiseWeightValue: Option<real>
    /** Whether the control port connection and the rotation timer are live. */
    var collecting: bool
    var lastEventTime: Option<real>
    var numRotations: nat
    var circInfo: CircInfo
    var strmBytes: StrmBytes
    var cliIpsRotated: real
    var cliIpsCurrent: ClientMap
    var cliIpsPrevious: ClientMap
    var nickname: Option<string>
    var orportList: seq<string>
    var dirportList: seq<string>
    var torVersion: Option<string>
    var torPrivcountVersion: Option<string>
    var address: Option<string>
    var fingerprint: Option<string>

    /**
     * What every method keeps: no empty entry is left in the correlation
     * maps, the port lists are sorted without duplicates, every stored
     * identity value passed its setter's check, and a noise weight in use
     * came from the table.
     */
    ghost predicate Valid()
      reads this`circInfo, this`strmBytes, this`orportList, this`dirportList, this`nickname, this`torVersion,
            this`torPrivcountVersion, this`address, this`fingerprint, this`noiseWeightValue
    {
      ValidCorrelation() && ValidIdentity()
      && (noiseWeightValue.Some? ==> noiseWeightValue.value in noiseWeightConfig.Values)
    }

    /** No empty entry is left in the correlation maps. */
    ghost predicate ValidCorrelation()
      reads this`circInfo, this`strmBytes
    {
      WellFormedCircInfo(circInfo) && WellFormedStrmBytes(strmBytes)
    }

    /** The port lists are sorted without duplicates and every stored identity value passed its setter's check. */
    ghost predicate ValidIdentity()
      reads this`orportList, this`dirportList, this`nickname, this`torVersion, this`torPrivcountVersion,
            this`address, this`fingerprint
    {
      && StrictlySorted(orportList) && (forall p :: p in orportList ==> ValidTorPort(p))
      && StrictlySorted(dirportList) && (forall p :: p in dirportList ==> ValidTorPort(p))
      && (nickname.Some? ==> ValidNickname(nickname.value))
      && (torVersion.Some? ==> ValidVersion(torVersion.value))
      && (torPrivcountVersion.Some? ==> ValidVersion(torPrivcountVersion.value))
      && (address.Some? ==> ValidAddress(address.value))
      && (fingerprint.Some? ==> ValidFingerprint(fingerprint.value))
    }

    /** The part of the aggregator the event handlers read and write. */
    function State(): AggState
      reads this
      requires secureCounters.Some?
    {
      AggState(secureCounters.value, circInfo, strmBytes, cliIpsRotated, cliIpsCurrent, cliIpsPrevious)
    }

    /**
     * __init__: fresh counters whose blinding shares go to the given share
     * keepers, no noise weight yet, empty correlation state and windows,
     * and no identity.
     */
    constructor (hasTrafficModel: bool, skUids: set<SkUid>, noiseWeightConfig: NoiseWeights, now: real)
      ensures Valid()
      ensures this.hasTrafficModel == hasTrafficModel && this.noiseWeightConfig == noiseWeightConfig
      ensures secureCounters == Some(SecureCounters([], skUids)) && noiseWeightValue.None? && !collecting
      ensures lastEventTime.None? && numRotations == 0 && circInfo == map[] && strmBytes == map[]
      ensures cliIpsRotated == now && cliIpsCurrent == map[] && cliIpsPrevious == map[]
      ensures nickname.None? && orportList == [] && dirportList == [] && torVersion.None?
      ensures torPrivcountVersion.None? && address.None? && fingerprint.None?
    {
      secureCounters := Some(SecureCounters([], skUids));
      this.hasTrafficModel := hasTrafficModel;
      this.noiseWeightConfig := noiseWeightConfig;
      noiseWeightValue := None;
      collecting := false;
      lastEventTime := None;
      numRotations := 0;
      circInfo := map[];
      strmBytes := map[];
      cliIpsRotated := now;
      cliIpsCurrent := map[];
      cliIpsPrevious := map[];
      nickname := None;
      orportList := [];
      dirportList := [];
      torVersion := None;
      torPrivcountVersion := None;
      address := None;
      fingerprint := None;
    }

    // ---------------------------------------------------------------- lifecycle

    /** start: connect to the control port and start the rotation timer. */
    method Start()
      modifies this`collecting
      ensures collecting
    {
      collecting := true;
    }

    /** _stop_protocol: stop reconnecting, quit the control port and stop the rotation timer. */
    method StopProtocol()
      modifies this`collecting
      ensures !collecting
    {
      collecting := false;
    }

    /**
     * _stop_secure_counters: detach the counts and drop the counters, so
     * that counting cannot restart; the counts are handed out only when
     * they are valid, and there are none once the counters are gone.
     */
    method StopSecureCounters(countsAreValid: bool) returns (counts: Option<seq<SinkOp>>)
      modifies this`secureCounters
      ensures secureCounters.None?
      ensures counts.Some? <==> countsAreValid && old(secureCounters).Some?
      ensures counts.Some? ==> counts.value == old(secureCounters).value.ops
    {
      if secureCounters.None? {
        return None;
      }
      var detached := secureCounters.value.ops;
      secureCounters := None;
      if countsAreValid {
        counts := Some(detached);
      } else {
        counts := None;
      }
    }

    /**
     * generate_noise: a second call changes nothing. The first looks the
     * fingerprint up in the noise weight table and keeps its weight; when
     * the table has no weight for it, the aggregator stops collecting and
     * throws its counters away.
     */
    method GenerateNoise()
      requires Valid()
      modifies this`noiseWeightValue, this`collecting, this`secureCounters
      ensures Valid()
      ensures old(noiseWeightValue).Some? ==>
        noiseWeightValue == old(noiseWeightValue) && collecting == old(collecting) && secureCounters == old(secureCounters)
      ensures old(noiseWeightValue).None? && fingerprint in noiseWeightConfig ==>
        noiseWeightValue == Some(noiseWeightConfig[fingerprint]) && collecting == old(collecting) && secureCounters == old(secureCounters)
      ensures old(noiseWeightValue).None? && fingerprint !in noiseWeightConfig ==>
        noiseWeightValue.None? && !collecting && secureCounters.None?
    {
      if noiseWeightValue.Some? {
        return;
      }
      if fingerprint in noiseWeightConfig {
        noiseWeightValue := Some(noiseWeightConfig[fingerprint]);
      } else {
        StopProtocol();
        var _ := StopSecureCounters(false);
      }
    }

    /**
     * stop: add the noise first if that has not happened yet and the counts
     * are wanted, stop collecting, then detach the counts. Counts come back
     * only when they are wanted, the counters still exist, and a noise
     * weight was or now is found for the fingerprint.
     */
    method Stop(countsAreValid: bool) returns (counts: Option<seq<SinkOp>>)
      requires Valid()
      modifies this`noiseWeightValue, this`collecting, this`secureCounters
      ensures Valid()
      ensures !collecting && secureCounters.None?
      ensures counts.Some? <==>
        countsAreValid && old(secureCounters).Some? && (old(noiseWeightValue).Some? || fingerprint in noiseWeightConfig)
      ensures counts.Some? ==> counts.value == old(secureCounters).value.ops
      ensures noiseWeightValue ==
        if old(noiseWeightValue).None? && countsAreValid && fingerprint in noiseWeightConfig
        then Some(noiseWeightConfig[fingerprint]) else old(noiseWeightValue)
    {
      if noiseWeightValue.None? && countsAreValid {
        GenerateNoise();
      }
      StopProtocol();
      counts := StopSecureCounters(countsAreValid);
    }

    /** get_shares: detach the blinding shares, which raises once the counters are gone. */
    method GetShares() returns (r: Outcome<set<SkUid>>)
      modifies this`secureCounters
      ensures old(secureCounters).None? ==> r == Raised(AttributeError) && secureCounters.None?
      ensures old(secureCounters).Some? ==>
        && r == Returned(old(secureCounters).value.blindingShares)
        && secureCounters == Some(old(secureCounters).value.(blindingShares := {}))
    {
      if secureCounters.None? {
        return Raised(AttributeError);
      }
      r := Returned(secureCounters.value.blindingShares);
      secureCounters := Some(secureCounters.value.(blindingShares := {}));
    }

    // ---------------------------------------------------------------- identity

    /** set_nickname: keep the stripped nickname when it is 1 to 19 letters and digits. */
    method SetNickname(name: string) returns (ok: bool)
      requires Valid()
      modifies this`nickname
      ensures Valid()
      ensures ok <==> ValidNickname(Strip(name))
      ensures nickname == if ok then Some(Strip(name)) else old(nickname)
    {
      var n := Strip(name);
      if |n| < 1 || |n| > 19 {
        return false;
      }
      if !(forall k :: 0 <= k < |n| ==> IsAsciiAlnum(n[k])) {
        return false;
      }
      nickname := Some(n);
      return true;
    }

    /**
     * set_orport: add the stripped port line when validate_tor_port accepts
     * it; the list stays sorted and holds each line once.
     */
    method SetOrport(port: string) returns (ok: bool)
      requires Valid()
      modifies this`orportList
      ensures Valid()
      ensures ok <==> ValidTorPort(Strip(port))
      ensures !ok ==> orportList == old(orportList)
      ensures ok ==> forall p :: p in orportList <==> p in old(orportList) || p == Strip(port)
    {
      var p := Strip(port);
      if !ValidTorPort(p) {
        return false;
      }
      orportList := AddTorPort(p, orportList);
      return true;
    }

    /** set_dirport: like set_orport, for the DirPort list. */
    method SetDirport(port: string) returns (ok: bool)
      requires Valid()
      modifies this`dirportList
      ensures Valid()
      ensures ok <==> ValidTorPort(Strip(port))
      ensures !ok ==> dirportList == old(dirportList)
      ensures ok ==> forall p :: p in dirportList <==> p in old(dirportList) || p == Strip(port)
    {
      var p := Strip(port);
      if !ValidTorPort(p) {
        return false;
      }
      dirportList := AddTorPort(p, dirportList);
      return true;
    }

    /** set_tor_version: keep the version validate_version returns, if any. */
    method SetTorVersion(version: string) returns (ok: bool)
      requires Valid()
      modifies this`torVersion
      ensures Valid()
      ensures ok <==> ValidVersion(Strip(version))
      ensures torVersion == if ok then Some(Strip(version)) else old(torVersion)
    {
      var v := ValidateVersion(version);
      if v.None? {
        return false;
      }
      torVersion := v;
      return true;
    }

    /** set_tor_privcount_version: like set_tor_version, for the PrivCount version. */
    method SetTorPrivcountVersion(version: string) returns (ok: bool)
      requires Valid()
      modifies this`torPrivcountVersion
      ensures Valid()
      ensures ok <==> ValidVersion(Strip(version))
      ensures torPrivcountVersion == if ok then Some(Strip(version)) else old(torPrivcountVersion)
    {
      var v := ValidateVersion(version);
      if v.None? {
        return false;
      }
      torPrivcountVersion := v;
      return true;
    }

    /** set_address: keep the stripped address when it is 7 to 15 digits and dots. */
    method SetAddress(addr: string) returns (ok: bool)
      requires Valid()
      modifies this`address
      ensures Valid()
      ensures ok <==> ValidAddress(Strip(addr))
      ensures address == if ok then Some(Strip(addr)) else old(address)
    {
      var a := Strip(addr);
      if |a| < 7 || |a| > 15 {
        return false;
      }
      if !(forall k :: 0 <= k < |a| ==> IsDigit(a[k]) || a[k] == '.') {
        return false;
      }
      address := Some(a);
      return true;
    }

    /**
     * set_fingerprint: a valid fingerprint is stored only when none is
     * known yet, and only then is the noise weight looked up; a later one,
     * even a different one, changes nothing.
     */
    method SetFingerprint(fp: string) returns (ok: bool)
      requires Valid()
      modifies this`fingerprint, this`noiseWeightValue, this`collecting, this`secureCounters
      ensures Valid()
      ensures ok <==> ValidFingerprint(Strip(fp))
      ensures !(ok && old(fingerprint).None?) ==>
        && fingerprint == old(fingerprint) && noiseWeightValue == old(noiseWeightValue)
        && collecting == old(collecting) && secureCounters == old(secureCounters)
      ensures ok && old(fingerprint).None? ==> fingerprint == Some(Strip(fp))
      ensures ok && old(fingerprint).None? && old(noiseWeightValue).None? && Some(Strip(fp)) in noiseWeightConfig ==>
        noiseWeightValue == Some(noiseWeightConfig[Some(Strip(fp))])
        && collecting == old(collecting) && secureCounters == old(secureCounters)
      ensures ok && old(fingerprint).None? && old(noiseWeightValue).Some? ==>
        noiseWeightValue == old(noiseWeightValue) && collecting == old(collecting) && secureCounters == old(secureCounters)
      ensures ok && old(fingerprint).None? && old(noiseWeightValue).None? && Some(Strip(fp)) !in noiseWeightConfig ==>
        noiseWeightValue.None? && !collecting && secureCounters.None?
    {
      var f := Strip(fp);
      if |f| != 40 {
        return false;
      }
      if !(forall k :: 0 <= k < |f| ==> IsHexDigit(f[k])) {
        return false;
      }
      if fingerprint.None? {
        fingerprint := Some(f);
        GenerateNoise();
      }
      return true;
    }

    // ---------------------------------------------------------------- counting

    /** secure_counters.increment(counter, bin, inc) */
    method IncrementCounter(counter: Counter, bin: Bin, inc: int)
      requires secureCounters.Some?
      modifies this`secureCounters
      ensures secureCounters.Some? && State() == Emit(old(State()), [Increment(counter, bin, inc)])
    {
      secureCounters := Some(secureCounters.value.(ops := secureCounters.value.ops + [Increment(counter, bin, inc)]));
    }

    /** The six increments of one exit stream group. */
    method IncrementStreamGroup(group: Option<TrafficClass>, readbw: int, writebw: int, ratio: Ratio, lifetime: real)
      requires secureCounters.Some?
      modifies this`secureCounters
      ensures secureCounters.Some? && State() == Emit(old(State()), StreamGroup(group, readbw, writebw, ratio, lifetime))
    {
      ghost var s := State();
      IncrementCounter(ExitStream(group, Count), SingleBin, 1);
      IncrementCounter(ExitStream(group, ByteCount), SingleBin, readbw + writebw);
      IncrementCounter(ExitStream(group, OutboundByteCount), IntBin(writebw), 1);
      IncrementCounter(ExitStream(group, InboundByteCount), IntBin(readbw), 1);
      IncrementCounter(ExitStream(group, ByteRatio), RatioBin(ratio), 1);
      IncrementCounter(ExitStream(group, LifeTime), RealBin(lifetime), 1);
      assert secureCounters.value.ops == s.counters.ops + StreamGroup(group, readbw, writebw, ratio, lifetime);
    }

    /** One increment of `counter` per gap, in the order of the gaps. */
    method IncrementGaps(counter: Counter, gaps: seq<real>)
      requires secureCounters.Some?
      modifies this`secureCounters
      ensures secureCounters.Some? && State() == Emit(old(State()), GapIncrements(counter, gaps))
    {
      ghost var s := State();
      for i := 0 to |gaps|
        invariant secureCounters.Some? && State() == Emit(s, GapIncrements(counter, gaps[..i]))
      {
        IncrementCounter(counter, RealBin(gaps[i]), 1);
        assert gaps[..i + 1][..i] == gaps[..i];
        EmitTwice(s, GapIncrements(counter, gaps[..i]), [Increment(counter, RealBin(gaps[i]), 1)]);
      }
      assert gaps[..|gaps|] == gaps;
    }

    /** The counters of one traffic class on an active exit circuit, when the class had a stream. */
    method IncrementClassCircuit(rec: CircRecord, c: TrafficClass)
      requires secureCounters.Some?
      modifies this`secureCounters
      ensures secureCounters.Some? && State() == Emit(old(State()), ClassCircuitIncrements(rec, c))
    {
      ghost var s := State();
      var n := rec.numStreams.Get(c);
      if n > 0 {
        var gaps := InterStreamCreationTimes(rec.startTimes.Get(c));
        assert gaps == StartTimeGaps(rec.startTimes.Get(c));
        ghost var head := [Increment(ExitClassCircuitCount(c), SingleBin, 1), Increment(ExitCircuitClassStreamCount(c), IntBin(n), 1)];
        IncrementCounter(ExitClassCircuitCount(c), SingleBin, 1);
        IncrementCounter(ExitCircuitClassStreamCount(c), IntBin(n), 1);
        assert State() == Emit(s, head);
        IncrementGaps(ExitCircuitClassInterStreamCreationTime(c), gaps);
        EmitTwice(s, head, GapIncrements(ExitCircuitClassInterStreamCreationTime(c), gaps));
      } else {
        assert s.counters.ops + [] == s.counters.ops;
      }
    }

    // ---------------------------------------------------------------- events

    /**
     * handle_event: refused while there are no counters and when the event
     * has no fields; otherwise it records the event time and hands the
     * fields to the handler for its code.
     */
    method HandleEvent(event: seq<Token>, now: real) returns (r: Outcome<bool>)
      requires Valid()
      modifies this`secureCounters, this`circInfo, this`strmBytes, this`cliIpsCurrent, this`cliIpsPrevious, this`lastEventTime
      ensures Valid()
      ensures old(secureCounters).None? ==>
        r == Returned(false) && secureCounters.None? && lastEventTime == old(lastEventTime)
        && circInfo == old(circInfo) && strmBytes == old(strmBytes)
        && cliIpsCurrent == old(cliIpsCurrent) && cliIpsPrevious == old(cliIpsPrevious)
      ensures old(secureCounters).Some? ==>
        && secureCounters.Some?
        && Step(r, State()) == EventOutcome(event, hasTrafficModel, old(State()))
        && lastEventTime == if |event| > 1 then Some(now) else old(lastEventTime)
    {
      if secureCounters.None? {
        return Returned(false);
      }
      r := HandleCountedEvent(event, now);
    }

    /** handle_event once the counters are known to exist. */
    method HandleCountedEvent(event: seq<Token>, now: real) returns (r: Outcome<bool>)
      requires ValidCorrelation() && secureCounters.Some?
      modifies this`secureCounters, this`circInfo, this`strmBytes, this`cliIpsCurrent, this`cliIpsPrevious, this`lastEventTime
      ensures ValidCorrelation() && secureCounters.Some?
      ensures Step(r, State()) == EventOutcome(event, hasTrafficModel, old(State()))
      ensures lastEventTime == if |event| > 1 then Some(now) else old(lastEventTime)
    {
      if |event| <= 1 {
        return Returned(false);
      }
      lastEventTime := Some(now);
      r := Dispatch(event);
    }

    /** The dispatch on the event code in handle_event. */
    method Dispatch(event: seq<Token>) returns (r: Outcome<bool>)
      requires |event| > 1 && secureCounters.Some? && ValidCorrelation()
      modifies this`secureCounters, this`circInfo, this`strmBytes, this`cliIpsCurrent, this`cliIpsPrevious
      ensures ValidCorrelation()
      ensures secureCounters.Some? && Step(r, State()) == EventOutcome(event, hasTrafficModel, old(State()))
    {
      var code, items := event[0].text, event[1..];
      if code == "PRIVCOUNT_STREAM_BYTES_TRANSFERRED" {
        if |items| == StreamBytesItems {
          r := HandleBytesEvent(items);
        } else {
          r := Returned(false);
        }
      } else if code == "PRIVCOUNT_STREAM_ENDED" {
        if |items| == StreamEndedItems {
          r := HandleStreamEvent(items);
        } else {
          r := Returned(false);
        }
      } else if code == "PRIVCOUNT_CIRCUIT_ENDED" {
        if |items| == CircuitEndedItems {
          r := HandleCircuitEvent(items);
        } else {
          r := Returned(false);
        }
      } else if code == "PRIVCOUNT_CONNECTION_ENDED" {
        if |items| == ConnectionEndedItems {
          r := HandleConnectionEvent(items);
        } else {
          r := Returned(false);
        }
      } else {
        r := Returned(true);
      }
    }

    /** _handle_bytes_event */
    method HandleBytesEvent(items: seq<Token>) returns (r: Outcome<bool>)
      requires |items| == StreamBytesItems && secureCounters.Some?
      modifies this`strmBytes
      ensures secureCounters.Some? && Step(r, State()) == BytesEvent(items, hasTrafficModel, old(State()))
    {
      if !hasTrafficModel {
        return Returned(true);
      }
      if !BytesParse(items) {
        return Raised(ValueError);
      }
      var circ, strm, isOutbound, bw := IntOf(items[1]), IntOf(items[2]), IntOf(items[3]), IntOf(items[4]);
      var ts := FloatOf(items[5]);
      strmBytes := AppendSample(strmBytes, strm, circ, ByteSample(bw, isOutbound, ts));
      return Returned(true);
    }

    /** _handle_stream_event */
    method HandleStreamEvent(items: seq<Token>) returns (r: Outcome<bool>)
      requires |items| == StreamEndedItems && secureCounters.Some?
      modifies this`secureCounters, this`circInfo, this`strmBytes
      ensures secureCounters.Some? && Step(r, State()) == StreamEvent(items, hasTrafficModel, old(State()))
    {
      if !StreamParse(items) {
        return Raised(ValueError);
      }
      var chan, circ, strm, port := IntOf(items[0]), IntOf(items[1]), IntOf(items[2]), IntOf(items[3]);
      var readbw, writebw := IntOf(items[4]), IntOf(items[5]);
      var start, end := FloatOf(items[6]), FloatOf(items[7]);
      var totalbw := readbw + writebw;
      if readbw < 0 || writebw < 0 || totalbw <= 0 {
        return Returned(true);
      }
      var cls := ClassifyPort(port);
      CountStream(chan, circ, strm, cls, readbw, writebw, start, end);
      return Returned(true);
    }

    /** What _handle_stream_event does with a stream that passed the transfer check. */
    method CountStream(chan: int, circ: int, strm: int, cls: TrafficClass, readbw: int, writebw: int, start: real, end: real)
      requires secureCounters.Some? && readbw >= 0 && writebw >= 0
      modifies this`secureCounters, this`circInfo, this`strmBytes
      ensures secureCounters.Some?
      ensures State() == CountedStream(hasTrafficModel, old(State()), chan, circ, strm, cls, readbw, writebw, start, end)
    {
      circInfo := RecordStream(circInfo, chan, circ, cls, start);
      IncrementStream(strm, circ, cls, readbw, writebw, start, end);
      strmBytes := PurgeStream(strmBytes, strm, circ);
    }

    /** The twelve stream increments, then the traffic model hand-off when there are byte samples. */
    method IncrementStream(strm: int, circ: int, cls: TrafficClass, readbw: int, writebw: int, start: real, end: real)
      requires secureCounters.Some? && readbw >= 0 && writebw >= 0
      modifies this`secureCounters
      ensures secureCounters.Some?
      ensures State() == Emit(old(State()), StreamIncrements(cls, readbw, writebw, start, end)
                                            + TrafficModelOps(hasTrafficModel, strmBytes, strm, circ, start))
    {
      ghost var s := State();
      var ratio := EncodeRatio(readbw, writebw).value;
      var lifetime := end - start;
      IncrementStreamGroup(None, readbw, writebw, ratio, lifetime);
      IncrementStreamGroup(Some(cls), readbw, writebw, ratio, lifetime);
      ghost var counted := StreamIncrements(cls, readbw, writebw, start, end);
      EmitTwice(s, StreamGroup(None, readbw, writebw, ratio, lifetime), StreamGroup(Some(cls), readbw, writebw, ratio, lifetime));
      ghost var tm := TrafficModelOps(hasTrafficModel, strmBytes, strm, circ, start);
      if hasTrafficModel && strm in strmBytes && circ in strmBytes[strm] {
        secureCounters := Some(secureCounters.value.(ops := secureCounters.value.ops + [TrafficModelUpdate(start, strmBytes[strm][circ])]));
      }
      EmitTwice(s, counted, tm);
    }

    /** _handle_circuit_event */
    method HandleCircuitEvent(items: seq<Token>) returns (r: Outcome<bool>)
      requires |items| == CircuitEndedItems && secureCounters.Some?
      modifies this`secureCounters, this`circInfo, this`cliIpsCurrent, this`cliIpsPrevious
      ensures secureCounters.Some? && Step(r, State()) == CircuitEvent(items, old(State()))
    {
      if !CircuitParse(items) {
        return Raised(ValueError);
      }
      var chan, circ, ncellsin, ncellsout := IntOf(items[0]), IntOf(items[1]), IntOf(items[2]), IntOf(items[3]);
      var start, end := FloatOf(items[6]), FloatOf(items[7]);
      var previp := items[8].text;
      var prevIsClient := IntOf(items[9]) > 0;
      var nextIsEdge := IntOf(items[11]) > 0;
      if prevIsClient {
        r := HandleEntryCircuit(ncellsin, ncellsout, start, previp);
      } else if nextIsEdge {
        r := HandleExitCircuit(chan, circ, end - start);
      } else {
        r := Returned(true);
      }
    }

    /** The entry branch of _handle_circuit_event. */
    method HandleEntryCircuit(ncellsin: int, ncellsout: int, start: real, ip: string) returns (r: Outcome<bool>)
      requires secureCounters.Some?
      modifies this`secureCounters, this`cliIpsCurrent, this`cliIpsPrevious
      ensures secureCounters.Some? && Step(r, State()) == EntryCircuit(ncellsin, ncellsout, start, ip, old(State()))
    {
      ghost var s := State();
      IncrementCounter(EntryCircuitCount, SingleBin, 1);
      var isActive := ncellsin + ncellsout >= 8;
      if isActive {
        var ratioFails := IncrementEntryActive(ncellsin, ncellsout);
        EmitTwice(s, [Increment(EntryCircuitCount, SingleBin, 1)], EntryActiveIncrements(ncellsin, ncellsout));
        if ratioFails {
          return Raised(ValueError);
        }
      } else {
        IncrementCounter(EntryInactiveCircuitCount, SingleBin, 1);
        EmitTwice(s, [Increment(EntryCircuitCount, SingleBin, 1)], [Increment(EntryInactiveCircuitCount, SingleBin, 1)]);
      }
      cliIpsCurrent := RecordCurrent(cliIpsCurrent, ip, isActive);
      if start < cliIpsRotated {
        cliIpsPrevious := MarkSeen(cliIpsPrevious, ip, isActive);
      }
      return Returned(true);
    }

    /** The counts of an active entry circuit; the cell ratio raises when it has no logarithm. */
    method IncrementEntryActive(ncellsin: int, ncellsout: int) returns (ratioFails: bool)
      requires secureCounters.Some?
      modifies this`secureCounters
      ensures secureCounters.Some? && State() == Emit(old(State()), EntryActiveIncrements(ncellsin, ncellsout))
      ensures ratioFails <==> EncodeRatio(ncellsin, ncellsout).None?
    {
      ghost var s := State();
      IncrementCounter(EntryActiveCircuitCount, SingleBin, 1);
      IncrementCounter(EntryCircuitInboundCellCount, IntBin(ncellsin), 1);
      IncrementCounter(EntryCircuitOutboundCellCount, IntBin(ncellsout), 1);
      var ratio := EncodeRatio(ncellsin, ncellsout);
      if ratio.None? {
        assert secureCounters.value.ops == s.counters.ops + EntryActiveIncrements(ncellsin, ncellsout);
        return true;
      }
      IncrementCounter(EntryCircuitCellRatio, RatioBin(ratio.value), 1);
      assert secureCounters.value.ops == s.counters.ops + EntryActiveIncrements(ncellsin, ncellsout);
      return false;
    }

    /** The exit branch of _handle_circuit_event. */
    method HandleExitCircuit(chan: int, circ: int, lifetime: real) returns (r: Outcome<bool>)
      requires secureCounters.Some?
      modifies this`secureCounters, this`circInfo
      ensures secureCounters.Some? && Step(r, State()) == ExitCircuit(chan, circ, lifetime, old(State()))
    {
      var circIsKnown := IncrementExitCircuit(chan, circ, lifetime);
      if circIsKnown {
        circInfo := PurgeCircuit(circInfo, chan, circ);
      }
      return Returned(true);
    }

    /** The increments of the exit branch; says whether the circuit has a record to clean up. */
    method IncrementExitCircuit(chan: int, circ: int, lifetime: real) returns (circIsKnown: bool)
      requires secureCounters.Some?
      modifies this`secureCounters
      ensures secureCounters.Some? && State() == Emit(old(State()), ExitCircuitIncrements(circInfo, chan, circ, lifetime))
      ensures circIsKnown == CircuitKnown(circInfo, chan, circ)
    {
      ghost var s := State();
      IncrementCounter(ExitCircuitCount, SingleBin, 1);
      IncrementCounter(ExitCircuitLifeTime, RealBin(lifetime), 1);
      ghost var head := [Increment(ExitCircuitCount, SingleBin, 1), Increment(ExitCircuitLifeTime, RealBin(lifetime), 1)];
      assert State() == Emit(s, head);
      circIsKnown := chan in circInfo && circ in circInfo[chan];
      var hasCompletedStream := circIsKnown && TotalStreams(circInfo[chan][circ]) > 0;
      if circIsKnown && hasCompletedStream {
        var rec := circInfo[chan][circ];
        IncrementActiveExit(rec, lifetime);
        EmitTwice(s, head, ActiveExitIncrements(rec, lifetime));
      } else {
        IncrementCounter(ExitInactiveCircuitCount, SingleBin, 1);
        IncrementCounter(ExitInactiveCircuitLifeTime, RealBin(lifetime), 1);
      }
    }

    /** The increments of an exit circuit on which a stream ended. */
    method IncrementActiveExit(rec: CircRecord, lifetime: real)
      requires secureCounters.Some?
      modifies this`secureCounters
      ensures secureCounters.Some? && State() == Emit(old(State()), ActiveExitIncrements(rec, lifetime))
    {
      ghost var s := State();
      IncrementCounter(ExitActiveCircuitCount, SingleBin, 1);
      IncrementCounter(ExitActiveCircuitLifeTime, RealBin(lifetime), 1);
      IncrementCounter(ExitCircuitStreamCount, IntBin(TotalStreams(rec)), 1);
      ghost var head := [Increment(ExitActiveCircuitCount, SingleBin, 1),
                         Increment(ExitActiveCircuitLifeTime, RealBin(lifetime), 1),
                         Increment(ExitCircuitStreamCount, IntBin(TotalStreams(rec)), 1)];
      assert State() == Emit(s, head);
      var gaps := InterStreamCreationTimes(rec.startTimes.web + rec.startTimes.interactive + rec.startTimes.p2p + rec.startTimes.other);
      IncrementGaps(ExitCircuitInterStreamCreationTime, gaps);
      ghost var gapOps := GapIncrements(ExitCircuitInterStreamCreationTime, gaps);
      EmitTwice(s, head, gapOps);
      ghost var mid := State();
      IncrementClassCircuit(rec, Web);
      IncrementClassCircuit(rec, Interactive);
      IncrementClassCircuit(rec, P2P);
      IncrementClassCircuit(rec, Other);
      ghost var w, i, p, o := ClassCircuitIncrements(rec, Web), ClassCircuitIncrements(rec, Interactive),
                              ClassCircuitIncrements(rec, P2P), ClassCircuitIncrements(rec, Other);
      EmitTwice(mid, w, i);
      EmitTwice(mid, w + i, p);
      EmitTwice(mid, w + i + p, o);
      EmitTwice(s, head + gapOps, AllClassesIncrements(rec));
    }

    /** _handle_connection_event */
    method HandleConnectionEvent(items: seq<Token>) returns (r: Outcome<bool>)
      requires |items| == ConnectionEndedItems && secureCounters.Some?
      modifies this`secureCounters
      ensures secureCounters.Some? && Step(r, State()) == ConnectionEvent(items, old(State()))
    {
      if !ConnectionParse(items) {
        return Raised(ValueError);
      }
      var start, end := FloatOf(items[1]), FloatOf(items[2]);
      var isClient := IntOf(items[4]) > 0;
      ghost var s := State();
      if isClient {
        IncrementCounter(EntryConnectionCount, SingleBin, 1);
        IncrementCounter(EntryConnectionLifeTime, RealBin(end - start), 1);
        assert State() == Emit(s, ConnectionIncrements(isClient, end - start));
      } else {
        assert s.counters.ops + [] == s.counters.ops;
      }
      return Returned(true);
    }

    // ---------------------------------------------------------------- rotation

    /**
     * _do_rotate: visit every client of the previous window, counting it
     * active or inactive and making its two per-client increments, then
     * make the three unique-client totals and move the current window into
     * the previous one. Without counters the first increment raises, before
     * anything changed. The increments are those of RotationIncrements for
     * the order in which the window was visited, so EntryClientIPCount grows
     * by the size of the evicted window.
     */
    method DoRotate(now: real) returns (error: Option<PyError>, ghost order: seq<string>)
      modifies this`secureCounters, this`cliIpsCurrent, this`cliIpsPrevious, this`cliIpsRotated, this`numRotations
      ensures old(secureCounters).None? ==>
        && error == Some(AttributeError) && secureCounters.None?
        && cliIpsCurrent == old(cliIpsCurrent) && cliIpsPrevious == old(cliIpsPrevious)
        && cliIpsRotated == old(cliIpsRotated) && numRotations == old(numRotations)
      ensures old(secureCounters).Some? ==>
        && error.None? && secureCounters.Some?
        && IsEnumeration(order, old(cliIpsPrevious).Keys)
        && secureCounters.value.ops == old(secureCounters).value.ops + RotationIncrements(old(cliIpsPrevious), order)
        && secureCounters.value.blindingShares == old(secureCounters).value.blindingShares
        && Tally(secureCounters.value.ops, EntryClientIPCount)
           == Tally(old(secureCounters).value.ops, EntryClientIPCount) + |old(cliIpsPrevious)|
        && cliIpsPrevious == old(cliIpsCurrent) && cliIpsCurrent == map[]
        && cliIpsRotated == now && numRotations == old(numRotations) + 1
    {
      order := [];
      if secureCounters.None? {
        return Some(AttributeError), order;
      }
      var active, inactive, incs;
      active, inactive, incs, order := TallyWindow(cliIpsPrevious);
      ghost var s := State();
      secureCounters := Some(secureCounters.value.(ops := secureCounters.value.ops + incs));
      IncrementClientTotals(cliIpsPrevious, active, inactive);
      EmitTwice(s, incs, WindowTotals(cliIpsPrevious));
      RotationTally(s.counters.ops, cliIpsPrevious, order);
      cliIpsPrevious := cliIpsCurrent;
      cliIpsCurrent := map[];
      cliIpsRotated := now;
      numRotations := numRotations + 1;
      error := None;
    }

    /** The three unique-client totals of a rotation. */
    method IncrementClientTotals(w: ClientMap, active: nat, inactive: nat)
      requires secureCounters.Some? && active == |ActiveClients(w)| && inactive == |InactiveClients(w)|
      modifies this`secureCounters
      ensures secureCounters.Some? && State() == Emit(old(State()), WindowTotals(w))
    {
      ClientsPartition(w);
      IncrementCounter(EntryClientIPCount, SingleBin, active + inactive);
      IncrementCounter(EntryActiveClientIPCount, SingleBin, active);
      IncrementCounter(EntryInactiveClientIPCount, SingleBin, inactive);
    }
  }

  /**
   * A relay whose fingerprint has no noise weight opts out of the round: once
   * the fingerprint is set its counters are gone, so the next event is
   * refused, and stopping hands back no counts.
   */
  method RelayOptsOut(agg: Aggregator, fp: string, event: seq<Token>, now: real)
    returns (accepted: Outcome<bool>, counts: Option<seq<SinkOp>>)
    requires agg.Valid() && ValidFingerprint(Strip(fp))
    requires agg.fingerprint.None? && agg.noiseWeightValue.None? && Some(Strip(fp)) !in agg.noiseWeightConfig
    modifies agg
    ensures agg.Valid() && agg.secureCounters.None? && !agg.collecting
    ensures accepted == Returned(false)
    ensures counts.None?
  {
    var ok := agg.SetFingerprint(fp);
    accepted := agg.HandleEvent(event, now);
    counts := agg.Stop(true);
  }
}
