/**
 * The DataCollector's side of a collection round: do_start checks the tally
 * server's start command and creates the Aggregator, _start_aggregator_deferred
 * starts it once the defer time has passed, and do_stop hands back its counts.
 */
module Collector {
  import opened Types
  import opened Identity
  import opened AggregatorModel

  /**
   * The parts of a start command do_start reads: the share keepers it names
   * (None when 'sharekeepers' is missing), each with the digest of its
   * public key; whether check_start_config accepts its counters; whether it
   * carries a traffic model; the noise weight table; and the defer time.
   */
  datatype StartCommand = StartCommand(
    shareKeepers: Option<map<SkUid, Digest>>,
    countersAccepted: bool,
    hasTrafficModel: bool,
    noiseWeight: NoiseWeights,
    deferTime: Option<real>)

  /** config['defer_time'] if present, else 0.0 */
  function DeferTime(config: StartCommand): real {
    if config.deferTime.Some? then config.deferTime.value else 0.0
  }

  // ---------------------------------------------------------------- share keeper check

  /** The digests the share keepers in `uids` were given. */
  function ImageOf(requested: map<SkUid, Digest>, uids: set<SkUid>): set<Digest>
    requires uids <= requested.Keys
  {
    set u | u in uids :: requested[u]
  }

  /** Every share keeper in `uids` has a configured digest, and no two of them share one. */
  predicate FitsExpected(expected: set<Digest>, requested: map<SkUid, Digest>, uids: set<SkUid>) {
    && uids <= requested.Keys
    && (forall u :: u in uids ==> requested[u] in expected)
    && (forall u, v :: u in uids && v in uids && u != v ==> requested[u] != requested[v])
  }

  /**
   * The share keeper check do_start means to make: the requested share
   * keepers use each configured digest exactly once.
   */
  predicate ShareKeeperCheck(expected: set<Digest>, requested: map<SkUid, Digest>) {
    FitsExpected(expected, requested, requested.Keys) && ImageOf(requested, requested.Keys) == expected
  }

  /**
   * The check as written: the first digest that is not (or no longer) among
   * the expected ones makes set.remove raise KeyError; when none does, the
   * check passes exactly when every expected digest was used.
   */
  function ShareKeeperCheckAsWritten(expected: set<Digest>, requested: map<SkUid, Digest>): (r: Outcome<bool>)
    ensures r.Raised? ==> r.error == KeyError
  {
    if FitsExpected(expected, requested, requested.Keys)
    then Returned(ImageOf(requested, requested.Keys) == expected)
    else Raised(KeyError)
  }

  lemma ImageAdd(requested: map<SkUid, Digest>, uids: set<SkUid>, u: SkUid)
    requires uids <= requested.Keys && u in requested
    ensures ImageOf(requested, uids + {u}) == ImageOf(requested, uids) + {requested[u]}
  {
  }

  /** Adding one share keeper keeps the fit exactly when its digest is configured and not yet used. */
  lemma FitsAdd(expected: set<Digest>, requested: map<SkUid, Digest>, uids: set<SkUid>, u: SkUid)
    requires uids <= requested.Keys && u in requested && u !in uids
    ensures FitsExpected(expected, requested, uids + {u}) <==>
      FitsExpected(expected, requested, uids) && requested[u] in expected && requested[u] !in ImageOf(requested, uids)
  {
    if requested[u] in ImageOf(requested, uids) {
      var v :| v in uids && requested[v] == requested[u];
      assert v != u;
    }
  }

  lemma FitsSubset(expected: set<Digest>, requested: map<SkUid, Digest>, small: set<SkUid>, large: set<SkUid>)
    requires small <= large && FitsExpected(expected, requested, large)
    ensures FitsExpected(expected, requested, small)
  {
  }

  /** What the corrected loop knows after checking the share keepers outside `todo`. */
  ghost predicate CheckProgress(expected: set<Digest>, requested: map<SkUid, Digest>, todo: set<SkUid>,
                                remaining: set<Digest>, digestError: bool) {
    && todo <= requested.Keys
    && digestError == !FitsExpected(expected, requested, requested.Keys - todo)
    && (!digestError ==> remaining == expected - ImageOf(requested, requested.Keys - todo))
  }

  lemma CheckStep(expected: set<Digest>, requested: map<SkUid, Digest>, todo: set<SkUid>,
                  remaining: set<Digest>, digestError: bool, u: SkUid)
    requires CheckProgress(expected, requested, todo, remaining, digestError) && u in todo
    ensures var d := requested[u];
      CheckProgress(expected, requested, todo - {u},
                    if d !in remaining then remaining else remaining - {d}, digestError || d !in remaining)
  {
    var done := requested.Keys - todo;
    assert requested.Keys - (todo - {u}) == done + {u};
    FitsAdd(expected, requested, done, u);
    ImageAdd(requested, done, u);
  }

  /** A digest that is not among the remaining ones means the requested share keepers do not fit. */
  lemma CheckMisfit(expected: set<Digest>, requested: map<SkUid, Digest>, todo: set<SkUid>,
                    remaining: set<Digest>, u: SkUid)
    requires CheckProgress(expected, requested, todo, remaining, false) && u in todo
    requires requested[u] !in remaining
    ensures !FitsExpected(expected, requested, requested.Keys)
  {
    var done := requested.Keys - todo;
    FitsAdd(expected, requested, done, u);
    if FitsExpected(expected, requested, requested.Keys) {
      FitsSubset(expected, requested, done + {u}, requested.Keys);
    }
  }

  /** Once every share keeper is checked, no error and no unused digest is the intended check. */
  lemma CheckDone(expected: set<Digest>, requested: map<SkUid, Digest>, remaining: set<Digest>, digestError: bool)
    requires CheckProgress(expected, requested, {}, remaining, digestError)
    ensures (!digestError && remaining == {}) == ShareKeeperCheck(expected, requested)
    ensures !digestError ==> ShareKeeperCheckAsWritten(expected, requested) == Returned(remaining == {})
  {
    assert requested.Keys - {} == requested.Keys;
    if !digestError {
      var image := ImageOf(requested, requested.Keys);
      assert image <= expected;
      assert remaining == {} <==> image == expected by {
        if remaining == {} {
          forall d | d in expected ensures d in image {
            assert d !in remaining;
          }
        }
      }
    }
  }

  /**
   * The share keeper loop of do_start, with the removal guarded: a digest
   * that is not expected, or is used a second time, is an error; the check
   * passes when there was no error and every expected digest was used.
   */
  method CheckShareKeepers(expected: set<Digest>, requested: map<SkUid, Digest>) returns (ok: bool)
    ensures ok == ShareKeeperCheck(expected, requested)
  {
    var remaining := expected;
    var digestError := false;
    var todo := requested.Keys;
    assert requested.Keys - todo == {};
    while todo != {}
      invariant CheckProgress(expected, requested, todo, remaining, digestError)
      decreases todo
    {
      var uid :| uid in todo;
      var d := requested[uid];
      CheckStep(expected, requested, todo, remaining, digestError, uid);
      if d !in remaining {
        digestError := true;
      } else {
        remaining := remaining - {d};
      }
      todo := todo - {uid};
    }
    CheckDone(expected, requested, remaining, digestError);
    ok := !digestError && remaining == {};
  }

  /**
   * The share keeper loop of do_start as written: the digest error is
   * recorded, but the unguarded remove raises KeyError right after, so the
   * loop never ends with the error recorded.
   */
  method CheckShareKeepersAsWritten(expected: set<Digest>, requested: map<SkUid, Digest>) returns (r: Outcome<bool>)
    ensures r == ShareKeeperCheckAsWritten(expected, requested)
  {
    var remaining := expected;
    var digestError := false;
    var todo := requested.Keys;
    assert requested.Keys - todo == {};
    while todo != {}
      invariant CheckProgress(expected, requested, todo, remaining, digestError) && !digestError
      decreases todo
    {
      var uid :| uid in todo;
      var d := requested[uid];
      if d !in remaining {
        digestError := true;
        CheckMisfit(expected, requested, todo, remaining, uid);
        assert ShareKeeperCheckAsWritten(expected, requested) == Raised(KeyError);
        return Raised(KeyError);
      }
      CheckStep(expected, requested, todo, remaining, digestError, uid);
      remaining := remaining - {d};
      todo := todo - {uid};
    }
    CheckDone(expected, requested, remaining, digestError);
    if digestError || |remaining| != 0 {
      return Returned(false);
    }
    return Returned(true);
  }

  /**
   * The check as written agrees with the intended one wherever it returns;
   * it raises exactly where the intended check refuses an unexpected or
   * reused digest.
   */
  lemma ShareKeeperChecksAgree(expected: set<Digest>, requested: map<SkUid, Digest>)
    ensures ShareKeeperCheckAsWritten(expected, requested).Returned? ==>
      ShareKeeperCheckAsWritten(expected, requested).value == ShareKeeperCheck(expected, requested)
    ensures ShareKeeperCheckAsWritten(expected, requested).Raised? <==>
      exists u :: u in requested && (requested[u] !in expected
        || exists v :: v in requested && v != u && requested[v] == requested[u])
    ensures ShareKeeperCheckAsWritten(expected, requested).Raised? ==> !ShareKeeperCheck(expected, requested)
  {
  }

  /** A share keeper whose digest is not configured: the check raises instead of refusing. */
  lemma UnexpectedDigestRaises()
    ensures ShareKeeperCheckAsWritten({"d1"}, map["sk1" := "d2"]) == Raised(KeyError)
    ensures !ShareKeeperCheck({"d1"}, map["sk1" := "d2"])
  {
    assert map["sk1" := "d2"]["sk1"] !in {"d1"};
  }

  /** The digests of distinct share keepers are distinct, so there are as many as share keepers. */
  lemma {:induction false} ImageSize(expected: set<Digest>, requested: map<SkUid, Digest>, uids: set<SkUid>)
    requires FitsExpected(expected, requested, uids)
    ensures |ImageOf(requested, uids)| == |uids|
    decreases |uids|
  {
    if uids != {} {
      var u :| u in uids;
      var rest := uids - {u};
      FitsSubset(expected, requested, rest, uids);
      ImageSize(expected, requested, rest);
      FitsAdd(expected, requested, rest, u);
      assert rest + {u} == uids;
      ImageAdd(requested, rest, u);
    } else {
      assert ImageOf(requested, uids) == {};
    }
  }

  /** A start command that passes the check asks for one share keeper per configured digest. */
  lemma ShareKeeperCount(expected: set<Digest>, requested: map<SkUid, Digest>)
    requires ShareKeeperCheck(expected, requested)
    ensures |requested.Keys| == |expected|
  {
    ImageSize(expected, requested, requested.Keys);
  }

  // ---------------------------------------------------------------- the data collector

  class DataCollector {
    /** The digests of the share keepers this data collector is configured with ('share_keepers'). */
    const configuredShareKeepers: set<Digest>
    var aggregator: Aggregator?
    var isAggregatorPending: bool
    var expectedAggregatorStartTime: Option<real>
    var startConfig: Option<StartCommand>

    /** A pending start has an aggregator to start, and the aggregator keeps its own invariant. */
    ghost predicate Valid()
      reads this, aggregator
    {
      && (isAggregatorPending ==> aggregator != null)
      && (aggregator != null ==> aggregator.Valid())
    }

    /** __init__: no aggregator, nothing pending. */
    constructor (configuredShareKeepers: set<Digest>)
      ensures Valid()
      ensures this.configuredShareKeepers == configuredShareKeepers
      ensures aggregator == null && !isAggregatorPending && expectedAggregatorStartTime.None? && startConfig.None?
    {
      this.configuredShareKeepers := configuredShareKeepers;
      aggregator := null;
      isAggregatorPending := false;
      expectedAggregatorStartTime := None;
      startConfig := None;
    }

    /**
     * do_start: keep the command; refuse it (None) when it names no share
     * keepers, its counters are rejected, an aggregator still exists, or
     * its share keepers are not exactly the configured ones. Otherwise
     * create the aggregator, mark it pending until the defer time has
     * passed, and return one blinding share per share keeper.
     */
    method DoStart(config: StartCommand, now: real) returns (shares: Option<set<SkUid>>)
      requires Valid()
      modifies this`startConfig, this`aggregator, this`isAggregatorPending, this`expectedAggregatorStartTime
      ensures Valid()
      ensures startConfig == Some(config)
      ensures shares.Some? <==>
        && config.shareKeepers.Some? && config.countersAccepted && old(aggregator) == null
        && ShareKeeperCheck(configuredShareKeepers, config.shareKeepers.value)
      ensures shares.None? ==>
        && aggregator == old(aggregator) && isAggregatorPending == old(isAggregatorPending)
        && expectedAggregatorStartTime == old(expectedAggregatorStartTime)
      ensures shares.Some? ==>
        && shares.value == config.shareKeepers.value.Keys && |shares.value| == |configuredShareKeepers|
        && aggregator != null && fresh(aggregator) && isAggregatorPending && !aggregator.collecting
        && aggregator.secureCounters == Some(SecureCounters([], {}))
        && aggregator.hasTrafficModel == config.hasTrafficModel && aggregator.noiseWeightConfig == config.noiseWeight
        && aggregator.noiseWeightValue.None? && aggregator.fingerprint.None?
        && expectedAggregatorStartTime == Some(now + DeferTime(config))
    {
      startConfig := Some(config);
      if config.shareKeepers.None? {
        return None;
      }
      if !config.countersAccepted {
        return None;
      }
      if aggregator != null {
        return None;
      }
      var requested := config.shareKeepers.value;
      var ok := CheckShareKeepers(configuredShareKeepers, requested);
      if !ok {
        return None;
      }
      ShareKeeperCount(configuredShareKeepers, requested);
      var keys := LaunchAggregator(config, requested.Keys, now);
      return Some(keys);
    }

    /**
     * The accepting end of do_start: a new aggregator for the share keepers,
     * pending until the defer time has passed, with its blinding shares
     * detached for the tally server.
     */
    method LaunchAggregator(config: StartCommand, skUids: set<SkUid>, now: real) returns (shares: set<SkUid>)
      modifies this`aggregator, this`isAggregatorPending, this`expectedAggregatorStartTime
      ensures shares == skUids
      ensures aggregator != null && fresh(aggregator) && aggregator.Valid() && isAggregatorPending
      ensures !aggregator.collecting && aggregator.secureCounters == Some(SecureCounters([], {}))
      ensures aggregator.hasTrafficModel == config.hasTrafficModel && aggregator.noiseWeightConfig == config.noiseWeight
      ensures aggregator.noiseWeightValue.None? && aggregator.fingerprint.None?
      ensures expectedAggregatorStartTime == Some(now + DeferTime(config))
    {
      var agg := new Aggregator(config.hasTrafficModel, skUids, config.noiseWeight, now);
      aggregator := agg;
      var deferTime := DeferTime(config);
      expectedAggregatorStartTime := Some(now + deferTime);
      isAggregatorPending := true;
      var detached := agg.GetShares();
      return detached.value;
    }

    /** _start_aggregator_deferred: start the pending aggregator, once. */
    method StartAggregatorDeferred()
      requires Valid()
      modifies this`isAggregatorPending, (if aggregator == null then {} else {aggregator})`collecting
      ensures Valid()
      ensures !isAggregatorPending
      ensures old(isAggregatorPending) ==> aggregator.collecting
      ensures aggregator != null && !old(isAggregatorPending) ==> aggregator.collecting == old(aggregator.collecting)
    {
      if isAggregatorPending {
        isAggregatorPending := false;
        aggregator.Start();
      }
    }

    /**
     * do_stop: a pending aggregator is dropped without counts; a started
     * one is stopped and its counts returned when it has them; afterwards
     * there is no aggregator and no expected start time.
     */
    method DoStop() returns (counts: Option<seq<SinkOp>>)
      requires Valid()
      modifies this`isAggregatorPending, this`aggregator, this`expectedAggregatorStartTime, aggregator
      ensures Valid()
      ensures aggregator == null && !isAggregatorPending && expectedAggregatorStartTime.None?
      ensures old(isAggregatorPending) || old(aggregator) == null ==> counts.None?
      ensures old(aggregator) != null ==> old(aggregator).secureCounters.None? && !old(aggregator).collecting
      ensures !old(isAggregatorPending) && old(aggregator) != null ==>
        (counts.Some? <==>
          && old(aggregator.secureCounters).Some?
          && (old(aggregator.noiseWeightValue).Some? || old(aggregator.fingerprint) in old(aggregator).noiseWeightConfig))
      ensures counts.Some? ==> old(aggregator) != null && counts.value == old(aggregator.secureCounters).value.ops
    {
      counts := None;
      if isAggregatorPending {
        isAggregatorPending := false;
        var _ := aggregator.Stop(false);
        aggregator := null;
      } else if aggregator != null {
        counts := aggregator.Stop(true);
        aggregator := null;
      }
      expectedAggregatorStartTime := None;
    }

    /**
     * do_stop as written: while the start is pending it asserts that there
     * is no aggregator, but do_start always created one before marking the
     * start pending, so the assertion fails; the aggregator stays behind.
     */
    method DoStopAsWritten() returns (r: Outcome<Option<seq<SinkOp>>>)
      requires Valid()
      modifies this`isAggregatorPending, this`aggregator, this`expectedAggregatorStartTime, aggregator
      ensures Valid()
      ensures !isAggregatorPending
      ensures old(isAggregatorPending) ==>
        && r == Raised(AssertionError) && aggregator == old(aggregator) && aggregator != null
        && expectedAggregatorStartTime == old(expectedAggregatorStartTime)
      ensures !old(isAggregatorPending) ==> r.Returned? && aggregator == null && expectedAggregatorStartTime.None?
      ensures !old(isAggregatorPending) && old(aggregator) == null ==> r == Returned(None)
      ensures !old(isAggregatorPending) && old(aggregator) != null ==>
        && old(aggregator).secureCounters.None?
        && (r.value.Some? <==>
          && old(aggregator.secureCounters).Some?
          && (old(aggregator.noiseWeightValue).Some? || old(aggregator.fingerprint) in old(aggregator).noiseWeightConfig))
    {
      var counts := None;
      if isAggregatorPending {
        isAggregatorPending := false;
        if aggregator != null {
          return Raised(AssertionError);
        }
      } else if aggregator != null {
        counts := aggregator.Stop(true);
        aggregator := null;
      }
      expectedAggregatorStartTime := None;
      return Returned(counts);
    }
  }

  // ---------------------------------------------------------------- rounds

  /** The start command of a round with a single share keeper "sk1" whose key digest is "d1". */
  function OneKeeperCommand(noiseWeight: NoiseWeights, deferTime: Option<real>): StartCommand {
    StartCommand(Some(map["sk1" := "d1"]), true, false, noiseWeight, deferTime)
  }

  lemma OneKeeperFits()
    ensures map["sk1" := "d1"].Keys == {"sk1"}
    ensures ShareKeeperCheck({"d1"}, map["sk1" := "d1"])
  {
    var requested := map["sk1" := "d1"];
    assert requested.Keys == {"sk1"};
    assert ImageOf(requested, requested.Keys) == {"d1"};
  }

  /**
   * A round stopped before its defer time has passed, with do_stop as
   * written: the stop fails its assertion, and the next start is refused
   * because the aggregator left behind still exists.
   */
  method StopWhilePendingAsWritten() returns (first: Option<set<SkUid>>, stopped: Outcome<Option<seq<SinkOp>>>,
                                              second: Option<set<SkUid>>)
    ensures first == Some({"sk1"})
    ensures stopped == Raised(AssertionError)
    ensures second.None?
  {
    OneKeeperFits();
    var dc := new DataCollector({"d1"});
    var command := OneKeeperCommand(map[], Some(60.0));
    first := dc.DoStart(command, 0.0);
    stopped := dc.DoStopAsWritten();
    second := dc.DoStart(command, 10.0);
  }

  /** The same round with the corrected do_stop: nothing is counted, and the next start is accepted. */
  method StopWhilePending() returns (first: Option<set<SkUid>>, stopped: Option<seq<SinkOp>>,
                                     second: Option<set<SkUid>>)
    ensures first == Some({"sk1"})
    ensures stopped.None?
    ensures second == Some({"sk1"})
  {
    OneKeeperFits();
    var dc := new DataCollector({"d1"});
    var command := OneKeeperCommand(map[], Some(60.0));
    first := dc.DoStart(command, 0.0);
    stopped := dc.DoStop();
    second := dc.DoStart(command, 10.0);
  }

  /**
   * A relay whose fingerprint has no noise weight opts out: once the
   * fingerprint arrives, its counters are discarded, no later event is
   * counted, and the stop returns no counts.
   */
  method OptOutRound(fp: string, event: seq<Token>) returns (shares: Option<set<SkUid>>, accepted: Outcome<bool>,
                                                             counts: Option<seq<SinkOp>>)
    requires ValidFingerprint(Strip(fp))
    ensures shares == Some({"sk1"})
    ensures accepted == Returned(false)
    ensures counts.None?
  {
    OneKeeperFits();
    var dc := new DataCollector({"d1"});
    shares := dc.DoStart(OneKeeperCommand(map[], None), 0.0);
    dc.StartAggregatorDeferred();
    var late;
    accepted, late := RelayOptsOut(dc.aggregator, fp, event, 1.0);
    counts := dc.DoStop();
  }
}
