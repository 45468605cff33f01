/** The stateless classifiers of the aggregator: port classes, byte ratios, inter-stream gaps. */
module Classifier {
  import opened Types

  // ---------------------------------------------------------------- ports

  predicate IsWebPort(port: int) {
    port == 80 || port == 443
  }

  predicate IsInteractivePort(port: int) {
    port == 22 || port == 194 || port == 994 || 6660 <= port <= 6670
    || port == 6679 || port == 6697 || port == 7000
  }

  predicate IsP2PPort(port: int) {
    port == 1214 || 4661 <= port <= 4666 || 6346 <= port <= 6429
    || port == 6699 || 6881 <= port <= 6999
  }

  /** The class of a port as the ranges above define it. */
  function PortClass(port: int): TrafficClass {
    if IsWebPort(port) then Web
    else if IsInteractivePort(port) then Interactive
    else if IsP2PPort(port) then P2P
    else Other
  }

  /** The three port sets are pairwise disjoint, so PortClass puts each port in exactly the set it belongs to. */
  lemma PortClassesPartition(port: int)
    ensures PortClass(port) == Web <==> IsWebPort(port)
    ensures PortClass(port) == Interactive <==> IsInteractivePort(port)
    ensures PortClass(port) == P2P <==> IsP2PPort(port)
    ensures PortClass(port) == Other <==> !IsWebPort(port) && !IsInteractivePort(port) && !IsP2PPort(port)
  {
  }

  /**
   * _classify_port: builds the list of p2p ports range by range, then tests
   * the web list, the interactive list and the p2p list in that order.
   */
  method ClassifyPort(port: int) returns (c: TrafficClass)
    ensures c == PortClass(port)
    ensures c == Web <==> IsWebPort(port)
    ensures c == Interactive <==> IsInteractivePort(port)
    ensures c == P2P <==> IsP2PPort(port)
  {
    var p2pPorts := [1214];
    for p := 4661 to 4667
      invariant forall x :: x in p2pPorts <==> x == 1214 || 4661 <= x < p
    {
      p2pPorts := p2pPorts + [p];
    }
    for p := 6346 to 6430
      invariant forall x :: x in p2pPorts <==> x == 1214 || 4661 <= x <= 4666 || 6346 <= x < p
    {
      p2pPorts := p2pPorts + [p];
    }
    p2pPorts := p2pPorts + [6699];
    for p := 6881 to 7000
      invariant forall x :: x in p2pPorts <==>
        x == 1214 || 4661 <= x <= 4666 || 6346 <= x <= 6429 || x == 6699 || 6881 <= x < p
    {
      p2pPorts := p2pPorts + [p];
    }

    if port in [80, 443] {
      c := Web;
    } else if port in [22, 194, 994, 6660, 6661, 6662, 6663, 6664, 6665, 6666,
                       6667, 6668, 6669, 6670, 6679, 6697, 7000] {
      c := Interactive;
    } else if port in p2pPorts {
      c := P2P;
    } else {
      c := Other;
    }
  }

  // ---------------------------------------------------------------- ratios

  /** sys.float_info.max_exp and min_exp of an IEEE double. */
  const MaxExp: int := 1024
  const MinExp: int := -1021

  /** The sign of a ratio bin: positive when more went out than came in. */
  function Sign(r: Ratio): int {
    match r
    case Exact(v) => if v > 0 then 1 else if v < 0 then -1 else 0
    case Log2(q) => if q > 1.0 then 1 else if q < 1.0 then -1 else 0
  }

  /**
   * _encode_ratio(inval, outval): 0 when both are zero, the max_exp sentinel
   * when only inval is zero, the min_exp sentinel when only outval is zero,
   * otherwise log2(outval / inval). None where math.log raises ValueError
   * (a non-positive quotient, when the two values have opposite signs).
   */
  function EncodeRatio(inval: int, outval: int): (r: Option<Ratio>)
    ensures r == Some(Exact(0)) <==> inval == 0 && outval == 0
    ensures r == Some(Exact(MaxExp)) <==> inval == 0 && outval != 0
    ensures r == Some(Exact(MinExp)) <==> inval != 0 && outval == 0
    ensures r.None? <==> (inval < 0 < outval || outval < 0 < inval)
    ensures r.Some? && r.value.Log2? ==> r.value.quotient > 0.0 && r.value.quotient * (inval as real) == outval as real
    ensures inval >= 0 && outval >= 0 ==> r.Some? && (Sign(r.value) > 0 <==> outval > inval) && (Sign(r.value) < 0 <==> outval < inval)
  {
    if inval == 0 && outval == 0 then Some(Exact(0))
    else if inval == 0 then Some(Exact(MaxExp))
    else if outval == 0 then Some(Exact(MinExp))
    else
      var q := (outval as real) / (inval as real);
      QuotientSign(inval, outval);
      if q > 0.0 then Some(Log2(q)) else None
  }

  /** How the quotient outval / inval compares with 0 and 1. */
  lemma QuotientSign(inval: int, outval: int)
    requires inval != 0 && outval != 0
    ensures var q := (outval as real) / (inval as real);
      && q * (inval as real) == outval as real
      && (q > 0.0 <==> (inval > 0) == (outval > 0))
      && (inval > 0 && outval > 0 ==> (q > 1.0 <==> outval > inval) && (q < 1.0 <==> outval < inval))
  {
    var q := (outval as real) / (inval as real);
    var i, o := inval as real, outval as real;
    assert q * i == o;
    if i > 0.0 {
      assert q > 0.0 <==> o > 0.0;
      assert o - i == (q - 1.0) * i;
      if q > 1.0 {
        ProductPositive(q - 1.0, i);
      } else if q < 1.0 {
        ProductPositive(1.0 - q, i);
      }
    } else {
      assert q > 0.0 <==> o < 0.0;
    }
  }

  lemma ProductPositive(a: real, b: real)
    requires a > 0.0 && b > 0.0
    ensures a * b > 0.0
  {
  }

  /** Swapping the two directions inverts the quotient, so the logarithm changes sign. */
  lemma EncodeRatioSwap(a: int, b: int)
    requires a > 0 && b > 0
    ensures EncodeRatio(a, b).Some? && EncodeRatio(b, a).Some?
    ensures EncodeRatio(a, b).value.Log2? && EncodeRatio(b, a).value.Log2?
    ensures EncodeRatio(a, b).value.quotient * EncodeRatio(b, a).value.quotient == 1.0
    ensures Sign(EncodeRatio(a, b).value) == -Sign(EncodeRatio(b, a).value)
  {
    var q := EncodeRatio(a, b).value.quotient;
    var q' := EncodeRatio(b, a).value.quotient;
    var ra, rb := a as real, b as real;
    assert q * ra == rb;
    assert q' * rb == ra;
    assert (q * q') * ra == q' * (q * ra) == q' * rb == ra;
    assert q * q' == 1.0;
  }

  // ---------------------------------------------------------------- start-time gaps

  predicate Ascending(s: seq<real>) {
    forall i, j :: 0 <= i < j < |s| ==> s[i] <= s[j]
  }

  /** Inserts x before the first element not below it. */
  function InsertTime(x: real, s: seq<real>): seq<real>
  {
    if s == [] || x <= s[0] then [x] + s else [s[0]] + InsertTime(x, s[1..])
  }

  lemma {:induction false} InsertTimePermutes(x: real, s: seq<real>)
    ensures multiset(InsertTime(x, s)) == multiset(s) + multiset{x}
  {
    if s == [] || x <= s[0] {
    } else {
      assert s == [s[0]] + s[1..];
      InsertTimePermutes(x, s[1..]);
    }
  }

  lemma {:induction false} InsertTimeAscending(x: real, s: seq<real>)
    requires Ascending(s)
    ensures Ascending(InsertTime(x, s))
  {
    if s == [] || x <= s[0] {
    } else {
      InsertTimeAscending(x, s[1..]);
      InsertTimePermutes(x, s[1..]);
      var t := InsertTime(x, s[1..]);
      forall k | 0 <= k < |t| ensures s[0] <= t[k] {
        assert t[k] in multiset(t);
        if t[k] != x {
          assert t[k] in multiset(s[1..]);
          var j :| 0 <= j < |s[1..]| && s[1..][j] == t[k];
          assert s[j + 1] == t[k];
        }
      }
    }
  }

  /** The ascending order Python's list.sort() gives a list of floats. */
  function SortTimes(s: seq<real>): seq<real>
  {
    if s == [] then [] else InsertTime(s[0], SortTimes(s[1..]))
  }

  /** SortTimes returns its input in ascending order. */
  lemma {:induction false} SortTimesSorts(s: seq<real>)
    ensures Ascending(SortTimes(s))
    ensures multiset(SortTimes(s)) == multiset(s)
    ensures |SortTimes(s)| == |s|
  {
    if s != [] {
      assert s == [s[0]] + s[1..];
      SortTimesSorts(s[1..]);
      InsertTimePermutes(s[0], SortTimes(s[1..]));
      InsertTimeAscending(s[0], SortTimes(s[1..]));
    }
  }

  /** The differences between consecutive elements. */
  function Gaps(s: seq<real>): (r: seq<real>)
    ensures |r| == if |s| <= 1 then 0 else |s| - 1
    ensures forall i :: 0 <= i < |r| ==> r[i] == s[i + 1] - s[i]
  {
    if |s| <= 1 then [] else [s[1] - s[0]] + Gaps(s[1..])
  }

  /** A sequence with the length and the elements of Gaps(s) is Gaps(s). */
  lemma GapsAt(s: seq<real>, g: seq<real>)
    requires |g| == if |s| <= 1 then 0 else |s| - 1
    requires forall k :: 0 <= k < |g| ==> g[k] == s[k + 1] - s[k]
    ensures g == Gaps(s)
  {
    var r := Gaps(s);
    assert |g| == |r|;
    forall k | 0 <= k < |g| ensures g[k] == r[k] {
      assert g[k] == s[k + 1] - s[k];
      assert r[k] == s[k + 1] - s[k];
    }
  }

  /** The gaps between sorted start times: one fewer than the times, none negative. */
  lemma SortedGaps(startTimes: seq<real>)
    ensures |Gaps(SortTimes(startTimes))| == if |startTimes| <= 1 then 0 else |startTimes| - 1
    ensures forall i :: 0 <= i < |Gaps(SortTimes(startTimes))| ==> Gaps(SortTimes(startTimes))[i] >= 0.0
  {
    var sorted := SortTimes(startTimes);
    SortTimesSorts(startTimes);
    forall k | 0 <= k < |Gaps(sorted)| ensures Gaps(sorted)[k] >= 0.0 {
      assert sorted[k] <= sorted[k + 1];
    }
  }

  /**
   * _compute_interstream_creation_times: sorts the start times, then appends
   * the difference of each adjacent pair in a loop.
   */
  method InterStreamCreationTimes(startTimes: seq<real>) returns (iscTimes: seq<real>)
    ensures |iscTimes| == if |startTimes| <= 1 then 0 else |startTimes| - 1
    ensures forall i :: 0 <= i < |iscTimes| ==> iscTimes[i] >= 0.0
    ensures iscTimes == Gaps(SortTimes(startTimes))
  {
    var sorted := SortTimes(startTimes);
    iscTimes := [];
    var i := 0;
    while i < |sorted|
      invariant 0 <= i <= |sorted|
      invariant |iscTimes| == if i <= 1 then 0 else i - 1
      invariant forall k :: 0 <= k < |iscTimes| ==> iscTimes[k] == sorted[k + 1] - sorted[k]
    {
      if i > 0 {
        iscTimes := iscTimes + [sorted[i] - sorted[i - 1]];
      }
      i := i + 1;
    }
    GapsAt(sorted, iscTimes);
    SortedGaps(startTimes);
  }
}
