/**
 * The two rotating client windows, cli_ips_current and cli_ips_previous, and
 * what a rotation reports about the window it evicts.
 */
module ClientWindow {
  import opened Types

  /**
   * One client address's entry: 'is_active', 'num_active_completed' and
   * 'num_inactive_completed'. A count the source has not yet set reads as 0
   * (both setdefault(…, 0) and get(…, 0) treat it so), so it is stored as 0.
   */
  datatype ClientRecord = ClientRecord(isActive: bool, numActiveCompleted: nat, numInactiveCompleted: nat)

  /** The entry setdefault creates: {'is_active': False}. */
  const NewClient := ClientRecord(false, 0, 0)

  type ClientMap = map<string, ClientRecord>

  function ClientOf(m: ClientMap, ip: string): ClientRecord {
    if ip in m then m[ip] else NewClient
  }

  /** setdefault(ip, {'is_active': False}), then is_active := True when the circuit was active. */
  function MarkSeen(m: ClientMap, ip: string, active: bool): (r: ClientMap)
    ensures r.Keys == m.Keys + {ip}
    ensures r[ip].isActive == (ClientOf(m, ip).isActive || active)
    ensures r[ip].numActiveCompleted == ClientOf(m, ip).numActiveCompleted
    ensures r[ip].numInactiveCompleted == ClientOf(m, ip).numInactiveCompleted
    ensures forall other :: other in m && other != ip ==> r[other] == m[other]
    ensures forall x :: x in m && m[x].isActive ==> r[x].isActive
  {
    var c := ClientOf(m, ip);
    m[ip := c.(isActive := c.isActive || active)]
  }

  /**
   * The entry-circuit update of cli_ips_current: mark the client seen, then
   * add one to its active or its inactive completed-circuit count.
   */
  function RecordCurrent(m: ClientMap, ip: string, active: bool): (r: ClientMap)
    ensures r.Keys == m.Keys + {ip}
    ensures r[ip].isActive == (ClientOf(m, ip).isActive || active)
    ensures ClientOf(m, ip).isActive ==> r[ip].isActive
    ensures r[ip].numActiveCompleted == ClientOf(m, ip).numActiveCompleted + (if active then 1 else 0)
    ensures r[ip].numInactiveCompleted == ClientOf(m, ip).numInactiveCompleted + (if active then 0 else 1)
    ensures forall other :: other in m && other != ip ==> r[other] == m[other]
    ensures forall x :: x in m && m[x].isActive ==> r[x].isActive
  {
    var seen := MarkSeen(m, ip, active);
    var c := seen[ip];
    if active then seen[ip := c.(numActiveCompleted := c.numActiveCompleted + 1)]
    else seen[ip := c.(numInactiveCompleted := c.numInactiveCompleted + 1)]
  }

  /** The clients of a window that had an active circuit, and those that did not. */
  function ActiveClients(w: ClientMap): set<string> {
    set ip | ip in w && w[ip].isActive
  }

  function InactiveClients(w: ClientMap): set<string> {
    set ip | ip in w && !w[ip].isActive
  }

  /** Every client of a window is either active or inactive, never both. */
  lemma ClientsPartition(w: ClientMap)
    ensures |ActiveClients(w)| + |InactiveClients(w)| == |w|
  {
    var a, i := ActiveClients(w), InactiveClients(w);
    assert a + i == w.Keys;
    assert a * i == {};
    assert |a + i| == |a| + |i|;
  }

  /** `order` lists each key once: the order a loop over the dict visits them in. */
  ghost predicate IsEnumeration(order: seq<string>, keys: set<string>) {
    && (forall i, j :: 0 <= i < j < |order| ==> order[i] != order[j])
    && (forall ip :: ip in order <==> ip in keys)
  }

  lemma {:induction false} EnumerationLength(order: seq<string>, keys: set<string>)
    requires IsEnumeration(order, keys)
    ensures |order| == |keys|
  {
    if order != [] {
      var rest := keys - {order[0]};
      forall ip ensures ip in order[1..] <==> ip in rest {
        if ip in order[1..] {
          var j :| 0 <= j < |order[1..]| && order[1..][j] == ip;
          assert order[j + 1] == ip;
        }
        if ip in rest {
          var j :| 0 <= j < |order| && order[j] == ip;
          assert j != 0;
          assert order[1..][j - 1] == ip;
        }
      }
      EnumerationLength(order[1..], rest);
    } else {
      assert keys == {};
    }
  }

  /** The per-client increments of a rotation, in the order the clients are visited. */
  function ClientIncrements(w: ClientMap, order: seq<string>): seq<SinkOp>
    requires forall ip :: ip in order ==> ip in w
  {
    if order == [] then []
    else
      var c := w[order[0]];
      [Increment(EntryClientIPActiveCircuitCount, IntBin(c.numActiveCompleted), 1),
       Increment(EntryClientIPInactiveCircuitCount, IntBin(c.numInactiveCompleted), 1)]
      + ClientIncrements(w, order[1..])
  }

  lemma {:induction false} ClientIncrementsAppend(w: ClientMap, order: seq<string>, ip: string)
    requires forall x :: x in order ==> x in w
    requires ip in w
    ensures ClientIncrements(w, order + [ip]) == ClientIncrements(w, order)
      + [Increment(EntryClientIPActiveCircuitCount, IntBin(w[ip].numActiveCompleted), 1),
         Increment(EntryClientIPInactiveCircuitCount, IntBin(w[ip].numInactiveCompleted), 1)]
  {
    if order == [] {
      assert order + [ip] == [ip];
    } else {
      assert (order + [ip])[1..] == order[1..] + [ip];
      ClientIncrementsAppend(w, order[1..], ip);
    }
  }

  /** Two increments per client, none of them to the totals' counters. */
  lemma {:induction false} ClientIncrementsShape(w: ClientMap, order: seq<string>, counter: Counter)
    requires forall ip :: ip in order ==> ip in w
    requires counter != EntryClientIPActiveCircuitCount && counter != EntryClientIPInactiveCircuitCount
    ensures |ClientIncrements(w, order)| == 2 * |order|
    ensures Tally(ClientIncrements(w, order), counter) == 0
  {
    if order != [] {
      ClientIncrementsShape(w, order[1..], counter);
      var c := w[order[0]];
      var head := [Increment(EntryClientIPActiveCircuitCount, IntBin(c.numActiveCompleted), 1),
                   Increment(EntryClientIPInactiveCircuitCount, IntBin(c.numInactiveCompleted), 1)];
      TallyAppend(head, ClientIncrements(w, order[1..]), counter);
    }
  }

  /**
   * The three totals a rotation ends with: all, active and inactive unique
   * clients of the evicted window.
   */
  function WindowTotals(w: ClientMap): (r: seq<SinkOp>)
    ensures |r| == 3
    ensures r[0] == Increment(EntryClientIPCount, SingleBin, |w|)
    ensures r[1].Increment? && r[2].Increment? && r[1].inc + r[2].inc == |w|
  {
    ClientsPartition(w);
    [Increment(EntryClientIPCount, SingleBin, |ActiveClients(w)| + |InactiveClients(w)|),
     Increment(EntryActiveClientIPCount, SingleBin, |ActiveClients(w)|),
     Increment(EntryInactiveClientIPCount, SingleBin, |InactiveClients(w)|)]
  }

  lemma TallyTotals(w: ClientMap)
    ensures Tally(WindowTotals(w), EntryClientIPCount) == |w|
    ensures Tally(WindowTotals(w), EntryActiveClientIPCount) + Tally(WindowTotals(w), EntryInactiveClientIPCount) == |w|
  {
    var t := WindowTotals(w);
    assert t == [t[0], t[1], t[2]];
    TallyThree(t[0], t[1], t[2], EntryClientIPCount);
    TallyThree(t[0], t[1], t[2], EntryActiveClientIPCount);
    TallyThree(t[0], t[1], t[2], EntryInactiveClientIPCount);
  }

  /** Everything a rotation sends to the counters when it visits the evicted window in `order`. */
  function RotationIncrements(w: ClientMap, order: seq<string>): seq<SinkOp>
    requires forall ip :: ip in order ==> ip in w
  {
    ClientIncrements(w, order) + WindowTotals(w)
  }

  /**
   * Whatever order the loop visits the evicted window in, EntryClientIPCount
   * grows by the number of its clients, which is the active plus the inactive
   * count, and there are two per-client increments for each of them.
   */
  lemma RotationCounts(w: ClientMap, order: seq<string>)
    requires IsEnumeration(order, w.Keys)
    ensures Tally(RotationIncrements(w, order), EntryClientIPCount) == |w|
    ensures Tally(RotationIncrements(w, order), EntryActiveClientIPCount)
          + Tally(RotationIncrements(w, order), EntryInactiveClientIPCount) == |w|
    ensures |RotationIncrements(w, order)| == 2 * |w| + 3
  {
    EnumerationLength(order, w.Keys);
    var t := WindowTotals(w);
    TallyAppend(ClientIncrements(w, order), t, EntryClientIPCount);
    TallyAppend(ClientIncrements(w, order), t, EntryActiveClientIPCount);
    TallyAppend(ClientIncrements(w, order), t, EntryInactiveClientIPCount);
    ClientIncrementsShape(w, order, EntryClientIPCount);
    ClientIncrementsShape(w, order, EntryActiveClientIPCount);
    ClientIncrementsShape(w, order, EntryInactiveClientIPCount);
    TallyTotals(w);
  }

  /** After a rotation, EntryClientIPCount holds what it held before plus the size of the evicted window. */
  lemma RotationTally(before: seq<SinkOp>, w: ClientMap, order: seq<string>)
    requires IsEnumeration(order, w.Keys)
    ensures Tally(before + RotationIncrements(w, order), EntryClientIPCount) == Tally(before, EntryClientIPCount) + |w|
  {
    RotationCounts(w, order);
    TallyAppend(before, RotationIncrements(w, order), EntryClientIPCount);
  }

  /** How many of the clients outside `remaining` are active, and how many inactive. */
  ghost predicate VisitedCounts(w: ClientMap, remaining: set<string>, active: int, inactive: int) {
    active == |ActiveClients(w) - remaining| && inactive == |InactiveClients(w) - remaining|
  }

  /** Visiting one more client moves it into exactly one of the two visited counts. */
  lemma VisitOne(w: ClientMap, remaining: set<string>, ip: string, active: int, inactive: int)
    requires ip in remaining && remaining <= w.Keys
    requires VisitedCounts(w, remaining, active, inactive)
    ensures VisitedCounts(w, remaining - {ip}, active + (if w[ip].isActive then 1 else 0),
                          inactive + (if w[ip].isActive then 0 else 1))
  {
    var a, i := ActiveClients(w), InactiveClients(w);
    if w[ip].isActive {
      assert a - (remaining - {ip}) == (a - remaining) + {ip};
      assert i - (remaining - {ip}) == i - remaining;
    } else {
      assert i - (remaining - {ip}) == (i - remaining) + {ip};
      assert a - (remaining - {ip}) == a - remaining;
    }
  }

  /** `order` lists, each once, exactly the clients of `w` outside `remaining`. */
  ghost predicate VisitedInOrder(w: ClientMap, remaining: set<string>, order: seq<string>) {
    && remaining <= w.Keys
    && IsEnumeration(order, w.Keys - remaining)
  }

  lemma VisitNext(w: ClientMap, remaining: set<string>, order: seq<string>, ip: string)
    requires VisitedInOrder(w, remaining, order) && ip in remaining
    ensures VisitedInOrder(w, remaining - {ip}, order + [ip])
  {
    assert ip !in order;
  }

  /** What the loop of TallyWindow keeps: it has visited, in `order`, exactly the clients outside `remaining`. */
  ghost predicate TallyProgress(w: ClientMap, remaining: set<string>, order: seq<string>,
                                active: int, inactive: int, incs: seq<SinkOp>) {
    && VisitedInOrder(w, remaining, order)
    && incs == ClientIncrements(w, order)
    && VisitedCounts(w, remaining, active, inactive)
  }

  lemma TallyStep(w: ClientMap, remaining: set<string>, order: seq<string>,
                  active: int, inactive: int, incs: seq<SinkOp>, ip: string)
    requires TallyProgress(w, remaining, order, active, inactive, incs) && ip in remaining
    ensures TallyProgress(w, remaining - {ip}, order + [ip],
                          active + (if w[ip].isActive then 1 else 0),
                          inactive + (if w[ip].isActive then 0 else 1),
                          incs + [Increment(EntryClientIPActiveCircuitCount, IntBin(w[ip].numActiveCompleted), 1),
                                  Increment(EntryClientIPInactiveCircuitCount, IntBin(w[ip].numInactiveCompleted), 1)])
  {
    VisitOne(w, remaining, ip, active, inactive);
    VisitNext(w, remaining, order, ip);
    ClientIncrementsAppend(w, order, ip);
  }

  lemma TallyStart(w: ClientMap)
    ensures TallyProgress(w, w.Keys, [], 0, 0, [])
  {
    assert ActiveClients(w) - w.Keys == {} && InactiveClients(w) - w.Keys == {};
  }

  lemma TallyDone(w: ClientMap, order: seq<string>, active: int, inactive: int, incs: seq<SinkOp>)
    requires TallyProgress(w, {}, order, active, inactive, incs)
    ensures IsEnumeration(order, w.Keys)
    ensures incs == ClientIncrements(w, order)
    ensures active == |ActiveClients(w)| && inactive == |InactiveClients(w)|
  {
    assert ActiveClients(w) - {} == ActiveClients(w) && InactiveClients(w) - {} == InactiveClients(w);
    assert w.Keys - {} == w.Keys;
  }

  /**
   * The loop of _do_rotate over cli_ips_previous: counts the active and the
   * inactive clients and makes each client's two per-client increments, in
   * whatever order the dict yields its keys.
   */
  method TallyWindow(w: ClientMap) returns (active: nat, inactive: nat, incs: seq<SinkOp>, ghost order: seq<string>)
    ensures IsEnumeration(order, w.Keys)
    ensures incs == ClientIncrements(w, order)
    ensures active == |ActiveClients(w)| && inactive == |InactiveClients(w)|
  {
    active, inactive, incs, order := 0, 0, [], [];
    var remaining := w.Keys;
    TallyStart(w);
    while remaining != {}
      invariant TallyProgress(w, remaining, order, active, inactive, incs)
      decreases remaining
    {
      var ip :| ip in remaining;
      var client := w[ip];
      TallyStep(w, remaining, order, active, inactive, incs, ip);
      if client.isActive {
        active := active + 1;
      } else {
        inactive := inactive + 1;
      }
      incs := incs + [Increment(EntryClientIPActiveCircuitCount, IntBin(client.numActiveCompleted), 1),
                      Increment(EntryClientIPInactiveCircuitCount, IntBin(client.numInactiveCompleted), 1)];
      order := order + [ip];
      remaining := remaining - {ip};
    }
    TallyDone(w, order, active, inactive, incs);
  }
}
