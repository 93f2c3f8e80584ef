/**
 * The owner dashboard rollup of `supply_analytics` (api/app.py:1561-1662,
 * lambda/main.py:1516-1600): counters over the orders and offerings fetched
 * for one supply owner. Which documents the two queries return (their
 * owner filter, their limits of 200 and 100, their order) is outside the
 * model: the rollup takes the fetched sequences as they come.
 */
module Analytics {
  import opened Documents
  import Orders

  datatype Metrics = Metrics(
    totalOrders: nat,
    pendingOrders: nat,
    collectedOrders: nat,
    refundedOrders: nat,
    totalFeesCents: int,
    uniqueStudents: nat,
    activeOfferings: nat,
    upcomingOfferings: nat)

  /** An order still waiting for pickup: status pending (or absent) or reserved. */
  predicate IsPendingOrder(o: Order) {
    OrderStatus(o) == "pending" || OrderStatus(o) == "reserved"
  }

  /** An order already picked up: status collected or completed. */
  predicate IsCollectedOrder(o: Order) {
    Orders.IsCollected(OrderStatus(o))
  }

  /** A collected order whose launch fee is refundable. */
  predicate IsRefundedOrder(o: Order) {
    o.feeRefundEligible && IsCollectedOrder(o)
  }

  /** An offering the upcoming counter takes: one whose availability time lies after `now`. */
  predicate IsUpcoming(f: Offering, now: int) {
    f.availableAt.Some? && f.availableAt.value > now
  }

  function CountPending(os: seq<Order>): (n: nat) {
    if os == [] then 0 else CountPending(os[..|os| - 1]) + (if IsPendingOrder(os[|os| - 1]) then 1 else 0)
  }

  function CountCollected(os: seq<Order>): (n: nat) {
    if os == [] then 0 else CountCollected(os[..|os| - 1]) + (if IsCollectedOrder(os[|os| - 1]) then 1 else 0)
  }

  function CountRefunded(os: seq<Order>): (n: nat) {
    if os == [] then 0 else CountRefunded(os[..|os| - 1]) + (if IsRefundedOrder(os[|os| - 1]) then 1 else 0)
  }

  /** The fee total: every order's fee, whatever its status. */
  function SumFees(os: seq<Order>): (total: int) {
    if os == [] then 0 else SumFees(os[..|os| - 1]) + os[|os| - 1].feeCents
  }

  /** The students that placed the orders: every non-blank uid. */
  function Students(os: seq<Order>): (uids: set<string>) {
    if os == [] then {} else Students(os[..|os| - 1]) + (if os[|os| - 1].uid != "" then {os[|os| - 1].uid} else {})
  }

  function CountActive(fs: seq<Offering>): (n: nat) {
    if fs == [] then 0 else CountActive(fs[..|fs| - 1]) + (if IsOpenForOrders(OfferingStatus(fs[|fs| - 1])) then 1 else 0)
  }

  function CountUpcoming(fs: seq<Offering>, now: int): (n: nat) {
    if fs == [] then 0 else CountUpcoming(fs[..|fs| - 1], now) + (if IsUpcoming(fs[|fs| - 1], now) then 1 else 0)
  }

  /** The metrics the dashboard reports for the fetched orders and offerings. */
  function Summary(os: seq<Order>, fs: seq<Offering>, now: int): (m: Metrics) {
    Metrics(|os|, CountPending(os), CountCollected(os), CountRefunded(os), SumFees(os), |Students(os)|,
            CountActive(fs), CountUpcoming(fs, now))
  }

  /** The two loops of `supply_analytics`: one pass over the orders, one over the offerings. */
  method Rollup(os: seq<Order>, fs: seq<Offering>, now: int) returns (m: Metrics)
    ensures m == Summary(os, fs, now)
  {
    var total, pending, collected, refunded, fees, students := TallyOrders(os);
    var active, upcoming := TallyOfferings(fs, now);
    m := Metrics(total, pending, collected, refunded, fees, |students|, active, upcoming);
  }

  /** The loop over the fetched orders: four counters, the fee total and the set of students. */
  method TallyOrders(os: seq<Order>)
    returns (total: nat, pending: nat, collected: nat, refunded: nat, fees: int, students: set<string>)
    ensures total == |os| && pending == CountPending(os) && collected == CountCollected(os)
    ensures refunded == CountRefunded(os) && fees == SumFees(os) && students == Students(os)
  {
    total, pending, collected, refunded, fees, students := 0, 0, 0, 0, 0, {};
    var i := 0;
    while i < |os|
      invariant 0 <= i <= |os|
      invariant total == i
      invariant pending == CountPending(os[..i]) && collected == CountCollected(os[..i])
      invariant refunded == CountRefunded(os[..i]) && fees == SumFees(os[..i])
      invariant students == Students(os[..i])
    {
      assert os[..i + 1][..i] == os[..i];
      var o := os[i];
      total := total + 1;
      if IsPendingOrder(o) {
        pending := pending + 1;
      }
      if IsCollectedOrder(o) {
        collected := collected + 1;
      }
      if o.feeRefundEligible && IsCollectedOrder(o) {
        refunded := refunded + 1;
      }
      fees := fees + o.feeCents;
      if o.uid != "" {
        students := students + {o.uid};
      }
      i := i + 1;
    }
    assert os[..i] == os;
  }

  /** The loop over the fetched offerings: the active and the upcoming counters. */
  method TallyOfferings(fs: seq<Offering>, now: int) returns (active: nat, upcoming: nat)
    ensures active == CountActive(fs) && upcoming == CountUpcoming(fs, now)
  {
    active, upcoming := 0, 0;
    var j := 0;
    while j < |fs|
      invariant 0 <= j <= |fs|
      invariant active == CountActive(fs[..j]) && upcoming == CountUpcoming(fs[..j], now)
    {
      assert fs[..j + 1][..j] == fs[..j];
      if IsOpenForOrders(OfferingStatus(fs[j])) {
        active := active + 1;
      }
      if IsUpcoming(fs[j], now) {
        upcoming := upcoming + 1;
      }
      j := j + 1;
    }
    assert fs[..j] == fs;
  }

  /** `supply_analytics`: 400 for a blank owner uid, otherwise the metrics of the fetched documents. */
  method SupplyAnalytics(uid: string, os: seq<Order>, fs: seq<Offering>, now: int) returns (reply: Reply<Metrics>)
    ensures uid == "" ==> reply == Err(400, UidRequired)
    ensures uid != "" ==> reply == Ok(200, Summary(os, fs, now))
  {
    if uid == "" {
      return Err(400, UidRequired);
    }
    var m := Rollup(os, fs, now);
    reply := Ok(200, m);
  }

  // ---------------------------------------------------------------------
  // Properties

  /** No order is both pending and collected, so the two counters never exceed the total. */
  lemma {:induction false} PendingPlusCollectedBounded(os: seq<Order>)
    ensures CountPending(os) + CountCollected(os) <= |os|
  {
    if os != [] {
      PendingPlusCollectedBounded(os[..|os| - 1]);
      var o := os[|os| - 1];
      assert !(IsPendingOrder(o) && IsCollectedOrder(o));
    }
  }

  /** Only collected orders are counted as refunded. */
  lemma {:induction false} RefundedWithinCollected(os: seq<Order>)
    ensures CountRefunded(os) <= CountCollected(os)
  {
    if os != [] {
      RefundedWithinCollected(os[..|os| - 1]);
    }
  }

  /** Each order adds at most one student. */
  lemma {:induction false} StudentsWithinOrders(os: seq<Order>)
    ensures |Students(os)| <= |os|
  {
    if os != [] {
      var init := os[..|os| - 1];
      StudentsWithinOrders(init);
      var extra: set<string> := if os[|os| - 1].uid != "" then {os[|os| - 1].uid} else {};
      assert |Students(init) + extra| <= |Students(init)| + |extra|;
    }
  }

  /** The fee total adds up over any split of the orders. */
  lemma {:induction false} SumFeesAppend(a: seq<Order>, b: seq<Order>)
    ensures SumFees(a + b) == SumFees(a) + SumFees(b)
  {
    if b == [] {
      assert a + b == a;
    } else {
      assert (a + b)[..|a + b| - 1] == a + b[..|b| - 1];
      SumFeesAppend(a, b[..|b| - 1]);
    }
  }

  /** A cancelled order's fee is still in the total: appending one raises the total by its fee. */
  lemma FeesIncludeCancelled(os: seq<Order>, o: Order)
    requires OrderStatus(o) == "cancelled"
    ensures SumFees(os + [o]) == SumFees(os) + o.feeCents
    ensures CountPending(os + [o]) == CountPending(os) && CountCollected(os + [o]) == CountCollected(os)
  {
    assert (os + [o])[..|os + [o]| - 1] == os;
  }

  /** The positions of the offerings open for orders. */
  function OpenPositions(fs: seq<Offering>): (ps: set<int>)
    ensures forall i :: i in ps <==> 0 <= i < |fs| && IsOpenForOrders(OfferingStatus(fs[i]))
  {
    set i | 0 <= i < |fs| && IsOpenForOrders(OfferingStatus(fs[i]))
  }

  /** Counting the open offerings one by one gives the number of open positions. */
  lemma {:induction false} ActiveCountIsOpenPositions(fs: seq<Offering>)
    ensures CountActive(fs) == |OpenPositions(fs)|
  {
    if fs != [] {
      var init := fs[..|fs| - 1];
      var last := |fs| - 1;
      ActiveCountIsOpenPositions(init);
      var extra := if IsOpenForOrders(OfferingStatus(fs[last])) then {last} else {};
      assert OpenPositions(fs) == OpenPositions(init) + extra;
      assert last !in OpenPositions(init);
    }
  }

  /** The active counter counts exactly the offerings open for orders. */
  lemma {:induction false} ActiveCountsOpenOfferings(fs: seq<Offering>)
    ensures CountActive(fs) <= |fs|
    ensures CountActive(fs) == |fs| <==> forall i :: 0 <= i < |fs| ==> IsOpenForOrders(OfferingStatus(fs[i]))
    ensures CountActive(fs) == 0 <==> forall i :: 0 <= i < |fs| ==> !IsOpenForOrders(OfferingStatus(fs[i]))
    ensures CountActive(fs) == |set i | 0 <= i < |fs| && IsOpenForOrders(OfferingStatus(fs[i]))|
  {
    ActiveCountIsOpenPositions(fs);
    if fs != [] {
      var init := fs[..|fs| - 1];
      ActiveCountsOpenOfferings(init);
      assert forall i :: 0 <= i < |init| ==> init[i] == fs[i];
    }
  }

  /** The dashboard's order counters respect each other. */
  lemma SummaryBounds(os: seq<Order>, fs: seq<Offering>, now: int)
    ensures var m := Summary(os, fs, now);
      && m.pendingOrders + m.collectedOrders <= m.totalOrders
      && m.refundedOrders <= m.collectedOrders
      && m.uniqueStudents <= m.totalOrders
      && m.activeOfferings <= |fs|
  {
    PendingPlusCollectedBounded(os);
    RefundedWithinCollected(os);
    StudentsWithinOrders(os);
    ActiveCountsOpenOfferings(fs);
  }
}
