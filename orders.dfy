/**
 * The inventory ledger and the order state machine: what `create_order`,
 * `cancel_order`, `validate_order_qr`, `publish_offering_from_future` and
 * `update_supply_offering` do to `offerings`, `futureOfferings`, `orders` and
 * the QR-token index. Every handler is split into its request parsing
 * (stripping ids, the 400s for blank ones) and the store step that follows.
 */
module Orders {
  import opened Text
  import opened Documents

  // ---------------------------------------------------------------------
  // create_order

  /**
   * The owner a new order records: `ownerUid`, else the older `owner`, else
   * `owner_id`; "" when the offering carries none of them.
   */
  function OrderOwner(f: Offering): (owner: string)
    ensures owner == f.ownerUid || owner == f.owner || owner == f.ownerId
    ensures owner == "" <==> f.ownerUid == "" && f.owner == "" && f.ownerId == ""
    ensures f.ownerUid != "" ==> owner == f.ownerUid
    ensures f.ownerUid == "" && f.owner != "" ==> owner == f.owner
  {
    if f.ownerUid != "" then f.ownerUid else if f.owner != "" then f.owner else f.ownerId
  }

  /** `create_order` (api/app.py:863-972, lambda/main.py:692-790), with the fresh order id and QR token passed in. */
  function CreateOrder(st: Db, uid: string, offeringId: string, orderId: string, qrToken: string): (r: Step<Order>)
    ensures r.reply.Err? ==> r.db == st
  {
    var u := Strip(uid);
    var oid := Strip(offeringId);
    if u == "" || oid == "" then Step(st, Err(400, IdsRequired))
    else PlaceOrder(st, u, oid, orderId, qrToken)
  }

  /**
   * The `create_order_txn` transaction: every refusal (a `ValueError`) is a
   * 400 with no write; otherwise one unit leaves the offering, which is
   * flagged sold out when none is left, and a pending order is stored.
   */
  function PlaceOrder(st: Db, uid: string, offeringId: string, orderId: string, qrToken: string): (r: Step<Order>)
    ensures r.reply.Err? ==> r.db == st
  {
    if uid !in st.users then Step(st, Err(400, UserNotFound))
    else if offeringId !in st.offerings then Step(st, Err(400, OfferingNotFound))
    else
      var f := st.offerings[offeringId];
      if !IsOpenForOrders(OfferingStatus(f)) then Step(st, Err(400, OfferingNotAvailable))
      else if f.availableQuantity <= 0 then Step(st, Err(400, SoldOut))
      else
        var order := Order(orderId, uid, offeringId, f.title, OrderOwner(f), "pending", f.feeCents, f.launchFeeRefund,
                           st.users[uid].subscription.waived.GetOr(true), qrToken, None, None);
        var q := f.availableQuantity - 1;
        var f' := f.(availableQuantity := q, status := if q <= 0 then "sold-out" else f.status);
        Step(st.(offerings := st.offerings[offeringId := f'],
                 orders := st.orders[orderId := order],
                 tokens := st.tokens[qrToken := orderId]),
             Ok(201, order))
  }

  // ---------------------------------------------------------------------
  // cancel_order

  /** The statuses `cancel_order` refuses to leave. */
  predicate IsFinalForCancel(status: string) {
    status == "collected" || status == "completed" || status == "cancelled" || status == "refunded"
  }

  /** `cancel_order` (api/app.py:1773-1897, lambda/main.py:851-949); `orderId` is the path segment, not stripped. */
  function CancelOrder(st: Db, orderId: string, uid: string, now: int): (r: Step<Order>)
    ensures r.reply.Err? ==> r.db == st
  {
    var u := Strip(uid);
    if u == "" then Step(st, Err(400, UidRequired))
    else if orderId == "" then Step(st, Err(400, OrderIdRequired))
    else Withdraw(st, u, orderId, now)
  }

  /**
   * The writes of `cancel_order` once its ids are present: the caller must
   * own the order and the order must not be final; it becomes cancelled and
   * its offering, if there is one, gets its unit back.
   */
  function Withdraw(st: Db, uid: string, orderId: string, now: int): (r: Step<Order>)
    ensures r.reply.Err? ==> r.db == st
  {
    if orderId !in st.orders then Step(st, Err(404, OrderNotFound))
    else
      var o := st.orders[orderId];
      if o.uid != uid then Step(st, Err(403, NotOwner))
      else if IsFinalForCancel(OrderStatus(o)) then Step(st, Err(400, CannotCancel(OrderStatus(o))))
      else
        var o' := o.(status := "cancelled", cancelledAt := Some(now));
        Step(st.(orders := st.orders[orderId := o'], offerings := RestoreUnit(st.offerings, o.offeringId)), Ok(200, o'))
  }

  /**
   * The quantity restore of `cancel_order`: an existing offering gains one
   * unit, and a sold-out one that now has stock is available again; a blank
   * or unknown offering id changes nothing.
   */
  function RestoreUnit(offerings: map<string, Offering>, offeringId: string): (m: map<string, Offering>)
    ensures offeringId == "" || offeringId !in offerings ==> m == offerings
    ensures offeringId != "" && offeringId in offerings ==>
      var f := offerings[offeringId];
      offeringId in m && m == offerings[offeringId := m[offeringId]]
      && m[offeringId].availableQuantity == f.availableQuantity + 1
      && m[offeringId] == f.(availableQuantity := f.availableQuantity + 1, status := m[offeringId].status)
      && (OfferingStatus(f) == "sold-out" && f.availableQuantity + 1 > 0 ==> m[offeringId].status == "available")
      && (!(OfferingStatus(f) == "sold-out" && f.availableQuantity + 1 > 0) ==> m[offeringId].status == f.status)
  {
    if offeringId == "" || offeringId !in offerings then offerings
    else
      var f := offerings[offeringId];
      var q := f.availableQuantity + 1;
      offerings[offeringId := f.(availableQuantity := q,
                                 status := if OfferingStatus(f) == "sold-out" && q > 0 then "available" else f.status)]
  }

  // ---------------------------------------------------------------------
  // validate_order_qr

  /** The statuses `validate_order_qr` refuses to collect again. */
  predicate IsCollected(status: string) {
    status == "collected" || status == "completed"
  }

  /** The scanning owner may collect the order: it records no owner, or that owner. */
  predicate MayCollect(o: Order, uid: string) {
    o.ownerUid == "" || o.ownerUid == uid
  }

  /** `validate_order_qr` (api/app.py:1724-1770, lambda/main.py:952-1011); `uid` is the supply owner scanning the code. */
  function ValidateQr(st: Db, uid: string, qrToken: string, now: int): (r: Step<Order>)
    ensures r.reply.Err? ==> r.db == st
  {
    var u := Strip(uid);
    var t := Strip(qrToken);
    if u == "" || t == "" then Step(st, Err(400, IdsRequired))
    else Collect(st, u, t, now)
  }

  /**
   * The lookup and the write of `validate_order_qr`: the order the token
   * names must not belong to another owner and must not be collected yet;
   * it becomes collected. Whether it was cancelled is not looked at.
   */
  function Collect(st: Db, uid: string, qrToken: string, now: int): (r: Step<Order>)
    ensures r.reply.Err? ==> r.db == st
  {
    if qrToken !in st.tokens || st.tokens[qrToken] !in st.orders then Step(st, Err(404, TokenNotFound))
    else
      var id := st.tokens[qrToken];
      var o := st.orders[id];
      if !MayCollect(o, uid) then Step(st, Err(403, NotOwner))
      else if IsCollected(OrderStatus(o)) then Step(st, Err(409, AlreadyCollected))
      else
        var o' := o.(status := "collected", collectedAt := Some(now));
        Step(st.(orders := st.orders[id := o']), Ok(200, o'))
  }

  // ---------------------------------------------------------------------
  // publish_offering_from_future

  /** The title an offering gets when its announcement has none. */
  const DefaultTitle := "Prasadam offering"

  /**
   * `publish_offering_from_future` (api/app.py:1307-1386), with the new
   * offering's id passed in: the only place an offering is created. It
   * needs a positive quantity and the caller must own the announcement; the
   * offering starts available, at the scheduled time or else now.
   */
  function Publish(st: Db, uid: string, futureOfferingId: string, quantity: int, feeCents: int, launchFeeRefund: bool,
                   newId: string, now: int): (r: Step<Offering>)
    ensures r.reply.Err? ==> r.db == st
  {
    var u := Strip(uid);
    var fid := Strip(futureOfferingId);
    if u == "" || fid == "" then Step(st, Err(400, IdsRequired))
    else Launch(st, u, fid, quantity, feeCents, launchFeeRefund, newId, now)
  }

  /** The checks and writes of `publish_offering_from_future` once its ids are present. */
  function Launch(st: Db, uid: string, futureOfferingId: string, quantity: int, feeCents: int, launchFeeRefund: bool,
                  newId: string, now: int): (r: Step<Offering>)
    ensures r.reply.Err? ==> r.db == st
  {
    if quantity <= 0 then Step(st, Err(400, QuantityNotPositive))
    else if futureOfferingId !in st.futureOfferings then Step(st, Err(404, FutureOfferingNotFound))
    else
      var fut := st.futureOfferings[futureOfferingId];
      if fut.ownerUid != uid then Step(st, Err(403, NotOwner))
      else
        var f := Offering(uid, "", "", if fut.title == "" then DefaultTitle else fut.title, fut.description, "available",
                          quantity, feeCents, launchFeeRefund, Some(fut.scheduledAt.GetOr(now)));
        Step(st.(offerings := st.offerings[newId := f],
                 futureOfferings := st.futureOfferings[futureOfferingId := fut.(publishedOfferingId := Some(newId))]),
             Ok(201, f))
  }

  // ---------------------------------------------------------------------
  // update_supply_offering

  /**
   * The fields an `update_supply_offering` body carries, each `None` when
   * the key is absent (or, for `availableAt`, does not parse).
   */
  datatype OfferingPatch = OfferingPatch(
    title: Option<string>,
    description: Option<string>,
    status: Option<string>,
    availableQuantity: Option<int>,
    feeCents: Option<int>,
    launchFeeRefund: Option<bool>,
    availableAt: Option<int>)

  /** A quantity or fee in the patch that the handler accepts: present and not negative. */
  predicate Accepted(v: Option<int>) {
    v.Some? && v.value >= 0
  }

  /** The patch changes at least one field. */
  predicate HasUpdates(p: OfferingPatch) {
    p.title.Some? || p.description.Some? || p.status.Some? || Accepted(p.availableQuantity)
    || Accepted(p.feeCents) || p.launchFeeRefund.Some? || p.availableAt.Some?
  }

  /** `update_supply_offering` (api/app.py:1442-1521); `offeringId` is the path segment. */
  function UpdateOffering(st: Db, offeringId: string, uid: string, patch: OfferingPatch): (r: Step<Offering>)
    ensures r.reply.Err? ==> r.db == st
  {
    var u := Strip(uid);
    if u == "" then Step(st, Err(400, UidRequired))
    else if offeringId == "" then Step(st, Err(400, OfferingIdRequired))
    else if offeringId !in st.offerings then Step(st, Err(404, OfferingNotFound))
    else if st.offerings[offeringId].ownerUid != u then Step(st, Err(403, NotOwner))
    else Revise(st, offeringId, patch)
  }

  /**
   * The offering with the patch applied: a blank title keeps the old one, the
   * status is stripped and lower-cased. The owner never changes, and neither
   * a quantity nor a fee can become negative.
   */
  function Patched(f: Offering, p: OfferingPatch): (g: Offering)
    ensures g.ownerUid == f.ownerUid && g.owner == f.owner && g.ownerId == f.ownerId
    ensures f.availableQuantity >= 0 ==> g.availableQuantity >= 0
    ensures f.feeCents >= 0 ==> g.feeCents >= 0
  {
    f.(title := if p.title.Some? && Strip(p.title.value) != "" then Strip(p.title.value) else f.title,
       description := if p.description.Some? then Strip(p.description.value) else f.description,
       status := if p.status.Some? then Lower(Strip(p.status.value)) else f.status,
       availableQuantity := if Accepted(p.availableQuantity) then p.availableQuantity.value else f.availableQuantity,
       feeCents := if Accepted(p.feeCents) then p.feeCents.value else f.feeCents,
       launchFeeRefund := if p.launchFeeRefund.Some? then p.launchFeeRefund.value else f.launchFeeRefund,
       availableAt := if p.availableAt.Some? then p.availableAt else f.availableAt)
  }

  /** The write of `update_supply_offering` for an offering the caller owns. */
  function Revise(st: Db, offeringId: string, patch: OfferingPatch): (r: Step<Offering>)
    requires offeringId in st.offerings
    ensures r.reply.Err? ==> r.db == st
  {
    if !HasUpdates(patch) then Step(st, Err(400, NoValidFields))
    else
      var f' := Patched(st.offerings[offeringId], patch);
      Step(st.(offerings := st.offerings[offeringId := f']), Ok(200, f'))
  }

  // ---------------------------------------------------------------------
  // The ledger

  /** The orders of an offering that still hold a unit: every order of it that is not cancelled. */
  ghost function LiveOrders(orders: map<string, Order>, offeringId: string): set<string> {
    set id | id in orders && orders[id].offeringId == offeringId && OrderStatus(orders[id]) != "cancelled"
  }

  /** Units of an offering on the shelf plus units held by live orders. */
  ghost function Ledger(st: Db, offeringId: string): (units: int)
    requires offeringId in st.offerings
  {
    st.offerings[offeringId].availableQuantity + |LiveOrders(st.orders, offeringId)|
  }

  /** Replacing one order moves at most that order in or out of an offering's live set. */
  lemma LiveOrdersUpdate(orders: map<string, Order>, id: string, o: Order, offeringId: string)
    ensures LiveOrders(orders[id := o], offeringId) ==
      (LiveOrders(orders, offeringId) - {id}) + (if o.offeringId == offeringId && OrderStatus(o) != "cancelled" then {id} else {})
  {
  }

  /** Removing one element and possibly adding it back changes a set's size by at most that element. */
  lemma CardinalityAfterSwap(s: set<string>, id: string, back: bool)
    ensures |(s - {id}) + (if back then {id} else {})| == |s| - (if id in s then 1 else 0) + (if back then 1 else 0)
  {
    var t := s - {id};
    if id in s {
      assert s == t + {id};
    } else {
      assert t == s;
    }
    if back {
      assert id !in t;
    } else {
      assert t + {} == t;
    }
  }

  /** The size of the live set after one order is replaced. */
  lemma {:induction false} LiveCountUpdate(orders: map<string, Order>, id: string, o: Order, offeringId: string)
    ensures var before := if id in LiveOrders(orders, offeringId) then 1 else 0;
      var after := if o.offeringId == offeringId && OrderStatus(o) != "cancelled" then 1 else 0;
      |LiveOrders(orders[id := o], offeringId)| == |LiveOrders(orders, offeringId)| - before + after
  {
    LiveOrdersUpdate(orders, id, o, offeringId);
    CardinalityAfterSwap(LiveOrders(orders, offeringId), id, o.offeringId == offeringId && OrderStatus(o) != "cancelled");
  }

  // ---------------------------------------------------------------------
  // Properties of create_order

  /**
   * The refusals of `create_order`'s transaction, in their order (unknown
   * user, unknown offering, offering not open, no stock), and what a success
   * writes: one unit less, sold out exactly when none is left, and a pending
   * order carrying the offering's fee and refund flag.
   */
  lemma PlaceOrderOutcome(st: Db, uid: string, offeringId: string, orderId: string, qrToken: string)
    ensures var r := PlaceOrder(st, uid, offeringId, orderId, qrToken);
      && (uid !in st.users ==> r.reply == Err(400, UserNotFound))
      && (uid in st.users && offeringId !in st.offerings ==> r.reply == Err(400, OfferingNotFound))
      && (uid in st.users && offeringId in st.offerings && !IsOpenForOrders(OfferingStatus(st.offerings[offeringId])) ==>
            r.reply == Err(400, OfferingNotAvailable))
      && (uid in st.users && offeringId in st.offerings && IsOpenForOrders(OfferingStatus(st.offerings[offeringId]))
          && st.offerings[offeringId].availableQuantity <= 0
          ==> r.reply == Err(400, SoldOut))
      && (r.reply.Ok? <==> uid in st.users && offeringId in st.offerings
                           && IsOpenForOrders(OfferingStatus(st.offerings[offeringId]))
                           && st.offerings[offeringId].availableQuantity > 0)
      && (r.reply.Ok? ==>
            var f := st.offerings[offeringId];
            var f' := r.db.offerings[offeringId];
            var o := r.reply.value;
            && r.db.offerings == st.offerings[offeringId := f']
            && f'.availableQuantity == f.availableQuantity - 1 && f'.availableQuantity >= 0
            && (OfferingStatus(f') == "sold-out" <==> f'.availableQuantity <= 0)
            && r.db.orders == st.orders[orderId := o] && r.db.tokens == st.tokens[qrToken := orderId]
            && OrderStatus(o) == "pending" && o.uid == uid && o.offeringId == offeringId && o.qrToken == qrToken
            && o.feeCents == f.feeCents && o.feeRefundEligible == f.launchFeeRefund
            && o.ownerUid == OrderOwner(f) && o.offeringTitle == f.title
            && o.subscriptionWaived == st.users[uid].subscription.waived.GetOr(true)
            && o.cancelledAt.None? && o.collectedAt.None?
            && r.db == st.(offerings := r.db.offerings, orders := r.db.orders, tokens := r.db.tokens))
  {
    LowerOfLowerCase("pending");
    LowerOfLowerCase("sold-out");
  }

  /** `create_order` keeps the invariant, given a fresh order id and a fresh QR token. */
  lemma PlaceOrderKeepsInv(st: Db, uid: string, offeringId: string, orderId: string, qrToken: string)
    requires Inv(st)
    requires orderId !in st.orders && qrToken !in st.tokens
    ensures Inv(PlaceOrder(st, uid, offeringId, orderId, qrToken).db)
  {
  }

  /** `create_order` moves a unit from the shelf to the new order: every offering's ledger is unchanged. */
  lemma PlaceOrderKeepsLedger(st: Db, uid: string, offeringId: string, orderId: string, qrToken: string, id: string)
    requires orderId !in st.orders
    requires id in st.offerings
    ensures id in PlaceOrder(st, uid, offeringId, orderId, qrToken).db.offerings
    ensures Ledger(PlaceOrder(st, uid, offeringId, orderId, qrToken).db, id) == Ledger(st, id)
  {
    var r := PlaceOrder(st, uid, offeringId, orderId, qrToken);
    if r.reply.Ok? {
      LowerOfLowerCase("pending");
      LiveCountUpdate(st.orders, orderId, r.reply.value, id);
    }
  }

  // ---------------------------------------------------------------------
  // Properties of cancel_order

  /**
   * The outcome of `cancel_order` once its ids are present: 404 for an
   * unknown order, 403 for someone else's, 400 for a final one; otherwise
   * the order is cancelled and nothing but it and its offering changes.
   */
  lemma WithdrawOutcome(st: Db, uid: string, orderId: string, now: int)
    ensures var r := Withdraw(st, uid, orderId, now);
      && (orderId !in st.orders ==> r.reply == Err(404, OrderNotFound))
      && (orderId in st.orders && st.orders[orderId].uid != uid ==> r.reply == Err(403, NotOwner))
      && (orderId in st.orders && st.orders[orderId].uid == uid && IsFinalForCancel(OrderStatus(st.orders[orderId])) ==>
            r.reply == Err(400, CannotCancel(OrderStatus(st.orders[orderId]))))
      && (r.reply.Ok? <==> orderId in st.orders && st.orders[orderId].uid == uid
                           && !IsFinalForCancel(OrderStatus(st.orders[orderId])))
      && (r.reply.Ok? ==>
            var o := st.orders[orderId];
            && r.reply.value == o.(status := "cancelled", cancelledAt := Some(now))
            && OrderStatus(r.reply.value) == "cancelled"
            && r.reply.code == 200
            && r.db == st.(orders := st.orders[orderId := r.reply.value],
                           offerings := RestoreUnit(st.offerings, o.offeringId)))
  {
    LowerOfLowerCase("cancelled");
  }

  /** A second cancellation of the same order is refused and restores nothing. */
  lemma WithdrawTwice(st: Db, uid: string, orderId: string, now: int, later: int)
    requires Withdraw(st, uid, orderId, now).reply.Ok?
    ensures var s1 := Withdraw(st, uid, orderId, now).db;
      Withdraw(s1, uid, orderId, later) == Step(s1, Err(400, CannotCancel("cancelled")))
  {
    LowerOfLowerCase("cancelled");
  }

  /** `cancel_order` keeps the invariant: quantities only grow, and the token index is untouched. */
  lemma WithdrawKeepsInv(st: Db, uid: string, orderId: string, now: int)
    requires Inv(st)
    ensures Inv(Withdraw(st, uid, orderId, now).db)
  {
  }

  /** `cancel_order` moves the order's unit back to the shelf: the ledger of every offering with a non-blank id is unchanged. */
  lemma WithdrawKeepsLedger(st: Db, uid: string, orderId: string, now: int, id: string)
    requires id in st.offerings && id != ""
    ensures id in Withdraw(st, uid, orderId, now).db.offerings
    ensures Ledger(Withdraw(st, uid, orderId, now).db, id) == Ledger(st, id)
  {
    var r := Withdraw(st, uid, orderId, now);
    if r.reply.Ok? {
      LowerOfLowerCase("cancelled");
      var o := st.orders[orderId];
      LiveCountUpdate(st.orders, orderId, r.reply.value, id);
      assert orderId in LiveOrders(st.orders, id) <==> o.offeringId == id;
    }
  }

  // ---------------------------------------------------------------------
  // Properties of validate_order_qr

  /**
   * The outcome of `validate_order_qr` once its inputs are present: 404 for
   * an unknown token, 403 when another owner's order, 409 when already
   * collected; otherwise exactly that order becomes collected. Offerings are
   * never touched.
   */
  lemma CollectOutcome(st: Db, uid: string, qrToken: string, now: int)
    ensures var r := Collect(st, uid, qrToken, now);
      var found := qrToken in st.tokens && st.tokens[qrToken] in st.orders;
      && (!found ==> r.reply == Err(404, TokenNotFound))
      && (found && !MayCollect(st.orders[st.tokens[qrToken]], uid) ==> r.reply == Err(403, NotOwner))
      && (found && MayCollect(st.orders[st.tokens[qrToken]], uid) && IsCollected(OrderStatus(st.orders[st.tokens[qrToken]])) ==>
            r.reply == Err(409, AlreadyCollected))
      && (r.reply.Ok? <==> found && MayCollect(st.orders[st.tokens[qrToken]], uid)
                           && !IsCollected(OrderStatus(st.orders[st.tokens[qrToken]])))
      && (r.reply.Ok? ==>
            var id := st.tokens[qrToken];
            && r.reply.code == 200
            && r.reply.value == st.orders[id].(status := "collected", collectedAt := Some(now))
            && r.db == st.(orders := st.orders[id := r.reply.value]))
  {
  }

  /** An order is collected at most once: scanning its code again is refused with 409 and writes nothing. */
  lemma CollectTwice(st: Db, uid: string, qrToken: string, now: int, later: int)
    requires Collect(st, uid, qrToken, now).reply.Ok?
    ensures var s1 := Collect(st, uid, qrToken, now).db;
      Collect(s1, uid, qrToken, later) == Step(s1, Err(409, AlreadyCollected))
  {
    LowerOfLowerCase("collected");
  }

  /** A cancelled order is not refused: its QR code still collects it. */
  lemma CancelledOrderIsCollectable(st: Db, uid: string, qrToken: string, now: int)
    requires qrToken in st.tokens && st.tokens[qrToken] in st.orders
    requires st.orders[st.tokens[qrToken]].ownerUid in {"", uid}
    requires OrderStatus(st.orders[st.tokens[qrToken]]) == "cancelled"
    ensures Collect(st, uid, qrToken, now).reply.Ok?
    ensures OrderStatus(Collect(st, uid, qrToken, now).reply.value) == "collected"
  {
    LowerOfLowerCase("collected");
  }

  /**
   * Collecting a cancelled order takes a unit the cancellation already put
   * back on the shelf: the offering's ledger grows by one.
   */
  lemma CollectAfterCancelBreaksLedger(st: Db, uid: string, qrToken: string, now: int)
    requires qrToken in st.tokens && st.tokens[qrToken] in st.orders
    requires st.orders[st.tokens[qrToken]].ownerUid in {"", uid}
    requires OrderStatus(st.orders[st.tokens[qrToken]]) == "cancelled"
    requires st.orders[st.tokens[qrToken]].offeringId in st.offerings
    ensures var oid := st.orders[st.tokens[qrToken]].offeringId;
      Ledger(Collect(st, uid, qrToken, now).db, oid) == Ledger(st, oid) + 1
  {
    LowerOfLowerCase("collected");
    var id := st.tokens[qrToken];
    var o := st.orders[id];
    var r := Collect(st, uid, qrToken, now);
    LiveCountUpdate(st.orders, id, r.reply.value, o.offeringId);
  }

  /** Collecting an order that was not cancelled leaves every ledger as it was. */
  lemma CollectLiveKeepsLedger(st: Db, uid: string, qrToken: string, now: int, oid: string)
    requires oid in st.offerings
    requires qrToken in st.tokens && st.tokens[qrToken] in st.orders
    requires OrderStatus(st.orders[st.tokens[qrToken]]) != "cancelled"
    ensures Ledger(Collect(st, uid, qrToken, now).db, oid) == Ledger(st, oid)
  {
    var r := Collect(st, uid, qrToken, now);
    if r.reply.Ok? {
      LowerOfLowerCase("collected");
      var id := st.tokens[qrToken];
      LiveCountUpdate(st.orders, id, r.reply.value, oid);
    }
  }

  /** `validate_order_qr` keeps the invariant. */
  lemma CollectKeepsInv(st: Db, uid: string, qrToken: string, now: int)
    requires Inv(st)
    ensures Inv(Collect(st, uid, qrToken, now).db)
  {
  }

  /**
   * Under the invariant the token lookup finds the one order carrying the
   * token: a token some order carries is never answered with 404, and the
   * order collected is that one.
   */
  lemma CollectFindsTheTokensOrder(st: Db, uid: string, qrToken: string, now: int, id: string)
    requires TokenIndexed(st)
    requires id in st.orders && st.orders[id].qrToken == qrToken
    ensures Collect(st, uid, qrToken, now).reply != Err(404, TokenNotFound)
    ensures Collect(st, uid, qrToken, now).reply.Ok? ==>
      && Collect(st, uid, qrToken, now).db.orders.Keys == st.orders.Keys
      && Collect(st, uid, qrToken, now).db.orders[id] == st.orders[id].(status := "collected", collectedAt := Some(now))
  {
    TokensUnique(st, id, st.tokens[qrToken]);
  }

  // ---------------------------------------------------------------------
  // Properties of publish_offering_from_future and update_supply_offering

  /**
   * The outcome of `publish_offering_from_future` once its ids are present:
   * the refusals in their order, and on success a new available offering
   * owned by the caller, with the requested positive quantity, fee and refund
   * flag, the announcement's title (or the default) and description, available
   * from the scheduled time or else now; the announcement is linked to it and
   * nothing else changes.
   */
  lemma LaunchOutcome(st: Db, uid: string, futureOfferingId: string, quantity: int, feeCents: int,
                      launchFeeRefund: bool, newId: string, now: int)
    ensures var r := Launch(st, uid, futureOfferingId, quantity, feeCents, launchFeeRefund, newId, now);
      var fid := futureOfferingId;
      && (quantity <= 0 ==> r.reply == Err(400, QuantityNotPositive))
      && (quantity > 0 && fid !in st.futureOfferings ==> r.reply == Err(404, FutureOfferingNotFound))
      && (quantity > 0 && fid in st.futureOfferings && st.futureOfferings[fid].ownerUid != uid ==>
            r.reply == Err(403, NotOwner))
      && (r.reply.Ok? <==> quantity > 0 && fid in st.futureOfferings && st.futureOfferings[fid].ownerUid == uid)
      && (r.reply.Ok? ==>
            var fut := st.futureOfferings[fid];
            var f := r.reply.value;
            && r.reply.code == 201
            && OfferingStatus(f) == "available" && IsOpenForOrders(OfferingStatus(f))
            && f.ownerUid == uid && f.owner == "" && f.ownerId == ""
            && (fut.title == "" ==> f.title == DefaultTitle) && (fut.title != "" ==> f.title == fut.title)
            && f.description == fut.description
            && f.availableQuantity == quantity && f.availableQuantity > 0
            && f.feeCents == feeCents && f.launchFeeRefund == launchFeeRefund
            && f.availableAt == Some(fut.scheduledAt.GetOr(now))
            && r.db == st.(offerings := st.offerings[newId := f],
                           futureOfferings := st.futureOfferings[fid := fut.(publishedOfferingId := Some(newId))]))
  {
    LowerOfLowerCase("available");
  }

  /**
   * An announcement that was already published can be published again:
   * `publishedOfferingId` is written but never checked, so a second call
   * creates a second offering and relinks the announcement to it.
   */
  lemma LaunchTwice(st: Db, uid: string, futureOfferingId: string, quantity: int, feeCents: int,
                    launchFeeRefund: bool, firstId: string, secondId: string, now: int)
    requires Launch(st, uid, futureOfferingId, quantity, feeCents, launchFeeRefund, firstId, now).reply.Ok?
    requires firstId != secondId
    ensures var s1 := Launch(st, uid, futureOfferingId, quantity, feeCents, launchFeeRefund, firstId, now).db;
      var s2 := Launch(s1, uid, futureOfferingId, quantity, feeCents, launchFeeRefund, secondId, now);
      && s2.reply.Ok?
      && firstId in s2.db.offerings && secondId in s2.db.offerings
      && s2.db.futureOfferings[futureOfferingId].publishedOfferingId == Some(secondId)
  {
    LaunchOutcome(st, uid, futureOfferingId, quantity, feeCents, launchFeeRefund, firstId, now);
  }

  /** Publishing keeps the invariant: the new offering's quantity is positive. */
  lemma PublishKeepsInv(st: Db, uid: string, futureOfferingId: string, quantity: int, feeCents: int,
                        launchFeeRefund: bool, newId: string, now: int)
    requires Inv(st)
    ensures Inv(Publish(st, uid, futureOfferingId, quantity, feeCents, launchFeeRefund, newId, now).db)
  {
  }

  /**
   * `update_supply_offering` for an owned offering: 400 with no write when
   * the patch has nothing usable; otherwise exactly the offering is replaced,
   * each field by the patch's value when the patch carries a usable one and
   * kept otherwise (a blank title, a negative quantity or fee is ignored).
   */
  lemma ReviseOutcome(st: Db, offeringId: string, patch: OfferingPatch)
    requires offeringId in st.offerings
    ensures var r := Revise(st, offeringId, patch);
      var f := st.offerings[offeringId];
      && (!HasUpdates(patch) ==> r == Step(st, Err(400, NoValidFields)))
      && (r.reply.Ok? <==> HasUpdates(patch))
      && (r.reply.Ok? ==>
            var g := r.reply.value;
            var title := patch.title.Some? && Strip(patch.title.value) != "";
            && r.reply.code == 200
            && r.db == st.(offerings := st.offerings[offeringId := g])
            && g.ownerUid == f.ownerUid && g.owner == f.owner && g.ownerId == f.ownerId
            && (title ==> g.title == Strip(patch.title.value)) && (!title ==> g.title == f.title)
            && (patch.description.Some? ==> g.description == Strip(patch.description.value))
            && (patch.description.None? ==> g.description == f.description)
            && (patch.status.Some? ==> g.status == Lower(Strip(patch.status.value)))
            && (patch.status.None? ==> g.status == f.status)
            && (Accepted(patch.availableQuantity) ==> g.availableQuantity == patch.availableQuantity.value)
            && (!Accepted(patch.availableQuantity) ==> g.availableQuantity == f.availableQuantity)
            && (Accepted(patch.feeCents) ==> g.feeCents == patch.feeCents.value)
            && (!Accepted(patch.feeCents) ==> g.feeCents == f.feeCents)
            && (patch.launchFeeRefund.Some? ==> g.launchFeeRefund == patch.launchFeeRefund.value)
            && (patch.launchFeeRefund.None? ==> g.launchFeeRefund == f.launchFeeRefund)
            && (patch.availableAt.Some? ==> g.availableAt == patch.availableAt)
            && (patch.availableAt.None? ==> g.availableAt == f.availableAt))
  {
  }

  /** `update_supply_offering` keeps the invariant: it only stores quantities that are not negative. */
  lemma ReviseKeepsInv(st: Db, offeringId: string, patch: OfferingPatch)
    requires offeringId in st.offerings
    requires Inv(st)
    ensures Inv(Revise(st, offeringId, patch).db)
  {
  }
}
