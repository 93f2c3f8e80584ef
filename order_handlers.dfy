/**
 * The order and offering handlers as sequential steps on the store: each
 * reads the documents it needs, refuses or writes them in place, and is
 * proved to leave the store and answer exactly as its function in `Orders`
 * says. The fresh ids the handlers draw (`uuid4`, `document()`) are
 * parameters.
 */
module OrderHandlers {
  import opened Text
  import opened Documents
  import opened Orders

  /** `create_order`: both ids are stripped and required, then the transaction runs. */
  method CreateOrder(db: Firestore, uid: string, offeringId: string, orderId: string, qrToken: string)
    returns (reply: Reply<Order>)
    modifies db
    ensures db.Snapshot() == Orders.CreateOrder(old(db.Snapshot()), uid, offeringId, orderId, qrToken).db
    ensures reply == Orders.CreateOrder(old(db.Snapshot()), uid, offeringId, orderId, qrToken).reply
    ensures Inv(old(db.Snapshot())) && orderId !in old(db.orders) && qrToken !in old(db.tokens) ==> Inv(db.Snapshot())
  {
    var u := Strip(uid);
    var oid := Strip(offeringId);
    if u == "" || oid == "" {
      return Err(400, IdsRequired);
    }
    if Inv(db.Snapshot()) && orderId !in db.orders && qrToken !in db.tokens {
      PlaceOrderKeepsInv(db.Snapshot(), u, oid, orderId, qrToken);
    }
    reply := CreateOrderTransaction(db, u, oid, orderId, qrToken);
  }

  /**
   * The `create_order_txn` transaction: read the user and the offering,
   * refuse, or take one unit and store the pending order with its token.
   */
  method CreateOrderTransaction(db: Firestore, uid: string, offeringId: string, orderId: string, qrToken: string)
    returns (reply: Reply<Order>)
    modifies db
    ensures db.Snapshot() == PlaceOrder(old(db.Snapshot()), uid, offeringId, orderId, qrToken).db
    ensures reply == PlaceOrder(old(db.Snapshot()), uid, offeringId, orderId, qrToken).reply
  {
    if uid !in db.users {
      return Err(400, UserNotFound);
    }
    if offeringId !in db.offerings {
      return Err(400, OfferingNotFound);
    }
    var f := db.offerings[offeringId];
    if !IsOpenForOrders(OfferingStatus(f)) {
      return Err(400, OfferingNotAvailable);
    }
    if f.availableQuantity <= 0 {
      return Err(400, SoldOut);
    }
    var newQuantity := f.availableQuantity - 1;
    var updated := f.(availableQuantity := newQuantity);
    if newQuantity <= 0 {
      updated := updated.(status := "sold-out");
    }
    db.offerings := db.offerings[offeringId := updated];
    var order := Order(orderId, uid, offeringId, f.title, OrderOwner(f), "pending", f.feeCents, f.launchFeeRefund,
                       db.users[uid].subscription.waived.GetOr(true), qrToken, None, None);
    db.orders := db.orders[orderId := order];
    db.tokens := db.tokens[qrToken := orderId];
    reply := Ok(201, order);
  }

  /** `cancel_order`: the uid is stripped and required, and so is the order id. */
  method CancelOrder(db: Firestore, orderId: string, uid: string, now: int) returns (reply: Reply<Order>)
    modifies db
    ensures db.Snapshot() == Orders.CancelOrder(old(db.Snapshot()), orderId, uid, now).db
    ensures reply == Orders.CancelOrder(old(db.Snapshot()), orderId, uid, now).reply
    ensures Inv(old(db.Snapshot())) ==> Inv(db.Snapshot())
  {
    var u := Strip(uid);
    if u == "" {
      return Err(400, UidRequired);
    }
    if orderId == "" {
      return Err(400, OrderIdRequired);
    }
    if Inv(db.Snapshot()) {
      WithdrawKeepsInv(db.Snapshot(), u, orderId, now);
    }
    reply := WithdrawOrder(db, u, orderId, now);
  }

  /**
   * The two writes of `cancel_order`, outside any transaction: first the
   * order is marked cancelled, then its offering (if it has one and it
   * exists) is read again and given its unit back.
   */
  method WithdrawOrder(db: Firestore, uid: string, orderId: string, now: int) returns (reply: Reply<Order>)
    modifies db
    ensures db.Snapshot() == Withdraw(old(db.Snapshot()), uid, orderId, now).db
    ensures reply == Withdraw(old(db.Snapshot()), uid, orderId, now).reply
  {
    if orderId !in db.orders {
      return Err(404, OrderNotFound);
    }
    var o := db.orders[orderId];
    if o.uid != uid {
      return Err(403, NotOwner);
    }
    var status := OrderStatus(o);
    if IsFinalForCancel(status) {
      return Err(400, CannotCancel(status));
    }
    var cancelled := o.(status := "cancelled", cancelledAt := Some(now));
    db.orders := db.orders[orderId := cancelled];
    if o.offeringId != "" && o.offeringId in db.offerings {
      var f := db.offerings[o.offeringId];
      var newQuantity := f.availableQuantity + 1;
      var restored := f.(availableQuantity := newQuantity);
      if OfferingStatus(f) == "sold-out" && newQuantity > 0 {
        restored := restored.(status := "available");
      }
      db.offerings := db.offerings[o.offeringId := restored];
    }
    reply := Ok(200, cancelled);
  }

  /** `validate_order_qr`: the owner uid and the token are stripped and required. */
  method ValidateOrderQr(db: Firestore, uid: string, qrToken: string, now: int) returns (reply: Reply<Order>)
    modifies db
    ensures db.Snapshot() == ValidateQr(old(db.Snapshot()), uid, qrToken, now).db
    ensures reply == ValidateQr(old(db.Snapshot()), uid, qrToken, now).reply
    ensures Inv(old(db.Snapshot())) ==> Inv(db.Snapshot())
  {
    var u := Strip(uid);
    var t := Strip(qrToken);
    if u == "" || t == "" {
      return Err(400, IdsRequired);
    }
    if Inv(db.Snapshot()) {
      CollectKeepsInv(db.Snapshot(), u, t, now);
    }
    reply := CollectOrder(db, u, t, now);
  }

  /** The token lookup of `validate_order_qr`, the order's checks and the write that collects it. */
  method CollectOrder(db: Firestore, uid: string, qrToken: string, now: int) returns (reply: Reply<Order>)
    modifies db
    ensures db.Snapshot() == Collect(old(db.Snapshot()), uid, qrToken, now).db
    ensures reply == Collect(old(db.Snapshot()), uid, qrToken, now).reply
  {
    if qrToken !in db.tokens || db.tokens[qrToken] !in db.orders {
      return Err(404, TokenNotFound);
    }
    var id := db.tokens[qrToken];
    var o := db.orders[id];
    if !MayCollect(o, uid) {
      return Err(403, NotOwner);
    }
    if IsCollected(OrderStatus(o)) {
      return Err(409, AlreadyCollected);
    }
    var collected := o.(status := "collected", collectedAt := Some(now));
    db.orders := db.orders[id := collected];
    reply := Ok(200, collected);
  }

  /** `publish_offering_from_future`: both ids are stripped and required; `newId` is the id of the new offering document. */
  method PublishOffering(db: Firestore, uid: string, futureOfferingId: string, quantity: int, feeCents: int,
                         launchFeeRefund: bool, newId: string, now: int) returns (reply: Reply<Offering>)
    modifies db
    ensures db.Snapshot() == Publish(old(db.Snapshot()), uid, futureOfferingId, quantity, feeCents, launchFeeRefund, newId, now).db
    ensures reply == Publish(old(db.Snapshot()), uid, futureOfferingId, quantity, feeCents, launchFeeRefund, newId, now).reply
    ensures Inv(old(db.Snapshot())) ==> Inv(db.Snapshot())
  {
    var u := Strip(uid);
    var fid := Strip(futureOfferingId);
    if u == "" || fid == "" {
      return Err(400, IdsRequired);
    }
    if Inv(db.Snapshot()) {
      PublishKeepsInv(db.Snapshot(), uid, futureOfferingId, quantity, feeCents, launchFeeRefund, newId, now);
    }
    reply := LaunchOffering(db, u, fid, quantity, feeCents, launchFeeRefund, newId, now);
  }

  /** The checks of `publish_offering_from_future`, then the new offering and the link from its announcement. */
  method LaunchOffering(db: Firestore, uid: string, futureOfferingId: string, quantity: int, feeCents: int,
                        launchFeeRefund: bool, newId: string, now: int) returns (reply: Reply<Offering>)
    modifies db
    ensures db.Snapshot() == Launch(old(db.Snapshot()), uid, futureOfferingId, quantity, feeCents, launchFeeRefund, newId, now).db
    ensures reply == Launch(old(db.Snapshot()), uid, futureOfferingId, quantity, feeCents, launchFeeRefund, newId, now).reply
  {
    if quantity <= 0 {
      return Err(400, QuantityNotPositive);
    }
    if futureOfferingId !in db.futureOfferings {
      return Err(404, FutureOfferingNotFound);
    }
    var fut := db.futureOfferings[futureOfferingId];
    if fut.ownerUid != uid {
      return Err(403, NotOwner);
    }
    var title := if fut.title == "" then DefaultTitle else fut.title;
    var availableAt := if fut.scheduledAt.Some? then fut.scheduledAt.value else now;
    var offering := Offering(uid, "", "", title, fut.description, "available", quantity, feeCents, launchFeeRefund, Some(availableAt));
    db.offerings := db.offerings[newId := offering];
    db.futureOfferings := db.futureOfferings[futureOfferingId := fut.(publishedOfferingId := Some(newId))];
    reply := Ok(201, offering);
  }

  /** `update_supply_offering`: the caller must own the offering; the patch is then applied field by field. */
  method UpdateSupplyOffering(db: Firestore, offeringId: string, uid: string, patch: OfferingPatch)
    returns (reply: Reply<Offering>)
    modifies db
    ensures db.Snapshot() == UpdateOffering(old(db.Snapshot()), offeringId, uid, patch).db
    ensures reply == UpdateOffering(old(db.Snapshot()), offeringId, uid, patch).reply
    ensures Inv(old(db.Snapshot())) ==> Inv(db.Snapshot())
  {
    var u := Strip(uid);
    if u == "" {
      return Err(400, UidRequired);
    }
    if offeringId == "" {
      return Err(400, OfferingIdRequired);
    }
    if offeringId !in db.offerings {
      return Err(404, OfferingNotFound);
    }
    if db.offerings[offeringId].ownerUid != u {
      return Err(403, NotOwner);
    }
    if Inv(db.Snapshot()) {
      ReviseKeepsInv(db.Snapshot(), offeringId, patch);
    }
    reply := ReviseOffering(db, offeringId, patch);
  }

  /** The update `update_supply_offering` assembles, one accepted field at a time, and its write. */
  method ReviseOffering(db: Firestore, offeringId: string, patch: OfferingPatch) returns (reply: Reply<Offering>)
    requires offeringId in db.offerings
    modifies db
    ensures db.Snapshot() == Revise(old(db.Snapshot()), offeringId, patch).db
    ensures reply == Revise(old(db.Snapshot()), offeringId, patch).reply
  {
    var f := db.offerings[offeringId];
    ghost var target := Patched(f, patch);
    var updated := f;
    var changed := false;
    if patch.title.Some? {
      changed := true;
      var title := Strip(patch.title.value);
      if title != "" {
        updated := updated.(title := title);
      }
    }
    assert updated == f.(title := target.title);
    if patch.description.Some? {
      changed := true;
      updated := updated.(description := Strip(patch.description.value));
    }
    assert updated == f.(title := target.title, description := target.description);
    if patch.status.Some? {
      changed := true;
      updated := updated.(status := Lower(Strip(patch.status.value)));
    }
    assert updated == f.(title := target.title, description := target.description, status := target.status);
    if patch.availableQuantity.Some? && patch.availableQuantity.value >= 0 {
      changed := true;
      updated := updated.(availableQuantity := patch.availableQuantity.value);
    }
    assert updated == target.(feeCents := f.feeCents, launchFeeRefund := f.launchFeeRefund, availableAt := f.availableAt);
    if patch.feeCents.Some? && patch.feeCents.value >= 0 {
      changed := true;
      updated := updated.(feeCents := patch.feeCents.value);
    }
    if patch.launchFeeRefund.Some? {
      changed := true;
      updated := updated.(launchFeeRefund := patch.launchFeeRefund.value);
    }
    if patch.availableAt.Some? {
      changed := true;
      updated := updated.(availableAt := patch.availableAt);
    }
    assert updated == target && changed == HasUpdates(patch);
    if !changed {
      return Err(400, NoValidFields);
    }
    db.offerings := db.offerings[offeringId := updated];
    reply := Ok(200, updated);
  }
}
