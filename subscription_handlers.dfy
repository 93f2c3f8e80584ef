/**
 * `update_subscription` as a sequential step on the store: the user's
 * subscription map is copied, the action's keys are overwritten one by one,
 * and the copy is written back.
 */
module SubscriptionHandlers {
  import opened Text
  import opened Documents
  import opened Subscriptions

  /** `update_subscription`, proved to do what `Subscriptions.UpdateSubscription` says. */
  method UpdateSubscription(db: Firestore, uid: string, action: string, waived: Option<bool>, now: int)
    returns (reply: Reply<Subscription>)
    modifies db
    ensures db.Snapshot() == Subscriptions.UpdateSubscription(old(db.Snapshot()), uid, action, waived, now).db
    ensures reply == Subscriptions.UpdateSubscription(old(db.Snapshot()), uid, action, waived, now).reply
  {
    var u := Strip(uid);
    var a := ParseAction(action);
    if u == "" {
      return Err(400, UidRequired);
    }
    if a.None? {
      return Err(400, InvalidAction);
    }
    if u !in db.users {
      return Err(404, UserNotFound);
    }
    var user := db.users[u];
    var s := user.subscription;
    var updated := s;
    if a.value == Activate {
      updated := updated.(active := Some(true));
      if s.activatedAt.None? {
        updated := updated.(activatedAt := Some(now));
      }
      updated := updated.(renewsAt := Some(now + RenewalPeriod));
      updated := updated.(monthlyFeeCents := Some(s.monthlyFeeCents.GetOr(DefaultMonthlyFeeCents)));
      if waived.Some? {
        updated := updated.(waived := waived);
      } else {
        updated := updated.(waived := Some(s.waived.GetOr(true)));
      }
    } else {
      updated := updated.(active := Some(false), renewsAt := None);
    }
    db.users := db.users[u := user.(subscription := updated)];
    reply := Ok(200, updated);
  }
}
