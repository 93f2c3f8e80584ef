/**
 * The subscription toggle of `update_subscription` (api/app.py:1997-2073,
 * lambda/main.py:1014-1079): activate or cancel the `subscription` map of a
 * user document. Times are integer seconds and the current time is the
 * parameter `now`.
 */
module Subscriptions {
  import opened Text
  import opened Documents

  /** The renewal period, `timedelta(days=30)`, in seconds. */
  const RenewalPeriod: int := 30 * 24 * 60 * 60

  /** The monthly fee a subscription without one is given. */
  const DefaultMonthlyFeeCents: int := 100

  datatype Action = Activate | Cancel

  /** `(data.get('action') or 'activate').strip().lower()`, and whether it names an action. */
  function ParseAction(raw: string): (action: Option<Action>) {
    var a := Lower(Strip(if raw == "" then "activate" else raw));
    if a == "activate" then Some(Activate)
    else if a == "cancel" then Some(Cancel)
    else None
  }

  /** The subscription after the action: `dict(subscription)` with the action's keys overwritten. */
  function Toggled(s: Subscription, action: Action, waived: Option<bool>, now: int): (t: Subscription) {
    match action
    case Activate =>
      s.(active := Some(true),
         activatedAt := Some(s.activatedAt.GetOr(now)),
         renewsAt := Some(now + RenewalPeriod),
         monthlyFeeCents := Some(s.monthlyFeeCents.GetOr(DefaultMonthlyFeeCents)),
         waived := Some(if waived.Some? then waived.value else s.waived.GetOr(true)))
    case Cancel =>
      s.(active := Some(false), renewsAt := None)
  }

  /**
   * `update_subscription`: 400 for a blank uid, then 400 for an unknown
   * action, then 404 for an unknown user; otherwise the user's subscription
   * is replaced by its toggled copy. `waived` is `bool(data['waived'])` when
   * the body has the key.
   */
  function UpdateSubscription(st: Db, uid: string, action: string, waived: Option<bool>, now: int): (r: Step<Subscription>)
    ensures r.reply.Err? ==> r.db == st
  {
    var u := Strip(uid);
    var a := ParseAction(action);
    if u == "" then Step(st, Err(400, UidRequired))
    else if a.None? then Step(st, Err(400, InvalidAction))
    else if u !in st.users then Step(st, Err(404, UserNotFound))
    else Toggle(st, u, a.value, waived, now)
  }

  /** The write of `update_subscription` for a known user. */
  function Toggle(st: Db, uid: string, action: Action, waived: Option<bool>, now: int): (r: Step<Subscription>)
    requires uid in st.users
    ensures r.reply.Ok?
  {
    var user := st.users[uid];
    var s := Toggled(user.subscription, action, waived, now);
    Step(st.(users := st.users[uid := user.(subscription := s)]), Ok(200, s))
  }

  // ---------------------------------------------------------------------
  // Properties

  /** An absent action means activate; otherwise the stripped, lower-cased text must be "activate" or "cancel". */
  lemma ParseActionIff(raw: string)
    ensures ParseAction(raw) == Some(Activate) <==> raw == "" || Lower(Strip(raw)) == "activate"
    ensures ParseAction(raw) == Some(Cancel) <==> raw != "" && Lower(Strip(raw)) == "cancel"
    ensures ParseAction(raw).None? <==> raw != "" && Lower(Strip(raw)) != "activate" && Lower(Strip(raw)) != "cancel"
  {
    if raw == "" {
      StripOfTrimmed("activate");
      LowerOfLowerCase("activate");
    }
  }

  /**
   * Activation: the subscription becomes active, renews 30 days from now,
   * keeps the activation time it had (or starts now), keeps or defaults the
   * monthly fee, and takes the caller's waiver or else the previous one
   * (default waived).
   */
  lemma ActivateSets(s: Subscription, waived: Option<bool>, now: int)
    ensures var t := Toggled(s, Activate, waived, now);
      && t.active == Some(true)
      && t.renewsAt == Some(now + 30 * 86400)
      && (s.activatedAt.Some? ==> t.activatedAt == s.activatedAt)
      && (s.activatedAt.None? ==> t.activatedAt == Some(now))
      && t.monthlyFeeCents == Some(if s.monthlyFeeCents.Some? then s.monthlyFeeCents.value else 100)
      && (waived.Some? ==> t.waived == waived)
      && (waived.None? ==> t.waived == Some(s.waived != Some(false)))
  {
  }

  /**
   * Cancellation turns the subscription off and clears the renewal time;
   * the waiver, the fee and the activation time stay as they were.
   */
  lemma CancelClearsRenewal(s: Subscription, now: int)
    ensures var t := Toggled(s, Cancel, None, now);
      && t.active == Some(false) && t.renewsAt.None?
      && t.waived == s.waived && t.monthlyFeeCents == s.monthlyFeeCents && t.activatedAt == s.activatedAt
  {
  }

  /** The action taken does not depend on the waiver argument when cancelling. */
  lemma CancelIgnoresWaiver(s: Subscription, w1: Option<bool>, w2: Option<bool>, t1: int, t2: int)
    ensures Toggled(s, Cancel, w1, t1) == Toggled(s, Cancel, w2, t2)
  {
  }

  /**
   * The first activation time survives later activations and cancellations:
   * activating, cancelling and activating again keeps it.
   */
  lemma ActivationTimeIsSticky(s: Subscription, w1: Option<bool>, w2: Option<bool>, t1: int, t2: int, t3: int)
    ensures var a := Toggled(s, Activate, w1, t1);
      var c := Toggled(a, Cancel, None, t2);
      var b := Toggled(c, Activate, w2, t3);
      a.activatedAt.Some? && b.activatedAt == a.activatedAt && c.activatedAt == a.activatedAt
  {
  }

  /** Activating twice at the same time with the same waiver is the same as activating once. */
  lemma ActivateIdempotent(s: Subscription, waived: Option<bool>, now: int)
    ensures Toggled(Toggled(s, Activate, waived, now), Activate, waived, now) == Toggled(s, Activate, waived, now)
  {
  }

  /**
   * `update_subscription` for a known user with a valid action changes that
   * user's subscription and nothing else in the store: the rest of the
   * user document, every other user, the markers, the orders and the
   * offerings stay.
   */
  lemma UpdateSubscriptionFrame(st: Db, uid: string, action: string, waived: Option<bool>, now: int)
    requires Strip(uid) != "" && Strip(uid) in st.users && ParseAction(action).Some?
    ensures var r := UpdateSubscription(st, uid, action, waived, now);
      var u := Strip(uid);
      && r.reply == Ok(200, Toggled(st.users[u].subscription, ParseAction(action).value, waived, now))
      && r.db == st.(users := st.users[u := st.users[u].(subscription := r.reply.value)])
  {
  }

  /** The refusals of `update_subscription`, in their order. */
  lemma UpdateSubscriptionRefusals(st: Db, uid: string, action: string, waived: Option<bool>, now: int)
    ensures var r := UpdateSubscription(st, uid, action, waived, now);
      && (Strip(uid) == "" ==> r.reply == Err(400, UidRequired))
      && (Strip(uid) != "" && ParseAction(action).None? ==> r.reply == Err(400, InvalidAction))
      && (Strip(uid) != "" && ParseAction(action).Some? && Strip(uid) !in st.users ==> r.reply == Err(404, UserNotFound))
      && (r.reply.Ok? <==> Strip(uid) != "" && ParseAction(action).Some? && Strip(uid) in st.users)
  {
  }
}
