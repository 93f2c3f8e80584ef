/**
 * The documents of the store both back ends share (the Firestore collections
 * `users`, `users_by_phone`, `users_by_email`, `offerings`,
 * `futureOfferings`, `orders` and `loginHistory`), the replies the handlers
 * send, and the store itself as an object whose collections the handlers
 * update in place.
 *
 * A string field the code reads with `.get(k) or ''` is modelled as a
 * `string` in which "" stands for both "absent" and "empty". Server
 * timestamps (`createdAt`, `updatedAt`, login `timestamp`) are not modelled;
 * the timestamps the engine reasons about are integers (seconds) taken from
 * a `now` parameter.
 */
module Documents {
  import opened Text

  datatype Option<T> = None | Some(value: T) {
    function GetOr(default: T): T {
      if Some? then value else default
    }
  }

  /**
   * The `subscription` map of a user document. Every key may be absent: a
   * user written by the Lambda back end has no subscription at all, which
   * the handlers read as `{}`.
   */
  datatype Subscription = Subscription(
    active: Option<bool>,
    waived: Option<bool>,
    monthlyFeeCents: Option<int>,
    renewsAt: Option<int>,
    activatedAt: Option<int>)

  const NoSubscription := Subscription(None, None, None, None, None)

  datatype User = User(
    uid: string,
    name: string,
    email: string,
    phoneNumber: string,
    address: string,
    role: Option<string>,
    subscription: Subscription)

  /** A uniqueness marker: `users_by_phone/<key>` or `users_by_email/<key>`. */
  datatype Marker = Marker(uid: string, value: string)

  /** A `loginHistory` entry; the Lambda back end records neither phone nor user agent. */
  datatype LoginEntry = LoginEntry(
    uid: string,
    phoneNumber: Option<string>,
    userAgent: Option<string>,
    ipAddress: string)

  /**
   * An `offerings` document. `owner` and `ownerId` are the older spellings of
   * the owner key (`owner`, `owner_id`) that some documents still carry.
   */
  datatype Offering = Offering(
    ownerUid: string,
    owner: string,
    ownerId: string,
    title: string,
    description: string,
    status: string,
    availableQuantity: int,
    feeCents: int,
    launchFeeRefund: bool,
    availableAt: Option<int>)

  /** A `futureOfferings` document, the announcement an offering is published from. */
  datatype FutureOffering = FutureOffering(
    ownerUid: string,
    title: string,
    description: string,
    scheduledAt: Option<int>,
    publishedOfferingId: Option<string>)

  datatype Order = Order(
    orderId: string,
    uid: string,
    offeringId: string,
    offeringTitle: string,
    ownerUid: string,
    status: string,
    feeCents: int,
    feeRefundEligible: bool,
    subscriptionWaived: bool,
    qrToken: string,
    cancelledAt: Option<int>,
    collectedAt: Option<int>)

  /**
   * A snapshot of the whole store. `tokens` is the lookup the
   * `where('qrToken', '==', t)` query performs, kept as an index from QR token
   * to order id.
   */
  datatype Db = Db(
    users: map<string, User>,
    usersByPhone: map<string, Marker>,
    usersByEmail: map<string, Marker>,
    offerings: map<string, Offering>,
    futureOfferings: map<string, FutureOffering>,
    orders: map<string, Order>,
    tokens: map<string, string>,
    loginHistory: seq<LoginEntry>)

  /** Why a handler refused a request. */
  datatype Reason =
    | MissingField(field: string)
    | UidRequired
    | IdsRequired
    | BodyRequired
    | OrderIdRequired
    | OfferingIdRequired
    | InvalidEmail
    | InvalidPhone
    | UserExists
    | PhoneTaken
    | EmailTaken
    | UserNotFound
    | OfferingNotFound
    | FutureOfferingNotFound
    | OfferingNotAvailable
    | SoldOut
    | OrderNotFound
    | NotOwner
    | CannotCancel(status: string)
    | TokenNotFound
    | AlreadyCollected
    | InvalidAction
    | NoValidFields
    | QuantityNotPositive

  /** A handler's HTTP reply: a status code with either a payload or a reason. */
  datatype Reply<T> = Ok(code: int, value: T) | Err(code: int, reason: Reason)

  /** The store after a handler ran, and its reply. */
  datatype Step<T> = Step(db: Db, reply: Reply<T>)

  /** `(data.get('status') or 'pending').lower()` for an order. */
  function OrderStatus(o: Order): (status: string) {
    Lower(if o.status == "" then "pending" else o.status)
  }

  /** `(data.get('status') or '').lower()` for an offering. */
  function OfferingStatus(o: Offering): (status: string) {
    Lower(o.status)
  }

  /** The offering statuses an order can be placed against. */
  predicate IsOpenForOrders(status: string) {
    status == "available" || status == "open"
  }

  /** Every offering holds a non-negative quantity. */
  ghost predicate QuantitiesNonNegative(st: Db) {
    forall id :: id in st.offerings ==> st.offerings[id].availableQuantity >= 0
  }

  /** The token index agrees with the orders, so each QR token names at most one order. */
  ghost predicate TokenIndexed(st: Db) {
    && (forall t :: t in st.tokens ==> st.tokens[t] in st.orders && st.orders[st.tokens[t]].qrToken == t)
    && (forall id :: id in st.orders ==> st.orders[id].qrToken in st.tokens && st.tokens[st.orders[id].qrToken] == id)
  }

  /** The invariant the engine's writes keep. */
  ghost predicate Inv(st: Db) {
    QuantitiesNonNegative(st) && TokenIndexed(st)
  }

  /** Under the invariant, no two orders share a QR token. */
  lemma TokensUnique(st: Db, a: string, b: string)
    requires TokenIndexed(st)
    requires a in st.orders && b in st.orders && st.orders[a].qrToken == st.orders[b].qrToken
    ensures a == b
  {
  }

  /** The document store the handlers read and write (the `db` client). */
  class Firestore {
    var users: map<string, User>
    var usersByPhone: map<string, Marker>
    var usersByEmail: map<string, Marker>
    var offerings: map<string, Offering>
    var futureOfferings: map<string, FutureOffering>
    var orders: map<string, Order>
    var tokens: map<string, string>
    var loginHistory: seq<LoginEntry>

    constructor (init: Db)
      ensures Snapshot() == init
    {
      users := init.users;
      usersByPhone := init.usersByPhone;
      usersByEmail := init.usersByEmail;
      offerings := init.offerings;
      futureOfferings := init.futureOfferings;
      orders := init.orders;
      tokens := init.tokens;
      loginHistory := init.loginHistory;
    }

    /** The value of every collection. */
    function Snapshot(): Db
      reads this
    {
      Db(users, usersByPhone, usersByEmail, offerings, futureOfferings, orders, tokens, loginHistory)
    }
  }
}
