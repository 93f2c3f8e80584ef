# Order-and-inventory engine of the prasadam ordering API

This project models the business rules shared by the two back ends of the
prasadam ordering service: the Flask API (`api/app.py`) and the AWS Lambda
copy (`lambda/main.py`). Both keep their state in Firestore. Here the store
is the class `Documents.Firestore`. Its fields are the collections:

- `users`, `usersByPhone` and `usersByEmail` (the uniqueness markers);
- `offerings`, `futureOfferings` and `orders`;
- `tokens`, the QR-token lookup. It stands for the `where('qrToken', '==', t).limit(1)` query;
- `loginHistory`, an append-only sequence.

Every handler is written twice:

- **As a function.** It takes the store as a value (`Documents.Db`) and
  returns the new store and the HTTP reply (`Documents.Step`). Every such
  function promises that a refusal writes nothing. The modules are
  `Identity`, `Orders`, `Subscriptions`, `Analytics` and `Limits`.
- **As a method.** It reads and updates the fields of `Firestore` in place,
  in the handler's own order. It is proved to leave the store and answer
  exactly as the function says. The modules are `UserHandlers`,
  `OrderHandlers` and `SubscriptionHandlers`, plus `Analytics.Rollup`.

Lemmas about the functions then state what the handlers promise:

- the refusals and their order;
- the writes;
- the invariants kept. These are `Inv`: quantities are not negative and the
  token lookup agrees with the orders. They are also `PhonesMarked` and
  `EmailsMarked`: every user holds its own markers;
- the inventory ledger: shelf quantity plus live orders.

Where the code does something one might not expect, the model states it and
proves it:

- a cancelled order can still be collected;
- its collection breaks the ledger;
- unregistering leaves the markers behind;
- the two registration paths together allow a duplicate phone;
- email keys collide.

Shared shapes:

- **Request parsing.** Strings read with `.get(k) or ''` are `string`s, and
  "" means absent or empty. `strip`, `lower`, `\d` and `\s` are their ASCII
  versions. Both validators are `re.match` with `$`, so each also accepts one
  trailing newline.
- **Time.** Times are integer seconds. The current time is the parameter
  `now`.
- **Fresh ids.** Ids from `uuid4()` and `document()` are parameters: `orderId`, `qrToken` and `newId`.
- **Shared handlers.** `create_order`, `cancel_order`, `validate_order_qr`,
  `update_subscription` and `supply_analytics` do the same thing in both
  back ends. Each is modelled once, and the table below cites both copies.

## Model

| member | source | states |
|---|---|---|
| Validation.ValidPhone | api/app.py:119-122 | `validate_phone` as the regular expression scans it: `+`, a run of digits whose length is 10 to 15, then the end or one newline; `Validation.ValidPhoneIff` characterises it |
| Validation.ValidPhoneIff | api/app.py:119-122 | `validate_phone` holds exactly for `+` followed by 10 to 15 ASCII digits, optionally followed by one final newline; the Lambda copy at lambda/main.py:118-121 is the same |
| Validation.ValidEmail | api/app.py:113-116 | `validate_email` as the regular expression scans it: a greedy local part, `@`, and a greedy domain holding an inner dot, then the end or one newline; `Validation.ValidEmailIff` characterises it |
| Validation.ValidEmailIff | api/app.py:113-116 | split at any `@` of the matched part, an address is valid exactly when the part before is non-empty with no whitespace or `@`, and the part after has no whitespace or `@` and holds a dot with a character on each side; the Lambda copy at lambda/main.py:112-115 is the same |
| Validation.NormalizePhoneForPath | api/app.py:125-130 | the phone marker key holds no `+` |
| Validation.PhoneKeyInjective | api/app.py:125-130 | distinct valid phones get distinct marker keys |
| Validation.NormalizeEmailForPath | api/app.py:133-138 | the email marker key holds no `@`, no `.` and no upper-case letter |
| Validation.EmailKeysCollide | api/app.py:133-138 | `x.y` and `x_dot_y` are different addresses with the same marker key |
| Identity.FirstMissing | api/app.py:232-238 | the field reported is missing and every field before it in the list is present, so it is the first missing one; none is reported exactly when all five are present and non-empty |
| UserHandlers.FindMissing | api/app.py:232-238 | the required-fields loop returns the first missing field, as `FirstMissing` defines it; the Lambda copy at lambda/main.py:285-291 is the same |
| Identity.CreateWithLogin | api/app.py:214-366 | `create_user_with_login`: 400 for the first missing field, then the checks and writes of `AdmitWithMarkers`; a refusal leaves the store unchanged |
| Identity.AdmitWithMarkers | api/app.py:246-337 | the format checks of `create_user_with_login`, then its transaction; a refusal leaves the store unchanged |
| Identity.CommitWithMarkers | api/app.py:271-337 | the transaction of `create_user_with_login` (uid, phone marker, email marker, then the four writes); a refusal leaves the store unchanged |
| Identity.AdmitWithMarkersConflicts | api/app.py:246-289 | the refusals of `create_user_with_login` in their order: 400 for a malformed email, then a malformed phone; 409 for an existing uid, then a phone marker, then an email marker. It succeeds exactly when none applies |
| Identity.AdmitWithMarkersWrites | api/app.py:291-335 | success answers 201 with the user built from the profile: uid, name, email, phone and address as read, no role, subscription active=false, waived=true, 100 cents a month and no renewal. The new store is the old one with that user, both markers pointing at the uid and exactly one login entry (user agent "unknown" by default) added, and nothing else changed |
| Identity.CommitWithMarkersKeepsMarked | api/app.py:271-337 | the transaction keeps every user holding its own phone and email markers |
| Identity.CreateWithLoginKeepsMarked | api/app.py:214-366 | `create_user_with_login` keeps every user holding its own phone and email markers |
| UserHandlers.CreateUserWithLogin | api/app.py:228-366 | the handler leaves the store and replies as `Identity.CreateWithLogin` says, and keeps the marker invariants |
| UserHandlers.CreateUserTransaction | api/app.py:271-337 | the transaction leaves the store and replies as `Identity.CommitWithMarkers` says |
| Identity.MarkedPhonesDistinct | api/app.py:309-317 | while every user holds its phone marker, no two users share a phone number |
| Identity.Register | api/app.py:369-479 | `register_user`: 400 for the first missing field, then the checks and the write of `AdmitLoose`; a refusal leaves the store unchanged |
| Identity.AdmitLoose | api/app.py:400-460 | the format checks, the uid read and the phone and email queries of `register_user`, then the user write; a refusal leaves the store unchanged |
| Identity.AdmitLooseWritesNoMarkers | api/app.py:400-460 | `register_user` checks the formats, the uid and the phone and email by query; it writes only the user document, with no marker and no login entry; a user it admits breaks the phone-marker invariant |
| Identity.LoosePathAllowsDuplicatePhone | api/app.py:414-460 | after `register_user` admits a phone, `create_user_with_login` admits the same phone for another uid |
| UserHandlers.RegisterUser | api/app.py:383-460 | the handler leaves the store and replies as `Identity.Register` says |
| UserHandlers.RegisterProfile | api/app.py:400-460 | the checks and the write of `register_user` leave the store and reply as `Identity.AdmitLoose` says |
| Identity.Update | api/app.py:693-817 | `update_user`: 400 for a blank uid, 400 for an empty body, 404 for an unknown user, then `ApplyChanges`; a refusal leaves the store unchanged |
| Identity.ApplyChanges | api/app.py:729-797 | the email format check of `update_user`, then its writes; a refusal leaves the store unchanged |
| Identity.CommitChanges | api/app.py:748-797 | the email-marker check and the writes of `update_user`; a refusal leaves the store unchanged |
| Identity.ApplyChangesOutcome | api/app.py:729-788 | `update_user` on an existing user: 400 for a malformed new email, 409 when a changed email's marker exists, 400 when no field is left, and success exactly otherwise; on success it answers 200, each non-blank field replaces the stored one, and nothing but that user and the email markers changes |
| Identity.UpdateWithoutFieldsRefused | api/app.py:783-788 | a body without a non-blank name, email or address gets 400 and no write |
| Identity.SwapEmailMarker | api/app.py:760-773 | after the swap the new email's key points at the user, the old email's key is gone unless the two share it, and every other key keeps its marker |
| Identity.CommitChangesSwapsEmailMarker | api/app.py:747-776 | an email change creates the new email's marker for the uid and removes the old email's key whoever it points at; every other marker stays |
| Identity.CommitChangesKeepsPhoneAndMarked | api/app.py:747-797 | the writes of `update_user` store the changed user in place, never change the phone or the phone markers, and keep every user holding its own markers |
| Identity.UpdateKeepsPhoneAndMarked | api/app.py:693-817 | `update_user` stores the changed user in place of the old one and never changes its phone number, in the reply or in the store; every user keeps holding its own markers |
| UserHandlers.UpdateUser | api/app.py:705-797 | the handler leaves the store and replies as `Identity.Update` says, and keeps the marker invariants |
| UserHandlers.ApplyUserChanges | api/app.py:729-797 | the field-by-field update with its marker swap leaves the store and replies as `Identity.ApplyChanges` says |
| Identity.Unregister | api/app.py:2076-2118 | `unregister_user`: 400 for a blank uid, 404 for an unknown one, otherwise the user document is deleted; a refusal leaves the store unchanged |
| Identity.UnregisterLeavesMarkers | api/app.py:2076-2118 | `unregister_user` answers 400 for a blank uid and 404 for an unknown one; otherwise it answers 200 and the new store is the old one without that user document, with every other collection, the markers included, unchanged; the marker invariants still hold |
| Identity.ReRegistrationAfterUnregisterConflicts | api/app.py:2105 | after registering and unregistering, the same profile is refused with 409 "phone taken" |
| UserHandlers.UnregisterUser | api/app.py:2086-2110 | the handler leaves the store and replies as `Identity.Unregister` says |
| Identity.LambdaCreateWithLogin | lambda/main.py:281-347 | the Lambda `create_user_with_login`: 400 for the first missing field, then `LambdaAdmit`; a refusal leaves the store unchanged |
| Identity.LambdaAdmit | lambda/main.py:300-331 | the Lambda create transaction; a refusal leaves the store unchanged |
| Identity.LambdaAdmitOnlyChecksUid | lambda/main.py:300-331 | the Lambda create conflicts only on an existing uid, with a 400; success writes the user with role "student" and no subscription, plus one login entry; no marker is read or written |
| UserHandlers.LambdaCreateUserWithLogin | lambda/main.py:281-347 | the handler leaves the store and replies as `Identity.LambdaCreateWithLogin` says |
| UserHandlers.LambdaCreateUserTransaction | lambda/main.py:301-331 | the transaction leaves the store and replies as `Identity.LambdaAdmit` says |
| Identity.LambdaUpdateProfile | lambda/main.py:380-413 | the Lambda `update_user_profile`; a refusal leaves the store unchanged |
| Identity.LambdaUpdateProfileFields | lambda/main.py:383-404 | 404 exactly for an unknown user; otherwise 200, and each of name, email and address the body carries is stored stripped (the email also lower-cased), blank or not; absent keys keep their values; nothing else of the user changes (the phone included) and nothing else in the store changes (the markers included) |
| UserHandlers.LambdaUpdateUserProfile | lambda/main.py:380-413 | the handler leaves the store and replies as `Identity.LambdaUpdateProfile` says |
| Orders.CreateOrder | api/app.py:863-891 | `create_order`: 400 when the stripped uid or offering id is blank, then `PlaceOrder`; a refusal leaves the store unchanged; the Lambda copy at lambda/main.py:692-711 is the same |
| Orders.PlaceOrder | api/app.py:892-945 | the create-order transaction; a refusal leaves the store unchanged |
| Orders.OrderOwner | api/app.py:919 | the owner a new order records is `ownerUid`, else `owner`, else `owner_id`, and is absent only when all three are; the Lambda copy at lambda/main.py:738 is the same |
| Orders.PlaceOrderOutcome | api/app.py:892-945 | the create-order transaction refuses without writing, in order: unknown user, unknown offering, status not available/open, no stock. On success the quantity drops by exactly 1 and stays non-negative, the status is sold-out exactly when none is left, and one pending order is stored carrying the offering's title, fee and refund flag, the owner `OrderOwner` picks and the user's waiver (default waived); nothing else changes; the Lambda copy at lambda/main.py:712-764 is the same |
| Orders.PlaceOrderKeepsInv | api/app.py:892-945 | with a fresh order id and token, `create_order` keeps quantities non-negative and the token lookup consistent |
| Orders.PlaceOrderKeepsLedger | api/app.py:928-945 | `create_order` moves a unit from the shelf to a live order, so every offering's shelf-plus-live-orders total is unchanged |
| OrderHandlers.CreateOrder | api/app.py:863-972 | the handler leaves the store and replies as `Orders.CreateOrder` says, and keeps `Inv` given fresh ids; the Lambda copy at lambda/main.py:692-790 is the same |
| OrderHandlers.CreateOrderTransaction | api/app.py:892-945 | the transaction leaves the store and replies as `Orders.PlaceOrder` says |
| Orders.CancelOrder | api/app.py:1773-1797 | `cancel_order`: 400 for a blank uid, then for a blank order id, then `Withdraw`; a refusal leaves the store unchanged |
| Orders.Withdraw | api/app.py:1798-1858 | the ownership and status checks of `cancel_order`, the order write and the unit restore; a refusal leaves the store unchanged |
| Orders.RestoreUnit | api/app.py:1840-1858 | an existing offering gains exactly one unit and flips from sold-out to available when it then has stock; a blank or unknown offering id changes nothing |
| Orders.WithdrawOutcome | api/app.py:1800-1837 | `cancel_order` refuses an unknown order (404), another user's order (403) and a collected, completed, cancelled or refunded one (400); otherwise it answers 200 with the order cancelled at `now`, and the new store is the old one with that order replaced and its offering's unit restored, and nothing else changed; the Lambda copy at lambda/main.py:868-921 is the same |
| Orders.WithdrawTwice | api/app.py:1817-1824 | a second cancellation of the same order is refused and restores nothing |
| Orders.WithdrawKeepsInv | api/app.py:1801-1858 | `cancel_order` keeps `Inv` |
| Orders.WithdrawKeepsLedger | api/app.py:1825-1858 | cancelling moves the order's unit back to the shelf, so every ledger is unchanged |
| OrderHandlers.CancelOrder | api/app.py:1773-1897 | the handler leaves the store and replies as `Orders.CancelOrder` says, and keeps `Inv`; the Lambda copy at lambda/main.py:851-949 is the same |
| OrderHandlers.WithdrawOrder | api/app.py:1825-1858 | the order write, then the separate offering read-modify-write, leave the store as `Orders.Withdraw` says |
| Orders.ValidateQr | api/app.py:1724-1736 | `validate_order_qr`: 400 when the stripped owner uid or token is blank, then `Collect`; a refusal leaves the store unchanged |
| Orders.Collect | api/app.py:1737-1757 | the token lookup, the owner and status checks and the collect write; a refusal leaves the store unchanged |
| Orders.CollectOutcome | api/app.py:1737-1757 | `validate_order_qr`: 404 for an unknown token, 403 for an order recording another owner (no check when it records none), 409 when collected or completed, success exactly otherwise; on success 200 with the order collected at `now`, and the new store is the old one with only that order replaced; the Lambda copy at lambda/main.py:964-993 is the same |
| Orders.CollectTwice | api/app.py:1748-1750 | an order is collected at most once: a second scan of its code answers 409 and writes nothing |
| Orders.CancelledOrderIsCollectable | api/app.py:1748-1750 | a cancelled order is not refused: its QR code collects it |
| Orders.CollectAfterCancelBreaksLedger | api/app.py:1748-1757 | collecting a cancelled order raises its offering's ledger by one, because the cancellation already restored the unit |
| Orders.CollectLiveKeepsLedger | api/app.py:1748-1757 | collecting an order that was not cancelled leaves every ledger unchanged |
| Orders.CollectFindsTheTokensOrder | api/app.py:1737-1741 | under the invariant, the token lookup finds the one order carrying the token, and that order is the one collected |
| Orders.CollectKeepsInv | api/app.py:1737-1757 | `validate_order_qr` keeps `Inv` |
| OrderHandlers.ValidateOrderQr | api/app.py:1724-1770 | the handler leaves the store and replies as `Orders.ValidateQr` says, and keeps `Inv`; the Lambda copy at lambda/main.py:952-1011 is the same |
| OrderHandlers.CollectOrder | api/app.py:1737-1757 | the lookup and the write leave the store as `Orders.Collect` says |
| Orders.Publish | api/app.py:1320-1329 | `publish_offering_from_future`: 400 when the stripped uid or announcement id is blank, then `Launch`; a refusal leaves the store unchanged |
| Orders.Launch | api/app.py:1330-1373 | the quantity and ownership checks and the two writes of publishing; a refusal leaves the store unchanged |
| Orders.LaunchOutcome | api/app.py:1330-1373 | publishing refuses a non-positive quantity (400), an unknown announcement (404) and another owner's (403), and succeeds exactly otherwise. It then answers 201 with a new available offering owned by the caller, with the requested quantity, fee and refund flag, the announcement's title ("Prasadam offering" when it has none) and description, available from the scheduled time or else now. The new store adds that offering and links the announcement to it, and changes nothing else |
| Orders.LaunchTwice | api/app.py:1366-1373 | an announcement already published can be published again, creating a second offering |
| Orders.PublishKeepsInv | api/app.py:1330-1364 | publishing keeps `Inv`: the only offerings it creates have positive quantity |
| OrderHandlers.PublishOffering | api/app.py:1307-1386 | the handler leaves the store and replies as `Orders.Publish` says, and keeps `Inv` |
| OrderHandlers.LaunchOffering | api/app.py:1330-1370 | the checks and the two writes leave the store as `Orders.Launch` says |
| Orders.UpdateOffering | api/app.py:1442-1474 | `update_supply_offering`: 400 for a blank uid or offering id, 404 for an unknown offering, 403 for another owner's, then `Revise`; a refusal leaves the store unchanged |
| Orders.Patched | api/app.py:1476-1499 | applying a patch never changes the owner, and never makes a non-negative quantity or fee negative |
| Orders.Revise | api/app.py:1476-1506 | the update of `update_supply_offering` for an owned offering; a refusal leaves the store unchanged |
| Orders.ReviseOutcome | api/app.py:1476-1506 | `update_supply_offering` on an owned offering: 400 with no write when the body has nothing usable; otherwise 200, and exactly that offering is replaced. Each field takes the body's value when it carries a usable one (title non-blank after stripping, description stripped, status stripped and lower-cased, quantity and fee not negative, refund flag, parsed availability) and keeps its old value otherwise; the owner never changes |
| Orders.ReviseKeepsInv | api/app.py:1483-1496 | `update_supply_offering` keeps `Inv`: it stores only quantities that are not negative |
| OrderHandlers.UpdateSupplyOffering | api/app.py:1442-1521 | the handler leaves the store and replies as `Orders.UpdateOffering` says, and keeps `Inv` |
| OrderHandlers.ReviseOffering | api/app.py:1476-1506 | the update assembled key by key, and its write, leave the store as `Orders.Revise` says |
| Subscriptions.ParseAction | api/app.py:2012 | the action as `update_subscription` reads it; `Subscriptions.ParseActionIff` characterises it |
| Subscriptions.Toggled | api/app.py:2038-2052 | the subscription after an action; `ActivateSets` and `CancelClearsRenewal` state what each action writes |
| Subscriptions.ParseActionIff | api/app.py:2011-2024 | an absent action means activate; otherwise the stripped, lower-cased action must be "activate" or "cancel" |
| Subscriptions.ActivateSets | api/app.py:2041-2049 | activation sets active, renews 30 days from now, keeps an existing activation time, keeps or defaults the 100-cent fee, and takes the caller's waiver or else the previous one (default waived) |
| Subscriptions.CancelClearsRenewal | api/app.py:2050-2052 | cancelling sets active=false and renewsAt to none, and keeps the other keys |
| Subscriptions.CancelIgnoresWaiver | api/app.py:2050-2052 | cancelling writes the same subscription whatever the waiver and the time |
| Subscriptions.ActivationTimeIsSticky | api/app.py:2043 | the first activation time survives a cancellation and a second activation |
| Subscriptions.ActivateIdempotent | api/app.py:2041-2049 | activating twice at the same time is activating once |
| Subscriptions.UpdateSubscription | api/app.py:1997-2073 | `update_subscription`; a refusal leaves the store unchanged |
| Subscriptions.Toggle | api/app.py:2034-2058 | the subscription write for a known user never refuses |
| Subscriptions.UpdateSubscriptionRefusals | api/app.py:2014-2032 | 400 for a blank uid, then 400 for an unknown action, then 404 for an unknown user; success exactly otherwise |
| Subscriptions.UpdateSubscriptionFrame | api/app.py:2034-2058 | on success 200 with the toggled subscription, and the new store is the old one with only that user's subscription replaced |
| SubscriptionHandlers.UpdateSubscription | api/app.py:1997-2073 | the handler leaves the store and replies as `Subscriptions.UpdateSubscription` says; the Lambda copy at lambda/main.py:1014-1079 is the same |
| Analytics.Summary | api/app.py:1613-1643 | the dashboard metrics, each counter defined by recursion over the fetched documents; `SummaryBounds` states how they relate |
| Analytics.Rollup | api/app.py:1613-1643 | the two counting loops compute exactly `Summary` of the fetched orders and offerings; the Lambda copy at lambda/main.py:1552-1582 is the same |
| Analytics.TallyOrders | api/app.py:1613-1624 | the orders loop computes the total, the pending, collected and refunded counts, the fee total and the set of students exactly as `Summary` defines them |
| Analytics.TallyOfferings | api/app.py:1631-1643 | the offerings loop computes the active and upcoming counts exactly as `Summary` defines them |
| Analytics.SupplyAnalytics | api/app.py:1561-1662 | 400 for a blank uid, otherwise 200 with the metrics |
| Analytics.PendingPlusCollectedBounded | api/app.py:1614-1619 | pending plus collected orders never exceed the total |
| Analytics.RefundedWithinCollected | api/app.py:1618-1621 | refunded orders are among the collected ones |
| Analytics.StudentsWithinOrders | api/app.py:1613-1624 | there are at most as many distinct students as orders |
| Analytics.SumFeesAppend | api/app.py:1622 | the fee total adds up over any split of the orders |
| Analytics.FeesIncludeCancelled | api/app.py:1615-1622 | a cancelled order still adds its fee to the total, and adds to neither the pending nor the collected counter |
| Analytics.ActiveCountIsOpenPositions | api/app.py:1636-1637 | the active counter equals the number of positions whose offering has status available or open |
| Analytics.ActiveCountsOpenOfferings | api/app.py:1636-1637 | the active counter counts exactly the offerings whose status is available or open: it equals the size of that set of positions, is at most the number of offerings, is all of them iff every one is open and zero iff none is |
| Analytics.SummaryBounds | api/app.py:1613-1643 | the dashboard's counters respect each other |
| Limits.LoginHistoryLimit | api/app.py:615-616 | the login-history limit is the request (default 50) capped at 100; the Lambda copy at lambda/main.py:616-617 is the same |
| Limits.SupplyOrdersLimit | api/app.py:1674-1675 | the supply-orders limit is the request (default 50) clamped to 1..200, and is the request itself inside that range; the Lambda copy at lambda/main.py:1609-1610 is the same |
| Limits.LoginHistoryLimitNotClampedBelow | api/app.py:616 | a zero or negative login-history limit is passed on as it is |
| Documents.TokensUnique | api/app.py:1737-1741 | under the token invariant, no two orders share a QR token, so the `limit(1)` query has one answer |

## Left out

- Flask app setup, CORS hooks, and the Firebase and Secrets Manager initialisation: framework and credential I/O.
- The Lambda `handler` dispatcher and all routing.
- `serialize_timestamp` and `parse_iso_datetime`; server timestamps (`createdAt`, `updatedAt`, the login time, `publishedAt`). Times the engine compares are integers, and `now` is a parameter.
- Analytics.CountUpcoming: an unparsable `availableAt` is not modelled; every stored availability time is an integer.
- `get_client_ip_address`, `validate_ip_address` and the user agent header: the IP and the user agent are opaque parameters.
- `uuid4()` and `document()`: the fresh ids are parameters. Keeping `Inv` after `create_order` is proved for a fresh order id and token.
- Transactions and concurrency: each transactional function is one atomic method. `cancel_order`'s two writes are sequential in one method, with no interleaving modelled.
- The 500 replies from Firestore or runtime exceptions, including a request body that is missing or holds non-string values.
- Orders.Withdraw: when the offering restore of `cancel_order` raises, the code still answers 200 with the order cancelled and no unit restored (api/app.py:1862-1867, lambda/main.py:922); the model has no store failures, so the restore always happens.
- Replies carry the stored document, not the serialized view. `create_user_with_login` replies with only four of the user's fields. The sensitive-field filter of `update_user` is not modelled.
- List endpoints, `get_user`, `check_user`, `record_login`, and the body of `get_login_history` and `supply_orders` beyond their limit clamps: these are store queries, ordering fallbacks and display sorting.
- Analytics.Rollup: which documents the owner queries return (owner filter, limits of 200 and 100, order) is an input, not modelled.
- Supply batches, future-offering CRUD, deleting offerings, and custom QR codes: plain owner-checked writes outside the engine.
- The Lambda copies of `register_user`, `unregister_user`, `publish_offering_from_future` and `update_supply_offering`: not part of this model.
- The `sourceFutureOfferingId` and `publishedAt` fields of a published offering: no rule reads them.
- Orders.ValidateQr: the QR lookup is the `tokens` map, which stands for the `qrToken` query. `Inv` ties the two together.
- Non-ASCII whitespace, case mapping and Unicode digits in `strip`, `lower`, `\s` and `\d`.
- api/seed_firestore.py and lambda/handler.py are not part of this model.

## Behaviour worth knowing

These are proved as lemmas about the code as written:

- A cancelled order can still be collected. Its unit was already restored, so the ledger gains one (`Orders.CollectAfterCancelBreaksLedger`).
- Cancelling a subscription sets `renewsAt` to none, rather than leaving it (`Subscriptions.CancelClearsRenewal`).
- The fee total counts cancelled orders too (`Analytics.FeesIncludeCancelled`).
- `create_order` answers an unknown user with 400, not 404 (`Orders.PlaceOrderOutcome`).
- `unregister_user` leaves both markers. The same phone can then never register again through `create_user_with_login` (`Identity.ReRegistrationAfterUnregisterConflicts`).
- `register_user` writes no markers. It and `create_user_with_login` together admit two users with one phone (`Identity.LoosePathAllowsDuplicatePhone`).
- Marker keys for emails are not injective (`Validation.EmailKeysCollide`).
- `update_user` deletes the old email's marker key whoever it points at (`Identity.CommitChangesSwapsEmailMarker`).
- An announcement can be published twice (`Orders.LaunchTwice`).
- The login-history limit has no lower clamp (`Limits.LoginHistoryLimitNotClampedBelow`).
