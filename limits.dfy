/**
 * The query limits of `get_login_history` and `supply_orders`: the
 * requested `limit` (or the default of 50 when it is absent) capped from
 * above, and for the orders listing also raised to at least one.
 */
module Limits {
  import opened Documents

  const DefaultLimit := 50
  const LoginHistoryCap := 100
  const SupplyOrdersCap := 200

  /** `min(limit, 100)` with `limit` defaulting to 50. */
  function LoginHistoryLimit(requested: Option<int>): (n: int)
    ensures n <= LoginHistoryCap
    ensures requested.None? ==> n == DefaultLimit
    ensures requested.Some? && requested.value <= LoginHistoryCap ==> n == requested.value
    ensures requested.Some? && requested.value > LoginHistoryCap ==> n == LoginHistoryCap
  {
    var limit := requested.GetOr(DefaultLimit);
    if limit < LoginHistoryCap then limit else LoginHistoryCap
  }

  /** `max(1, min(limit, 200))` with `limit` defaulting to 50. */
  function SupplyOrdersLimit(requested: Option<int>): (n: int)
    ensures 1 <= n <= SupplyOrdersCap
    ensures requested.None? ==> n == DefaultLimit
    ensures requested.Some? && 1 <= requested.value <= SupplyOrdersCap ==> n == requested.value
    ensures requested.Some? && requested.value < 1 ==> n == 1
    ensures requested.Some? && requested.value > SupplyOrdersCap ==> n == SupplyOrdersCap
  {
    var limit := requested.GetOr(DefaultLimit);
    var capped := if limit < SupplyOrdersCap then limit else SupplyOrdersCap;
    if capped > 1 then capped else 1
  }

  /** The login-history limit has no lower clamp: a zero or negative request is passed on as it is. */
  lemma LoginHistoryLimitNotClampedBelow(k: int)
    requires k <= 0
    ensures LoginHistoryLimit(Some(k)) == k
    ensures SupplyOrdersLimit(Some(k)) == 1
  {
  }
}
