/**
 * The RevenueCat webhook reconciler (services/go/pkg/sapps/service/revenuecat_service.go)
 * as pure functions over the three tables it writes:
 *
 *   revenuecat_logs : event id       -> log entry
 *   premium_data    : transaction id -> (premium_type, created_date, expire_date?)
 *   users           : firebase_id    -> premium_id?
 *
 * Each SQL statement of the service is one map update below; each service
 * function is the composition of its statements, in source order, with no
 * transaction around them (a failing step keeps the earlier writes).
 * The store itself is total: database failures are not modelled.
 * Times are milliseconds since the Unix epoch; `now` is a parameter.
 */
module Entitlements {
  import opened Wrappers

  type UserId = string
  type TxnId = string

  /** The 24-hour grace period given by PRODUCT_CHANGE, in milliseconds. */
  const DayMs: int := 24 * 60 * 60 * 1000

  /** Log key shared by every event that carries no id at all. */
  const SentinelEventId: string := "tt"

  /** The nested `event` object of a webhook call (prices are left out). */
  datatype EventBody = EventBody(
    id: Option<string>,
    appUserId: UserId,
    originalAppUserId: UserId,
    productId: string,
    newProductId: string,
    currency: string,
    purchasedAtMs: int,
    expirationAtMs: int,
    store: string,
    environment: string,
    transactionId: TxnId,
    originalTransactionId: TxnId,
    eventType: string,
    transferredTo: seq<UserId>,
    transferredFrom: seq<UserId>)

  /** A webhook payload: an optional top-level id and the event. */
  datatype Event = Event(id: Option<string>, event: EventBody)

  /** One row of revenuecat_logs; `otherData` is the whole event body. */
  datatype LogEntry = LogEntry(
    appUserId: UserId,
    originalAppUserId: UserId,
    productId: string,
    currency: string,
    purchasedAtMs: int,
    expirationAtMs: int,
    store: string,
    environment: string,
    transactionId: TxnId,
    originalTransactionId: TxnId,
    otherData: EventBody,
    eventType: string,
    userId: UserId)

  /** One row of premium_data; `expireDate == None` is SQL NULL. */
  datatype Premium = Premium(premiumType: string, createdDate: int, expireDate: Option<int>)

  datatype Tables = Tables(
    logs: map<string, LogEntry>,
    premium: map<TxnId, Premium>,
    users: map<UserId, Option<TxnId>>)

  /** NoRows: a QueryRow found no user; NoTransactionId: a TRANSFER had nothing to move. */
  datatype Error = NoRows | NoTransactionId

  datatype Outcome = Ok | Fail(error: Error)

  // ---------------------------------------------------------------------
  // Event classification
  // ---------------------------------------------------------------------

  /** The log key: the top-level id, else the nested event id, else "tt". */
  function EventId(e: Event): string {
    if e.id.Some? then e.id.value
    else if e.event.id.Some? then e.event.id.value
    else SentinelEventId
  }

  /** PRODUCT_CHANGE is keyed by the new product, every other type by product_id. */
  function ProductIdOf(e: Event): string {
    if e.event.eventType == "PRODUCT_CHANGE" then e.event.newProductId else e.event.productId
  }

  /** The product id cut at its first ':' (an offer variant suffix). */
  function PlanType(p: string): (r: string)
    ensures ':' !in r
    ensures r <= p
    ensures |r| < |p| ==> p[|r|] == ':'
  {
    if p == [] then []
    else if p[0] == ':' then []
    else [p[0]] + PlanType(p[1..])
  }

  /** An end date in milliseconds; 0 or less means "does not expire". */
  function EndDate(ms: int): Option<int> {
    if ms > 0 then Some(ms) else None
  }

  predicate IsPremiumUpdateType(t: string) {
    t == "INITIAL_PURCHASE" || t == "RENEWAL" || t == "CANCELLATION"
    || t == "EXPIRATION" || t == "NON_RENEWING_PURCHASE"
  }

  predicate IsRecognisedType(t: string) {
    IsPremiumUpdateType(t) || t == "PRODUCT_CHANGE" || t == "TRANSFER"
  }

  function LogEntryOf(e: Event, productId: string): LogEntry {
    var b := e.event;
    LogEntry(b.appUserId, b.originalAppUserId, productId, b.currency, b.purchasedAtMs,
             b.expirationAtMs, b.store, b.environment, b.transactionId,
             b.originalTransactionId, b, b.eventType, b.appUserId)
  }

  // ---------------------------------------------------------------------
  // SQL statements as map updates
  // ---------------------------------------------------------------------

  /** INSERT ... ON CONFLICT DO NOTHING. */
  function InsertIfAbsent<K, V>(m: map<K, V>, k: K, v: V): (r: map<K, V>)
    ensures r.Keys == m.Keys + {k}
    ensures r[k] == (if k in m then m[k] else v)
    ensures forall j :: j in m ==> r[j] == m[j]
  {
    if k in m then m else m[k := v]
  }

  /** UPDATE users SET premium_id = NULL WHERE premium_id = txn. */
  function ClearHolders(users: map<UserId, Option<TxnId>>, txn: TxnId): (r: map<UserId, Option<TxnId>>)
    ensures r.Keys == users.Keys
    ensures forall u :: u in r ==> r[u] != Some(txn)
    ensures forall u :: u in users ==> r[u] == users[u] || r[u] == None
    ensures forall u :: u in users && users[u] != Some(txn) ==> r[u] == users[u]
  {
    map u | u in users :: if users[u] == Some(txn) then None else users[u]
  }

  /** UPDATE users SET premium_id = v WHERE firebase_id = user: at most one row changes. */
  function SetPremiumId(users: map<UserId, Option<TxnId>>, user: UserId, v: Option<TxnId>): (r: map<UserId, Option<TxnId>>)
    ensures r.Keys == users.Keys
    ensures user in users ==> r[user] == v
    ensures forall u :: u in users && u != user ==> r[u] == users[u]
  {
    if user in users then users[user := v] else users
  }

  /** UPDATE users SET firebase_id = to WHERE firebase_id = from; no account is created. */
  function RenameUser(users: map<UserId, Option<TxnId>>, from: UserId, to: UserId): (r: map<UserId, Option<TxnId>>)
    requires to !in users
    ensures from in users ==> r.Keys == users.Keys - {from} + {to} && r[to] == users[from]
    ensures from !in users ==> r == users
    ensures forall u :: u in users && u != from ==> u in r && r[u] == users[u]
    ensures |r| == |users|
  {
    if from in users then
      var rest := users - {from};
      assert rest.Keys == users.Keys - {from};
      assert |rest.Keys| == |users.Keys| - 1;
      rest[to := users[from]]
    else users
  }

  /** PostgreSQL GREATEST: NULL arguments are ignored; NULL only when both are. */
  function Greatest(a: Option<int>, b: Option<int>): (r: Option<int>)
    ensures r.None? <==> a.None? && b.None?
    ensures a.Some? ==> r.Some? && r.value >= a.value
    ensures b.Some? ==> r.Some? && r.value >= b.value
    ensures r == a || r == b
  {
    if a.None? then b
    else if b.None? then a
    else if a.value >= b.value then a else b
  }

  /** SELECT COALESCE(premium_id, '') FROM users WHERE firebase_id = user; None is "no rows". */
  function PremiumIdOrEmpty(users: map<UserId, Option<TxnId>>, user: UserId): (r: Option<TxnId>)
    ensures r.Some? <==> user in users
    ensures user in users && users[user].Some? ==> r == users[user]
    ensures user in users && users[user].None? ==> r == Some("")
  {
    if user in users then Some(users[user].GetOr("")) else None
  }

  /**
   * SELECT pd.expire_date FROM users u LEFT JOIN premium_data pd
   *   ON pd.id = u.premium_id AND pd.expire_date > now WHERE u.firebase_id = user.
   * None is "no rows"; Some(None) is a NULL column.
   */
  function ValidExpiry(t: Tables, user: UserId, now: int): (r: Option<Option<int>>)
    ensures r.Some? <==> user in t.users
    ensures r.Some? && r.value.Some? ==> r.value.value > now
    ensures r.Some? && r.value.Some? ==>
      var pid := t.users[user];
      pid.Some? && pid.value in t.premium && t.premium[pid.value].expireDate == r.value
  {
    if user !in t.users then None
    else
      var pid := t.users[user];
      if pid.Some? && pid.value in t.premium
         && t.premium[pid.value].expireDate.Some? && t.premium[pid.value].expireDate.value > now
      then Some(t.premium[pid.value].expireDate)
      else Some(None)
  }

  /** UPDATE premium_data SET expire_date = greatest(expire_date, end), premium_type = tp WHERE id = txn. */
  function ChangePremium(premium: map<TxnId, Premium>, txn: TxnId, end: Option<int>, tp: string): (r: map<TxnId, Premium>)
    ensures r.Keys == premium.Keys
    ensures forall id :: id in premium && id != txn ==> r[id] == premium[id]
    ensures txn in premium ==>
      r[txn] == Premium(tp, premium[txn].createdDate, Greatest(premium[txn].expireDate, end))
  {
    if txn in premium then
      premium[txn := premium[txn].(premiumType := tp, expireDate := Greatest(premium[txn].expireDate, end))]
    else premium
  }

  // ---------------------------------------------------------------------
  // The service functions
  // ---------------------------------------------------------------------

  /**
   * updatePremiumStatus: create the record if it is absent, clear every holder
   * of the transaction id, then give it to `user` (if that account exists).
   */
  function UpdatePremiumStatus(t: Tables, user: UserId, txn: TxnId, productId: string, startMs: int, endMs: int): (r: Tables)
    ensures r.logs == t.logs
    ensures r.premium.Keys == t.premium.Keys + {txn}
    ensures txn !in t.premium ==> r.premium[txn] == Premium(PlanType(productId), startMs, EndDate(endMs))
    ensures forall id :: id in t.premium ==> r.premium[id] == t.premium[id]
    ensures r.users.Keys == t.users.Keys
    ensures user in t.users ==> r.users[user] == Some(txn)
    ensures forall u :: u in r.users && r.users[u] == Some(txn) ==> u == user
    ensures forall u :: u in t.users && u != user && t.users[u] != Some(txn) ==> r.users[u] == t.users[u]
    ensures forall u :: u in t.users && u != user && t.users[u] == Some(txn) ==> r.users[u] == None
  {
    t.(premium := InsertIfAbsent(t.premium, txn, Premium(PlanType(productId), startMs, EndDate(endMs))),
       users := SetPremiumId(ClearHolders(t.users, txn), user, Some(txn)))
  }

  /**
   * The end date PRODUCT_CHANGE merges into the record: the event's date; when
   * that is already past, the user's still-valid expiry, else now + 24h.
   */
  function ProductChangeEndDate(t: Tables, e: Event, now: int): (r: Option<int>)
    ensures e.event.expirationAtMs <= 0 ==> r.None?
    ensures e.event.expirationAtMs > 0 && now <= e.event.expirationAtMs ==> r == Some(e.event.expirationAtMs)
    ensures e.event.expirationAtMs > 0 && now > e.event.expirationAtMs ==>
      var q := ValidExpiry(t, e.event.appUserId, now);
      r == (if q.Some? && q.value.Some? then q.value else Some(now + DayMs))
  {
    var end := EndDate(e.event.expirationAtMs);
    if end.Some? && now > end.value then
      var q := ValidExpiry(t, e.event.appUserId, now);
      // A Scan that found no row leaves the event's (past) date in place.
      var found := if q.Some? then q.value else end;
      if found.None? || now > found.value then Some(now + DayMs) else found
    else end
  }

  /** handleProductChange: merge the end date, overwrite the type, re-point the holder. */
  function ProductChange(t: Tables, e: Event, productId: string, now: int): (r: Tables)
    ensures r.logs == t.logs
    ensures r.premium.Keys == t.premium.Keys
    ensures forall id :: id in t.premium && id != e.event.transactionId ==> r.premium[id] == t.premium[id]
    ensures e.event.transactionId in t.premium ==>
      var before, after := t.premium[e.event.transactionId], r.premium[e.event.transactionId];
      && after.premiumType == PlanType(productId)
      && after.createdDate == before.createdDate
      && (before.expireDate.Some? ==> after.expireDate.Some? && after.expireDate.value >= before.expireDate.value)
      && (e.event.expirationAtMs <= 0 ==> after.expireDate == before.expireDate)
    ensures r.users.Keys == t.users.Keys
    ensures e.event.appUserId in t.users ==> r.users[e.event.appUserId] == Some(e.event.transactionId)
    ensures forall u :: u in r.users && r.users[u] == Some(e.event.transactionId) ==> u == e.event.appUserId
  {
    var txn := e.event.transactionId;
    var end := ProductChangeEndDate(t, e, now);
    t.(premium := ChangePremium(t.premium, txn, end, PlanType(productId)),
       users := SetPremiumId(ClearHolders(t.users, txn), e.event.appUserId, Some(txn)))
  }

  /** finishPremium: read the user's premium id (or ""), then clear it; None is "no rows". */
  function FinishPremium(t: Tables, user: UserId): (r: (Tables, Option<TxnId>))
    ensures r.1 == PremiumIdOrEmpty(t.users, user)
    ensures r.1.None? ==> r.0 == t
    ensures r.1.Some? ==> r.0 == t.(users := SetPremiumId(t.users, user, None))
  {
    var found := PremiumIdOrEmpty(t.users, user);
    if found.None? then (t, None)
    else (t.(users := SetPremiumId(t.users, user, None)), found)
  }

  /** Every user of `fs` loses its premium id. */
  function ClearAll(users: map<UserId, Option<TxnId>>, fs: seq<UserId>): map<UserId, Option<TxnId>> {
    map u | u in users :: if u in fs then None else users[u]
  }

  /**
   * The TRANSFER source loop: finishPremium for each source in order, the
   * transaction id overwritten every time; it stops at the first missing user.
   */
  function FinishAll(t: Tables, froms: seq<UserId>): (r: (Tables, Option<TxnId>))
    decreases |froms|
    ensures r.0.logs == t.logs && r.0.premium == t.premium
    ensures r.0.users.Keys == t.users.Keys
    ensures r.1.Some? <==> forall f :: f in froms ==> f in t.users
    ensures r.1.Some? ==> forall f :: f in froms ==> r.0.users[f] == None
    ensures forall u :: u in t.users && u !in froms ==> r.0.users[u] == t.users[u]
    ensures forall u :: u in t.users ==> r.0.users[u] == t.users[u] || r.0.users[u] == None
    ensures r.1.Some? && froms == [] ==> r.1.value == ""
    ensures r.1.Some? && froms != [] ==>
      r.1.value == if froms[|froms| - 1] in froms[..|froms| - 1] then ""
                   else t.users[froms[|froms| - 1]].GetOr("")
  {
    if froms == [] then (t, Some(""))
    else
      var n := |froms|;
      var prev := FinishAll(t, froms[..n - 1]);
      assert forall f :: f in froms <==> f in froms[..n - 1] || f == froms[n - 1] by {
        assert froms == froms[..n - 1] + [froms[n - 1]];
      }
      if prev.1.None? then (prev.0, None)
      else FinishPremium(prev.0, froms[n - 1])
  }

  /** One TRANSFER destination: take over the first source's account if it has none, then receive the id. */
  function TransferStep(t: Tables, to: UserId, from0: Option<UserId>, txn: TxnId, startMs: int, endMs: int): (r: Tables)
    ensures r.logs == t.logs
    ensures |r.users| == |t.users|
    ensures r.users.Keys <= t.users.Keys + {to}
    ensures to in t.users ==> r == UpdatePremiumStatus(t, to, txn, "", startMs, endMs)
    ensures to !in t.users && from0.Some? && from0.value in t.users ==>
      to in r.users && from0.value !in r.users && r.users[to] == Some(txn)
  {
    var t1 := if to !in t.users && from0.Some? then t.(users := RenameUser(t.users, from0.value, to)) else t;
    UpdatePremiumStatus(t1, to, txn, "", startMs, endMs)
  }

  /** The TRANSFER destination loop, in order. */
  function TransferTo(t: Tables, tos: seq<UserId>, from0: Option<UserId>, txn: TxnId, startMs: int, endMs: int): (r: Tables)
    decreases |tos|
    ensures r.logs == t.logs
    ensures |r.users| == |t.users|
    ensures forall u :: u in r.users ==> u in t.users || u in tos
    ensures tos != [] ==> r.premium.Keys == t.premium.Keys + {txn}
    ensures tos == [] ==> r == t
    ensures forall id :: id in t.premium ==> r.premium[id] == t.premium[id]
    ensures tos != [] && tos[|tos| - 1] in r.users ==> r.users[tos[|tos| - 1]] == Some(txn)
    ensures tos != [] ==> forall u :: u in r.users && r.users[u] == Some(txn) ==> u == tos[|tos| - 1]
  {
    if tos == [] then t
    else
      var n := |tos|;
      var prev := TransferTo(t, tos[..n - 1], from0, txn, startMs, endMs);
      assert forall u :: u in tos[..n - 1] ==> u in tos;
      TransferStep(prev, tos[n - 1], from0, txn, startMs, endMs)
  }

  /** handleTransfer. */
  function Transfer(t: Tables, b: EventBody): (r: (Tables, Outcome)) {
    var (t1, moved) := FinishAll(t, b.transferredFrom);
    if moved.None? then (t1, Fail(NoRows))
    else if moved.value == "" then (t1, Fail(NoTransactionId))
    else
      var from0 := if |b.transferredFrom| > 0 then Some(b.transferredFrom[0]) else None;
      (TransferTo(t1, b.transferredTo, from0, moved.value, b.purchasedAtMs, b.expirationAtMs), Ok)
  }

  /** The switch on the event type in HandleWebhook. */
  function Dispatch(t: Tables, e: Event, productId: string, now: int): (r: (Tables, Outcome))
    ensures r.0.logs == t.logs
    ensures !IsRecognisedType(e.event.eventType) ==> r == (t, Ok)
  {
    var b := e.event;
    if IsPremiumUpdateType(b.eventType) then
      (UpdatePremiumStatus(t, b.appUserId, b.transactionId, productId, b.purchasedAtMs, b.expirationAtMs), Ok)
    else if b.eventType == "PRODUCT_CHANGE" then (ProductChange(t, e, productId, now), Ok)
    else if b.eventType == "TRANSFER" then Transfer(t, b)
    else (t, Ok)
  }

  /** HandleWebhook: log the event (first writer wins), then dispatch by type. */
  function Webhook(t: Tables, e: Event, now: int): (r: (Tables, Outcome)) {
    var productId := ProductIdOf(e);
    var t1 := t.(logs := InsertIfAbsent(t.logs, EventId(e), LogEntryOf(e, productId)));
    Dispatch(t1, e, productId, now)
  }
}
