/**
 * RevenueCatService over a mutable store: the three tables are fields of a
 * class and every SQL statement is a method that reassigns one of them.
 * Each service method is proved to leave the store, and return the outcome,
 * that the matching function of module Entitlements gives.
 */
module RevenueCatService {
  import opened Wrappers
  import opened Entitlements

  class Store {
    var logs: map<string, LogEntry>
    var premium: map<TxnId, Premium>
    var users: map<UserId, Option<TxnId>>

    /** The abstract value of the store. */
    function Contents(): Tables
      reads this
    {
      Tables(logs, premium, users)
    }

    constructor (initial: Tables)
      ensures Contents() == initial
    {
      logs, premium, users := initial.logs, initial.premium, initial.users;
    }

    // -------------------------------------------------------------------
    // Statements
    // -------------------------------------------------------------------

    /** INSERT INTO revenuecat_logs ... ON CONFLICT (revenuecat_event_id) DO NOTHING. */
    method InsertLog(id: string, entry: LogEntry)
      modifies this
      ensures logs == InsertIfAbsent(old(logs), id, entry)
      ensures premium == old(premium) && users == old(users)
    {
      if id !in logs {
        logs := logs[id := entry];
      }
    }

    /** INSERT INTO premium_data ... ON CONFLICT (id) DO NOTHING. */
    method InsertPremium(txn: TxnId, record: Premium)
      modifies this
      ensures premium == InsertIfAbsent(old(premium), txn, record)
      ensures logs == old(logs) && users == old(users)
    {
      if txn !in premium {
        premium := premium[txn := record];
      }
    }

    /** UPDATE users SET premium_id = NULL WHERE premium_id = txn. */
    method ClearPremiumHolders(txn: TxnId)
      modifies this
      ensures users == ClearHolders(old(users), txn)
      ensures logs == old(logs) && premium == old(premium)
    {
      users := map u | u in users :: if users[u] == Some(txn) then None else users[u];
    }

    /** UPDATE users SET premium_id = v WHERE firebase_id = user. */
    method SetUserPremium(user: UserId, v: Option<TxnId>)
      modifies this
      ensures users == SetPremiumId(old(users), user, v)
      ensures logs == old(logs) && premium == old(premium)
    {
      if user in users {
        users := users[user := v];
      }
    }

    /** UPDATE users SET firebase_id = to WHERE firebase_id = from. */
    method RenameAccount(from: UserId, to: UserId)
      requires to !in users
      modifies this
      ensures users == RenameUser(old(users), from, to)
      ensures logs == old(logs) && premium == old(premium)
    {
      if from in users {
        users := (users - {from})[to := users[from]];
      }
    }

    /** UPDATE premium_data SET expire_date = greatest(expire_date, end), premium_type = tp WHERE id = txn. */
    method UpdatePremiumRecord(txn: TxnId, end: Option<int>, tp: string)
      modifies this
      ensures premium == ChangePremium(old(premium), txn, end, tp)
      ensures logs == old(logs) && users == old(users)
    {
      if txn in premium {
        var rec := premium[txn];
        premium := premium[txn := rec.(premiumType := tp, expireDate := Greatest(rec.expireDate, end))];
      }
    }

    /** SELECT EXISTS(SELECT 1 FROM users WHERE firebase_id = user). */
    method UserExists(user: UserId) returns (exists_: bool)
      ensures exists_ <==> user in users
    {
      exists_ := user in users;
    }

    /** SELECT COALESCE(premium_id, '') FROM users WHERE firebase_id = user. */
    method SelectPremiumId(user: UserId) returns (found: Option<TxnId>)
      ensures found == PremiumIdOrEmpty(users, user)
    {
      if user in users {
        found := Some(users[user].GetOr(""));
      } else {
        found := None;
      }
    }

    /** The LEFT JOIN of handleProductChange: the user's premium expiry if still valid. */
    method SelectValidExpiry(user: UserId, now: int) returns (found: Option<Option<int>>)
      ensures found == ValidExpiry(Contents(), user, now)
    {
      if user !in users {
        found := None;
      } else {
        var pid := users[user];
        if pid.Some? && pid.value in premium
           && premium[pid.value].expireDate.Some? && premium[pid.value].expireDate.value > now {
          found := Some(premium[pid.value].expireDate);
        } else {
          found := Some(None);
        }
      }
    }

    // -------------------------------------------------------------------
    // The service
    // -------------------------------------------------------------------

    /** updatePremiumStatus. */
    method UpdatePremiumStatus(user: UserId, txn: TxnId, productId: string, startMs: int, endMs: int)
      modifies this
      ensures Contents() == Entitlements.UpdatePremiumStatus(old(Contents()), user, txn, productId, startMs, endMs)
    {
      var endDate := if endMs > 0 then Some(endMs) else None;
      var premiumType := PlanType(productId);
      InsertPremium(txn, Premium(premiumType, startMs, endDate));
      ClearPremiumHolders(txn);
      SetUserPremium(user, Some(txn));
    }

    /** handleProductChange. */
    method HandleProductChange(e: Event, productId: string, now: int)
      modifies this
      ensures Contents() == ProductChange(old(Contents()), e, productId, now)
    {
      var endDate := if e.event.expirationAtMs > 0 then Some(e.event.expirationAtMs) else None;
      if endDate.Some? {
        if now > endDate.value {
          var found := SelectValidExpiry(e.event.appUserId, now);
          if found.Some? {
            endDate := found.value;
          }
          if endDate.None? || now > endDate.value {
            endDate := Some(now + DayMs);
          }
        }
      }
      assert endDate == ProductChangeEndDate(old(Contents()), e, now);
      UpdatePremiumRecord(e.event.transactionId, endDate, PlanType(productId));
      ClearPremiumHolders(e.event.transactionId);
      SetUserPremium(e.event.appUserId, Some(e.event.transactionId));
    }

    /** finishPremium: None when the user has no row. */
    method FinishPremium(user: UserId) returns (txn: Option<TxnId>)
      modifies this
      ensures (Contents(), txn) == Entitlements.FinishPremium(old(Contents()), user)
    {
      txn := SelectPremiumId(user);
      if txn.None? {
        return;
      }
      SetUserPremium(user, None);
    }

    /** The source loop of handleTransfer: finishPremium on each source, stopping at a missing one. */
    method FinishSources(froms: seq<UserId>) returns (moved: Option<TxnId>)
      modifies this
      ensures (Contents(), moved) == FinishAll(old(Contents()), froms)
    {
      ghost var t0 := Contents();
      var transactionId := "";
      var i := 0;
      while i < |froms|
        invariant 0 <= i <= |froms|
        invariant FinishAll(t0, froms[..i]).1 == Some(transactionId)
        invariant FinishAll(t0, froms[..i]).0 == Contents()
      {
        FinishAllSnoc(t0, froms, i);
        var found := FinishPremium(froms[i]);
        if found.None? {
          FinishAllStopsEarly(t0, froms, i + 1);
          return None;
        }
        transactionId := found.value;
        i := i + 1;
      }
      assert froms[..i] == froms;
      moved := Some(transactionId);
    }

    /** One destination of handleTransfer: take over the first source's account if it has none, then receive the id. */
    method TransferDestination(to: UserId, from0: Option<UserId>, txn: TxnId, startMs: int, endMs: int)
      modifies this
      ensures Contents() == TransferStep(old(Contents()), to, from0, txn, startMs, endMs)
    {
      var exists_ := UserExists(to);
      if !exists_ && from0.Some? {
        RenameAccount(from0.value, to);
      }
      UpdatePremiumStatus(to, txn, "", startMs, endMs);
    }

    /** The destination loop of handleTransfer. */
    method TransferDestinations(tos: seq<UserId>, from0: Option<UserId>, txn: TxnId, startMs: int, endMs: int)
      modifies this
      ensures Contents() == TransferTo(old(Contents()), tos, from0, txn, startMs, endMs)
    {
      ghost var t0 := Contents();
      var j := 0;
      while j < |tos|
        invariant 0 <= j <= |tos|
        invariant Contents() == TransferTo(t0, tos[..j], from0, txn, startMs, endMs)
      {
        TransferToSnoc(t0, tos, j, from0, txn, startMs, endMs);
        TransferDestination(tos[j], from0, txn, startMs, endMs);
        j := j + 1;
      }
      assert tos[..j] == tos;
    }

    /** handleTransfer. */
    method HandleTransfer(b: EventBody) returns (r: Outcome)
      modifies this
      ensures (Contents(), r) == Transfer(old(Contents()), b)
    {
      var moved := FinishSources(b.transferredFrom);
      if moved.None? {
        return Fail(NoRows);
      }
      if moved.value == "" {
        return Fail(NoTransactionId);
      }
      var from0 := if |b.transferredFrom| > 0 then Some(b.transferredFrom[0]) else None;
      TransferDestinations(b.transferredTo, from0, moved.value, b.purchasedAtMs, b.expirationAtMs);
      return Ok;
    }

    /** HandleWebhook: log the event, then act on its type. */
    method HandleWebhook(e: Event, now: int) returns (r: Outcome)
      modifies this
      ensures (Contents(), r) == Webhook(old(Contents()), e, now)
    {
      var eventId := e.id;
      if e.id.None? {
        eventId := e.event.id;
      }
      if eventId.None? {
        eventId := Some(SentinelEventId);
      }
      var productId := e.event.productId;
      if e.event.eventType == "PRODUCT_CHANGE" {
        productId := e.event.newProductId;
      }
      InsertLog(eventId.value, LogEntryOf(e, productId));
      var b := e.event;
      if IsPremiumUpdateType(b.eventType) {
        UpdatePremiumStatus(b.appUserId, b.transactionId, productId, b.purchasedAtMs, b.expirationAtMs);
        r := Ok;
      } else if b.eventType == "PRODUCT_CHANGE" {
        HandleProductChange(e, productId, now);
        r := Ok;
      } else if b.eventType == "TRANSFER" {
        r := HandleTransfer(b);
      } else {
        r := Ok;
      }
    }
  }

  /** Once the source loop fails it stays failed: a longer source list ends in the same state. */
  lemma {:induction false} FinishAllStopsEarly(t: Tables, froms: seq<UserId>, k: nat)
    requires 0 < k <= |froms|
    requires FinishAll(t, froms[..k]).1.None?
    ensures FinishAll(t, froms) == FinishAll(t, froms[..k])
    decreases |froms| - k
  {
    if k < |froms| {
      assert froms[..k + 1][..k] == froms[..k];
      FinishAllStopsEarly(t, froms, k + 1);
    } else {
      assert froms[..k] == froms;
    }
  }

  /** One more source: the loop's step. */
  lemma FinishAllSnoc(t: Tables, froms: seq<UserId>, i: nat)
    requires i < |froms|
    ensures FinishAll(t, froms[..i + 1]) ==
      var prev := FinishAll(t, froms[..i]);
      if prev.1.None? then (prev.0, None) else Entitlements.FinishPremium(prev.0, froms[i])
  {
    assert froms[..i + 1][..i] == froms[..i];
  }

  /** One more destination: the loop's step. */
  lemma TransferToSnoc(t: Tables, tos: seq<UserId>, j: nat, from0: Option<UserId>, txn: TxnId, startMs: int, endMs: int)
    requires j < |tos|
    ensures TransferTo(t, tos[..j + 1], from0, txn, startMs, endMs) ==
      TransferStep(TransferTo(t, tos[..j], from0, txn, startMs, endMs), tos[j], from0, txn, startMs, endMs)
  {
    assert tos[..j + 1][..j] == tos[..j];
  }
}
