/**
 * Properties of the reconciler in module Entitlements that relate several
 * statements or several webhook calls.
 */
module EntitlementProperties {
  import opened Wrappers
  import opened Entitlements

  /** At most one user holds any given transaction id. */
  ghost predicate AtMostOneHolder(users: map<UserId, Option<TxnId>>) {
    forall u, v :: u in users && v in users && u != v && users[u].Some? ==> users[u] != users[v]
  }

  // ---------------------------------------------------------------------
  // Classification
  // ---------------------------------------------------------------------

  /** Cutting the plan type twice is cutting it once; a plan without ':' is kept whole. */
  lemma PlanTypeIdempotent(p: string)
    ensures PlanType(PlanType(p)) == PlanType(p)
    ensures ':' !in p ==> PlanType(p) == p
  {
  }

  /** Events without any id share the key "tt": only the first of them is ever logged. */
  lemma IdLessEventsShareLogKey(t: Tables, e1: Event, e2: Event, now1: int, now2: int)
    requires e1.id.None? && e1.event.id.None?
    requires e2.id.None? && e2.event.id.None?
    ensures EventId(e1) == EventId(e2) == SentinelEventId
    ensures var t1 := Webhook(t, e1, now1).0;
      Webhook(t1, e2, now2).0.logs == t1.logs && SentinelEventId in t1.logs
  {
    var t1 := Webhook(t, e1, now1).0;
    LogFirstWriterWins(t, e1, now1);
    LogFirstWriterWins(t1, e2, now2);
  }

  // ---------------------------------------------------------------------
  // The log insert
  // ---------------------------------------------------------------------

  /** The log insert is first-writer-wins: an existing entry is never touched. */
  lemma LogFirstWriterWins(t: Tables, e: Event, now: int)
    ensures EventId(e) in t.logs ==> Webhook(t, e, now).0.logs == t.logs
    ensures EventId(e) !in t.logs ==>
      Webhook(t, e, now).0.logs == t.logs[EventId(e) := LogEntryOf(e, ProductIdOf(e))]
  {
    var t1 := t.(logs := InsertIfAbsent(t.logs, EventId(e), LogEntryOf(e, ProductIdOf(e))));
    assert Webhook(t, e, now).0.logs == t1.logs;
    if EventId(e) !in t.logs {
      assert t1.logs == t.logs[EventId(e) := LogEntryOf(e, ProductIdOf(e))];
    }
  }

  /** A duplicate delivery is not short-circuited: the dispatch runs all the same. */
  lemma DuplicateStillDispatches(t: Tables, e: Event, now: int)
    requires EventId(e) in t.logs
    ensures Webhook(t, e, now) == Dispatch(t, e, ProductIdOf(e), now)
  {
    assert t.(logs := InsertIfAbsent(t.logs, EventId(e), LogEntryOf(e, ProductIdOf(e)))) == t;
  }

  lemma {:induction false} FinishAllIgnoresLog(t: Tables, logs: map<string, LogEntry>, froms: seq<UserId>)
    ensures FinishAll(t.(logs := logs), froms) == (FinishAll(t, froms).0.(logs := logs), FinishAll(t, froms).1)
    decreases |froms|
  {
    if froms != [] {
      FinishAllIgnoresLog(t, logs, froms[..|froms| - 1]);
    }
  }

  lemma {:induction false} TransferToIgnoresLog(t: Tables, logs: map<string, LogEntry>, tos: seq<UserId>,
                                                from0: Option<UserId>, txn: TxnId, s: int, e: int)
    ensures TransferTo(t.(logs := logs), tos, from0, txn, s, e) == TransferTo(t, tos, from0, txn, s, e).(logs := logs)
    decreases |tos|
  {
    if tos != [] {
      TransferToIgnoresLog(t, logs, tos[..|tos| - 1], from0, txn, s, e);
    }
  }

  /** What the dispatch does to premium_data and users, and its outcome, never depend on the log. */
  lemma DispatchIgnoresLog(t: Tables, logs: map<string, LogEntry>, e: Event, productId: string, now: int)
    ensures Dispatch(t.(logs := logs), e, productId, now)
         == (Dispatch(t, e, productId, now).0.(logs := logs), Dispatch(t, e, productId, now).1)
  {
    var b := e.event;
    if !IsPremiumUpdateType(b.eventType) && b.eventType != "PRODUCT_CHANGE" && b.eventType == "TRANSFER" {
      FinishAllIgnoresLog(t, logs, b.transferredFrom);
      var (t1, moved) := FinishAll(t, b.transferredFrom);
      if moved.Some? && moved.value != "" {
        var from0 := if |b.transferredFrom| > 0 then Some(b.transferredFrom[0]) else None;
        TransferToIgnoresLog(t1, logs, b.transferredTo, from0, moved.value, b.purchasedAtMs, b.expirationAtMs);
      }
    }
  }

  /** An already logged event id changes premium_data and users exactly as a new one would. */
  lemma ReplayedIdStillApplies(t: Tables, logs: map<string, LogEntry>, e: Event, now: int)
    ensures Webhook(t.(logs := logs), e, now).0.premium == Webhook(t, e, now).0.premium
    ensures Webhook(t.(logs := logs), e, now).0.users == Webhook(t, e, now).0.users
    ensures Webhook(t.(logs := logs), e, now).1 == Webhook(t, e, now).1
  {
    var p := ProductIdOf(e);
    var l1 := InsertIfAbsent(logs, EventId(e), LogEntryOf(e, p));
    var l2 := InsertIfAbsent(t.logs, EventId(e), LogEntryOf(e, p));
    DispatchIgnoresLog(t.(logs := l2), l1, e, p, now);
    assert t.(logs := logs).(logs := l1) == t.(logs := l2).(logs := l1);
  }

  /** Event types the service does not act on change nothing beyond the log and succeed. */
  lemma UnrecognisedTypeOnlyLogs(t: Tables, e: Event, now: int)
    requires !IsRecognisedType(e.event.eventType)
    ensures Webhook(t, e, now)
         == (t.(logs := InsertIfAbsent(t.logs, EventId(e), LogEntryOf(e, ProductIdOf(e)))), Ok)
  {
  }

  // ---------------------------------------------------------------------
  // Purchase, renewal, cancellation, expiration
  // ---------------------------------------------------------------------

  /** updatePremiumStatus applied twice is applied once. */
  lemma UpdatePremiumStatusIdempotent(t: Tables, user: UserId, txn: TxnId, p: string, s: int, e: int)
    ensures var t1 := UpdatePremiumStatus(t, user, txn, p, s, e);
      UpdatePremiumStatus(t1, user, txn, p, s, e) == t1
  {
    var t1 := UpdatePremiumStatus(t, user, txn, p, s, e);
    var t2 := UpdatePremiumStatus(t1, user, txn, p, s, e);
    assert t2.premium == t1.premium;
    assert t2.users.Keys == t1.users.Keys;
    forall u | u in t2.users ensures t2.users[u] == t1.users[u] {
      if u != user && t1.users[u] == Some(txn) {
        assert false;
      }
    }
    assert t2.users == t1.users;
  }

  /** Replaying a purchase-type event leaves the tables as the first delivery left them. */
  lemma ReplayPurchaseIdempotent(t: Tables, e: Event, now: int, later: int)
    requires IsPremiumUpdateType(e.event.eventType)
    ensures Webhook(t, e, now).1 == Ok
    ensures Webhook(Webhook(t, e, now).0, e, later) == (Webhook(t, e, now).0, Ok)
  {
    var b := e.event;
    var t1 := Webhook(t, e, now).0;
    LogFirstWriterWins(t, e, now);
    assert EventId(e) in t1.logs;
    DuplicateStillDispatches(t1, e, later);
    UpdatePremiumStatusIdempotent(t.(logs := t1.logs), b.appUserId, b.transactionId, ProductIdOf(e),
                                  b.purchasedAtMs, b.expirationAtMs);
  }

  // ---------------------------------------------------------------------
  // Exclusivity: one holder per transaction id
  // ---------------------------------------------------------------------

  lemma UpdatePremiumStatusKeepsExclusive(t: Tables, user: UserId, txn: TxnId, p: string, s: int, e: int)
    requires AtMostOneHolder(t.users)
    ensures AtMostOneHolder(UpdatePremiumStatus(t, user, txn, p, s, e).users)
  {
    var r := UpdatePremiumStatus(t, user, txn, p, s, e).users;
    forall u, v | u in r && v in r && u != v && r[u].Some?
      ensures r[u] != r[v]
    {
      if r[u] == Some(txn) {
        assert u == user;
      } else if r[v] == Some(txn) {
        assert v == user;
      } else {
        assert u != user && v != user;
      }
    }
  }

  lemma SetPremiumIdNoneKeepsExclusive(users: map<UserId, Option<TxnId>>, user: UserId)
    requires AtMostOneHolder(users)
    ensures AtMostOneHolder(SetPremiumId(users, user, None))
  {
  }

  lemma RenameKeepsExclusive(users: map<UserId, Option<TxnId>>, from: UserId, to: UserId)
    requires to !in users
    requires AtMostOneHolder(users)
    ensures AtMostOneHolder(RenameUser(users, from, to))
  {
    var r := RenameUser(users, from, to);
    if from in users {
      forall u, v | u in r && v in r && u != v && r[u].Some?
        ensures r[u] != r[v]
      {
        var u0 := if u == to then from else u;
        var v0 := if v == to then from else v;
        assert r[u] == users[u0] && r[v] == users[v0];
      }
    }
  }

  lemma {:induction false} FinishAllKeepsExclusive(t: Tables, froms: seq<UserId>)
    requires AtMostOneHolder(t.users)
    ensures AtMostOneHolder(FinishAll(t, froms).0.users)
    decreases |froms|
  {
    if froms != [] {
      var prev := FinishAll(t, froms[..|froms| - 1]);
      FinishAllKeepsExclusive(t, froms[..|froms| - 1]);
      if prev.1.Some? {
        SetPremiumIdNoneKeepsExclusive(prev.0.users, froms[|froms| - 1]);
      }
    }
  }

  lemma {:induction false} TransferToKeepsExclusive(t: Tables, tos: seq<UserId>, from0: Option<UserId>,
                                                    txn: TxnId, s: int, e: int)
    requires AtMostOneHolder(t.users)
    ensures AtMostOneHolder(TransferTo(t, tos, from0, txn, s, e).users)
    decreases |tos|
  {
    if tos != [] {
      var prev := TransferTo(t, tos[..|tos| - 1], from0, txn, s, e);
      TransferToKeepsExclusive(t, tos[..|tos| - 1], from0, txn, s, e);
      var to := tos[|tos| - 1];
      var t1 := if to !in prev.users && from0.Some? then prev.(users := RenameUser(prev.users, from0.value, to)) else prev;
      if to !in prev.users && from0.Some? {
        RenameKeepsExclusive(prev.users, from0.value, to);
      }
      UpdatePremiumStatusKeepsExclusive(t1, to, txn, "", s, e);
    }
  }

  /** No webhook, whatever it carries, lets two users hold the same transaction id. */
  lemma WebhookKeepsExclusive(t: Tables, e: Event, now: int)
    requires AtMostOneHolder(t.users)
    ensures AtMostOneHolder(Webhook(t, e, now).0.users)
  {
    var p := ProductIdOf(e);
    var t1 := t.(logs := InsertIfAbsent(t.logs, EventId(e), LogEntryOf(e, p)));
    var b := e.event;
    if IsPremiumUpdateType(b.eventType) {
      UpdatePremiumStatusKeepsExclusive(t1, b.appUserId, b.transactionId, p, b.purchasedAtMs, b.expirationAtMs);
    } else if b.eventType == "PRODUCT_CHANGE" {
      var r := ProductChange(t1, e, p, now).users;
      forall u, v | u in r && v in r && u != v && r[u].Some?
        ensures r[u] != r[v]
      {
        var cleared := ClearHolders(t1.users, b.transactionId);
        if r[u] != Some(b.transactionId) && r[v] != Some(b.transactionId) {
          assert r[u] == cleared[u] || u == b.appUserId;
          assert r[v] == cleared[v] || v == b.appUserId;
        }
      }
    } else if b.eventType == "TRANSFER" {
      FinishAllKeepsExclusive(t1, b.transferredFrom);
      var (t2, moved) := FinishAll(t1, b.transferredFrom);
      if moved.Some? && moved.value != "" {
        var from0 := if |b.transferredFrom| > 0 then Some(b.transferredFrom[0]) else None;
        TransferToKeepsExclusive(t2, b.transferredTo, from0, moved.value, b.purchasedAtMs, b.expirationAtMs);
      }
    }
  }

  /** No webhook creates or deletes an account: TRANSFER only renames one. */
  lemma WebhookKeepsUserCount(t: Tables, e: Event, now: int)
    ensures |Webhook(t, e, now).0.users| == |t.users|
    ensures forall u :: u in Webhook(t, e, now).0.users ==> u in t.users || u in e.event.transferredTo
  {
    var b := e.event;
    if !IsPremiumUpdateType(b.eventType) && b.eventType != "PRODUCT_CHANGE" && b.eventType == "TRANSFER" {
      var t1 := t.(logs := InsertIfAbsent(t.logs, EventId(e), LogEntryOf(e, ProductIdOf(e))));
      var (t2, moved) := FinishAll(t1, b.transferredFrom);
      assert |t2.users| == |t2.users.Keys| == |t1.users.Keys| == |t.users|;
    } else if IsPremiumUpdateType(b.eventType) || b.eventType == "PRODUCT_CHANGE" {
      var r := Webhook(t, e, now).0;
      assert r.users.Keys == t.users.Keys;
      assert |r.users| == |r.users.Keys|;
    }
  }

  // ---------------------------------------------------------------------
  // PRODUCT_CHANGE
  // ---------------------------------------------------------------------

  /**
   * PostgreSQL's GREATEST ignores NULL: a non-expiring record (NULL expire_date)
   * that receives a PRODUCT_CHANGE with a date ends up expiring at that date.
   */
  lemma ProductChangeEndsNonExpiring(t: Tables, e: Event, now: int)
    requires e.event.eventType == "PRODUCT_CHANGE"
    requires e.event.transactionId in t.premium
    requires t.premium[e.event.transactionId].expireDate.None?
    requires 0 < e.event.expirationAtMs && now <= e.event.expirationAtMs
    ensures Webhook(t, e, now).0.premium[e.event.transactionId].expireDate == Some(e.event.expirationAtMs)
  {
    var tl := t.(logs := InsertIfAbsent(t.logs, EventId(e), LogEntryOf(e, ProductIdOf(e))));
    assert ProductChangeEndDate(tl, e, now) == Some(e.event.expirationAtMs);
    assert Webhook(t, e, now).0 == ProductChange(tl, e, ProductIdOf(e), now);
  }

  /** A past PRODUCT_CHANGE date with no other valid entitlement grants exactly 24 hours from now. */
  lemma ProductChangeGracePeriod(t: Tables, e: Event, now: int)
    requires e.event.eventType == "PRODUCT_CHANGE"
    requires 0 < e.event.expirationAtMs < now
    requires ValidExpiry(t, e.event.appUserId, now) != Some(None) ==> e.event.appUserId !in t.users
    requires e.event.transactionId in t.premium
    requires var d := t.premium[e.event.transactionId].expireDate; d.Some? ==> d.value <= now + DayMs
    ensures Webhook(t, e, now).0.premium[e.event.transactionId].expireDate == Some(now + DayMs)
    ensures Webhook(t, e, now).0.premium[e.event.transactionId].premiumType == PlanType(e.event.newProductId)
  {
    var t1 := Webhook(t, e, now).0;
    var tl := t.(logs := InsertIfAbsent(t.logs, EventId(e), LogEntryOf(e, ProductIdOf(e))));
    assert ValidExpiry(tl, e.event.appUserId, now) == ValidExpiry(t, e.event.appUserId, now);
    assert ProductChangeEndDate(tl, e, now) == Some(now + DayMs);
  }

  /** The tables after a sequence of webhook calls, the i-th delivered at time nows[i]. */
  function ApplyAll(t: Tables, es: seq<Event>, nows: seq<int>): Tables
    requires |nows| == |es|
    decreases |es|
  {
    if es == [] then t else ApplyAll(Webhook(t, es[0], nows[0]).0, es[1..], nows[1..])
  }

  /** Along any sequence of PRODUCT_CHANGE events, whenever each arrives, no record's expire_date ever moves back. */
  lemma {:induction false} ProductChangesNeverLowerExpiry(t: Tables, es: seq<Event>, nows: seq<int>, txn: TxnId)
    requires |nows| == |es|
    requires forall i :: 0 <= i < |es| ==> es[i].event.eventType == "PRODUCT_CHANGE"
    requires txn in t.premium && t.premium[txn].expireDate.Some?
    ensures var r := ApplyAll(t, es, nows);
      txn in r.premium && r.premium[txn].expireDate.Some?
      && r.premium[txn].expireDate.value >= t.premium[txn].expireDate.value
    decreases |es|
  {
    if es != [] {
      var t1 := Webhook(t, es[0], nows[0]).0;
      assert txn in t1.premium && t1.premium[txn].expireDate.Some?;
      assert t1.premium[txn].expireDate.value >= t.premium[txn].expireDate.value;
      ProductChangesNeverLowerExpiry(t1, es[1..], nows[1..], txn);
    }
  }

  // ---------------------------------------------------------------------
  // TRANSFER
  // ---------------------------------------------------------------------

  /**
   * A missing source account stops the loop with "no rows"; the sources
   * before it have already been cleared.
   */
  lemma {:induction false} FinishAllStopsAtMissing(t: Tables, froms: seq<UserId>, i: nat)
    requires i < |froms| && froms[i] !in t.users
    requires forall j :: 0 <= j < i ==> froms[j] in t.users
    ensures FinishAll(t, froms) == (t.(users := ClearAll(t.users, froms[..i])), None)
    decreases |froms|
  {
    var n := |froms|;
    if i == n - 1 {
      FinishAllClearsAll(t, froms[..n - 1]);
    } else {
      assert froms[..n - 1][i] == froms[i];
      assert froms[..n - 1][..i] == froms[..i];
      FinishAllStopsAtMissing(t, froms[..n - 1], i);
    }
  }

  /** When every source exists, the loop leaves each of them without a premium id and no one else changed. */
  lemma {:induction false} FinishAllClearsAll(t: Tables, froms: seq<UserId>)
    requires forall f :: f in froms ==> f in t.users
    ensures FinishAll(t, froms).0 == t.(users := ClearAll(t.users, froms))
    decreases |froms|
  {
    var r := FinishAll(t, froms).0;
    assert r.users == ClearAll(t.users, froms);
  }

  /**
   * The moved id is the LAST source's previous value, not the first non-empty
   * one: with A holding "T1" and B holding nothing, moving [A, B] fails with
   * "no transaction ID found" after A has already lost "T1".
   */
  lemma TransferUsesLastSource(t: Tables, b: EventBody)
    requires t.users == map["A" := Some("T1"), "B" := None]
    requires b.transferredFrom == ["A", "B"]
    ensures Transfer(t, b) == (t.(users := map["A" := None, "B" := None]), Fail(NoTransactionId))
  {
    var froms := b.transferredFrom;
    var cleared := map["A" := None, "B" := None];
    var t1 := t.(users := cleared);
    assert FinishAll(t, []) == (t, Some(""));
    assert FinishPremium(t, "A") == (t1, Some("T1")) by {
      assert SetPremiumId(t.users, "A", None) == cleared;
    }
    assert FinishAll(t, ["A"]) == (t1, Some("T1")) by {
      assert ["A"][..0] == [];
    }
    assert FinishPremium(t1, "B") == (t1, Some("")) by {
      assert SetPremiumId(cleared, "B", None) == cleared;
    }
    assert froms[..1] == ["A"];
  }

  /** An empty transferred_from moves nothing: the transfer fails and only the log changed. */
  lemma TransferWithoutSourcesFails(t: Tables, e: Event, now: int)
    requires e.event.eventType == "TRANSFER" && e.event.transferredFrom == []
    ensures Webhook(t, e, now)
         == (t.(logs := InsertIfAbsent(t.logs, EventId(e), LogEntryOf(e, ProductIdOf(e)))), Fail(NoTransactionId))
  {
  }

  /**
   * A successful TRANSFER leaves every source without a premium id unless it
   * is also a destination, and only the last destination, if it has an
   * account by then, holds the moved id.
   */
  lemma TransferOutcome(t: Tables, b: EventBody, u: UserId)
    requires AtMostOneHolder(t.users)
    requires Transfer(t, b).1 == Ok
    ensures b.transferredFrom != []
    ensures var moved := t.users[b.transferredFrom[|b.transferredFrom| - 1]];
      var r := Transfer(t, b).0;
      && (u in r.users && r.users[u].Some? && r.users[u] == Some(moved.GetOr(""))
          ==> b.transferredTo != [] && u == b.transferredTo[|b.transferredTo| - 1])
      && (u in b.transferredFrom && u !in b.transferredTo && u in r.users ==> r.users[u] == None)
  {
    var froms := b.transferredFrom;
    var n := |froms|;
    FinishAllClearsAll(t, froms);
    var (t1, moved) := FinishAll(t, froms);
    var from0 := Some(froms[0]);
    var r := TransferTo(t1, b.transferredTo, from0, moved.value, b.purchasedAtMs, b.expirationAtMs);
    if u in froms && u !in b.transferredTo && u in r.users {
      TransferToUntouched(t1, b.transferredTo, from0, moved.value, b.purchasedAtMs, b.expirationAtMs, u);
    }
  }

  /** A user that is not a destination and holds no copy of the id keeps its premium id through the destination loop. */
  lemma {:induction false} TransferToUntouched(t: Tables, tos: seq<UserId>, from0: Option<UserId>,
                                               txn: TxnId, s: int, e: int, u: UserId)
    requires u in TransferTo(t, tos, from0, txn, s, e).users && u !in tos
    requires u in t.users && t.users[u] != Some(txn)
    ensures TransferTo(t, tos, from0, txn, s, e).users[u] == t.users[u]
    decreases |tos|
  {
    if tos != [] {
      var n := |tos|;
      var prev := TransferTo(t, tos[..n - 1], from0, txn, s, e);
      var to := tos[n - 1];
      assert u !in tos[..n - 1] by {
        assert forall x :: x in tos[..n - 1] ==> x in tos;
      }
      assert u in prev.users;
      TransferToUntouched(t, tos[..n - 1], from0, txn, s, e, u);
    }
  }

  // ---------------------------------------------------------------------
  // Scenarios
  // ---------------------------------------------------------------------

  /** An INITIAL_PURCHASE gives the user the transaction and records the plan. */
  lemma ScenarioInitialPurchase(t: Tables, e: Event, now: int)
    requires t.users == map["U1" := None] && t.premium == map[]
    requires e.event.eventType == "INITIAL_PURCHASE" && e.event.appUserId == "U1"
    requires e.event.transactionId == "T1" && e.event.productId == "pro_1m"
    requires e.event.expirationAtMs == now + 30 * DayMs && now > 0
    ensures Webhook(t, e, now).0.users == map["U1" := Some("T1")]
    ensures Webhook(t, e, now).0.premium == map["T1" := Premium("pro_1m", e.event.purchasedAtMs, Some(now + 30 * DayMs))]
    ensures Webhook(t, e, now).1 == Ok
  {
    PlanTypeIdempotent("pro_1m");
    var r := Webhook(t, e, now).0;
    assert r.users.Keys == {"U1"};
    assert r.premium.Keys == {"T1"};
  }

  /** A TRANSFER from U1 (holding T1) to the existing U2 moves T1 to U2. */
  lemma ScenarioTransfer(t: Tables, e: Event, now: int)
    requires t.users == map["U1" := Some("T1"), "U2" := None]
    requires "T1" in t.premium
    requires e.event.eventType == "TRANSFER"
    requires e.event.transferredFrom == ["U1"] && e.event.transferredTo == ["U2"]
    ensures Webhook(t, e, now).0.users == map["U1" := None, "U2" := Some("T1")]
    ensures Webhook(t, e, now).0.premium == t.premium
    ensures Webhook(t, e, now).1 == Ok
  {
    var t1 := t.(logs := InsertIfAbsent(t.logs, EventId(e), LogEntryOf(e, ProductIdOf(e))));
    TransferU1ToU2(t1, e.event);
  }

  lemma TransferU1ToU2(t: Tables, b: EventBody)
    requires t.users == map["U1" := Some("T1"), "U2" := None]
    requires "T1" in t.premium
    requires b.transferredFrom == ["U1"] && b.transferredTo == ["U2"]
    ensures Transfer(t, b) == (t.(users := map["U1" := None, "U2" := Some("T1")]), Ok)
  {
    var t2 := t.(users := map["U1" := None, "U2" := None]);
    FinishU1(t);
    GiveU2(t2, b.purchasedAtMs, b.expirationAtMs);
  }

  lemma FinishU1(t: Tables)
    requires t.users == map["U1" := Some("T1"), "U2" := None]
    ensures FinishAll(t, ["U1"]) == (t.(users := map["U1" := None, "U2" := None]), Some("T1"))
  {
    assert ["U1"][..0] == [];
    assert FinishAll(t, []) == (t, Some(""));
    assert SetPremiumId(t.users, "U1", None) == map["U1" := None, "U2" := None];
  }

  lemma GiveU2(t: Tables, s: int, e: int)
    requires t.users == map["U1" := None, "U2" := None]
    requires "T1" in t.premium
    ensures TransferTo(t, ["U2"], Some("U1"), "T1", s, e) == t.(users := map["U1" := None, "U2" := Some("T1")])
  {
    assert ["U2"][..0] == [];
    var r := UpdatePremiumStatus(t, "U2", "T1", "", s, e);
    assert TransferTo(t, ["U2"], Some("U1"), "T1", s, e) == r;
    assert r.users == map["U1" := None, "U2" := Some("T1")] by {
      assert r.users.Keys == {"U1", "U2"};
    }
    assert r.premium == t.premium;
  }

  /** A TRANSFER whose source holds nothing fails; the source row is rewritten, no value changes. */
  lemma ScenarioTransferNothingToMove(t: Tables, e: Event, now: int)
    requires t.users == map["U1" := None]
    requires e.event.eventType == "TRANSFER" && e.event.transferredFrom == ["U1"]
    ensures Webhook(t, e, now).1 == Fail(NoTransactionId)
    ensures Webhook(t, e, now).0.users == t.users && Webhook(t, e, now).0.premium == t.premium
  {
    var froms := e.event.transferredFrom;
    assert froms[..0] == [];
    var r := Webhook(t, e, now).0;
    assert r.users.Keys == {"U1"};
  }
}
