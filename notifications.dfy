/**
 * The daily special-offer job: the tokens of users without premium are
 * grouped by language, each such user's offer deadline is set a day
 * ahead, and every language's tokens are sent the offer in multicasts of
 * at most 500 tokens.
 */
module Notifications {
  import opened Wrappers
  import Firebase
  import VerifyAuth
  import Entitlements

  const BatchSize := 500
  const RetryAttempts := 3
  const OfferTitle := "PRO 87% OFF"
  const OfferBody := "Limited time offer!"
  const OfferData: map<string, string> := map["not_type" := "show_paywall"]

  type Users = map<string, VerifyAuth.UserRow>

  /** A row of the query: its token and language (either may be NULL), or a row that failed to scan. */
  datatype ScannedRow = Scanned(firebaseToken: Option<string>, language: Option<string>) | Unreadable

  datatype Multicast = Multicast(title: string, body: string, data: map<string, string>, tokens: seq<string>)

  /** The offer sent to one batch of tokens. */
  function OfferMessage(batch: seq<string>): Multicast {
    Multicast(OfferTitle, OfferBody, OfferData, batch)
  }

  /** A row that scanned and has both a token and a language. */
  predicate Usable(row: ScannedRow) {
    row.Scanned? && row.firebaseToken.Some? && row.language.Some?
  }

  // -------------------------------------------------------------------
  // The row loop
  // -------------------------------------------------------------------

  /** tokensByLanguage after the given rows, in row order. */
  function GroupByLanguage(rows: seq<ScannedRow>): map<string, seq<string>>
    decreases |rows|
  {
    if rows == [] then map[]
    else
      var grouped := GroupByLanguage(rows[..|rows| - 1]);
      var row := rows[|rows| - 1];
      if Usable(row) then
        var lang := row.language.value;
        grouped[lang := (if lang in grouped then grouped[lang] else []) + [row.firebaseToken.value]]
      else grouped
  }

  /** Reference definition: the tokens of the usable rows of one language, in row order. */
  function TokensFor(rows: seq<ScannedRow>, lang: string): seq<string>
    decreases |rows|
  {
    if rows == [] then []
    else
      (if Usable(rows[0]) && rows[0].language.value == lang then [rows[0].firebaseToken.value] else [])
      + TokensFor(rows[1..], lang)
  }

  lemma {:induction false} TokensForSnoc(rows: seq<ScannedRow>, row: ScannedRow, lang: string)
    ensures TokensFor(rows + [row], lang)
      == TokensFor(rows, lang) + (if Usable(row) && row.language.value == lang then [row.firebaseToken.value] else [])
    decreases |rows|
  {
    if rows == [] {
      assert [row][1..] == [];
    } else {
      assert (rows + [row])[1..] == rows[1..] + [row];
      TokensForSnoc(rows[1..], row, lang);
    }
  }

  /** A language is grouped exactly when some usable row has it, and its group is its tokens in row order. */
  lemma {:induction false} GroupByLanguageIsTokensFor(rows: seq<ScannedRow>, lang: string)
    ensures lang in GroupByLanguage(rows) <==> TokensFor(rows, lang) != []
    ensures lang in GroupByLanguage(rows) ==> GroupByLanguage(rows)[lang] == TokensFor(rows, lang)
    decreases |rows|
  {
    if rows != [] {
      var init := rows[..|rows| - 1];
      var row := rows[|rows| - 1];
      assert rows == init + [row];
      GroupByLanguageIsTokensFor(init, lang);
      TokensForSnoc(init, row, lang);
    }
  }

  /** A token is in some language's group exactly when a usable row carries it. */
  lemma {:induction false} TokensForHasToken(rows: seq<ScannedRow>, lang: string, token: string)
    ensures token in TokensFor(rows, lang)
      <==> exists k :: 0 <= k < |rows| && Usable(rows[k]) && rows[k].language.value == lang && rows[k].firebaseToken.value == token
    decreases |rows|
  {
    if rows != [] {
      TokensForHasToken(rows[1..], lang, token);
      assert forall k :: 1 <= k < |rows| ==> rows[k] == rows[1..][k - 1];
      if Usable(rows[0]) && rows[0].language.value == lang && rows[0].firebaseToken.value == token {
        assert token in TokensFor(rows, lang);
      }
    }
  }

  /** The UPDATE of one row: every user holding the token gets a deadline a day ahead. */
  function GrantOffer(users: Users, token: string, now: int): (u: Users)
    ensures u.Keys == users.Keys
    ensures forall id :: (id in users && users[id].firebaseToken == Some(token)
      ==> u[id] == users[id].(specialOfferDeadline := Some(now + Entitlements.DayMs)))
    ensures forall id :: id in users && users[id].firebaseToken != Some(token) ==> u[id] == users[id]
  {
    map id | id in users :: if users[id].firebaseToken == Some(token)
      then users[id].(specialOfferDeadline := Some(now + Entitlements.DayMs)) else users[id]
  }

  /** The users table after the given rows; updateOk says whether the UPDATE for a token succeeded. */
  function GrantAll(users: Users, rows: seq<ScannedRow>, now: int, updateOk: string -> bool): Users
    decreases |rows|
  {
    if rows == [] then users
    else
      var before := GrantAll(users, rows[..|rows| - 1], now, updateOk);
      var row := rows[|rows| - 1];
      if Usable(row) && updateOk(row.firebaseToken.value) then GrantOffer(before, row.firebaseToken.value, now)
      else before
  }

  /** A token some usable row carries whose UPDATE succeeded. */
  predicate Granted(rows: seq<ScannedRow>, updateOk: string -> bool, token: string) {
    exists k :: 0 <= k < |rows| && Usable(rows[k]) && rows[k].firebaseToken.value == token && updateOk(token)
  }

  /**
   * After the row loop no user is added or removed; a user whose token was
   * updated has the deadline now plus a day (premium or not, since the
   * UPDATE matches on the token alone), and every other user is unchanged.
   */
  lemma {:induction false} GrantAllEffect(users: Users, rows: seq<ScannedRow>, now: int, updateOk: string -> bool)
    ensures var u := GrantAll(users, rows, now, updateOk);
      && u.Keys == users.Keys
      && (forall id :: (id in users && users[id].firebaseToken.Some? && Granted(rows, updateOk, users[id].firebaseToken.value)
          ==> u[id] == users[id].(specialOfferDeadline := Some(now + Entitlements.DayMs))))
      && (forall id :: (id in users && !(users[id].firebaseToken.Some? && Granted(rows, updateOk, users[id].firebaseToken.value))
          ==> u[id] == users[id]))
    decreases |rows|
  {
    if rows != [] {
      var init := rows[..|rows| - 1];
      var row := rows[|rows| - 1];
      GrantAllEffect(users, init, now, updateOk);
      forall id | id in users
        ensures var t := users[id].firebaseToken;
          (t.Some? && Granted(rows, updateOk, t.value)) <==>
          (t.Some? && (Granted(init, updateOk, t.value) || (Usable(row) && updateOk(row.firebaseToken.value) && row.firebaseToken == t)))
      {
        var t := users[id].firebaseToken;
        if t.Some? && Granted(rows, updateOk, t.value) {
          var k :| 0 <= k < |rows| && Usable(rows[k]) && rows[k].firebaseToken.value == t.value && updateOk(t.value);
          if k < |init| {
            assert init[k] == rows[k];
          }
        }
        if t.Some? && Granted(init, updateOk, t.value) {
          var k :| 0 <= k < |init| && Usable(init[k]) && init[k].firebaseToken.value == t.value && updateOk(t.value);
          assert rows[k] == init[k];
        }
        if t.Some? && Usable(row) && updateOk(row.firebaseToken.value) && row.firebaseToken == t {
          assert rows[|rows| - 1] == row;
        }
      }
    }
  }

  /** The row loop: group the tokens and run the UPDATE for each usable row. */
  method GroupTokens(rows: seq<ScannedRow>, users: Users, now: int, updateOk: string -> bool)
    returns (tokensByLanguage: map<string, seq<string>>, users': Users)
    ensures tokensByLanguage == GroupByLanguage(rows)
    ensures users' == GrantAll(users, rows, now, updateOk)
  {
    tokensByLanguage := map[];
    users' := users;
    for i := 0 to |rows|
      invariant tokensByLanguage == GroupByLanguage(rows[..i])
      invariant users' == GrantAll(users, rows[..i], now, updateOk)
    {
      assert rows[..i + 1][..i] == rows[..i];
      var row := rows[i];
      if row.Unreadable? {
        continue;
      }
      if row.firebaseToken.None? || row.language.None? {
        continue;
      }
      var lang := row.language.value;
      var token := row.firebaseToken.value;
      var current := if lang in tokensByLanguage then tokensByLanguage[lang] else [];
      tokensByLanguage := tokensByLanguage[lang := current + [token]];
      if updateOk(token) {
        users' := GrantOffer(users', token, now);
      }
    }
    assert rows[..|rows|] == rows;
  }

  // -------------------------------------------------------------------
  // Batches of 500
  // -------------------------------------------------------------------

  function Min(a: int, b: int): int {
    if a <= b then a else b
  }

  /** The batches tokens[i:min(i+500, n)] for i = start, start+500, ... while i < n. */
  function BatchesFrom(tokens: seq<string>, start: nat): seq<seq<string>>
    decreases |tokens| - start
  {
    if start >= |tokens| then []
    else [tokens[start..Min(start + BatchSize, |tokens|)]] + BatchesFrom(tokens, start + BatchSize)
  }

  function Batches(tokens: seq<string>): seq<seq<string>> {
    BatchesFrom(tokens, 0)
  }

  function Flatten(batches: seq<seq<string>>): seq<string>
    decreases |batches|
  {
    if batches == [] then [] else batches[0] + Flatten(batches[1..])
  }

  /** The batches from `start` cover tokens[start..] in order, each of 1 to 500 tokens and all but the last full. */
  lemma {:induction false} BatchesFromShape(tokens: seq<string>, start: nat)
    requires start <= |tokens|
    ensures var b := BatchesFrom(tokens, start);
      && Flatten(b) == tokens[start..]
      && (forall k :: 0 <= k < |b| ==> 1 <= |b[k]| <= BatchSize)
      && (forall k :: 0 <= k < |b| - 1 ==> |b[k]| == BatchSize)
      && |b| == (|tokens| - start + BatchSize - 1) / BatchSize
    decreases |tokens| - start
  {
    var b := BatchesFrom(tokens, start);
    if start < |tokens| {
      var end := Min(start + BatchSize, |tokens|);
      if end == |tokens| {
        assert BatchesFrom(tokens, start + BatchSize) == [];
        assert tokens[start..end] == tokens[start..];
        assert b == [tokens[start..]];
        assert Flatten(b) == tokens[start..] + Flatten([]);
      } else {
        BatchesFromShape(tokens, end);
        var rest := BatchesFrom(tokens, end);
        assert b == [tokens[start..end]] + rest;
        assert b[1..] == rest;
        assert tokens[start..] == tokens[start..end] + tokens[end..];
        assert forall k :: 1 <= k < |b| ==> b[k] == rest[k - 1];
      }
    }
  }

  /** Splitting the tokens of one language into multicasts loses, adds and reorders nothing. */
  lemma BatchesShape(tokens: seq<string>)
    ensures var b := Batches(tokens);
      && Flatten(b) == tokens
      && (forall k :: 0 <= k < |b| ==> 1 <= |b[k]| <= BatchSize)
      && (forall k :: 0 <= k < |b| - 1 ==> |b[k]| == BatchSize)
      && |b| == (|tokens| + BatchSize - 1) / BatchSize
  {
    BatchesFromShape(tokens, 0);
  }

  /** The `i += 500` loop over one language's tokens. */
  method BatchTokens(tokens: seq<string>) returns (batches: seq<seq<string>>)
    ensures batches == Batches(tokens)
  {
    batches := [];
    var i := 0;
    while i < |tokens|
      invariant batches + BatchesFrom(tokens, i) == Batches(tokens)
      decreases |tokens| - i
    {
      var batch := tokens[i..Min(i + BatchSize, |tokens|)];
      assert BatchesFrom(tokens, i) == [batch] + BatchesFrom(tokens, i + BatchSize);
      batches := batches + [batch];
      i := i + BatchSize;
    }
  }

  // -------------------------------------------------------------------
  // Sending
  // -------------------------------------------------------------------

  /** deliver(m)(k): what attempt k of sending m gives. */
  type Deliver = Multicast -> nat -> Firebase.BatchResult

  /** What sending one multicast with three retries gives. */
  function SendResult(deliver: Deliver, m: Multicast): Option<Firebase.Error> {
    Firebase.Retry(Firebase.Attempts(deliver(m)), RetryAttempts).result
  }

  /** The multicasts of one language's batches, in batch order, each with its outcome. */
  function SentFor(batches: seq<seq<string>>, deliver: Deliver): seq<(Multicast, Option<Firebase.Error>)>
    decreases |batches|
  {
    if batches == [] then []
    else
      var m := OfferMessage(batches[|batches| - 1]);
      SentFor(batches[..|batches| - 1], deliver) + [(m, SendResult(deliver, m))]
  }

  /** The multicasts of several languages, taken in the given order. */
  function SentAll(tokensByLanguage: map<string, seq<string>>, order: seq<string>, deliver: Deliver): seq<(Multicast, Option<Firebase.Error>)>
    requires forall k :: 0 <= k < |order| ==> order[k] in tokensByLanguage
    decreases |order|
  {
    if order == [] then []
    else
      SentAll(tokensByLanguage, order[..|order| - 1], deliver)
      + SentFor(Batches(tokensByLanguage[order[|order| - 1]]), deliver)
  }

  /** Every message of a language carries the fixed offer and exactly one batch, in batch order. */
  lemma {:induction false} SentForMessages(batches: seq<seq<string>>, deliver: Deliver)
    ensures var s := SentFor(batches, deliver);
      && |s| == |batches|
      && forall k :: 0 <= k < |s| ==> s[k] == (OfferMessage(batches[k]), SendResult(deliver, OfferMessage(batches[k])))
    decreases |batches|
  {
    if batches != [] {
      SentForMessages(batches[..|batches| - 1], deliver);
    }
  }

  /** One language's sends. */
  method SendLanguage(tokens: seq<string>, deliver: Deliver) returns (sent: seq<(Multicast, Option<Firebase.Error>)>)
    ensures sent == SentFor(Batches(tokens), deliver)
  {
    var batches := BatchTokens(tokens);
    sent := [];
    for j := 0 to |batches|
      invariant sent == SentFor(batches[..j], deliver)
    {
      var message := OfferMessage(batches[j]);
      var resp, err := Firebase.SendEachWithRetry(deliver(message), RetryAttempts);
      assert batches[..j + 1][..j] == batches[..j];
      sent := sent + [(message, err)];
    }
    assert batches[..|batches|] == batches;
  }

  /** The language loop; Go's map order is any order, so the language is chosen freely. */
  method SendOffers(tokensByLanguage: map<string, seq<string>>, deliver: Deliver)
    returns (sent: seq<(Multicast, Option<Firebase.Error>)>, ghost order: seq<string>)
    ensures forall k :: 0 <= k < |order| ==> order[k] in tokensByLanguage
    ensures forall lang :: lang in tokensByLanguage ==> lang in order
    ensures forall j, k :: 0 <= j < k < |order| ==> order[j] != order[k]
    ensures sent == SentAll(tokensByLanguage, order, deliver)
    ensures forall k :: 0 <= k < |sent| ==> IsOffer(sent[k], deliver)
  {
    var remaining := tokensByLanguage.Keys;
    sent := [];
    order := [];
    while remaining != {}
      invariant remaining <= tokensByLanguage.Keys
      invariant forall k :: 0 <= k < |order| ==> order[k] in tokensByLanguage && order[k] !in remaining
      invariant forall lang :: lang in tokensByLanguage ==> lang in remaining || lang in order
      invariant forall j, k :: 0 <= j < k < |order| ==> order[j] != order[k]
      invariant sent == SentAll(tokensByLanguage, order, deliver)
      decreases remaining
    {
      var lang :| lang in remaining;
      var more := SendLanguage(tokensByLanguage[lang], deliver);
      assert (order + [lang])[..|order|] == order;
      sent := sent + more;
      order := order + [lang];
      remaining := remaining - {lang};
    }
    SentMessagesAreOffers(tokensByLanguage, order, deliver);
  }

  /**
   * SendPushToNonPremiumUsers. `query` is what the SELECT gives (None when
   * it fails), `updateOk` whether the UPDATE for a token succeeds and
   * `deliver` what Firebase answers; send failures are only logged.
   */
  method SendPushToNonPremiumUsers(query: Option<seq<ScannedRow>>, users: Users, now: int,
                                   updateOk: string -> bool, deliver: Deliver)
    returns (users': Users, sent: seq<(Multicast, Option<Firebase.Error>)>, ghost order: seq<string>)
    ensures query.None? ==> users' == users && sent == []
    ensures query.Some? ==> users' == GrantAll(users, query.value, now, updateOk)
    ensures query.Some? ==>
      && (forall k :: 0 <= k < |order| ==> order[k] in GroupByLanguage(query.value))
      && (forall lang :: lang in GroupByLanguage(query.value) ==> lang in order)
      && (forall j, k :: 0 <= j < k < |order| ==> order[j] != order[k])
      && sent == SentAll(GroupByLanguage(query.value), order, deliver)
  {
    if query.None? {
      return users, [], [];
    }
    var tokensByLanguage;
    tokensByLanguage, users' := GroupTokens(query.value, users, now, updateOk);
    sent, order := SendOffers(tokensByLanguage, deliver);
  }

  // -------------------------------------------------------------------
  // What the job sends, end to end
  // -------------------------------------------------------------------

  /** The tokens of all multicasts, in sending order. */
  function SentTokens(sent: seq<(Multicast, Option<Firebase.Error>)>): seq<string>
    decreases |sent|
  {
    if sent == [] then [] else SentTokens(sent[..|sent| - 1]) + sent[|sent| - 1].0.tokens
  }

  lemma {:induction false} SentTokensAppend(a: seq<(Multicast, Option<Firebase.Error>)>, b: seq<(Multicast, Option<Firebase.Error>)>)
    ensures SentTokens(a + b) == SentTokens(a) + SentTokens(b)
    decreases |b|
  {
    if b != [] {
      var init := b[..|b| - 1];
      var last := b[|b| - 1];
      assert (a + b)[..|a + b| - 1] == a + init;
      assert (a + b)[|a + b| - 1] == last;
      SentTokensAppend(a, init);
      calc {
        SentTokens(a + b);
        SentTokens(a + init) + last.0.tokens;
        SentTokens(a) + SentTokens(init) + last.0.tokens;
        SentTokens(a) + (SentTokens(init) + last.0.tokens);
      }
    } else {
      assert a + b == a;
    }
  }

  lemma {:induction false} FlattenSnoc(batches: seq<seq<string>>, last: seq<string>)
    ensures Flatten(batches + [last]) == Flatten(batches) + last
    decreases |batches|
  {
    if batches == [] {
      assert [last][1..] == [];
    } else {
      assert (batches + [last])[1..] == batches[1..] + [last];
      FlattenSnoc(batches[1..], last);
    }
  }

  /** The multicasts of one language carry exactly its batches' tokens. */
  lemma {:induction false} SentForTokens(batches: seq<seq<string>>, deliver: Deliver)
    ensures SentTokens(SentFor(batches, deliver)) == Flatten(batches)
    decreases |batches|
  {
    if batches != [] {
      var init := batches[..|batches| - 1];
      SentForTokens(init, deliver);
      assert batches == init + [batches[|batches| - 1]];
      FlattenSnoc(init, batches[|batches| - 1]);
      var m := OfferMessage(batches[|batches| - 1]);
      SentTokensAppend(SentFor(init, deliver), [(m, SendResult(deliver, m))]);
      assert SentTokens([(m, SendResult(deliver, m))]) == SentTokens([]) + m.tokens;
    }
  }

  /** The tokens sent for languages taken in `order`: each language's tokens in full, one language after another. */
  lemma {:induction false} SentAllTokens(tokensByLanguage: map<string, seq<string>>, order: seq<string>, deliver: Deliver, token: string)
    requires forall k :: 0 <= k < |order| ==> order[k] in tokensByLanguage
    ensures token in SentTokens(SentAll(tokensByLanguage, order, deliver))
      <==> exists k :: 0 <= k < |order| && token in tokensByLanguage[order[k]]
    decreases |order|
  {
    if order != [] {
      var init := order[..|order| - 1];
      var lang := order[|order| - 1];
      SentAllTokens(tokensByLanguage, init, deliver, token);
      var part := SentFor(Batches(tokensByLanguage[lang]), deliver);
      SentTokensAppend(SentAll(tokensByLanguage, init, deliver), part);
      SentForTokens(Batches(tokensByLanguage[lang]), deliver);
      BatchesShape(tokensByLanguage[lang]);
      if exists k :: 0 <= k < |order| && token in tokensByLanguage[order[k]] {
        var k :| 0 <= k < |order| && token in tokensByLanguage[order[k]];
        if k < |init| {
          assert init[k] == order[k];
        }
      }
      assert forall k :: 0 <= k < |init| ==> init[k] == order[k];
    }
  }

  lemma IndexIn(s: seq<string>, x: string) returns (j: nat)
    requires x in s
    ensures j < |s| && s[j] == x
  {
    j :| j < |s| && s[j] == x;
  }

  /** A token of a usable row is in the group of its row's language. */
  lemma UsableTokenIsGrouped(rows: seq<ScannedRow>, k: nat)
    requires k < |rows| && Usable(rows[k])
    ensures var lang := rows[k].language.value;
      lang in GroupByLanguage(rows) && rows[k].firebaseToken.value in GroupByLanguage(rows)[lang]
  {
    var lang := rows[k].language.value;
    TokensForHasToken(rows, lang, rows[k].firebaseToken.value);
    GroupByLanguageIsTokensFor(rows, lang);
  }

  /** A grouped token comes from a usable row. */
  lemma GroupedTokenIsUsable(rows: seq<ScannedRow>, lang: string, token: string)
    requires lang in GroupByLanguage(rows) && token in GroupByLanguage(rows)[lang]
    ensures exists k :: 0 <= k < |rows| && Usable(rows[k]) && rows[k].firebaseToken.value == token
  {
    GroupByLanguageIsTokensFor(rows, lang);
    TokensForHasToken(rows, lang, token);
  }

  /**
   * The job sends the offer to a token exactly when a usable query row
   * carries it, whatever order the languages are taken in.
   */
  lemma OffersReachExactlyTheUsableTokens(rows: seq<ScannedRow>, order: seq<string>, deliver: Deliver, token: string)
    requires forall k :: 0 <= k < |order| ==> order[k] in GroupByLanguage(rows)
    requires forall lang :: lang in GroupByLanguage(rows) ==> lang in order
    ensures token in SentTokens(SentAll(GroupByLanguage(rows), order, deliver))
      <==> exists k :: 0 <= k < |rows| && Usable(rows[k]) && rows[k].firebaseToken.value == token
  {
    var grouped := GroupByLanguage(rows);
    SentAllTokens(grouped, order, deliver, token);
    if k :| 0 <= k < |rows| && Usable(rows[k]) && rows[k].firebaseToken.value == token {
      UsableTokenIsGrouped(rows, k);
      var j := IndexIn(order, rows[k].language.value);
      assert token in grouped[order[j]];
    }
    if j :| 0 <= j < |order| && token in grouped[order[j]] {
      GroupedTokenIsUsable(rows, order[j], token);
    }
  }

  /** A multicast with the fixed offer and 1 to 500 tokens, paired with what sending it gave. */
  predicate IsOffer(sent: (Multicast, Option<Firebase.Error>), deliver: Deliver) {
    && sent.0.title == OfferTitle && sent.0.body == OfferBody && sent.0.data == OfferData
    && 1 <= |sent.0.tokens| <= BatchSize
    && sent.1 == SendResult(deliver, sent.0)
  }

  /** Every multicast carries the fixed offer and between 1 and 500 tokens of one language. */
  lemma {:induction false} SentMessagesAreOffers(tokensByLanguage: map<string, seq<string>>, order: seq<string>, deliver: Deliver)
    requires forall k :: 0 <= k < |order| ==> order[k] in tokensByLanguage
    ensures var s := SentAll(tokensByLanguage, order, deliver);
      forall k :: 0 <= k < |s| ==> IsOffer(s[k], deliver)
    decreases |order|
  {
    if order != [] {
      var init := order[..|order| - 1];
      var tokens := tokensByLanguage[order[|order| - 1]];
      SentMessagesAreOffers(tokensByLanguage, init, deliver);
      assert forall k :: 0 <= k < |SentAll(tokensByLanguage, init, deliver)| ==> IsOffer(SentAll(tokensByLanguage, init, deliver)[k], deliver);
      SentForMessages(Batches(tokens), deliver);
      BatchesShape(tokens);
      var before := SentAll(tokensByLanguage, init, deliver);
      var part := SentFor(Batches(tokens), deliver);
      var s := SentAll(tokensByLanguage, order, deliver);
      assert s == before + part;
      forall k | |before| <= k < |s|
        ensures s[k].0 == OfferMessage(Batches(tokens)[k - |before|])
        ensures 1 <= |s[k].0.tokens| <= BatchSize
        ensures s[k].1 == SendResult(deliver, s[k].0)
      {
        assert s[k] == part[k - |before|];
      }
      assert forall k :: 0 <= k < |before| ==> s[k] == before[k];
    }
  }
}
