/**
 * The authentication middleware: it looks the caller up by id and session,
 * exposes the premium record only while it is valid, and applies the
 * per-request CASE update to the user's row.
 */
module VerifyAuth {
  import opened Wrappers
  import Entitlements

  /** Coins granted on every weekly reset. */
  const ResetCoins := 2
  const WeekMs := 7 * Entitlements.DayMs

  /** The columns of one `users` row that the middleware reads or writes; times in ms. */
  datatype UserRow = UserRow(
    session: Option<string>,
    premiumId: Option<Entitlements.TxnId>,
    firebaseToken: Option<string>,
    coin: Option<int>,
    coinResetDate: Option<int>,
    debug: Option<bool>,
    specialOfferDeadline: Option<int>,
    lastOnline: Option<int>,
    language: Option<string>,
    ipAddress: Option<string>,
    country: Option<string>,
    buildNumber: Option<int>,
    store: Option<string>)

  /**
   * What the request carries: the user id and session set by the token
   * check, the parsed `language`, `version` and `store` headers (None when
   * absent or unparseable) and the raw Cloudflare IP and country headers.
   */
  datatype Request = Request(
    userId: string,
    session: string,
    language: Option<string>,
    buildNumber: Option<int>,
    store: Option<string>,
    ip: string,
    country: string)

  /** model.User as the middleware fills it in; premiumExpireDate in Unix seconds. */
  datatype User = User(
    id: string,
    firebaseToken: Option<string>,
    premiumType: Option<string>,
    premiumExpireDate: int,
    coin: int,
    debug: Option<bool>,
    specialOfferDeadline: Option<int>)

  datatype AuthResult = Unauthorized | Authorized(user: User)

  /** The LEFT JOIN condition: the referenced premium record, if it never expires or expires after now. */
  function VisiblePremium(premium: map<Entitlements.TxnId, Entitlements.Premium>, premiumId: Option<Entitlements.TxnId>, now: int): (r: Option<Entitlements.Premium>)
    ensures r.Some? ==> premiumId.Some? && premiumId.value in premium && r.value == premium[premiumId.value]
    ensures r.Some? ==> r.value.expireDate.None? || r.value.expireDate.value > now
    ensures premiumId.Some? && premiumId.value in premium && r.None? ==>
      premium[premiumId.value].expireDate.Some? && premium[premiumId.value].expireDate.value <= now
  {
    if premiumId.Some? && premiumId.value in premium then
      var record := premium[premiumId.value];
      if record.expireDate.None? || record.expireDate.value > now then Some(record) else None
    else None
  }

  /** The coin CASE: a NULL or past reset date means the weekly coins are due. */
  predicate CoinDue(coinResetDate: Option<int>, now: int) {
    coinResetDate.None? || coinResetDate.value < now
  }

  /** `case when $n is null then column else $n end`. */
  function OverwriteIfGiven<T>(column: Option<T>, incoming: Option<T>): (r: Option<T>)
    ensures incoming.Some? ==> r == incoming
    ensures incoming.None? ==> r == column
  {
    if incoming.Some? then incoming else column
  }

  /** The country header values that do not name a country. */
  predicate IsPlaceholderCountry(country: string) {
    country == "" || country == "XX" || country == "T1"
  }

  /** The row after the middleware's UPDATE. */
  function UpdatedRow(row: UserRow, req: Request, now: int): (r: UserRow)
    ensures r.lastOnline == Some(now)
    ensures CoinDue(row.coinResetDate, now) ==> r.coin == Some(ResetCoins) && r.coinResetDate == Some(now + WeekMs)
    ensures !CoinDue(row.coinResetDate, now) ==> r.coin == row.coin && r.coinResetDate == row.coinResetDate
    ensures !CoinDue(r.coinResetDate, now)
    ensures r.language == (if req.language.Some? then req.language else row.language)
    ensures r.buildNumber == (if req.buildNumber.Some? then req.buildNumber else row.buildNumber)
    ensures r.store == (if req.store.Some? then req.store else row.store)
    ensures r.ipAddress == (if req.ip == "" then row.ipAddress else Some(req.ip))
    ensures r.country == (if IsPlaceholderCountry(req.country) then row.country else Some(req.country))
    ensures r.session == row.session && r.premiumId == row.premiumId && r.firebaseToken == row.firebaseToken
    ensures r.debug == row.debug && r.specialOfferDeadline == row.specialOfferDeadline
  {
    var due := CoinDue(row.coinResetDate, now);
    row.(
      lastOnline := Some(now),
      coin := if due then Some(ResetCoins) else row.coin,
      coinResetDate := if due then Some(now + WeekMs) else row.coinResetDate,
      language := OverwriteIfGiven(row.language, req.language),
      ipAddress := if req.ip == "" then row.ipAddress else Some(req.ip),
      country := if IsPlaceholderCountry(req.country) then row.country else Some(req.country),
      buildNumber := OverwriteIfGiven(row.buildNumber, req.buildNumber),
      store := OverwriteIfGiven(row.store, req.store))
  }

  /** Seeing the same request twice at the same instant changes the row once. */
  lemma UpdatedRowIdempotent(row: UserRow, req: Request, now: int)
    ensures UpdatedRow(UpdatedRow(row, req, now), req, now) == UpdatedRow(row, req, now)
  {
    var once := UpdatedRow(row, req, now);
    assert !CoinDue(once.coinResetDate, now);
  }

  /**
   * VerifyAuthMiddleware.Handler: returns the outcome and the users table
   * (keyed by id) after the request's UPDATE.
   */
  method Handler(users: map<string, UserRow>, premium: map<Entitlements.TxnId, Entitlements.Premium>, req: Request, now: int)
    returns (result: AuthResult, users': map<string, UserRow>)
    ensures req.userId == "" ==> result == Unauthorized
    ensures (req.userId !in users || users[req.userId].session != Some(req.session)) ==> result == Unauthorized
    ensures result == Unauthorized ==> users' == users
    ensures result.Authorized? <==>
      req.userId != "" && req.userId in users && users[req.userId].session == Some(req.session)
    ensures result.Authorized? ==>
      var row := users[req.userId];
      var visible := VisiblePremium(premium, row.premiumId, now);
      var user := result.user;
      && users' == users[req.userId := UpdatedRow(row, req, now)]
      && user.id == req.userId
      && user.premiumType == (if visible.Some? then Some(visible.value.premiumType) else None)
      && user.premiumExpireDate == (if visible.Some? && visible.value.expireDate.Some? then visible.value.expireDate.value / 1000 else 0)
      && user.coin == (if CoinDue(row.coinResetDate, now) then ResetCoins else row.coin.GetOr(0))
      && user.coin == users'[req.userId].coin.GetOr(0)
      && user.specialOfferDeadline == (if row.specialOfferDeadline.Some? && row.specialOfferDeadline.value < now then None else row.specialOfferDeadline)
      && (user.specialOfferDeadline.Some? ==> user.specialOfferDeadline.value >= now)
      && user.firebaseToken == row.firebaseToken
      && user.debug == row.debug
  {
    users' := users;
    if req.userId == "" {
      return Unauthorized, users';
    }
    if req.userId !in users || users[req.userId].session != Some(req.session) {
      return Unauthorized, users';
    }
    var row := users[req.userId];
    var visible := VisiblePremium(premium, row.premiumId, now);
    var premiumType := if visible.Some? then Some(visible.value.premiumType) else None;
    var premiumExpireDate := if visible.Some? then visible.value.expireDate else None;
    var user := User("", row.firebaseToken, premiumType, 0, row.coin.GetOr(0), row.debug, row.specialOfferDeadline);
    if user.specialOfferDeadline.Some? && user.specialOfferDeadline.value < now {
      user := user.(specialOfferDeadline := None);
    }
    users' := users[req.userId := UpdatedRow(row, req, now)];
    if row.coinResetDate.None? || now > row.coinResetDate.value {
      user := user.(coin := ResetCoins);
    }
    user := user.(id := req.userId);
    if premiumExpireDate.Some? {
      // time.Time.Unix rounds down to whole seconds
      user := user.(premiumExpireDate := premiumExpireDate.value / 1000);
    }
    result := Authorized(user);
  }
}
