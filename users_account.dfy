/**
 * GET account: the paywall offerings and account fields returned to the
 * client for the user the authentication middleware loaded.
 */
module UsersAccount {
  import opened Wrappers
  import VerifyAuth

  const SpecialDiscount := 87
  const Packages := ["$rc_annual", "$rc_weekly"]
  const Discounts := ["sappsr_pro_c_1w_trial_2"]

  datatype Special = Special(discount: int, duration: int)

  datatype Offerings = Offerings(premium: seq<string>, packages: seq<string>, special: Option<Special>, discounts: seq<string>)

  datatype Response = Response(
    offerings: Offerings,
    coin: int,
    premiumType: Option<string>,
    premiumExpireDate: int,
    debug: Option<bool>,
    alternativePaywall: bool)

  predicate HasSuffix(s: string, suffix: string) {
    |suffix| <= |s| && s[|s| - |suffix|..] == suffix
  }

  /** Whole seconds in a span of ms, rounded toward zero as Go's int conversion does. */
  function WholeSeconds(ms: int): (s: int)
    ensures ms >= 0 ==> 0 <= s * 1000 <= ms < s * 1000 + 1000
    ensures ms < 0 ==> s * 1000 - 1000 < ms <= s * 1000 <= 0
  {
    if ms >= 0 then ms / 1000 else -((-ms) / 1000)
  }

  /** The paywall variant letter: "b" while a special offer is running. */
  function Variant(user: VerifyAuth.User): (v: string)
    ensures v == "b" <==> user.specialOfferDeadline.Some?
    ensures v == "a" || v == "b"
  {
    if user.specialOfferDeadline.Some? then "b" else "a"
  }

  function Product(variant: string, period: string): string {
    "sappsr_pro_" + variant + period
  }

  /** The subscriptions offered: none shorter than or equal to the current plan. */
  function PremiumProducts(user: VerifyAuth.User): (products: seq<string>)
    ensures user.premiumType.None? ==> products == [Product(Variant(user), "_1w"), Product(Variant(user), "_1m")]
    ensures user.premiumType.Some? && HasSuffix(user.premiumType.value, "_1w") ==> products == [Product(Variant(user), "_1m")]
    ensures user.premiumType.Some? && !HasSuffix(user.premiumType.value, "_1w") && HasSuffix(user.premiumType.value, "_1m") ==> products == []
    ensures user.premiumType.Some? && !HasSuffix(user.premiumType.value, "_1w") && !HasSuffix(user.premiumType.value, "_1m") ==>
      products == [Product(Variant(user), "_1w"), Product(Variant(user), "_1m")]
  {
    var variant := Variant(user);
    if user.premiumType.Some? && HasSuffix(user.premiumType.value, "_1w") then [Product(variant, "_1m")]
    else if user.premiumType.Some? && HasSuffix(user.premiumType.value, "_1m") then []
    else [Product(variant, "_1w"), Product(variant, "_1m")]
  }

  /** GetAccount.Handler; `now` is the instant of the request in ms. */
  function GetAccount(user: VerifyAuth.User, now: int): (r: Response)
    ensures r.offerings.premium == PremiumProducts(user)
    ensures r.offerings.packages == Packages && r.offerings.discounts == Discounts
    ensures r.offerings.special.Some? <==> user.specialOfferDeadline.Some?
    ensures r.offerings.special.Some? ==>
      r.offerings.special.value.discount == SpecialDiscount
      && r.offerings.special.value.duration == WholeSeconds(user.specialOfferDeadline.value - now)
    ensures r.coin == user.coin && r.premiumType == user.premiumType
    ensures r.premiumExpireDate == user.premiumExpireDate && r.debug == user.debug
    ensures !r.alternativePaywall
  {
    var special := if user.specialOfferDeadline.Some? then
      Some(Special(SpecialDiscount, WholeSeconds(user.specialOfferDeadline.value - now)))
    else None;
    Response(Offerings(PremiumProducts(user), Packages, special, Discounts),
      user.coin, user.premiumType, user.premiumExpireDate, user.debug, false)
  }

  lemma ProductEnds(variant: string, period: string)
    ensures HasSuffix(Product(variant, period), period)
  {
    var p := Product(variant, period);
    assert p[|p| - |period|..] == period;
  }

  /**
   * Offerings only upgrade: every product is for the running variant, and a
   * weekly or monthly subscriber is never offered a plan of the same period.
   */
  lemma {:induction false} OfferingsOnlyUpgrade(user: VerifyAuth.User)
    ensures forall p :: p in PremiumProducts(user) ==>
      p == Product(Variant(user), "_1w") || p == Product(Variant(user), "_1m")
    ensures user.premiumType.Some? && HasSuffix(user.premiumType.value, "_1w") ==>
      forall p :: p in PremiumProducts(user) ==> HasSuffix(p, "_1m") && !HasSuffix(p, "_1w")
    ensures user.premiumType.Some? && HasSuffix(user.premiumType.value, "_1m") ==> PremiumProducts(user) == []
  {
    var m := Product(Variant(user), "_1m");
    ProductEnds(Variant(user), "_1m");
    SuffixLastChar(m, "_1m");
    SuffixLastChar(m, "_1w");
    if user.premiumType.Some? {
      SuffixLastChar(user.premiumType.value, "_1m");
      SuffixLastChar(user.premiumType.value, "_1w");
    }
  }

  lemma SuffixLastChar(s: string, suffix: string)
    requires |suffix| > 0
    ensures HasSuffix(s, suffix) ==> s[|s| - 1] == suffix[|suffix| - 1]
  {
    if HasSuffix(s, suffix) {
      assert s[|s| - |suffix|..][|suffix| - 1] == s[|s| - 1];
    }
  }

  /**
   * The countdown is never negative for a deadline the middleware let
   * through (it clears deadlines before now), and it is zero for the last
   * second before the deadline.
   */
  lemma CountdownNonNegative(user: VerifyAuth.User, now: int)
    requires user.specialOfferDeadline.Some? && user.specialOfferDeadline.value >= now
    ensures GetAccount(user, now).offerings.special.value.duration >= 0
    ensures user.specialOfferDeadline.value - now < 1000 ==> GetAccount(user, now).offerings.special.value.duration == 0
  {
  }
}
