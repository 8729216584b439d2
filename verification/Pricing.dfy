/** The discount cascade: membership, then the best promotion, then near expiry. */
module Pricing {
  import opened Common

  /** A percentage between 0 and 100. */
  type Percent = p: real | 0.0 <= p <= 100.0 witness 0.0

  datatype Promotion = Promotion(id: nat, item: Option<string>, discount: Percent, active: bool, start: int, end: int)

  const NEAR_EXPIRY: Percent := 30.0
  const HOUR := 3_600_000
  const NEAR_EXPIRY_HOURS := 24

  /** `Math.round(base * (1 - pct / 100))`. */
  function Price(base: nat, pct: Percent): nat {
    assert base as real * (1.0 - pct / 100.0) >= 0.0;
    (base as real * (1.0 - pct / 100.0) + 0.5).Floor
  }

  lemma PriceAntitone(base: nat, p: Percent, q: Percent)
    requires p <= q
    ensures Price(base, q) <= Price(base, p)
  {
    assert base as real * (1.0 - p / 100.0) - base as real * (1.0 - q / 100.0) == base as real * (q / 100.0 - p / 100.0);
  }

  lemma PriceRange(base: nat, p: Percent)
    ensures Price(base, p) <= base && Price(base, 0.0) == base
  {
    PriceAntitone(base, 0.0, p);
    PriceAntitone(base, p, 100.0);
  }

  /** The price is the nearest whole number to what the discount leaves, a half going up. */
  lemma PriceIsNearest(base: nat, pct: Percent)
    ensures -0.5 < Price(base, pct) as real - base as real * (100.0 - pct) / 100.0 <= 0.5
  {
    assert base as real * (1.0 - pct / 100.0) == base as real * (100.0 - pct) / 100.0;
  }

  // ─── The best promotion ────────────────────────────────────────────────────

  /** Live now, and for this item or for all items. */
  predicate Applies(p: Promotion, item: string, now: int) {
    p.active && p.start <= now <= p.end && (p.item == Some(item) || p.item == None)
  }

  /** First of the applicable promotions in descending order of discount. */
  function Best(promotions: seq<Promotion>, item: string, now: int): Option<Promotion> {
    if promotions == [] then None
    else
      var rest := Best(promotions[1..], item, now);
      if Applies(promotions[0], item, now) && (rest.None? || promotions[0].discount >= rest.value.discount)
      then Some(promotions[0]) else rest
  }

  /** The best promotion is an applicable one with the highest discount; there is none only if none applies. */
  lemma {:induction false} BestIsMaximal(promotions: seq<Promotion>, item: string, now: int)
    ensures
      var best := Best(promotions, item, now);
      && (best.Some? <==> exists p :: p in promotions && Applies(p, item, now))
      && (best.Some? ==> best.value in promotions && Applies(best.value, item, now)
                         && forall p | p in promotions && Applies(p, item, now) :: p.discount <= best.value.discount)
  {
    if promotions != [] {
      BestIsMaximal(promotions[1..], item, now);
      assert promotions == [promotions[0]] + promotions[1..];
    }
  }

  // ─── The cascade ───────────────────────────────────────────────────────────

  /** What the order stores about its price. */
  datatype Quote = Quote(total: nat, original: Option<nat>, discountApplied: Option<Percent>,
                         promotion: Option<nat>, promotionDiscount: Option<Percent>)

  function MembershipStage(base: nat, membership: Option<Percent>): Quote {
    if membership.None? then Quote(base, None, None, None, None)
    else Quote(Price(base, membership.value), Some(base), membership, None, None)
  }

  /** `!discountApplied` is also true of a discount of 0. */
  function PromotionStage(base: nat, q: Quote, promo: Option<Promotion>): Quote {
    if promo.Some? && (q.discountApplied.GetOr(0.0) == 0.0 || promo.value.discount > q.discountApplied.value) then
      Quote(Price(base, promo.value.discount), Some(base), None, Some(promo.value.id), Some(promo.value.discount))
    else q
  }

  /** The discount the stored fields name; none means no discount. */
  function CurrentBest(q: Quote): Percent {
    if q.promotionDiscount.Some? then q.promotionDiscount.value else q.discountApplied.GetOr(0.0)
  }

  function ExpiryStage(base: nat, q: Quote, nearExpiry: bool): Quote {
    if nearExpiry && NEAR_EXPIRY > CurrentBest(q) then
      Quote(Price(base, NEAR_EXPIRY), Some(base), Some(NEAR_EXPIRY), None, None)
    else q
  }

  function Cascade(base: nat, membership: Option<Percent>, promo: Option<Promotion>, nearExpiry: bool): Quote {
    ExpiryStage(base, PromotionStage(base, MembershipStage(base, membership), promo), nearExpiry)
  }

  /** The batch expires within the next 24 hours and has not expired. */
  predicate NearExpiry(expiry: int, now: int) {
    0 < expiry - now <= NEAR_EXPIRY_HOURS * HOUR
  }

  // ─── Its specification ─────────────────────────────────────────────────────

  /** The discounts a customer may claim for this item now. */
  ghost predicate Claimable(d: Percent, membership: Option<Percent>, promotions: seq<Promotion>, item: string, now: int, nearExpiry: bool) {
    || d == 0.0
    || membership == Some(d)
    || (exists p :: p in promotions && Applies(p, item, now) && p.discount == d)
    || (nearExpiry && d == NEAR_EXPIRY)
  }

  /**
   * The charge is the least rounded price over every claimable discount, the stored fields name a
   * claimable discount attaining it, and it is a natural number no greater than the base price.
   */
  lemma CascadeChargesTheMinimum(base: nat, membership: Option<Percent>, promotions: seq<Promotion>,
                                 item: string, now: int, nearExpiry: bool)
    ensures
      var q := Cascade(base, membership, Best(promotions, item, now), nearExpiry);
      && Claimable(CurrentBest(q), membership, promotions, item, now, nearExpiry)
      && q.total == Price(base, CurrentBest(q))
      && (forall d | Claimable(d, membership, promotions, item, now, nearExpiry) :: q.total <= Price(base, d))
      && q.total <= base
      && (q.promotion.Some? <==> q.promotionDiscount.Some?)
      && !(q.promotion.Some? && q.discountApplied.Some?)
      && (q.promotion.Some? ==> exists p :: p in promotions && Applies(p, item, now) && p.id == q.promotion.value
                                            && Some(p.discount) == q.promotionDiscount)
  {
    var best := Best(promotions, item, now);
    var q := Cascade(base, membership, best, nearExpiry);
    BestIsMaximal(promotions, item, now);
    CurrentBestIsOffered(base, membership, best, nearExpiry);
    PriceRange(base, CurrentBest(q));
    HighestDiscount(base, membership, best, nearExpiry);
    forall d | Claimable(d, membership, promotions, item, now, nearExpiry) ensures q.total <= Price(base, d) {
      PriceAntitone(base, d, CurrentBest(q));
    }
  }

  lemma CurrentBestIsOffered(base: nat, membership: Option<Percent>, promo: Option<Promotion>, nearExpiry: bool)
    ensures
      var q := Cascade(base, membership, promo, nearExpiry);
      && (|| CurrentBest(q) == 0.0
          || membership == Some(CurrentBest(q))
          || (promo.Some? && promo.value.discount == CurrentBest(q))
          || (nearExpiry && CurrentBest(q) == NEAR_EXPIRY))
      && (q.promotion.Some? <==> q.promotionDiscount.Some?)
      && !(q.promotion.Some? && q.discountApplied.Some?)
      && (q.promotion.Some? ==> promo.Some? && promo.value.id == q.promotion.value
                                && Some(promo.value.discount) == q.promotionDiscount)
  {
  }

  lemma HighestDiscount(base: nat, membership: Option<Percent>, promo: Option<Promotion>, nearExpiry: bool)
    ensures
      var q := Cascade(base, membership, promo, nearExpiry);
      && q.total == Price(base, CurrentBest(q))
      && membership.GetOr(0.0) <= CurrentBest(q)
      && (promo.Some? ==> promo.value.discount <= CurrentBest(q))
      && (nearExpiry ==> NEAR_EXPIRY <= CurrentBest(q))
  {
    PriceRange(base, 0.0);
  }
}
