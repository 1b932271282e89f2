/**
 The interactive pricing calculator: a configuration (team size, monthly
 campaigns, selected feature ids, billing period) determines a monthly price
 and a recommended plan. The monthly total is a whole number of dollars; the
 yearly 20% discount is exact rational arithmetic instead of a binary float.
 */
module Pricing {
  import Lists

  datatype Period = Monthly | Yearly

  /** The calculator's state: `users` and `campaigns` come from the sliders,
      `features` is the list of checked feature ids in the order they were
      checked (it may contain ids that cost nothing, or repeated ids). */
  datatype Config = Config(users: int, campaigns: int, features: seq<string>, period: Period)

  datatype Plan = Starter | Professional | Enterprise

  /** What the calculator displays: the price per month and the plan it recommends. */
  datatype Quote = Quote(price: real, plan: Plan)

  /** One row of the feature table shown as checkboxes. */
  datatype Feature = Feature(id: string, caption: string, price: nat, included: bool)

  const AiAnalytics := "ai-analytics"
  const Automation := "automation"
  const AdvancedAnalytics := "advanced-analytics"
  const WhiteLabel := "white-label"
  const CustomIntegrations := "custom-integrations"

  /** The feature table, in display order. Included features are free and
      their checkboxes are disabled. */
  const Catalogue: seq<Feature> := [
    Feature(AiAnalytics, "AI Analytics", 0, true),
    Feature(Automation, "Campaign Automation", 0, true),
    Feature(AdvancedAnalytics, "Advanced Analytics", 29, false),
    Feature(WhiteLabel, "White Label Reports", 49, false),
    Feature(CustomIntegrations, "Custom Integrations", 79, false)
  ]

  /** Slider ranges. */
  const UsersMin := 1
  const UsersMax := 50
  const CampaignsMin := 1
  const CampaignsMax := 100

  /** Campaigns included in every price before the per-campaign surcharge starts. */
  const IncludedCampaigns := 10
  const PricePerExtraCampaign := 5

  /** The state the calculator mounts with. */
  const InitialConfig := Config(5, 10, [AiAnalytics, Automation], Monthly)

  predicate WithinSliders(c: Config) {
    UsersMin <= c.users <= UsersMax && CampaignsMin <= c.campaigns <= CampaignsMax
  }

  /** Base price by team-size tier; both tier boundaries are inclusive. */
  function BasePrice(users: int): (r: nat)
    ensures users <= 5 <==> r == 49
    ensures 6 <= users <= 20 <==> r == 149
    ensures users > 20 <==> r == 399
  {
    if users <= 5 then 49
    else if users <= 20 then 149
    else 399
  }

  /** Linear surcharge for campaigns beyond the included ones. */
  function CampaignSurcharge(campaigns: int): (r: nat)
    ensures campaigns <= IncludedCampaigns ==> r == 0
    ensures campaigns > IncludedCampaigns ==> r == 5 * (campaigns - 10)
  {
    var extraCampaigns := if campaigns - IncludedCampaigns > 0 then campaigns - IncludedCampaigns else 0;
    extraCampaigns * PricePerExtraCampaign
  }

  /** The three paid add-ons, each charged once if its id occurs anywhere in
      the list. */
  function AddonSurcharge(features: seq<string>): (r: nat)
    ensures r <= 29 + 49 + 79
  {
    (if AdvancedAnalytics in features then 29 else 0)
    + (if WhiteLabel in features then 49 else 0)
    + (if CustomIntegrations in features then 79 else 0)
  }

  /** The undiscounted monthly total. It never drops below the cheapest base
      price, and within the slider ranges it never exceeds the most expensive
      tier with every campaign and every add-on. */
  function MonthlyTotal(c: Config): (r: nat)
    ensures r >= 49
    ensures WithinSliders(c) ==> r <= 1006
  {
    BasePrice(c.users) + CampaignSurcharge(c.campaigns) + AddonSurcharge(c.features)
  }

  /** Plan recommendation by thresholds on the (possibly discounted) price. */
  function Recommend(price: real): (p: Plan)
    ensures p == Starter <==> price <= 60.0
    ensures p == Professional <==> 60.0 < price <= 200.0
    ensures p == Enterprise <==> price > 200.0
  {
    if price <= 60.0 then Starter
    else if price <= 200.0 then Professional
    else Enterprise
  }

  function PlanRank(p: Plan): nat {
    match p
    case Starter => 0
    case Professional => 1
    case Enterprise => 2
  }

  /** `calculatePrice`: the price (before display rounding) and recommended plan for a
      configuration. The yearly price is four fifths of the monthly total, and
      the plan is chosen from the discounted price. */
  function Estimate(c: Config): (q: Quote)
    ensures c.period == Monthly ==> q.price == MonthlyTotal(c) as real
    ensures c.period == Yearly ==> q.price == MonthlyTotal(c) as real * 4.0 / 5.0
    ensures q.plan == Recommend(q.price)
    ensures q.price > 0.0
  {
    var total := MonthlyTotal(c) as real;
    var price := if c.period == Yearly then total * 0.8 else total;
    Quote(price, Recommend(price))
  }

  /** The checkbox handler for a feature: checking appends the id, unchecking
      drops every occurrence of it. Nothing but the feature list changes. */
  function FeatureChanged(c: Config, id: string, checked: bool): (r: Config)
    ensures r.users == c.users && r.campaigns == c.campaigns && r.period == c.period
    ensures checked ==> r.features == c.features + [id]
    ensures !checked ==> id !in r.features
    ensures !checked ==> multiset(r.features) == multiset(c.features)[id := 0]
    ensures !checked ==> Lists.IsSubsequence(r.features, c.features)
  {
    if checked then c.(features := c.features + [id])
    else c.(features := Lists.RemoveAll(c.features, id))
  }

  /** The "Yearly Savings" figure before display rounding: the discounted
      monthly price times 12 times 0.25. */
  function YearlySavings(c: Config): (s: real)
    requires c.period == Yearly
    ensures s == 12.0 * (Estimate(c.(period := Monthly)).price - Estimate(c).price)
  {
    Estimate(c).price * 12.0 * 0.25
  }

  /** Sum of the prices of the catalogue entries whose id is selected. */
  function CatalogueSurcharge(table: seq<Feature>, features: seq<string>): nat {
    if |table| == 0 then 0
    else
      (if table[0].id in features then table[0].price else 0)
      + CatalogueSurcharge(table[1..], features)
  }

  // ---------------------------------------------------------------------------
  // Properties
  // ---------------------------------------------------------------------------

  /** The add-on chain in `calculatePrice` charges exactly the catalogue price
      of every selected feature, included features contributing nothing. */
  lemma AddonSurchargeMatchesCatalogue(features: seq<string>)
    ensures AddonSurcharge(features) == CatalogueSurcharge(Catalogue, features)
  {
    var t := Catalogue;
    assert t[4..][1..] == [];
    assert t[3..][1..] == t[4..];
    assert t[2..][1..] == t[3..];
    assert t[1..][1..] == t[2..];
    assert CatalogueSurcharge(t[4..], features) == (if CustomIntegrations in features then 79 else 0);
    assert CatalogueSurcharge(t[3..], features)
      == (if WhiteLabel in features then 49 else 0) + (if CustomIntegrations in features then 79 else 0);
    assert CatalogueSurcharge(t[2..], features) == AddonSurcharge(features);
    assert CatalogueSurcharge(t[1..], features) == AddonSurcharge(features);
  }

  /** The price depends on the feature list only through the set of ids in
      it: order and repetition are irrelevant. */
  lemma PriceIgnoresOrderAndRepeats(c: Config, features: seq<string>)
    requires forall x :: x in c.features <==> x in features
    ensures MonthlyTotal(c.(features := features)) == MonthlyTotal(c)
  {
  }

  /** Selecting an included feature (or any id that is not a paid add-on) is free. */
  lemma FreeFeatureCostsNothing(c: Config, id: string)
    requires id !in {AdvancedAnalytics, WhiteLabel, CustomIntegrations}
    ensures MonthlyTotal(FeatureChanged(c, id, true)) == MonthlyTotal(c)
  {
  }

  /** Each paid add-on adds exactly its catalogue price when it is newly selected. */
  lemma AddonAddsItsPrice(c: Config, k: nat)
    requires 2 <= k < |Catalogue|
    requires Catalogue[k].id !in c.features
    ensures MonthlyTotal(FeatureChanged(c, Catalogue[k].id, true)) == MonthlyTotal(c) + Catalogue[k].price
  {
  }

  /** More users never costs less. */
  lemma MonotoneInUsers(c: Config, users: int)
    requires c.users <= users
    ensures MonthlyTotal(c) <= MonthlyTotal(c.(users := users))
  {
  }

  /** More campaigns never cost less. */
  lemma MonotoneInCampaigns(c: Config, campaigns: int)
    requires c.campaigns <= campaigns
    ensures MonthlyTotal(c) <= MonthlyTotal(c.(campaigns := campaigns))
  {
  }

  /** Adding ids to the feature list never lowers the price. */
  lemma MonotoneInFeatures(c: Config, features: seq<string>)
    requires forall x :: x in c.features ==> x in features
    ensures MonthlyTotal(c) <= MonthlyTotal(c.(features := features))
  {
  }

  /** Checking a feature never lowers the price; unchecking never raises it. */
  lemma FeatureChangeMonotone(c: Config, id: string)
    ensures MonthlyTotal(c) <= MonthlyTotal(FeatureChanged(c, id, true))
    ensures MonthlyTotal(FeatureChanged(c, id, false)) <= MonthlyTotal(c)
  {
  }

  /** Unchecking right after checking leaves the list with every occurrence
      of the id removed (and so the price of never having selected it). */
  lemma CheckThenUncheck(c: Config, id: string)
    ensures FeatureChanged(FeatureChanged(c, id, true), id, false).features == Lists.RemoveAll(c.features, id)
  {
    Lists.RemoveAllConcat(c.features, [id], id);
    assert Lists.RemoveAll([id], id) == [];
  }

  /** The bounds of the monthly price within the slider ranges are attained. */
  lemma PriceBoundsAttained()
    ensures WithinSliders(Config(1, 1, [], Monthly)) && MonthlyTotal(Config(1, 1, [], Monthly)) == 49
    ensures var c := Config(50, 100, [AdvancedAnalytics, WhiteLabel, CustomIntegrations], Monthly);
      WithinSliders(c) && MonthlyTotal(c) == 1006
  {
  }

  /** For the same configuration, the yearly price is four fifths of the monthly one. */
  lemma YearlyIsFourFifthsOfMonthly(c: Config)
    ensures Estimate(c.(period := Yearly)).price == Estimate(c.(period := Monthly)).price * 4.0 / 5.0
  {
  }

  /** No monthly total is a multiple of 5: every base price and every add-on
      price is 4 more than a multiple of 5, and the campaign surcharge is a
      multiple of 5. So a yearly price (4/5 of the total) is never a whole
      number, never lands on a plan threshold, and stays at least 0.8 away
      from it; a float rounding of the discount cannot change the plan. */
  lemma YearlyPriceAvoidsThresholds(c: Config)
    ensures MonthlyTotal(c) % 5 != 0
    ensures c.period == Yearly ==>
      var p := Estimate(c).price;
      (p <= 59.2 || p >= 60.8) && (p <= 199.2 || p >= 200.8)
  {
  }

  /** A higher price never gets a lower plan. */
  lemma RecommendMonotone(p: real, q: real)
    requires p <= q
    ensures PlanRank(Recommend(p)) <= PlanRank(Recommend(q))
  {
  }

  /** The recommendation is taken from the discounted price: 74 a month is a
      Professional price, but billed yearly it is 59.2, a Starter price. */
  lemma PlanUsesDiscountedPrice()
    ensures var c := Config(5, 15, [], Monthly);
      Estimate(c).plan == Professional && Estimate(c.(period := Yearly)) == Quote(59.2, Starter)
  {
  }

  /** The mounted configuration costs 49 a month and recommends Starter. */
  lemma InitialQuote()
    ensures Estimate(InitialConfig) == Quote(49.0, Starter)
  {
  }

  /** Worked examples: the starter price billed yearly, and the top seat tier
      with white-label reports. */
  lemma ExampleQuotes()
    ensures Estimate(Config(5, 10, [], Yearly)) == Quote(39.2, Starter)
    ensures Estimate(Config(25, 10, [WhiteLabel], Monthly)) == Quote(448.0, Enterprise)
  {
  }
}
