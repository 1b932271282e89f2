# Landing-page controllers: pricing estimator, carousel, accordion

A Dafny model of the three pieces of decision logic in the AI marketing suite
landing page. The rest of the page is presentational.

- **Pricing estimator** (`pricing.dfy`, module `Pricing`). The calculator's
  configuration is team size, monthly campaigns, checked feature ids and billing
  period. From it `calculatePrice` derives a monthly price and a recommended plan.
  - The base price comes from the team-size tier: 49, 149 or 399.
  - Each campaign beyond 10 adds 5.
  - Each paid add-on adds a flat 29, 49 or 79.
  - Yearly billing takes 20% off.
  - The plan is picked by thresholds on the discounted price before display rounding.

  The monthly total is a `nat`. The discount is exact `real` arithmetic
  (`total * 4/5`) instead of a binary float. This cannot change a
  recommendation: no monthly total is a multiple of 5, so a yearly price is
  never a whole number and stays at least 0.8 away from both plan thresholds
  (`Pricing.YearlyPriceAvoidsThresholds`). The feature checkbox handler appends
  the id when a box is checked and filters it out when it is unchecked.
- **Carousel index controller** (`carousel.dfy`, module `Carousel`). This models
  `goToNext`, `goToPrevious` and `goToSlide` as total functions of the index and
  the slide count. The autoplay interval is a `Tick` that fires `goToNext` only
  when autoplay is on and there are at least two slides.
- **Accordion open-list controller** (`accordion.dfy`, module `Accordion`). This
  models `toggleItem` on the list of open ids, which starts empty.
  - In multi-expand mode the id is appended or filtered out.
  - In single-expand mode the result is `[]` or `[id]`.
- **List helpers** (`lists.dfy`, module `Lists`). The "filter out every occurrence
  of an id" idiom is shared by the checkbox handler and the accordion. This module
  also defines the subsequence and no-duplicates predicates the contracts use.

The "Yearly Savings" figure multiplies the discounted monthly price by
12 × 0.25, while the discount itself is 0.2. This looks inconsistent, but it is
not. Four fifths of the monthly total, times 0.25, is exactly one fifth of the
monthly total. So the figure is precisely 12 × (monthly price − yearly price).
`Pricing.YearlySavings` proves this, before display rounding.

Three behaviours of the code are worth stating, because a reader might expect guards that are not there:
- Team size and campaign count are not clamped. The sliders bound them to 1..50
  and 1..100, and `calculatePrice` accepts any number. The range bound is
  therefore stated under `WithinSliders`.
- `toggleItem` does not know the panel list. Toggling an id that no panel has
  still adds it to the open list, and there is no "unknown id is a no-op" check.
- `goToSlide` does not clamp. The only caller is the dot indicators, which pass
  only indices in range (`Carousel.DotTargets`).

## Model

| member | source | states |
|---|---|---|
| Pricing.BasePrice | components/ui/PricingCalculator.tsx:32-38 | base price is 49 exactly when users ≤ 5, 149 exactly when 6 ≤ users ≤ 20, 399 exactly when users > 20 (inclusive boundaries) |
| Pricing.CampaignSurcharge | components/ui/PricingCalculator.tsx:41-42 | surcharge is 0 for at most 10 campaigns and 5·(campaigns − 10) above that |
| Pricing.AddonSurcharge | components/ui/PricingCalculator.tsx:45-47 | the add-on surcharge never exceeds the sum of the three add-on prices |
| Pricing.MonthlyTotal | components/ui/PricingCalculator.tsx:29-47 | the monthly total is at least 49, and at most 1006 whenever users and campaigns lie within the slider ranges |
| Pricing.Recommend | components/ui/PricingCalculator.tsx:57-59 | Starter iff price ≤ 60, Professional iff 60 < price ≤ 200, Enterprise iff price > 200 |
| Pricing.Estimate | components/ui/PricingCalculator.tsx:28-60 | monthly price is the monthly total, yearly price is 4/5 of it, the plan is recommended from that discounted price before display rounding, and the price is positive |
| Pricing.FeatureChanged | components/ui/PricingCalculator.tsx:146-157 | checking appends the id; unchecking removes every occurrence, keeps every other id with its multiplicity and in its order; nothing else in the configuration changes |
| Pricing.YearlySavings | components/ui/PricingCalculator.tsx:231-236 | the savings figure (discounted price × 12 × 0.25) equals 12 × (monthly price − yearly price) for the same configuration |
| Pricing.AddonSurchargeMatchesCatalogue | components/ui/PricingCalculator.tsx:45-47 | the add-on chain charges exactly the sum of the feature table's prices over the selected ids; the included features contribute 0 |
| Pricing.PriceIgnoresOrderAndRepeats | components/ui/PricingCalculator.tsx:45-47 | two feature lists with the same ids, in any order and with any repetition, give the same price |
| Pricing.FreeFeatureCostsNothing | components/ui/PricingCalculator.tsx:67-68 | checking an id that is not a paid add-on (such as the included ones) leaves the price unchanged |
| Pricing.AddonAddsItsPrice | components/ui/PricingCalculator.tsx:69-71 | checking a not-yet-selected paid add-on raises the monthly total by exactly its table price |
| Pricing.MonotoneInUsers | components/ui/PricingCalculator.tsx:32-38 | more users never give a lower monthly total |
| Pricing.MonotoneInCampaigns | components/ui/PricingCalculator.tsx:41-42 | more campaigns never give a lower monthly total |
| Pricing.MonotoneInFeatures | components/ui/PricingCalculator.tsx:45-47 | a feature list containing every id of another never costs less |
| Pricing.FeatureChangeMonotone | components/ui/PricingCalculator.tsx:146-157 | checking a box never lowers the price and unchecking never raises it |
| Pricing.CheckThenUncheck | components/ui/PricingCalculator.tsx:146-157 | checking then unchecking an id leaves the original list with every occurrence of that id removed |
| Pricing.PriceBoundsAttained | components/ui/PricingCalculator.tsx:97-122 | the bounds 49 and 1006 are reached by configurations within the slider ranges |
| Pricing.YearlyIsFourFifthsOfMonthly | components/ui/PricingCalculator.tsx:50-52 | for the same configuration the yearly price is 4/5 of the monthly price |
| Pricing.YearlyPriceAvoidsThresholds | components/ui/PricingCalculator.tsx:29-59 | no monthly total is a multiple of 5, so a yearly price is at least 0.8 away from the 60 and 200 plan thresholds |
| Pricing.RecommendMonotone | components/ui/PricingCalculator.tsx:57-59 | a higher price never gets a lower-ranked plan |
| Pricing.PlanUsesDiscountedPrice | components/ui/PricingCalculator.tsx:50-59 | a 74-a-month configuration is Professional monthly but Starter (59.2) yearly, so the plan is taken from the discounted price |
| Pricing.InitialQuote | components/ui/PricingCalculator.tsx:18-23 | the mounted configuration (5 users, 10 campaigns, the included features, monthly) costs 49 and recommends Starter |
| Pricing.ExampleQuotes | components/ui/PricingCalculator.tsx:28-60 | 5 users, 10 campaigns, yearly is 39.2 (Starter); 25 users with white-label reports, monthly, is 448 (Enterprise) |
| Lists.RemoveAll | components/ui/PricingCalculator.tsx:155 | filtering drops every occurrence of the id, keeps exactly the other elements with their multiplicities, as a subsequence of the input, and is the identity when the id is absent |
| Lists.RemoveAllConcat | components/ui/Accordion.tsx:31 | filtering distributes over concatenation |
| Lists.RemoveAllNoDuplicates | components/ui/Accordion.tsx:31 | filtering keeps a duplicate-free list duplicate-free |
| Carousel.Next | components/ui/Carousel.tsx:40-42 | from a valid index the result is a valid index and equals (i + 1) mod n |
| Carousel.Previous | components/ui/Carousel.tsx:36-38 | from a valid index the result is a valid index and equals (i − 1 + n) mod n |
| Carousel.GoToSlide | components/ui/Carousel.tsx:32-34 | jumping to j yields exactly j |
| Carousel.DotTargets | components/ui/Carousel.tsx:90-95 | no dots when dots are disabled or there are fewer than two slides; otherwise one dot per slide, dot k passing index k, always a valid index |
| Carousel.ArrowClick | components/ui/Carousel.tsx:72-86 | without rendered arrows (disabled, or fewer than two slides) a click cannot happen and the index stays; otherwise the right arrow gives (i + 1) mod n and the left (i − 1 + n) mod n, a valid index |
| Carousel.Tick | components/ui/Carousel.tsx:44-49 | a timer firing advances to (i + 1) mod n when autoplay is on and n > 1, and changes nothing otherwise |
| Carousel.AutoPlay | components/ui/Carousel.tsx:44-49 | after t firings from a valid index the index is t applications of next, equal to (i + t) mod n, when autoplay is active; unchanged otherwise; always valid |
| Carousel.PreviousAfterNext | components/ui/Carousel.tsx:36-42 | previous undoes next on every valid index |
| Carousel.NextAfterPrevious | components/ui/Carousel.tsx:36-42 | next undoes previous on every valid index |
| Carousel.NextNIsModular | components/ui/Carousel.tsx:40-42 | k applications of next from i land on (i + k) mod n |
| Carousel.FullCycle | components/ui/Carousel.tsx:40-42 | n applications of next return to the starting index |
| Carousel.SingleSlideIsFixed | components/ui/Carousel.tsx:36-49 | with one slide, next, previous and a tick all keep index 0 |
| Carousel.DotSelectsItsSlide | components/ui/Carousel.tsx:92-95 | clicking dot k selects slide k, a valid index |
| Carousel.ThreeSlideExample | components/ui/Carousel.tsx:30-42 | with three slides, previous from the initial index 0 gives 2, and three nexts return to 0 |
| Accordion.Toggle | components/ui/Accordion.tsx:27-39 | the id is open afterwards iff it was closed before; single mode gives [] or [id]; multi mode appends an absent id, filters out a present one, and keeps every other id's membership |
| Accordion.MultiOthersKeepOrder | components/ui/Accordion.tsx:28-33 | in multi mode the other ids keep their relative order (the list without the toggled id is unchanged) |
| Accordion.ToggleNoDuplicates | components/ui/Accordion.tsx:27-39 | a toggle in either mode keeps a duplicate-free open list duplicate-free |
| Accordion.RunInvariant | components/ui/Accordion.tsx:25-39 | every open list reachable from the empty initial list is duplicate-free, and has at most one element in single mode |
| Accordion.ToggleTwiceClosed | components/ui/Accordion.tsx:28-33 | in multi mode toggling a closed id twice restores the list exactly |
| Accordion.ToggleTwiceOpen | components/ui/Accordion.tsx:28-33 | in multi mode toggling an open id twice keeps the same ids but moves that id to the end |
| Accordion.SingleToggleTwice | components/ui/Accordion.tsx:34-38 | in single mode, from any list of at most one id, toggling twice gives [id] when only that id was open and [] otherwise |
| Accordion.ClickExamples | components/ui/Accordion.tsx:25-39 | single mode: a then b leaves [b], and b again leaves []; multi mode: a then b leaves [a, b] |

## Left out

- Display rounding (`Math.round`) of the price and of the savings figure. This is float presentation, and the model keeps exact values.
- The transient state before the first effect runs: price 0 and plan "Professional". `calculatePrice` overwrites it on mount, so the model only has the derived quote.
- `parseInt` of the slider value. The sliders produce whole numbers, so `users` and `campaigns` are integers and NaN is not modelled.
- The disabled checkboxes of the included features. A disabled box never fires its handler. `FeatureChanged` would still accept those ids, and they cost nothing (`Pricing.FreeFeatureCostsNothing`).
- Real timers: `setInterval`, `clearInterval` and the interval length. Autoplay is an abstract `Tick`, and the timer's cleanup on unmount is not modelled.
- Rendering: `null` for an empty slide list, the animation, and the slide content. The index functions are total, and their properties are stated for `0 <= i < n`.
- A change of the slide count while mounted. The model takes `n` as fixed between transitions.
- The modal, the contact form, the buttons, cards, badges, inputs and pricing cards, the page sections, and the utility helpers. These are DOM side effects, delegated validation, class-string building or static content.
