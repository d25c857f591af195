/** The pricing page (`src/routes/Pricing.tsx`): the plans' per-cycle prices, the
    annual "Save N%" figure, the priced-or-custom display of each card and the
    handlers its buttons call. */
module Pricing {
  import opened Wrappers
  import opened Text
  import opened Effects

  datatype Cycle = Monthly | Annual

  /** A plan's price per cycle, in rand per month; `null` is `None`. */
  datatype Prices = Prices(monthly: Option<int>, annual: Option<int>)

  datatype Plan = Plan(name: string, price: Prices, maxUsers: string, popular: bool)

  /** The three plans, in page order. */
  function Plans(): seq<Plan> {
    [ Plan("Starter", Prices(Some(299), Some(249)), "50", false),
      Plan("Growth", Prices(Some(799), Some(699)), "250", true),
      Plan("Enterprise", Prices(None, None), "Unlimited", false) ]
  }

  /** Three plans with distinct names, only the second marked popular; a plan
      priced on one cycle is priced on both, and its annual rate is positive
      and below its monthly one. */
  lemma PlansShape()
    ensures |Plans()| == 3
    ensures forall i, j :: 0 <= i < j < 3 ==> Plans()[i].name != Plans()[j].name
    ensures forall i :: 0 <= i < 3 ==> (Plans()[i].popular <==> i == 1)
    ensures forall p :: p in Plans() ==> (p.price.monthly.Some? <==> p.price.annual.Some?)
    ensures forall p :: p in Plans() && p.price.monthly.Some? ==>
      0 < p.price.annual.value < p.price.monthly.value
  {
  }

  /** `plan.price[billingCycle]`. */
  function PriceFor(plan: Plan, cycle: Cycle): (r: Option<int>)
    ensures cycle == Monthly ==> r == plan.price.monthly
    ensures cycle == Annual ==> r == plan.price.annual
  {
    match cycle
    case Monthly => plan.price.monthly
    case Annual => plan.price.annual
  }

  /** `Math.round(100 * (m - a) / m)` for a positive monthly price `m`, computed
      exactly: the integer nearest the percentage, halves rounded up. */
  function RoundedPercentOff(m: int, a: int): (r: int)
    requires m > 0
    ensures 2 * m * r - m <= 200 * (m - a) < 2 * m * r + m
  {
    var n := 200 * (m - a) + m;
    var r := n / (2 * m);
    assert 2 * m * r <= n < 2 * m * r + 2 * m by {
      DivBounds(n, 2 * m);
    }
    r
  }

  /** Floor division brackets its dividend. */
  lemma DivBounds(n: int, d: int)
    requires d > 0
    ensures d * (n / d) <= n < d * (n / d) + d
  {
  }

  /** Two integers whose multiples by `d` lie within less than `d` of each
      other are equal. */
  lemma CloseMultiplesEqual(d: int, k: int, r: int)
    requires d > 0
    requires d * k - d < d * r < d * k + d
    ensures k == r
  {
    if k < r {
      MulMonotone(d, k + 1, r);
      assert false;
    } else if k > r {
      MulMonotone(d, r + 1, k);
      assert false;
    }
  }

  lemma MulMonotone(d: int, x: int, y: int)
    requires d > 0 && x <= y
    ensures d * x <= d * y
  {
  }

  /** The rounded percentage is the unique integer within half a point of the
      exact one. */
  lemma RoundedPercentOffUnique(m: int, a: int, k: int)
    requires m > 0
    requires 2 * m * k - m <= 200 * (m - a) < 2 * m * k + m
    ensures k == RoundedPercentOff(m, a)
  {
    var r := RoundedPercentOff(m, a);
    var d := 2 * m;
    assert d * k - d < d * r < d * k + d;
    CloseMultiplesEqual(d, k, r);
  }

  /** `savings`: 0 on the monthly cycle; on the annual cycle the rounded
      percentage the Growth plan (`plans[1]`) saves, whose prices the source
      asserts to be present. */
  function Savings(cycle: Cycle, growth: Plan): (r: int)
    requires growth.price.monthly.Some? && growth.price.monthly.value > 0
    requires growth.price.annual.Some?
    ensures cycle == Monthly ==> r == 0
    ensures cycle == Annual ==> r == RoundedPercentOff(growth.price.monthly.value, growth.price.annual.value)
  {
    match cycle
    case Monthly => 0
    case Annual => RoundedPercentOff(growth.price.monthly.value, growth.price.annual.value)
  }

  /** The annual cycle of the page saves 13% (799 to 699 is about 12.52%). */
  lemma PageSavings()
    ensures Savings(Annual, Plans()[1]) == 13
    ensures Savings(Monthly, Plans()[1]) == 0
  {
    RoundedPercentOffUnique(799, 699, 13);
  }

  /** The "Save N%" badge on the Annual button. */
  predicate ShowSaveBadge(savings: int) {
    savings > 0
  }

  /** On the page the badge shows exactly while the annual cycle is selected. */
  lemma PageSaveBadge(cycle: Cycle)
    ensures ShowSaveBadge(Savings(cycle, Plans()[1])) <==> cycle == Annual
  {
    PageSavings();
  }

  /** What a card shows as its price. */
  datatype PriceDisplay =
    | Custom
    | Priced(perMonth: int, billedAnnually: Option<int>)

  /** `price ? …R{price}… : Custom`: a missing or zero price reads "Custom"; a
      price on the annual cycle also shows the yearly total, twelve times it. */
  function DisplayPrice(price: Option<int>, cycle: Cycle): (r: PriceDisplay)
    ensures r.Custom? <==> price.None? || price.value == 0
    ensures r.Priced? ==> r.perMonth == price.value
    ensures r.Priced? ==> (r.billedAnnually.Some? <==> cycle == Annual)
    ensures r.Priced? && cycle == Annual ==> r.billedAnnually.value == 12 * r.perMonth
  {
    if price.None? || price.value == 0 then Custom
    else Priced(price.value, if cycle == Annual then Some(price.value * 12) else None)
  }

  /** The call to action of a card. */
  datatype Cta = StartWith(planName: string) | ContactSales

  /** "Start with {name}" when the card shows a price, "Contact Sales" otherwise. */
  function CtaFor(plan: Plan, cycle: Cycle): (r: Cta)
    ensures r.ContactSales? <==> DisplayPrice(PriceFor(plan, cycle), cycle).Custom?
    ensures r.StartWith? ==> r.planName == plan.name
  {
    if DisplayPrice(PriceFor(plan, cycle), cycle).Priced? then StartWith(plan.name) else ContactSales
  }

  /** The page's cards: Starter and Growth are priced on both cycles, Enterprise is
      "Custom" and routes to sales; annually they bill R2988 and R8388 a year. */
  lemma PageCards(cycle: Cycle)
    ensures DisplayPrice(PriceFor(Plans()[0], cycle), cycle) ==
      if cycle == Monthly then Priced(299, None) else Priced(249, Some(2988))
    ensures DisplayPrice(PriceFor(Plans()[1], cycle), cycle) ==
      if cycle == Monthly then Priced(799, None) else Priced(699, Some(8388))
    ensures DisplayPrice(PriceFor(Plans()[2], cycle), cycle) == Custom
    ensures CtaFor(Plans()[2], cycle) == ContactSales
  {
  }

  /** `handlePlanSelect(name)`: log `select_plan_` plus the lower-cased name from
      'pricing', then open the demo form with that name as its `plan`. */
  function HandlePlanSelect(planName: string): (r: seq<Effect>)
    ensures |r| == 2 && r[0].ButtonClick? && r[1].Navigate?
    ensures r[0].buttonName == "select_plan_" + ToLower(planName) && r[0].location == Some("pricing")
    ensures r[1].to == "/contact?type=demo&plan=" + ToLower(planName)
  {
    [ButtonClick("select_plan_" + ToLower(planName), Some("pricing")),
     Navigate("/contact?type=demo&plan=" + ToLower(planName))]
  }

  /** The logged event and the `plan` parameter carry the same lower-cased name:
      both end in it, after their fixed prefixes. */
  lemma PlanSelectNamesAgree(planName: string)
    ensures var r := HandlePlanSelect(planName);
      r[0].buttonName[12..] == r[1].to[24..] == ToLower(planName)
  {
    var r := HandlePlanSelect(planName);
    assert |"select_plan_"| == 12 && |"/contact?type=demo&plan="| == 24;
  }

  /** `handleContactSales()`. */
  function HandleContactSales(): (r: seq<Effect>)
    ensures r == [ButtonClick("contact_sales", Some("pricing")), Navigate("/contact?type=enterprise")]
  {
    [ButtonClick("contact_sales", Some("pricing")), Navigate("/contact?type=enterprise")]
  }

  /** Clicking a card's button. */
  function ClickCta(cta: Cta): (r: seq<Effect>)
    ensures cta.StartWith? ==> r == HandlePlanSelect(cta.planName)
    ensures cta.ContactSales? ==> r == HandleContactSales()
  {
    match cta
    case StartWith(name) => HandlePlanSelect(name)
    case ContactSales => HandleContactSales()
  }

  /** The priced cards ask for a demo of their plan by its lower-cased name. */
  lemma PagePlanSelect()
    ensures ClickCta(CtaFor(Plans()[0], Monthly))[1] == Navigate("/contact?type=demo&plan=starter")
    ensures ClickCta(CtaFor(Plans()[1], Annual))[1] == Navigate("/contact?type=demo&plan=growth")
  {
  }
}
