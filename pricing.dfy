/** The pricing page: the three plans, the monthly/annual toggle, the
    conditional "/month" and "(20% off)" labels, the call-to-action label,
    and the rupee amounts behind the "Save 20%" claims. */
module PricingPage {
  import opened Text

  /** One billing mode's one-time setup fee and monthly price, as
      displayed. */
  datatype Pricing = Pricing(setup: string, price: string)

  datatype Plan = Plan(
    name: string,
    subtitle: string,
    monthly: Pricing,
    annual: Pricing,
    users: string,
    highlight: bool)

  const Starter: Plan :=
    Plan("Starter", "Small Business", Pricing("₹30,000", "₹50,000"), Pricing("₹25,000", "₹40,000"),
         "5 users", false)

  const Growth: Plan :=
    Plan("Growth", "Mid-Size Company", Pricing("₹50,000", "₹1,00,000"), Pricing("₹40,000", "₹80,000"),
         "15 users", true)

  const Enterprise: Plan :=
    Plan("Enterprise", "Large Organizations", Pricing("Custom", "₹3L–₹10L"), Pricing("Custom", "₹3L–₹10L"),
         "Unlimited users", false)

  const Plans: seq<Plan> := [Starter, Growth, Enterprise]

  /** The enterprise price range, the one price shown without "/month". */
  const EnterpriseRange: string := "₹3L–₹10L"

  // ---------------------------------------------------------------------
  // Display rules
  // ---------------------------------------------------------------------

  /** `annual ? plan.annual : plan.monthly`: the card shows one of the
      plan's two records, and the toggle decides which whenever they
      differ. */
  function SelectedPricing(plan: Plan, annual: bool): (p: Pricing)
    ensures p == plan.annual || p == plan.monthly
    ensures plan.annual != plan.monthly ==> (p == plan.annual <==> annual)
  {
    if annual then plan.annual else plan.monthly
  }

  /** The "/month" suffix follows every price but the enterprise range,
      so every price that is a rupee amount gets it. */
  predicate ShowsPerMonth(pricing: Pricing)
    ensures Rupees(pricing.price).Some? ==> ShowsPerMonth(pricing)
  {
    EnterpriseHasNoAmount();
    pricing.price != EnterpriseRange
  }

  /** The "(20% off)" tag follows the setup fee in annual mode unless the
      fee is "Custom": only in annual mode, and there for every fee that
      is a rupee amount. */
  predicate ShowsDiscountTag(annual: bool, pricing: Pricing)
    ensures ShowsDiscountTag(annual, pricing) ==> annual
    ensures annual && Rupees(pricing.setup).Some? ==> ShowsDiscountTag(annual, pricing)
  {
    EnterpriseHasNoAmount();
    annual && pricing.setup != "Custom"
  }

  /** The button label: "Contact Sales" for Enterprise, "Get Started"
      otherwise. */
  function CtaLabel(plan: Plan): (caption: string)
    ensures caption == "Contact Sales" <==> plan.name == "Enterprise"
    ensures caption == "Get Started" <==> plan.name != "Enterprise"
  {
    if plan.name == "Enterprise" then "Contact Sales" else "Get Started"
  }

  /** The toggle shows the annual record when on and the monthly one when
      off, for every plan. */
  lemma ToggleSelectsRecord(i: nat)
    requires i < |Plans|
    ensures SelectedPricing(Plans[i], true) == Plans[i].annual
    ensures SelectedPricing(Plans[i], false) == Plans[i].monthly
    ensures Plans[i].name != "Enterprise" ==> SelectedPricing(Plans[i], true) != SelectedPricing(Plans[i], false)
  {
  }

  /** "/month" is left out exactly for Enterprise, in both modes. */
  lemma PerMonthExceptEnterprise(i: nat, annual: bool)
    requires i < |Plans|
    ensures !ShowsPerMonth(SelectedPricing(Plans[i], annual)) <==> Plans[i].name == "Enterprise"
  {
  }

  /** "(20% off)" shows exactly in annual mode on Starter and Growth. */
  lemma DiscountTagOnStarterAndGrowth(i: nat, annual: bool)
    requires i < |Plans|
    ensures ShowsDiscountTag(annual, SelectedPricing(Plans[i], annual)) <==> annual && Plans[i].name != "Enterprise"
  {
  }

  /** Only Growth is highlighted as "Most Popular". */
  lemma OnlyGrowthHighlighted(i: nat)
    requires i < |Plans|
    ensures Plans[i].highlight <==> Plans[i].name == "Growth"
  {
  }

  /** Only the Enterprise card asks the visitor to contact sales. */
  lemma ContactSalesOnlyForEnterprise(i: nat)
    requires i < |Plans|
    ensures CtaLabel(Plans[i]) == "Contact Sales" <==> i == 2
  {
  }

  // ---------------------------------------------------------------------
  // Rupee amounts
  // ---------------------------------------------------------------------

  /** `s` with its digit-group commas removed. */
  function StripCommas(s: string): (r: string)
    ensures ',' !in r
    decreases |s|
  {
    if s == [] then ""
    else (if s[0] == ',' then "" else [s[0]]) + StripCommas(s[1..])
  }

  /** The whole-rupee amount a displayed price denotes: "₹" followed by
      digits with any grouping commas; `None` for "Custom" and for the
      enterprise range. */
  function Rupees(s: string): Option<nat> {
    if |s| >= 1 && s[0] == '₹' then ParseNat(StripCommas(s[1..])) else None
  }

  /** A string without commas is unchanged by stripping them. */
  lemma {:induction false} StripCommasNoComma(s: string)
    requires ',' !in s
    ensures StripCommas(s) == s
    decreases |s|
  {
    if s != [] {
      assert ',' !in s[1..];
      StripCommasNoComma(s[1..]);
      assert s == [s[0]] + s[1..];
    }
  }

  /** Reading an amount back from "₹" and its decimal digits gives the
      amount. */
  lemma RupeesOfDecimal(n: nat)
    ensures Rupees("₹" + Decimal(n)) == Some(n)
  {
    var d := Decimal(n);
    StripCommasNoComma(d);
    assert ("₹" + d)[1..] == d;
    ParseDecimal(n);
  }

  /** `reduced` is 20% off `full`. */
  predicate IsTwentyPercentOff(full: nat, reduced: nat) {
    5 * reduced == 4 * full
  }

  /** Stripping commas works piecewise. */
  lemma {:induction false} StripCommasAppend(a: string, b: string)
    ensures StripCommas(a + b) == StripCommas(a) + StripCommas(b)
    decreases |a|
  {
    if a == [] {
      assert a + b == b;
    } else {
      assert (a + b)[0] == a[0] && (a + b)[1..] == a[1..] + b;
      StripCommasAppend(a[1..], b);
    }
  }

  /** The digit groups written one after another. */
  function Concat(groups: seq<string>): string
    decreases |groups|
  {
    if groups == [] then "" else groups[0] + Concat(groups[1..])
  }

  /** Removing the commas between comma-free digit groups leaves the
      groups run together. */
  lemma {:induction false} StripCommasJoin(groups: seq<string>)
    requires forall i :: 0 <= i < |groups| ==> ',' !in groups[i]
    ensures StripCommas(Join(groups, ',')) == Concat(groups)
    decreases |groups|
  {
    if |groups| == 1 {
      StripCommasNoComma(groups[0]);
      assert Concat(groups[1..]) == "";
    } else if |groups| > 1 {
      StripCommasJoin(groups[1..]);
      StripCommasNoComma(groups[0]);
      StripCommasAppend(groups[0] + [','], Join(groups[1..], ','));
      StripCommasAppend(groups[0], [',']);
      assert StripCommas([',']) == "";
    }
  }

  /** "₹" followed by comma-separated digit groups that together spell the
      decimal form of `n` denotes `n` rupees. */
  lemma RupeesOfGroups(groups: seq<string>, n: nat)
    requires forall i :: 0 <= i < |groups| ==> ',' !in groups[i]
    requires Concat(groups) == Decimal(n)
    ensures Rupees("₹" + Join(groups, ',')) == Some(n)
  {
    StripCommasJoin(groups);
    assert ("₹" + Join(groups, ','))[1..] == Join(groups, ',');
    ParseDecimal(n);
  }

  /** Starter costs ₹50,000 a month on monthly billing. */
  lemma StarterMonthlyPrice()
    ensures Rupees(Starter.monthly.price) == Some(50000)
  {
    assert Join(["50", "000"], ',') == "50,000";
    RupeesOfGroups(["50", "000"], 50000);
  }

  /** Starter costs ₹40,000 a month on annual billing. */
  lemma StarterAnnualPrice()
    ensures Rupees(Starter.annual.price) == Some(40000)
  {
    assert Join(["40", "000"], ',') == "40,000";
    RupeesOfGroups(["40", "000"], 40000);
  }

  /** Starter's setup fee is ₹30,000 on monthly billing. */
  lemma StarterMonthlySetup()
    ensures Rupees(Starter.monthly.setup) == Some(30000)
  {
    assert Join(["30", "000"], ',') == "30,000";
    RupeesOfGroups(["30", "000"], 30000);
  }

  /** Starter's setup fee is ₹25,000 on annual billing. */
  lemma StarterAnnualSetup()
    ensures Rupees(Starter.annual.setup) == Some(25000)
  {
    assert Join(["25", "000"], ',') == "25,000";
    RupeesOfGroups(["25", "000"], 25000);
  }

  /** Growth costs ₹1,00,000 (one lakh) a month on monthly billing. */
  lemma GrowthMonthlyPrice()
    ensures Rupees(Growth.monthly.price) == Some(100000)
  {
    assert ["1", "00", "000"][1..] == ["00", "000"];
    assert Join(["00", "000"], ',') == "00,000";
    assert Join(["1", "00", "000"], ',') == "1,00,000";
    RupeesOfGroups(["1", "00", "000"], 100000);
  }

  /** Growth costs ₹80,000 a month on annual billing. */
  lemma GrowthAnnualPrice()
    ensures Rupees(Growth.annual.price) == Some(80000)
  {
    assert Join(["80", "000"], ',') == "80,000";
    RupeesOfGroups(["80", "000"], 80000);
  }

  /** Growth's setup fee is ₹50,000 on monthly billing. */
  lemma GrowthMonthlySetup()
    ensures Rupees(Growth.monthly.setup) == Some(50000)
  {
    assert Join(["50", "000"], ',') == "50,000";
    RupeesOfGroups(["50", "000"], 50000);
  }

  /** Growth's setup fee is ₹40,000 on annual billing. */
  lemma GrowthAnnualSetup()
    ensures Rupees(Growth.annual.setup) == Some(40000)
  {
    assert Join(["40", "000"], ',') == "40,000";
    RupeesOfGroups(["40", "000"], 40000);
  }

  /** The corrected Starter setup fee on annual billing is ₹24,000. */
  lemma CorrectedStarterAnnualSetup()
    ensures Rupees(CorrectedStarter.annual.setup) == Some(24000)
  {
    assert Join(["24", "000"], ',') == "24,000";
    RupeesOfGroups(["24", "000"], 24000);
  }

  /** Neither "Custom" nor the enterprise range is a rupee amount. */
  lemma EnterpriseHasNoAmount()
    ensures Rupees(Enterprise.monthly.setup) == None && Rupees(Enterprise.monthly.price) == None
  {
    assert "₹3L–₹10L"[1..] == "3L–₹10L";
    assert StripCommas("3L–₹10L")[1] == 'L';
  }

  /** Annual billing takes 20% off the monthly price of Starter
      (₹40,000 for ₹50,000) and of Growth (₹80,000 for ₹1,00,000), as the
      "Save 20%" badge says. */
  lemma AnnualPricesAreTwentyPercentOff()
    ensures Rupees(Starter.annual.price).Some? && Rupees(Starter.monthly.price).Some?
    ensures IsTwentyPercentOff(Rupees(Starter.monthly.price).value, Rupees(Starter.annual.price).value)
    ensures Rupees(Growth.annual.price).Some? && Rupees(Growth.monthly.price).Some?
    ensures IsTwentyPercentOff(Rupees(Growth.monthly.price).value, Rupees(Growth.annual.price).value)
  {
    StarterMonthlyPrice();
    StarterAnnualPrice();
    GrowthMonthlyPrice();
    GrowthAnnualPrice();
  }

  /** The "(20% off)" tag beside a plan's annual setup fee is true: the
      fee is a rupee amount 20% below the monthly-billing fee. */
  predicate SetupTagIsTrue(plan: Plan) {
    ShowsDiscountTag(true, plan.annual) ==>
      Rupees(plan.monthly.setup).Some? && Rupees(plan.annual.setup).Some?
      && IsTwentyPercentOff(Rupees(plan.monthly.setup).value, Rupees(plan.annual.setup).value)
  }

  /** Growth's tag is true: ₹40,000 is 20% off ₹50,000. */
  lemma GrowthSetupTagIsTrue()
    ensures SetupTagIsTrue(Growth)
  {
    GrowthMonthlySetup();
    GrowthAnnualSetup();
  }

  /** Starter's tag is false: ₹25,000 is 16⅔% off ₹30,000; 20% off would
      be ₹24,000. */
  lemma StarterSetupTagIsFalse()
    ensures !SetupTagIsTrue(Starter)
  {
    StarterMonthlySetup();
    StarterAnnualSetup();
    assert 5 * 25000 != 4 * 30000;
  }

  /** Starter with the annual setup fee the tag implies. */
  const CorrectedStarter: Plan := Starter.(annual := Pricing("₹24,000", "₹40,000"))

  const CorrectedPlans: seq<Plan> := [CorrectedStarter, Growth, Enterprise]

  /** With the corrected Starter fee every "(20% off)" tag on the page is
      true. */
  lemma CorrectedSetupTagsAreTrue(i: nat)
    requires i < |CorrectedPlans|
    ensures SetupTagIsTrue(CorrectedPlans[i])
  {
    if i == 0 {
      StarterMonthlySetup();
      CorrectedStarterAnnualSetup();
    } else if i == 1 {
      GrowthSetupTagIsTrue();
    }
  }
}
