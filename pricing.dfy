/** The pricing section: the billing period switch, the hovered tier, the
    tier whose extra features are expanded, and the price table those
    cells drive. */
module Pricing {
  import opened Common

  datatype BillingPeriod = Monthly | Annual

  /** `price: number | 'Free'`. */
  datatype Price = FreePrice | Amount(dollars: nat)

  datatype Feature = Feature(included: bool, text: string)

  datatype Tier = Tier(
    id: string, name: string, price: Price, period: string,
    features: seq<Feature>, cta: string, popularChoice: bool, limit: Option<string>)

  /** `billingPeriod === 'monthly' ? monthly : annual`, for the paid tiers. */
  function Charge(billing: BillingPeriod, monthly: nat, annual: nat): Price
  {
    if billing == Monthly then Amount(monthly) else Amount(annual)
  }

  function PeriodText(billing: BillingPeriod): string
  {
    if billing == Monthly then "per month" else "per year"
  }

  const FreeFeatures := [
    Feature(true, "Basic code evaluation"),
    Feature(true, "10 interview questions per month"),
    Feature(true, "Basic algorithm assistance"),
    Feature(false, "Premium algorithm techniques"),
    Feature(false, "System design practice"),
    Feature(false, "Mock interviews"),
    Feature(false, "Personalized feedback"),
    Feature(false, "Company-specific preparation")
  ]

  const ProFeatures := [
    Feature(true, "Everything in Free"),
    Feature(true, "Unlimited questions"),
    Feature(true, "Advanced code evaluation"),
    Feature(true, "Time complexity analysis"),
    Feature(true, "Premium algorithm techniques"),
    Feature(true, "Basic system design practice"),
    Feature(false, "Advanced system design"),
    Feature(false, "Company-specific preparation")
  ]

  const UltimateFeatures := [
    Feature(true, "Everything in Pro"),
    Feature(true, "Advanced system design"),
    Feature(true, "Mock interviews with AI"),
    Feature(true, "Personalized feedback"),
    Feature(true, "Company-specific preparation"),
    Feature(true, "Interview strategy coaching"),
    Feature(true, "Resume optimization"),
    Feature(true, "Priority support")
  ]

  const ProMonthly := 19
  const ProAnnual := 190
  const UltimateMonthly := 39
  const UltimateAnnual := 390

  /** The `pricingTiers` table as rendered for a billing period. */
  function PricingTiers(billing: BillingPeriod): (tiers: seq<Tier>)
    ensures |tiers| == 3
  {
    [
      Tier("free", "Free", FreePrice, "Forever", FreeFeatures, "Get Started", false, None),
      Tier("pro", "Pro", Charge(billing, ProMonthly, ProAnnual), PeriodText(billing),
           ProFeatures, "Upgrade to Pro", true, Some("Save $38 with annual billing")),
      Tier("ultimate", "Ultimate", Charge(billing, UltimateMonthly, UltimateAnnual), PeriodText(billing),
           UltimateFeatures, "Get Ultimate", false, Some("Save $78 with annual billing"))
    ]
  }

  /** Free costs nothing and lasts forever whatever the period; Pro and
      Ultimate show their monthly price "per month" and their annual
      price "per year". */
  lemma TierPrices(billing: BillingPeriod)
    ensures PricingTiers(billing)[0].price == FreePrice
    ensures PricingTiers(billing)[0].period == "Forever"
    ensures PricingTiers(billing)[1].price == (if billing == Monthly then Amount(19) else Amount(190))
    ensures PricingTiers(billing)[2].price == (if billing == Monthly then Amount(39) else Amount(390))
    ensures PricingTiers(billing)[1].period == PricingTiers(billing)[2].period
      == (if billing == Monthly then "per month" else "per year")
  {
  }

  /** Only the paid tiers' price and period depend on the billing period:
      ids, names, features, calls to action and notes do not, and the free
      tier does not change at all. */
  lemma BillingOnlyChangesPrices()
    ensures PricingTiers(Monthly)[0] == PricingTiers(Annual)[0]
    ensures forall i :: 0 <= i < 3 ==>
      var m, a := PricingTiers(Monthly)[i], PricingTiers(Annual)[i];
      m.id == a.id && m.name == a.name && m.features == a.features
        && m.cta == a.cta && m.limit == a.limit && m.popularChoice == a.popularChoice
  {
  }

  /** Yearly saving of a paid tier: twelve monthly payments minus one
      annual payment. */
  function AnnualSaving(monthly: nat, annual: nat): int
  {
    12 * monthly - annual
  }

  /** The note a paid tier carries for a given saving. */
  function SavingNote(saving: nat): string
  {
    "Save $" + NatToString(saving) + " with annual billing"
  }

  /** A note names its saving: between "Save $" and " with annual
      billing" stand only digits, and they read back as the amount. */
  lemma SavingNoteValue(saving: nat)
    ensures var note := SavingNote(saving);
      StartsWith(note, "Save $") && |note| > 26 && note[|note| - 20..] == " with annual billing"
      && (forall i :: 6 <= i < |note| - 20 ==> IsDigit(note[i]))
      && DigitsValue(note[6..|note| - 20]) == saving
  {
    NatToStringRoundTrip(saving);
    var note := SavingNote(saving);
    assert note[6..|note| - 20] == NatToString(saving);
    assert note[|note| - 20..] == " with annual billing";
  }

  /** The note under each paid tier advertises exactly its saving: $38
      for Pro and $78 for Ultimate. */
  lemma AdvertisedSavings(billing: BillingPeriod)
    ensures AnnualSaving(ProMonthly, ProAnnual) == 38
    ensures AnnualSaving(UltimateMonthly, UltimateAnnual) == 78
    ensures PricingTiers(billing)[1].limit == Some(SavingNote(38))
    ensures PricingTiers(billing)[2].limit == Some(SavingNote(78))
  {
    ProNote();
    UltimateNote();
  }

  lemma ProNote()
    ensures SavingNote(38) == "Save $38 with annual billing"
  {
    NoteText(3, 8);
    assert DigitChar(3) == '3' && DigitChar(8) == '8';
    assert "Save $" + ['3', '8'] + " with annual billing" == "Save $38 with annual billing";
  }

  lemma UltimateNote()
    ensures SavingNote(78) == "Save $78 with annual billing"
  {
    NoteText(7, 8);
    assert DigitChar(7) == '7' && DigitChar(8) == '8';
    assert "Save $" + ['7', '8'] + " with annual billing" == "Save $78 with annual billing";
  }

  lemma NoteText(tens: nat, ones: nat)
    requires 1 <= tens < 10 && ones < 10
    ensures SavingNote(10 * tens + ones)
      == "Save $" + [DigitChar(tens), DigitChar(ones)] + " with annual billing"
  {
    var n := 10 * tens + ones;
    assert n / 10 == tens && n % 10 == ones;
    assert NatToString(n) == NatToString(tens) + [DigitChar(ones)];
  }

  /** The flip of the billing switch. */
  function Flipped(p: BillingPeriod): (q: BillingPeriod)
    ensures q != p
  {
    if p == Monthly then Annual else Monthly
  }

  lemma FlipTwice(p: BillingPeriod)
    ensures Flipped(Flipped(p)) == p
  {
  }

  class PricingState {
    var billingPeriod: BillingPeriod
    var hoveredTier: Option<string>
    var expandedFeaturesTier: Option<string>

    constructor ()
      ensures billingPeriod == Monthly && hoveredTier == None && expandedFeaturesTier == None
    {
      billingPeriod := Monthly;
      hoveredTier := None;
      expandedFeaturesTier := None;
    }

    method ToggleBillingPeriod()
      modifies this`billingPeriod
      ensures billingPeriod == Flipped(old(billingPeriod))
    {
      billingPeriod := if billingPeriod == Monthly then Annual else Monthly;
    }

    /** "Show more" / "Show less" on tier `tierId`: at most one tier is
        expanded at a time. */
    method ToggleFeatures(tierId: string)
      modifies this`expandedFeaturesTier
      ensures expandedFeaturesTier == Toggle(old(expandedFeaturesTier), tierId)
    {
      expandedFeaturesTier := if expandedFeaturesTier == Some(tierId) then None else Some(tierId);
    }

    method EnterTier(tierId: string)
      modifies this`hoveredTier
      ensures hoveredTier == Some(tierId)
    {
      hoveredTier := Some(tierId);
    }

    method LeaveTier()
      modifies this`hoveredTier
      ensures hoveredTier == None
    {
      hoveredTier := None;
    }
  }

  /** `features.slice(0, 4)`; a shorter list is taken whole. */
  function FirstFeatures(fs: seq<Feature>): (first: seq<Feature>)
    ensures first <= fs
    ensures |first| == if |fs| < 4 then |fs| else 4
  {
    if |fs| <= 4 then fs else fs[..4]
  }

  /** `features.slice(4)`; empty for a list of four or fewer. */
  function MoreFeatures(fs: seq<Feature>): (more: seq<Feature>)
    ensures |more| == if |fs| <= 4 then 0 else |fs| - 4
    ensures more == fs[|fs| - |more|..]
  {
    if |fs| <= 4 then [] else fs[4..]
  }

  /** The feature rows drawn for a tier: the first four always, the rest
      only while that tier is the expanded one. */
  function VisibleFeatures(tier: Tier, expanded: Option<string>): (shown: seq<Feature>)
    ensures expanded == Some(tier.id) ==> shown == tier.features
    ensures expanded != Some(tier.id) ==> shown == tier.features[..if |tier.features| < 4 then |tier.features| else 4]
  {
    FirstFeatures(tier.features) + (if expanded == Some(tier.id) then MoreFeatures(tier.features) else [])
  }

  /** The two slices split the list in order, with nothing lost. */
  lemma SlicesPartition(fs: seq<Feature>)
    ensures FirstFeatures(fs) + MoreFeatures(fs) == fs
    ensures |FirstFeatures(fs)| <= 4
  {
  }

  /** `typeof price === 'number' ? `$${price}` : price`. */
  function PriceText(p: Price): (text: string)
    ensures p == FreePrice <==> text == "Free"
    ensures p.Amount? ==> |text| >= 2 && text[0] == '$'
  {
    match p
    case FreePrice => "Free"
    case Amount(n) =>
      var t := "$" + NatToString(n);
      assert t[0] == '$' && "Free"[0] == 'F';
      t
  }

  /** A numeric price text reads back as its amount. */
  lemma PriceTextValue(n: nat)
    ensures var t := PriceText(Amount(n));
      (forall i :: 1 <= i < |t| ==> IsDigit(t[i])) && DigitsValue(t[1..]) == n
  {
    NatToStringRoundTrip(n);
    assert PriceText(Amount(n))[1..] == NatToString(n);
  }

  const SignupPrefix := "/signup?plan="

  /** The call-to-action link of a tier. */
  function SignupHref(tierId: string): (href: string)
    ensures StartsWith(href, SignupPrefix)
    ensures href[|SignupPrefix|..] == tierId
  {
    SignupPrefix + tierId
  }

  /** Different tiers link to different sign-up pages. */
  lemma SignupHrefsDistinct(billing: BillingPeriod)
    ensures forall i, j :: 0 <= i < j < 3 ==>
      SignupHref(PricingTiers(billing)[i].id) != SignupHref(PricingTiers(billing)[j].id)
  {
    forall i, j | 0 <= i < j < 3
      ensures SignupHref(PricingTiers(billing)[i].id) != SignupHref(PricingTiers(billing)[j].id)
    {
      var ti, tj := PricingTiers(billing)[i].id, PricingTiers(billing)[j].id;
      assert ti != tj;
      assert SignupHref(ti)[|SignupPrefix|..] == ti;
      assert SignupHref(tj)[|SignupPrefix|..] == tj;
    }
  }
}
