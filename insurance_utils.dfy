/** The premium-calculation engine of src/utils/insuranceUtils.ts: the lookup
    resolvers, one pricing rule per product, the table of eligibility tiers each
    product offers, and `calculatePremiums`, which prices one product.

    The rate tables come from a configuration module that is not part of this
    model; they are parameters here (`RateTables`), with predicates stating what
    the pricing rules need of them. Where the code enumerates a JavaScript object
    (`Object.entries`, `Object.keys`), the object is a sequence of its entries in
    enumeration order. Money and rates are `real`; ages are whole years. */
module InsuranceUtils {
  import opened JsBuiltins
  import opened InsuranceTypes

  // ================================================================ Rate tables

  /** One entry of `AGE_BANDED_RATES`. */
  datatype AgeBand = AgeBand(minAge: int, maxAge: int, rate: real)

  /** One entry of `Object.entries(ZIP_CODE_REGIONS)`: the region number that
      `parseInt` reads from the key, and the zip-code prefixes of the region. */
  datatype ZipRegion = ZipRegion(region: nat, prefixes: seq<string>)

  /** One entry of `STATE_CATEGORIES`: a category key and the states it lists. */
  datatype StateCategory = StateCategory(name: string, states: seq<USState>)

  /** `STD_CONFIG` */
  datatype StdConfig = StdConfig(benefitPercentage: real, maxWeeklyBenefit: real, maxUnits: real)

  /** One plan of `LTD_CONFIG` */
  datatype LtdPlanConfig = LtdPlanConfig(maxBenefit: real, costPerHundred: real)

  /** `LIFE_ADD_CONFIG` */
  datatype LifeAddConfig = LifeAddConfig(baseRate: real, childCoverage: real)

  type TierRates = map<EligibilityOption, real>

  /** Every table the pricing rules read. */
  datatype RateTables = RateTables(
    ageBandedRates: seq<AgeBand>,
    zipCodeRegions: seq<ZipRegion>,
    stateCategories: seq<StateCategory>,
    std: StdConfig,
    ltd: map<Plan, LtdPlanConfig>,
    lifeAdd: LifeAddConfig,
    accidentPremiums: map<Plan, TierRates>,
    dentalPremiums: map<Plan, map<nat, TierRates>>,
    visionPremiums: map<string, map<Plan, TierRates>>,
    criticalIllnessRates: map<string, TierRates>)

  /** A rate for every eligibility tier. */
  ghost predicate AllTiers(t: TierRates) {
    forall e :: e in t
  }

  /** A rate row for every plan and every tier. */
  ghost predicate AllPlansAndTiers(t: map<Plan, TierRates>) {
    forall p :: p in t && AllTiers(t[p])
  }

  /** Vision rates for every category key and for "Other", the fallback category. */
  ghost predicate VisionComplete(vision: map<string, map<Plan, TierRates>>, categories: seq<StateCategory>) {
    && OTHER_CATEGORY in vision && AllPlansAndTiers(vision[OTHER_CATEGORY])
    && forall i :: 0 <= i < |categories| ==>
         categories[i].name in vision && AllPlansAndTiers(vision[categories[i].name])
  }

  /** Critical-illness rates for every age-group key the resolver can produce. */
  ghost predicate CriticalIllnessComplete(rates: map<string, TierRates>) {
    forall g :: g in CRITICAL_ILLNESS_AGE_GROUPS ==> g in rates && AllTiers(rates[g])
  }

  /** What the pricing rules need of the configuration for none of them to fail:
      `getAgeBandedRate` reads the last band when none matches, and LTD,
      Accidents, Vision and Critical Illness index their tables without a check.
      Dental checks its table itself and needs nothing. */
  ghost predicate WellFormed(t: RateTables) {
    && |t.ageBandedRates| > 0
    && (forall p :: p in t.ltd)
    && AllPlansAndTiers(t.accidentPremiums)
    && VisionComplete(t.visionPremiums, t.stateCategories)
    && CriticalIllnessComplete(t.criticalIllnessRates)
  }

  /** No table holds a negative rate or limit. */
  ghost predicate NonNegativeRates(t: RateTables) {
    && (forall i :: 0 <= i < |t.ageBandedRates| ==> t.ageBandedRates[i].rate >= 0.0)
    && t.std.benefitPercentage >= 0.0 && t.std.maxWeeklyBenefit >= 0.0 && t.std.maxUnits >= 0.0
    && (forall p :: p in t.ltd ==> t.ltd[p].maxBenefit >= 0.0 && t.ltd[p].costPerHundred >= 0.0)
    && t.lifeAdd.baseRate >= 0.0 && t.lifeAdd.childCoverage >= 0.0
    && (forall p, e :: p in t.accidentPremiums && e in t.accidentPremiums[p] ==> t.accidentPremiums[p][e] >= 0.0)
    && (forall p, r, e :: p in t.dentalPremiums && r in t.dentalPremiums[p] && e in t.dentalPremiums[p][r] ==>
          t.dentalPremiums[p][r][e] >= 0.0)
    && (forall c, p, e :: c in t.visionPremiums && p in t.visionPremiums[c] && e in t.visionPremiums[c][p] ==>
          t.visionPremiums[c][p][e] >= 0.0)
    && (forall g, e :: g in t.criticalIllnessRates && e in t.criticalIllnessRates[g] ==>
          t.criticalIllnessRates[g][e] >= 0.0)
  }

  // ================================================================ Lookup resolvers

  /** `age >= band.minAge && age <= band.maxAge` */
  predicate InBand(band: AgeBand, age: int) {
    band.minAge <= age <= band.maxAge
  }

  /** `getAgeBandedRate`: the rate of the first band containing `age`; when no
      band contains it, the rate of the last band. */
  function AgeBandedRate(bands: seq<AgeBand>, age: int): (rate: real)
    requires |bands| > 0
    ensures forall i :: 0 <= i < |bands| && InBand(bands[i], age) && (forall j :: 0 <= j < i ==> !InBand(bands[j], age))
              ==> rate == bands[i].rate
    ensures (forall i :: 0 <= i < |bands| ==> !InBand(bands[i], age)) ==> rate == bands[|bands| - 1].rate
    ensures exists i :: 0 <= i < |bands| && rate == bands[i].rate
  {
    match FindIndex(bands, band => InBand(band, age))
    case Some(i) =>
      FindIndexIsFirstAll(bands, band => InBand(band, age), i);
      bands[i].rate
    case None => bands[|bands| - 1].rate
  }

  lemma FindIndexIsFirstAll<T>(s: seq<T>, p: T -> bool, k: nat)
    requires FindIndex(s, p) == Some(k)
    ensures forall i :: 0 <= i < |s| && p(s[i]) && (forall j :: 0 <= j < i ==> !p(s[j])) ==> i == k
  {
    forall i | 0 <= i < |s| && p(s[i]) && (forall j :: 0 <= j < i ==> !p(s[j])) ensures i == k {
      FindIndexIsFirst(s, p, i);
    }
  }

  /** Bands that do not overlap leave no ambiguity: the rate is that of any band
      containing the age, whichever position it has. */
  lemma {:induction false} AgeBandedRateOfDisjointBands(bands: seq<AgeBand>, age: int, k: nat)
    requires k < |bands| && InBand(bands[k], age)
    requires forall i, j :: 0 <= i < j < |bands| ==> bands[i].maxAge < bands[j].minAge || bands[j].maxAge < bands[i].minAge
    ensures AgeBandedRate(bands, age) == bands[k].rate
  {
    forall j | 0 <= j < k ensures !InBand(bands[j], age) {
      assert bands[j].maxAge < bands[k].minAge || bands[k].maxAge < bands[j].minAge;
    }
  }

  /** `zips.some(zipPrefix => zipCode.startsWith(zipPrefix))` */
  predicate ServesZip(region: ZipRegion, zipCode: string) {
    Any(region.prefixes, prefix => StartsWith(zipCode, prefix))
  }

  const DEFAULT_REGION: nat := 1

  /** `getZipCodeRegion`: the first region one of whose prefixes begins the zip
      code; region 1 when there is none. */
  function ZipCodeRegion(regions: seq<ZipRegion>, zipCode: string): (region: nat)
    ensures forall i :: 0 <= i < |regions| && ServesZip(regions[i], zipCode)
                        && (forall j :: 0 <= j < i ==> !ServesZip(regions[j], zipCode))
              ==> region == regions[i].region
    ensures (forall i :: 0 <= i < |regions| ==> !ServesZip(regions[i], zipCode)) ==> region == DEFAULT_REGION
  {
    match FindIndex(regions, r => ServesZip(r, zipCode))
    case Some(i) =>
      FindIndexIsFirstAll(regions, r => ServesZip(r, zipCode), i);
      regions[i].region
    case None => DEFAULT_REGION
  }

  /** Integer-like object keys enumerate in ascending order, so when the region
      numbers ascend the result is the smallest region serving the zip code. */
  lemma {:induction false} ZipCodeRegionIsSmallest(regions: seq<ZipRegion>, zipCode: string, k: nat)
    requires forall i, j :: 0 <= i < j < |regions| ==> regions[i].region < regions[j].region
    requires k < |regions| && ServesZip(regions[k], zipCode)
    ensures ZipCodeRegion(regions, zipCode) <= regions[k].region
    ensures exists i :: 0 <= i < |regions| && ServesZip(regions[i], zipCode) && ZipCodeRegion(regions, zipCode) == regions[i].region
  {
    var f := FindIndex(regions, r => ServesZip(r, zipCode));
    assert f.Some?;
    var i := f.value;
    assert ServesZip(regions[i], zipCode);
    assert ZipCodeRegion(regions, zipCode) == regions[i].region;
    assert i <= k;
  }

  /** The resolver local to the Dental rule: a `for` loop over the entries that
      returns at the first region with a matching prefix, else region 1. It
      agrees with `getZipCodeRegion` on every zip code. */
  method DentalZipCodeRegion(regions: seq<ZipRegion>, zipCode: string) returns (region: nat)
    ensures region == ZipCodeRegion(regions, zipCode)
  {
    for i := 0 to |regions|
      invariant forall j :: 0 <= j < i ==> !ServesZip(regions[j], zipCode)
    {
      if Any(regions[i].prefixes, prefix => StartsWith(zipCode, prefix)) {
        return regions[i].region;
      }
    }
    return DEFAULT_REGION;
  }

  const OTHER_CATEGORY: string := "Other"

  /** `getStateCategory`: the first category key listing the state, else
      "Other". Because of `|| 'Other'`, an empty key also gives "Other". */
  function StateCategoryOf(categories: seq<StateCategory>, state: USState): (category: string)
    ensures category == OTHER_CATEGORY || exists i :: 0 <= i < |categories| && categories[i].name == category
    ensures forall i :: 0 <= i < |categories| && state in categories[i].states
                        && (forall j :: 0 <= j < i ==> state !in categories[j].states)
              ==> category == (if categories[i].name == "" then OTHER_CATEGORY else categories[i].name)
    ensures (forall i :: 0 <= i < |categories| ==> state !in categories[i].states) ==> category == OTHER_CATEGORY
  {
    match FindIndex(categories, (c: StateCategory) => state in c.states)
    case Some(i) =>
      FindIndexIsFirstAll(categories, (c: StateCategory) => state in c.states, i);
      if categories[i].name != "" then categories[i].name else OTHER_CATEGORY
    case None => OTHER_CATEGORY
  }

  /** The keys `getCriticalIllnessRate` can produce, youngest first (the lemmas
      below prove the resolver produces these and only these). `WellFormed`
      requires the critical-illness rate table to hold a row for each of them;
      nothing else about that table's keys is assumed. */
  const CRITICAL_ILLNESS_AGE_GROUPS: seq<string> := [
    "<24", "20-24", "25-29", "30-34", "35-39", "40-44", "45-49",
    "50-54", "55-59", "60-64", "65-69", "70-74", "75+"
  ]

  /** `${lowerBound}-${upperBound}` */
  function FiveYearLabel(lower: nat): string {
    NumberToString(lower) + "-" + NumberToString(lower + 4)
  }

  /** The age-group key of `getCriticalIllnessRate`: "<24" below 24, "75+" from
      75 on, otherwise the five-year group `lower-(lower+4)` with lower the age
      rounded down to a multiple of 5. */
  function CriticalIllnessAgeGroup(age: int): (group: string)
    ensures group in CRITICAL_ILLNESS_AGE_GROUPS
    ensures age < 24 ==> group == "<24"
    ensures age >= 75 ==> group == "75+"
  {
    if age < 24 then "<24"
    else if age >= 75 then "75+"
    else
      var lowerBound := (age / 5) * 5;
      FiveYearLabelAt(lowerBound / 5 - 3);
      FiveYearLabel(lowerBound)
  }

  /** A two-digit number renders as its tens digit followed by its units digit. */
  lemma TwoDigits(n: nat)
    requires 10 <= n < 100
    ensures NumberToString(n) == [DigitChar(n / 10), DigitChar(n % 10)]
  {
  }

  /** A five-year key between two-digit bounds is five characters: two digits,
      a dash, two digits. */
  lemma FiveYearLabelDigits(lower: nat)
    requires 10 <= lower < 96
    ensures FiveYearLabel(lower)
            == [DigitChar(lower / 10), DigitChar(lower % 10), '-', DigitChar((lower + 4) / 10), DigitChar((lower + 4) % 10)]
  {
    TwoDigits(lower);
    TwoDigits(lower + 4);
  }

  /** The keys "20-24" to "45-49". */
  lemma FiveYearLabelsYounger(k: nat)
    requires 1 <= k <= 6
    ensures FiveYearLabel(15 + 5 * k) == CRITICAL_ILLNESS_AGE_GROUPS[k]
  {
    FiveYearLabelDigits(15 + 5 * k);
    assert k == 1 || k == 2 || k == 3 || k == 4 || k == 5 || k == 6;
  }

  /** The keys "50-54" to "70-74". */
  lemma FiveYearLabelsOlder(k: nat)
    requires 7 <= k <= 11
    ensures FiveYearLabel(15 + 5 * k) == CRITICAL_ILLNESS_AGE_GROUPS[k]
  {
    FiveYearLabelDigits(15 + 5 * k);
    assert k == 7 || k == 8 || k == 9 || k == 10 || k == 11;
  }

  /** The five-year key starting at 15 + 5k is the k-th key of the list. */
  lemma FiveYearLabelAt(k: nat)
    requires 1 <= k <= 11
    ensures FiveYearLabel(15 + 5 * k) == CRITICAL_ILLNESS_AGE_GROUPS[k]
  {
    if k <= 6 { FiveYearLabelsYounger(k); } else { FiveYearLabelsOlder(k); }
  }

  /** For the ages in between, the group is the five-year span containing the age,
      starting at a multiple of 5 between 20 and 70; age 24 lands in "20-24". */
  lemma CriticalIllnessAgeGroupSpan(age: int)
    requires 24 <= age < 75
    ensures exists lower: nat :: lower % 5 == 0 && 20 <= lower <= 70 && lower <= age <= lower + 4
                                 && CriticalIllnessAgeGroup(age) == FiveYearLabel(lower)
  {
    var lower: nat := (age / 5) * 5;
    assert lower % 5 == 0 && 20 <= lower <= 70 && lower <= age <= lower + 4;
    assert CriticalIllnessAgeGroup(age) == FiveYearLabel(lower);
  }

  /** Ages 20 to 23 fall under "<24", so the group "20-24" is reached at age 24 and
      at no other age. */
  lemma CriticalIllnessAgeGroupAt24(age: int)
    ensures CriticalIllnessAgeGroup(age) == "20-24" <==> age == 24
  {
    if age == 24 {
      FiveYearLabelAt(1);
      assert CriticalIllnessAgeGroup(24) == CRITICAL_ILLNESS_AGE_GROUPS[1];
    } else if age < 24 {
      assert "<24"[0] != "20-24"[0];
    } else if age >= 75 {
      assert "75+"[0] != "20-24"[0];
    } else {
      FiveYearLabelNot2024((age / 5) * 5);
    }
  }

  /** A five-year key with a lower bound from 25 to 70 is not "20-24": its
      leading digits are not 2 and 0. */
  lemma FiveYearLabelNot2024(lower: nat)
    requires 25 <= lower <= 70
    ensures FiveYearLabel(lower) != "20-24"
  {
    FiveYearLabelDigits(lower);
    var key := FiveYearLabel(lower);
    if lower / 10 != 2 {
      assert DigitValue(key[0]) != DigitValue("20-24"[0]);
    } else {
      assert DigitValue(key[1]) != DigitValue("20-24"[1]);
    }
  }

  /** Every key is produced by some age, so the keys are exactly the resolver's range. */
  lemma CriticalIllnessAgeGroupsReached(k: nat)
    requires k < |CRITICAL_ILLNESS_AGE_GROUPS|
    ensures exists age :: CriticalIllnessAgeGroup(age) == CRITICAL_ILLNESS_AGE_GROUPS[k]
  {
    if k == 0 {
      assert CriticalIllnessAgeGroup(0) == CRITICAL_ILLNESS_AGE_GROUPS[0];
    } else if k == 1 {
      FiveYearLabelAt(1);
      assert CriticalIllnessAgeGroup(24) == CRITICAL_ILLNESS_AGE_GROUPS[1];
    } else if k < 12 {
      var age := 15 + 5 * k;
      assert (age / 5) * 5 == age;
      FiveYearLabelAt(k);
      assert CriticalIllnessAgeGroup(age) == CRITICAL_ILLNESS_AGE_GROUPS[k];
    } else {
      assert CriticalIllnessAgeGroup(75) == CRITICAL_ILLNESS_AGE_GROUPS[12];
    }
  }

  // ================================================================ Pricing rules

  /** STD units: weekly benefit = salary/52 times the benefit percentage, capped
      at the maximum weekly benefit; units = benefit/10 capped at the maximum units. */
  function StdUnits(std: StdConfig, annualSalary: real): (units: real)
    ensures units <= std.maxUnits
    ensures (&& annualSalary >= 0.0 && std.benefitPercentage >= 0.0 && std.maxWeeklyBenefit >= 0.0
             && std.maxUnits >= 0.0) ==> units >= 0.0
  {
    var grossWeeklyIncome := annualSalary / 52.0;
    var grossWeeklyBenefitAmount := Min(grossWeeklyIncome * std.benefitPercentage, std.maxWeeklyBenefit);
    Min(grossWeeklyBenefitAmount / 10.0, std.maxUnits)
  }

  /** The charge for a number of units at a rate per unit: STD and LTD both
      price this way. */
  function UnitCharge(units: real, ratePerUnit: real): (charge: real)
    ensures units >= 0.0 && ratePerUnit >= 0.0 ==> charge >= 0.0
  {
    MulMonotone(0.0, units, ratePerUnit);
    units * ratePerUnit
  }

  /** At a non-negative rate, more units never cost less. */
  lemma UnitChargeMonotone(u1: real, u2: real, ratePerUnit: real)
    ensures u1 <= u2 && ratePerUnit >= 0.0 ==> UnitCharge(u1, ratePerUnit) <= UnitCharge(u2, ratePerUnit)
  {
    MulMonotone(u1, u2, ratePerUnit);
  }

  /** STD: the units times the age-banded rate. */
  function StdPremium(std: StdConfig, bands: seq<AgeBand>, age: int, annualSalary: real): (premium: real)
    requires |bands| > 0
    ensures AgeBandedRate(bands, age) >= 0.0 ==> premium <= UnitCharge(std.maxUnits, AgeBandedRate(bands, age))
    ensures (&& annualSalary >= 0.0 && std.benefitPercentage >= 0.0 && std.maxWeeklyBenefit >= 0.0
             && std.maxUnits >= 0.0 && AgeBandedRate(bands, age) >= 0.0) ==> premium >= 0.0
  {
    var units := StdUnits(std, annualSalary);
    UnitChargeMonotone(units, std.maxUnits, AgeBandedRate(bands, age));
    UnitCharge(units, AgeBandedRate(bands, age))
  }

  lemma MulMonotone(a: real, b: real, c: real)
    ensures a <= b && c >= 0.0 ==> a * c <= b * c
  {
  }

  /** A higher salary never lowers the STD units. */
  lemma StdUnitsMonotone(std: StdConfig, s1: real, s2: real)
    requires s1 <= s2 && std.benefitPercentage >= 0.0
    ensures StdUnits(std, s1) <= StdUnits(std, s2)
  {
    MulMonotone(s1 / 52.0, s2 / 52.0, std.benefitPercentage);
    var b1 := Min(s1 / 52.0 * std.benefitPercentage, std.maxWeeklyBenefit);
    var b2 := Min(s2 / 52.0 * std.benefitPercentage, std.maxWeeklyBenefit);
    assert b1 <= b2;
  }

  /** A higher salary never lowers the STD premium. */
  lemma StdPremiumMonotone(std: StdConfig, bands: seq<AgeBand>, age: int, s1: real, s2: real)
    requires |bands| > 0 && s1 <= s2
    requires std.benefitPercentage >= 0.0 && AgeBandedRate(bands, age) >= 0.0
    ensures StdPremium(std, bands, age, s1) <= StdPremium(std, bands, age, s2)
  {
    StdUnitsMonotone(std, s1, s2);
    UnitChargeMonotone(StdUnits(std, s1), StdUnits(std, s2), AgeBandedRate(bands, age));
  }

  /** LTD: units = monthly income/100 capped at the plan's maximum benefit/100;
      premium = units times the plan's cost per hundred. Below the cap the premium
      is salary/1200 times the cost, from the cap on it is constant. */
  function LtdPremium(ltd: LtdPlanConfig, annualSalary: real): (premium: real)
    ensures annualSalary / 12.0 <= ltd.maxBenefit ==> premium == annualSalary / 1200.0 * ltd.costPerHundred
    ensures annualSalary / 12.0 >= ltd.maxBenefit ==> premium == ltd.maxBenefit / 100.0 * ltd.costPerHundred
    ensures annualSalary >= 0.0 && ltd.maxBenefit >= 0.0 && ltd.costPerHundred >= 0.0 ==> premium >= 0.0
  {
    var grossMonthlyIncome := annualSalary / 12.0;
    var units := Min(grossMonthlyIncome / 100.0, ltd.maxBenefit / 100.0);
    UnitCharge(units, ltd.costPerHundred)
  }

  /** A higher salary never lowers the LTD premium. */
  lemma LtdPremiumMonotone(ltd: LtdPlanConfig, s1: real, s2: real)
    requires s1 <= s2 && ltd.costPerHundred >= 0.0
    ensures LtdPremium(ltd, s1) <= LtdPremium(ltd, s2)
  {
    var u1 := Min(s1 / 12.0 / 100.0, ltd.maxBenefit / 100.0);
    var u2 := Min(s2 / 12.0 / 100.0, ltd.maxBenefit / 100.0);
    UnitChargeMonotone(u1, u2, ltd.costPerHundred);
  }

  /** `eligibility.includes('Spouse')` */
  predicate CoversSpouse(eligibility: EligibilityOption) {
    Includes(EligibilityName(eligibility), "Spouse")
  }

  /** `eligibility.includes('Children')` */
  predicate CoversChildren(eligibility: EligibilityOption) {
    Includes(EligibilityName(eligibility), "Children")
  }

  /** Only the "Individual + Spouse" tier name contains "Spouse". */
  lemma SpouseByTier(eligibility: EligibilityOption)
    ensures CoversSpouse(eligibility) <==> eligibility == IndividualSpouse
  {
    match eligibility
    case Individual => NotIncludes("Individual", "Spouse");
    case IndividualSpouse => IncludesAt("Individual + Spouse", "Spouse", 13);
    case IndividualChildren => NotIncludes("Individual + Children", "Spouse");
    case Family => NotIncludes("Family", "Spouse");
  }

  /** Only the "Individual + Children" tier name contains "Children": "Family"
      names neither dependent. */
  lemma ChildrenByTier(eligibility: EligibilityOption)
    ensures CoversChildren(eligibility) <==> eligibility == IndividualChildren
  {
    match eligibility
    case Individual => NotIncludes("Individual", "Children");
    case IndividualSpouse => NotIncludes("Individual + Spouse", "Children");
    case IndividualChildren => IncludesAt("Individual + Children", "Children", 13);
    case Family => NotIncludes("Family", "Children");
  }

  /** `numberOfChildren * childCoverage`. */
  function ChildrenCoverage(lifeAdd: LifeAddConfig, numberOfChildren: int): (coverage: real)
    ensures numberOfChildren >= 0 && lifeAdd.childCoverage >= 0.0 ==> coverage >= 0.0
  {
    MulMonotone(0.0, numberOfChildren as real, lifeAdd.childCoverage);
    numberOfChildren as real * lifeAdd.childCoverage
  }

  /** The coverage Life/AD&D prices: the employee's election, plus the spouse's
      when the tier names a spouse, plus one child coverage per child when it
      names children. */
  function LifeAddTotalCoverage(lifeAdd: LifeAddConfig, info: LifeAddInfo, eligibility: EligibilityOption): real {
    info.employeeElectedCoverage
    + (if CoversSpouse(eligibility) then info.spouseElectedCoverage else 0.0)
    + (if CoversChildren(eligibility) then ChildrenCoverage(lifeAdd, info.numberOfChildren) else 0.0)
  }

  /** `age / 100` */
  function AgeFactor(age: int): real {
    age as real / 100.0
  }

  /** The charge for a coverage: per thousand of coverage, the base rate
      scaled by one plus the age factor. */
  function LifeAddCharge(totalCoverage: real, baseRate: real, ageFactor: real): (charge: real)
    ensures totalCoverage >= 0.0 && baseRate >= 0.0 && ageFactor >= -1.0 ==> charge >= 0.0
  {
    MulMonotone(0.0, totalCoverage / 1000.0, baseRate);
    MulMonotone(0.0, (totalCoverage / 1000.0) * baseRate, 1.0 + ageFactor);
    (totalCoverage / 1000.0) * baseRate * (1.0 + ageFactor)
  }

  /** Life/AD&D: (coverage/1000) times the base rate times (1 + age/100). */
  function LifeAddPremium(lifeAdd: LifeAddConfig, age: int, info: LifeAddInfo, eligibility: EligibilityOption): real {
    LifeAddCharge(LifeAddTotalCoverage(lifeAdd, info, eligibility), lifeAdd.baseRate, AgeFactor(age))
  }

  /** The coverage each tier prices: "Individual" and "Family" the employee's
      election alone, the two others the employee plus that one dependent term. */
  lemma LifeAddCoverageByTier(lifeAdd: LifeAddConfig, info: LifeAddInfo, eligibility: EligibilityOption)
    ensures eligibility == Individual || eligibility == Family ==>
              LifeAddTotalCoverage(lifeAdd, info, eligibility) == info.employeeElectedCoverage
    ensures eligibility == IndividualSpouse ==>
              LifeAddTotalCoverage(lifeAdd, info, eligibility) == info.employeeElectedCoverage + info.spouseElectedCoverage
    ensures eligibility == IndividualChildren ==>
              LifeAddTotalCoverage(lifeAdd, info, eligibility)
              == info.employeeElectedCoverage + ChildrenCoverage(lifeAdd, info.numberOfChildren)
  {
    SpouseByTier(eligibility);
    ChildrenByTier(eligibility);
  }

  /** Non-negative elections, rates and an age of at least -100 give a
      non-negative Life/AD&D premium. */
  lemma LifeAddPremiumNonNegative(lifeAdd: LifeAddConfig, age: int, info: LifeAddInfo, eligibility: EligibilityOption)
    requires lifeAdd.baseRate >= 0.0 && lifeAdd.childCoverage >= 0.0 && age >= -100
    requires info.employeeElectedCoverage >= 0.0 && info.spouseElectedCoverage >= 0.0 && info.numberOfChildren >= 0
    ensures LifeAddPremium(lifeAdd, age, info, eligibility) >= 0.0
  {
    assert LifeAddTotalCoverage(lifeAdd, info, eligibility) >= 0.0;
    assert AgeFactor(age) >= -1.0;
  }

  /** The Life/AD&D rule as the code runs it: `totalCoverage` starts at the
      employee's election and the dependent terms are added to it in turn. */
  method LifeAddPremiumStepwise(lifeAdd: LifeAddConfig, age: int, info: LifeAddInfo, eligibility: EligibilityOption)
    returns (premium: real)
    ensures premium == LifeAddPremium(lifeAdd, age, info, eligibility)
  {
    var ageFactor := AgeFactor(age);
    var totalCoverage := info.employeeElectedCoverage;
    if CoversSpouse(eligibility) {
      totalCoverage := totalCoverage + info.spouseElectedCoverage;
    }
    if CoversChildren(eligibility) {
      totalCoverage := totalCoverage + ChildrenCoverage(lifeAdd, info.numberOfChildren);
    }
    assert totalCoverage == LifeAddTotalCoverage(lifeAdd, info, eligibility);
    premium := LifeAddCharge(totalCoverage, lifeAdd.baseRate, ageFactor);
  }

  /** Dental: the `[plan][region][eligibility]` entry when it is present and
      non-zero, else 0 (the code logs a warning there). */
  function DentalPremium(dental: map<Plan, map<nat, TierRates>>, regions: seq<ZipRegion>, plan: Plan,
                         eligibility: EligibilityOption, zipCode: string): (premium: real)
    ensures var region := ZipCodeRegion(regions, zipCode);
            premium == if plan in dental && region in dental[plan] && eligibility in dental[plan][region]
                       then dental[plan][region][eligibility] else 0.0
  {
    var region := ZipCodeRegion(regions, zipCode);
    if plan in dental && region in dental[plan] && eligibility in dental[plan][region]
       && dental[plan][region][eligibility] != 0.0
    then dental[plan][region][eligibility]
    else 0.0
  }

  /** Vision: the rate of the state's category, plan and tier. */
  function VisionPremium(vision: map<string, map<Plan, TierRates>>, categories: seq<StateCategory>, plan: Plan,
                         eligibility: EligibilityOption, state: USState): real
    requires VisionComplete(vision, categories)
  {
    var category := StateCategoryOf(categories, state);
    vision[category][plan][eligibility]
  }

  /** Critical Illness/Cancer: the rate of the age group and tier. */
  function CriticalIllnessPremium(rates: map<string, TierRates>, age: int, eligibility: EligibilityOption): real
    requires CriticalIllnessComplete(rates)
  {
    rates[CriticalIllnessAgeGroup(age)][eligibility]
  }

  /** `PREMIUM_CALCULATIONS[product]` applied to the applicant, the plan, the
      Life/AD&D election and the tier. */
  function ProductPremium(t: RateTables, product: Product, age: int, annualSalary: real, plan: Plan,
                          lifeAddInfo: LifeAddInfo, eligibility: EligibilityOption, zipCode: string, state: USState): real
    requires WellFormed(t)
  {
    match product
    case STD => StdPremium(t.std, t.ageBandedRates, age, annualSalary)
    case LTD => LtdPremium(t.ltd[plan], annualSalary)
    case LifeAdd => LifeAddPremium(t.lifeAdd, age, lifeAddInfo, eligibility)
    case Accidents => t.accidentPremiums[plan][eligibility]
    case Dental => DentalPremium(t.dentalPremiums, t.zipCodeRegions, plan, eligibility, zipCode)
    case Vision => VisionPremium(t.visionPremiums, t.stateCategories, plan, eligibility, state)
    case CriticalIllness => CriticalIllnessPremium(t.criticalIllnessRates, age, eligibility)
  }

  /** STD reads only age and salary; LTD only salary and plan. */
  lemma IncomePremiumInputs(t: RateTables, age: int, age': int, salary: real, plan: Plan, plan': Plan,
                            info: LifeAddInfo, info': LifeAddInfo, e: EligibilityOption, e': EligibilityOption,
                            zip: string, zip': string, state: USState, state': USState)
    requires WellFormed(t)
    ensures ProductPremium(t, STD, age, salary, plan, info, e, zip, state) == ProductPremium(t, STD, age, salary, plan', info', e', zip', state')
    ensures ProductPremium(t, LTD, age, salary, plan, info, e, zip, state) == ProductPremium(t, LTD, age', salary, plan, info', e', zip', state')
  {
  }

  /** Life/AD&D reads only age, the election and the tier. */
  lemma LifeAddPremiumInputs(t: RateTables, age: int, salary: real, salary': real, plan: Plan, plan': Plan,
                             info: LifeAddInfo, e: EligibilityOption, zip: string, zip': string, state: USState, state': USState)
    requires WellFormed(t)
    ensures ProductPremium(t, LifeAdd, age, salary, plan, info, e, zip, state) == ProductPremium(t, LifeAdd, age, salary', plan', info, e, zip', state')
  {
  }

  /** Accidents reads only plan and tier; Critical Illness only age and tier. */
  lemma FlatPremiumInputs(t: RateTables, age: int, age': int, salary: real, salary': real, plan: Plan, plan': Plan,
                          info: LifeAddInfo, info': LifeAddInfo, e: EligibilityOption,
                          zip: string, zip': string, state: USState, state': USState)
    requires WellFormed(t)
    ensures ProductPremium(t, Accidents, age, salary, plan, info, e, zip, state) == ProductPremium(t, Accidents, age', salary', plan, info', e, zip', state')
    ensures ProductPremium(t, CriticalIllness, age, salary, plan, info, e, zip, state) == ProductPremium(t, CriticalIllness, age, salary', plan', info', e, zip', state')
  {
  }

  /** Dental reads only plan, tier and zip code; Vision only plan, tier and state. */
  lemma LocationPremiumInputs(t: RateTables, age: int, age': int, salary: real, salary': real, plan: Plan,
                              info: LifeAddInfo, info': LifeAddInfo, e: EligibilityOption,
                              zip: string, zip': string, state: USState, state': USState)
    requires WellFormed(t)
    ensures ProductPremium(t, Dental, age, salary, plan, info, e, zip, state) == ProductPremium(t, Dental, age', salary', plan, info', e, zip, state')
    ensures ProductPremium(t, Vision, age, salary, plan, info, e, zip, state) == ProductPremium(t, Vision, age', salary', plan, info', e, zip', state)
  {
  }

  /** With non-negative tables every premium is non-negative, given a
      non-negative salary and election and an age of at least -100 (the
      Life/AD&D age factor 1 + age/100 stays non-negative). */
  lemma PremiumNonNegative(t: RateTables, product: Product, age: int, annualSalary: real, plan: Plan,
                           info: LifeAddInfo, eligibility: EligibilityOption, zipCode: string, state: USState)
    requires WellFormed(t) && NonNegativeRates(t)
    requires annualSalary >= 0.0 && age >= -100
    requires info.employeeElectedCoverage >= 0.0 && info.spouseElectedCoverage >= 0.0 && info.numberOfChildren >= 0
    ensures ProductPremium(t, product, age, annualSalary, plan, info, eligibility, zipCode, state) >= 0.0
  {
    match product
    case STD =>
      var i :| 0 <= i < |t.ageBandedRates| && AgeBandedRate(t.ageBandedRates, age) == t.ageBandedRates[i].rate;
    case LTD =>
      assert t.ltd[plan].maxBenefit >= 0.0 && t.ltd[plan].costPerHundred >= 0.0;
    case LifeAdd =>
      LifeAddPremiumNonNegative(t.lifeAdd, age, info, eligibility);
    case Accidents =>
      assert t.accidentPremiums[plan][eligibility] >= 0.0;
    case Dental =>
      var region := ZipCodeRegion(t.zipCodeRegions, zipCode);
      if plan in t.dentalPremiums && region in t.dentalPremiums[plan] && eligibility in t.dentalPremiums[plan][region] {
        assert t.dentalPremiums[plan][region][eligibility] >= 0.0;
      }
    case Vision =>
      var category := StateCategoryOf(t.stateCategories, state);
      assert t.visionPremiums[category][plan][eligibility] >= 0.0;
    case CriticalIllness =>
      var group := CriticalIllnessAgeGroup(age);
      assert t.criticalIllnessRates[group][eligibility] >= 0.0;
  }

  // ================================================================ Eligibility and dispatch

  /** `PRODUCT_ELIGIBILITY_OPTIONS[product]` */
  function ProductEligibilityOptions(product: Product): seq<EligibilityOption> {
    match product
    case LTD => [Individual]
    case STD => [Individual]
    case _ => [Individual, IndividualSpouse, IndividualChildren, Family]
  }

  /** LTD and STD offer only "Individual"; every other product offers all four
      tiers, in the order of `ELIGIBILITY_OPTIONS`. */
  lemma EligibilityOptionsOffered(product: Product, e: EligibilityOption)
    ensures e in ProductEligibilityOptions(product) <==> (product == LTD || product == STD ==> e == Individual)
    ensures product != LTD && product != STD ==> ProductEligibilityOptions(product) == ELIGIBILITY_OPTIONS
    ensures Individual in ProductEligibilityOptions(product)
  {
  }

  /** `calculatePremiums`: a record with the selected product as its only key,
      priced with the tier recorded for that product. */
  function CalculatePremiums(t: RateTables, individualInfo: IndividualInfo, plan: Plan, lifeAddInfo: LifeAddInfo,
                             productEligibility: map<Product, EligibilityOption>, selectedProduct: Product)
    : (premiums: map<Product, real>)
    requires WellFormed(t)
    requires selectedProduct in productEligibility
    ensures premiums.Keys == {selectedProduct}
    ensures premiums[selectedProduct]
            == ProductPremium(t, selectedProduct, individualInfo.age, individualInfo.annualSalary, plan, lifeAddInfo,
                              productEligibility[selectedProduct], individualInfo.zipCode, individualInfo.state)
  {
    var premium := ProductPremium(t, selectedProduct, individualInfo.age, individualInfo.annualSalary, plan, lifeAddInfo,
                                  productEligibility[selectedProduct], individualInfo.zipCode, individualInfo.state);
    map[selectedProduct := premium]
  }

  /** The tiers recorded for other products do not affect the selected product's premium. */
  lemma CalculatePremiumsUsesOwnTier(t: RateTables, info: IndividualInfo, plan: Plan, lifeAddInfo: LifeAddInfo,
                                     m1: map<Product, EligibilityOption>, m2: map<Product, EligibilityOption>,
                                     selected: Product)
    requires WellFormed(t)
    requires selected in m1 && selected in m2 && m1[selected] == m2[selected]
    ensures CalculatePremiums(t, info, plan, lifeAddInfo, m1, selected) == CalculatePremiums(t, info, plan, lifeAddInfo, m2, selected)
  {
  }
}
