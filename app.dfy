/** The state and the non-rendering handlers of the calculator page: the
    initial selections, toggling a product on or off, recording the tier of
    the selected product, pricing every product, totalling the active ones
    and checking the Life/AD&D election against its limits. */
module App {
  import opened InsuranceTypes
  import opened InsuranceUtils

  // ================================================================ Initial state

  /** `Object.fromEntries(PRODUCTS.map(product => [product, 'Individual']))` */
  function InitialProductEligibility(): (m: map<Product, EligibilityOption>)
    ensures forall p :: p in m && m[p] == Individual
    ensures forall p :: m[p] in ProductEligibilityOptions(p)
  {
    ProductsListed();
    map p | p in PRODUCTS :: Individual
  }

  /** The keys of the `products` state object, in the order it is written. */
  const PRODUCT_TOGGLE_ORDER: seq<Product> := [LTD, STD, LifeAdd, Accidents, Vision, Dental, CriticalIllness]

  /** The initial `products` state: LTD, STD and Accidents on, the rest off. */
  const INITIAL_PRODUCT_FLAGS: map<Product, bool> :=
    map[LTD := true, STD := true, LifeAdd := false, Accidents := true, Vision := false, Dental := false,
        CriticalIllness := false]

  /** The toggle order names every product exactly once. */
  lemma ToggleOrderListed()
    ensures forall p :: p in PRODUCT_TOGGLE_ORDER
    ensures Distinct(PRODUCT_TOGGLE_ORDER)
  {
    forall p ensures p in PRODUCT_TOGGLE_ORDER {
      match p
      case LTD => assert PRODUCT_TOGGLE_ORDER[0] == p;
      case STD => assert PRODUCT_TOGGLE_ORDER[1] == p;
      case LifeAdd => assert PRODUCT_TOGGLE_ORDER[2] == p;
      case Accidents => assert PRODUCT_TOGGLE_ORDER[3] == p;
      case Vision => assert PRODUCT_TOGGLE_ORDER[4] == p;
      case Dental => assert PRODUCT_TOGGLE_ORDER[5] == p;
      case CriticalIllness => assert PRODUCT_TOGGLE_ORDER[6] == p;
    }
    forall i, j | 0 <= i < j < |PRODUCT_TOGGLE_ORDER|
      ensures PRODUCT_TOGGLE_ORDER[i] != PRODUCT_TOGGLE_ORDER[j]
    {
      assert i == 0 || i == 1 || i == 2 || i == 3 || i == 4 || i == 5;
      assert j == 1 || j == 2 || j == 3 || j == 4 || j == 5 || j == 6;
    }
  }

  /** The initial flags are set for every product, and on for exactly LTD, STD
      and Accidents. */
  lemma InitialProductFlags()
    ensures forall p :: p in INITIAL_PRODUCT_FLAGS
    ensures forall p :: IsActive(INITIAL_PRODUCT_FLAGS, p) <==> p == LTD || p == STD || p == Accidents
  {
    forall p
      ensures p in INITIAL_PRODUCT_FLAGS
      ensures IsActive(INITIAL_PRODUCT_FLAGS, p) <==> p == LTD || p == STD || p == Accidents
    {
      assert p == LTD || p == STD || p == LifeAdd || p == Accidents || p == Vision || p == Dental || p == CriticalIllness;
    }
  }

  predicate Distinct(s: seq<Product>) {
    forall i, j :: 0 <= i < j < |s| ==> s[i] != s[j]
  }

  // ================================================================ Product toggles

  /** The filter of `calculateTotalPremium`: the product's flag is set. */
  predicate IsActive(flags: map<Product, bool>, product: Product) {
    product in flags && flags[product]
  }

  /** `{ ...prev, [product]: !prev[product] }`: a missing flag reads as
      `undefined`, so toggling it sets it. */
  function Toggled(flags: map<Product, bool>, product: Product): (flags': map<Product, bool>)
    ensures flags'.Keys == flags.Keys + {product}
    ensures IsActive(flags', product) <==> !IsActive(flags, product)
    ensures forall q :: q != product ==> (q in flags' <==> q in flags) && (q in flags ==> flags'[q] == flags[q])
  {
    flags[product := !(product in flags && flags[product])]
  }

  /** Toggling the same product twice restores the flags it started from. */
  lemma ToggleTwice(flags: map<Product, bool>, product: Product)
    requires product in flags
    ensures Toggled(Toggled(flags, product), product) == flags
  {
  }

  // ================================================================ Total premium

  /** `premiums[product] || 0`: a product without a premium counts as 0. */
  function PremiumOrZero(premiums: map<Product, real>, product: Product): real {
    if product in premiums then premiums[product] else 0.0
  }

  /** The `reduce` of `calculateTotalPremium` over the entries of the
      `products` object, left to right, keeping only the active ones. */
  function ActiveTotal(entries: seq<Product>, flags: map<Product, bool>, premiums: map<Product, real>): real
    decreases |entries|
  {
    if |entries| == 0 then 0.0
    else
      var product := entries[|entries| - 1];
      ActiveTotal(entries[..|entries| - 1], flags, premiums)
      + (if IsActive(flags, product) then PremiumOrZero(premiums, product) else 0.0)
  }

  /** `calculateTotalPremium`: the sum of the premiums of the active products. */
  function TotalPremium(flags: map<Product, bool>, premiums: map<Product, real>): real {
    ActiveTotal(PRODUCT_TOGGLE_ORDER, flags, premiums)
  }

  /** The total reads only the active products and their premiums: two states
      that agree on which entries are active, and on the premiums of those,
      have the same total. */
  lemma {:induction false} ActiveTotalReadsActiveOnly(entries: seq<Product>, f1: map<Product, bool>, f2: map<Product, bool>,
                                                      p1: map<Product, real>, p2: map<Product, real>)
    requires forall q :: q in entries ==> (IsActive(f1, q) <==> IsActive(f2, q))
    requires forall q :: q in entries && IsActive(f1, q) ==> PremiumOrZero(p1, q) == PremiumOrZero(p2, q)
    ensures ActiveTotal(entries, f1, p1) == ActiveTotal(entries, f2, p2)
    decreases |entries|
  {
    if |entries| > 0 {
      var prefix := entries[..|entries| - 1];
      assert forall q :: q in prefix ==> q in entries;
      ActiveTotalReadsActiveOnly(prefix, f1, f2, p1, p2);
    }
  }

  /** Toggling a product listed once among the entries adds its premium to the
      total when it turns on and takes it away when it turns off. */
  lemma {:induction false} ActiveTotalToggle(entries: seq<Product>, flags: map<Product, bool>,
                                             premiums: map<Product, real>, product: Product)
    requires Distinct(entries) && product in entries
    ensures ActiveTotal(entries, Toggled(flags, product), premiums)
            == ActiveTotal(entries, flags, premiums)
               + (if IsActive(flags, product) then -PremiumOrZero(premiums, product) else PremiumOrZero(premiums, product))
    decreases |entries|
  {
    var prefix := entries[..|entries| - 1];
    var last := entries[|entries| - 1];
    assert forall q :: q in prefix ==> q in entries;
    if last == product {
      assert product !in prefix by {
        forall i | 0 <= i < |prefix| ensures prefix[i] != product {
          assert prefix[i] == entries[i];
        }
      }
      ActiveTotalReadsActiveOnly(prefix, Toggled(flags, product), flags, premiums, premiums);
    } else {
      assert product in prefix by {
        var i :| 0 <= i < |entries| && entries[i] == product;
        assert i < |entries| - 1 && prefix[i] == product;
      }
      assert Distinct(prefix) by {
        forall i, j | 0 <= i < j < |prefix| ensures prefix[i] != prefix[j] {
          assert prefix[i] == entries[i] && prefix[j] == entries[j];
        }
      }
      ActiveTotalToggle(prefix, flags, premiums, product);
    }
  }

  /** With no negative premium the total is not negative. */
  lemma {:induction false} ActiveTotalNonNegative(entries: seq<Product>, flags: map<Product, bool>,
                                                  premiums: map<Product, real>)
    requires forall q :: q in premiums ==> premiums[q] >= 0.0
    ensures ActiveTotal(entries, flags, premiums) >= 0.0
    decreases |entries|
  {
    if |entries| > 0 {
      ActiveTotalNonNegative(entries[..|entries| - 1], flags, premiums);
    }
  }

  /** With every product switched off the total is 0. */
  lemma {:induction false} ActiveTotalNoneActive(entries: seq<Product>, flags: map<Product, bool>,
                                                 premiums: map<Product, real>)
    requires forall q :: !IsActive(flags, q)
    ensures ActiveTotal(entries, flags, premiums) == 0.0
    decreases |entries|
  {
    if |entries| > 0 {
      ActiveTotalNoneActive(entries[..|entries| - 1], flags, premiums);
    }
  }

  /** `handleProductToggle` moves the total by exactly the toggled product's premium. */
  lemma TotalPremiumToggle(flags: map<Product, bool>, premiums: map<Product, real>, product: Product)
    ensures TotalPremium(Toggled(flags, product), premiums)
            == TotalPremium(flags, premiums)
               + (if IsActive(flags, product) then -PremiumOrZero(premiums, product) else PremiumOrZero(premiums, product))
  {
    ToggleOrderListed();
    ActiveTotalToggle(PRODUCT_TOGGLE_ORDER, flags, premiums, product);
  }

  /** The premiums of inactive products never reach the total. */
  lemma TotalPremiumIgnoresInactive(flags: map<Product, bool>, p1: map<Product, real>, p2: map<Product, real>)
    requires forall q :: IsActive(flags, q) ==> PremiumOrZero(p1, q) == PremiumOrZero(p2, q)
    ensures TotalPremium(flags, p1) == TotalPremium(flags, p2)
  {
    ActiveTotalReadsActiveOnly(PRODUCT_TOGGLE_ORDER, flags, flags, p1, p2);
  }

  // ================================================================ All premiums

  /** The record `calculateAllPremiums` builds: every product of `PRODUCTS`
      priced with its own recorded tier. */
  function AllPremiums(t: RateTables, individualInfo: IndividualInfo, plan: Plan, lifeAddInfo: LifeAddInfo,
                       productEligibility: map<Product, EligibilityOption>): map<Product, real>
    requires WellFormed(t)
    requires forall p :: p in productEligibility
  {
    map p | p in PRODUCTS :: ProductPremium(t, p, individualInfo.age, individualInfo.annualSalary, plan, lifeAddInfo,
                                            productEligibility[p], individualInfo.zipCode, individualInfo.state)
  }

  /** Every product has a premium, priced by its own rule with its own tier. */
  lemma AllPremiumsPriceEveryProduct(t: RateTables, individualInfo: IndividualInfo, plan: Plan, lifeAddInfo: LifeAddInfo,
                                     productEligibility: map<Product, EligibilityOption>, p: Product)
    requires WellFormed(t)
    requires forall q :: q in productEligibility
    ensures p in AllPremiums(t, individualInfo, plan, lifeAddInfo, productEligibility)
    ensures AllPremiums(t, individualInfo, plan, lifeAddInfo, productEligibility)[p]
            == CalculatePremiums(t, individualInfo, plan, lifeAddInfo, productEligibility, p)[p]
  {
    ProductsListed();
  }

  /** `calculateAllPremiums`: one `calculatePremiums` call per product of
      `PRODUCTS`, each result stored under its product. */
  method CalculateAllPremiums(t: RateTables, individualInfo: IndividualInfo, plan: Plan, lifeAddInfo: LifeAddInfo,
                              productEligibility: map<Product, EligibilityOption>)
    returns (allPremiums: map<Product, real>)
    requires WellFormed(t)
    requires forall p :: p in productEligibility
    ensures allPremiums == AllPremiums(t, individualInfo, plan, lifeAddInfo, productEligibility)
  {
    allPremiums := map[];
    for i := 0 to |PRODUCTS|
      invariant forall p :: p in allPremiums <==> p in PRODUCTS[..i]
      invariant forall p :: p in allPremiums ==>
                  allPremiums[p] == CalculatePremiums(t, individualInfo, plan, lifeAddInfo, productEligibility, p)[p]
    {
      var product := PRODUCTS[i];
      allPremiums := allPremiums[product := CalculatePremiums(t, individualInfo, plan, lifeAddInfo, productEligibility, product)[product]];
      assert PRODUCTS[..i + 1] == PRODUCTS[..i] + [product];
    }
    assert PRODUCTS[..|PRODUCTS|] == PRODUCTS;
  }

  /** With non-negative tables, salary and election, every premium on the page
      is non-negative, and so is their total. */
  lemma AllPremiumsNonNegative(t: RateTables, individualInfo: IndividualInfo, plan: Plan, lifeAddInfo: LifeAddInfo,
                               productEligibility: map<Product, EligibilityOption>, flags: map<Product, bool>)
    requires WellFormed(t) && NonNegativeRates(t)
    requires forall q :: q in productEligibility
    requires individualInfo.annualSalary >= 0.0 && individualInfo.age >= -100
    requires lifeAddInfo.employeeElectedCoverage >= 0.0 && lifeAddInfo.spouseElectedCoverage >= 0.0
    requires lifeAddInfo.numberOfChildren >= 0
    ensures forall q :: q in AllPremiums(t, individualInfo, plan, lifeAddInfo, productEligibility) ==>
              AllPremiums(t, individualInfo, plan, lifeAddInfo, productEligibility)[q] >= 0.0
    ensures TotalPremium(flags, AllPremiums(t, individualInfo, plan, lifeAddInfo, productEligibility)) >= 0.0
  {
    var all := AllPremiums(t, individualInfo, plan, lifeAddInfo, productEligibility);
    forall q | q in all ensures all[q] >= 0.0 {
      PremiumNonNegative(t, q, individualInfo.age, individualInfo.annualSalary, plan, lifeAddInfo,
                         productEligibility[q], individualInfo.zipCode, individualInfo.state);
    }
    ActiveTotalNonNegative(PRODUCT_TOGGLE_ORDER, flags, all);
  }

  /** `handleEligibilityChange` followed by the recalculation changes no premium
      but the selected product's. */
  lemma EligibilityChangeReprices(t: RateTables, individualInfo: IndividualInfo, plan: Plan, lifeAddInfo: LifeAddInfo,
                                  productEligibility: map<Product, EligibilityOption>, selected: Product,
                                  eligibility: EligibilityOption, p: Product)
    requires WellFormed(t)
    requires forall q :: q in productEligibility
    requires p != selected
    ensures p in AllPremiums(t, individualInfo, plan, lifeAddInfo, productEligibility[selected := eligibility])
    ensures AllPremiums(t, individualInfo, plan, lifeAddInfo, productEligibility[selected := eligibility])[p]
            == AllPremiums(t, individualInfo, plan, lifeAddInfo, productEligibility)[p]
  {
    ProductsListed();
  }

  // ================================================================ Validation

  const EMPLOYEE_COVERAGE_LIMIT: real := 150000.0
  const SPOUSE_COVERAGE_LIMIT: real := 20000.0
  const EMPLOYEE_COVERAGE_KEY: string := "employeeElectedCoverage"
  const SPOUSE_COVERAGE_KEY: string := "spouseElectedCoverage"
  const EMPLOYEE_COVERAGE_ERROR: string := "Employee coverage cannot exceed $150,000"
  const SPOUSE_COVERAGE_ERROR: string := "Spouse coverage cannot exceed $20,000"

  /** The election is within both limits. */
  predicate WithinLimits(info: LifeAddInfo) {
    info.employeeElectedCoverage <= EMPLOYEE_COVERAGE_LIMIT && info.spouseElectedCoverage <= SPOUSE_COVERAGE_LIMIT
  }

  /** The error record `validateInputs` builds: an entry under the field's name
      for each limit exceeded, carrying that limit's message. */
  function ValidationErrors(info: LifeAddInfo): (errors: map<string, string>)
    ensures EMPLOYEE_COVERAGE_KEY in errors <==> info.employeeElectedCoverage > EMPLOYEE_COVERAGE_LIMIT
    ensures SPOUSE_COVERAGE_KEY in errors <==> info.spouseElectedCoverage > SPOUSE_COVERAGE_LIMIT
    ensures forall k :: k in errors ==> k == EMPLOYEE_COVERAGE_KEY || k == SPOUSE_COVERAGE_KEY
    ensures EMPLOYEE_COVERAGE_KEY in errors ==> errors[EMPLOYEE_COVERAGE_KEY] == EMPLOYEE_COVERAGE_ERROR
    ensures SPOUSE_COVERAGE_KEY in errors ==> errors[SPOUSE_COVERAGE_KEY] == SPOUSE_COVERAGE_ERROR
    ensures |errors| == 0 <==> WithinLimits(info)
  {
    var employee: map<string, string> :=
      if info.employeeElectedCoverage > EMPLOYEE_COVERAGE_LIMIT then map[EMPLOYEE_COVERAGE_KEY := EMPLOYEE_COVERAGE_ERROR]
      else map[];
    var errors := if info.spouseElectedCoverage > SPOUSE_COVERAGE_LIMIT then employee[SPOUSE_COVERAGE_KEY := SPOUSE_COVERAGE_ERROR]
                  else employee;
    assert EMPLOYEE_COVERAGE_KEY != SPOUSE_COVERAGE_KEY;
    assert |errors| == 0 <==> errors.Keys == {};
    errors
  }

  // ================================================================ The page state

  /** The state of the calculator page and its handlers. The rate tables are
      the configuration the page prices with. */
  class Calculator {
    const tables: RateTables
    var individualInfo: IndividualInfo
    var selectedProduct: Product
    var costView: CostView
    var plan: Plan
    var products: map<Product, bool>
    var productEligibility: map<Product, EligibilityOption>
    var lifeAddInfo: LifeAddInfo
    var premiums: map<Product, real>
    var errors: map<string, string>

    /** The tables can price every product, every product has a tier and a flag. */
    ghost predicate Valid()
      reads this
    {
      && WellFormed(tables)
      && (forall p :: p in productEligibility)
      && (forall p :: p in products)
    }

    /** The initial `useState` values, before any effect has run. */
    constructor (t: RateTables)
      requires WellFormed(t)
      ensures Valid()
      ensures tables == t
      ensures individualInfo == IndividualInfo(45, 400000.0, "07030", NJ)
      ensures selectedProduct == LTD && costView == Monthly && plan == Basic
      ensures products == INITIAL_PRODUCT_FLAGS
      ensures productEligibility == InitialProductEligibility()
      ensures lifeAddInfo == LifeAddInfo(150000.0, 0.0, 0)
      ensures premiums == map[] && errors == map[]
    {
      tables := t;
      individualInfo := IndividualInfo(45, 400000.0, "07030", NJ);
      selectedProduct := LTD;
      costView := Monthly;
      plan := Basic;
      products := INITIAL_PRODUCT_FLAGS;
      productEligibility := InitialProductEligibility();
      lifeAddInfo := LifeAddInfo(150000.0, 0.0, 0);
      premiums := map[];
      errors := map[];
      InitialProductFlags();
    }

    /** `handleProductToggle`: flips one product's flag and nothing else. */
    method HandleProductToggle(product: Product)
      requires Valid()
      modifies this
      ensures Valid()
      ensures products == Toggled(old(products), product)
      ensures TotalPremium(products, premiums)
              == old(TotalPremium(products, premiums))
                 + (if old(IsActive(products, product)) then -PremiumOrZero(premiums, product)
                    else PremiumOrZero(premiums, product))
      ensures individualInfo == old(individualInfo) && selectedProduct == old(selectedProduct)
      ensures costView == old(costView) && plan == old(plan) && productEligibility == old(productEligibility)
      ensures lifeAddInfo == old(lifeAddInfo) && premiums == old(premiums) && errors == old(errors)
    {
      TotalPremiumToggle(products, premiums, product);
      products := Toggled(products, product);
    }

    /** `handleEligibilityChange`: records the tier of the selected product. */
    method HandleEligibilityChange(eligibility: EligibilityOption)
      requires Valid()
      modifies this
      ensures Valid()
      ensures productEligibility == old(productEligibility)[selectedProduct := eligibility]
      ensures individualInfo == old(individualInfo) && selectedProduct == old(selectedProduct)
      ensures costView == old(costView) && plan == old(plan) && products == old(products)
      ensures lifeAddInfo == old(lifeAddInfo) && premiums == old(premiums) && errors == old(errors)
    {
      productEligibility := productEligibility[selectedProduct := eligibility];
    }

    /** The effect that stores `calculateAllPremiums()` whenever an input of it changes. */
    method RefreshPremiums()
      requires Valid()
      modifies this
      ensures Valid()
      ensures premiums == AllPremiums(tables, individualInfo, plan, lifeAddInfo, productEligibility)
      ensures individualInfo == old(individualInfo) && selectedProduct == old(selectedProduct)
      ensures costView == old(costView) && plan == old(plan) && products == old(products)
      ensures productEligibility == old(productEligibility) && lifeAddInfo == old(lifeAddInfo) && errors == old(errors)
    {
      premiums := CalculateAllPremiums(tables, individualInfo, plan, lifeAddInfo, productEligibility);
    }

    /** `validateInputs`: stores the error record of the election and reports
        whether it is empty. */
    method ValidateInputs() returns (ok: bool)
      requires Valid()
      modifies this
      ensures Valid()
      ensures errors == ValidationErrors(lifeAddInfo)
      ensures ok <==> WithinLimits(lifeAddInfo)
      ensures individualInfo == old(individualInfo) && selectedProduct == old(selectedProduct)
      ensures costView == old(costView) && plan == old(plan) && products == old(products)
      ensures productEligibility == old(productEligibility) && lifeAddInfo == old(lifeAddInfo)
      ensures premiums == old(premiums)
    {
      var newErrors: map<string, string> := map[];
      if lifeAddInfo.employeeElectedCoverage > EMPLOYEE_COVERAGE_LIMIT {
        newErrors := newErrors[EMPLOYEE_COVERAGE_KEY := EMPLOYEE_COVERAGE_ERROR];
      }
      if lifeAddInfo.spouseElectedCoverage > SPOUSE_COVERAGE_LIMIT {
        newErrors := newErrors[SPOUSE_COVERAGE_KEY := SPOUSE_COVERAGE_ERROR];
      }
      errors := newErrors;
      ok := |newErrors| == 0;
    }
  }
}
