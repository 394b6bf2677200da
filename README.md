# Insurance premium calculator — Dafny model

This project models the pricing engine of a small insurance premium calculator and the page
state that drives it. Seven products are priced: LTD, STD, Life / AD&D, Accidents, Dental,
Vision and Critical Illness/Cancer. Each premium depends on the applicant profile (age,
salary, zip code, state), the plan (Basic or Premium), the Life/AD&D election and the
eligibility tier chosen for that product. The page keeps a premium for every product,
switches products on and off, and totals the premiums of the active ones. It also checks the
Life/AD&D election against the $150,000 employee limit and the $20,000 spouse limit.

Four modules, one per file:

- `JsBuiltins` (`js_builtins.dfy`): the JavaScript built-ins the engine is written with.
  These are `find`/`findIndex`, `some`, `startsWith`, `includes`, `Math.min` and the
  decimal rendering of a number in a template literal.
- `InsuranceTypes` (`insurance_types.dfy`): the union types as datatypes, each with the
  string literal of every value. It also holds the `PRODUCTS`, `ELIGIBILITY_OPTIONS` and
  `US_STATES` lists and the `LifeAddInfo` and `IndividualInfo` records.
- `InsuranceUtils` (`insurance_utils.dfy`): the lookup resolvers (age band, zip region,
  state category, critical-illness age group) and the seven pricing rules, including the
  zip-region loop local to the Dental rule. It also holds the eligibility options per
  product and `calculatePremiums`. The configuration tables are a parameter, `RateTables`.
  `WellFormed` says what they must contain for no lookup to fail.
- `App` (`app.dfy`): the logic of the page component. It has the initial state, the toggle
  and eligibility handlers, `calculateAllPremiums` (a loop method proved equal to the
  function `AllPremiums`), the total of the active premiums and the validation of the
  election. The mutable page state is the class `Calculator`, and each handler is a method
  that states the whole new state.

Points where the code's behaviour is easy to misread, modelled as the code has it:

- STD does not cap weekly income before applying the benefit percentage. Only the weekly
  benefit and the units are capped.
- Life/AD&D prices `(coverage / 1000) × baseRate × (1 + age / 100)` with no unit caps.
  The spouse term is added only for a tier whose name contains "Spouse", and the children
  term (children × child coverage) only for one whose name contains "Children". The
  "Family" tier contains neither word, so it prices the employee's election alone
  (`LifeAddCoverageByTier`).
- The critical-illness key "20-24" is produced at age 24 and at no other whole-year age, because ages
  below 24 map to "<24" (`CriticalIllnessAgeGroupAt24`).
- The code has no cost-view normaliser. `CostView` is a state value with the four cadences
  Monthly, Semi-Monthly, Bi-Weekly and Weekly.
- An empty category name in the state-category table also falls back to "Other", because of
  `|| 'Other'`.

## Model

| member | source | states |
|---|---|---|
| JsBuiltins.FindIndex | src/utils/insuranceUtils.ts:30 | the index found holds the first element satisfying the predicate; None only when no element satisfies it |
| JsBuiltins.FindIndexIsFirst | src/utils/insuranceUtils.ts:42 | an index whose element satisfies the predicate, with no earlier one that does, is the index found |
| JsBuiltins.Any | src/utils/insuranceUtils.ts:36 | `some` holds exactly when some element satisfies the predicate |
| JsBuiltins.StartsWith | src/utils/insuranceUtils.ts:36 | no contract of its own: `s.startsWith(prefix)`, the prefix equals the first characters of `s`; `ZipCodeRegion` and `DentalZipCodeRegion` state its use, also at line 103 |
| JsBuiltins.Includes | src/utils/insuranceUtils.ts:92-93 | no contract of its own: `s.includes(sub)`, `sub` starts at some position of `s`; `NotIncludes` and `IncludesAt` state its behaviour |
| JsBuiltins.NotIncludes | src/utils/insuranceUtils.ts:92-93 | a string in which the first character of the needle never occurs does not include the needle |
| JsBuiltins.IncludesAt | src/utils/insuranceUtils.ts:92-93 | a string includes any needle that starts at one of its positions |
| JsBuiltins.NumberToString | src/utils/insuranceUtils.ts:67 | the rendering of a non-negative integer is a non-empty run of decimal digits with no leading zero |
| JsBuiltins.NumberToStringValue | src/utils/insuranceUtils.ts:67 | the digits rendered denote the number itself: their decimal value is `n` |
| JsBuiltins.Min | src/utils/insuranceUtils.ts:76-77 | `Math.min` is at most each argument and equal to one of them |
| InsuranceTypes.ProductsListed | src/utils/insuranceTypes.ts:36 | `PRODUCTS` has seven entries, lists every product exactly once, in declaration order |
| InsuranceTypes.ProductNamesDistinct | src/utils/insuranceTypes.ts:3 | distinct products have distinct string literals |
| InsuranceTypes.EligibilityOptionsListed | src/utils/insuranceTypes.ts:37 | `ELIGIBILITY_OPTIONS` has four entries, lists every tier exactly once, in declaration order |
| InsuranceTypes.EligibilityNamesDistinct | src/utils/insuranceTypes.ts:5 | distinct tiers have distinct string literals |
| InsuranceTypes.USStatesInOrder | src/utils/insuranceTypes.ts:38-44 | `US_STATES` has fifty entries and the i-th is the i-th state of the union type |
| InsuranceTypes.USStatesListed | src/utils/insuranceTypes.ts:38-44 | `US_STATES` lists every state exactly once |
| InsuranceTypes.StateCodeRoundTrip | src/utils/insuranceTypes.ts:7-12 | reading back the two-letter code of any state gives that state |
| InsuranceTypes.PlanAndCostViewNames | src/utils/insuranceTypes.ts:14-29 | the plan names and the four cost-view names are distinct; "Bi-Weekly" is a cost view and "Annual" is not |
| InsuranceUtils.AgeBandedRate | src/utils/insuranceUtils.ts:29-32 | the rate of the first band containing the age; the last band's rate when none contains it; always the rate of some band |
| InsuranceUtils.InBand | src/utils/insuranceUtils.ts:30 | no contract of its own: `age >= band.minAge && age <= band.maxAge`; `AgeBandedRate` and `AgeBandedRateOfDisjointBands` state its behaviour |
| InsuranceUtils.AgeBandedRateOfDisjointBands | src/utils/insuranceUtils.ts:29-32 | with non-overlapping bands, the rate is that of any band containing the age |
| InsuranceUtils.ZipCodeRegion | src/utils/insuranceUtils.ts:34-39 | the region of the first entry with a prefix beginning the zip code; region 1 when no prefix matches |
| InsuranceUtils.ServesZip | src/utils/insuranceUtils.ts:36 | no contract of its own: `zips.some(zipPrefix => zipCode.startsWith(zipPrefix))`, also at line 103; `ZipCodeRegion` states its behaviour |
| InsuranceUtils.ZipCodeRegionIsSmallest | src/utils/insuranceUtils.ts:34-39 | with ascending region keys, the region found serves the zip code and is the smallest that does |
| InsuranceUtils.DentalZipCodeRegion | src/utils/insuranceUtils.ts:101-108 | the loop local to the Dental rule returns the same region as `getZipCodeRegion` for every zip code |
| InsuranceUtils.StateCategoryOf | src/utils/insuranceUtils.ts:41-43 | the first category listing the state (an empty name becoming "Other"); "Other" when none lists it; always "Other" or a category name |
| InsuranceUtils.CriticalIllnessAgeGroup | src/utils/insuranceUtils.ts:59-68 | every age below 24 gives "<24", every age from 75 gives "75+", and every age gives one of the thirteen keys the resolver can produce (the rows `WellFormed` requires of the rate table) |
| InsuranceUtils.FiveYearLabelAt | src/utils/insuranceUtils.ts:65-67 | the key built from the lower bound 15 + 5k is the k-th key of the list of keys the resolver can produce, for k from 1 to 11 |
| InsuranceUtils.FiveYearLabel | src/utils/insuranceUtils.ts:65-67 | no contract of its own: the template key `${lowerBound}-${upperBound}`; `FiveYearLabelAt`, `CriticalIllnessAgeGroupSpan` and `NumberToStringValue` state its behaviour |
| InsuranceUtils.CriticalIllnessAgeGroupSpan | src/utils/insuranceUtils.ts:64-68 | from 24 to 74 the key is the five-year span containing the age, with a lower bound that is a multiple of 5 |
| InsuranceUtils.CriticalIllnessAgeGroupAt24 | src/utils/insuranceUtils.ts:62-67 | the key is "20-24" exactly when the age is 24, over whole-year ages |
| InsuranceUtils.CriticalIllnessAgeGroupsReached | src/utils/insuranceUtils.ts:59-70 | every key in the list of keys the resolver can produce is produced by some age |
| InsuranceUtils.StdUnits | src/utils/insuranceUtils.ts:75-77 | STD units never exceed the maximum units, and are non-negative for a non-negative salary and configuration |
| InsuranceUtils.UnitCharge | src/utils/insuranceUtils.ts:78-85 | `units * rate` for STD (line 78) and LTD (line 85): non-negative when both factors are; `UnitChargeMonotone` adds that more units never cost less at a non-negative rate |
| InsuranceUtils.StdPremium | src/utils/insuranceUtils.ts:74-79 | the STD premium is at most the maximum units times the age-banded rate, and non-negative under non-negative inputs |
| InsuranceUtils.StdUnitsMonotone | src/utils/insuranceUtils.ts:75-77 | a higher salary never lowers the STD units |
| InsuranceUtils.StdPremiumMonotone | src/utils/insuranceUtils.ts:74-79 | a higher salary never lowers the STD premium |
| InsuranceUtils.LtdPremium | src/utils/insuranceUtils.ts:81-86 | below the cap the LTD premium is salary/1200 times the cost per hundred; from the cap on it is maxBenefit/100 times that cost; non-negative under non-negative inputs |
| InsuranceUtils.LtdPremiumMonotone | src/utils/insuranceUtils.ts:81-86 | a higher salary never lowers the LTD premium |
| InsuranceUtils.SpouseByTier | src/utils/insuranceUtils.ts:92 | a tier name includes "Spouse" exactly for "Individual + Spouse" |
| InsuranceUtils.ChildrenByTier | src/utils/insuranceUtils.ts:93 | a tier name includes "Children" exactly for "Individual + Children" |
| InsuranceUtils.CoversSpouse | src/utils/insuranceUtils.ts:92 | no contract of its own: `eligibility.includes('Spouse')`; `SpouseByTier` states its behaviour |
| InsuranceUtils.CoversChildren | src/utils/insuranceUtils.ts:93 | no contract of its own: `eligibility.includes('Children')`; `ChildrenByTier` states its behaviour |
| InsuranceUtils.AgeFactor | src/utils/insuranceUtils.ts:90 | no contract of its own: `age / 100`; `LifeAddPremiumNonNegative` states the sign of the charge it scales |
| InsuranceUtils.ChildrenCoverage | src/utils/insuranceUtils.ts:93 | the children's coverage is non-negative for a non-negative count and child coverage |
| InsuranceUtils.LifeAddCharge | src/utils/insuranceUtils.ts:94 | the Life/AD&D charge is non-negative for a non-negative coverage and rate and an age factor of at least -1 |
| InsuranceUtils.LifeAddTotalCoverage | src/utils/insuranceUtils.ts:89-93 | no contract of its own: the coverage accumulated in `totalCoverage`; `LifeAddCoverageByTier` states its value per tier |
| InsuranceUtils.LifeAddPremium | src/utils/insuranceUtils.ts:88-95 | no contract of its own: the Life/AD&D rule; `LifeAddPremiumNonNegative`, `LifeAddPremiumStepwise` and `LifeAddPremiumInputs` state its properties |
| InsuranceUtils.LifeAddCoverageByTier | src/utils/insuranceUtils.ts:88-95 | the coverage priced is the employee's alone for Individual and Family, plus the spouse's for Individual + Spouse, plus the children's for Individual + Children |
| InsuranceUtils.LifeAddPremiumNonNegative | src/utils/insuranceUtils.ts:88-95 | non-negative elections and rates with an age of at least -100 give a non-negative Life/AD&D premium |
| InsuranceUtils.LifeAddPremiumStepwise | src/utils/insuranceUtils.ts:88-95 | accumulating `totalCoverage` step by step gives the Life/AD&D premium |
| InsuranceUtils.DentalPremium | src/utils/insuranceUtils.ts:100-122 | the table entry for plan, resolved region and tier when it is present; 0 when any level is missing |
| InsuranceUtils.VisionPremium | src/utils/insuranceUtils.ts:125-128 | no contract of its own: the rate of the state's category, plan and tier; `StateCategoryOf` states the category, `LocationPremiumInputs` what it reads and `PremiumNonNegative` its sign |
| InsuranceUtils.CriticalIllnessPremium | src/utils/insuranceUtils.ts:130-132 | no contract of its own: the rate of the age group and tier (line 70); `CriticalIllnessAgeGroup` states the group, `FlatPremiumInputs` what it reads and `PremiumNonNegative` its sign |
| InsuranceUtils.ProductPremium | src/utils/insuranceUtils.ts:73-133 | no contract of its own: the `PREMIUM_CALCULATIONS` dispatch to the seven rules; the `*PremiumInputs` lemmas and `PremiumNonNegative` state its properties |
| InsuranceUtils.IncomePremiumInputs | src/utils/insuranceUtils.ts:74-86 | STD reads only age and salary; LTD reads only salary and plan |
| InsuranceUtils.LifeAddPremiumInputs | src/utils/insuranceUtils.ts:88-95 | Life/AD&D reads only age, election and tier |
| InsuranceUtils.FlatPremiumInputs | src/utils/insuranceUtils.ts:97-132 | Accidents reads only plan and tier; Critical Illness reads only age and tier |
| InsuranceUtils.LocationPremiumInputs | src/utils/insuranceUtils.ts:100-128 | Dental reads only plan, tier and zip code; Vision reads only plan, tier and state |
| InsuranceUtils.PremiumNonNegative | src/utils/insuranceUtils.ts:73-133 | with non-negative tables, salary and election and an age of at least -100, every product's premium is non-negative |
| InsuranceUtils.ProductEligibilityOptions | src/utils/insuranceUtils.ts:134-142 | no contract of its own: `PRODUCT_ELIGIBILITY_OPTIONS`; `EligibilityOptionsOffered` states what each product offers |
| InsuranceUtils.EligibilityOptionsOffered | src/utils/insuranceUtils.ts:134-142 | LTD and STD offer only Individual; every other product offers all four tiers in `ELIGIBILITY_OPTIONS` order |
| InsuranceUtils.CalculatePremiums | src/utils/insuranceUtils.ts:143-166 | the result has the selected product as its only key, priced by that product's rule with the tier recorded for it |
| InsuranceUtils.CalculatePremiumsUsesOwnTier | src/utils/insuranceUtils.ts:155-163 | the tiers recorded for other products do not change the selected product's result |
| App.InitialProductEligibility | src/App.tsx:18-20 | every product starts at Individual, a tier each product offers |
| App.ToggleOrderListed | src/App.tsx:15-17 | the keys of the `products` state name every product exactly once |
| App.InitialProductFlags | src/App.tsx:15-17 | every product has a flag; exactly LTD, STD and Accidents start active |
| App.Toggled | src/App.tsx:34-36 | the toggled product's activity flips; every other flag is unchanged; a missing flag becomes true |
| App.ToggleTwice | src/App.tsx:34-36 | toggling a product twice restores the flags |
| App.PremiumOrZero | src/App.tsx:63 | no contract of its own: `premiums[product] \|\| 0`, a missing premium read as 0 |
| App.IsActive | src/App.tsx:62 | no contract of its own: the filter `([_, isActive]) => isActive`; `ActiveTotalReadsActiveOnly` and `TotalPremiumIgnoresInactive` state its behaviour |
| App.ActiveTotal | src/App.tsx:60-64 | no contract of its own: the filter and `reduce` over the entries in order; the `ActiveTotal*` lemmas below state its properties |
| App.TotalPremium | src/App.tsx:60-64 | no contract of its own: `calculateTotalPremium` over the page's key order; `TotalPremiumToggle` and `TotalPremiumIgnoresInactive` state its properties |
| App.ActiveTotalReadsActiveOnly | src/App.tsx:60-64 | the total depends only on which products are active and on the premiums of those |
| App.ActiveTotalToggle | src/App.tsx:60-64 | toggling a product listed once adds its premium (or 0 when absent) to the total, or takes it away |
| App.ActiveTotalNonNegative | src/App.tsx:60-64 | with no negative premium the total is non-negative |
| App.ActiveTotalNoneActive | src/App.tsx:60-64 | with no product active the total is 0 |
| App.TotalPremiumToggle | src/App.tsx:60-64 | over the page's own product keys, a toggle changes the total by exactly the toggled product's premium |
| App.TotalPremiumIgnoresInactive | src/App.tsx:60-64 | the premiums of inactive products never reach the total |
| App.AllPremiums | src/App.tsx:47-54 | no contract of its own: the map `calculateAllPremiums` returns; `AllPremiumsPriceEveryProduct`, `AllPremiumsNonNegative` and `EligibilityChangeReprices` state its properties |
| App.AllPremiumsPriceEveryProduct | src/App.tsx:47-54 | every product has a premium, equal to the `calculatePremiums` result for that product |
| App.CalculateAllPremiums | src/App.tsx:47-54 | the `forEach` loop builds exactly the map pricing every product with its own tier |
| App.AllPremiumsNonNegative | src/App.tsx:47-64 | under non-negative inputs every computed premium and the total are non-negative |
| App.EligibilityChangeReprices | src/App.tsx:38-54 | changing the selected product's tier leaves every other product's premium unchanged |
| App.ValidationErrors | src/App.tsx:66-76 | an error under a field exactly when its limit is exceeded, with that limit's message; no other key; empty exactly when both limits hold |
| App.Calculator.constructor | src/App.tsx:11-27 | the initial page state: age 45, salary 400000, zip "07030", NJ, LTD selected, Monthly, Basic, the initial flags, every tier Individual, election 150000/0/0, no premiums, no errors |
| App.Calculator.HandleProductToggle | src/App.tsx:34-36 | only the flags change, toggled at the product, and the total moves by that product's premium |
| App.Calculator.HandleEligibilityChange | src/App.tsx:38-40 | only the tier of the selected product changes |
| App.Calculator.RefreshPremiums | src/App.tsx:56-58 | the premiums become the full price map for the current inputs; nothing else changes |
| App.Calculator.ValidateInputs | src/App.tsx:66-80 | the errors become the validation record of the election, the result says whether it is empty, nothing else changes |

## Left out

- Rendering: the JSX of the page and of every component is not modelled. That includes the
  cost-view display, the product selector and the forms.
- `handleIndividualInfoChange` and `handleLifeAddInfoChange` are not modelled. They copy a
  form field into the state, the first as a raw string and the second through `parseInt`.
  The model takes the numbers they would produce.
- Zip-code lookup of the state is not part of this model (`loadStateFromZip.ts`).
- The contents of `insuranceConfig` are not part of this model. The tables are a
  `RateTables` parameter, constrained only by `WellFormed` and, for the non-negativity
  lemmas, `NonNegativeRates`.
- `console.log` and `console.warn` (the Dental miss, the per-product log in
  `calculateAllPremiums`) are I/O and are left out.
- Numbers are exact reals and ages are integers. IEEE rounding, `NaN`, `Infinity` and
  fractional ages are not modelled. So `premiums[product] || 0` reads a missing premium as 0
  but does not turn a `NaN` premium into 0.
- The `!calculatePremium` branch of `calculatePremiums` returns 0 for a product with no
  pricing rule. Every product has a rule, so the branch cannot be taken and the exhaustive
  match leaves it out.
- DentalPremium: the code also returns 0 when the table entry is itself 0 (a falsy value).
  The two paths give the same number, so the contract states one case.
- The `useEffect` that re-runs `validateInputs` whenever the election changes is modelled as
  the method `ValidateInputs`, which a caller runs after a change. The scheduling of effects
  is not modelled, and neither is the re-pricing effect's dependency tracking.
- Object key order is modelled only where it matters. `Object.entries` over the flags is
  the fixed order of the `products` literal. `Object.entries` over the region table and
  `Object.keys` over the category table are the order of the `seq` given.
