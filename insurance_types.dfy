/** The closed sets of values the calculator works with and the records it
    passes around (src/utils/insuranceTypes.ts). Each TypeScript union of string
    literals is a datatype here, together with the function that gives every
    value its string, and each exported constant list is a `const` sequence. */
module InsuranceTypes {
  import opened JsBuiltins

  // ---------------------------------------------------------------- Product

  datatype Product = LTD | STD | LifeAdd | Accidents | Dental | Vision | CriticalIllness

  /** The string literal of each product, as it appears in the union type. */
  function ProductName(p: Product): string {
    match p
    case LTD => "LTD"
    case STD => "STD"
    case LifeAdd => "Life / AD&D"
    case Accidents => "Accidents"
    case Dental => "Dental"
    case Vision => "Vision"
    case CriticalIllness => "Critical Illness/Cancer"
  }

  /** Position of a product in the declaration of the union type. */
  function ProductOrdinal(p: Product): (i: nat)
    ensures i < 7
  {
    match p
    case LTD => 0
    case STD => 1
    case LifeAdd => 2
    case Accidents => 3
    case Dental => 4
    case Vision => 5
    case CriticalIllness => 6
  }

  /** `PRODUCTS` */
  const PRODUCTS: seq<Product> := [LTD, STD, LifeAdd, Accidents, Dental, Vision, CriticalIllness]

  /** `PRODUCTS` lists every product exactly once, in declaration order. */
  lemma {:induction false} ProductsListed()
    ensures |PRODUCTS| == 7
    ensures forall p :: PRODUCTS[ProductOrdinal(p)] == p
    ensures forall i :: 0 <= i < |PRODUCTS| ==> ProductOrdinal(PRODUCTS[i]) == i
    ensures forall p :: p in PRODUCTS
    ensures forall i, j :: 0 <= i < j < |PRODUCTS| ==> PRODUCTS[i] != PRODUCTS[j]
  {
    forall i | 0 <= i < |PRODUCTS| ensures ProductOrdinal(PRODUCTS[i]) == i {
      assert i == 0 || i == 1 || i == 2 || i == 3 || i == 4 || i == 5 || i == 6;
    }
    forall p ensures p in PRODUCTS {
      assert PRODUCTS[ProductOrdinal(p)] == p;
    }
  }

  /** Distinct products have distinct string literals. */
  lemma ProductNamesDistinct(p: Product, q: Product)
    ensures ProductName(p) == ProductName(q) ==> p == q
  {
  }

  // ---------------------------------------------------------------- Eligibility

  datatype EligibilityOption = Individual | IndividualSpouse | IndividualChildren | Family

  function EligibilityName(e: EligibilityOption): string {
    match e
    case Individual => "Individual"
    case IndividualSpouse => "Individual + Spouse"
    case IndividualChildren => "Individual + Children"
    case Family => "Family"
  }

  function EligibilityOrdinal(e: EligibilityOption): (i: nat)
    ensures i < 4
  {
    match e
    case Individual => 0
    case IndividualSpouse => 1
    case IndividualChildren => 2
    case Family => 3
  }

  /** `ELIGIBILITY_OPTIONS` */
  const ELIGIBILITY_OPTIONS: seq<EligibilityOption> := [Individual, IndividualSpouse, IndividualChildren, Family]

  /** `ELIGIBILITY_OPTIONS` lists every tier exactly once, in declaration order. */
  lemma {:induction false} EligibilityOptionsListed()
    ensures |ELIGIBILITY_OPTIONS| == 4
    ensures forall e :: ELIGIBILITY_OPTIONS[EligibilityOrdinal(e)] == e
    ensures forall i :: 0 <= i < |ELIGIBILITY_OPTIONS| ==> EligibilityOrdinal(ELIGIBILITY_OPTIONS[i]) == i
    ensures forall e :: e in ELIGIBILITY_OPTIONS
    ensures forall i, j :: 0 <= i < j < |ELIGIBILITY_OPTIONS| ==> ELIGIBILITY_OPTIONS[i] != ELIGIBILITY_OPTIONS[j]
  {
    forall i | 0 <= i < |ELIGIBILITY_OPTIONS| ensures EligibilityOrdinal(ELIGIBILITY_OPTIONS[i]) == i {
      assert i == 0 || i == 1 || i == 2 || i == 3;
    }
    forall e ensures e in ELIGIBILITY_OPTIONS {
      assert ELIGIBILITY_OPTIONS[EligibilityOrdinal(e)] == e;
    }
  }

  lemma EligibilityNamesDistinct(e: EligibilityOption, f: EligibilityOption)
    ensures EligibilityName(e) == EligibilityName(f) ==> e == f
  {
  }

  // ---------------------------------------------------------------- USState

  datatype USState =
    | AL | AK | AZ | AR | CA | CO | CT | DE | FL | GA
    | HI | ID | IL | IN | IA | KS | KY | LA | ME | MD
    | MA | MI | MN | MS | MO | MT | NE | NV | NH | NJ
    | NM | NY | NC | ND | OH | OK | OR | PA | RI | SC
    | SD | TN | TX | UT | VT | VA | WA | WV | WI | WY

  /** The two-letter code of each state, as it appears in the union type. */
  function StateCode(s: USState): string {
    match s
    case AL => "AL"
    case AK => "AK"
    case AZ => "AZ"
    case AR => "AR"
    case CA => "CA"
    case CO => "CO"
    case CT => "CT"
    case DE => "DE"
    case FL => "FL"
    case GA => "GA"
    case HI => "HI"
    case ID => "ID"
    case IL => "IL"
    case IN => "IN"
    case IA => "IA"
    case KS => "KS"
    case KY => "KY"
    case LA => "LA"
    case ME => "ME"
    case MD => "MD"
    case MA => "MA"
    case MI => "MI"
    case MN => "MN"
    case MS => "MS"
    case MO => "MO"
    case MT => "MT"
    case NE => "NE"
    case NV => "NV"
    case NH => "NH"
    case NJ => "NJ"
    case NM => "NM"
    case NY => "NY"
    case NC => "NC"
    case ND => "ND"
    case OH => "OH"
    case OK => "OK"
    case OR => "OR"
    case PA => "PA"
    case RI => "RI"
    case SC => "SC"
    case SD => "SD"
    case TN => "TN"
    case TX => "TX"
    case UT => "UT"
    case VT => "VT"
    case VA => "VA"
    case WA => "WA"
    case WV => "WV"
    case WI => "WI"
    case WY => "WY"
  }

  /** Position of a state in the declaration of the union type. */
  function StateOrdinal(s: USState): (i: nat)
    ensures i < 50
  {
    match s
    case AL => 0
    case AK => 1
    case AZ => 2
    case AR => 3
    case CA => 4
    case CO => 5
    case CT => 6
    case DE => 7
    case FL => 8
    case GA => 9
    case HI => 10
    case ID => 11
    case IL => 12
    case IN => 13
    case IA => 14
    case KS => 15
    case KY => 16
    case LA => 17
    case ME => 18
    case MD => 19
    case MA => 20
    case MI => 21
    case MN => 22
    case MS => 23
    case MO => 24
    case MT => 25
    case NE => 26
    case NV => 27
    case NH => 28
    case NJ => 29
    case NM => 30
    case NY => 31
    case NC => 32
    case ND => 33
    case OH => 34
    case OK => 35
    case OR => 36
    case PA => 37
    case RI => 38
    case SC => 39
    case SD => 40
    case TN => 41
    case TX => 42
    case UT => 43
    case VT => 44
    case VA => 45
    case WA => 46
    case WV => 47
    case WI => 48
    case WY => 49
  }

  /** `US_STATES`, written out in rows of ten. */
  const US_STATES: seq<USState> := STATES_ROW_1 + STATES_ROW_2 + STATES_ROW_3 + STATES_ROW_4 + STATES_ROW_5

  const STATES_ROW_1: seq<USState> := [AL, AK, AZ, AR, CA, CO, CT, DE, FL, GA]
  const STATES_ROW_2: seq<USState> := [HI, ID, IL, IN, IA, KS, KY, LA, ME, MD]
  const STATES_ROW_3: seq<USState> := [MA, MI, MN, MS, MO, MT, NE, NV, NH, NJ]
  const STATES_ROW_4: seq<USState> := [NM, NY, NC, ND, OH, OK, OR, PA, RI, SC]
  const STATES_ROW_5: seq<USState> := [SD, TN, TX, UT, VT, VA, WA, WV, WI, WY]

  // The facts about `US_STATES` are USStatesInOrder, USStatesListed and
  // StateCodeRoundTrip below. The row and half-row lemmas they call exist only
  // so that each proof looks at a few states of the fifty-way `StateOrdinal`
  // match at a time, which keeps the solver's cost small and stable.

  /** Row 1 of `US_STATES`, first half: the states declared at positions 0..4. */
  lemma StatesRow1Head(i: nat)
    requires i < 5
    ensures StateOrdinal(STATES_ROW_1[i]) == 0 + i
  {
    assert i == 0 || i == 1 || i == 2 || i == 3 || i == 4;
  }

  /** Row 1 of `US_STATES`, second half: the states declared at positions 5..9. */
  lemma StatesRow1Tail(i: nat)
    requires 5 <= i < 10
    ensures StateOrdinal(STATES_ROW_1[i]) == 0 + i
  {
    assert i == 5 || i == 6 || i == 7 || i == 8 || i == 9;
  }

  /** Row 2 of `US_STATES`, first half: the states declared at positions 10..14. */
  lemma StatesRow2Head(i: nat)
    requires i < 5
    ensures StateOrdinal(STATES_ROW_2[i]) == 10 + i
  {
    assert i == 0 || i == 1 || i == 2 || i == 3 || i == 4;
  }

  /** Row 2 of `US_STATES`, second half: the states declared at positions 15..19. */
  lemma StatesRow2Tail(i: nat)
    requires 5 <= i < 10
    ensures StateOrdinal(STATES_ROW_2[i]) == 10 + i
  {
    assert i == 5 || i == 6 || i == 7 || i == 8 || i == 9;
  }

  /** Row 3 of `US_STATES`, first half: the states declared at positions 20..24. */
  lemma StatesRow3Head(i: nat)
    requires i < 5
    ensures StateOrdinal(STATES_ROW_3[i]) == 20 + i
  {
    assert i == 0 || i == 1 || i == 2 || i == 3 || i == 4;
  }

  /** Row 3 of `US_STATES`, second half: the states declared at positions 25..29. */
  lemma StatesRow3Tail(i: nat)
    requires 5 <= i < 10
    ensures StateOrdinal(STATES_ROW_3[i]) == 20 + i
  {
    assert i == 5 || i == 6 || i == 7 || i == 8 || i == 9;
  }

  /** Row 4 of `US_STATES`, first half: the states declared at positions 30..34. */
  lemma StatesRow4Head(i: nat)
    requires i < 5
    ensures StateOrdinal(STATES_ROW_4[i]) == 30 + i
  {
    assert i == 0 || i == 1 || i == 2 || i == 3 || i == 4;
  }

  /** Row 4 of `US_STATES`, second half: the states declared at positions 35..39. */
  lemma StatesRow4Tail(i: nat)
    requires 5 <= i < 10
    ensures StateOrdinal(STATES_ROW_4[i]) == 30 + i
  {
    assert i == 5 || i == 6 || i == 7 || i == 8 || i == 9;
  }

  /** Row 5 of `US_STATES`, first half: the states declared at positions 40..44. */
  lemma StatesRow5Head(i: nat)
    requires i < 5
    ensures StateOrdinal(STATES_ROW_5[i]) == 40 + i
  {
    assert i == 0 || i == 1 || i == 2 || i == 3 || i == 4;
  }

  /** Row 5 of `US_STATES`, second half: the states declared at positions 45..49. */
  lemma StatesRow5Tail(i: nat)
    requires 5 <= i < 10
    ensures StateOrdinal(STATES_ROW_5[i]) == 40 + i
  {
    assert i == 5 || i == 6 || i == 7 || i == 8 || i == 9;
  }

  /** The state at position `i` of `US_STATES` is the `i`-th declared state. */
  lemma StateAt(i: nat)
    requires i < |US_STATES|
    ensures StateOrdinal(US_STATES[i]) == i
  {
    if i < 10 { StatesRow1(i); }
    else if i < 20 { StatesRow2(i - 10); }
    else if i < 30 { StatesRow3(i - 20); }
    else if i < 40 { StatesRow4(i - 30); }
    else { StatesRow5(i - 40); }
  }

  lemma StatesRow1(i: nat)
    requires i < 10
    ensures StateOrdinal(STATES_ROW_1[i]) == 0 + i
  {
    if i < 5 { StatesRow1Head(i); } else { StatesRow1Tail(i); }
  }

  lemma StatesRow2(i: nat)
    requires i < 10
    ensures StateOrdinal(STATES_ROW_2[i]) == 10 + i
  {
    if i < 5 { StatesRow2Head(i); } else { StatesRow2Tail(i); }
  }

  lemma StatesRow3(i: nat)
    requires i < 10
    ensures StateOrdinal(STATES_ROW_3[i]) == 20 + i
  {
    if i < 5 { StatesRow3Head(i); } else { StatesRow3Tail(i); }
  }

  lemma StatesRow4(i: nat)
    requires i < 10
    ensures StateOrdinal(STATES_ROW_4[i]) == 30 + i
  {
    if i < 5 { StatesRow4Head(i); } else { StatesRow4Tail(i); }
  }

  lemma StatesRow5(i: nat)
    requires i < 10
    ensures StateOrdinal(STATES_ROW_5[i]) == 40 + i
  {
    if i < 5 { StatesRow5Head(i); } else { StatesRow5Tail(i); }
  }

  /** `US_STATES` has fifty entries in declaration order. */
  lemma {:induction false} USStatesInOrder()
    ensures |US_STATES| == 50
    ensures forall i :: 0 <= i < |US_STATES| ==> StateOrdinal(US_STATES[i]) == i
  {
    forall i | 0 <= i < |US_STATES| ensures StateOrdinal(US_STATES[i]) == i {
      StateAt(i);
    }
  }

  /** `US_STATES` lists every state exactly once, each at its own ordinal. */
  lemma {:induction false} USStatesListed()
    ensures forall s :: US_STATES[StateOrdinal(s)] == s
    ensures forall s :: s in US_STATES
    ensures forall i, j :: 0 <= i < j < |US_STATES| ==> US_STATES[i] != US_STATES[j]
  {
    USStatesInOrder();
    forall s ensures US_STATES[StateOrdinal(s)] == s {
      var i := StateOrdinal(s);
      if i < 10 { StateListedRow1(s); }
      else if i < 20 { StateListedRow2(s); }
      else if i < 30 { StateListedRow3(s); }
      else if i < 40 { StateListedRow4(s); }
      else { StateListedRow5(s); }
    }
    forall s ensures s in US_STATES {
      assert US_STATES[StateOrdinal(s)] == s;
    }
    forall i, j | 0 <= i < j < |US_STATES| ensures US_STATES[i] != US_STATES[j] {
      assert StateOrdinal(US_STATES[i]) == i && StateOrdinal(US_STATES[j]) == j;
    }
  }

  /** The state declared at position 0..9 sits at that position of row 1. */
  lemma StateListedRow1(s: USState)
    requires 0 <= StateOrdinal(s) < 10
    ensures US_STATES[StateOrdinal(s)] == s
  {
    assert US_STATES[StateOrdinal(s)] == STATES_ROW_1[StateOrdinal(s) - 0];
  }

  /** The state declared at position 10..19 sits at that position of row 2. */
  lemma StateListedRow2(s: USState)
    requires 10 <= StateOrdinal(s) < 20
    ensures US_STATES[StateOrdinal(s)] == s
  {
    assert US_STATES[StateOrdinal(s)] == STATES_ROW_2[StateOrdinal(s) - 10];
  }

  /** The state declared at position 20..29 sits at that position of row 3. */
  lemma StateListedRow3(s: USState)
    requires 20 <= StateOrdinal(s) < 30
    ensures US_STATES[StateOrdinal(s)] == s
  {
    assert US_STATES[StateOrdinal(s)] == STATES_ROW_3[StateOrdinal(s) - 20];
  }

  /** The state declared at position 30..39 sits at that position of row 4. */
  lemma StateListedRow4(s: USState)
    requires 30 <= StateOrdinal(s) < 40
    ensures US_STATES[StateOrdinal(s)] == s
  {
    assert US_STATES[StateOrdinal(s)] == STATES_ROW_4[StateOrdinal(s) - 30];
  }

  /** The state declared at position 40..49 sits at that position of row 5. */
  lemma StateListedRow5(s: USState)
    requires 40 <= StateOrdinal(s) < 50
    ensures US_STATES[StateOrdinal(s)] == s
  {
    assert US_STATES[StateOrdinal(s)] == STATES_ROW_5[StateOrdinal(s) - 40];
  }

  /** The membership test of the union type `USState`: which strings are state codes. */
  function StateFromCode(code: string): Option<USState> {
    if |code| != 2 then None
    else
      match (code[0], code[1])
        case ('A', 'L') => Some(AL)
        case ('A', 'K') => Some(AK)
        case ('A', 'Z') => Some(AZ)
        case ('A', 'R') => Some(AR)
        case ('C', 'A') => Some(CA)
        case ('C', 'O') => Some(CO)
        case ('C', 'T') => Some(CT)
        case ('D', 'E') => Some(DE)
        case ('F', 'L') => Some(FL)
        case ('G', 'A') => Some(GA)
        case ('H', 'I') => Some(HI)
        case ('I', 'D') => Some(ID)
        case ('I', 'L') => Some(IL)
        case ('I', 'N') => Some(IN)
        case ('I', 'A') => Some(IA)
        case ('K', 'S') => Some(KS)
        case ('K', 'Y') => Some(KY)
        case ('L', 'A') => Some(LA)
        case ('M', 'E') => Some(ME)
        case ('M', 'D') => Some(MD)
        case ('M', 'A') => Some(MA)
        case ('M', 'I') => Some(MI)
        case ('M', 'N') => Some(MN)
        case ('M', 'S') => Some(MS)
        case ('M', 'O') => Some(MO)
        case ('M', 'T') => Some(MT)
        case ('N', 'E') => Some(NE)
        case ('N', 'V') => Some(NV)
        case ('N', 'H') => Some(NH)
        case ('N', 'J') => Some(NJ)
        case ('N', 'M') => Some(NM)
        case ('N', 'Y') => Some(NY)
        case ('N', 'C') => Some(NC)
        case ('N', 'D') => Some(ND)
        case ('O', 'H') => Some(OH)
        case ('O', 'K') => Some(OK)
        case ('O', 'R') => Some(OR)
        case ('P', 'A') => Some(PA)
        case ('R', 'I') => Some(RI)
        case ('S', 'C') => Some(SC)
        case ('S', 'D') => Some(SD)
        case ('T', 'N') => Some(TN)
        case ('T', 'X') => Some(TX)
        case ('U', 'T') => Some(UT)
        case ('V', 'T') => Some(VT)
        case ('V', 'A') => Some(VA)
        case ('W', 'A') => Some(WA)
        case ('W', 'V') => Some(WV)
        case ('W', 'I') => Some(WI)
        case ('W', 'Y') => Some(WY)
        case _ => None
  }

  /** Every state's code is recognised as that state, so distinct states have distinct codes. */
  lemma StateCodeRoundTrip(s: USState)
    ensures StateFromCode(StateCode(s)) == Some(s)
  {
    var i := StateOrdinal(s);
    if i < 10 { StateCodeRoundTripRow1(s); }
    else if i < 20 { StateCodeRoundTripRow2(s); }
    else if i < 30 { StateCodeRoundTripRow3(s); }
    else if i < 40 { StateCodeRoundTripRow4(s); }
    else { StateCodeRoundTripRow5(s); }
  }

  /** The codes of the states declared at positions 0..9 read back as those states. */
  lemma StateCodeRoundTripRow1(s: USState)
    requires 0 <= StateOrdinal(s) < 10
    ensures StateFromCode(StateCode(s)) == Some(s)
  {
  }

  /** The codes of the states declared at positions 10..19 read back as those states. */
  lemma StateCodeRoundTripRow2(s: USState)
    requires 10 <= StateOrdinal(s) < 20
    ensures StateFromCode(StateCode(s)) == Some(s)
  {
  }

  /** The codes of the states declared at positions 20..29 read back as those states. */
  lemma StateCodeRoundTripRow3(s: USState)
    requires 20 <= StateOrdinal(s) < 30
    ensures StateFromCode(StateCode(s)) == Some(s)
  {
  }

  /** The codes of the states declared at positions 30..39 read back as those states. */
  lemma StateCodeRoundTripRow4(s: USState)
    requires 30 <= StateOrdinal(s) < 40
    ensures StateFromCode(StateCode(s)) == Some(s)
  {
  }

  /** The codes of the states declared at positions 40..49 read back as those states. */
  lemma StateCodeRoundTripRow5(s: USState)
    requires 40 <= StateOrdinal(s) < 50
    ensures StateFromCode(StateCode(s)) == Some(s)
  {
  }

  // ---------------------------------------------------------------- Plan, CostView

  datatype Plan = Basic | Premium

  function PlanName(p: Plan): string {
    match p
    case Basic => "Basic"
    case Premium => "Premium"
  }

  /** The four billing cadences of the union type `CostView`. */
  datatype CostView = Monthly | SemiMonthly | BiWeekly | Weekly

  function CostViewName(c: CostView): string {
    match c
    case Monthly => "Monthly"
    case SemiMonthly => "Semi-Monthly"
    case BiWeekly => "Bi-Weekly"
    case Weekly => "Weekly"
  }

  /** Two plans and four cost views with distinct names; "Bi-Weekly" is one of them, "Annual" is not. */
  lemma PlanAndCostViewNames(p: Plan, q: Plan, c: CostView, d: CostView)
    ensures PlanName(p) == PlanName(q) ==> p == q
    ensures CostViewName(c) == CostViewName(d) ==> c == d
    ensures CostViewName(BiWeekly) == "Bi-Weekly"
    ensures CostViewName(c) != "Annual"
  {
  }

  // ---------------------------------------------------------------- Records

  /** `LifeAddInfo`: the Life/AD&D election (coverage amounts in dollars). */
  datatype LifeAddInfo = LifeAddInfo(employeeElectedCoverage: real, spouseElectedCoverage: real, numberOfChildren: int)

  /** `IndividualInfo`: the applicant profile. */
  datatype IndividualInfo = IndividualInfo(age: int, annualSalary: real, zipCode: string, state: USState)
}
