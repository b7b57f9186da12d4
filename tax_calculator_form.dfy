/** The engine embedded in client/src/components/TaxCalculatorForm.tsx: the
    form's record and its field update, the older 2025 regime (a fixed
    800,000 exemption, capped rent relief, seven brackets given by width), the
    form's own copy of the legacy flat-rate rule, and the dispatch between
    them on the component's `mode`. */
module TaxCalculatorForm {
  import opened Money
  import opened Brackets
  import opened Calculator

  // ---------------------------------------------------------------------------
  // The form record and `updateField`

  /** The form's fields as typed (digit strings) and the small-company box. */
  datatype FormData = FormData(
    employmentIncome: string,
    businessIncome: string,
    cryptoBuyPrice: string,
    cryptoSellPrice: string,
    cryptoQuantity: string,
    rentPaid: string,
    pensionContribution: string,
    nhfContribution: string,
    otherDeductions: string,
    isSmallCompany: bool)

  /** The keys of the form record. */
  datatype Field =
    | EmploymentIncome | BusinessIncome | CryptoBuyPrice | CryptoSellPrice | CryptoQuantity
    | RentPaid | PensionContribution | NhfContribution | OtherDeductions | IsSmallCompany

  /** A field's value: text for the amounts, a flag for the check box. */
  datatype FieldValue = Text(text: string) | Flag(flag: bool)

  function Get(data: FormData, field: Field): FieldValue {
    match field
    case EmploymentIncome => Text(data.employmentIncome)
    case BusinessIncome => Text(data.businessIncome)
    case CryptoBuyPrice => Text(data.cryptoBuyPrice)
    case CryptoSellPrice => Text(data.cryptoSellPrice)
    case CryptoQuantity => Text(data.cryptoQuantity)
    case RentPaid => Text(data.rentPaid)
    case PensionContribution => Text(data.pensionContribution)
    case NhfContribution => Text(data.nhfContribution)
    case OtherDeductions => Text(data.otherDeductions)
    case IsSmallCompany => Flag(data.isSmallCompany)
  }

  /** The value has the kind of the field it is written to. */
  predicate Fits(field: Field, value: FieldValue) {
    value.Flag? <==> field == IsSmallCompany
  }

  /** `{ ...formData, [field]: value }`: the named field takes the new value
      and every other field keeps its old one. */
  function UpdateField(data: FormData, field: Field, value: FieldValue): (r: FormData)
    requires Fits(field, value)
    ensures Get(r, field) == value
    ensures forall f :: f != field ==> Get(r, f) == Get(data, f)
  {
    match field
    case EmploymentIncome => data.(employmentIncome := value.text)
    case BusinessIncome => data.(businessIncome := value.text)
    case CryptoBuyPrice => data.(cryptoBuyPrice := value.text)
    case CryptoSellPrice => data.(cryptoSellPrice := value.text)
    case CryptoQuantity => data.(cryptoQuantity := value.text)
    case RentPaid => data.(rentPaid := value.text)
    case PensionContribution => data.(pensionContribution := value.text)
    case NhfContribution => data.(nhfContribution := value.text)
    case OtherDeductions => data.(otherDeductions := value.text)
    case IsSmallCompany => data.(isSmallCompany := value.flag)
  }

  /** Writing back the value a field already holds changes nothing, and a
      second write to the same field overrides the first. */
  lemma UpdateFieldLaws(data: FormData, field: Field, first: FieldValue, second: FieldValue)
    requires Fits(field, first) && Fits(field, second)
    ensures UpdateField(data, field, Get(data, field)) == data
    ensures UpdateField(UpdateField(data, field, first), field, second) == UpdateField(data, field, second)
  {
  }

  // ---------------------------------------------------------------------------
  // The 2025 regime

  /** What the form shows: the rounded tax and after-tax income. */
  datatype FormResult = FormResult(totalTax: real, afterTaxIncome: real)

  const Exemption: real := 800_000.0
  const RentReliefCap: real := 500_000.0

  /** Rent relief, `min(20% of rent, 500,000)`. */
  function RentRelief(rent: real): (r: real)
    ensures r <= RentReliefCap && r <= rent * 0.2
    ensures r == RentReliefCap || r == rent * 0.2
  {
    Min(rent * 0.2, RentReliefCap)
  }

  /** Rent relief plus pension, NHF and other deductions; life insurance is
      not a relief in this regime. */
  function Reliefs2025(input: TaxInput): real {
    RentRelief(input.rentPaid) + input.pensionContribution + input.nhfContribution + input.otherDeductions
  }

  /** Taxable income under the 2025 rules: income less the exemption and the
      reliefs, floored at zero. */
  function TaxableIncome2025(input: TaxInput): (r: real)
    ensures 0.0 <= r
    ensures GrossIncome(input) - Exemption - Reliefs2025(input) <= r
    ensures r == 0.0 || r == GrossIncome(input) - Exemption - Reliefs2025(input)
  {
    Max(0.0, GrossIncome(input) - Exemption - Reliefs2025(input))
  }

  /** The 2025 brackets, by width. */
  const Brackets2025: seq<Bracket> := [
    Bracket(Finite(300_000.0), 0.07),
    Bracket(Finite(300_000.0), 0.11),
    Bracket(Finite(500_000.0), 0.15),
    Bracket(Finite(500_000.0), 0.19),
    Bracket(Finite(1_600_000.0), 0.21),
    Bracket(Finite(3_200_000.0), 0.24),
    Bracket(Unbounded, 0.25)
  ]

  lemma Brackets2025Cover()
    ensures WidthsCover(Brackets2025)
    ensures RatesWithin(Brackets2025, 0.0, 0.25)
  {
    var t := Brackets2025;
    assert WidthsCover(t[6..]);
    assert t[5..][1..] == t[6..];
    assert t[4..][1..] == t[5..];
    assert t[3..][1..] == t[4..];
    assert t[2..][1..] == t[3..];
    assert t[1..][1..] == t[2..];
  }

  /** The widths are the cumulative bounds 300,000 / 600,000 / 1,100,000 /
      1,600,000 / 3,200,000 / 6,400,000 / unbounded. */
  lemma Brackets2025AsBounds()
    ensures ToCumulative(Brackets2025, 0.0) == [
      Bracket(Finite(300_000.0), 0.07),
      Bracket(Finite(600_000.0), 0.11),
      Bracket(Finite(1_100_000.0), 0.15),
      Bracket(Finite(1_600_000.0), 0.19),
      Bracket(Finite(3_200_000.0), 0.21),
      Bracket(Finite(6_400_000.0), 0.24),
      Bracket(Unbounded, 0.25)]
  {
    var t := Brackets2025;
    assert t[1..][1..] == t[2..];
    assert t[2..][1..] == t[3..];
    assert t[3..][1..] == t[4..];
    assert t[4..][1..] == t[5..];
    assert t[5..][1..] == t[6..];
  }

  /** The width walk of the 2025 rules on the input's taxable income. */
  function Walk2025(input: TaxInput): SliceWalk {
    WidthWalk(Brackets2025, TaxableIncome2025(input))
  }

  /** The result `calculate2025Tax` returns, stated as a function of the input. */
  function Tax2025(input: TaxInput): FormResult {
    var income := GrossIncome(input);
    if input.isSmallCompany then FormResult(0.0, income)
    else
      var tax := Walk2025(input).tax;
      FormResult(Round(tax) as real, Round(income - tax) as real)
  }

  /** `calculate2025Tax`: the small-company short-cut (income returned
      unrounded), the taxable income, the loop over the widths, and the
      rounded result. */
  method Calculate2025Tax(input: TaxInput) returns (r: FormResult)
    ensures r == Tax2025(input)
  {
    var income := GrossIncome(input);
    if input.isSmallCompany {
      return FormResult(0.0, income);
    }
    var taxable := Max(0.0, income - Exemption - Reliefs2025(input));
    var tax := ApplyWidths(Brackets2025, taxable);
    r := FormResult(Round(tax) as real, Round(income - tax) as real);
  }

  /** The slices the loop takes add up to exactly the taxable income, each is
      positive and at most its bracket's width, and there are at most seven. */
  lemma Slices2025(input: TaxInput)
    ensures var slices := Walk2025(input).slices;
      && Sum(slices) == TaxableIncome2025(input)
      && |slices| <= 7
      && forall k :: 0 <= k < |slices| ==>
           0.0 < slices[k] && (Brackets2025[k].limit.Finite? ==> slices[k] <= Brackets2025[k].limit.value)
  {
    Brackets2025Cover();
    SlicesSumToTaxable(Brackets2025, TaxableIncome2025(input));
    SlicesWithinWidths(Brackets2025, TaxableIncome2025(input));
  }

  /** The unrounded 2025 tax lies between 0 and 25% of the taxable income. */
  lemma TaxBounds2025(taxable: real)
    requires 0.0 <= taxable
    ensures 0.0 <= WidthWalk(Brackets2025, taxable).tax <= 0.25 * taxable
  {
    Brackets2025Cover();
    WidthTaxBounds(Brackets2025, taxable, 0.25);
  }

  /** The 2025 width walk charges what a walk over the matching cumulative
      bounds would charge. */
  lemma Tax2025AsBounds(taxable: real)
    ensures WidthWalk(Brackets2025, taxable).tax == CumulativeWalk(ToCumulative(Brackets2025, 0.0), taxable, Finite(0.0)).tax
  {
    WidthWalkIsCumulativeWalk(Brackets2025, taxable, 0.0);
  }

  /** Raising the employment income, all else equal, never lowers the 2025
      total tax. */
  lemma MonotoneInEmployment2025(input: TaxInput, raise: real)
    requires 0.0 <= raise
    ensures Tax2025(input).totalTax <= Tax2025(input.(employmentIncome := input.employmentIncome + raise)).totalTax
  {
    if !input.isSmallCompany {
      var richer := input.(employmentIncome := input.employmentIncome + raise);
      assert CryptoGain(richer) == CryptoGain(input);
      Brackets2025Cover();
      WidthTaxMonotone(Brackets2025, TaxableIncome2025(input), TaxableIncome2025(richer));
      RoundMonotone(Walk2025(input).tax, Walk2025(richer).tax);
    }
  }

  /** A small company owes nothing and keeps its whole, unrounded income;
      deductions play no part. */
  lemma SmallCompanyExempt2025(input: TaxInput)
    requires input.isSmallCompany
    ensures Tax2025(input) == FormResult(0.0, GrossIncome(input))
  {
  }

  /** The width walk over 1,200,000 owes 21,000 + 33,000 + 75,000 + 19,000. */
  lemma WidthWalkAt1200k()
    ensures WidthWalk(Brackets2025, 1_200_000.0).tax == 148_000.0
  {
    var t := Brackets2025;
    assert t[1..][1..] == t[2..];
    assert t[2..][1..] == t[3..];
    assert t[3..][1..] == t[4..];
    assert WidthWalk(t[4..], 0.0).tax == 0.0;
    assert WidthWalk(t[3..], 100_000.0).tax == 19_000.0;
    assert WidthWalk(t[2..], 600_000.0).tax == 94_000.0;
    assert WidthWalk(t[1..], 900_000.0).tax == 127_000.0;
  }

  /** Any non-exempt input with 2,000,000 of income and 1,200,000 taxable owes
      148,000 and keeps 1,852,000. */
  lemma TaxAt2M(input: TaxInput)
    requires !input.isSmallCompany
    requires GrossIncome(input) == 2_000_000.0
    requires TaxableIncome2025(input) == 1_200_000.0
    ensures Tax2025(input) == FormResult(148_000.0, 1_852_000.0)
  {
    WidthWalkAt1200k();
    RoundWhole(148_000);
    RoundWhole(1_852_000);
  }

  /** A salary of 2,000,000 with no reliefs leaves 1,200,000 taxable. */
  lemma TaxableAt2M()
    ensures GrossIncome(SalaryOnly(2_000_000.0)) == 2_000_000.0
    ensures TaxableIncome2025(SalaryOnly(2_000_000.0)) == 1_200_000.0
  {
    assert CryptoGain(SalaryOnly(2_000_000.0)) == 0.0;
  }

  /** A salary of 2,000,000 with no reliefs owes 148,000 under the 2025 rules,
      leaving 1,852,000. */
  lemma Example2025()
    ensures Tax2025(SalaryOnly(2_000_000.0)) == FormResult(148_000.0, 1_852_000.0)
  {
    TaxableAt2M();
    TaxAt2M(SalaryOnly(2_000_000.0));
  }

  // ---------------------------------------------------------------------------
  // The form's legacy rule and the dispatch

  /** The form's `calculateLegacyTax`: 10% of salary, 15% of business income
      and 10% of the crypto gain, rounded. */
  function LegacyFormTax(input: TaxInput): (r: FormResult)
    ensures r.totalTax == Round(LegacyUnroundedTax(input)) as real
    ensures r.afterTaxIncome == Round(GrossIncome(input) - LegacyUnroundedTax(input)) as real
  {
    var gain := CryptoGain(input);
    var totalTax := input.employmentIncome * 0.1 + input.businessIncome * 0.15 + gain * 0.1;
    var totalIncome := input.employmentIncome + input.businessIncome + gain;
    FormResult(Round(totalTax) as real, Round(totalIncome - totalTax) as real)
  }

  /** The form's copy of the legacy rule gives the same tax and after-tax
      income as `calculateLegacyTax` in calculator.ts. */
  lemma LegacyFormMatchesCalculator(input: TaxInput)
    ensures LegacyFormTax(input) == FormResult(LegacyTax(input).totalTax, LegacyTax(input).afterTaxIncome)
  {
  }

  /** The component's `mode` prop; the home page renders the form without one. */
  datatype ModeProp = Given(mode: string) | Missing

  /** `handleCalculate`: the 2025 engine exactly when the mode is "2025",
      the legacy rule otherwise (and so whenever the mode is missing). */
  method HandleCalculate(mode: ModeProp, input: TaxInput) returns (r: FormResult)
    ensures mode == Given("2025") ==> r == Tax2025(input)
    ensures mode != Given("2025") ==> r == LegacyFormTax(input)
  {
    if mode == Given("2025") {
      r := Calculate2025Tax(input);
    } else {
      r := LegacyFormTax(input);
    }
  }
}
