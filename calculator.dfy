/** The standalone engine of client/src/utils/calculator.ts: the 2026 reform
    regime (six brackets of cumulative bounds, a small-company exemption,
    uncapped deductions) and the legacy flat-rate regime. */
module Calculator {
  import opened Money
  import opened Brackets

  /** The engine's inputs once every field has gone through `Number(field) || 0`:
      a blank or unreadable field reads as 0. The crypto quantity is kept as
      read; its own default (0 means 1) is applied by `Quantity`. */
  datatype TaxInput = TaxInput(
    employmentIncome: real,
    businessIncome: real,
    cryptoBuyPrice: real,
    cryptoSellPrice: real,
    cryptoQuantity: real,
    rentPaid: real,
    pensionContribution: real,
    nhfContribution: real,
    lifeInsurance: real,
    otherDeductions: real,
    isSmallCompany: bool)

  /** Every amount is at least zero, as the digit-only input fields produce. */
  predicate NonNegative(input: TaxInput) {
    && 0.0 <= input.employmentIncome
    && 0.0 <= input.businessIncome
    && 0.0 <= input.cryptoBuyPrice
    && 0.0 <= input.cryptoSellPrice
    && 0.0 <= input.cryptoQuantity
    && 0.0 <= input.rentPaid
    && 0.0 <= input.pensionContribution
    && 0.0 <= input.nhfContribution
    && 0.0 <= input.lifeInsurance
    && 0.0 <= input.otherDeductions
  }

  /** The record both regimes return. Money is unrounded unless a field says
      otherwise; `effectiveRate` is a percentage. */
  datatype TaxResult = TaxResult(
    income: real,
    totalDeductions: real,
    taxableIncome: real,
    totalTax: real,
    afterTaxIncome: real,
    effectiveRate: real,
    breakdown: seq<Line>,
    exempt: bool)

  /** `Number(quantity) || 1`: a zero (blank) quantity counts as one. */
  function Quantity(quantity: real): (r: real)
    ensures r != 0.0
    ensures quantity == 0.0 ==> r == 1.0
    ensures quantity != 0.0 ==> r == quantity
  {
    if quantity == 0.0 then 1.0 else quantity
  }

  /** The price difference times the quantity, before any clamp. */
  function SignedGain(input: TaxInput): real {
    (input.cryptoSellPrice - input.cryptoBuyPrice) * Quantity(input.cryptoQuantity)
  }

  /** The crypto gain, `max(0, (sell - buy) * quantity)`: never negative, and
      equal to the signed gain whenever that is positive. */
  function CryptoGain(input: TaxInput): (r: real)
    ensures 0.0 <= r
    ensures SignedGain(input) <= r
    ensures r == 0.0 || r == SignedGain(input)
  {
    Max(0.0, SignedGain(input))
  }

  /** Selling at or below the buying price adds nothing to income. */
  lemma NoGainFromLoss(input: TaxInput)
    requires 0.0 <= input.cryptoQuantity
    requires input.cryptoSellPrice <= input.cryptoBuyPrice
    ensures CryptoGain(input) == 0.0
  {
    var q := Quantity(input.cryptoQuantity);
    var d := input.cryptoSellPrice - input.cryptoBuyPrice;
    assert 0.0 < q;
    assert d * q <= 0.0 by {
      assert (-d) * q >= 0.0;
    }
  }

  /** Employment plus business income plus the crypto gain. */
  function GrossIncome(input: TaxInput): real {
    input.employmentIncome + input.businessIncome + CryptoGain(input)
  }

  /** Pension, NHF, life insurance and other deductions, with no cap. */
  function Deductions2026(input: TaxInput): real {
    input.pensionContribution + input.nhfContribution + input.lifeInsurance + input.otherDeductions
  }

  /** Taxable income under the 2026 rules: income less the whole of the
      deductions, floored at zero. */
  function TaxableIncome2026(input: TaxInput): (r: real)
    ensures 0.0 <= r
    ensures GrossIncome(input) - Deductions2026(input) <= r
    ensures r == 0.0 || r == GrossIncome(input) - Deductions2026(input)
  {
    Max(0.0, GrossIncome(input) - Deductions2026(input))
  }

  /** The 2026 brackets, by cumulative upper bound. */
  const Brackets2026: seq<Bracket> := [
    Bracket(Finite(800_000.0), 0.0),
    Bracket(Finite(3_000_000.0), 0.15),
    Bracket(Finite(12_000_000.0), 0.18),
    Bracket(Finite(25_000_000.0), 0.21),
    Bracket(Finite(50_000_000.0), 0.23),
    Bracket(Unbounded, 0.25)
  ]

  lemma Brackets2026Partition()
    ensures PartitionsFrom(Brackets2026, 0.0)
    ensures RatesWithin(Brackets2026, 0.0, 0.25)
  {
    var t := Brackets2026;
    assert PartitionsFrom(t[5..], 50_000_000.0);
    assert t[4..][1..] == t[5..];
    assert PartitionsFrom(t[4..], 25_000_000.0);
    assert t[3..][1..] == t[4..];
    assert PartitionsFrom(t[3..], 12_000_000.0);
    assert t[2..][1..] == t[3..];
    assert PartitionsFrom(t[2..], 3_000_000.0);
    assert t[1..][1..] == t[2..];
    assert PartitionsFrom(t[1..], 800_000.0);
  }

  /** The 2026 effective rate, `round(tax / income * 10000) / 100`: a whole
      number of hundredths of a percent, within half a hundredth of the exact
      percentage; 0 when there is no income. */
  function EffectiveRate2026(tax: real, income: real): (r: real)
    ensures income <= 0.0 ==> r == 0.0
    ensures 0.0 < income ==> (r * 100.0).Floor as real == r * 100.0
    ensures 0.0 < income ==> tax / income * 10_000.0 - 0.5 < r * 100.0 <= tax / income * 10_000.0 + 0.5
  {
    if income > 0.0 then Round(tax / income * 10_000.0) as real / 100.0 else 0.0
  }

  /** The bracket walk of the 2026 rules on the input's taxable income. */
  function Walk2026(input: TaxInput): Walk {
    CumulativeWalk(Brackets2026, TaxableIncome2026(input), Finite(0.0))
  }

  /** The result `calculate2026Tax` returns, stated as a function of the input. */
  function Tax2026(input: TaxInput): TaxResult {
    var income := GrossIncome(input);
    var deductions := Deductions2026(input);
    if input.isSmallCompany then
      TaxResult(income, deductions, 0.0, 0.0, Round(income - deductions) as real, 0.0, [], true)
    else
      var taxable := TaxableIncome2026(input);
      var walk := Walk2026(input);
      TaxResult(income, deductions, Round(taxable) as real, Round(walk.tax) as real,
                Round(income - walk.tax) as real, EffectiveRate2026(walk.tax, income), walk.lines, false)
  }

  /** `calculate2026Tax`: the exemption short-cut, the taxable income, the
      loop over the 2026 brackets, and the rounded result. */
  method Calculate2026Tax(input: TaxInput) returns (r: TaxResult)
    ensures r == Tax2026(input)
  {
    var income := GrossIncome(input);
    var deductions := Deductions2026(input);
    if input.isSmallCompany {
      return TaxResult(income, deductions, 0.0, 0.0, Round(income - deductions) as real, 0.0, [], true);
    }
    var taxable := Max(0.0, income - deductions);
    assert taxable == TaxableIncome2026(input);
    var tax, breakdown := ApplyCumulative(Brackets2026, taxable);
    assert Walk2026(input) == Walk(tax, breakdown);
    r := TaxResult(income, deductions, Round(taxable) as real, Round(tax) as real,
                   Round(income - tax) as real, EffectiveRate2026(tax, income), breakdown, false);
  }

  // ---------------------------------------------------------------------------
  // Properties of the 2026 rules

  /** A small company owes nothing whatever its income: no taxable income, no
      breakdown, and the after-tax income is the income less the deductions. */
  lemma SmallCompanyExempt2026(input: TaxInput)
    requires input.isSmallCompany
    ensures var r := Tax2026(input);
      && r.exempt && r.totalTax == 0.0 && r.taxableIncome == 0.0 && r.breakdown == [] && r.effectiveRate == 0.0
      && r.afterTaxIncome == Round(GrossIncome(input) - Deductions2026(input)) as real
  {
  }

  /** The breakdown amounts add up to exactly the unrounded taxable income. */
  lemma BreakdownSumsToTaxable2026(input: TaxInput)
    requires !input.isSmallCompany
    ensures Sum(Amounts(Tax2026(input).breakdown)) == TaxableIncome2026(input)
  {
    Brackets2026Partition();
    LinesSumToTaxable(Brackets2026, TaxableIncome2026(input), 0.0);
  }

  /** The breakdown lists the 2026 brackets in ascending order, at most six,
      from 0 with adjacent ranges; each amount is positive and at most its
      bracket's width, and each line's tax is its amount at its rate. */
  lemma BreakdownFollowsBrackets2026(input: TaxInput)
    requires !input.isSmallCompany
    ensures var lines := Tax2026(input).breakdown;
      && |lines| <= 6
      && (lines != [] ==> lines[0].from == 0.0)
      && (forall k :: 0 <= k < |lines| ==>
            && lines[k].to == Brackets2026[k].limit
            && lines[k].rate == Brackets2026[k].rate
            && 0.0 < lines[k].amount
            && lines[k].tax == TaxAt(lines[k].amount, lines[k].rate)
            && (lines[k].to.Finite? ==> lines[k].amount <= lines[k].to.value - lines[k].from))
      && (forall k :: 0 < k < |lines| ==> lines[k - 1].to == Finite(lines[k].from))
  {
    Brackets2026Partition();
    LinesFollowTable(Brackets2026, TaxableIncome2026(input), 0.0);
  }

  /** The total tax is the rounded sum of the breakdown's taxes, and the
      after-tax income subtracts that unrounded sum before rounding. */
  lemma TotalTaxFromBreakdown2026(input: TaxInput)
    requires !input.isSmallCompany
    ensures var r := Tax2026(input);
      && r.totalTax == Round(SumTaxes(r.breakdown)) as real
      && r.afterTaxIncome == Round(r.income - SumTaxes(r.breakdown)) as real
  {
    Brackets2026Partition();
    TaxIsSumOfLines(Brackets2026, TaxableIncome2026(input), 0.0);
  }

  /** The unrounded 2026 tax lies between 0 and 25% of the taxable income. */
  lemma TaxBounds2026(taxable: real)
    ensures 0.0 <= CumulativeWalk(Brackets2026, taxable, Finite(0.0)).tax <= 0.25 * Max(0.0, taxable)
  {
    Brackets2026Partition();
    TaxBounds(Brackets2026, taxable, 0.0, 0.25);
  }

  /** The unrounded 2026 tax never falls as the taxable income rises. */
  lemma TaxMonotone2026(lower: real, higher: real)
    requires lower <= higher
    ensures CumulativeWalk(Brackets2026, lower, Finite(0.0)).tax <= CumulativeWalk(Brackets2026, higher, Finite(0.0)).tax
  {
    Brackets2026Partition();
    TaxMonotone(Brackets2026, lower, higher, 0.0);
  }

  /** Taxable income up to 800,000 falls in the 0% bracket and owes nothing. */
  lemma NoTaxUpTo800k(taxable: real)
    requires taxable <= 800_000.0
    ensures CumulativeWalk(Brackets2026, taxable, Finite(0.0)).tax == 0.0
  {
    if taxable > 0.0 {
      Brackets2026Partition();
      WalkStep(Brackets2026, taxable, 0.0);
      assert Brackets2026[1..][0].limit == Finite(3_000_000.0);
    }
  }

  /** Raising the employment income, all else equal, never lowers the 2026
      total tax. */
  lemma MonotoneInEmployment2026(input: TaxInput, raise: real)
    requires 0.0 <= raise
    ensures Tax2026(input).totalTax <= Tax2026(input.(employmentIncome := input.employmentIncome + raise)).totalTax
  {
    if !input.isSmallCompany {
      var richer := input.(employmentIncome := input.employmentIncome + raise);
      assert CryptoGain(richer) == CryptoGain(input);
      TaxMonotone2026(TaxableIncome2026(input), TaxableIncome2026(richer));
      RoundMonotone(Walk2026(input).tax, Walk2026(richer).tax);
    }
  }

  /** With non-negative inputs the 2026 effective rate is between 0% and 25%. */
  lemma EffectiveRateBounds2026(input: TaxInput)
    requires NonNegative(input)
    ensures 0.0 <= Tax2026(input).effectiveRate <= 25.0
  {
    if !input.isSmallCompany {
      var income := GrossIncome(input);
      var tax := Walk2026(input).tax;
      TaxBounds2026(TaxableIncome2026(input));
      if income > 0.0 {
        assert 0.0 <= tax <= 0.25 * income;
        RatioBounds(tax, income, 0.0, 0.25);
        RoundMonotone(0.0, tax / income * 10_000.0);
        RoundMonotone(tax / income * 10_000.0, 2_500.0);
        RoundWhole(0);
        RoundWhole(2_500);
      }
    }
  }

  // ---------------------------------------------------------------------------
  // Worked examples of the 2026 rules (salary only, no deductions)

  function SalaryOnly(salary: real): TaxInput {
    TaxInput(salary, 0.0, 0.0, 0.0, 0.0, 0.0, 0.0, 0.0, 0.0, 0.0, false)
  }

  lemma Example400k()
    ensures Tax2026(SalaryOnly(400_000.0)).taxableIncome == 400_000.0
    ensures Tax2026(SalaryOnly(400_000.0)).totalTax == 0.0
  {
    NoTaxUpTo800k(400_000.0);
    RoundWhole(400_000);
    RoundWhole(0);
  }

  lemma Example2M()
    ensures Tax2026(SalaryOnly(2_000_000.0)).totalTax == 180_000.0
    ensures Tax2026(SalaryOnly(2_000_000.0)).afterTaxIncome == 1_820_000.0
  {
    var x := 2_000_000.0;
    Brackets2026Partition();
    var t := Brackets2026;
    WalkStep(t, x, 0.0);
    WalkStep(t[1..], x, 800_000.0);
    assert t[1..][1..][0].limit == Finite(12_000_000.0);
    assert Walk2026(SalaryOnly(x)).tax == 180_000.0;
    RoundWhole(180_000);
    RoundWhole(1_820_000);
  }

  lemma Example10M()
    ensures Tax2026(SalaryOnly(10_000_000.0)).totalTax == 1_590_000.0
  {
    var x := 10_000_000.0;
    Brackets2026Partition();
    var t := Brackets2026;
    WalkStep(t, x, 0.0);
    WalkStep(t[1..], x, 800_000.0);
    assert t[1..][1..] == t[2..];
    WalkStep(t[2..], x, 3_000_000.0);
    assert t[2..][1..][0].limit == Finite(25_000_000.0);
    assert Walk2026(SalaryOnly(x)).tax == 1_590_000.0;
    RoundWhole(1_590_000);
  }

  lemma Example60M()
    ensures Amounts(Tax2026(SalaryOnly(60_000_000.0)).breakdown)
      == [800_000.0, 2_200_000.0, 9_000_000.0, 13_000_000.0, 25_000_000.0, 10_000_000.0]
  {
    var x := 60_000_000.0;
    Brackets2026Partition();
    var t := Brackets2026;
    WalkStep(t, x, 0.0);
    WalkStep(t[1..], x, 800_000.0);
    assert t[1..][1..] == t[2..];
    WalkStep(t[2..], x, 3_000_000.0);
    assert t[2..][1..] == t[3..];
    WalkStep(t[3..], x, 12_000_000.0);
    assert t[3..][1..] == t[4..];
    WalkStep(t[4..], x, 25_000_000.0);
    assert t[4..][1..] == t[5..];
    WalkStep(t[5..], x, 50_000_000.0);
    assert CumulativeWalk(t[5..][1..], x, Unbounded).lines == [];
  }

  // ---------------------------------------------------------------------------
  // The legacy regime

  /** The legacy tax before rounding: 10% of salary, 15% of business income and
      10% of the crypto gain. */
  function LegacyUnroundedTax(input: TaxInput): real {
    input.employmentIncome * 0.1 + input.businessIncome * 0.15 + CryptoGain(input) * 0.1
  }

  /** `calculateLegacyTax`: flat rates, no deductions, no breakdown, never
      exempt; the tax is rounded only in `totalTax` and `afterTaxIncome`, and
      the effective rate is the exact percentage of the income, not rounded. */
  function LegacyTax(input: TaxInput): (r: TaxResult)
    ensures r.income == GrossIncome(input)
    ensures r.totalDeductions == 0.0 && r.taxableIncome == r.income && r.breakdown == [] && !r.exempt
    ensures r.income - LegacyUnroundedTax(input) - 0.5 < r.afterTaxIncome <= r.income - LegacyUnroundedTax(input) + 0.5
    ensures LegacyUnroundedTax(input) - 0.5 < r.totalTax <= LegacyUnroundedTax(input) + 0.5
    ensures r.totalTax.Floor as real == r.totalTax && r.afterTaxIncome.Floor as real == r.afterTaxIncome
    ensures r.income > 0.0 ==> r.effectiveRate * r.income == LegacyUnroundedTax(input) * 100.0
    ensures r.income <= 0.0 ==> r.effectiveRate == 0.0
  {
    var tax := LegacyUnroundedTax(input);
    var income := GrossIncome(input);
    TaxResult(income, 0.0, income, Round(tax) as real, Round(income - tax) as real,
              if income > 0.0 then tax / income * 100.0 else 0.0, [], false)
  }

  /** With non-negative inputs the legacy tax lies between 10% and 15% of the
      income, and the rounded figures follow from it. */
  lemma LegacyWithinFlatRates(input: TaxInput)
    requires NonNegative(input)
    ensures var r := LegacyTax(input);
      && 0.1 * r.income <= LegacyUnroundedTax(input) <= 0.15 * r.income
      && Round(0.1 * r.income) as real <= r.totalTax <= Round(0.15 * r.income) as real
      && r.totalDeductions == 0.0 && r.taxableIncome == r.income && r.breakdown == [] && !r.exempt
  {
    var income := GrossIncome(input);
    RoundMonotone(0.1 * income, LegacyUnroundedTax(input));
    RoundMonotone(LegacyUnroundedTax(input), 0.15 * income);
  }

  /** With non-negative inputs and some income the legacy effective rate is
      between 10% and 15%. */
  lemma LegacyEffectiveRateBounds(input: TaxInput)
    requires NonNegative(input)
    requires 0.0 < GrossIncome(input)
    ensures 10.0 <= LegacyTax(input).effectiveRate <= 15.0
  {
    var income := GrossIncome(input);
    var tax := LegacyUnroundedTax(input);
    RatioBounds(tax, income, 0.1, 0.15);
  }

  /** Raising the employment income, all else equal, never lowers the legacy
      total tax. */
  lemma LegacyMonotoneInEmployment(input: TaxInput, raise: real)
    requires 0.0 <= raise
    ensures LegacyTax(input).totalTax <= LegacyTax(input.(employmentIncome := input.employmentIncome + raise)).totalTax
  {
    var richer := input.(employmentIncome := input.employmentIncome + raise);
    assert CryptoGain(richer) == CryptoGain(input);
    RoundMonotone(LegacyUnroundedTax(input), LegacyUnroundedTax(richer));
  }

  /** Salary 1,000,000 and business income 500,000 owe 175,000, leaving
      1,325,000. */
  lemma LegacyExample()
    ensures LegacyTax(SalaryOnly(1_000_000.0).(businessIncome := 500_000.0)).totalTax == 175_000.0
    ensures LegacyTax(SalaryOnly(1_000_000.0).(businessIncome := 500_000.0)).afterTaxIncome == 1_325_000.0
  {
    var input := SalaryOnly(1_000_000.0).(businessIncome := 500_000.0);
    assert CryptoGain(input) == 0.0;
    RoundWhole(175_000);
    RoundWhole(1_325_000);
  }
}
