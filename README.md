# TaxEase income-tax engine in Dafny

This project models the arithmetic core of TaxEase, a Nigerian personal
income-tax estimator, and proves properties of it. The model has three parts:

- **`client/src/utils/calculator.ts`**, the standalone engine:
  - `calculate2026Tax`: gross income, the small-company exemption, uncapped
    deductions, a loop over six brackets given by cumulative upper bounds
    (0 / 15 / 18 / 21 / 23 / 25 %) that builds a per-bracket breakdown, and a
    two-decimal effective rate;
  - `calculateLegacyTax`: flat rates of 10 % on salary, 15 % on business
    income and 10 % on crypto gains.
- **`client/src/components/TaxCalculatorForm.tsx`**, the engine the web form
  runs:
  - the form record and `updateField`;
  - `calculate2025Tax`: a fixed 800,000 exemption, rent relief capped at
    500,000, and a loop over seven brackets given by width
    (7 / 11 / 15 / 19 / 21 / 24 / 25 %);
  - the form's own copy of the legacy rule;
  - `handleCalculate`, which picks an engine from the component's `mode`.
    `client/src/pages/Home.tsx:16` renders the form with no `mode`, so the
    page always takes the legacy branch.
- **`client/src/components/CurrencyInput.tsx`**: every keystroke is stripped
  to its digits, and the field shows nothing when no digit is left.

Modules:

- `Money`: JavaScript's `Math.round` (halves go up), `Math.min` and
  `Math.max` over exact reals.
- `Brackets`: the two ways of walking a bracket table, written once for any
  table, and what they have in common:
  - `CumulativeWalk` follows the cumulative-bound loop of `calculator.ts`;
  - `WidthWalk` follows the width loop of the form;
  - the methods `ApplyCumulative` and `ApplyWidths` are those loops written
    as loops and proved equal to the walks;
  - `WidthWalkIsCumulativeWalk` proves that walking the widths gives the
    same tax as walking their running totals from the same start.
- `Calculator`: `calculator.ts`. `Calculate2026Tax` is the imperative
  engine and `Tax2026` is the function it is proved equal to. The properties
  are proved about `Tax2026`.
- `TaxCalculatorForm`: the form's engine, with the same split
  (`Calculate2025Tax` and `Tax2025`). The form's engine repeats the input
  parsing and the crypto-gain formula of `calculator.ts` word for word, so it
  reuses `Calculator.TaxInput`, `Calculator.CryptoGain` and
  `Calculator.GrossIncome`.
- `CurrencyInput`: the digit filter, and the number the field displays.

Money and rates are exact `real`s. Every rounding the source does is applied
explicitly with `Money.Round`, and only where the source does it. `Infinity`
as a bracket limit is `Brackets.Limit.Unbounded`.

Three choices in the code shape the results, and the model keeps each as
written:

- The legacy effective rate is `tax / income * 100` with no rounding
  (`calculator.ts:132`), whereas the 2026 rate is rounded to hundredths of a
  percent.
- The 2026 effective rate, and every after-tax income outside the
  small-company case, are computed from the unrounded tax
  (`calculator.ts:103-104`), not from the rounded `totalTax`.
- The form's 2025 small-company result keeps the income unrounded
  (`TaxCalculatorForm.tsx:79`).

## Model

| member | source | states |
|---|---|---|
| `Money.Round` | client/src/utils/calculator.ts:102-103 | `Math.round` returns the integer within half a unit of its argument, rounding halves up |
| `Money.RoundMonotone` | client/src/utils/calculator.ts:102-103 | rounding preserves the order of two amounts |
| `Money.Max` | client/src/utils/calculator.ts:59 | `Math.max` is at least both arguments and equals one of them |
| `Money.Min` | client/src/components/TaxCalculatorForm.tsx:89 | `Math.min` is at most both arguments and equals one of them |
| `Money.RatioBounds` | client/src/utils/calculator.ts:96 | a ratio `part / whole` lies between `low` and `high` when `part` lies between `low * whole` and `high * whole` |
| `Brackets.Cap` | client/src/utils/calculator.ts:78 | `Math.min(x, limit)` with a possibly infinite limit is at most `x` and the limit, equals one of them, and is `x` when the limit is infinite |
| `Brackets.ApplyCumulative` | client/src/utils/calculator.ts:71-94 | the loop with its early `break` accumulates exactly the tax and breakdown of `CumulativeWalk` over the table from a previous limit of 0 |
| `Brackets.WalkStep` | client/src/utils/calculator.ts:76-93 | on a table partitioning [start, ∞), one loop step from below the taxable income taxes a positive amount and always lists its line |
| `Brackets.LinesFollowTable` | client/src/utils/calculator.ts:75-93 | on a partitioning table the breakdown has at most one line per bracket, in table order. It is empty exactly when the taxable income is at most the start. Ranges are adjacent and start at `start`. Amounts are positive and at most the bracket width. Each full line fills its bracket and the last line reaches the taxable income. Each line's tax is its amount times its rate |
| `Brackets.LinesSumToTaxable` | client/src/utils/calculator.ts:78-90 | the breakdown amounts add up to exactly `max(0, taxable - start)` |
| `Brackets.TaxIsSumOfLines` | client/src/utils/calculator.ts:79-90 | the accumulated tax equals the sum of the breakdown lines' taxes |
| `Brackets.TaxBounds` | client/src/utils/calculator.ts:75-94 | with every rate in [0, top], 0 <= tax <= top × max(0, taxable − start) |
| `Brackets.TaxMonotone` | client/src/utils/calculator.ts:75-94 | with rates in [0, 1], more taxable income never yields less tax |
| `Brackets.ApplyWidths` | client/src/components/TaxCalculatorForm.tsx:104-112 | the width loop with its early `break` keeps `remaining` non-negative and accumulates exactly the tax of `WidthWalk` |
| `Brackets.SlicesWithinWidths` | client/src/components/TaxCalculatorForm.tsx:107-111 | with positive widths each slice the loop takes is positive and at most its bracket's width, with at most one slice per bracket |
| `Brackets.ToCumulative` | client/src/components/TaxCalculatorForm.tsx:94-102 | turning widths into running totals keeps one bracket per width |
| `Brackets.ToCumulativeRates` | client/src/components/TaxCalculatorForm.tsx:94-102 | running totals keep every bracket's rate |
| `Brackets.ToCumulativePartitions` | client/src/components/TaxCalculatorForm.tsx:94-102 | positive widths ending in an infinite one become bounds partitioning [start, ∞) |
| `Brackets.WidthStepFits` | client/src/components/TaxCalculatorForm.tsx:107-111 | when the first width holds all the income above `start`, both loops tax all of it in that bracket and stop, with equal tax and with the slice equal to the single breakdown amount |
| `Brackets.WidthStepOverflows` | client/src/components/TaxCalculatorForm.tsx:107-111 | when the income overflows the first width, both loops fill that bracket and continue from `start + w`: agreement on the rest of the table gives agreement on the whole table |
| `Brackets.WidthWalkIsCumulativeWalk` | client/src/components/TaxCalculatorForm.tsx:104-112 | for every table, walking the widths with `taxable − start` remaining gives the tax of walking their running totals from `start` (the loop of client/src/utils/calculator.ts:75-94); with positive widths the slices are exactly the breakdown amounts |
| `Brackets.SlicesSumToTaxable` | client/src/components/TaxCalculatorForm.tsx:105-111 | the slices of a width walk add up to exactly the taxable income it started with |
| `Brackets.WidthsCoverPositive` | client/src/components/TaxCalculatorForm.tsx:94-102 | a well-formed width table has only positive finite widths |
| `Brackets.WidthTaxBounds` | client/src/components/TaxCalculatorForm.tsx:104-112 | with every rate in [0, top], 0 <= tax <= top × taxable |
| `Brackets.WidthTaxMonotone` | client/src/components/TaxCalculatorForm.tsx:104-112 | with rates in [0, 1], more taxable income never yields less tax from the width loop |
| `Calculator.Quantity` | client/src/utils/calculator.ts:31 | a quantity of 0 (blank) counts as 1; any other quantity is kept, so the result is never 0 |
| `Calculator.CryptoGain` | client/src/utils/calculator.ts:32 | the crypto gain is never negative, is at least `(sell − buy) × quantity`, and is either 0 or exactly that product |
| `Calculator.NoGainFromLoss` | client/src/utils/calculator.ts:29-32 | selling at or below the buying price (with a non-negative quantity) adds nothing to income |
| `Calculator.TaxableIncome2026` | client/src/utils/calculator.ts:37-59 | taxable income is never negative, at least income minus the whole of the four deductions (no cap), and equal to 0 or to that difference |
| `Calculator.Brackets2026Partition` | client/src/utils/calculator.ts:62-69 | the 2026 bounds strictly ascend from 0, end with an infinite bracket, and all rates lie in [0, 0.25] |
| `Calculator.EffectiveRate2026` | client/src/utils/calculator.ts:96-104 | the effective rate is a whole number of hundredths of a percent within half a hundredth of `tax / income × 100`, and 0 when there is no income |
| `Calculator.Calculate2026Tax` | client/src/utils/calculator.ts:26-108 | the engine returns exactly `Tax2026(input)`: the exemption shortcut, the taxable income, the bracket loop and the rounded result |
| `Calculator.SmallCompanyExempt2026` | client/src/utils/calculator.ts:45-56 | a small company, whatever its income, is exempt with tax 0, taxable income 0, an empty breakdown, effective rate 0 and after-tax income `round(income − deductions)` |
| `Calculator.BreakdownSumsToTaxable2026` | client/src/utils/calculator.ts:59-94 | outside the exemption the breakdown amounts add up to exactly the unrounded taxable income |
| `Calculator.BreakdownFollowsBrackets2026` | client/src/utils/calculator.ts:62-94 | the breakdown has at most six lines, in bracket order from 0, with adjacent ranges. Each amount is positive and at most its bracket's width. Each line's tax is its amount times its rate |
| `Calculator.TotalTaxFromBreakdown2026` | client/src/utils/calculator.ts:79-103 | total tax is the rounded sum of the breakdown taxes, and after-tax income subtracts that unrounded sum before rounding |
| `Calculator.TaxBounds2026` | client/src/utils/calculator.ts:62-94 | 0 <= unrounded tax <= 25 % of the taxable income |
| `Calculator.TaxMonotone2026` | client/src/utils/calculator.ts:62-94 | the unrounded tax never decreases as taxable income rises |
| `Calculator.NoTaxUpTo800k` | client/src/utils/calculator.ts:63 | taxable income up to 800,000 owes no tax |
| `Calculator.MonotoneInEmployment2026` | client/src/utils/calculator.ts:26-108 | raising employment income, all else equal, never lowers the total tax |
| `Calculator.EffectiveRateBounds2026` | client/src/utils/calculator.ts:96-104 | with non-negative inputs the effective rate lies in [0, 25] |
| `Calculator.Example400k` | client/src/utils/calculator.ts:59-80 | a salary of 400,000 is all taxable and owes 0 |
| `Calculator.Example2M` | client/src/utils/calculator.ts:62-103 | a salary of 2,000,000 owes 180,000 and keeps 1,820,000 |
| `Calculator.Example10M` | client/src/utils/calculator.ts:62-102 | a salary of 10,000,000 owes 1,590,000 |
| `Calculator.Example60M` | client/src/utils/calculator.ts:62-94 | a salary of 60,000,000 gives six lines of 800,000 / 2,200,000 / 9,000,000 / 13,000,000 / 25,000,000 / 10,000,000 |
| `Calculator.LegacyTax` | client/src/utils/calculator.ts:110-136 | the legacy result has the gross income, zero deductions, taxable income equal to income, an empty breakdown and `exempt = false`. Total tax and after-tax income are whole numbers within half a unit of the flat-rate tax (`LegacyUnroundedTax`: 10 % salary, 15 % business, 10 % crypto gain) and of income minus that unrounded tax. The effective rate times the income is exactly 100 × the unrounded tax (no rounding), and 0 when there is no income; `LegacyWithinFlatRates` and `LegacyEffectiveRateBounds` bound these |
| `Calculator.LegacyWithinFlatRates` | client/src/utils/calculator.ts:110-136 | with non-negative inputs the unrounded legacy tax lies between 10 % and 15 % of income, and the rounded tax lies between the rounded bounds. Deductions are 0, taxable income equals income, the breakdown is empty and the result is not exempt |
| `Calculator.LegacyEffectiveRateBounds` | client/src/utils/calculator.ts:132 | with non-negative inputs and some income, the unrounded legacy effective rate lies in [10, 15] |
| `Calculator.LegacyMonotoneInEmployment` | client/src/utils/calculator.ts:118-130 | raising employment income never lowers the legacy total tax |
| `Calculator.LegacyExample` | client/src/utils/calculator.ts:118-131 | salary 1,000,000 plus business income 500,000 owes 175,000 and keeps 1,325,000 |
| `TaxCalculatorForm.UpdateField` | client/src/components/TaxCalculatorForm.tsx:60-61 | the named field takes the new value and every other field of the record is unchanged |
| `TaxCalculatorForm.UpdateFieldLaws` | client/src/components/TaxCalculatorForm.tsx:60-61 | writing back a field's own value changes nothing, and a second write to a field overrides the first |
| `TaxCalculatorForm.RentRelief` | client/src/components/TaxCalculatorForm.tsx:89 | rent relief never exceeds 500,000 or 20 % of rent, and equals one of the two |
| `TaxCalculatorForm.TaxableIncome2025` | client/src/components/TaxCalculatorForm.tsx:83-92 | taxable income is never negative, is at least income − 800,000 − reliefs, and equals 0 or that difference |
| `TaxCalculatorForm.Brackets2025Cover` | client/src/components/TaxCalculatorForm.tsx:94-102 | the 2025 widths are positive, end with an infinite bracket, and all rates lie in [0, 0.25] |
| `TaxCalculatorForm.Brackets2025AsBounds` | client/src/components/TaxCalculatorForm.tsx:94-102 | the 2025 widths are the cumulative bounds 300,000 / 600,000 / 1,100,000 / 1,600,000 / 3,200,000 / 6,400,000 / ∞ |
| `TaxCalculatorForm.Calculate2025Tax` | client/src/components/TaxCalculatorForm.tsx:66-118 | the engine returns exactly `Tax2025(input)`: the small-company shortcut, the taxable income, the width loop and the rounded result |
| `TaxCalculatorForm.Slices2025` | client/src/components/TaxCalculatorForm.tsx:104-112 | the slices add up to exactly the taxable income. There are at most seven, and each is positive and at most its bracket's width |
| `TaxCalculatorForm.TaxBounds2025` | client/src/components/TaxCalculatorForm.tsx:104-112 | 0 <= unrounded tax <= 25 % of the taxable income |
| `TaxCalculatorForm.Tax2025AsBounds` | client/src/components/TaxCalculatorForm.tsx:94-112 | the 2025 width loop charges what a loop over the matching cumulative bounds would charge |
| `TaxCalculatorForm.MonotoneInEmployment2025` | client/src/components/TaxCalculatorForm.tsx:66-118 | raising employment income, all else equal, never lowers the 2025 total tax |
| `TaxCalculatorForm.SmallCompanyExempt2025` | client/src/components/TaxCalculatorForm.tsx:76-81 | a small company owes 0 and keeps its whole, unrounded income; reliefs play no part |
| `TaxCalculatorForm.WidthWalkAt1200k` | client/src/components/TaxCalculatorForm.tsx:94-112 | 1,200,000 of taxable income owes 148,000 |
| `TaxCalculatorForm.TaxAt2M` | client/src/components/TaxCalculatorForm.tsx:114-117 | a non-exempt input with income 2,000,000 and 1,200,000 taxable owes 148,000 and keeps 1,852,000 |
| `TaxCalculatorForm.TaxableAt2M` | client/src/components/TaxCalculatorForm.tsx:66-92 | a salary of 2,000,000 with no reliefs is income 2,000,000 and leaves 1,200,000 taxable |
| `TaxCalculatorForm.Example2025` | client/src/components/TaxCalculatorForm.tsx:66-118 | a salary of 2,000,000 owes 148,000 and keeps 1,852,000 under the 2025 rules |
| `TaxCalculatorForm.LegacyFormTax` | client/src/components/TaxCalculatorForm.tsx:120-139 | the form's legacy result is the rounded flat-rate tax (10 % salary, 15 % business, 10 % crypto gain) and the rounded income minus the unrounded tax; `LegacyFormMatchesCalculator` ties it to the calculator's copy |
| `TaxCalculatorForm.LegacyFormMatchesCalculator` | client/src/components/TaxCalculatorForm.tsx:120-139 | the form's legacy rule gives the same tax and after-tax income as `calculateLegacyTax` in client/src/utils/calculator.ts |
| `TaxCalculatorForm.HandleCalculate` | client/src/components/TaxCalculatorForm.tsx:141-142 | the 2025 engine runs exactly when the mode is "2025", and the legacy rule runs otherwise, including when no mode is passed |
| `CurrencyInput.StripNonDigits` | client/src/components/CurrencyInput.tsx:27-29 | the stripped text is digits only, is no longer than the input, and is empty exactly when the input holds no digit |
| `CurrencyInput.StripConcat` | client/src/components/CurrencyInput.tsx:22-28 | stripping a concatenation gives the concatenation of the stripped parts, so the digits keep their order |
| `CurrencyInput.StripOne` | client/src/components/CurrencyInput.tsx:22-28 | a single character is kept exactly when it is a digit |
| `CurrencyInput.StripCounts` | client/src/components/CurrencyInput.tsx:22-28 | each digit occurs as often in the result as in the input, and no other character occurs |
| `CurrencyInput.StripKeepsDigits` | client/src/components/CurrencyInput.tsx:22-28 | text comes back unchanged exactly when it is made only of digits |
| `CurrencyInput.StripIdempotent` | client/src/components/CurrencyInput.tsx:22-28 | stripping twice is stripping once |
| `CurrencyInput.DecimalRoundTrip` | client/src/components/CurrencyInput.tsx:24 | reading back the decimal digits of a number gives the number |
| `CurrencyInput.LeadingZero` | client/src/components/CurrencyInput.tsx:24 | leading zeros do not change the number the digits spell |
| `CurrencyInput.FormatCurrency` | client/src/components/CurrencyInput.tsx:21-25 | the field is blank exactly when the value holds no digit |
| `CurrencyInput.FormatAfterChange` | client/src/components/CurrencyInput.tsx:21-30 | the stored, stripped value displays exactly as the raw text it came from |
| `CurrencyInput.FormatDecimal` | client/src/components/CurrencyInput.tsx:21-25 | storing the decimal digits of an amount displays that amount |

## Left out

- `Number(field) || 0` parsing. The engines take already-parsed numbers in
  `Calculator.TaxInput`; a blank or unreadable field is the 0 it reads as.
  The one default the source adds, a zero quantity counting as 1, is
  modelled (`Calculator.Quantity`).
- `Calculator.TaxInput` carries `lifeInsurance`, which the form has no field
  for. The form's engine never reads it.
- IEEE-754 floating point. All arithmetic is exact over `real`, so no
  binary rounding artefacts are modelled.
- The breakdown's `range` label strings and every `toLocaleString` call.
  These are locale-dependent library formatting. A breakdown line keeps its
  range as the pair `from` / `to`.
- `CurrencyInput.FormatCurrency`: returns the number the digits spell
  (`Number(num)`) rather than its locale-formatted text. It does not model
  the loss of precision of very long digit strings in a JavaScript number.
- `TaxCalculatorForm.UpdateField`: requires the value to have the field's
  kind (text for amounts, a flag for the check box). Every caller in the
  component passes a matching kind; TypeScript's signature does not enforce
  it.
- React state and effects: `setFormData`, `setResults`, JSX rendering, and
  the `localStorage` save and load around `updateField`. These are UI and
  browser storage. `handleDownloadPDF` only logs and shows an alert.
- The bracket tables are constants in the source loops. The loops are
  modelled once as `Brackets.ApplyCumulative` and `Brackets.ApplyWidths`
  over a table parameter, and the engines call them with the constant
  tables.
- The server (SQLite, Express routes, JWT/bcrypt authentication, Stripe
  billing), the fetch client, pages and presentational components, and
  build scripts. These are I/O, network and UI, and are not part of this
  model.
