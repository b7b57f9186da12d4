/** Progressive bracket tables and the two ways the engines walk them.

    `calculator.ts` lists each bracket by its CUMULATIVE upper bound and walks
    the table with a running `previousLimit`; `TaxCalculatorForm.tsx` lists each
    bracket by its WIDTH and walks the table by consuming a running `remaining`.
    Both loops are written here once, over any table, as recursive functions that
    follow the loops step by step; the engines' methods are proved against them. */
module Brackets {
  import opened Money

  /** A bracket limit; `Unbounded` is JavaScript's `Infinity`. */
  datatype Limit = Finite(value: real) | Unbounded

  /** One row of a table: a limit (a bound or a width, depending on the walk)
      and the marginal rate applied to the income it covers. */
  datatype Bracket = Bracket(limit: Limit, rate: real)

  /** One breakdown line: the range [from, to), the amount taxed in it,
      the rate and the tax owed on that amount. */
  datatype Line = Line(from: real, to: Limit, amount: real, rate: real, tax: real)

  /** What the cumulative walk accumulates: the tax and the breakdown lines. */
  datatype Walk = Walk(tax: real, lines: seq<Line>)

  /** What the width walk accumulates: the tax and the slice taken from each bracket. */
  datatype SliceWalk = SliceWalk(tax: real, slices: seq<real>)

  /** `Math.min(x, limit)` where the limit may be `Infinity`. */
  function Cap(x: real, limit: Limit): (r: real)
    ensures r <= x
    ensures limit.Finite? ==> r <= limit.value && (r == x || r == limit.value)
    ensures limit.Unbounded? ==> r == x
  {
    match limit
    case Unbounded => x
    case Finite(l) => Min(x, l)
  }

  /** The tax owed on `amount` at `rate`. */
  function TaxAt(amount: real, rate: real): real {
    amount * rate
  }

  /** `x <= limit` where the limit may be `Infinity`. */
  predicate Below(x: real, limit: Limit) {
    limit.Unbounded? || x <= limit.value
  }

  // ---------------------------------------------------------------------------
  // Well-formed tables

  /** The cumulative bounds start above `start`, strictly ascend, and only the
      last one is unbounded: the brackets cover [start, infinity) without gaps
      or overlaps. */
  predicate PartitionsFrom(table: seq<Bracket>, start: real)
    decreases |table|
  {
    && |table| > 0
    && match table[0].limit
       case Unbounded => |table| == 1
       case Finite(l) => start < l && PartitionsFrom(table[1..], l)
  }

  /** Every finite width is positive and only the last bracket is unbounded. */
  predicate WidthsCover(widths: seq<Bracket>)
    decreases |widths|
  {
    && |widths| > 0
    && match widths[0].limit
       case Unbounded => |widths| == 1
       case Finite(w) => 0.0 < w && WidthsCover(widths[1..])
  }

  predicate RatesWithin(table: seq<Bracket>, low: real, high: real) {
    forall i :: 0 <= i < |table| ==> low <= table[i].rate <= high
  }

  // ---------------------------------------------------------------------------
  // Sums over breakdowns

  function Sum(xs: seq<real>): real {
    if xs == [] then 0.0 else xs[0] + Sum(xs[1..])
  }

  function Amounts(lines: seq<Line>): (r: seq<real>)
    ensures |r| == |lines|
  {
    if lines == [] then [] else [lines[0].amount] + Amounts(lines[1..])
  }

  function SumTaxes(lines: seq<Line>): real {
    if lines == [] then 0.0 else lines[0].tax + SumTaxes(lines[1..])
  }

  // ---------------------------------------------------------------------------
  // The cumulative walk (client/src/utils/calculator.ts)

  /** The loop over a table of cumulative bounds, from bracket `table[0]` on,
      with `previous` as the running `previousLimit`: stop once the taxable
      income is at most the previous limit; otherwise tax the part of the income
      between the previous limit and this bracket's limit, list it when it is
      positive, and move the previous limit up to this bracket's limit. */
  function CumulativeWalk(table: seq<Bracket>, taxable: real, previous: Limit): Walk
    decreases |table|
  {
    if table == [] || Below(taxable, previous) then Walk(0.0, [])
    else
      var amount := Cap(taxable, table[0].limit) - previous.value;
      var bracketTax := TaxAt(amount, table[0].rate);
      var rest := CumulativeWalk(table[1..], taxable, table[0].limit);
      var line := if amount > 0.0 then [Line(previous.value, table[0].limit, amount, table[0].rate, bracketTax)] else [];
      Walk(bracketTax + rest.tax, line + rest.lines)
  }

  /** The loop of `calculate2026Tax` over a table of cumulative bounds: stop
      once the taxable income is at most the previous limit; otherwise add the
      tax on the amount between the previous limit and this bracket's limit,
      append a breakdown line when that amount is positive, and move the
      previous limit up. */
  method ApplyCumulative(table: seq<Bracket>, taxable: real) returns (tax: real, breakdown: seq<Line>)
    ensures Walk(tax, breakdown) == CumulativeWalk(table, taxable, Finite(0.0))
  {
    tax := 0.0;
    breakdown := [];
    var previous := Finite(0.0);
    for i := 0 to |table|
      invariant CumulativeWalk(table, taxable, Finite(0.0)).tax == tax + CumulativeWalk(table[i..], taxable, previous).tax
      invariant CumulativeWalk(table, taxable, Finite(0.0)).lines == breakdown + CumulativeWalk(table[i..], taxable, previous).lines
    {
      if Below(taxable, previous) {
        break;
      }
      var bracket := table[i];
      var amount := Cap(taxable, bracket.limit) - previous.value;
      var bracketTax := TaxAt(amount, bracket.rate);
      tax := tax + bracketTax;
      if amount > 0.0 {
        breakdown := breakdown + [Line(previous.value, bracket.limit, amount, bracket.rate, bracketTax)];
      }
      assert table[i..][1..] == table[i + 1..];
      previous := bracket.limit;
    }
  }

  /** One step of the walk on a partitioning table, from below the taxable
      income: the amount is positive, so the step always lists a line. */
  lemma WalkStep(table: seq<Bracket>, taxable: real, start: real)
    requires PartitionsFrom(table, start)
    requires start < taxable
    ensures var amount := Cap(taxable, table[0].limit) - start;
            var rest := CumulativeWalk(table[1..], taxable, table[0].limit);
      && 0.0 < amount
      && CumulativeWalk(table, taxable, Finite(start))
         == Walk(TaxAt(amount, table[0].rate) + rest.tax,
                 [Line(start, table[0].limit, amount, table[0].rate, TaxAt(amount, table[0].rate))] + rest.lines)
  {
  }

  /** On a partitioning table the breakdown follows the table in order, one line
      per bracket reached: ranges are adjacent, amounts are positive and at most
      the bracket's width, every line but the last fills its bracket, the last
      one reaches the taxable income, and each line's tax is its amount at its
      bracket's rate. */
  lemma {:induction false} LinesFollowTable(table: seq<Bracket>, taxable: real, start: real)
    requires PartitionsFrom(table, start)
    ensures var lines := CumulativeWalk(table, taxable, Finite(start)).lines;
      && |lines| <= |table|
      && (taxable <= start <==> lines == [])
      && (lines != [] ==> lines[0].from == start && Below(taxable, lines[|lines| - 1].to))
      && (forall k :: 0 <= k < |lines| ==>
            && lines[k].to == table[k].limit
            && lines[k].rate == table[k].rate
            && 0.0 < lines[k].amount
            && lines[k].tax == TaxAt(lines[k].amount, lines[k].rate)
            && (lines[k].to.Finite? ==> lines[k].amount <= lines[k].to.value - lines[k].from))
      && (forall k :: 0 < k < |lines| ==>
            lines[k - 1].to == Finite(lines[k].from) && lines[k - 1].amount == lines[k].from - lines[k - 1].from)
  {
    if taxable > start {
      WalkStep(table, taxable, start);
      var walk := CumulativeWalk(table, taxable, Finite(start));
      var rest := CumulativeWalk(table[1..], taxable, table[0].limit);
      match table[0].limit
      case Unbounded =>
        assert rest.lines == [];
      case Finite(l) =>
        LinesFollowTable(table[1..], taxable, l);
        forall k | 0 < k < |walk.lines|
          ensures walk.lines[k - 1].to == Finite(walk.lines[k].from)
          ensures walk.lines[k - 1].amount == walk.lines[k].from - walk.lines[k - 1].from
        {
          if k > 1 {
            assert walk.lines[k - 1] == rest.lines[k - 2];
          }
        }
    }
  }

  /** On a partitioning table the amounts of the breakdown add up to exactly
      the part of the taxable income above `start`. */
  lemma {:induction false} LinesSumToTaxable(table: seq<Bracket>, taxable: real, start: real)
    requires PartitionsFrom(table, start)
    ensures Sum(Amounts(CumulativeWalk(table, taxable, Finite(start)).lines)) == Max(0.0, taxable - start)
  {
    if taxable > start {
      WalkStep(table, taxable, start);
      var walk := CumulativeWalk(table, taxable, Finite(start));
      var rest := CumulativeWalk(table[1..], taxable, table[0].limit);
      assert Amounts(walk.lines) == [walk.lines[0].amount] + Amounts(rest.lines);
      match table[0].limit
      case Unbounded =>
      case Finite(l) =>
        LinesSumToTaxable(table[1..], taxable, l);
    }
  }

  /** On a partitioning table the accumulated tax is the sum of the taxes of
      the breakdown lines: no bracket contributes tax without a line. */
  lemma {:induction false} TaxIsSumOfLines(table: seq<Bracket>, taxable: real, start: real)
    requires PartitionsFrom(table, start)
    ensures CumulativeWalk(table, taxable, Finite(start)).tax == SumTaxes(CumulativeWalk(table, taxable, Finite(start)).lines)
  {
    if taxable > start {
      WalkStep(table, taxable, start);
      var walk := CumulativeWalk(table, taxable, Finite(start));
      var rest := CumulativeWalk(table[1..], taxable, table[0].limit);
      assert walk.lines[1..] == rest.lines;
      match table[0].limit
      case Unbounded =>
      case Finite(l) =>
        TaxIsSumOfLines(table[1..], taxable, l);
    }
  }

  lemma TaxAtBounds(amount: real, rate: real, top: real)
    requires 0.0 <= amount && 0.0 <= rate <= top
    ensures 0.0 <= TaxAt(amount, rate) <= TaxAt(amount, top)
  {
  }

  lemma TaxAtAdds(a: real, b: real, rate: real)
    ensures TaxAt(a + b, rate) == TaxAt(a, rate) + TaxAt(b, rate)
  {
  }

  lemma TaxAtMonotone(a: real, b: real, rate: real)
    requires a <= b && 0.0 <= rate
    ensures TaxAt(a, rate) <= TaxAt(b, rate)
  {
  }

  /** With every rate between 0 and `top`, the tax is non-negative and at most
      `top` times the part of the taxable income above `start`. */
  lemma {:induction false} TaxBounds(table: seq<Bracket>, taxable: real, start: real, top: real)
    requires PartitionsFrom(table, start)
    requires RatesWithin(table, 0.0, top)
    ensures 0.0 <= CumulativeWalk(table, taxable, Finite(start)).tax <= TaxAt(Max(0.0, taxable - start), top)
  {
    if taxable > start {
      WalkStep(table, taxable, start);
      var amount := Cap(taxable, table[0].limit) - start;
      TaxAtBounds(amount, table[0].rate, top);
      match table[0].limit
      case Unbounded =>
      case Finite(l) =>
        TaxBounds(table[1..], taxable, l, top);
        TaxAtAdds(amount, Max(0.0, taxable - l), top);
        assert amount + Max(0.0, taxable - l) == taxable - start;
    } else {
      assert TaxAt(0.0, top) == 0.0;
    }
  }

  /** With non-negative rates, more taxable income never means less tax. */
  lemma {:induction false} TaxMonotone(table: seq<Bracket>, lower: real, higher: real, start: real)
    requires PartitionsFrom(table, start)
    requires RatesWithin(table, 0.0, 1.0)
    requires lower <= higher
    ensures CumulativeWalk(table, lower, Finite(start)).tax <= CumulativeWalk(table, higher, Finite(start)).tax
  {
    if lower <= start {
      TaxBounds(table, higher, start, 1.0);
    } else {
      WalkStep(table, lower, start);
      WalkStep(table, higher, start);
      TaxAtMonotone(Cap(lower, table[0].limit) - start, Cap(higher, table[0].limit) - start, table[0].rate);
      match table[0].limit
      case Unbounded =>
      case Finite(l) =>
        TaxMonotone(table[1..], lower, higher, l);
    }
  }

  // ---------------------------------------------------------------------------
  // The width walk (client/src/components/TaxCalculatorForm.tsx)

  /** The loop over a table of bracket widths with `remaining` as the income
      not yet taxed: stop once nothing remains; otherwise take the slice of at
      most this bracket's width, tax it, and subtract it from what remains. */
  function WidthWalk(widths: seq<Bracket>, remaining: real): SliceWalk
    decreases |widths|
  {
    if widths == [] || remaining <= 0.0 then SliceWalk(0.0, [])
    else
      var slice := Cap(remaining, widths[0].limit);
      var rest := WidthWalk(widths[1..], remaining - slice);
      SliceWalk(TaxAt(slice, widths[0].rate) + rest.tax, [slice] + rest.slices)
  }

  /** The loop of `calculate2025Tax` over a table of widths: stop once
      nothing remains; otherwise tax the slice of at most this bracket's width
      and take it off what remains, which never goes below zero. */
  method ApplyWidths(widths: seq<Bracket>, taxable: real) returns (tax: real)
    requires 0.0 <= taxable
    ensures tax == WidthWalk(widths, taxable).tax
  {
    tax := 0.0;
    var remaining := taxable;
    for i := 0 to |widths|
      invariant 0.0 <= remaining
      invariant WidthWalk(widths, taxable).tax == tax + WidthWalk(widths[i..], remaining).tax
    {
      if remaining <= 0.0 {
        break;
      }
      var taxableInBracket := Cap(remaining, widths[i].limit);
      tax := tax + TaxAt(taxableInBracket, widths[i].rate);
      remaining := remaining - taxableInBracket;
      assert widths[i..][1..] == widths[i + 1..];
    }
  }

  /** Every slice is positive and at most its bracket's width; there is at most
      one slice per bracket. */
  lemma {:induction false} SlicesWithinWidths(widths: seq<Bracket>, remaining: real)
    requires WidthsCover(widths)
    ensures var slices := WidthWalk(widths, remaining).slices;
      && |slices| <= |widths|
      && forall k :: 0 <= k < |slices| ==>
           0.0 < slices[k] && (widths[k].limit.Finite? ==> slices[k] <= widths[k].limit.value)
  {
    if remaining > 0.0 {
      var slice := Cap(remaining, widths[0].limit);
      match widths[0].limit
      case Unbounded =>
        assert WidthWalk(widths, remaining).slices == [remaining];
      case Finite(w) =>
        SlicesWithinWidths(widths[1..], remaining - slice);
        var rest := WidthWalk(widths[1..], remaining - slice);
        assert WidthWalk(widths, remaining).slices == [slice] + rest.slices;
    }
  }

  /** Turns widths into cumulative bounds: each bound is `start` plus the
      widths up to and including its bracket; rates are kept. */
  function ToCumulative(widths: seq<Bracket>, start: real): (bounds: seq<Bracket>)
    ensures |bounds| == |widths|
    decreases |widths|
  {
    if widths == [] then []
    else
      match widths[0].limit
      case Unbounded => [widths[0]] + ToCumulative(widths[1..], start)
      case Finite(w) => [Bracket(Finite(start + w), widths[0].rate)] + ToCumulative(widths[1..], start + w)
  }

  lemma {:induction false} ToCumulativeRates(widths: seq<Bracket>, start: real)
    ensures forall i :: 0 <= i < |widths| ==> ToCumulative(widths, start)[i].rate == widths[i].rate
  {
    if widths != [] {
      match widths[0].limit
      case Unbounded => ToCumulativeRates(widths[1..], start);
      case Finite(w) => ToCumulativeRates(widths[1..], start + w);
    }
  }

  /** Positive widths ending in an unbounded bracket become a partition of
      [start, infinity). */
  lemma {:induction false} ToCumulativePartitions(widths: seq<Bracket>, start: real)
    requires WidthsCover(widths)
    ensures PartitionsFrom(ToCumulative(widths, start), start)
  {
    match widths[0].limit
    case Unbounded =>
    case Finite(w) =>
      ToCumulativePartitions(widths[1..], start + w);
      assert ToCumulative(widths, start)[1..] == ToCumulative(widths[1..], start + w);
  }

  /** Every finite width is positive. */
  predicate PositiveWidths(widths: seq<Bracket>) {
    forall i :: 0 <= i < |widths| && widths[i].limit.Finite? ==> 0.0 < widths[i].limit.value
  }

  /** A first width that holds all of the income above `start`: both walks
      take the whole of it in this bracket and stop. */
  lemma WidthStepFits(widths: seq<Bracket>, taxable: real, start: real, w: real)
    requires widths != [] && widths[0].limit == Finite(w)
    requires start < taxable <= start + w
    ensures WidthWalk(widths, taxable - start).tax == CumulativeWalk(ToCumulative(widths, start), taxable, Finite(start)).tax
    ensures WidthWalk(widths, taxable - start).slices == Amounts(CumulativeWalk(ToCumulative(widths, start), taxable, Finite(start)).lines)
  {
    var bounds := ToCumulative(widths, start);
    assert bounds[0] == Bracket(Finite(start + w), widths[0].rate);
    assert bounds[1..] == ToCumulative(widths[1..], start + w);
    assert Cap(taxable, Finite(start + w)) - start == taxable - start;
    assert WidthWalk(widths[1..], 0.0) == SliceWalk(0.0, []);
  }

  /** A first width the income above `start` overflows: both walks fill this
      bracket and continue from `start + w` on the rest of the table. */
  lemma WidthStepOverflows(widths: seq<Bracket>, taxable: real, start: real, w: real)
    requires widths != [] && widths[0].limit == Finite(w)
    requires start + w < taxable
    requires WidthWalk(widths[1..], taxable - (start + w)).tax
      == CumulativeWalk(ToCumulative(widths[1..], start + w), taxable, Finite(start + w)).tax
    requires PositiveWidths(widths[1..]) ==>
      (WidthWalk(widths[1..], taxable - (start + w)).slices
       == Amounts(CumulativeWalk(ToCumulative(widths[1..], start + w), taxable, Finite(start + w)).lines))
    ensures WidthWalk(widths, taxable - start).tax == CumulativeWalk(ToCumulative(widths, start), taxable, Finite(start)).tax
    ensures PositiveWidths(widths) ==>
      (WidthWalk(widths, taxable - start).slices
       == Amounts(CumulativeWalk(ToCumulative(widths, start), taxable, Finite(start)).lines))
  {
    if PositiveWidths(widths) {
      assert 0.0 < w;
      assert PositiveWidths(widths[1..]) by {
        assert forall i :: 0 <= i < |widths[1..]| ==> widths[1..][i] == widths[i + 1];
      }
    }
    var bounds := ToCumulative(widths, start);
    assert bounds[0] == Bracket(Finite(start + w), widths[0].rate);
    assert bounds[1..] == ToCumulative(widths[1..], start + w);
    assert Cap(taxable, Finite(start + w)) - start == w;
    assert taxable - start - w == taxable - (start + w);
  }

  /** The two encodings agree: walking widths with `taxable - start` remaining
      gives the same tax as walking the matching cumulative bounds from
      `start`, for every table; with positive widths the slices are exactly the
      breakdown amounts. */
  lemma {:induction false} WidthWalkIsCumulativeWalk(widths: seq<Bracket>, taxable: real, start: real)
    ensures WidthWalk(widths, taxable - start).tax == CumulativeWalk(ToCumulative(widths, start), taxable, Finite(start)).tax
    ensures (forall i :: 0 <= i < |widths| && widths[i].limit.Finite? ==> 0.0 < widths[i].limit.value) ==>
      WidthWalk(widths, taxable - start).slices == Amounts(CumulativeWalk(ToCumulative(widths, start), taxable, Finite(start)).lines)
  {
    if widths != [] && taxable > start {
      match widths[0].limit
      case Unbounded =>
        assert ToCumulative(widths, start)[0] == widths[0];
        assert WidthWalk(widths[1..], 0.0) == SliceWalk(0.0, []);
      case Finite(w) =>
        if taxable <= start + w {
          WidthStepFits(widths, taxable, start, w);
        } else {
          WidthWalkIsCumulativeWalk(widths[1..], taxable, start + w);
          WidthStepOverflows(widths, taxable, start, w);
        }
    }
  }

  /** The slices of a width walk over positive widths ending in an unbounded
      bracket add up to exactly the income it started with. */
  lemma SlicesSumToTaxable(widths: seq<Bracket>, taxable: real)
    requires WidthsCover(widths)
    requires 0.0 <= taxable
    ensures Sum(WidthWalk(widths, taxable).slices) == taxable
  {
    WidthsCoverPositive(widths);
    WidthWalkIsCumulativeWalk(widths, taxable, 0.0);
    ToCumulativePartitions(widths, 0.0);
    LinesSumToTaxable(ToCumulative(widths, 0.0), taxable, 0.0);
  }

  lemma {:induction false} WidthsCoverPositive(widths: seq<Bracket>)
    requires WidthsCover(widths)
    ensures forall i :: 0 <= i < |widths| && widths[i].limit.Finite? ==> 0.0 < widths[i].limit.value
  {
    if |widths| > 1 {
      WidthsCoverPositive(widths[1..]);
      forall i | 1 <= i < |widths| && widths[i].limit.Finite?
        ensures 0.0 < widths[i].limit.value
      {
        assert widths[i] == widths[1..][i - 1];
      }
    }
  }

  /** The width walk inherits the cumulative walk's bounds: with every rate
      between 0 and `top`, 0 <= tax <= top * taxable. */
  lemma WidthTaxBounds(widths: seq<Bracket>, taxable: real, top: real)
    requires WidthsCover(widths)
    requires RatesWithin(widths, 0.0, top)
    requires 0.0 <= taxable
    ensures 0.0 <= WidthWalk(widths, taxable).tax <= TaxAt(taxable, top)
  {
    WidthWalkIsCumulativeWalk(widths, taxable, 0.0);
    ToCumulativePartitions(widths, 0.0);
    ToCumulativeRates(widths, 0.0);
    TaxBounds(ToCumulative(widths, 0.0), taxable, 0.0, top);
  }

  /** The width walk inherits the cumulative walk's monotonicity. */
  lemma WidthTaxMonotone(widths: seq<Bracket>, lower: real, higher: real)
    requires WidthsCover(widths)
    requires RatesWithin(widths, 0.0, 1.0)
    requires lower <= higher
    ensures WidthWalk(widths, lower).tax <= WidthWalk(widths, higher).tax
  {
    WidthWalkIsCumulativeWalk(widths, lower, 0.0);
    WidthWalkIsCumulativeWalk(widths, higher, 0.0);
    ToCumulativePartitions(widths, 0.0);
    ToCumulativeRates(widths, 0.0);
    TaxMonotone(ToCumulative(widths, 0.0), lower, higher, 0.0);
  }
}
