/**
 * The progressive income-tax engine (`TaxCalculator`): annual tax over an
 * ordered bracket schedule whose bounds are inclusive at both ends, its
 * monthly projection with a family reduction of the tax base, and the lookup
 * of that reduction from a status code.
 */
module Tax {
  import opened Wrappers
  import opened Money
  import opened StatusCode

  /**
   * One bracket: incomes from `minIncome` to `maxIncome` (both inclusive; no
   * maximum for the top bracket) are taxed at `rate`. `cumulativeTax` is
   * carried as configuration data; the engine never reads it.
   */
  datatype Bracket = Bracket(minIncome: real, maxIncome: Option<real>, rate: real, cumulativeTax: real)

  /** The schedule used when the calculator is built without one (Mali, 2019). */
  const DefaultBrackets: seq<Bracket> := [
    Bracket(0.0, Some(330000.0), 0.0, 0.0),
    Bracket(330001.0, Some(578400.0), 0.05, 0.0),
    Bracket(578401.0, Some(1176400.0), 0.12, 12420.0),
    Bracket(1176401.0, Some(1789733.0), 0.18, 84180.0),
    Bracket(1789734.0, Some(2384195.0), 0.26, 194579.0),
    Bracket(2384196.0, Some(3494130.0), 0.31, 349134.0),
    Bracket(3494131.0, None, 0.37, 693217.0)
  ]

  /** The constructor's `brackets or DEFAULT_BRACKETS`: a missing or empty schedule falls back to the default. */
  function InitBrackets(brackets: Option<seq<Bracket>>): (bs: seq<Bracket>)
    ensures bs != []
    ensures brackets.Some? && brackets.value != [] ==> bs == brackets.value
    ensures brackets.None? || brackets.value == [] ==> bs == DefaultBrackets
  {
    if brackets.Some? && brackets.value != [] then brackets.value else DefaultBrackets
  }

  // ---------------------------------------------------------------------------
  // Shape of a schedule

  /** Every bounded bracket is non-empty. */
  predicate BoundsOrdered(bs: seq<Bracket>) {
    forall i :: 0 <= i < |bs| && bs[i].maxIncome.Some? ==> bs[i].minIncome <= bs[i].maxIncome.value
  }

  predicate RatesNonNegative(bs: seq<Bracket>) {
    forall i :: 0 <= i < |bs| ==> 0.0 <= bs[i].rate
  }

  /** Bracket b starts one unit above the maximum of bracket a. */
  predicate Joined(a: Bracket, b: Bracket) {
    a.maxIncome.Some? && b.minIncome == a.maxIncome.value + 1.0
  }

  /** Each bracket starts one unit above the maximum of the one before; so only the last is unbounded. */
  predicate Adjacent(bs: seq<Bracket>) {
    |bs| <= 1 || (Joined(bs[0], bs[1]) && Adjacent(bs[1..]))
  }

  /** The brackets tile the income line with non-empty, inclusive ranges. */
  predicate Contiguous(bs: seq<Bracket>) {
    BoundsOrdered(bs) && Adjacent(bs)
  }

  /** A contiguous schedule whose rates are fractions. */
  predicate WellFormed(bs: seq<Bracket>) {
    && Contiguous(bs)
    && forall i :: 0 <= i < |bs| ==> 0.0 <= bs[i].rate <= 1.0
  }

  lemma DefaultWellFormed()
    ensures WellFormed(DefaultBrackets)
  {
    var d := DefaultBrackets;
    var k := 6;
    while k > 0
      invariant 0 <= k <= 6 && Adjacent(d[k..])
    {
      assert d[k - 1..][1..] == d[k..];
      k := k - 1;
    }
  }

  lemma ContiguousTail(bs: seq<Bracket>)
    requires Contiguous(bs) && bs != []
    ensures Contiguous(bs[1..])
  {
    forall i | 0 <= i < |bs| - 1
      ensures bs[1..][i] == bs[i + 1]
    {
    }
  }

  /** In a contiguous schedule the minimums ascend, and each earlier bracket ends below a later one's minimum. */
  lemma {:induction false} MinsAscend(bs: seq<Bracket>, i: nat, j: nat)
    requires Contiguous(bs) && i <= j < |bs|
    ensures bs[i].minIncome <= bs[j].minIncome
    ensures i < j ==> bs[i].maxIncome.Some? && bs[i].maxIncome.value < bs[j].minIncome
  {
    if 0 < i {
      ContiguousTail(bs);
      MinsAscend(bs[1..], i - 1, j - 1);
    } else if 0 < j {
      ContiguousTail(bs);
      MinsAscend(bs[1..], 0, j - 1);
      assert Joined(bs[0], bs[1]);
      assert bs[0].minIncome <= bs[0].maxIncome.value;
    }
  }

  // ---------------------------------------------------------------------------
  // Annual tax

  /** The income taxed inside one bracket, counting both bounds. */
  function Slice(b: Bracket, income: real): real {
    match b.maxIncome
    case None => income - b.minIncome + 1.0
    case Some(m) => if income > m then m - b.minIncome + 1.0 else income - b.minIncome + 1.0
  }

  /**
   * The unrounded sum of the walk over the brackets: each bracket whose
   * minimum does not exceed the income adds its slice times its rate, and the
   * walk ends at the first bracket whose minimum does.
   */
  function TaxSum(bs: seq<Bracket>, income: real): real
  {
    if bs == [] || income < bs[0].minIncome then 0.0
    else BracketTax(bs[0], income) + TaxSum(bs[1..], income)
  }

  /** The tax one visited bracket adds: its slice times its rate. */
  function BracketTax(b: Bracket, income: real): real {
    Slice(b, income) * b.rate
  }

  /** `calculate_annual_tax`: `0.0` for a non-positive income, else the rounded walk. */
  function AnnualTax(bs: seq<Bracket>, income: real): (t: real)
    ensures income <= 0.0 ==> t == 0.0
    ensures income > 0.0 ==> -1.0 / 200.0 < t - TaxSum(bs, income) <= 1.0 / 200.0
  {
    if income <= 0.0 then 0.0 else Round2(TaxSum(bs, income))
  }

  /** The loop of `calculate_annual_tax`, with its early `break`. */
  method CalculateAnnualTax(brackets: seq<Bracket>, income: real) returns (tax: real)
    ensures tax == AnnualTax(brackets, income)
  {
    if income <= 0.0 {
      return 0.0;
    }
    var sum := 0.0;
    for i := 0 to |brackets|
      invariant sum + TaxSum(brackets[i..], income) == TaxSum(brackets, income)
    {
      var b := brackets[i];
      if income < b.minIncome {
        break;
      }
      var taxable: real;
      if b.maxIncome.None? {
        taxable := income - b.minIncome + 1.0;
      } else if income > b.maxIncome.value {
        taxable := b.maxIncome.value - b.minIncome + 1.0;
      } else {
        taxable := income - b.minIncome + 1.0;
      }
      assert brackets[i..][1..] == brackets[i + 1..];
      sum := sum + taxable * b.rate;
    }
    tax := Round2(sum);
  }

  /** Brackets at and after the first one whose minimum exceeds the income contribute nothing. */
  lemma {:induction false} TaxSumStopsAt(bs: seq<Bracket>, k: nat, income: real)
    requires k < |bs| && income < bs[k].minIncome
    ensures TaxSum(bs, income) == TaxSum(bs[..k], income)
  {
    if k > 0 && bs[0].minIncome <= income {
      TaxSumStopsAt(bs[1..], k - 1, income);
      assert bs[..k][1..] == bs[1..][..k - 1];
    }
  }

  lemma {:induction false} TaxSumNonNegative(bs: seq<Bracket>, income: real)
    requires BoundsOrdered(bs) && RatesNonNegative(bs)
    ensures 0.0 <= TaxSum(bs, income)
  {
    if bs != [] && bs[0].minIncome <= income {
      BracketsTail(bs);
      TaxSumNonNegative(bs[1..], income);
      assert bs[0].maxIncome.Some? ==> bs[0].minIncome <= bs[0].maxIncome.value;
      BracketTaxMonotone(bs[0], income, income);
    }
  }

  /** Scaling by a non-negative rate keeps the order of two amounts. */
  lemma ScaleMonotone(a: real, b: real, rate: real)
    requires a <= b && 0.0 <= rate
    ensures a * rate <= b * rate
  {
    assert (b - a) * rate >= 0.0;
  }

  /** Scaling by a non-negative rate keeps the sign of an amount. */
  lemma ScaleSign(a: real, rate: real)
    requires 0.0 <= rate
    ensures 0.0 <= a ==> 0.0 <= a * rate
    ensures a <= 0.0 ==> a * rate <= 0.0
  {
  }

  lemma SliceMonotone(b: Bracket, x: real, y: real)
    requires b.maxIncome.Some? ==> b.minIncome <= b.maxIncome.value
    requires b.minIncome <= x <= y
    ensures 0.0 < Slice(b, x) <= Slice(b, y)
  {
  }

  /** A visited bracket owes a non-negative amount that grows with the income. */
  lemma BracketTaxMonotone(b: Bracket, x: real, y: real)
    requires b.maxIncome.Some? ==> b.minIncome <= b.maxIncome.value
    requires 0.0 <= b.rate && b.minIncome <= x <= y
    ensures 0.0 <= BracketTax(b, x) <= BracketTax(b, y)
  {
    SliceMonotone(b, x, y);
    ScaleSign(Slice(b, x), b.rate);
    ScaleMonotone(Slice(b, x), Slice(b, y), b.rate);
  }

  lemma BracketsTail(bs: seq<Bracket>)
    requires bs != []
    ensures BoundsOrdered(bs) ==> BoundsOrdered(bs[1..])
    ensures RatesNonNegative(bs) ==> RatesNonNegative(bs[1..])
    ensures WellFormed(bs) ==> WellFormed(bs[1..])
  {
    forall i | 0 <= i < |bs| - 1
      ensures bs[1..][i] == bs[i + 1]
    {
    }
    if Contiguous(bs) {
      ContiguousTail(bs);
    }
  }

  /** A larger income never owes less: the walk goes at least as far and every slice is at least as wide. */
  lemma {:induction false} TaxSumMonotone(bs: seq<Bracket>, x: real, y: real)
    requires BoundsOrdered(bs) && RatesNonNegative(bs)
    requires x <= y
    ensures TaxSum(bs, x) <= TaxSum(bs, y)
  {
    if bs == [] {
    } else if x < bs[0].minIncome {
      TaxSumNonNegative(bs, y);
    } else {
      BracketsTail(bs);
      TaxSumMonotone(bs[1..], x, y);
      assert bs[0].maxIncome.Some? ==> bs[0].minIncome <= bs[0].maxIncome.value;
      BracketTaxMonotone(bs[0], x, y);
    }
  }

  lemma AnnualTaxNonNegative(bs: seq<Bracket>, income: real)
    requires BoundsOrdered(bs) && RatesNonNegative(bs)
    ensures 0.0 <= AnnualTax(bs, income)
  {
    if income > 0.0 {
      TaxSumNonNegative(bs, income);
      RoundNonNegative(TaxSum(bs, income));
    }
  }

  /** The annual tax is non-decreasing in the income, for any schedule with ordered bounds and non-negative rates. */
  lemma AnnualTaxMonotone(bs: seq<Bracket>, x: real, y: real)
    requires BoundsOrdered(bs) && RatesNonNegative(bs)
    requires x <= y
    ensures AnnualTax(bs, x) <= AnnualTax(bs, y)
  {
    AnnualTaxNonNegative(bs, y);
    if x > 0.0 {
      TaxSumMonotone(bs, x, y);
      RoundMonotone(TaxSum(bs, x), TaxSum(bs, y));
    }
  }

  /** A slice taxed at a rate of at most 1 owes at most the slice. */
  lemma ScaleAtMostOne(a: real, rate: real)
    requires 0.0 <= a && rate <= 1.0
    ensures a * rate <= a
  {
    assert a * (1.0 - rate) >= 0.0;
  }

  /** The first bracket of a schedule owes at most its slice, which ends where the second bracket starts. */
  lemma FirstBracketTax(bs: seq<Bracket>, income: real)
    requires WellFormed(bs) && bs != [] && bs[0].minIncome <= income
    ensures BracketTax(bs[0], income) <= Slice(bs[0], income) <= income - bs[0].minIncome + 1.0
    ensures |bs| > 1 && bs[1].minIncome <= income ==> Slice(bs[0], income) == bs[1].minIncome - bs[0].minIncome
  {
    var b := bs[0];
    assert b.maxIncome.Some? ==> b.minIncome <= b.maxIncome.value;
    SliceMonotone(b, income, income);
    BracketTaxAtMostSlice(b, income);
    if |bs| > 1 {
      assert Joined(b, bs[1]);
    }
  }

  /** At a rate of at most 1 a bracket owes at most its slice. */
  lemma BracketTaxAtMostSlice(b: Bracket, income: real)
    requires 0.0 <= Slice(b, income) && b.rate <= 1.0
    ensures BracketTax(b, income) <= Slice(b, income)
  {
    ScaleAtMostOne(Slice(b, income), b.rate);
  }

  /** With rates at most 1, the tax never exceeds the income counted from the first bracket's minimum. */
  lemma {:induction false} TaxSumAtMostTaxedIncome(bs: seq<Bracket>, income: real)
    requires WellFormed(bs) && bs != [] && bs[0].minIncome <= income
    ensures TaxSum(bs, income) <= income - bs[0].minIncome + 1.0
  {
    FirstBracketTax(bs, income);
    assert TaxSum(bs, income) == BracketTax(bs[0], income) + TaxSum(bs[1..], income);
    if |bs| == 1 {
      assert bs[1..] == [];
    } else {
      assert bs[1..][0] == bs[1];
      if bs[1].minIncome <= income {
        BracketsTail(bs);
        TaxSumAtMostTaxedIncome(bs[1..], income);
      } else {
        assert TaxSum(bs[1..], income) == 0.0;
      }
    }
  }

  /** The tax of all brackets passed in full: each one's width, both bounds counted, times its rate. */
  function FullBracketsTax(bs: seq<Bracket>): real
  {
    if bs == [] then 0.0 else Width(bs[0]) * bs[0].rate + FullBracketsTax(bs[1..])
  }

  /** The number of income units of a bounded bracket, both bounds counted. */
  function Width(b: Bracket): real {
    match b.maxIncome
    case Some(m) => m - b.minIncome + 1.0
    case None => 0.0
  }

  /**
   * An income inside bracket k owes the full tax of the brackets below k plus
   * `(income - min_k + 1) * rate_k`.
   */
  lemma {:induction false} TaxSumWithinBracket(bs: seq<Bracket>, k: nat, income: real)
    requires Contiguous(bs) && k < |bs|
    requires bs[k].minIncome <= income
    requires bs[k].maxIncome.None? || income <= bs[k].maxIncome.value
    ensures TaxSum(bs, income) == FullBracketsTax(bs[..k]) + (income - bs[k].minIncome + 1.0) * bs[k].rate
  {
    if k == 0 {
      TaxSumInFirstBracket(bs, income);
      assert bs[..0] == [];
    } else {
      MinsAscend(bs, 0, k);
      TaxSumPastFirstBracket(bs, income);
      ContiguousTail(bs);
      TaxSumWithinBracket(bs[1..], k - 1, income);
      assert bs[1..][k - 1] == bs[k];
      assert TaxSum(bs[1..], income)
          == FullBracketsTax(bs[1..][..k - 1]) + (income - bs[k].minIncome + 1.0) * bs[k].rate;
      FullBracketsTaxStep(bs, k);
    }
  }

  /** An income inside the first bracket owes only that bracket's share. */
  lemma TaxSumInFirstBracket(bs: seq<Bracket>, income: real)
    requires Contiguous(bs) && bs != []
    requires bs[0].minIncome <= income
    requires bs[0].maxIncome.None? || income <= bs[0].maxIncome.value
    ensures TaxSum(bs, income) == (income - bs[0].minIncome + 1.0) * bs[0].rate
  {
    if |bs| > 1 {
      assert Joined(bs[0], bs[1]);
      assert bs[1..][0] == bs[1];
      assert TaxSum(bs[1..], income) == 0.0;
    } else {
      assert bs[1..] == [];
    }
    BracketTaxOfSlice(bs[0], income, income - bs[0].minIncome + 1.0);
  }

  /** An income above the first bracket owes that bracket in full plus the tax of the rest. */
  lemma TaxSumPastFirstBracket(bs: seq<Bracket>, income: real)
    requires bs != [] && bs[0].maxIncome.Some? && bs[0].maxIncome.value < income
    requires bs[0].minIncome <= income
    ensures TaxSum(bs, income) == Width(bs[0]) * bs[0].rate + TaxSum(bs[1..], income)
  {
    BracketTaxOfSlice(bs[0], income, Width(bs[0]));
  }

  lemma FullBracketsTaxStep(bs: seq<Bracket>, k: nat)
    requires 0 < k <= |bs|
    ensures FullBracketsTax(bs[..k]) == Width(bs[0]) * bs[0].rate + FullBracketsTax(bs[1..][..k - 1])
  {
    assert bs[..k][1..] == bs[1..][..k - 1];
    assert bs[..k][0] == bs[0];
  }

  /** A bracket whose slice is known owes that slice times its rate. */
  lemma BracketTaxOfSlice(b: Bracket, income: real, slice: real)
    requires Slice(b, income) == slice
    ensures BracketTax(b, income) == slice * b.rate
  {
  }

  /**
   * An income from the maximum m of bracket k up to (not including) m + 1
   * owes exactly the full tax of brackets 0..k: nothing of bracket k + 1.
   */
  lemma {:induction false} TaxSumAtBracketTop(bs: seq<Bracket>, k: nat, income: real)
    requires Contiguous(bs) && k < |bs| && bs[k].maxIncome.Some?
    requires bs[k].maxIncome.value <= income < bs[k].maxIncome.value + 1.0
    ensures TaxSum(bs, income) == FullBracketsTax(bs[..k + 1])
  {
    assert bs[k].minIncome <= bs[k].maxIncome.value;
    if k == 0 {
      if |bs| > 1 {
        assert Joined(bs[0], bs[1]);
        assert TaxSum(bs[1..], income) == 0.0;
      }
      assert bs[..1][1..] == [];
    } else {
      MinsAscend(bs, 0, k);
      ContiguousTail(bs);
      TaxSumAtBracketTop(bs[1..], k - 1, income);
      assert bs[..k + 1][1..] == bs[1..][..k];
    }
  }

  /** An income strictly between the maximum m of a bracket and m + 1 is taxed like m. */
  lemma TaxBetweenBrackets(bs: seq<Bracket>, k: nat, income: real)
    requires Contiguous(bs) && k < |bs| && bs[k].maxIncome.Some?
    requires 0.0 < bs[k].maxIncome.value < income < bs[k].maxIncome.value + 1.0
    ensures AnnualTax(bs, income) == AnnualTax(bs, bs[k].maxIncome.value)
  {
    TaxSumAtBracketTop(bs, k, income);
    TaxSumAtBracketTop(bs, k, bs[k].maxIncome.value);
  }

  /** With the default schedule, 330000, the top of the 0% bracket, owes nothing. */
  lemma DefaultTaxAt330000()
    ensures AnnualTax(DefaultBrackets, 330000.0) == 0.0
  {
    var d := DefaultBrackets;
    var b := d[0];
    assert b.rate == 0.0 && b.minIncome == 0.0;
    assert d[..1] == [b] && [b][1..] == [];
    TaxSumStopsAt(d, 1, 330000.0);
    assert TaxSum([b], 330000.0) == BracketTax(b, 330000.0) + TaxSum([], 330000.0);
    assert BracketTax(b, 330000.0) == 0.0;
    RoundOfCents(0.0);
  }

  /** One unit above 330000 crosses into the 5% bracket. */
  lemma DefaultTaxAt330001()
    ensures AnnualTax(DefaultBrackets, 330001.0) == 0.05
  {
    var d := DefaultBrackets;
    TaxSumStopsAt(d, 2, 330001.0);
    assert TaxSum(d[..2], 330001.0) == 0.05 by {
      assert d[..2][1..][1..] == [];
    }
    assert IsCents(0.05) by {
      assert 0.05 * 100.0 == 5.0;
    }
    RoundOfCents(0.05);
  }

  /**
   * The six bounded default brackets taken in full owe 693219.91, which an
   * income in the top bracket pays before its own 37%. The `cumulativeTax`
   * carried by the top bracket, 693217, is not that sum; the engine never
   * reads it.
   */
  lemma DefaultLowerBracketsTax()
    ensures FullBracketsTax(DefaultBrackets[..6]) == 693219.91
    ensures FullBracketsTax(DefaultBrackets[..6]) != DefaultBrackets[6].cumulativeTax
  {
    var d := DefaultBrackets;
    assert d[5..6][1..] == [];
    assert FullBracketsTax(d[5..6]) == 344079.85;
    assert d[4..6][1..] == d[5..6];
    assert FullBracketsTax(d[4..6]) == 498639.97;
    assert d[3..6][1..] == d[4..6];
    assert FullBracketsTax(d[3..6]) == 609039.91;
    assert d[2..6][1..] == d[3..6];
    assert FullBracketsTax(d[2..6]) == 680799.91;
    assert d[1..6][1..] == d[2..6];
    assert FullBracketsTax(d[1..6]) == 693219.91;
    assert d[..6][1..] == d[1..6];
  }

  // ---------------------------------------------------------------------------
  // Monthly tax

  /** The annualised tax base: twelve months, reduced by the family fraction only when that is positive. */
  function TaxableBase(monthlyGross: real, reduction: real): real
  {
    var annual := monthlyGross * 12.0;
    if reduction > 0.0 then annual * (1.0 - reduction) else annual
  }

  /** The base is the full twelve months without a positive reduction, and a fraction in [0, 1] keeps it between 0 and the full twelve months. */
  lemma TaxableBaseBounds(monthlyGross: real, reduction: real)
    ensures reduction <= 0.0 ==> TaxableBase(monthlyGross, reduction) == monthlyGross * 12.0
    ensures 0.0 <= reduction <= 1.0 && 0.0 <= monthlyGross ==>
      0.0 <= TaxableBase(monthlyGross, reduction) <= monthlyGross * 12.0
    ensures reduction <= 1.0 && monthlyGross <= 0.0 ==> TaxableBase(monthlyGross, reduction) <= 0.0
  {
    if 0.0 < reduction <= 1.0 {
      var annual := monthlyGross * 12.0;
      if 0.0 <= monthlyGross {
        ScaleAtMostOne(annual, 1.0 - reduction);
      }
      ScaleSign(annual, 1.0 - reduction);
    }
  }

  lemma TaxableBaseMonotone(g1: real, g2: real, reduction: real)
    requires reduction <= 1.0 && g1 <= g2
    ensures TaxableBase(g1, reduction) <= TaxableBase(g2, reduction)
  {
    if reduction > 0.0 {
      ScaleMonotone(g1 * 12.0, g2 * 12.0, 1.0 - reduction);
    }
  }

  /** `calculate_monthly_tax`: a twelfth of the annual tax on the reduced base, rounded. */
  function MonthlyTax(bs: seq<Bracket>, monthlyGross: real, reduction: real): (t: real)
    ensures -1.0 / 200.0 < t - AnnualTax(bs, TaxableBase(monthlyGross, reduction)) / 12.0 <= 1.0 / 200.0
  {
    Round2(AnnualTax(bs, TaxableBase(monthlyGross, reduction)) / 12.0)
  }

  /** A reduction that is not positive is no reduction. */
  lemma NoReductionUnlessPositive(bs: seq<Bracket>, monthlyGross: real, reduction: real)
    requires reduction <= 0.0
    ensures MonthlyTax(bs, monthlyGross, reduction) == MonthlyTax(bs, monthlyGross, 0.0)
  {
  }

  /** A family reduction in [0, 1] never raises the monthly tax. */
  lemma ReductionNeverRaisesTax(bs: seq<Bracket>, monthlyGross: real, reduction: real)
    requires BoundsOrdered(bs) && RatesNonNegative(bs)
    requires 0.0 <= reduction <= 1.0
    ensures MonthlyTax(bs, monthlyGross, reduction) <= MonthlyTax(bs, monthlyGross, 0.0)
  {
    var reduced, full := TaxableBase(monthlyGross, reduction), TaxableBase(monthlyGross, 0.0);
    TaxableBaseBounds(monthlyGross, reduction);
    TaxableBaseBounds(monthlyGross, 0.0);
    if 0.0 <= monthlyGross {
      AnnualTaxMonotone(bs, reduced, full);
    } else {
      assert AnnualTax(bs, reduced) == 0.0 && AnnualTax(bs, full) == 0.0;
    }
    RoundMonotone(AnnualTax(bs, reduced) / 12.0, AnnualTax(bs, full) / 12.0);
  }

  /** A higher gross salary never owes less monthly tax at the same reduction. */
  lemma MonthlyTaxMonotone(bs: seq<Bracket>, g1: real, g2: real, reduction: real)
    requires BoundsOrdered(bs) && RatesNonNegative(bs)
    requires reduction <= 1.0 && g1 <= g2
    ensures MonthlyTax(bs, g1, reduction) <= MonthlyTax(bs, g2, reduction)
  {
    var b1, b2 := TaxableBase(g1, reduction), TaxableBase(g2, reduction);
    TaxableBaseMonotone(g1, g2, reduction);
    AnnualTaxMonotone(bs, b1, b2);
    RoundMonotone(AnnualTax(bs, b1) / 12.0, AnnualTax(bs, b2) / 12.0);
  }

  // ---------------------------------------------------------------------------
  // Family charge reduction

  /** The reduction fraction of the tax base for a status letter and dependents count. */
  function ReductionRate(letter: char, dependents: int): (r: real)
    ensures r in {0.0, 0.10, 0.15, 0.20, 0.25}
    ensures (letter != 'C' && letter != 'M') || dependents < 0 ==> r == 0.0
    ensures letter == 'M' && 0 <= dependents <= 20 ==> 0.10 <= r
  {
    if letter == 'C' then
      if 0 <= dependents <= 4 then 0.0
      else if 5 <= dependents <= 9 then 0.10
      else if 10 <= dependents <= 15 then 0.15
      else 0.0
    else if letter == 'M' then
      if 0 <= dependents <= 4 then 0.10
      else if 5 <= dependents <= 9 then 0.20
      else if 10 <= dependents <= 20 then 0.25
      else 0.0
    else 0.0
  }

  /**
   * `get_family_charge_reduction`: raises only for a non-empty code made of
   * whitespace; an empty code, a letter other than C or M, or a count that
   * does not parse gives no reduction.
   */
  function FamilyChargeReduction(code: string): (r: Result<real, PyError>)
    ensures r.Err? <==> code != "" && AllSpace(code)
    ensures r.Ok? ==> r.value in {0.0, 0.10, 0.15, 0.20, 0.25}
    ensures code == "" ==> r == Ok(0.0)
    ensures ParseStatus(code).Ok? && ParseStatus(code).value.Some? ==>
      var st := ParseStatus(code).value.value;
      (st.letter != 'C' && st.letter != 'M') || st.dependents.None? ==> r == Ok(0.0)
  {
    match ParseStatus(code)
    case Err(e) => Err(e)
    case Ok(None) => Ok(0.0)
    case Ok(Some(Status(letter, dependents))) =>
      match dependents
      case None => Ok(0.0)
      case Some(n) => Ok(ReductionRate(letter, n))
  }

  /** The reduction table, read from codes written as a letter (either case) and a count. */
  lemma ReductionOfCode(letter: char, n: int)
    requires letter == 'C' || letter == 'c' || letter == 'M' || letter == 'm'
    ensures letter == 'C' || letter == 'c' ==> FamilyChargeReduction([letter] + IntToString(n)) == Ok(
      if 0 <= n <= 4 then 0.0 else if 5 <= n <= 9 then 0.10 else if 10 <= n <= 15 then 0.15 else 0.0)
    ensures letter == 'M' || letter == 'm' ==> FamilyChargeReduction([letter] + IntToString(n)) == Ok(
      if 0 <= n <= 4 then 0.10 else if 5 <= n <= 9 then 0.20 else if 10 <= n <= 20 then 0.25 else 0.0)
  {
    var code := [letter] + IntToString(n);
    var u := UpperChar(letter);
    assert u == if letter == 'C' || letter == 'c' then 'C' else 'M';
    ParseCanonicalStatus(letter, n);
    ReductionOfStatus(code, u, n);
  }

  /**
   * The reduction table, read from any code that `int()` accepts: whitespace
   * around the code and after the letter, a sign, leading zeros and underscores.
   */
  lemma ReductionOfPaddedCode(pre: string, letter: char, gap: string, sign: string, digits: string, post: string)
    requires AllSpace(pre) && AllIntSpace(gap) && AllSpace(post) && IsSign(sign) && IsDigitRun(digits)
    requires letter == 'C' || letter == 'c' || letter == 'M' || letter == 'm'
    ensures var code, n := PaddedCode(pre, letter, gap, sign, digits, post), SignedValue(sign, digits);
      && (letter == 'C' || letter == 'c' ==> FamilyChargeReduction(code) == Ok(
            if 0 <= n <= 4 then 0.0 else if 5 <= n <= 9 then 0.10 else if 10 <= n <= 15 then 0.15 else 0.0))
      && (letter == 'M' || letter == 'm' ==> FamilyChargeReduction(code) == Ok(
            if 0 <= n <= 4 then 0.10 else if 5 <= n <= 9 then 0.20 else if 10 <= n <= 20 then 0.25 else 0.0))
  {
    var code, n := PaddedCode(pre, letter, gap, sign, digits, post), SignedValue(sign, digits);
    var u := UpperChar(letter);
    assert u == if letter == 'C' || letter == 'c' then 'C' else 'M';
    ParsePaddedStatus(pre, letter, gap, sign, digits, post);
    ReductionOfStatus(code, u, n);
    assert FamilyChargeReduction(code) == Ok(ReductionRate(u, n));
  }

  /** A code that reads as a letter and a count has the reduction of that letter and count. */
  lemma ReductionOfStatus(code: string, letter: char, n: int)
    requires ParseStatus(code) == Ok(Some(Status(letter, Some(n))))
    ensures FamilyChargeReduction(code) == Ok(ReductionRate(letter, n))
  {
  }

  // ---------------------------------------------------------------------------
  // Details and the convenience function

  /** The dictionary returned by `calculate_tax_details`. */
  datatype TaxDetails = TaxDetails(
    monthlyGross: real,
    annualGross: real,
    statusCode: string,
    familyReductionRate: real,
    annualTaxable: real,
    annualTax: real,
    monthlyTax: real,
    effectiveTaxRate: real)

  /**
   * `calculate_tax_details`: the gross, annual gross and taxable base rounded
   * to the cent, its monthly tax agrees with `calculate_monthly_tax` at the
   * code's reduction, its annual tax is the annual tax of the reduced base, and
   * the effective rate is the unrounded monthly tax as a percentage of the
   * gross, 0 for a non-positive gross.
   */
  function CalculateTaxDetails(bs: seq<Bracket>, monthlyGross: real, statusCode: string): (r: Result<TaxDetails, PyError>)
    ensures r.Err? <==> FamilyChargeReduction(statusCode).Err?
    ensures r.Ok? ==>
      var reduction := FamilyChargeReduction(statusCode).value;
      && r.value.statusCode == statusCode
      && r.value.familyReductionRate == reduction
      && r.value.monthlyTax == MonthlyTax(bs, monthlyGross, reduction)
      && r.value.monthlyGross == Round2(monthlyGross)
      && r.value.annualGross == Round2(monthlyGross * 12.0)
      && r.value.annualTaxable == Round2(TaxableBase(monthlyGross, reduction))
      && r.value.annualTax == AnnualTax(bs, TaxableBase(monthlyGross, reduction))
      && r.value.effectiveTaxRate == EffectiveRate(AnnualTax(bs, TaxableBase(monthlyGross, reduction)) / 12.0, monthlyGross)
  {
    var reduction := FamilyChargeReduction(statusCode);
    if reduction.Err? then Err(reduction.error)
    else Ok(DetailsAt(bs, monthlyGross, statusCode, reduction.value))
  }

  /** The dictionary for a reduction already looked up (never negative). */
  function DetailsAt(bs: seq<Bracket>, monthlyGross: real, statusCode: string, reduction: real): (d: TaxDetails)
    requires 0.0 <= reduction
    ensures d.statusCode == statusCode && d.familyReductionRate == reduction
    ensures d.monthlyTax == MonthlyTax(bs, monthlyGross, reduction)
    ensures d.monthlyGross == Round2(monthlyGross) && d.annualGross == Round2(monthlyGross * 12.0)
    ensures d.annualTaxable == Round2(TaxableBase(monthlyGross, reduction))
    ensures d.annualTax == AnnualTax(bs, TaxableBase(monthlyGross, reduction))
    ensures d.effectiveTaxRate == EffectiveRate(AnnualTax(bs, TaxableBase(monthlyGross, reduction)) / 12.0, monthlyGross)
  {
    var annualGross := monthlyGross * 12.0;
    var annualTaxable := annualGross * (1.0 - reduction);
    var annualTax := AnnualTax(bs, annualTaxable);
    var monthlyTax := annualTax / 12.0;
    DetailsTaxes(bs, monthlyGross, reduction, annualTaxable);
    TaxDetails(
      Round2(monthlyGross),
      Round2(annualGross),
      statusCode,
      reduction,
      Round2(annualTaxable),
      Round2(annualTax),
      Round2(monthlyTax),
      EffectiveRate(monthlyTax, monthlyGross))
  }

  /** `effective_tax_rate`: the unrounded monthly tax as a percentage of a positive gross, rounded; 0 otherwise. */
  function EffectiveRate(monthlyTax: real, monthlyGross: real): (r: real)
    ensures monthlyGross <= 0.0 ==> r == 0.0
    ensures 0.0 <= monthlyTax <= monthlyGross ==> 0.0 <= r <= 100.0
  {
    if monthlyGross > 0.0 then Round2(monthlyTax / monthlyGross * 100.0) else 0.0
  }

  /** Applying a non-negative reduction unconditionally gives the same base as the guarded form, which skips a zero one. */
  lemma TaxableBaseUnreduced(monthlyGross: real, reduction: real)
    requires 0.0 <= reduction
    ensures monthlyGross * 12.0 * (1.0 - reduction) == TaxableBase(monthlyGross, reduction)
  {
    if reduction == 0.0 {
      assert 1.0 - reduction == 1.0;
    }
  }

  /** The two taxes of the details record, computed on the base with the reduction applied unconditionally. */
  lemma DetailsTaxes(bs: seq<Bracket>, monthlyGross: real, reduction: real, annualTaxable: real)
    requires 0.0 <= reduction && annualTaxable == monthlyGross * 12.0 * (1.0 - reduction)
    ensures Round2(AnnualTax(bs, annualTaxable)) == AnnualTax(bs, TaxableBase(monthlyGross, reduction))
    ensures Round2(AnnualTax(bs, annualTaxable) / 12.0) == MonthlyTax(bs, monthlyGross, reduction)
  {
    TaxableBaseUnreduced(monthlyGross, reduction);
    AnnualTaxIsCents(bs, annualTaxable);
  }

  /** The annual tax is already rounded to the cent, so rounding it again changes nothing. */
  lemma AnnualTaxIsCents(bs: seq<Bracket>, income: real)
    ensures Round2(AnnualTax(bs, income)) == AnnualTax(bs, income)
  {
    if income > 0.0 {
      RoundIdempotent(TaxSum(bs, income));
    } else {
      RoundOfCents(0.0);
    }
  }

  /** The monthly tax is already rounded to the cent. */
  lemma MonthlyTaxIsCents(bs: seq<Bracket>, gross: real, reduction: real)
    ensures Round2(MonthlyTax(bs, gross, reduction)) == MonthlyTax(bs, gross, reduction)
  {
    RoundIdempotent(AnnualTax(bs, TaxableBase(gross, reduction)) / 12.0);
  }

  /** `calculate_income_tax`: the monthly tax under the default schedule at the code's reduction. */
  function CalculateIncomeTax(monthlyGross: real, statusCode: string): (r: Result<real, PyError>)
    ensures r.Err? <==> statusCode != "" && AllSpace(statusCode)
    ensures r.Ok? ==> r.value == CalculateTaxDetails(DefaultBrackets, monthlyGross, statusCode).value.monthlyTax
  {
    match FamilyChargeReduction(statusCode)
    case Err(e) => Err(e)
    case Ok(reduction) => Ok(MonthlyTax(DefaultBrackets, monthlyGross, reduction))
  }
}
