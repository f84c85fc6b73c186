/**
 * The income-source hierarchy: a generic income source and its four
 * categories, each turning a raw amount into the figure the taxpayer adds
 * to its taxable income.
 */
module IncomeSources {
  import opened Wrappers

  /** Share of rental income allowed as a deduction for repairs, interest, taxes and insurance. */
  const RentalDeductionRate: real := 0.2
  /** Dividends up to this amount are exempt. */
  const DividendExemption: real := 30000.0
  /** Flat rate withheld on the dividends above the exemption. */
  const DividendTaxRate: real := 0.1
  /** Share of other income allowed as a deduction. */
  const OtherDeductionRate: real := 0.3

  /**
   * One income source. `Generic` is the base class used directly; `Salary`
   * keeps the sum of its provident-fund and group-insurance contributions.
   */
  datatype IncomeSource =
    | Generic(amount: real)
    | Salary(amount: real, deductions: real)
    | Rental(amount: real)
    | Dividend(amount: real)
    | Other(amount: real)
  {
    /** The invariant every constructor establishes. */
    predicate Valid() {
      amount >= 0.0
    }
  }

  /** The base constructor: refuses a negative amount. */
  function NewIncomeSource(amount: real): (r: Result<IncomeSource>)
    ensures r.Ok? <==> amount >= 0.0
    ensures r.Err? ==> r.error == InvalidAmount
    ensures r.Ok? ==> r.value.Valid() && r.value.amount == amount && TaxableAmount(r.value) == amount
  {
    if amount < 0.0 then Err(InvalidAmount) else Ok(Generic(amount))
  }

  /** A salary; the contributions are not checked, only the amount is. */
  function NewSalary(amount: real, pf: real, gis: real): (r: Result<IncomeSource>)
    ensures r.Ok? <==> amount >= 0.0
    ensures r.Err? ==> r.error == InvalidAmount
    ensures r.Ok? ==> r.value.Valid() && r.value.amount == amount
    ensures r.Ok? ==> TaxableAmount(r.value) == amount - (pf + gis)
  {
    if amount < 0.0 then Err(InvalidAmount) else Ok(Salary(amount, pf + gis))
  }

  /** Rental income, given as the total rent received. */
  function NewRental(totalIncome: real): (r: Result<IncomeSource>)
    ensures r.Ok? <==> totalIncome >= 0.0
    ensures r.Err? ==> r.error == InvalidAmount
    ensures r.Ok? ==> r.value.Valid() && r.value.amount == totalIncome
    ensures r.Ok? ==> TaxableAmount(r.value) == totalIncome * 0.8
  {
    if totalIncome < 0.0 then Err(InvalidAmount) else Ok(Rental(totalIncome))
  }

  /** Dividend income. */
  function NewDividend(amount: real): (r: Result<IncomeSource>)
    ensures r.Ok? <==> amount >= 0.0
    ensures r.Err? ==> r.error == InvalidAmount
    ensures r.Ok? ==> r.value.Valid() && r.value.amount == amount
    ensures r.Ok? && amount <= DividendExemption ==> TaxableAmount(r.value) == 0.0
    ensures r.Ok? && amount > DividendExemption ==> TaxableAmount(r.value) == (amount - DividendExemption) / 10.0
  {
    if amount < 0.0 then Err(InvalidAmount) else Ok(Dividend(amount))
  }

  /** Income of any other kind. */
  function NewOther(amount: real): (r: Result<IncomeSource>)
    ensures r.Ok? <==> amount >= 0.0
    ensures r.Err? ==> r.error == InvalidAmount
    ensures r.Ok? ==> r.value.Valid() && r.value.amount == amount
    ensures r.Ok? ==> TaxableAmount(r.value) == amount * 0.7
  {
    if amount < 0.0 then Err(InvalidAmount) else Ok(Other(amount))
  }

  /**
   * The figure each category contributes to taxable income. For a dividend
   * this is already the 10% withheld on the excess over the exemption, not a
   * taxable base.
   */
  function TaxableAmount(s: IncomeSource): (r: real)
    ensures s.Valid() && !s.Salary? ==> 0.0 <= r <= s.amount
    ensures s.Dividend? ==> r >= 0.0
    ensures s.Dividend? && s.amount <= DividendExemption ==> r == 0.0
  {
    match s
    case Generic(amount) => amount
    case Salary(amount, deductions) => amount - deductions
    case Rental(amount) => amount * (1.0 - RentalDeductionRate)
    case Dividend(amount) =>
      var excess := if amount - DividendExemption > 0.0 then amount - DividendExemption else 0.0;
      excess * DividendTaxRate
    case Other(amount) => amount * (1.0 - OtherDeductionRate)
  }

  /**
   * Sum of the taxable amounts of `incomes`, in order. Valid incomes other
   * than salaries never push it below zero.
   */
  function SumTaxable(incomes: seq<IncomeSource>): (r: real)
    ensures (forall i :: 0 <= i < |incomes| ==> incomes[i].Valid() && !incomes[i].Salary?) ==> r >= 0.0
  {
    if incomes == [] then 0.0 else TaxableAmount(incomes[0]) + SumTaxable(incomes[1..])
  }

  /** The sum splits over concatenation. */
  lemma {:induction false} SumTaxableAppend(a: seq<IncomeSource>, b: seq<IncomeSource>)
    ensures SumTaxable(a + b) == SumTaxable(a) + SumTaxable(b)
  {
    if a == [] {
      assert a + b == b;
    } else {
      assert (a + b)[1..] == a[1..] + b;
      SumTaxableAppend(a[1..], b);
    }
  }

  /** Appending one income adds exactly its taxable amount. */
  lemma SumTaxableSnoc(incomes: seq<IncomeSource>, x: IncomeSource)
    ensures SumTaxable(incomes + [x]) == SumTaxable(incomes) + TaxableAmount(x)
  {
    SumTaxableAppend(incomes, [x]);
  }

  /** Taking the element at `i` out of the sum. */
  lemma SumTaxableRemove(s: seq<IncomeSource>, i: nat)
    requires i < |s|
    ensures SumTaxable(s) == TaxableAmount(s[i]) + SumTaxable(s[..i] + s[i + 1..])
  {
    assert s == s[..i] + ([s[i]] + s[i + 1..]);
    SumTaxableAppend(s[..i], [s[i]] + s[i + 1..]);
    SumTaxableAppend(s[..i], s[i + 1..]);
  }

  /** Taxable income does not depend on the order the incomes were added in. */
  lemma {:induction false} SumTaxablePermutation(a: seq<IncomeSource>, b: seq<IncomeSource>)
    requires multiset(a) == multiset(b)
    ensures SumTaxable(a) == SumTaxable(b)
  {
    if a == [] {
      assert |b| == |multiset(b)| == 0;
    } else {
      var x := a[0];
      assert x in multiset(b);
      var i :| 0 <= i < |b| && b[i] == x;
      var rest := b[..i] + b[i + 1..];
      assert b == b[..i] + [x] + b[i + 1..];
      assert multiset(rest) == multiset(b[..i]) + multiset(b[i + 1..]);
      assert multiset(b) == multiset(b[..i]) + multiset{x} + multiset(b[i + 1..]);
      assert a == [x] + a[1..];
      assert multiset(a) == multiset{x} + multiset(a[1..]);
      assert multiset(a[1..]) == multiset(a) - multiset{x};
      assert multiset(rest) == multiset(b) - multiset{x};
      SumTaxableRemove(b, i);
      SumTaxablePermutation(a[1..], rest);
    }
  }
}
