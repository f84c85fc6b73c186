/**
 * The taxpayer: holds incomes and general deductions, and computes the tax
 * as one flat bracket rate times the net income, plus a surcharge on large
 * amounts.
 */
module Taxation {
  import opened IncomeSources
  import opened TaxBrackets

  /** Tax at or above this amount attracts the surcharge. */
  const SurchargeThreshold: real := 1000000.0
  /** The surcharge, as a share of the tax. */
  const SurchargeRate: real := 0.1

  /** Adds the surcharge to a tax that reaches the threshold. */
  function WithSurcharge(tax: real): (r: real)
    ensures tax >= SurchargeThreshold ==> r == tax * 1.1
    ensures tax < SurchargeThreshold ==> r == tax
    ensures tax >= 0.0 ==> r >= tax
  {
    if tax >= SurchargeThreshold then tax + tax * SurchargeRate else tax
  }

  /** The tax owed on a given net income. */
  function TaxOn(net: real): (tax: real)
    ensures tax >= 0.0
    ensures net <= 300000.0 ==> tax == 0.0
  {
    var base := RateFor(net) * net;
    assert base >= 0.0 by {
      if net > 0.0 {
        assert RateFor(net) >= 0.0;
      }
    }
    WithSurcharge(base)
  }

  /** A larger net income never owes less tax. */
  lemma TaxMonotone(a: real, b: real)
    requires a <= b
    ensures TaxOn(a) <= TaxOn(b)
  {
    RateMonotone(a, b);
    if a > 300000.0 {
      var ra, rb := RateFor(a), RateFor(b);
      assert 0.0 <= ra <= rb;
      assert ra * a <= rb * a <= rb * b;
    }
  }

  /** A non-negative general deduction never raises the tax. */
  lemma DeductionNeverRaisesTax(net: real, d: real)
    requires d >= 0.0
    ensures TaxOn(net - d) <= TaxOn(net)
  {
    TaxMonotone(net - d, net);
  }

  class Taxpayer {
    /** The incomes in the order they were added. */
    var incomes: seq<IncomeSource>
    /** Total of the general deductions added so far. */
    var generalDeductions: real

    /** A new taxpayer has no incomes and no deductions. */
    constructor ()
      ensures incomes == [] && generalDeductions == 0.0
      ensures TaxableIncome() == 0.0
    {
      incomes := [];
      generalDeductions := 0.0;
    }

    /** Sum of the taxable amounts of every income held. */
    function TaxableIncome(): (r: real)
      reads this
      ensures (forall i :: 0 <= i < |incomes| ==> incomes[i].Valid() && !incomes[i].Salary?) ==> r >= 0.0
    {
      SumTaxable(incomes)
    }

    /** Taxable income less the general deductions; may be negative. */
    function NetIncome(): (r: real)
      reads this
      ensures generalDeductions >= 0.0 ==> r <= TaxableIncome()
      ensures generalDeductions < 0.0 ==> r > TaxableIncome()
    {
      TaxableIncome() - generalDeductions
    }

    /** Records one more income; nothing is validated here. */
    method AddIncome(income: IncomeSource)
      modifies this
      ensures incomes == old(incomes) + [income]
      ensures generalDeductions == old(generalDeductions)
      ensures TaxableIncome() == old(TaxableIncome()) + TaxableAmount(income)
    {
      SumTaxableSnoc(incomes, income);
      incomes := incomes + [income];
    }

    /** Accumulates a general deduction; its sign is not checked. */
    method AddGeneralDeduction(amount: real)
      modifies this
      ensures generalDeductions == old(generalDeductions) + amount
      ensures incomes == old(incomes)
      ensures NetIncome() == old(NetIncome()) - amount
    {
      generalDeductions := generalDeductions + amount;
    }

    /** The tax payable: the bracket rate times the net income, with the surcharge when due. */
    method CalculateTax() returns (tax: real)
      ensures tax == TaxOn(NetIncome())
      ensures tax >= 0.0
    {
      var taxableIncome := TaxableIncome();
      var netIncome := taxableIncome - generalDeductions;
      var taxRate := GetTaxRate(netIncome);
      tax := taxRate * netIncome;
      if tax >= SurchargeThreshold {
        tax := tax + tax * SurchargeRate;
      }
    }
  }

  /**
   * The worked example: a salary of 1,200,000 with 30,000 provident fund
   * and 10,000 group insurance, rent of 250,000 and dividends of 10,000,
   * no general deduction.
   */
  method DemoScenario() returns (taxableIncome: real, tax: real)
    ensures taxableIncome == 1360000.0
    ensures tax == 340000.0
  {
    var taxpayer := new Taxpayer();
    var salary := NewSalary(1200000.0, 30000.0, 10000.0);
    var rental := NewRental(250000.0);
    var dividend := NewDividend(10000.0);
    taxpayer.AddIncome(salary.value);
    taxpayer.AddIncome(rental.value);
    taxpayer.AddIncome(dividend.value);
    taxpayer.AddGeneralDeduction(0.0);
    taxableIncome := taxpayer.TaxableIncome();
    assert taxpayer.NetIncome() == 1360000.0;
    RateForIsStatutory(1360000.0);
    tax := taxpayer.CalculateTax();
  }
}
