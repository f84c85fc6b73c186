# Personal income tax model

A Dafny model of a small personal income-tax calculator. Incomes come in
categories, each with its own rule for turning a raw amount into the figure
added to taxable income:

- a generic income source counts in full;
- a salary counts less its provident-fund (PF) and group-insurance (GIS) contributions;
- rental income counts at 80% (a 20% deduction);
- a dividend contributes 10% of whatever exceeds a 30,000 exemption (already a tax figure, not a base);
- other income counts at 70% (a 30% deduction).

Every income constructor refuses a negative amount. A taxpayer collects
incomes and general deductions. Net income is taxable income minus the
deductions. One flat rate is picked for the whole net income from an
ascending bracket table: 0 up to 300,000, then 10%, 15%, 20% and 25% up to
400,000, 650,000, 1,000,000 and 1,500,000, and 30% above that. The tax is
rate × net income. A tax of 1,000,000 or more gets a 10% surcharge on top.

Files:

- `wrappers.dfy` (module `Wrappers`): `Option`, `Result` and the single error `InvalidAmount`.
- `income.dfy` (module `IncomeSources`): the income datatype, its validating constructors, `TaxableAmount`, and the sum over a sequence of incomes with its lemmas.
- `brackets.dfy` (module `TaxBrackets`): the bracket table, the first-match specification, the scanning method and the schedule lemmas.
- `taxpayer.dfy` (module `Taxation`): the surcharge, the tax on a net income, the `Taxpayer` class and the worked example.

Amounts and rates are exact `real`s. The Python class hierarchy becomes one
datatype with a constructor per category and a single dispatching
`TaxableAmount`. Each Python constructor becomes a function returning
`Result`, with `Err(InvalidAmount)` where Python raises `ValueError`.
`Taxpayer` stays a class whose methods update its fields in place.

## Model

| member | source | states |
|---|---|---|
| IncomeSources.NewIncomeSource | 03230161_CAP2.py:2-9 | succeeds exactly when amount >= 0, otherwise fails with InvalidAmount; the source keeps the amount and its taxable amount is the whole amount |
| IncomeSources.NewSalary | 03230161_CAP2.py:11-17 | succeeds exactly when amount >= 0, with PF and GIS unchecked; taxable amount is amount - (pf + gis), negative when the contributions exceed the amount |
| IncomeSources.NewRental | 03230161_CAP2.py:19-25 | succeeds exactly when the total is >= 0; taxable amount is 80% of the total |
| IncomeSources.NewDividend | 03230161_CAP2.py:27-36 | succeeds exactly when amount >= 0; contributes 0 up to the 30,000 exemption and a tenth of the excess above it |
| IncomeSources.NewOther | 03230161_CAP2.py:38-44 | succeeds exactly when amount >= 0; taxable amount is 70% of the amount |
| IncomeSources.TaxableAmount | 03230161_CAP2.py:8-44 | for a valid non-salary source the taxable amount lies between 0 and the amount; a dividend's is never negative and is 0 up to the exemption |
| IncomeSources.SumTaxable | 03230161_CAP2.py:55-56 | definition: the in-order sum of `TaxableAmount` over the incomes; it is >= 0 when every income is valid and none is a salary |
| IncomeSources.SumTaxableAppend | 03230161_CAP2.py:55-56 | the taxable-income sum splits over concatenation of income lists |
| IncomeSources.SumTaxableSnoc | 03230161_CAP2.py:52-56 | appending one income adds exactly its taxable amount to the sum |
| IncomeSources.SumTaxablePermutation | 03230161_CAP2.py:55-56 | any two income lists with the same elements (as multisets) have the same taxable income, so the order of adding does not matter |
| TaxBrackets.BracketTable | 03230161_CAP2.py:68-74 | the table `Brackets` holds six (limit, rate) pairs; the first five limits are finite and strictly ascending, the last is unbounded, and the rates never decrease |
| TaxBrackets.FirstMatch | 03230161_CAP2.py:75-77 | no rate exactly when no bracket covers the income; otherwise the rate of a covering bracket with no covering bracket before it |
| TaxBrackets.RateFor | 03230161_CAP2.py:67-77 | the scan of the fixed table always finds a rate; the rate is one of 0, 0.1, 0.15, 0.2, 0.25, 0.3, and it is 0 for every net income up to 300,000, negative ones included |
| TaxBrackets.RateForIsStatutory | 03230161_CAP2.py:68-77 | the table scan equals the schedule written threshold by threshold (<= 300,000: 0, <= 400,000: 0.1, ..., above 1,500,000: 0.3) |
| TaxBrackets.RateMonotone | 03230161_CAP2.py:68-77 | the rate never decreases as net income grows |
| TaxBrackets.RateAtLimits | 03230161_CAP2.py:68-77 | each limit belongs to its own bracket: -1 and 300,000 give 0, 300,001 gives 0.1, 650,000 gives 0.15, 1,000,000 gives 0.2, 1,500,000 gives 0.25, 2,000,000 gives 0.3 |
| TaxBrackets.GetTaxRate | 03230161_CAP2.py:67-77 | the loop over the table returns the rate of the first bracket whose limit is >= the net income |
| Taxation.WithSurcharge | 03230161_CAP2.py:63-64 | a tax >= 1,000,000 is multiplied by 1.1 and a smaller one is unchanged; a non-negative tax never decreases |
| Taxation.TaxOn | 03230161_CAP2.py:58-65 | the tax on any net income is >= 0, and 0 when net income is <= 300,000 |
| Taxation.TaxMonotone | 03230161_CAP2.py:58-77 | a larger net income never owes less tax, across bracket edges and the surcharge threshold |
| Taxation.DeductionNeverRaisesTax | 03230161_CAP2.py:58-60 | lowering net income by a non-negative general deduction never raises the tax |
| Taxation.Taxpayer.constructor | 03230161_CAP2.py:47-50 | a new taxpayer has no incomes, zero deductions and zero taxable income |
| Taxation.Taxpayer.TaxableIncome | 03230161_CAP2.py:55-56 | taxable income is `SumTaxable` of the held incomes, so it is >= 0 when every income is valid and none is a salary |
| Taxation.Taxpayer.NetIncome | 03230161_CAP2.py:59-60 | taxable income minus the general deductions, which may be negative; non-negative deductions never make it exceed taxable income, negative ones always do |
| Taxation.Taxpayer.AddIncome | 03230161_CAP2.py:52-53 | appends exactly the given income, leaves the deductions unchanged, and raises taxable income by that income's taxable amount |
| Taxation.Taxpayer.AddGeneralDeduction | 03230161_CAP2.py:79-80 | increases the deductions by exactly the amount, of any sign, leaves the incomes unchanged and lowers net income by the amount |
| Taxation.Taxpayer.CalculateTax | 03230161_CAP2.py:58-65 | returns the tax on the current net income (bracket rate × net, plus the surcharge when due), which is never negative |
| Taxation.DemoScenario | 03230161_CAP2.py:88-99 | salary 1,200,000 with PF 30,000 and GIS 10,000, rent 250,000 and dividends 10,000 give taxable income 1,360,000 and tax 340,000 (rate 0.25, no surcharge) |

## Left out

- The `name` attributes of income sources and of the taxpayer are labels no computation reads, so they are not modelled.
- `get_formatted_tax_output` and the final `print` are left out. They render the tax with thousands separators and two decimals, which is float-to-string output, not tax logic. `CalculateTax` returns the value they would render.
- The module-level demo script is not executable code here. Its numbers are the `DemoScenario` method.
- IEEE binary floating-point rounding is not modelled. Amounts and rates are exact reals, so 0.1, 0.2 and 0.3 mean exactly those values.
- The `float('inf')` limit of the last bracket is the constructor `Limit.Unbounded`, which covers every income.
- TaxBrackets.GetTaxRate does not compare the income against the unbounded last limit. It returns that bracket's rate once the others fail. The Python comparison with infinity is always true, so the result is the same. Python's implicit `None`, returned if no bracket matched, is modelled by `FirstMatch`'s `None`. `RateFor` proves it impossible for the fixed table, and `GetTaxRate` never produces it.
- Income sources are mutable objects held by reference in Python. Changing `salary_income.amount` after `add_income` would change the taxpayer's result. Here an income is an immutable value copied into the taxpayer, so that aliasing is not modelled. The program never mutates an income after adding it, so no behaviour of the code is lost.
- Python's mixing of `int` and `float` values (an integer 0 rate or 0 sum versus a float one) is not distinguished: both are the real 0.
- Quirks of the code are kept as written, not corrected:
  - The salary's taxable amount is not floored at 0.
  - General deductions may be negative, which raises net income.
  - The dividend exemption is 30,000, although the comment beside it says 300,000.
  - The dividend's 10% is applied before the bracket rate, so the dividend is taxed twice.
