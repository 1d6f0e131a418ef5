/**
 The profit calculators: which inputs a metric reads, the check that they arrive in order, and results rounded half up
 to six places. Decimal arithmetic before rounding is taken to be exact. A fiscal year `FYnnnn` is its number.
 */
module Calculations {
  import opened Wrappers

  datatype Metric =
    | FinancialMetric | EbitdaMargin | RevenueGrowth | NetProfitMargin | DebtToEquity | CashRunway | Cagr

  datatype Error = InputsInvalid | DivisionByZero

  /** What an input is about; the dictionaries of the calculators are keyed by this. */
  datatype Key = Key(name: string, period: int)

  datatype Spec = Spec(sheet: string, name: string, period: int, unit: string)

  datatype Input = Input(name: string, period: int, value: real)

  const REVENUE := "Revenue"
  const COGS := "Cost of Goods Sold"
  const OPEX := "Operating Expenses (excl. D&A)"
  const DEPRECIATION := "Depreciation & Amortization"
  const INTEREST := "Interest Expense"
  const TAX := "Tax Expense"
  const ASSETS := ["Cash and Cash Equivalents", "Accounts Receivable", "Inventory / Prepaid Assets",
                   "Property, Plant & Equipment"]
  const LIABILITIES := ["Bank Debt", "Accounts Payable", "Other Liabilities"]
  const CASH := ["Opening Cash", "Operating Cash Flow", "Capital Expenditure", "Financing Cash Flow"]
  const BURN := "Stress-case Monthly Burn"
  const CRORE := "INR crore"

  function KeysOf(names: seq<string>, period: int): (keys: seq<Key>)
    ensures |keys| == |names| && forall i :: 0 <= i < |names| ==> keys[i] == Key(names[i], period)
  {
    seq(|names|, i requires 0 <= i < |names| => Key(names[i], period))
  }

  function RequiredInputs(metric: Metric, period: int): Result<seq<Key>, Error> {
    match metric
    case FinancialMetric => Err(InputsInvalid)
    case EbitdaMargin => Ok(KeysOf([REVENUE, COGS, OPEX], period))
    case RevenueGrowth => Ok([Key(REVENUE, period - 1), Key(REVENUE, period)])
    case Cagr => Ok([Key(REVENUE, period - 1), Key(REVENUE, period)])
    case DebtToEquity => Ok(KeysOf(ASSETS + LIABILITIES, period))
    case CashRunway => Ok(KeysOf(CASH + [BURN], period))
    case NetProfitMargin => Ok(KeysOf([REVENUE, COGS, OPEX, DEPRECIATION, INTEREST, TAX], period))
  }

  function SpecsOf(sheet: string, names: seq<string>, period: int): (specs: seq<Spec>)
    ensures |specs| == |names|
    ensures forall i :: 0 <= i < |names| ==> specs[i].name == names[i] && specs[i].period == period
  {
    seq(|names|, i requires 0 <= i < |names| =>
      Spec(sheet, names[i], period, if names[i] == BURN then "INR crore/month" else CRORE))
  }

  /** What the repository loads for a metric. */
  function Specs(metric: Metric, period: int): Result<seq<Spec>, Error> {
    match metric
    case EbitdaMargin => Ok(SpecsOf("P&L", [REVENUE, COGS, OPEX], period))
    case RevenueGrowth => Ok([Spec("P&L", REVENUE, period - 1, CRORE), Spec("P&L", REVENUE, period, CRORE)])
    case Cagr => Ok([Spec("P&L", REVENUE, period - 1, CRORE), Spec("P&L", REVENUE, period, CRORE)])
    case NetProfitMargin => Ok(SpecsOf("P&L", [REVENUE, COGS, OPEX, DEPRECIATION, INTEREST, TAX], period))
    case DebtToEquity => Ok(SpecsOf("Balance Sheet", ASSETS + LIABILITIES, period))
    case CashRunway => Ok(SpecsOf("Cash Flow", CASH + [BURN], period))
    case FinancialMetric => Err(InputsInvalid)
  }

  // ---------------------------------------------------------------- the input check

  /** The dictionary of values; a repeated key keeps its first place and its last value. */
  function Values(inputs: seq<Input>): map<Key, real> {
    if inputs == [] then map[]
    else
      var last := inputs[|inputs| - 1];
      Values(inputs[..|inputs| - 1])[Key(last.name, last.period) := last.value]
  }

  /** The keys of that dictionary in their order. */
  function Order(inputs: seq<Input>): seq<Key> {
    if inputs == [] then []
    else
      var front, key := Order(inputs[..|inputs| - 1]), Key(inputs[|inputs| - 1].name, inputs[|inputs| - 1].period);
      if key in front then front else front + [key]
  }

  function InputKeys(inputs: seq<Input>): seq<Key> {
    seq(|inputs|, i requires 0 <= i < |inputs| => Key(inputs[i].name, inputs[i].period))
  }

  predicate Checked(expected: seq<Key>, inputs: seq<Input>) {
    |Order(inputs)| == |inputs| && Order(inputs) == expected
  }

  predicate Distinct(keys: seq<Key>) {
    forall i, j :: 0 <= i < j < |keys| ==> keys[i] != keys[j]
  }

  lemma DistinctSnoc(keys: seq<Key>, key: Key)
    ensures Distinct(keys + [key]) <==> Distinct(keys) && key !in keys
  {
    var all := keys + [key];
    if Distinct(all) {
      forall i, j | 0 <= i < j < |keys| ensures keys[i] != keys[j] {
        assert all[i] != all[j];
      }
      forall i | 0 <= i < |keys| ensures keys[i] != key {
        assert all[i] != all[|keys|];
      }
    }
  }

  lemma {:induction false} OrderIsKeys(inputs: seq<Input>)
    ensures Order(inputs) == InputKeys(inputs) <==> Distinct(InputKeys(inputs))
    ensures |Order(inputs)| <= |inputs| && (|Order(inputs)| == |inputs| ==> Order(inputs) == InputKeys(inputs))
  {
    if inputs != [] {
      var front, n := inputs[..|inputs| - 1], |inputs| - 1;
      OrderIsKeys(front);
      var keys := InputKeys(inputs);
      assert InputKeys(front) == keys[..n];
      assert keys == keys[..n] + [keys[n]];
      DistinctSnoc(keys[..n], keys[n]);
      if |Order(inputs)| == |inputs| {
        assert |Order(front)| == n;
      }
    }
  }

  /** The check admits the inputs whose keys are exactly the expected ones, in order and without repetition. */
  lemma CheckedExactly(expected: seq<Key>, inputs: seq<Input>)
    requires Distinct(expected)
    ensures Checked(expected, inputs) <==> InputKeys(inputs) == expected
  {
    OrderIsKeys(inputs);
  }

  lemma RequiredDistinct(metric: Metric, period: int)
    requires metric != FinancialMetric
    ensures RequiredInputs(metric, period).Ok? && Distinct(RequiredInputs(metric, period).value)
  {
    DistinctNames();
  }

  predicate DistinctList(names: seq<string>) {
    forall i, j :: 0 <= i < j < |names| ==> names[i] != names[j]
  }

  lemma DistinctNames()
    ensures DistinctList([REVENUE, COGS, OPEX]) && DistinctList([REVENUE, COGS, OPEX, DEPRECIATION, INTEREST, TAX])
    ensures DistinctList(ASSETS + LIABILITIES) && DistinctList(CASH + [BURN])
  {
    assert |REVENUE| == 7 && |COGS| == 18 && |OPEX| == 30 && |DEPRECIATION| == 27 && |INTEREST| == 16 && |TAX| == 11;
    assert ASSETS + LIABILITIES == [ASSETS[0], ASSETS[1], ASSETS[2], ASSETS[3], LIABILITIES[0], LIABILITIES[1], LIABILITIES[2]];
    assert |ASSETS[0]| == 25 && |ASSETS[1]| == 19 && |ASSETS[2]| == 26 && |ASSETS[3]| == 27;
    assert |LIABILITIES[0]| == 9 && |LIABILITIES[1]| == 16 && |LIABILITIES[2]| == 17;
    assert CASH + [BURN] == [CASH[0], CASH[1], CASH[2], CASH[3], BURN];
    assert |CASH[0]| == 12 && |CASH[1]| == 19 && |CASH[2]| == 19 && |CASH[3]| == 19 && |BURN| == 24;
    assert CASH[1][0] == 'O' && CASH[2][0] == 'C' && CASH[3][0] == 'F';
  }

  /** Inputs loaded for the specifications of a metric, in their order. */
  predicate LoadedFor(specs: seq<Spec>, inputs: seq<Input>) {
    |inputs| == |specs| && forall i :: 0 <= i < |specs| ==> inputs[i].name == specs[i].name && inputs[i].period == specs[i].period
  }

  /** Whatever the loaded values, inputs in the repository's order pass the calculator's check. */
  lemma LoadedPasses(metric: Metric, period: int, inputs: seq<Input>)
    requires Specs(metric, period).Ok? && LoadedFor(Specs(metric, period).value, inputs)
    ensures RequiredInputs(metric, period).Ok? && Checked(RequiredInputs(metric, period).value, inputs)
  {
    RequiredDistinct(metric, period);
    var expected := RequiredInputs(metric, period).value;
    assert InputKeys(inputs) == expected;
    CheckedExactly(expected, inputs);
  }

  // ---------------------------------------------------------------- rounding

  const SCALE: real := 1000000.0
  const HALF_UNIT: real := 0.0000005

  /** `quantize(0.000001, ROUND_HALF_UP)`: ties go away from zero. */
  function Quantize(x: real): real {
    if x >= 0.0 then (x * SCALE + 0.5).Floor as real / SCALE else -((-x * SCALE + 0.5).Floor as real / SCALE)
  }

  function Abs(x: real): real {
    if x < 0.0 then -x else x
  }

  /** A multiple of 0.000001. */
  predicate OnGrid(y: real) {
    (y * SCALE).Floor as real == y * SCALE
  }

  lemma GridPoint(k: int)
    ensures OnGrid(k as real / SCALE) && k as real / SCALE * SCALE == k as real
  {
  }

  lemma QuantizeClose(x: real)
    ensures Abs(Quantize(x) - x) <= HALF_UNIT && OnGrid(Quantize(x)) && Quantize(-x) == -Quantize(x)
    ensures x >= 0.0 ==> Quantize(x) >= 0.0 && Quantize(x) - x > -HALF_UNIT
  {
    var k := (Abs(x) * SCALE + 0.5).Floor;
    GridPoint(k);
    GridPoint(-k);
    assert k as real <= Abs(x) * SCALE + 0.5 < k as real + 1.0;
    var q := k as real / SCALE;
    assert q * SCALE == k as real;
    assert Abs(x) - HALF_UNIT < q <= Abs(x) + HALF_UNIT;
  }

  /** No multiple of the unit is nearer, and among two equally near ones the one farther from zero is taken. */
  lemma QuantizeNearest(x: real, k: int)
    ensures var y := k as real / SCALE;
            && Abs(Quantize(x) - x) <= Abs(y - x)
            && (Abs(Quantize(x) - x) == Abs(y - x) ==> Abs(y) <= Abs(Quantize(x)))
  {
    var m := (Abs(x) * SCALE + 0.5).Floor;
    var j := if x >= 0.0 then k else -k;
    var a := Abs(x) * SCALE;
    assert m as real <= a + 0.5 < m as real + 1.0;
    NearestGrid(a, m, j);
    var y, q := k as real / SCALE, Quantize(x);
    assert q * SCALE == if x >= 0.0 then m as real else -(m as real);
    assert y * SCALE == k as real;
    assert Abs(q - x) * SCALE == Abs(m as real - a);
    assert Abs(y - x) * SCALE == Abs(j as real - a);
    assert Abs(y) * SCALE == Abs(j as real) && Abs(q) * SCALE == Abs(m as real);
  }

  lemma NearestGrid(a: real, m: int, j: int)
    requires a >= 0.0 && m as real <= a + 0.5 < m as real + 1.0
    ensures Abs(m as real - a) <= Abs(j as real - a)
    ensures Abs(m as real - a) == Abs(j as real - a) ==> Abs(j as real) <= Abs(m as real)
  {
    if j > m {
      assert j as real >= m as real + 1.0;
    } else if j < m {
      assert j as real <= m as real - 1.0;
    }
  }

  // ---------------------------------------------------------------- calculators

  /** A quotient and whether it is a percentage. */
  datatype Ratio = Ratio(numerator: real, denominator: real, percent: bool)

  function At(values: map<Key, real>, name: string, period: int): real {
    if Key(name, period) in values then values[Key(name, period)] else 0.0
  }

  /** Revenue less the costs that the profit is after. */
  function Profit(values: map<Key, real>, net: bool, period: int): real {
    var ebitda := At(values, REVENUE, period) - At(values, COGS, period) - At(values, OPEX, period);
    if net then ebitda - At(values, DEPRECIATION, period) - At(values, INTEREST, period) - At(values, TAX, period)
    else ebitda
  }

  function Total(values: map<Key, real>, names: seq<string>, period: int): real {
    if names == [] then 0.0 else Total(values, names[..|names| - 1], period) + At(values, names[|names| - 1], period)
  }

  /** The quotient a metric stands for; the inputs were checked before. */
  function RatioOf(metric: Metric, values: map<Key, real>, period: int): Result<Ratio, Error>
    requires metric != FinancialMetric
  {
    match metric
    case RevenueGrowth =>
      var prior, current := At(values, REVENUE, period - 1), At(values, REVENUE, period);
      Ok(Ratio(current - prior, prior, true))
    case Cagr =>
      var prior, current := At(values, REVENUE, period - 1), At(values, REVENUE, period);
      if prior <= 0.0 then Err(InputsInvalid) else Ok(Ratio(current / prior - 1.0, 1.0, true))
    case DebtToEquity =>
      Ok(Ratio(At(values, LIABILITIES[0], period), Total(values, ASSETS, period) - Total(values, LIABILITIES, period), false))
    case CashRunway => Ok(Ratio(Total(values, CASH, period), At(values, BURN, period), false))
    case EbitdaMargin => Ok(Ratio(Profit(values, false, period), At(values, REVENUE, period), true))
    case NetProfitMargin => Ok(Ratio(Profit(values, true, period), At(values, REVENUE, period), true))
  }

  function Calculate(metric: Metric, period: int, inputs: seq<Input>): Result<real, Error> {
    var expected := RequiredInputs(metric, period);
    if expected.Err? || !Checked(expected.value, inputs) then Err(InputsInvalid)
    else
      var ratio := RatioOf(metric, Values(inputs), period);
      if ratio.Err? then Err(ratio.error)
      else if ratio.value.denominator == 0.0 then Err(DivisionByZero)
      else
        Ok(Quantize(ratio.value.numerator / ratio.value.denominator * (if ratio.value.percent then 100.0 else 1.0)))
  }

  /** The profit itself, after the margin calculator accepted the inputs. */
  function DerivedProfit(net: bool, period: int, inputs: seq<Input>): Result<real, Error> {
    var margin := Calculate(if net then NetProfitMargin else EbitdaMargin, period, inputs);
    if margin.Err? then margin
    else Ok(Quantize(Profit(Values(inputs), net, period)))
  }

  /** The rounded margin of a revenue gives back the rounded profit, up to what the two roundings can do. */
  predicate Consistent(margin: real, revenue: real, profit: real) {
    Abs(margin * revenue / 100.0 - profit) <= Abs(revenue) * 0.000000005 + 0.0000005
  }

  lemma MarginArithmetic(n: real, r: real, m: real, p: real)
    requires r != 0.0 && Abs(m - n / r * 100.0) <= HALF_UNIT && Abs(p - n) <= HALF_UNIT
    ensures Consistent(m, r, p)
  {
    var e := m - n / r * 100.0;
    assert n / r * r == n;
    assert m * r == (n / r) * r * 100.0 + e * r;
    assert m * r / 100.0 - n == e * r / 100.0;
    ScaledError(e, r);
  }

  lemma ScaledError(e: real, r: real)
    requires Abs(e) <= HALF_UNIT
    ensures Abs(e * r / 100.0) <= Abs(r) * 0.000000005
  {
    if r >= 0.0 {
      assert -HALF_UNIT * r <= e * r <= HALF_UNIT * r;
    } else {
      assert HALF_UNIT * r <= e * r <= -HALF_UNIT * r;
    }
  }

  /** The profit, read off the loaded rows by position. */
  function LoadedProfit(net: bool, inputs: seq<Input>): real
    requires |inputs| == if net then 6 else 3
  {
    var ebitda := inputs[0].value - inputs[1].value - inputs[2].value;
    if net then ebitda - (inputs[3].value + inputs[4].value + inputs[5].value) else ebitda
  }

  lemma {:induction false} ProfitByPosition(net: bool, period: int, inputs: seq<Input>)
    requires LoadedFor(Specs(if net then NetProfitMargin else EbitdaMargin, period).value, inputs)
    ensures |inputs| == if net then 6 else 3
    ensures Profit(Values(inputs), net, period) == LoadedProfit(net, inputs)
    ensures At(Values(inputs), REVENUE, period) == inputs[0].value
  {
    hide Values, Order, Checked;
    var metric := if net then NetProfitMargin else EbitdaMargin;
    LoadedPasses(metric, period, inputs);
    var keys := RequiredInputs(metric, period).value;
    LoadedValue(keys, inputs, 0);
    LoadedValue(keys, inputs, 1);
    LoadedValue(keys, inputs, 2);
    if net {
      LoadedValue(keys, inputs, 3);
      LoadedValue(keys, inputs, 4);
      LoadedValue(keys, inputs, 5);
    }
  }

  /**
   For inputs as the repository loads them: margin and profit are both available exactly when revenue is not zero. Then
   the profit is revenue less all loaded costs, rounded, and the rounded margin applied to revenue gives the rounded
   profit up to |revenue| * 5e-9 + 5e-7.
   */
  lemma MarginAgreesWithProfit(net: bool, period: int, inputs: seq<Input>)
    requires LoadedFor(Specs(if net then NetProfitMargin else EbitdaMargin, period).value, inputs)
    ensures |inputs| == if net then 6 else 3
    ensures var margin := Calculate(if net then NetProfitMargin else EbitdaMargin, period, inputs);
            var profit, r := DerivedProfit(net, period, inputs), inputs[0].value;
            if r == 0.0 then margin == Err(DivisionByZero) && profit == Err(DivisionByZero)
            else margin.Ok? && profit.Ok? && Consistent(margin.value, r, profit.value) &&
                 Abs(profit.value - LoadedProfit(net, inputs)) <= HALF_UNIT
  {
    hide Quantize, Consistent, Values, Order, Profit;
    var metric := if net then NetProfitMargin else EbitdaMargin;
    LoadedPasses(metric, period, inputs);
    ProfitByPosition(net, period, inputs);
    var r := At(Values(inputs), REVENUE, period);
    if r != 0.0 {
      var n := Profit(Values(inputs), net, period);
      QuantizeClose(n / r * 100.0);
      QuantizeClose(n);
      MarginArithmetic(n, r, Quantize(n / r * 100.0), Quantize(n));
      assert Calculate(metric, period, inputs) == Ok(Quantize(n / r * 100.0));
      assert DerivedProfit(net, period, inputs) == Ok(Quantize(n));
    }
  }

  /** The result times the denominator gives the numerator, up to what rounding can do. */
  predicate Quotient(result: real, numerator: real, denominator: real) {
    Abs(result * denominator - numerator) <= Abs(denominator) * HALF_UNIT
  }

  lemma QuotientRounded(n: real, d: real)
    requires d != 0.0
    ensures Quotient(Quantize(n / d * 1.0), n, d)
  {
    hide Quantize;
    QuantizeClose(n / d * 1.0);
    var e := Quantize(n / d * 1.0) - n / d;
    assert n / d * d == n;
    assert Quantize(n / d * 1.0) * d - n == e * d;
    ScaledError(e, d);
    assert e * d / 100.0 * 100.0 == e * d;
  }

  /** Months of runway: closing cash over monthly burn, the fifth loaded row. */
  lemma RunwayByPosition(period: int, inputs: seq<Input>)
    requires LoadedFor(Specs(CashRunway, period).value, inputs)
    ensures |inputs| == 5
    ensures var r := Calculate(CashRunway, period, inputs);
            var closing := inputs[0].value + inputs[1].value + inputs[2].value + inputs[3].value;
            if inputs[4].value == 0.0 then r == Err(DivisionByZero) else r.Ok? && Quotient(r.value, closing, inputs[4].value)
  {
    hide Values, Order, Checked, Quantize, Quotient;
    LoadedPasses(CashRunway, period, inputs);
    var keys := RequiredInputs(CashRunway, period).value;
    LoadedValue(keys, inputs, 0);
    LoadedValue(keys, inputs, 1);
    LoadedValue(keys, inputs, 2);
    LoadedValue(keys, inputs, 3);
    LoadedValue(keys, inputs, 4);
    TotalOfFour(Values(inputs), CASH, period);
    if inputs[4].value != 0.0 {
      QuotientRounded(Total(Values(inputs), CASH, period), inputs[4].value);
    }
  }

  /** Leverage: bank debt, the fifth loaded row, over assets less liabilities. */
  lemma LeverageByPosition(period: int, inputs: seq<Input>)
    requires LoadedFor(Specs(DebtToEquity, period).value, inputs)
    ensures |inputs| == 7
    ensures var r := Calculate(DebtToEquity, period, inputs);
            var equity := inputs[0].value + inputs[1].value + inputs[2].value + inputs[3].value
                          - (inputs[4].value + inputs[5].value + inputs[6].value);
            if equity == 0.0 then r == Err(DivisionByZero) else r.Ok? && Quotient(r.value, inputs[4].value, equity)
  {
    hide Values, Order, Checked, Quantize, Quotient, Total;
    LoadedPasses(DebtToEquity, period, inputs);
    EquityByPosition(period, inputs);
    var values := Values(inputs);
    var equity := Total(values, ASSETS, period) - Total(values, LIABILITIES, period);
    if equity != 0.0 {
      QuotientRounded(inputs[4].value, equity);
    }
  }

  lemma {:induction false} EquityByPosition(period: int, inputs: seq<Input>)
    requires LoadedFor(Specs(DebtToEquity, period).value, inputs)
    ensures |inputs| == 7 && At(Values(inputs), LIABILITIES[0], period) == inputs[4].value
    ensures Total(Values(inputs), ASSETS, period) == inputs[0].value + inputs[1].value + inputs[2].value + inputs[3].value
    ensures Total(Values(inputs), LIABILITIES, period) == inputs[4].value + inputs[5].value + inputs[6].value
  {
    hide Values, Order, Checked, At, Total;
    LoadedPasses(DebtToEquity, period, inputs);
    var keys := RequiredInputs(DebtToEquity, period).value;
    var values := Values(inputs);
    forall i | 0 <= i < 7 ensures At(values, (ASSETS + LIABILITIES)[i], period) == inputs[i].value {
      LoadedValue(keys, inputs, i);
    }
    assert forall i :: 0 <= i < 4 ==> (ASSETS + LIABILITIES)[i] == ASSETS[i];
    assert forall i :: 0 <= i < 3 ==> (ASSETS + LIABILITIES)[4 + i] == LIABILITIES[i];
    TotalOfFour(values, ASSETS, period);
    TotalOfThree(values, LIABILITIES, period);
  }

  lemma {:induction false} TotalOfThree(values: map<Key, real>, names: seq<string>, period: int)
    requires |names| == 3
    ensures Total(values, names, period) == At(values, names[0], period) + At(values, names[1], period) + At(values, names[2], period)
  {
    hide At;
    assert names[..2][..1][..0] == [] && names[..2][..1] == names[..1];
    assert Total(values, names[..1], period) == At(values, names[0], period);
    assert Total(values, names[..2], period) == Total(values, names[..1], period) + At(values, names[1], period);
  }

  lemma {:induction false} TotalOfFour(values: map<Key, real>, names: seq<string>, period: int)
    requires |names| == 4
    ensures Total(values, names, period)
         == At(values, names[0], period) + At(values, names[1], period) + At(values, names[2], period) + At(values, names[3], period)
  {
    hide At;
    TotalOfThree(values, names[..3], period);
  }

  /** Checked inputs are read back by their keys. */
  lemma {:induction false} LoadedValue(expected: seq<Key>, inputs: seq<Input>, i: nat)
    requires Checked(expected, inputs) && i < |inputs|
    ensures |expected| == |inputs| && At(Values(inputs), expected[i].name, expected[i].period) == inputs[i].value
  {
    OrderIsKeys(inputs);
    ValuesDistinct(inputs, i);
    assert expected[i] == InputKeys(inputs)[i] == Key(inputs[i].name, inputs[i].period);
  }

  lemma {:induction false} ValuesDistinct(inputs: seq<Input>, i: nat)
    requires Distinct(InputKeys(inputs)) && i < |inputs|
    ensures Key(inputs[i].name, inputs[i].period) in Values(inputs)
    ensures Values(inputs)[Key(inputs[i].name, inputs[i].period)] == inputs[i].value
  {
    var n := |inputs| - 1;
    if i < n {
      var keys := InputKeys(inputs);
      assert InputKeys(inputs[..n]) == keys[..n];
      assert keys[i] != keys[n];
      ValuesDistinct(inputs[..n], i);
    }
  }

  /** Growth over one year: the two calculators agree where revenue was positive and differ in how they refuse. */
  lemma GrowthIsCagr(period: int, inputs: seq<Input>)
    requires LoadedFor(Specs(Cagr, period).value, inputs)
    ensures var growth, cagr, prior := Calculate(RevenueGrowth, period, inputs), Calculate(Cagr, period, inputs), inputs[0].value;
            && (cagr.Ok? <==> prior > 0.0) && (growth.Ok? <==> prior != 0.0)
            && (prior > 0.0 ==> cagr == growth)
            && (cagr.Err? ==> cagr.error == InputsInvalid) && (growth.Err? ==> growth.error == DivisionByZero)
  {
    hide Quantize, Values, Order;
    LoadedPasses(Cagr, period, inputs);
    LoadedPasses(RevenueGrowth, period, inputs);
    LoadedValue(RequiredInputs(Cagr, period).value, inputs, 0);
    var prior, current := At(Values(inputs), REVENUE, period - 1), At(Values(inputs), REVENUE, period);
    if prior > 0.0 {
      GrowthArithmetic(current, prior);
    }
  }

  lemma GrowthArithmetic(current: real, prior: real)
    requires prior > 0.0
    ensures (current - prior) / prior * 100.0 == (current / prior - 1.0) / 1.0 * 100.0
  {
    assert (current - prior) / prior == current / prior - prior / prior;
  }

  /** The result times the denominator gives a hundred times the numerator, up to what rounding can do. */
  predicate Percentage(result: real, numerator: real, denominator: real) {
    Abs(result * denominator - 100.0 * numerator) <= Abs(denominator) * HALF_UNIT
  }

  lemma PercentageRounded(n: real, d: real)
    requires d != 0.0
    ensures Percentage(Quantize(n / d * 100.0), n, d)
  {
    hide Quantize;
    QuantizeClose(n / d * 100.0);
    var e := Quantize(n / d * 100.0) - n / d * 100.0;
    assert n / d * d == n;
    assert n / d * 100.0 * d == 100.0 * n;
    assert Quantize(n / d * 100.0) * d - 100.0 * n == e * d;
    ScaledError(e, d);
    assert e * d / 100.0 * 100.0 == e * d;
  }

  /** Growth: the change of revenue as a percentage of the prior year's, the first loaded row. */
  lemma GrowthByPosition(period: int, inputs: seq<Input>)
    requires LoadedFor(Specs(RevenueGrowth, period).value, inputs)
    ensures |inputs| == 2
    ensures var r, prior, current := Calculate(RevenueGrowth, period, inputs), inputs[0].value, inputs[1].value;
            if prior == 0.0 then r == Err(DivisionByZero) else r.Ok? && Percentage(r.value, current - prior, prior)
  {
    hide Values, Order, Checked, Quantize, Percentage;
    LoadedPasses(RevenueGrowth, period, inputs);
    var keys := RequiredInputs(RevenueGrowth, period).value;
    LoadedValue(keys, inputs, 0);
    LoadedValue(keys, inputs, 1);
    if inputs[0].value != 0.0 {
      PercentageRounded(inputs[1].value - inputs[0].value, inputs[0].value);
    }
  }

  /** Margins: revenue, the first loaded row, less all loaded costs, as a percentage of revenue. */
  lemma MarginByPosition(net: bool, period: int, inputs: seq<Input>)
    requires LoadedFor(Specs(if net then NetProfitMargin else EbitdaMargin, period).value, inputs)
    ensures |inputs| == if net then 6 else 3
    ensures var r, revenue := Calculate(if net then NetProfitMargin else EbitdaMargin, period, inputs), inputs[0].value;
            var costs := inputs[1].value + inputs[2].value + if net then inputs[3].value + inputs[4].value + inputs[5].value else 0.0;
            if revenue == 0.0 then r == Err(DivisionByZero) else r.Ok? && Percentage(r.value, revenue - costs, revenue)
  {
    hide Values, Order, Checked, Quantize, Percentage, Profit;
    var metric := if net then NetProfitMargin else EbitdaMargin;
    LoadedPasses(metric, period, inputs);
    ProfitByPosition(net, period, inputs);
    if inputs[0].value != 0.0 {
      PercentageRounded(LoadedProfit(net, inputs), inputs[0].value);
    }
  }

  /** A calculator works on its inputs in order or not at all, and refuses what it cannot divide. */
  lemma RefusedExactly(metric: Metric, period: int, inputs: seq<Input>)
    requires metric != FinancialMetric
    ensures RequiredInputs(metric, period).Ok?
    ensures Calculate(metric, period, inputs) == Err(InputsInvalid) <==>
              || InputKeys(inputs) != RequiredInputs(metric, period).value
              || (metric == Cagr && inputs[0].value <= 0.0)
  {
    hide Values, Order, Quantize, Total, Profit, Distinct, KeysOf, At;
    RequiredDistinct(metric, period);
    var keys := RequiredInputs(metric, period).value;
    CheckedExactly(keys, inputs);
    if metric == Cagr && Checked(keys, inputs) {
      LoadedValue(keys, inputs, 0);
    }
  }
}
