/**
 * The dashboard: the three analytics results, loaded together, and the pie
 * and bar datasets derived from them. Chart rendering is not modelled.
 */
module Dashboard {
  import Seqs
  import Api

  datatype Summary = Summary(totalIncome: real, totalExpense: real, savings: real)
  datatype CategoryTotal = CategoryTotal(category: string, total: real)
  datatype MonthTotals = MonthTotals(month: int, income: real, expense: real)

  const ZERO_SUMMARY := Summary(0.0, 0.0, 0.0)

  const SUMMARY_PATH := "/transactions/analytics/summary"
  const BY_CATEGORY_PATH := "/transactions/analytics/by-category"
  const MONTHLY_PATH := "/transactions/analytics/monthly-trend"

  class DashboardPage {
    var summary: Summary
    var byCategory: seq<CategoryTotal>
    var monthly: seq<MonthTotals>
    const api: Api.Client

    constructor(api: Api.Client)
      ensures summary == ZERO_SUMMARY && byCategory == [] && monthly == []
      ensures this.api == api
    {
      summary := ZERO_SUMMARY;
      byCategory := [];
      monthly := [];
      this.api := api;
    }

    /**
     * The mount effect: all three requests are issued before any is awaited,
     * and the three results are stored only if every one resolves.
     */
    method LoadAnalytics(s: Api.Reply<Summary>, c: Api.Reply<seq<CategoryTotal>>, m: Api.Reply<seq<MonthTotals>>)
      returns (ok: bool)
      modifies this, api
      ensures api.log == old(api.log) + [Api.Get(SUMMARY_PATH), Api.Get(BY_CATEGORY_PATH), Api.Get(MONTHLY_PATH)]
      ensures ok <==> s.Ok? && c.Ok? && m.Ok?
      ensures ok ==> summary == s.data && byCategory == c.data && monthly == m.data
      ensures !ok ==> summary == old(summary) && byCategory == old(byCategory) && monthly == old(monthly)
    {
      api.Send(Api.Get(SUMMARY_PATH));
      api.Send(Api.Get(BY_CATEGORY_PATH));
      api.Send(Api.Get(MONTHLY_PATH));
      if s.Failed? || c.Failed? || m.Failed? {
        return false;
      }
      summary := s.data;
      byCategory := c.data;
      monthly := m.data;
      ok := true;
    }
  }

  // ---------------------------------------------------------------------------
  // Chart data.

  datatype PieData = PieData(labels: seq<string>, data: seq<real>)
  datatype BarData = BarData(labels: seq<string>, income: seq<real>, expense: seq<real>)

  /** The pie: one slice per category, labelled by the category, sized by its total. */
  function Pie(byCategory: seq<CategoryTotal>): (p: PieData)
    ensures |p.labels| == |p.data| == |byCategory|
    ensures forall i :: 0 <= i < |byCategory| ==> CategoryTotal(p.labels[i], p.data[i]) == byCategory[i]
  {
    PieData(Seqs.Map((x: CategoryTotal) => x.category, byCategory), Seqs.Map((x: CategoryTotal) => x.total, byCategory))
  }

  /** The bars: one group per month, labelled `M` and the month number, in input order. */
  function Bar(monthly: seq<MonthTotals>): (b: BarData)
    ensures |b.labels| == |b.income| == |b.expense| == |monthly|
    ensures forall i :: 0 <= i < |monthly| ==>
      && b.labels[i] == "M" + Decimal(monthly[i].month)
      && MonthTotals(monthly[i].month, b.income[i], b.expense[i]) == monthly[i]
  {
    BarData(
      Seqs.Map((x: MonthTotals) => "M" + Decimal(x.month), monthly),
      Seqs.Map((x: MonthTotals) => x.income, monthly),
      Seqs.Map((x: MonthTotals) => x.expense, monthly))
  }

  // ---------------------------------------------------------------------------
  // How a template literal writes an integer.

  const DIGITS := "0123456789"

  function DigitValue(c: char): nat
  {
    if '0' <= c <= '9' then c as int - '0' as int else 0
  }

  predicate IsDigits(s: string)
  {
    forall i :: 0 <= i < |s| ==> '0' <= s[i] <= '9'
  }

  function NaturalDecimal(n: nat): (s: string)
    ensures |s| > 0 && IsDigits(s)
  {
    if n < 10 then [DIGITS[n]] else NaturalDecimal(n / 10) + [DIGITS[n % 10]]
  }

  /** The decimal text of an integer, with a leading `-` when it is negative. */
  function Decimal(n: int): string
  {
    if n < 0 then "-" + NaturalDecimal(-n) else NaturalDecimal(n)
  }

  /** Reads a digit string back as a number. */
  function DecimalValue(s: string): nat
  {
    if s == [] then 0 else 10 * DecimalValue(s[..|s| - 1]) + DigitValue(s[|s| - 1])
  }

  lemma {:induction false} DecimalValueOfNatural(n: nat)
    ensures DecimalValue(NaturalDecimal(n)) == n
  {
    if n >= 10 {
      var s := NaturalDecimal(n);
      DecimalValueOfNatural(n / 10);
      assert s[..|s| - 1] == NaturalDecimal(n / 10);
    }
  }

  lemma NaturalDecimalInjective(a: nat, b: nat)
    requires NaturalDecimal(a) == NaturalDecimal(b)
    ensures a == b
  {
    DecimalValueOfNatural(a);
    DecimalValueOfNatural(b);
  }

  lemma DecimalSign(n: int)
    ensures |Decimal(n)| > 0 && (Decimal(n)[0] == '-' <==> n < 0)
  {
  }

  /** Different integers are written differently. */
  lemma DecimalInjective(a: int, b: int)
    requires Decimal(a) == Decimal(b)
    ensures a == b
  {
    DecimalSign(a);
    DecimalSign(b);
    if a < 0 && b < 0 {
      assert NaturalDecimal(-a) == Decimal(a)[1..] == Decimal(b)[1..] == NaturalDecimal(-b);
      NaturalDecimalInjective(-a, -b);
    } else if a >= 0 && b >= 0 {
      NaturalDecimalInjective(a, b);
    }
  }

  /** Bars for distinct months carry distinct labels. */
  lemma DistinctMonthsDistinctLabels(monthly: seq<MonthTotals>, i: nat, j: nat)
    requires i < |monthly| && j < |monthly| && monthly[i].month != monthly[j].month
    ensures Bar(monthly).labels[i] != Bar(monthly).labels[j]
  {
    var b := Bar(monthly);
    if b.labels[i] == b.labels[j] {
      assert Decimal(monthly[i].month) == b.labels[i][1..];
      assert Decimal(monthly[j].month) == b.labels[j][1..];
      DecimalInjective(monthly[i].month, monthly[j].month);
    }
  }
}
