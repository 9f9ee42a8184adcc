/**
 * Cash-flow sheet (`fluxo_caixa_view`) of one year: monthly feed, revenue and
 * fixed-cost totals, variable costs estimated from feed and revenue, free cash
 * flow, a cumulative series that starts at minus the purchase value of the
 * lots, and an annual summary over January to November.
 */
module CashFlow {
  import opened Calendar
  import opened Periods
  import opened Models
  import opened FeedAccrual

  /** Health and medicine: 1% of feed. */
  const HealthRate: real := 0.01
  /** Services and others: 1% of revenue. */
  const ServicesRate: real := 0.01
  /** Taxes: 1.5% of revenue. */
  const TaxRate: real := 0.015
  /** The summary covers January (1) to November (11). */
  const SummaryMonths: int := 11

  // ------------------------------------------------ from the stored records

  /** `sum(lote.valor_compra for lote in lotes if lote.valor_compra)`. */
  function Investment(lots: seq<LotData>): (t: real)
    ensures (forall i :: 0 <= i < |lots| ==> ValidLote(lots[i].lote)) ==> t >= 0.0
  {
    if lots == [] then 0.0
    else
      var n := |lots| - 1;
      assert forall i :: 0 <= i < n ==> lots[..n][i] == lots[i];
      var v := lots[n].lote.valorCompra;
      Investment(lots[..n]) + (if v != 0.0 then v else 0.0)
  }

  /** The generator sum over the lots, skipping those without a purchase value. */
  method TotalInvestment(lots: seq<LotData>) returns (investment: real)
    ensures investment == Investment(lots)
  {
    investment := 0.0;
    var i := 0;
    while i < |lots|
      invariant 0 <= i <= |lots|
      invariant investment == Investment(lots[..i])
    {
      assert lots[..i + 1][..i] == lots[..i];
      if lots[i].lote.valorCompra != 0.0 {
        investment := investment + lots[i].lote.valorCompra;
      }
      i := i + 1;
    }
    assert lots[..|lots|] == lots;
  }

  /** The purchase values of the lots, zero ones included, add up to the investment. */
  lemma {:induction false} InvestmentIsPurchaseSum(lots: seq<LotData>, k: nat)
    requires k <= |lots|
    ensures k == 0 ==> Investment(lots[..k]) == 0.0
    ensures k > 0 ==> Investment(lots[..k]) == Investment(lots[..k - 1]) + lots[k - 1].lote.valorCompra
  {
    if k > 0 {
      assert lots[..k][..k - 1] == lots[..k - 1];
    }
  }

  /** The value stored under `kind` for month `p`, or 0 when there is none. */
  function ValueOr0<K(==)>(records: map<(K, Period), real>, kind: K, p: Period): real {
    if (kind, p) in records then records[(kind, p)] else 0.0
  }

  /** The values stored for month `p` summed over the categories `kinds`, missing ones counting 0. */
  function KindTotal<K(==)>(records: map<(K, Period), real>, kinds: seq<K>, p: Period): (t: real)
    ensures (forall key :: key in records ==> records[key] >= 0.0) ==> t >= 0.0
  {
    if kinds == [] then 0.0
    else KindTotal(records, kinds[..|kinds| - 1], p) + ValueOr0(records, kinds[|kinds| - 1], p)
  }

  /** A month with no stored value in any of the categories totals zero. */
  lemma {:induction false} KindTotalWithoutRecords<K>(records: map<(K, Period), real>, kinds: seq<K>, p: Period)
    requires forall i :: 0 <= i < |kinds| ==> (kinds[i], p) !in records
    ensures KindTotal(records, kinds, p) == 0.0
  {
    if kinds != [] {
      var n := |kinds| - 1;
      assert forall i :: 0 <= i < n ==> kinds[..n][i] == kinds[i];
      KindTotalWithoutRecords(records, kinds[..n], p);
    }
  }

  /** Storing a value for another month leaves the month's total unchanged. */
  lemma {:induction false} KindTotalOtherMonth<K>(records: map<(K, Period), real>, kinds: seq<K>, p: Period, q: Period, kind: K, v: real)
    requires q != p
    ensures KindTotal(records[(kind, q) := v], kinds, p) == KindTotal(records, kinds, p)
  {
    if kinds != [] {
      KindTotalOtherMonth(records, kinds[..|kinds| - 1], p, q, kind, v);
    }
  }

  /** The variable costs of a month. */
  datatype VariableCosts = VariableCosts(feed: real, health: real, services: real, taxes: real, total: real)

  /** Feed plus 1% of it, plus 1% and 1.5% of revenue. */
  function VariableCostsOf(feed: real, revenue: real): (v: VariableCosts)
    ensures v.total == feed * 1.01 + revenue * 0.025
    ensures v.feed == feed && v.health == feed * HealthRate && v.services == revenue * ServicesRate && v.taxes == revenue * TaxRate
    ensures feed >= 0.0 && revenue >= 0.0 ==> v.total >= feed
  {
    var health := feed * HealthRate;
    var services := revenue * ServicesRate;
    var taxes := revenue * TaxRate;
    VariableCosts(feed, health, services, taxes, feed + health + services + taxes)
  }

  // ------------------------------------------------------- the month loops

  /** A series with a value for every month 1..12. */
  ghost predicate Monthly(series: map<int, real>) {
    forall m :: m in series <==> 1 <= m <= 12
  }

  /** Feed of every month of `year`: each lot's record of that month, accrued over the month and the lot. */
  method MonthlyFeed(lots: seq<LotData>, year: int) returns (feed: map<int, real>)
    ensures Monthly(feed)
    ensures forall m: Month :: feed[m] == FeedTotal(lots, Period(year, m))
  {
    feed := map[];
    var m := 1;
    while m <= 12
      invariant 1 <= m <= 13
      invariant forall k :: k in feed <==> 1 <= k < m
      invariant forall k: Month :: k < m ==> feed[k] == FeedTotal(lots, Period(year, k))
    {
      var total := FeedOfMonth(lots, Period(year, m));
      feed := feed[m := total];
      m := m + 1;
    }
  }

  /** The inner loop over the feed records of one month: each one costs its daily value over the month and the lot. */
  method FeedOfMonth(lots: seq<LotData>, p: Period) returns (total: real)
    ensures total == FeedTotal(lots, p)
  {
    total := 0.0;
    var i := 0;
    while i < |lots|
      invariant 0 <= i <= |lots|
      invariant total == FeedTotal(lots[..i], p)
    {
      FeedTotalStep(lots, i, p);
      if p in lots[i].feed {
        total := total + LotMonthFeed(lots[i], p);
      }
      i := i + 1;
    }
    assert lots[..|lots|] == lots;
  }

  /** Totals of every month of `year` over the categories `kinds`, missing values counting 0. */
  method MonthlyKindTotals<K(==)>(records: map<(K, Period), real>, kinds: seq<K>, year: int) returns (totals: map<int, real>)
    ensures Monthly(totals)
    ensures forall m: Month :: totals[m] == KindTotal(records, kinds, Period(year, m))
  {
    totals := map[];
    var m := 1;
    while m <= 12
      invariant 1 <= m <= 13
      invariant forall k :: k in totals <==> 1 <= k < m
      invariant forall k: Month :: k < m ==> totals[k] == KindTotal(records, kinds, Period(year, k))
    {
      var p := Period(year, m);
      var total := 0.0;
      var j := 0;
      while j < |kinds|
        invariant 0 <= j <= |kinds|
        invariant total == KindTotal(records, kinds[..j], p)
      {
        assert kinds[..j + 1][..j] == kinds[..j];
        total := total + ValueOr0(records, kinds[j], p);
        j := j + 1;
      }
      assert kinds[..|kinds|] == kinds;
      totals := totals[m := total];
      m := m + 1;
    }
  }

  /** Variable costs of every month from its feed and revenue. */
  method MonthlyVariable(feed: map<int, real>, revenue: map<int, real>) returns (variable: map<int, VariableCosts>)
    requires Monthly(feed) && Monthly(revenue)
    ensures forall m :: m in variable <==> 1 <= m <= 12
    ensures forall m: Month :: variable[m] == VariableCostsOf(feed[m], revenue[m])
  {
    variable := map[];
    var m := 1;
    while m <= 12
      invariant 1 <= m <= 13
      invariant forall k :: k in variable <==> 1 <= k < m
      invariant forall k: Month :: k < m ==> variable[k] == VariableCostsOf(feed[k], revenue[k])
    {
      var alim := feed[m];
      var health := alim * 0.01;
      var rec := revenue[m];
      var services := rec * 0.01;
      var taxes := rec * 0.015;
      variable := variable[m := VariableCosts(alim, health, services, taxes, alim + health + services + taxes)];
      m := m + 1;
    }
  }

  // ------------------------------------------------- flows and the summary

  /** The free cash flow of a month: revenue minus fixed minus variable costs. */
  function FreeFlow(revenue: map<int, real>, fixed: map<int, real>, variable: map<int, VariableCosts>, m: int): real
    requires m in revenue && m in fixed && m in variable
  {
    revenue[m] - fixed[m] - variable[m].total
  }

  /** The cumulative flow after months 1..m: minus the investment, plus every month's free flow. */
  function CumulativeOf(investment: real, revenue: map<int, real>, fixed: map<int, real>, variable: map<int, VariableCosts>, m: nat): (r: real)
    requires m <= 12 && forall k :: 1 <= k <= m ==> k in revenue && k in fixed && k in variable
    ensures m == 0 ==> r == -investment
    ensures (forall k :: 1 <= k <= m ==> FreeFlow(revenue, fixed, variable, k) >= 0.0) ==> r >= -investment
  {
    if m == 0 then -investment else CumulativeOf(investment, revenue, fixed, variable, m - 1) + FreeFlow(revenue, fixed, variable, m)
  }

  /** Free and cumulative cash flow: revenue minus fixed minus variable costs, carried from minus the investment. */
  method Flows(investment: real, revenue: map<int, real>, fixed: map<int, real>, variable: map<int, VariableCosts>)
    returns (free: map<int, real>, cumulative: map<int, real>)
    requires Monthly(revenue) && Monthly(fixed) && forall m :: 1 <= m <= 12 ==> m in variable
    ensures Monthly(free)
    ensures forall m :: m in cumulative <==> 0 <= m <= 12
    ensures forall m: Month :: free[m] == FreeFlow(revenue, fixed, variable, m)
    ensures forall m :: 0 <= m <= 12 ==> cumulative[m] == CumulativeOf(investment, revenue, fixed, variable, m)
    ensures cumulative[0] == -investment
    ensures forall i, j :: 0 <= i && j == i + 1 <= 12 ==> cumulative[j] == cumulative[i] + free[j]
  {
    free := map[];
    var acc := -investment;
    cumulative := map[0 := acc];
    var m := 1;
    while m <= 12
      invariant 1 <= m <= 13
      invariant forall k :: k in free <==> 1 <= k < m
      invariant forall k :: k in cumulative <==> 0 <= k < m
      invariant forall k: Month :: k < m ==> free[k] == FreeFlow(revenue, fixed, variable, k)
      invariant forall k {:trigger cumulative[k]} :: 0 <= k < m ==> cumulative[k] == CumulativeOf(investment, revenue, fixed, variable, k)
      invariant acc == CumulativeOf(investment, revenue, fixed, variable, m - 1)
    {
      var flow := revenue[m] - fixed[m] - variable[m].total;
      free := free[m := flow];
      acc := acc + flow;
      cumulative := cumulative[m := acc];
      m := m + 1;
    }
    CumulativeSteps(investment, revenue, fixed, variable, free, cumulative);
  }

  /** A series that follows `CumulativeOf` steps by each month's free flow. */
  lemma CumulativeSteps(investment: real, revenue: map<int, real>, fixed: map<int, real>, variable: map<int, VariableCosts>,
                        free: map<int, real>, cumulative: map<int, real>)
    requires Monthly(revenue) && Monthly(fixed) && Monthly(free) && forall m :: 1 <= m <= 12 ==> m in variable
    requires forall m :: m in cumulative <==> 0 <= m <= 12
    requires forall m: Month :: free[m] == FreeFlow(revenue, fixed, variable, m)
    requires forall m :: 0 <= m <= 12 ==> cumulative[m] == CumulativeOf(investment, revenue, fixed, variable, m)
    ensures cumulative[0] == -investment
    ensures forall i, j :: 0 <= i && j == i + 1 <= 12 ==> cumulative[j] == cumulative[i] + free[j]
  {
    forall i, j | 0 <= i && j == i + 1 <= 12
      ensures cumulative[j] == cumulative[i] + free[j]
    {
      assert cumulative[j] == CumulativeOf(investment, revenue, fixed, variable, j);
    }
  }

  /** A series summed over months 1..m. */
  function SumMonths(series: map<int, real>, m: nat): real
    requires m <= 12 && forall k :: 1 <= k <= m ==> k in series
  {
    if m == 0 then 0.0 else SumMonths(series, m - 1) + series[m]
  }

  /** The annual summary. */
  datatype Summary = Summary(
    investments: real,
    fixedCosts: real,
    variableCosts: real,
    outlay: real,
    revenue: real,
    result: real,
    profitability: real,
    margin: real)

  /**
   * The summary over January to November: outlay is investment plus fixed and
   * variable costs, result is revenue minus outlay; profitability is the
   * result in percent of the investment and margin the result in percent of
   * the revenue, each zero when its base is not positive.
   */
  function SummaryOf(investment: real, fixed: real, variable: real, revenue: real): (s: Summary)
    ensures s.investments == investment && s.fixedCosts == fixed && s.variableCosts == variable && s.revenue == revenue
    ensures s.outlay == investment + fixed + variable && s.result == revenue - s.outlay
    ensures investment > 0.0 ==> s.profitability * investment == s.result * 100.0
    ensures investment <= 0.0 ==> s.profitability == 0.0
    ensures revenue > 0.0 ==> s.margin * revenue == s.result * 100.0
    ensures revenue <= 0.0 ==> s.margin == 0.0
  {
    var outlay := investment + fixed + variable;
    var result := revenue - outlay;
    Summary(investment, fixed, variable, outlay, revenue, result,
      if investment > 0.0 then result / investment * 100.0 else 0.0,
      if revenue > 0.0 then result / revenue * 100.0 else 0.0)
  }

  /** The summary loop over months 1 to 11, then the summary figures. */
  method AnnualSummary(investment: real, revenue: map<int, real>, fixed: map<int, real>, variable: map<int, VariableCosts>)
    returns (s: Summary)
    requires Monthly(revenue) && Monthly(fixed) && forall m :: 1 <= m <= 12 ==> m in variable
    ensures s == SummaryOf(investment, SumMonths(fixed, SummaryMonths), SumMonths(TotalsOf(variable), SummaryMonths),
                           SumMonths(revenue, SummaryMonths))
  {
    var totalFixed, totalVariable, totalRevenue := 0.0, 0.0, 0.0;
    var m := 1;
    while m <= SummaryMonths
      invariant 1 <= m <= SummaryMonths + 1
      invariant totalFixed == SumMonths(fixed, m - 1)
      invariant totalVariable == SumMonths(TotalsOf(variable), m - 1)
      invariant totalRevenue == SumMonths(revenue, m - 1)
    {
      totalFixed := totalFixed + fixed[m];
      totalVariable := totalVariable + variable[m].total;
      totalRevenue := totalRevenue + revenue[m];
      m := m + 1;
    }
    var outlay := investment + totalFixed + totalVariable;
    var result := totalRevenue - outlay;
    var profitability := 0.0;
    if investment > 0.0 {
      profitability := result / investment * 100.0;
    }
    var margin := 0.0;
    if totalRevenue > 0.0 {
      margin := result / totalRevenue * 100.0;
    }
    s := Summary(investment, totalFixed, totalVariable, outlay, totalRevenue, result, profitability, margin);
  }

  /** The totals of the variable costs, month by month. */
  function TotalsOf(variable: map<int, VariableCosts>): (t: map<int, real>)
    ensures forall m :: m in t <==> m in variable
    ensures forall m :: m in t ==> t[m] == variable[m].total
  {
    map m | m in variable :: variable[m].total
  }

  /** The cumulative flow after m months is minus the investment plus revenue minus fixed and variable costs of those months. */
  lemma {:induction false} CumulativeIsNetOfMonths(investment: real, revenue: map<int, real>, fixed: map<int, real>,
                                                   variable: map<int, VariableCosts>, m: nat)
    requires m <= 12
    requires forall k :: 1 <= k <= m ==> k in revenue && k in fixed && k in variable
    ensures CumulativeOf(investment, revenue, fixed, variable, m)
         == SumMonths(revenue, m) - (investment + SumMonths(fixed, m) + SumMonths(TotalsOf(variable), m))
  {
    if m > 0 {
      CumulativeIsNetOfMonths(investment, revenue, fixed, variable, m - 1);
    }
  }

  // ------------------------------------------------------------- the sheet

  /** Everything `fluxo_caixa_view` shows for one year. */
  datatype Sheet = Sheet(
    investment: real,
    feed: map<int, real>,
    revenue: map<int, real>,
    fixed: map<int, real>,
    variable: map<int, VariableCosts>,
    free: map<int, real>,
    cumulative: map<int, real>,
    summary: Summary)

  /**
   * `fluxo_caixa_view` for `year`: the figures of every month from the stored
   * records, the flows, and the summary, whose result is the cumulative flow
   * at the end of November.
   */
  method CashFlowSheet(lots: seq<LotData>, fixedCosts: FixedCosts, revenues: Revenues, year: int) returns (sheet: Sheet)
    ensures sheet.investment == Investment(lots)
    ensures Monthly(sheet.feed) && Monthly(sheet.revenue) && Monthly(sheet.fixed) && Monthly(sheet.free)
    ensures forall m :: m in sheet.variable <==> 1 <= m <= 12
    ensures forall m :: m in sheet.cumulative <==> 0 <= m <= 12
    ensures forall m: Month ::
      && sheet.feed[m] == FeedTotal(lots, Period(year, m))
      && sheet.revenue[m] == KindTotal(revenues, RevenueKinds, Period(year, m))
      && sheet.fixed[m] == KindTotal(fixedCosts, FixedCostKinds, Period(year, m))
      && sheet.variable[m] == VariableCostsOf(sheet.feed[m], sheet.revenue[m])
      && sheet.free[m] == sheet.revenue[m] - sheet.fixed[m] - sheet.variable[m].total
    ensures sheet.cumulative[0] == -sheet.investment
    ensures forall i, j :: 0 <= i && j == i + 1 <= 12 ==> sheet.cumulative[j] == sheet.cumulative[i] + sheet.free[j]
    ensures sheet.summary == SummaryOf(sheet.investment, SumMonths(sheet.fixed, SummaryMonths),
                                       SumMonths(TotalsOf(sheet.variable), SummaryMonths), SumMonths(sheet.revenue, SummaryMonths))
    ensures sheet.summary.result == sheet.cumulative[SummaryMonths]
  {
    var investment := TotalInvestment(lots);
    var feed := MonthlyFeed(lots, year);
    var revenue := MonthlyKindTotals(revenues, RevenueKinds, year);
    var fixed := MonthlyKindTotals(fixedCosts, FixedCostKinds, year);
    var variable := MonthlyVariable(feed, revenue);
    var free, cumulative := Flows(investment, revenue, fixed, variable);
    var summary := AnnualSummary(investment, revenue, fixed, variable);
    CumulativeIsNetOfMonths(investment, revenue, fixed, variable, SummaryMonths);
    sheet := Sheet(investment, feed, revenue, fixed, variable, free, cumulative, summary);
  }
}
