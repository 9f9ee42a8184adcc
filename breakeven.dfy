/**
 * Break-even sheet (`ponto_equilibrio_view`): for one year, months January to
 * November, each lot walks its months in order. A month without a daily-gain
 * record is skipped and changes nothing; a month with one takes the running
 * weight as entry weight, adds the month's gain, accrues the month's feed on
 * top of the purchase value, converts the exit weight to carcass arrobas,
 * discounts the month's mortality from the head count and divides the
 * investment by the arrobas obtained.
 */
module BreakEven {
  import opened Wrappers
  import opened Calendar
  import opened Periods
  import opened Models
  import opened FeedAccrual
  import opened WeightProjection
  import opened Billing

  /** The sheet covers January (1) to November (11). */
  const LastMonth: int := 11

  /** Carcass yield used when the property has none saved. */
  const DefaultYield: real := 50.0

  /** `ultimo_rendimento_carcaca or Decimal('50')`. */
  function YieldOrDefault(saved: Option<real>): (y: real)
    ensures Truthy(saved) ==> y == saved.value
    ensures !Truthy(saved) ==> y == DefaultYield
  {
    if Truthy(saved) then saved.value else DefaultYield
  }

  /** Month `m` of `year` has a daily-gain record. */
  predicate Projected(d: LotData, year: int, m: Month) {
    Period(year, m) in d.growth
  }

  /** The running weight after months 1..m: the entry weight plus the gain of each projected month. */
  function WeightAfter(d: LotData, year: int, m: nat): (r: real)
    requires m <= LastMonth
    ensures ProjectedMonths(d, year, m) == [] ==> r == d.lote.pesoKg
  {
    if m == 0 then d.lote.pesoKg
    else
      var p := Period(year, m);
      WeightAfter(d, year, m - 1) + (if p in d.growth then MonthTotal(d.growth[p], p) else 0.0)
  }

  /** The feed investment accumulated over months 1..m: only months with a daily-gain record and a feed record accrue. */
  function FeedAfter(d: LotData, year: int, m: nat): (r: real)
    requires m <= LastMonth
    ensures ProjectedMonths(d, year, m) == [] ==> r == 0.0
  {
    if m == 0 then 0.0
    else
      var p := Period(year, m);
      FeedAfter(d, year, m - 1) + (if p in d.growth && p in d.feed then LotMonthFeed(d, p) else 0.0)
  }

  /** The entry weight in arrobas after months 1..m: the lot's own at first, then the last exit weight over 15. */
  function EntryArrobaAfter(d: LotData, year: int, m: nat): real
    requires m <= LastMonth
  {
    if m == 0 then d.lote.pesoArroba
    else if Period(year, m) in d.growth then WeightAfter(d, year, m) / KgPerArroba
    else EntryArrobaAfter(d, year, m - 1)
  }

  /** The projected months among 1..m, in order. */
  function ProjectedMonths(d: LotData, year: int, m: nat): (ps: seq<Period>)
    requires m <= LastMonth
    ensures forall i :: 0 <= i < |ps| ==> ps[i] in d.growth && ps[i].year == year && 1 <= ps[i].month <= m
  {
    if m == 0 then []
    else if Period(year, m) in d.growth then ProjectedMonths(d, year, m - 1) + [Period(year, m)]
    else ProjectedMonths(d, year, m - 1)
  }

  /** Head count left after a mortality of `mortality` percent. */
  function Survivors(heads: nat, mortality: real): real {
    (heads as real) * (1.0 - mortality / 100.0)
  }

  /** Investment per arroba, zero when there are no arrobas. */
  function BreakEvenPrice(investment: real, arrobas: real): real {
    if arrobas > 0.0 then investment / arrobas else 0.0
  }

  /** The figures of one month of one lot on the sheet. */
  datatype MonthFigures = MonthFigures(
    days: int,
    entryKg: real,
    entryArroba: real,
    exitKg: real,
    gmd: real,
    dailyCost: real,
    animalsInvestment: real,
    feedInvestment: real,
    totalInvestment: real,
    arrobasPerHead: real,
    mortality: real,
    survivors: real,
    totalArrobas: real,
    breakEven: real)

  /** The figures of projected month `m`, from the state the months before it leave. */
  function FiguresAt(d: LotData, year: int, yieldPct: real, m: Month): (f: MonthFigures)
    requires m <= LastMonth && Projected(d, year, m)
    ensures f.days == DaysInMonth(year, m) && f.gmd == d.growth[Period(year, m)]
    ensures f.exitKg == f.entryKg + MonthTotal(f.gmd, Period(year, m))
    ensures f.totalInvestment == f.animalsInvestment + f.feedInvestment && f.animalsInvestment == d.lote.valorCompra
  {
    var p := Period(year, m);
    var entry := WeightAfter(d, year, m - 1);
    var exit := entry + MonthTotal(d.growth[p], p);
    var feed := FeedAfter(d, year, m);
    var invest := d.lote.valorCompra + feed;
    var perHead := CarcassArrobas(exit, yieldPct);
    var mortality := MortalityOrDefault(d, p);
    var survivors := Survivors(d.lote.quantidade, mortality);
    var total := survivors * perHead;
    MonthFigures(
      DaysInMonth(year, m), entry, EntryArrobaAfter(d, year, m - 1), exit, d.growth[p],
      if p in d.feed then d.feed[p] else 0.0,
      d.lote.valorCompra, feed, invest, perHead, mortality, survivors, total,
      BreakEvenPrice(invest, total))
  }

  /** The figures of a projected month in terms of the running state before and after it. */
  lemma FiguresStep(d: LotData, year: int, yieldPct: real, m: Month)
    requires m <= LastMonth && Projected(d, year, m)
    ensures var p := Period(year, m);
      && WeightAfter(d, year, m) == WeightAfter(d, year, m - 1) + MonthTotal(d.growth[p], p)
      && FeedAfter(d, year, m) == FeedAfter(d, year, m - 1) + (if p in d.feed then LotMonthFeed(d, p) else 0.0)
      && EntryArrobaAfter(d, year, m) == WeightAfter(d, year, m) / KgPerArroba
      && var f := FiguresAt(d, year, yieldPct, m);
      && f.entryKg == WeightAfter(d, year, m - 1) && f.exitKg == WeightAfter(d, year, m)
      && f.entryArroba == EntryArrobaAfter(d, year, m - 1) && f.feedInvestment == FeedAfter(d, year, m)
      && f.totalInvestment == d.lote.valorCompra + f.feedInvestment
      && f.arrobasPerHead == CarcassArrobas(f.exitKg, yieldPct)
      && f.mortality == MortalityOrDefault(d, p)
      && f.survivors == Survivors(d.lote.quantidade, f.mortality)
      && f.totalArrobas == f.survivors * f.arrobasPerHead
      && f.breakEven == BreakEvenPrice(f.totalInvestment, f.totalArrobas)
  {
  }

  /**
   * One lot of `ponto_equilibrio_view`: months 1 to 11 in order, carrying the
   * running weight, the entry weight in arrobas and the accumulated feed
   * investment; projected months get their figures, the others are skipped.
   */
  method LotBreakEven(d: LotData, year: int, yieldPct: real) returns (months: map<int, MonthFigures>)
    ensures forall m :: m in months <==> 1 <= m <= LastMonth && Period(year, m) in d.growth
    ensures forall m: Month :: m in months ==> m <= LastMonth && Projected(d, year, m) && months[m] == FiguresAt(d, year, yieldPct, m)
  {
    months := map[];
    var weight := d.lote.pesoKg;
    var entryArroba := d.lote.pesoArroba;
    var feedAcc := 0.0;
    var m := 1;
    while m <= LastMonth
      invariant 1 <= m <= LastMonth + 1
      invariant weight == WeightAfter(d, year, m - 1)
      invariant entryArroba == EntryArrobaAfter(d, year, m - 1)
      invariant feedAcc == FeedAfter(d, year, m - 1)
      invariant forall k :: k in months <==> 1 <= k < m && Period(year, k) in d.growth
      invariant forall k: Month :: k in months ==> k < m && Projected(d, year, k) && months[k] == FiguresAt(d, year, yieldPct, k)
    {
      var p := Period(year, m);
      if p in d.growth {
        var figures;
        figures, feedAcc := MonthOf(d, year, yieldPct, m, weight, entryArroba, feedAcc);
        months := months[m := figures];
        weight := figures.exitKg;
        entryArroba := figures.exitKg / KgPerArroba;
      }
      m := m + 1;
    }
  }

  /** The body of the month loop for a projected month: its figures from the running weight, entry arrobas and feed. */
  method MonthOf(d: LotData, year: int, yieldPct: real, m: Month, weight: real, entryArroba: real, feedBefore: real)
    returns (figures: MonthFigures, feedAcc: real)
    requires m <= LastMonth && Projected(d, year, m)
    requires weight == WeightAfter(d, year, m - 1) && entryArroba == EntryArrobaAfter(d, year, m - 1)
    requires feedBefore == FeedAfter(d, year, m - 1)
    ensures figures == FiguresAt(d, year, yieldPct, m) && feedAcc == FeedAfter(d, year, m)
    ensures figures.exitKg == WeightAfter(d, year, m) && figures.exitKg / KgPerArroba == EntryArrobaAfter(d, year, m)
  {
    var p := Period(year, m);
    var days := DaysInMonth(year, m);
    var exit := weight + MonthTotal(d.growth[p], p);
    var dailyCost := 0.0;
    feedAcc := feedBefore;
    if p in d.feed {
      dailyCost := d.feed[p];
      feedAcc := feedAcc + LotMonthFeed(d, p);
    }
    var invest := d.lote.valorCompra + feedAcc;
    var perHead := CarcassArrobas(exit, yieldPct);
    var mortality := 0.0;
    if p in d.mortality {
      mortality := d.mortality[p];
    }
    var survivors := Survivors(d.lote.quantidade, mortality);
    var total := survivors * perHead;
    var price := 0.0;
    if total > 0.0 {
      price := invest / total;
    }
    FiguresStep(d, year, yieldPct, m);
    figures := MonthFigures(days, weight, entryArroba, exit, d.growth[p], dailyCost, d.lote.valorCompra,
                            feedAcc, invest, perHead, mortality, survivors, total, price);
  }

  /** A line of the sheet: a lot and its figures by month. */
  datatype SheetLine = SheetLine(lotIndex: nat, months: map<int, MonthFigures>)

  /** The lot has a daily-gain record in some month of January to November of `year`. */
  ghost predicate OnSheet(d: LotData, year: int) {
    exists m: Month :: m <= LastMonth && Projected(d, year, m)
  }

  /** `line` is the sheet line of lot `k`: exactly the lot's projected months of January to November, with their figures. */
  ghost predicate SheetLineOf(line: SheetLine, lots: seq<LotData>, k: nat, year: int, yieldPct: real) {
    && line.lotIndex == k && k < |lots|
    && (forall m :: m in line.months <==> 1 <= m <= LastMonth && Period(year, m) in lots[k].growth)
    && (forall m: Month :: m in line.months ==>
          m <= LastMonth && Projected(lots[k], year, m) && line.months[m] == FiguresAt(lots[k], year, yieldPct, m))
  }

  /**
   * `ponto_equilibrio_view`: the carcass yield is the saved one or 50%; every
   * lot with at least one projected month in January to November gets a line,
   * in the order of the lots; the other lots are left out.
   */
  method BreakEvenSheet(lots: seq<LotData>, year: int, savedYield: Option<real>) returns (lines: seq<SheetLine>)
    ensures forall a, b :: 0 <= a < b < |lines| ==> lines[a].lotIndex < lines[b].lotIndex
    ensures forall r :: 0 <= r < |lines| ==>
      lines[r].lotIndex < |lots| && OnSheet(lots[lines[r].lotIndex], year) &&
      SheetLineOf(lines[r], lots, lines[r].lotIndex, year, YieldOrDefault(savedYield))
    ensures forall k :: 0 <= k < |lots| && OnSheet(lots[k], year) ==> exists r :: 0 <= r < |lines| && lines[r].lotIndex == k
  {
    var yieldPct := YieldOrDefault(savedYield);
    lines := [];
    var k := 0;
    while k < |lots|
      invariant 0 <= k <= |lots|
      invariant forall a, b :: 0 <= a < b < |lines| ==> lines[a].lotIndex < lines[b].lotIndex
      invariant forall r :: 0 <= r < |lines| ==>
        lines[r].lotIndex < k && OnSheet(lots[lines[r].lotIndex], year) &&
        SheetLineOf(lines[r], lots, lines[r].lotIndex, year, yieldPct)
      invariant forall j :: 0 <= j < k && OnSheet(lots[j], year) ==> exists r :: 0 <= r < |lines| && lines[r].lotIndex == j
    {
      var line := LotSheetLine(lots, k, year, yieldPct);
      if line.Some? {
        var before := lines;
        lines := lines + [line.value];
        assert lines[|before|].lotIndex == k;
        forall j | 0 <= j < k && OnSheet(lots[j], year)
          ensures exists r :: 0 <= r < |lines| && lines[r].lotIndex == j
        {
          var r :| 0 <= r < |before| && before[r].lotIndex == j;
          assert lines[r] == before[r];
        }
      }
      k := k + 1;
    }
  }

  /** The body of the loop over the lots: a lot without a projected month gets no line. */
  method LotSheetLine(lots: seq<LotData>, k: nat, year: int, yieldPct: real) returns (line: Option<SheetLine>)
    requires k < |lots|
    ensures line.Some? <==> OnSheet(lots[k], year)
    ensures line.Some? ==> SheetLineOf(line.value, lots, k, year, yieldPct)
  {
    line := None;
    if lots[k].growth != map[] {
      var months := LotBreakEven(lots[k], year, yieldPct);
      if months != map[] {
        assert (forall x :: x !in months) ==> months == map[];
        var key: int :| key in months;
        var m: Month := key;
        assert m <= LastMonth && Projected(lots[k], year, m);
        line := Some(SheetLine(k, months));
      } else {
        assert !OnSheet(lots[k], year) by {
          forall m: Month | m <= LastMonth
            ensures !Projected(lots[k], year, m)
          {
            assert m !in months;
          }
        }
      }
    } else {
      assert !OnSheet(lots[k], year);
    }
  }

  // ----------------------------------------------------------- properties

  /** Where there are arrobas, the break-even price times the arrobas is the investment; otherwise the price is zero. */
  lemma BreakEvenCoversInvestment(d: LotData, year: int, yieldPct: real, m: Month)
    requires m <= LastMonth && Projected(d, year, m)
    ensures var f := FiguresAt(d, year, yieldPct, m);
      && (f.totalArrobas > 0.0 ==> f.breakEven * f.totalArrobas == f.totalInvestment)
      && (f.totalArrobas <= 0.0 ==> f.breakEven == 0.0)
  {
  }

  /** Survivors lie between none and the whole lot; with no mortality record the whole lot survives. */
  lemma SurvivorsBounds(d: LotData, year: int, yieldPct: real, m: Month)
    requires ValidLotData(d) && m <= LastMonth && Projected(d, year, m)
    ensures var f := FiguresAt(d, year, yieldPct, m);
      && 0.0 <= f.survivors <= d.lote.quantidade as real
      && (Period(year, m) !in d.mortality ==> f.survivors == d.lote.quantidade as real)
  {
    var f := FiguresAt(d, year, yieldPct, m);
    var q := d.lote.quantidade as real;
    var alive := 1.0 - f.mortality / 100.0;
    assert 0.0 <= alive <= 1.0;
    assert f.survivors == q * alive;
    assert q * alive <= q * 1.0;
  }

  /** A month with a mortality of 100% leaves no survivors, no arrobas and a break-even price of zero. */
  lemma FullMortalityBreaksEvenAtZero(d: LotData, year: int, yieldPct: real, m: Month)
    requires m <= LastMonth && Projected(d, year, m)
    requires Period(year, m) in d.mortality && d.mortality[Period(year, m)] == 100.0
    ensures var f := FiguresAt(d, year, yieldPct, m);
      f.survivors == 0.0 && f.totalArrobas == 0.0 && f.breakEven == 0.0
  {
  }

  /** Feed accrues only in projected months: feed records agree on projected months, so the accrued feed agrees. */
  lemma {:induction false} FeedOutsideProjectionIgnored(d: LotData, e: LotData, year: int, m: nat)
    requires m <= LastMonth && d.lote == e.lote && d.growth == e.growth
    requires forall k: Month :: k <= m && Period(year, k) in d.growth ==>
      (Period(year, k) in d.feed <==> Period(year, k) in e.feed) &&
      (Period(year, k) in d.feed ==> d.feed[Period(year, k)] == e.feed[Period(year, k)])
    ensures FeedAfter(d, year, m) == FeedAfter(e, year, m)
  {
    if m > 0 {
      FeedOutsideProjectionIgnored(d, e, year, m - 1);
      var p := Period(year, m);
      if p in d.growth && p in d.feed {
        assert LotMonthFeed(d, p) == LotMonthFeed(e, p);
      }
    }
  }

  /** A feed record added in a month without a daily-gain record changes no figure of the sheet. */
  lemma UnprojectedFeedChangesNothing(d: LotData, year: int, yieldPct: real, p: Period, cost: real, m: Month)
    requires p !in d.growth && m <= LastMonth && Projected(d, year, m)
    ensures var e := d.(feed := d.feed[p := cost]);
      FiguresAt(e, year, yieldPct, m) == FiguresAt(d, year, yieldPct, m)
  {
    var e := d.(feed := d.feed[p := cost]);
    var q := Period(year, m);
    assert q != p;
    FeedOutsideProjectionIgnored(d, e, year, m);
    FiguresStep(d, year, yieldPct, m);
    FiguresStep(e, year, yieldPct, m);
    assert WeightAfter(e, year, m - 1) == WeightAfter(d, year, m - 1) by {
      SameWeights(d, e, year, m - 1);
    }
    assert EntryArrobaAfter(e, year, m - 1) == EntryArrobaAfter(d, year, m - 1) by {
      SameWeights(d, e, year, m - 1);
    }
    assert MortalityOrDefault(e, q) == MortalityOrDefault(d, q);
    assert (if q in e.feed then e.feed[q] else 0.0) == (if q in d.feed then d.feed[q] else 0.0);
  }

  /** The running weights depend on the lot and its daily gains only. */
  lemma {:induction false} SameWeights(d: LotData, e: LotData, year: int, m: nat)
    requires m <= LastMonth && d.lote == e.lote && d.growth == e.growth
    ensures WeightAfter(d, year, m) == WeightAfter(e, year, m)
    ensures EntryArrobaAfter(d, year, m) == EntryArrobaAfter(e, year, m)
  {
    if m > 0 {
      SameWeights(d, e, year, m - 1);
    }
  }

  /** With valid records, the accrued feed never decreases and the investment never falls below the purchase value. */
  lemma {:induction false} FeedAccrues(d: LotData, year: int, m: nat)
    requires ValidLotData(d) && 0 < m <= LastMonth
    ensures 0.0 <= FeedAfter(d, year, m - 1) <= FeedAfter(d, year, m)
  {
    var p := Period(year, m);
    if p in d.growth && p in d.feed {
      assert d.feed[p] >= 0.0;
      LotMonthFeedFormula(d, p);
    }
    if m > 1 {
      FeedAccrues(d, year, m - 1);
    }
  }

  /** The investment of a month is the purchase value plus a non-negative accrued feed. */
  lemma InvestmentAtLeastPurchase(d: LotData, year: int, yieldPct: real, m: Month)
    requires ValidLotData(d) && m <= LastMonth && Projected(d, year, m)
    ensures FiguresAt(d, year, yieldPct, m).totalInvestment >= d.lote.valorCompra
  {
    FeedAccrues(d, year, m);
  }

  /**
   * The sheet's running weight is the carried projection of the billing sheet
   * over the year's projected months up to `m`, with each month's own daily gain.
   */
  lemma {:induction false} WeightAfterIsCarriedProjection(d: LotData, year: int, m: nat)
    requires m <= LastMonth
    ensures Covers(ProjectedMonths(d, year, m), d.growth)
    ensures WeightAfter(d, year, m) == LastWeight(d.lote.pesoKg, Chain(d.lote.pesoKg, ProjectedMonths(d, year, m), d.growth, OwnRecords))
  {
    if m > 0 {
      var prev := ProjectedMonths(d, year, m - 1);
      WeightAfterIsCarriedProjection(d, year, m - 1);
      var p := Period(year, m);
      if p in d.growth {
        assert ProjectedMonths(d, year, m) == prev + [p];
        assert WeightAfter(d, year, m) == WeightAfter(d, year, m - 1) + MonthTotal(d.growth[p], p);
        ChainAppend(d.lote.pesoKg, prev, p, d.growth);
      } else {
        assert ProjectedMonths(d, year, m) == prev;
        assert WeightAfter(d, year, m) == WeightAfter(d, year, m - 1);
      }
    }
  }

  /** The projected months up to `m` are in ascending order. */
  lemma {:induction false} ProjectedMonthsAscending(d: LotData, year: int, m: nat)
    requires m <= LastMonth
    ensures Ascending(ProjectedMonths(d, year, m))
  {
    if m > 0 {
      ProjectedMonthsAscending(d, year, m - 1);
    }
  }

  /** A month's entry weight in arrobas is the previous exit weight over 15 once some month has been projected. */
  lemma {:induction false} EntryArrobaIsLastExit(d: LotData, year: int, m: nat)
    requires m <= LastMonth
    ensures ProjectedMonths(d, year, m) == [] ==> EntryArrobaAfter(d, year, m) == d.lote.pesoArroba
    ensures ProjectedMonths(d, year, m) != [] ==> EntryArrobaAfter(d, year, m) == WeightAfter(d, year, m) / KgPerArroba
  {
    if m > 0 {
      EntryArrobaIsLastExit(d, year, m - 1);
    }
  }

  /** With non-negative daily gains, each month's exit weight is at least its entry weight, which is at least the lot's entry weight. */
  lemma {:induction false} WeightNeverDrops(d: LotData, year: int, m: nat)
    requires ValidLotData(d) && forall p :: p in d.growth ==> d.growth[p] >= 0.0
    requires m <= LastMonth
    ensures d.lote.pesoKg <= WeightAfter(d, year, m)
    ensures m > 0 ==> WeightAfter(d, year, m - 1) <= WeightAfter(d, year, m)
  {
    if m > 0 {
      var p := Period(year, m);
      if p in d.growth {
        MonthTotalBounds(d.growth[p], p);
      }
      WeightNeverDrops(d, year, m - 1);
    }
  }
}
