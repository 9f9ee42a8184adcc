/**
 * Feed accrual: a feed record holds the daily cost of feeding one animal of a
 * lot in one month; over the month it costs `gasto_diario * days`, and over the
 * lot `gasto_diario * days * quantidade`. The feed dashboard lists each lot's
 * months in ascending (year, month) order and adds, for every month, the cost
 * of every lot that has a record in that month.
 */
module FeedAccrual {
  import opened Calendar
  import opened Periods
  import opened Models

  /** The cost of feeding the whole lot `d` during month `p`. */
  function LotMonthFeed(d: LotData, p: Period): (r: real)
    requires p in d.feed
    ensures d.feed[p] >= 0.0 ==> r >= 0.0
    ensures r == 0.0 <==> d.feed[p] == 0.0 || d.lote.quantidade == 0
  {
    MonthTotalBounds(d.feed[p], p);
    MonthTotal(d.feed[p], p) * (d.lote.quantidade as real)
  }

  /**
   * The lot's monthly feed is `calcular_gasto_mensal` of its record times the
   * head count; a non-negative daily cost gives between 28 and 31 days' worth
   * per head.
   */
  lemma LotMonthFeedFormula(d: LotData, p: Period)
    requires p in d.feed
    ensures LotMonthFeed(d, p) == CalcularGastoMensal(GastoNutricional(p.year, p.month, d.feed[p])) * (d.lote.quantidade as real)
    ensures d.feed[p] >= 0.0 ==>
      28.0 * d.feed[p] * (d.lote.quantidade as real) <= LotMonthFeed(d, p) <= 31.0 * d.feed[p] * (d.lote.quantidade as real)
  {
    var m := MonthTotal(d.feed[p], p);
    var q := d.lote.quantidade as real;
    MonthTotalBounds(d.feed[p], p);
    if d.feed[p] >= 0.0 {
      ScaleBetween(28.0 * d.feed[p], m, 31.0 * d.feed[p], q);
    }
  }

  /** Scaling by a non-negative factor keeps a value between its bounds. */
  lemma ScaleBetween(lo: real, x: real, hi: real, q: real)
    requires lo <= x <= hi && q >= 0.0
    ensures lo * q <= x * q <= hi * q
  {
    assert (x - lo) * q >= 0.0;
    assert (hi - x) * q >= 0.0;
  }

  // --------------------------------------------------- one lot's listing

  /** A line of a lot's feed listing. */
  datatype FeedLine = FeedLine(period: Period, daily: real, days: int, perHead: real, heads: nat, lotTotal: real)

  /** The listing line of the record of month `p`. */
  function FeedLineOf(d: LotData, p: Period): FeedLine
    requires p in d.feed
  {
    FeedLine(p, d.feed[p], DaysInMonth(p.year, p.month), MonthTotal(d.feed[p], p), d.lote.quantidade, LotMonthFeed(d, p))
  }

  /** A listing line accrues its daily cost over the days of its month, per head and then over the lot. */
  lemma FeedLineArithmetic(d: LotData, p: Period)
    requires p in d.feed
    ensures var l := FeedLineOf(d, p);
      && 28 <= l.days <= 31
      && l.perHead == l.daily * (l.days as real)
      && l.lotTotal == l.perHead * (l.heads as real)
      && l.daily == d.feed[p] && l.heads == d.lote.quantidade
  {
  }

  /**
   * The per-lot part of `nutricional_dashboard_view`: the lot's feed records,
   * grouped by year and each year's months sorted, i.e. in ascending (year,
   * month) order, one listing line per record.
   */
  method LotFeedLines(d: LotData) returns (ps: seq<Period>, lines: seq<FeedLine>)
    ensures Ascending(ps) && Enumerates(ps, d.feed.Keys)
    ensures |lines| == |ps|
    ensures forall i :: 0 <= i < |ps| ==> ps[i] in d.feed && lines[i] == FeedLineOf(d, ps[i])
  {
    ps := AscendingPeriods(d.feed.Keys);
    assert forall i :: 0 <= i < |ps| ==> ps[i] in d.feed.Keys;
    lines := ListFeed(d, ps);
  }

  /** The loop over the sorted records of one lot. */
  method ListFeed(d: LotData, ps: seq<Period>) returns (lines: seq<FeedLine>)
    requires forall i :: 0 <= i < |ps| ==> ps[i] in d.feed
    ensures |lines| == |ps|
    ensures forall i :: 0 <= i < |ps| ==> lines[i] == FeedLineOf(d, ps[i])
  {
    lines := [];
    var i := 0;
    while i < |ps|
      invariant 0 <= i <= |ps| && |lines| == i
      invariant forall k :: 0 <= k < i ==> lines[k] == FeedLineOf(d, ps[k])
    {
      var p := ps[i];
      var days := DaysInMonth(p.year, p.month);
      var perHead := MonthTotal(d.feed[p], p);
      var lotTotal := perHead * (d.lote.quantidade as real);
      lines := lines + [FeedLine(p, d.feed[p], days, perHead, d.lote.quantidade, lotTotal)];
      i := i + 1;
    }
  }

  // ---------------------------------------------------- monthly totals

  /** The feed cost of month `p` summed over the lots that have a record for it. */
  function FeedTotal(lots: seq<LotData>, p: Period): (t: real)
    ensures (forall i :: 0 <= i < |lots| ==> ValidLotData(lots[i])) ==> t >= 0.0
  {
    if lots == [] then 0.0
    else
      var n := |lots| - 1;
      var prev := FeedTotal(lots[..n], p);
      assert forall i :: 0 <= i < n ==> lots[..n][i] == lots[i];
      if p in lots[n].feed then
        MonthTotalBounds(lots[n].feed[p], p);
        assert ValidLotData(lots[n]) ==> lots[n].feed[p] >= 0.0;
        prev + LotMonthFeed(lots[n], p)
      else prev
  }

  /** The months that have a feed record in some lot. */
  ghost function FeedMonths(lots: seq<LotData>): set<Period> {
    if lots == [] then {} else FeedMonths(lots[..|lots| - 1]) + lots[|lots| - 1].feed.Keys
  }

  /** A month is a feed month exactly when some lot has a record for it. */
  lemma {:induction false} FeedMonthsSpec(lots: seq<LotData>, p: Period)
    ensures p in FeedMonths(lots) <==> exists i :: 0 <= i < |lots| && p in lots[i].feed
  {
    if lots != [] {
      var n := |lots| - 1;
      FeedMonthsSpec(lots[..n], p);
      if p in FeedMonths(lots[..n]) {
        var i :| 0 <= i < n && p in lots[..n][i].feed;
        assert p in lots[i].feed;
      }
      if i :| 0 <= i < |lots| && p in lots[i].feed {
        if i < n {
          assert p in lots[..n][i].feed;
        }
      }
    }
  }

  /** Totals over a concatenation of lot lists add up. */
  lemma {:induction false} FeedTotalAppend(a: seq<LotData>, b: seq<LotData>, p: Period)
    ensures FeedTotal(a + b, p) == FeedTotal(a, p) + FeedTotal(b, p)
  {
    if b == [] {
      assert a + b == a;
    } else {
      var n := |b| - 1;
      assert (a + b)[..|a + b| - 1] == a + b[..n];
      FeedTotalAppend(a, b[..n], p);
    }
  }

  /** A month in which no lot has a record costs nothing. */
  lemma {:induction false} FeedTotalWithoutRecords(lots: seq<LotData>, p: Period)
    requires forall i :: 0 <= i < |lots| ==> p !in lots[i].feed
    ensures FeedTotal(lots, p) == 0.0
  {
    if lots != [] {
      var n := |lots| - 1;
      assert forall i :: 0 <= i < n ==> lots[..n][i] == lots[i];
      FeedTotalWithoutRecords(lots[..n], p);
    }
  }

  /** A single lot contributes its own monthly feed, or nothing when it has no record. */
  lemma FeedTotalSingle(d: LotData, p: Period)
    ensures p in d.feed ==> FeedTotal([d], p) == LotMonthFeed(d, p)
    ensures p !in d.feed ==> FeedTotal([d], p) == 0.0
  {
    assert [d][..0] == [];
  }

  /** One more lot adds its own monthly feed to the running total. */
  lemma FeedTotalStep(lots: seq<LotData>, i: int, p: Period)
    requires 0 <= i < |lots|
    ensures FeedTotal(lots[..i + 1], p) == FeedTotal(lots[..i], p) + (if p in lots[i].feed then LotMonthFeed(lots[i], p) else 0.0)
  {
    assert lots[..i + 1][..i] == lots[..i];
  }

  /**
   * The totals of `nutricional_dashboard_view`: the months that have a record
   * in some lot, in ascending order, each with its total set to zero, and then,
   * lot by lot, every month the lot has a record for receives the lot's cost.
   */
  method MonthlyFeedTotals(lots: seq<LotData>) returns (months: seq<Period>, totals: map<Period, real>)
    ensures Ascending(months) && Enumerates(months, FeedMonths(lots))
    ensures totals.Keys == FeedMonths(lots)
    ensures forall p :: p in totals ==> totals[p] == FeedTotal(lots, p)
  {
    var keys: set<Period> := {};
    var i := 0;
    while i < |lots|
      invariant 0 <= i <= |lots|
      invariant keys == FeedMonths(lots[..i])
    {
      assert lots[..i + 1][..i] == lots[..i];
      keys := keys + lots[i].feed.Keys;
      i := i + 1;
    }
    assert lots[..|lots|] == lots;
    months := AscendingPeriods(keys);
    forall a, b | 0 <= a < b < |months|
      ensures months[a] != months[b]
    {
      assert Before(months[a], months[b]);
    }
    totals := AccrueLots(lots, months);
    forall p | p in totals
      ensures totals[p] == FeedTotal(lots, p)
    {
      assert p in months;
    }
  }

  /** The loops over the lots and, for each, over the months of the totals. */
  method AccrueLots(lots: seq<LotData>, months: seq<Period>) returns (totals: map<Period, real>)
    requires forall a, b :: 0 <= a < b < |months| ==> months[a] != months[b]
    ensures forall p :: p in totals <==> p in months
    ensures forall k :: 0 <= k < |months| ==> totals[months[k]] == FeedTotal(lots, months[k])
  {
    totals := map[];
    var j := 0;
    while j < |months|
      invariant 0 <= j <= |months|
      invariant forall p :: p in totals <==> p in months[..j]
      invariant forall k :: 0 <= k < j ==> totals[months[k]] == 0.0
    {
      totals := totals[months[j] := 0.0];
      j := j + 1;
    }
    assert months[..|months|] == months;
    var i := 0;
    while i < |lots|
      invariant 0 <= i <= |lots|
      invariant forall p :: p in totals <==> p in months
      invariant forall k :: 0 <= k < |months| ==> totals[months[k]] == FeedTotal(lots[..i], months[k])
    {
      totals := AccrueLot(lots, i, months, totals);
      i := i + 1;
    }
    assert lots[..|lots|] == lots;
  }

  /** One lot's pass: each month the lot has a record for receives the lot's monthly feed. */
  method AccrueLot(lots: seq<LotData>, i: int, months: seq<Period>, before: map<Period, real>)
    returns (totals: map<Period, real>)
    requires 0 <= i < |lots|
    requires forall a, b :: 0 <= a < b < |months| ==> months[a] != months[b]
    requires forall p :: p in before <==> p in months
    requires forall k :: 0 <= k < |months| ==> before[months[k]] == FeedTotal(lots[..i], months[k])
    ensures forall p :: p in totals <==> p in months
    ensures forall k :: 0 <= k < |months| ==> totals[months[k]] == FeedTotal(lots[..i + 1], months[k])
  {
    var d := lots[i];
    totals := before;
    var j := 0;
    while j < |months|
      invariant 0 <= j <= |months|
      invariant forall p :: p in totals <==> p in months
      invariant forall k :: 0 <= k < j ==> totals[months[k]] == FeedTotal(lots[..i + 1], months[k])
      invariant forall k :: j <= k < |months| ==> totals[months[k]] == FeedTotal(lots[..i], months[k])
    {
      var p := months[j];
      FeedTotalStep(lots, i, p);
      if p in d.feed {
        totals := totals[p := totals[p] + LotMonthFeed(d, p)];
      }
      j := j + 1;
    }
  }
}
