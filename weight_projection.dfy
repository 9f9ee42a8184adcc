/**
 * Weight projection of a lot: starting from the lot's entry weight, every month
 * that has a daily-gain record adds `gmd * days_in_month`, walking the months in
 * ascending (year, month) order. The lot dashboard restarts the running weight
 * at the entry weight at the beginning of every year; the billing sheet carries
 * it across years and may replace the recorded daily gains by one constant.
 */
module WeightProjection {
  import opened Wrappers
  import opened Calendar
  import opened Periods
  import opened Models

  /** One projected month: the daily gain used, the month's gain and the weight at the end of the month. */
  datatype WeightPoint = WeightPoint(period: Period, gmd: real, gain: real, weight: real)

  /** Where the daily gain of each month comes from. */
  datatype GainSource = OwnRecords | Constant(gmd: real)

  function RateAt(src: GainSource, growth: map<Period, real>, p: Period): real
    requires p in growth
  {
    match src
    case OwnRecords => growth[p]
    case Constant(g) => g
  }

  /** Every daily gain the source can hand out is non-negative. */
  ghost predicate NonNegativeRates(src: GainSource, growth: map<Period, real>) {
    match src
    case OwnRecords => forall p :: p in growth ==> growth[p] >= 0.0
    case Constant(g) => g >= 0.0
  }

  ghost predicate Covers(ps: seq<Period>, growth: map<Period, real>) {
    forall i :: 0 <= i < |ps| ==> ps[i] in growth
  }

  function PeriodsOf(pts: seq<WeightPoint>): (ps: seq<Period>)
    ensures |ps| == |pts| && forall k :: 0 <= k < |pts| ==> ps[k] == pts[k].period
  {
    seq(|pts|, k requires 0 <= k < |pts| => pts[k].period)
  }

  /** The running weight after the points emitted so far. */
  function LastWeight(start: real, pts: seq<WeightPoint>): real {
    if pts == [] then start else pts[|pts| - 1].weight
  }

  /** Sum of the monthly gains of the points. */
  function TotalGain(pts: seq<WeightPoint>): real {
    if pts == [] then 0.0 else TotalGain(pts[..|pts| - 1]) + pts[|pts| - 1].gain
  }

  /**
   * The projection with one accumulator running over all months of `ps`
   * (`faturamento_view`): each month's weight is the previous month's weight,
   * or the entry weight for the first month, plus that month's gain.
   */
  function Chain(start: real, ps: seq<Period>, growth: map<Period, real>, src: GainSource): (r: seq<WeightPoint>)
    requires Covers(ps, growth)
    ensures |r| == |ps|
    ensures forall k {:trigger r[k]} :: 0 <= k < |r| ==>
      r[k].period == ps[k] && r[k].gmd == RateAt(src, growth, ps[k]) && r[k].gain == MonthTotal(r[k].gmd, ps[k])
  {
    if ps == [] then []
    else
      var prev := Chain(start, ps[..|ps| - 1], growth, src);
      var p := ps[|ps| - 1];
      var g := RateAt(src, growth, p);
      prev + [WeightPoint(p, g, MonthTotal(g, p), LastWeight(start, prev) + MonthTotal(g, p))]
  }

  /** Month `k` opens a year of `ps`: it is the first month, or the previous one lies in another year. */
  predicate OpensYear(ps: seq<Period>, k: int)
    requires 0 <= k < |ps|
  {
    k == 0 || ps[k - 1].year != ps[k].year
  }

  /**
   * The projection of the lot dashboard (`lotes_dashboard_view`): the months'
   * own daily gains, and the accumulator set back to the entry weight at the
   * first month of every year.
   */
  function PerYearChain(start: real, ps: seq<Period>, growth: map<Period, real>): (r: seq<WeightPoint>)
    requires Covers(ps, growth)
    ensures |r| == |ps|
    ensures forall k {:trigger r[k]} :: 0 <= k < |r| ==>
      r[k].period == ps[k] && r[k].gmd == growth[ps[k]] && r[k].gain == MonthTotal(r[k].gmd, ps[k])
  {
    if ps == [] then []
    else
      var prev := PerYearChain(start, ps[..|ps| - 1], growth);
      var p := ps[|ps| - 1];
      var base := if OpensYear(ps, |ps| - 1) then start else LastWeight(start, prev);
      prev + [WeightPoint(p, growth[p], MonthTotal(growth[p], p), base + MonthTotal(growth[p], p))]
  }

  // ------------------------------------------------------------ properties

  /**
   * Month by month, the carried projection uses the source's daily gain, gains
   * that rate over the month's days, and adds the gain to the previous
   * month's weight (the entry weight for the first month).
   */
  lemma {:induction false} ChainShape(start: real, ps: seq<Period>, growth: map<Period, real>, src: GainSource)
    requires Covers(ps, growth)
    ensures var r := Chain(start, ps, growth, src);
      && (forall k :: 0 <= k < |r| ==>
            r[k].period == ps[k] && r[k].gmd == RateAt(src, growth, ps[k]) && r[k].gain == MonthTotal(r[k].gmd, ps[k]))
      && (r != [] ==> r[0].weight == start + r[0].gain)
      && (forall i, j :: 0 <= i && j == i + 1 < |r| ==> r[j].weight == r[i].weight + r[j].gain)
  {
    if ps != [] {
      var n := |ps| - 1;
      var r := Chain(start, ps, growth, src);
      var prev := Chain(start, ps[..n], growth, src);
      ChainShape(start, ps[..n], growth, src);
      assert r == prev + [r[n]];
      forall k | 0 <= k < n
        ensures r[k] == prev[k] && ps[k] == ps[..n][k]
      {
      }
      assert n > 0 ==> LastWeight(start, prev) == r[n - 1].weight;
    }
  }

  /**
   * Month by month, the per-year projection uses the month's own daily gain
   * and adds the month's gain to the previous month's weight, or to the entry
   * weight when the month is the first one or the previous month lies in another year.
   */
  lemma {:induction false} PerYearShape(start: real, ps: seq<Period>, growth: map<Period, real>)
    requires Covers(ps, growth)
    ensures var r := PerYearChain(start, ps, growth);
      && (forall k :: 0 <= k < |r| ==>
            r[k].period == ps[k] && r[k].gmd == growth[ps[k]] && r[k].gain == MonthTotal(r[k].gmd, ps[k]))
      && (r != [] ==> r[0].weight == start + r[0].gain)
      && (forall i, j :: 0 <= i && j == i + 1 < |r| ==>
            r[j].weight == (if ps[i].year != ps[j].year then start else r[i].weight) + r[j].gain)
  {
    if ps != [] {
      var n := |ps| - 1;
      var r := PerYearChain(start, ps, growth);
      var prev := PerYearChain(start, ps[..n], growth);
      PerYearShape(start, ps[..n], growth);
      assert ps[..|ps| - 1] == ps[..n];
      assert r == prev + [r[n]];
      forall k | 0 <= k < n
        ensures r[k] == prev[k] && ps[k] == ps[..n][k]
      {
      }
      assert n > 0 ==> LastWeight(start, prev) == r[n - 1].weight;
    }
  }

  /** Extending the months by one appends exactly one point to the carried projection. */
  lemma ChainStep(start: real, ps: seq<Period>, growth: map<Period, real>, src: GainSource, i: int)
    requires Covers(ps, growth) && 0 <= i < |ps|
    ensures var prev := Chain(start, ps[..i], growth, src);
            var gain := MonthTotal(RateAt(src, growth, ps[i]), ps[i]);
            Chain(start, ps[..i + 1], growth, src)
              == prev + [WeightPoint(ps[i], RateAt(src, growth, ps[i]), gain, LastWeight(start, prev) + gain)]
  {
    assert ps[..i + 1][..i] == ps[..i];
  }

  /** Carrying the weight through one more month adds that month's gain to the final weight. */
  lemma ChainAppend(start: real, ps: seq<Period>, p: Period, growth: map<Period, real>)
    requires Covers(ps, growth) && p in growth
    ensures Covers(ps + [p], growth)
    ensures LastWeight(start, Chain(start, ps + [p], growth, OwnRecords))
         == LastWeight(start, Chain(start, ps, growth, OwnRecords)) + MonthTotal(growth[p], p)
  {
    var qs := ps + [p];
    assert qs[..|qs| - 1] == ps;
  }

  /**
   * Extending the months by one appends exactly one point to the per-year
   * projection, whose weight is `base` (the entry weight when the month opens
   * a year, the running weight otherwise) plus the month's gain.
   */
  lemma PerYearStep(start: real, ps: seq<Period>, growth: map<Period, real>, i: int, points: seq<WeightPoint>, base: real)
    requires Covers(ps, growth) && 0 <= i < |ps|
    requires points == PerYearChain(start, ps[..i], growth)
    requires base == if OpensYear(ps, i) then start else LastWeight(start, points)
    ensures var gain := MonthTotal(growth[ps[i]], ps[i]);
            var next := points + [WeightPoint(ps[i], growth[ps[i]], gain, base + gain)];
            next == PerYearChain(start, ps[..i + 1], growth) && LastWeight(start, next) == base + gain
  {
    assert ps[..i + 1][..i] == ps[..i];
  }

  /** The final weight of the carried projection is the entry weight plus all monthly gains. */
  lemma {:induction false} ChainEndsAtTotalGain(start: real, ps: seq<Period>, growth: map<Period, real>, src: GainSource)
    requires Covers(ps, growth)
    ensures LastWeight(start, Chain(start, ps, growth, src)) == start + TotalGain(Chain(start, ps, growth, src))
  {
    if ps != [] {
      var r := Chain(start, ps, growth, src);
      ChainEndsAtTotalGain(start, ps[..|ps| - 1], growth, src);
      assert r[..|r| - 1] == Chain(start, ps[..|ps| - 1], growth, src);
    }
  }

  /** Points whose weights never step down, starting at or above `start`, are ordered. */
  lemma {:induction false} StepsUp(start: real, r: seq<WeightPoint>, i: int, j: int)
    requires r != [] ==> start <= r[0].weight
    requires forall a, b :: 0 <= a && b == a + 1 < |r| ==> r[a].weight <= r[b].weight
    requires 0 <= i <= j < |r|
    ensures start <= r[i].weight <= r[j].weight
    decreases j
  {
    if j > i {
      StepsUp(start, r, i, j - 1);
      assert r[j - 1].weight <= r[j].weight;
    } else if i > 0 {
      StepsUp(start, r, i - 1, i - 1);
      assert r[i - 1].weight <= r[i].weight;
    }
  }

  /** With non-negative daily gains the carried projection never goes down and never falls below the entry weight. */
  lemma ChainNonDecreasing(start: real, ps: seq<Period>, growth: map<Period, real>, src: GainSource)
    requires Covers(ps, growth) && NonNegativeRates(src, growth)
    ensures forall i, j :: 0 <= i <= j < |ps| ==>
      start <= Chain(start, ps, growth, src)[i].weight <= Chain(start, ps, growth, src)[j].weight
  {
    var r := Chain(start, ps, growth, src);
    ChainShape(start, ps, growth, src);
    forall k | 0 <= k < |r|
      ensures r[k].gain >= 0.0
    {
      assert ps[k] in growth;
      MonthTotalBounds(r[k].gmd, ps[k]);
    }
    forall i, j | 0 <= i <= j < |ps|
      ensures start <= r[i].weight <= r[j].weight
    {
      StepsUp(start, r, i, j);
    }
  }

  /** With non-negative daily gains, restarting every year never projects more than carrying the weight over. */
  lemma PerYearNeverAboveCarried(start: real, ps: seq<Period>, growth: map<Period, real>)
    requires Covers(ps, growth) && NonNegativeRates(OwnRecords, growth)
    ensures forall k :: 0 <= k < |ps| ==>
      PerYearChain(start, ps, growth)[k].weight <= Chain(start, ps, growth, OwnRecords)[k].weight
  {
    var a := PerYearChain(start, ps, growth);
    var b := Chain(start, ps, growth, OwnRecords);
    ChainNonDecreasing(start, ps, growth, OwnRecords);
    forall k | 0 <= k < |ps|
      ensures a[k].weight <= b[k].weight
    {
      PerYearBelowAt(start, ps, growth, a, b, k);
    }
  }

  lemma {:induction false} PerYearBelowAt(start: real, ps: seq<Period>, growth: map<Period, real>,
                                          a: seq<WeightPoint>, b: seq<WeightPoint>, k: int)
    requires Covers(ps, growth)
    requires a == PerYearChain(start, ps, growth) && b == Chain(start, ps, growth, OwnRecords)
    requires forall i :: 0 <= i < |ps| ==> start <= b[i].weight
    requires 0 <= k < |ps|
    ensures a[k].weight <= b[k].weight
    decreases k
  {
    PerYearShape(start, ps, growth);
    ChainShape(start, ps, growth, OwnRecords);
    if k > 0 {
      PerYearBelowAt(start, ps, growth, a, b, k - 1);
      assert a[k - 1].weight <= b[k - 1].weight && start <= b[k - 1].weight;
      assert a[k].gain == b[k].gain;
    } else {
      assert a[0].gain == b[0].gain;
    }
  }

  /**
   * With non-negative daily gains the dashboard projection never falls below
   * the entry weight, and never goes down from one month to the next within a year.
   */
  lemma PerYearAboveEntry(start: real, ps: seq<Period>, growth: map<Period, real>)
    requires Covers(ps, growth) && NonNegativeRates(OwnRecords, growth)
    ensures forall k :: 0 <= k < |ps| ==> start <= PerYearChain(start, ps, growth)[k].weight
    ensures forall i, j :: 0 <= i && j == i + 1 < |ps| && ps[i].year == ps[j].year ==>
      PerYearChain(start, ps, growth)[i].weight <= PerYearChain(start, ps, growth)[j].weight
  {
    var a := PerYearChain(start, ps, growth);
    PerYearShape(start, ps, growth);
    forall k | 0 <= k < |a|
      ensures a[k].gain >= 0.0
    {
      assert ps[k] in growth;
      MonthTotalBounds(a[k].gmd, ps[k]);
    }
    forall k | 0 <= k < |ps|
      ensures start <= a[k].weight
    {
      PerYearAboveEntryAt(start, ps, growth, a, k);
    }
  }

  lemma {:induction false} PerYearAboveEntryAt(start: real, ps: seq<Period>, growth: map<Period, real>,
                                               a: seq<WeightPoint>, k: int)
    requires Covers(ps, growth)
    requires a == PerYearChain(start, ps, growth) && forall i :: 0 <= i < |a| ==> a[i].gain >= 0.0
    requires 0 <= k < |ps|
    ensures start <= a[k].weight
    decreases k
  {
    PerYearShape(start, ps, growth);
    if k > 0 {
      PerYearAboveEntryAt(start, ps, growth, a, k - 1);
      assert a[k].weight == (if ps[k - 1].year != ps[k].year then start else a[k - 1].weight) + a[k].gain;
    }
  }

  /** Within a single year the two projections agree. */
  lemma SingleYearProjectionsAgree(start: real, ps: seq<Period>, growth: map<Period, real>)
    requires Covers(ps, growth)
    requires forall k :: 0 <= k < |ps| ==> ps[k].year == ps[0].year
    ensures PerYearChain(start, ps, growth) == Chain(start, ps, growth, OwnRecords)
  {
    var a := PerYearChain(start, ps, growth);
    var b := Chain(start, ps, growth, OwnRecords);
    forall k | 0 <= k < |ps|
      ensures a[k] == b[k]
    {
      SameAt(start, ps, growth, a, b, k);
    }
  }

  lemma {:induction false} SameAt(start: real, ps: seq<Period>, growth: map<Period, real>,
                                  a: seq<WeightPoint>, b: seq<WeightPoint>, k: int)
    requires Covers(ps, growth)
    requires forall k :: 0 <= k < |ps| ==> ps[k].year == ps[0].year
    requires a == PerYearChain(start, ps, growth) && b == Chain(start, ps, growth, OwnRecords)
    requires 0 <= k < |ps|
    ensures a[k] == b[k]
    decreases k
  {
    PerYearShape(start, ps, growth);
    ChainShape(start, ps, growth, OwnRecords);
    if k > 0 {
      SameAt(start, ps, growth, a, b, k - 1);
      assert ps[k - 1].year == ps[k].year;
      assert a[k].weight == a[k - 1].weight + a[k].gain;
    }
  }

  /**
   * The dashboard's yearly restart makes the projected weight fall at a year
   * boundary: 200 kg, 1.0 kg/day in December 2024 and 0.5 kg/day in January
   * 2025 give 231 kg and then 215.5 kg, where the carried projection gives 246.5 kg.
   */
  lemma DashboardDropsAtYearBoundary()
    ensures var ps := [Period(2024, 12), Period(2025, 1)];
            var growth := map[Period(2024, 12) := 1.0, Period(2025, 1) := 0.5];
            && PerYearChain(200.0, ps, growth)[0].weight == 231.0
            && PerYearChain(200.0, ps, growth)[1].weight == 215.5
            && Chain(200.0, ps, growth, OwnRecords)[1].weight == 246.5
  {
    var ps := [Period(2024, 12), Period(2025, 1)];
    var growth := map[Period(2024, 12) := 1.0, Period(2025, 1) := 0.5];
    assert DaysInMonth(2024, 12) == 31 && DaysInMonth(2025, 1) == 31;
    var a := PerYearChain(200.0, ps, growth);
    var b := Chain(200.0, ps, growth, OwnRecords);
    PerYearShape(200.0, ps, growth);
    ChainShape(200.0, ps, growth, OwnRecords);
    assert a[0].weight == 200.0 + a[0].gain && a[1].weight == 200.0 + a[1].gain;
    assert b[1].weight == b[0].weight + b[1].gain;
  }

  // ----------------------------------------------------- the two views

  /** A map holding every element of an enumeration of `keys` holds all of `keys`. */
  lemma EnumeratedKeysCovered(ps: seq<Period>, keys: set<Period>, m: map<Period, real>)
    requires Enumerates(ps, keys) && forall k :: 0 <= k < |ps| ==> ps[k] in m
    ensures keys <= m.Keys
  {
    forall p | p in keys
      ensures p in m
    {
      var k :| 0 <= k < |ps| && ps[k] == p;
    }
  }

  /**
   * `lotes_dashboard_view`, one lot: the lot's months with a daily-gain record
   * grouped by year in ascending order; within each year, in ascending month
   * order, the weight accumulated from the entry weight.
   */
  method LotDashboardProjection(lot: LotData) returns (ps: seq<Period>, points: seq<WeightPoint>)
    ensures Ascending(ps) && Enumerates(ps, lot.growth.Keys) && Covers(ps, lot.growth)
    ensures points == PerYearChain(lot.lote.pesoKg, ps, lot.growth)
  {
    ps := AscendingPeriods(lot.growth.Keys);
    assert Covers(ps, lot.growth);
    points := ProjectByYear(lot.lote.pesoKg, ps, lot.growth);
  }

  /** The loops of `lotes_dashboard_view` over the years of `ps` and, inside each, over its months. */
  method ProjectByYear(start: real, ps: seq<Period>, growth: map<Period, real>) returns (points: seq<WeightPoint>)
    requires Covers(ps, growth)
    ensures points == PerYearChain(start, ps, growth)
  {
    points := [];
    var i := 0;
    while i < |ps|
      invariant 0 <= i <= |ps|
      invariant points == PerYearChain(start, ps[..i], growth)
      invariant i < |ps| ==> OpensYear(ps, i)
    {
      // one year: the accumulator starts again from the entry weight
      var year := ps[i].year;
      var acc := start;
      var first := i;
      while i < |ps| && ps[i].year == year
        invariant first <= i <= |ps| && first < |ps| && ps[first].year == year
        invariant OpensYear(ps, first)
        invariant i > first ==> ps[i - 1].year == year
        invariant points == PerYearChain(start, ps[..i], growth)
        invariant acc == if i == first then start else LastWeight(start, points)
        decreases |ps| - i
      {
        points, acc := NextYearPoint(start, ps, growth, i, points, acc);
        i := i + 1;
      }
    }
    assert ps[..|ps|] == ps;
  }

  /** The inner loop's body: month `i` gains its own daily gain over its days on top of the accumulator `acc`. */
  method NextYearPoint(start: real, ps: seq<Period>, growth: map<Period, real>, i: int, points: seq<WeightPoint>, acc: real)
    returns (next: seq<WeightPoint>, weight: real)
    requires Covers(ps, growth) && 0 <= i < |ps|
    requires points == PerYearChain(start, ps[..i], growth)
    requires acc == if OpensYear(ps, i) then start else LastWeight(start, points)
    ensures next == PerYearChain(start, ps[..i + 1], growth) && weight == LastWeight(start, next)
  {
    PerYearStep(start, ps, growth, i, points, acc);
    var gain := MonthTotal(growth[ps[i]], ps[i]);
    next := points + [WeightPoint(ps[i], growth[ps[i]], gain, acc + gain)];
    weight := acc + gain;
  }

  /**
   * `faturamento_view`, one lot: one accumulator, started at the entry weight
   * and carried through the lot's months in ascending (year, month) order; the
   * month's gain and the accumulated weight are filed under the month.
   */
  method LotEvolution(start: real, ps: seq<Period>, growth: map<Period, real>, src: GainSource)
    returns (gains: map<Period, real>, weights: map<Period, real>)
    requires Ascending(ps) && Enumerates(ps, growth.Keys)
    ensures gains.Keys == weights.Keys == growth.Keys
    ensures forall k :: 0 <= k < |ps| ==>
      gains[ps[k]] == Chain(start, ps, growth, src)[k].gain && weights[ps[k]] == Chain(start, ps, growth, src)[k].weight
  {
    assert Covers(ps, growth);
    forall a, b | 0 <= a < b < |ps|
      ensures ps[a] != ps[b]
    {
      assert Before(ps[a], ps[b]);
    }
    gains, weights := CarryWeights(start, ps, growth, src);
    EnumeratedKeysCovered(ps, growth.Keys, gains);
  }

  /** The loop of `faturamento_view` over one lot's months, with the accumulator carried throughout. */
  method CarryWeights(start: real, ps: seq<Period>, growth: map<Period, real>, src: GainSource)
    returns (gains: map<Period, real>, weights: map<Period, real>)
    requires Covers(ps, growth)
    requires forall a, b :: 0 <= a < b < |ps| ==> ps[a] != ps[b]
    ensures gains.Keys == weights.Keys <= growth.Keys
    ensures forall k :: 0 <= k < |ps| ==>
      ps[k] in gains && gains[ps[k]] == Chain(start, ps, growth, src)[k].gain && weights[ps[k]] == Chain(start, ps, growth, src)[k].weight
  {
    ghost var r := Chain(start, ps, growth, src);
    ChainShape(start, ps, growth, src);
    gains, weights := map[], map[];
    var acc := start;
    var i := 0;
    while i < |ps|
      invariant 0 <= i <= |ps|
      invariant acc == if i == 0 then start else r[i - 1].weight
      invariant gains.Keys == weights.Keys <= growth.Keys
      invariant forall k :: 0 <= k < i ==> ps[k] in gains && gains[ps[k]] == r[k].gain && weights[ps[k]] == r[k].weight
    {
      var gain := MonthTotal(RateAt(src, growth, ps[i]), ps[i]);
      assert i > 0 ==> r[i].weight == r[i - 1].weight + r[i].gain;
      acc := acc + gain;
      gains := gains[ps[i] := gain];
      weights := weights[ps[i] := acc];
      i := i + 1;
    }
  }

  // ------------------------------------------------------- all the lots

  /** Indices, in order, of the lots that have at least one daily-gain record (the others are skipped). */
  function WithGrowth(lots: seq<LotData>): (r: seq<nat>)
    ensures forall a, b :: 0 <= a < b < |r| ==> r[a] < r[b]
    ensures forall a :: 0 <= a < |r| ==> r[a] < |lots| && lots[r[a]].growth != map[]
    ensures forall k :: 0 <= k < |lots| && lots[k].growth != map[] ==> k in r
  {
    if lots == [] then []
    else
      var n := |lots| - 1;
      var init := WithGrowth(lots[..n]);
      assert forall k :: 0 <= k < n ==> lots[..n][k] == lots[k];
      init + (if lots[n].growth != map[] then [n] else [])
  }

  /** One more lot appends its own index when it has daily-gain records. */
  lemma WithGrowthStep(lots: seq<LotData>, k: int)
    requires 0 <= k < |lots|
    ensures WithGrowth(lots[..k + 1]) == WithGrowth(lots[..k]) + (if lots[k].growth != map[] then [k] else [])
  {
    assert lots[..k + 1][..k] == lots[..k];
  }

  /** A lot's line in the dashboard: its palette slot (position in the lot list modulo 10) and its projection. */
  datatype DashboardRow = DashboardRow(lotIndex: nat, color: nat, months: seq<Period>, points: seq<WeightPoint>)

  const PaletteSize := 10

  /** `row` is the dashboard line of the lot at position `k`. */
  ghost predicate DashboardLine(row: DashboardRow, lots: seq<LotData>, k: nat)
    requires k < |lots|
  {
    && row.lotIndex == k && row.color == k % PaletteSize
    && Ascending(row.months) && Enumerates(row.months, lots[k].growth.Keys) && Covers(row.months, lots[k].growth)
    && row.points == PerYearChain(lots[k].lote.pesoKg, row.months, lots[k].growth)
  }

  /**
   * `lotes_dashboard_view`: one line per lot that has daily-gain records, in
   * the lots' order, each holding the per-year projection of its months.
   */
  method LotsDashboard(lots: seq<LotData>) returns (rows: seq<DashboardRow>)
    ensures |rows| == |WithGrowth(lots)|
    ensures forall r :: 0 <= r < |rows| ==> DashboardLine(rows[r], lots, WithGrowth(lots)[r])
  {
    rows := [];
    var k := 0;
    while k < |lots|
      invariant 0 <= k <= |lots|
      invariant |rows| == |WithGrowth(lots[..k])|
      invariant forall r :: 0 <= r < |rows| ==> WithGrowth(lots[..k])[r] < k && DashboardLine(rows[r], lots, WithGrowth(lots[..k])[r])
    {
      WithGrowthStep(lots, k);
      if lots[k].growth != map[] {
        var months, points := LotDashboardProjection(lots[k]);
        rows := rows + [DashboardRow(k, k % PaletteSize, months, points)];
      }
      k := k + 1;
    }
    assert lots[..|lots|] == lots;
  }

  // --------------------------------------------- billing-sheet daily gains

  /** Lot ids are primary keys: no two lots share one. */
  predicate DistinctIds(lots: seq<LotData>) {
    forall a, b :: 0 <= a < b < |lots| ==> lots[a].lote.id != lots[b].lote.id
  }

  /**
   * `gmd_por_lote` on a GET of the billing sheet: the saved last daily gain of
   * every lot whose saved value is set and non-zero, keyed by lot id.
   */
  function SavedGainsOf(lots: seq<LotData>): (m: map<nat, real>)
    ensures forall k :: 0 <= k < |lots| && Truthy(lots[k].lote.lastGmd) ==> lots[k].lote.id in m
    ensures forall id :: id in m ==>
      exists k :: 0 <= k < |lots| && lots[k].lote.id == id && Truthy(lots[k].lote.lastGmd) && m[id] == lots[k].lote.lastGmd.value
  {
    if lots == [] then map[]
    else
      var n := |lots| - 1;
      var m := SavedGainsOf(lots[..n]);
      assert forall k :: 0 <= k < n ==> lots[..n][k] == lots[k];
      if Truthy(lots[n].lote.lastGmd) then m[lots[n].lote.id := lots[n].lote.lastGmd.value] else m
  }

  /** The loop that fills `gmd_por_lote` from the lots' saved values. */
  method SavedGains(lots: seq<LotData>) returns (saved: map<nat, real>)
    ensures saved == SavedGainsOf(lots)
  {
    saved := map[];
    var k := 0;
    while k < |lots|
      invariant 0 <= k <= |lots|
      invariant saved == SavedGainsOf(lots[..k])
    {
      assert lots[..k + 1][..k] == lots[..k];
      if Truthy(lots[k].lote.lastGmd) {
        saved := saved[lots[k].lote.id := lots[k].lote.lastGmd.value];
      }
      k := k + 1;
    }
    assert lots[..|lots|] == lots;
  }

  /**
   * The daily gain a lot's billing rows use: the months' own records when no
   * lot at all has a saved gain; otherwise one constant for every month, the
   * lot's saved gain or, failing that, the gain of its earliest month.
   */
  function ChooseSource(id: nat, saved: map<nat, real>, firstGmd: real): (src: GainSource)
    ensures src == OwnRecords <==> |saved| == 0
    ensures |saved| > 0 && id in saved ==> src == Constant(saved[id])
    ensures |saved| > 0 && id !in saved ==> src == Constant(firstGmd)
  {
    if |saved| == 0 then OwnRecords
    else if id in saved then Constant(saved[id])
    else Constant(firstGmd)
  }

  /**
   * With unique lot ids: the months' own records are used exactly when no lot
   * has a saved gain; a lot with a saved gain uses it; and once any lot has a
   * saved gain, a lot without one uses its earliest month's gain for every month.
   */
  lemma GainPolicy(lots: seq<LotData>, k: int, firstGmd: real)
    requires DistinctIds(lots) && 0 <= k < |lots|
    ensures var src := ChooseSource(lots[k].lote.id, SavedGainsOf(lots), firstGmd);
      && (src == OwnRecords <==> forall j :: 0 <= j < |lots| ==> !Truthy(lots[j].lote.lastGmd))
      && (Truthy(lots[k].lote.lastGmd) ==> src == Constant(lots[k].lote.lastGmd.value))
      && (!Truthy(lots[k].lote.lastGmd) && (exists j :: 0 <= j < |lots| && Truthy(lots[j].lote.lastGmd)) ==>
            src == Constant(firstGmd))
  {
    var saved := SavedGainsOf(lots);
    var id := lots[k].lote.id;
    if exists j :: 0 <= j < |lots| && Truthy(lots[j].lote.lastGmd) {
      var j :| 0 <= j < |lots| && Truthy(lots[j].lote.lastGmd);
      assert lots[j].lote.id in saved;
    }
    if |saved| != 0 {
      var x :| x in saved;
      var j :| 0 <= j < |lots| && lots[j].lote.id == x && Truthy(lots[j].lote.lastGmd);
    }
    SavedGainOfLot(lots, k);
  }

  /** With unique lot ids, a lot's id is among the saved gains exactly when its own saved gain is set and non-zero, with that value. */
  lemma SavedGainOfLot(lots: seq<LotData>, k: int)
    requires DistinctIds(lots) && 0 <= k < |lots|
    ensures lots[k].lote.id in SavedGainsOf(lots) <==> Truthy(lots[k].lote.lastGmd)
    ensures Truthy(lots[k].lote.lastGmd) ==> SavedGainsOf(lots)[lots[k].lote.id] == lots[k].lote.lastGmd.value
  {
    var saved := SavedGainsOf(lots);
    var id := lots[k].lote.id;
    if id in saved {
      var j :| 0 <= j < |lots| && lots[j].lote.id == id && Truthy(lots[j].lote.lastGmd) && saved[id] == lots[j].lote.lastGmd.value;
      assert j == k;
    }
  }

  /** A billing line of one lot: the lot's months, the gain source used, and the gains and weights filed per month. */
  datatype EvolutionRow = EvolutionRow(lotIndex: nat, months: seq<Period>, source: GainSource,
                                       gains: map<Period, real>, weights: map<Period, real>)

  /** `row` is the billing line of the lot at position `k`, given the saved gains `saved`. */
  ghost predicate EvolutionLine(row: EvolutionRow, lots: seq<LotData>, saved: map<nat, real>, k: nat)
    requires k < |lots|
  {
    var lot := lots[k];
    && row.lotIndex == k && row.months != []
    && Ascending(row.months) && Enumerates(row.months, lot.growth.Keys) && Covers(row.months, lot.growth)
    && row.source == ChooseSource(lot.lote.id, saved, lot.growth[row.months[0]])
    && row.gains.Keys == row.weights.Keys == lot.growth.Keys
    && forall m :: 0 <= m < |row.months| ==>
         && row.gains[row.months[m]] == Chain(lot.lote.pesoKg, row.months, lot.growth, row.source)[m].gain
         && row.weights[row.months[m]] == Chain(lot.lote.pesoKg, row.months, lot.growth, row.source)[m].weight
  }

  /** The billing line of one lot that has daily-gain records. */
  method LotBillingLine(lots: seq<LotData>, saved: map<nat, real>, k: nat) returns (row: EvolutionRow)
    requires k < |lots| && lots[k].growth != map[]
    ensures EvolutionLine(row, lots, saved, k)
  {
    var lot := lots[k];
    var months := AscendingPeriods(lot.growth.Keys);
    assert months != [] by {
      var p :| p in lot.growth;
    }
    assert Covers(months, lot.growth);
    var src := ChooseSource(lot.lote.id, saved, lot.growth[months[0]]);
    var gains, weights := LotEvolution(lot.lote.pesoKg, months, lot.growth, src);
    row := EvolutionRow(k, months, src, gains, weights);
  }

  /**
   * `faturamento_view` on a GET: the saved gains, then one line per lot that
   * has daily-gain records, in the lots' order.
   */
  method BillingProjection(lots: seq<LotData>) returns (saved: map<nat, real>, rows: seq<EvolutionRow>)
    ensures saved == SavedGainsOf(lots)
    ensures |rows| == |WithGrowth(lots)|
    ensures forall r :: 0 <= r < |rows| ==> EvolutionLine(rows[r], lots, saved, WithGrowth(lots)[r])
  {
    saved := SavedGains(lots);
    rows := [];
    var k := 0;
    while k < |lots|
      invariant 0 <= k <= |lots|
      invariant |rows| == |WithGrowth(lots[..k])|
      invariant forall r :: 0 <= r < |rows| ==>
        WithGrowth(lots[..k])[r] < k && EvolutionLine(rows[r], lots, saved, WithGrowth(lots[..k])[r])
    {
      rows := NextBillingLine(lots, saved, k, rows);
      k := k + 1;
    }
    assert lots[..|lots|] == lots;
  }

  /** One pass of the billing loop: the lot at `k` gets its line when it has daily-gain records. */
  method NextBillingLine(lots: seq<LotData>, saved: map<nat, real>, k: int, rows: seq<EvolutionRow>) returns (next: seq<EvolutionRow>)
    requires 0 <= k < |lots|
    requires |rows| == |WithGrowth(lots[..k])|
    requires forall r :: 0 <= r < |rows| ==>
      WithGrowth(lots[..k])[r] < k && EvolutionLine(rows[r], lots, saved, WithGrowth(lots[..k])[r])
    ensures |next| == |WithGrowth(lots[..k + 1])|
    ensures forall r :: 0 <= r < |next| ==>
      WithGrowth(lots[..k + 1])[r] < k + 1 && EvolutionLine(next[r], lots, saved, WithGrowth(lots[..k + 1])[r])
  {
    WithGrowthStep(lots, k);
    next := rows;
    if lots[k].growth != map[] {
      var row := LotBillingLine(lots, saved, k);
      next := rows + [row];
    }
  }

  /**
   * Once any lot has a saved gain, a lot without one is projected with its
   * earliest month's gain in every month, whatever its later records say.
   */
  lemma SavedGainFlattensOtherLots(lots: seq<LotData>, row: EvolutionRow, k: nat, j: nat)
    requires DistinctIds(lots) && k < |lots| && j < |lots|
    requires EvolutionLine(row, lots, SavedGainsOf(lots), k)
    requires Truthy(lots[j].lote.lastGmd) && !Truthy(lots[k].lote.lastGmd)
    ensures forall m :: 0 <= m < |row.months| ==>
      Chain(lots[k].lote.pesoKg, row.months, lots[k].growth, row.source)[m].gmd == lots[k].growth[row.months[0]]
  {
    GainPolicy(lots, k, lots[k].growth[row.months[0]]);
    ChainShape(lots[k].lote.pesoKg, row.months, lots[k].growth, row.source);
  }
}
