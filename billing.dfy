/**
 * Yield and revenue of the billing sheet: the last projected weight of each
 * lot, converted to carcass arrobas with the property's saved carcass yield,
 * multiplied by the head count and then by the lot's saved arroba price.
 */
module Billing {
  import opened Wrappers
  import opened Calendar
  import opened Periods
  import opened Models
  import opened WeightProjection

  /** Kilograms of carcass in one arroba. */
  const KgPerArroba: real := 15.0

  /** Carcass arrobas of one animal of live weight `weight` at a carcass yield of `yieldPct` percent. */
  function CarcassArrobas(weight: real, yieldPct: real): (r: real)
    ensures r * 1500.0 == weight * yieldPct
    ensures weight >= 0.0 && yieldPct >= 0.0 ==> r >= 0.0
  {
    weight * (yieldPct / 100.0) / KgPerArroba
  }

  /** A non-negative weight at a yield in [0, 100] gives between none and a fifteenth of the weight in arrobas. */
  lemma CarcassArrobasBounds(weight: real, yieldPct: real)
    requires weight >= 0.0 && 0.0 <= yieldPct <= 100.0
    ensures 0.0 <= CarcassArrobas(weight, yieldPct) <= weight / KgPerArroba
  {
    assert 0.0 <= weight * (yieldPct / 100.0) <= weight;
  }

  /** The latest period of a set of periods: every other one comes before it. */
  ghost predicate IsLatest(p: Period, s: set<Period>) {
    p in s && forall q :: q in s && q != p ==> Before(q, p)
  }

  /** The weight filed under the latest month: the keys are sorted and the last one is taken. */
  method FinalWeight(weights: map<Period, real>) returns (latest: Period, w: real)
    requires weights != map[]
    ensures IsLatest(latest, weights.Keys) && w == weights[latest]
  {
    var keys := AscendingPeriods(weights.Keys);
    LastIsLatest(keys, weights.Keys);
    latest := keys[|keys| - 1];
    w := weights[latest];
  }

  /** The projected weight at the end of a billing line: the entry weight plus every monthly gain. */
  ghost function ProjectedFinalWeight(lot: LotData, row: EvolutionRow): real
    requires Covers(row.months, lot.growth)
  {
    lot.lote.pesoKg + TotalGain(Chain(lot.lote.pesoKg, row.months, lot.growth, row.source))
  }

  /** The weight under the latest key of a billing line is the weight after all of the lot's months. */
  lemma {:induction false} LatestWeightIsFinal(lots: seq<LotData>, saved: map<nat, real>, row: EvolutionRow, k: nat, p: Period)
    requires k < |lots| && EvolutionLine(row, lots, saved, k)
    requires IsLatest(p, row.weights.Keys)
    ensures row.weights[p] == ProjectedFinalWeight(lots[k], row)
  {
    var lot := lots[k];
    var n := |row.months| - 1;
    var last := row.months[n];
    assert last in lot.growth.Keys;
    assert p in row.months;
    var i :| 0 <= i < |row.months| && row.months[i] == p;
    assert i < n ==> Before(p, last);
    assert p != last ==> Before(last, p);
    var r := Chain(lot.lote.pesoKg, row.months, lot.growth, row.source);
    ChainEndsAtTotalGain(lot.lote.pesoKg, row.months, lot.growth, row.source);
    assert row.weights[last] == r[n].weight;
  }

  // ------------------------------------------------- which lot a line reads

  /**
   * Where a yield or revenue line reads its lot id, head count and arroba
   * price. `ByName` is `lotes_dict.get(lote_nome)`, the dictionary built over
   * the lots keyed by name, as the page does; `OwnLot` is the line's own lot.
   */
  datatype Lookup = ByName | OwnLot

  /** `lotes_dict.get(nome)`: the dictionary built over the lots keyed by name keeps the last lot of each name. */
  function LotByName(lots: seq<LotData>, name: string): (r: Option<nat>)
    ensures r.Some? ==> r.value < |lots| && lots[r.value].lote.nome == name
    ensures r.Some? ==> forall j :: r.value < j < |lots| ==> lots[j].lote.nome != name
    ensures r.None? <==> forall j :: 0 <= j < |lots| ==> lots[j].lote.nome != name
  {
    if lots == [] then None
    else
      var n := |lots| - 1;
      if lots[n].lote.nome == name then Some(n)
      else
        assert forall j :: 0 <= j < n ==> lots[..n][j] == lots[j];
        LotByName(lots[..n], name)
  }

  /** The last lot carrying the name of lot `k`: `k` itself, or a later namesake. */
  function LastNamed(lots: seq<LotData>, k: nat): (i: nat)
    requires k < |lots|
    ensures k <= i < |lots| && lots[i].lote.nome == lots[k].lote.nome
    ensures forall j :: i < j < |lots| ==> lots[j].lote.nome != lots[k].lote.nome
  {
    var n := |lots| - 1;
    if lots[n].lote.nome == lots[k].lote.nome then n
    else
      assert forall j :: 0 <= j < n ==> lots[..n][j] == lots[j];
      LastNamed(lots[..n], k)
  }

  /** The lot whose id, head count and price a line of lot `k` uses. */
  function SourceLot(lots: seq<LotData>, k: nat, how: Lookup): (i: nat)
    requires k < |lots|
    ensures i < |lots| && lots[i].lote.nome == lots[k].lote.nome
    ensures how == OwnLot ==> i == k
    ensures how == ByName ==> k <= i && forall j :: i < j < |lots| ==> lots[j].lote.nome != lots[k].lote.nome
  {
    match how
    case ByName => LastNamed(lots, k)
    case OwnLot => k
  }

  /** The dictionary lookup by a lot's own name always finds a lot: the one `ByName` reads. */
  lemma LookupIsLastNamed(lots: seq<LotData>, k: nat)
    requires k < |lots|
    ensures LotByName(lots, lots[k].lote.nome) == Some(SourceLot(lots, k, ByName))
  {
    var r := LotByName(lots, lots[k].lote.nome);
    var i := SourceLot(lots, k, ByName);
    assert r.Some?;
    assert lots[i].lote.nome == lots[k].lote.nome && lots[r.value].lote.nome == lots[k].lote.nome;
  }

  /** Lots carry different names. */
  predicate DistinctNames(lots: seq<LotData>) {
    forall a, b :: 0 <= a < b < |lots| ==> lots[a].lote.nome != lots[b].lote.nome
  }

  /** With distinct names the lookup by name finds the lot itself, so both lookups agree. */
  lemma LookupsAgreeWithDistinctNames(lots: seq<LotData>, k: nat)
    requires DistinctNames(lots) && k < |lots|
    ensures LotByName(lots, lots[k].lote.nome) == Some(k)
    ensures SourceLot(lots, k, ByName) == SourceLot(lots, k, OwnLot) == k
  {
    LookupIsLastNamed(lots, k);
  }

  // ---------------------------------------------------------- the yield table

  /** A line of the yield table. */
  datatype YieldRow = YieldRow(lotIndex: nat, lotId: nat, finalWeight: real, arrobasPerHead: real, heads: nat, total: real)

  /** The yield line of the evolution line of lot `k`, whose projection ends at `finalWeight`, with the id and head count of `lot`. */
  function YieldOf(k: nat, lot: LotData, finalWeight: real, yieldPct: real): (y: YieldRow)
    ensures y.lotIndex == k && y.lotId == lot.lote.id && y.heads == lot.lote.quantidade
    ensures y.total == (lot.lote.quantidade as real) * CarcassArrobas(finalWeight, yieldPct)
  {
    var perHead := CarcassArrobas(finalWeight, yieldPct);
    YieldRow(k, lot.lote.id, finalWeight, perHead, lot.lote.quantidade, (lot.lote.quantidade as real) * perHead)
  }

  /** The billing lines of the lots, as the billing projection produces them. */
  ghost predicate BillingLines(lots: seq<LotData>, saved: map<nat, real>, rows: seq<EvolutionRow>) {
    forall r :: 0 <= r < |rows| ==> rows[r].lotIndex < |lots| && EvolutionLine(rows[r], lots, saved, rows[r].lotIndex)
  }

  /**
   * The yield line of billing line `r`: the weight after all of its months,
   * with the id and head count of the lot `how` finds for it.
   */
  ghost function BilledYield(lots: seq<LotData>, saved: map<nat, real>, rows: seq<EvolutionRow>, r: int, yieldPct: real, how: Lookup): YieldRow
    requires BillingLines(lots, saved, rows) && 0 <= r < |rows|
  {
    var k := rows[r].lotIndex;
    assert EvolutionLine(rows[r], lots, saved, k);
    YieldOf(k, lots[SourceLot(lots, k, how)], ProjectedFinalWeight(lots[k], rows[r]), yieldPct)
  }

  /**
   * The yield table of `faturamento_view`: empty unless the saved carcass
   * yield is set and non-zero and there are billing lines; otherwise one line
   * per billing line, from the weight under its latest month, with the id and
   * head count of the lot `how` finds for it.
   */
  method YieldTable(lots: seq<LotData>, saved: map<nat, real>, rows: seq<EvolutionRow>, yieldPct: Option<real>, how: Lookup)
    returns (table: seq<YieldRow>)
    requires BillingLines(lots, saved, rows)
    ensures !Truthy(yieldPct) || rows == [] ==> table == []
    ensures Truthy(yieldPct) ==> |table| == |rows|
    ensures Truthy(yieldPct) ==> forall r :: 0 <= r < |table| ==> table[r] == BilledYield(lots, saved, rows, r, yieldPct.value, how)
  {
    table := [];
    if Truthy(yieldPct) && rows != [] {
      var r := 0;
      while r < |rows|
        invariant 0 <= r <= |rows| && |table| == r
        invariant forall i :: 0 <= i < r ==> table[i] == BilledYield(lots, saved, rows, i, yieldPct.value, how)
      {
        BillingLineWeighed(lots, saved, rows, r);
        if rows[r].weights != map[] {
          var y := YieldLine(lots, saved, rows, r, yieldPct.value, how);
          table := table + [y];
        }
        r := r + 1;
      }
    }
  }

  /** Every billing line has at least one projected weight. */
  lemma BillingLineWeighed(lots: seq<LotData>, saved: map<nat, real>, rows: seq<EvolutionRow>, r: int)
    requires BillingLines(lots, saved, rows) && 0 <= r < |rows|
    ensures rows[r].lotIndex < |lots| && rows[r].weights != map[]
  {
    assert EvolutionLine(rows[r], lots, saved, rows[r].lotIndex);
    assert rows[r].months[0] in rows[r].weights;
  }

  /** The body of the yield loop: the weight under the line's latest month, with the id and head count of the lot `how` finds. */
  method YieldLine(lots: seq<LotData>, saved: map<nat, real>, rows: seq<EvolutionRow>, r: int, yieldPct: real, how: Lookup)
    returns (y: YieldRow)
    requires BillingLines(lots, saved, rows) && 0 <= r < |rows|
    ensures y == BilledYield(lots, saved, rows, r, yieldPct, how)
  {
    var row := rows[r];
    var k := row.lotIndex;
    assert EvolutionLine(row, lots, saved, k);
    assert row.months[0] in row.weights;
    var latest, w := FinalWeight(row.weights);
    LatestWeightIsFinal(lots, saved, row, k, latest);
    var found := SourceLot(lots, k, how);
    y := YieldOf(k, lots[found], w, yieldPct);
  }

  /** Total carcass arrobas of a lot: head count times weight times yield, over 1500. */
  lemma YieldTotalFormula(k: nat, lot: LotData, finalWeight: real, yieldPct: real)
    ensures YieldOf(k, lot, finalWeight, yieldPct).total == (lot.lote.quantidade as real) * finalWeight * yieldPct / 1500.0
  {
  }

  // -------------------------------------------------------- the revenue table

  /** A line of the revenue table. */
  datatype RevenueRow = RevenueRow(lotIndex: nat, lotId: nat, arrobaPrice: real, revenue: real)

  /** Revenue of a line: the arroba price times the total carcass arrobas. */
  function Revenue(arrobaPrice: real, arrobas: real): real {
    arrobaPrice * arrobas
  }

  /**
   * The revenue line, if any, that yield line `y` contributes: a line whose
   * lot id is non-zero, and whose lot found by `how` has a saved, non-zero
   * arroba price, earns that price times its total arrobas.
   */
  function RevenueLineFor(lots: seq<LotData>, y: YieldRow, how: Lookup): seq<RevenueRow>
    requires y.lotIndex < |lots|
  {
    var lot := lots[SourceLot(lots, y.lotIndex, how)].lote;
    if y.lotId != 0 && Truthy(lot.lastArrobaPrice) then
      [RevenueRow(y.lotIndex, y.lotId, lot.lastArrobaPrice.value, Revenue(lot.lastArrobaPrice.value, y.total))]
    else []
  }

  /** The revenue lines for yield lines `table[..]`, in order. */
  function RevenueLines(lots: seq<LotData>, table: seq<YieldRow>, how: Lookup): (out: seq<RevenueRow>)
    requires forall r :: 0 <= r < |table| ==> table[r].lotIndex < |lots|
    ensures |out| <= |table|
    ensures forall i :: 0 <= i < |out| ==> out[i].lotIndex < |lots|
    ensures forall i :: 0 <= i < |out| ==>
      var lot := lots[SourceLot(lots, out[i].lotIndex, how)].lote;
      out[i].lotId != 0 && Truthy(lot.lastArrobaPrice) && out[i].arrobaPrice == lot.lastArrobaPrice.value
  {
    if table == [] then []
    else
      var n := |table| - 1;
      RevenueLines(lots, table[..n], how) + RevenueLineFor(lots, table[n], how)
  }

  /** Pricing one more yield line appends that line's contribution. */
  lemma {:induction false} RevenueLinesStep(lots: seq<LotData>, table: seq<YieldRow>, how: Lookup)
    requires forall i :: 0 <= i < |table| ==> table[i].lotIndex < |lots|
    requires table != []
    ensures RevenueLines(lots, table, how) == RevenueLines(lots, table[..|table| - 1], how) + RevenueLineFor(lots, table[|table| - 1], how)
  {
  }

  /** Pricing the yield lines up to `r` inclusive appends line `r`'s contribution to the lines before it. */
  lemma RevenueLinesPrefixStep(lots: seq<LotData>, table: seq<YieldRow>, r: int, how: Lookup)
    requires forall i :: 0 <= i < |table| ==> table[i].lotIndex < |lots|
    requires 0 <= r < |table|
    ensures RevenueLines(lots, table[..r + 1], how) == RevenueLines(lots, table[..r], how) + RevenueLineFor(lots, table[r], how)
  {
    RevenueLinesStep(lots, table[..r + 1], how);
    assert table[..r + 1][..r] == table[..r] && table[..r + 1][r] == table[r];
  }

  /** The loop of `faturamento_view` that prices the yield lines. */
  method RevenueTable(lots: seq<LotData>, table: seq<YieldRow>, how: Lookup) returns (out: seq<RevenueRow>)
    requires forall r :: 0 <= r < |table| ==> table[r].lotIndex < |lots|
    ensures out == RevenueLines(lots, table, how)
  {
    out := [];
    var r := 0;
    while r < |table|
      invariant 0 <= r <= |table|
      invariant out == RevenueLines(lots, table[..r], how)
    {
      RevenueLinesPrefixStep(lots, table, r, how);
      var line := PriceLine(lots, table[r], how);
      out := out + line;
      r := r + 1;
    }
    assert table[..|table|] == table;
  }

  /** The body of the pricing loop: a line with a lot id gets the price of the lot `how` finds, when that price is set and non-zero. */
  method PriceLine(lots: seq<LotData>, y: YieldRow, how: Lookup) returns (line: seq<RevenueRow>)
    requires y.lotIndex < |lots|
    ensures line == RevenueLineFor(lots, y, how)
  {
    line := [];
    var price: Option<real> := None;
    if y.lotId != 0 {
      var lot := lots[SourceLot(lots, y.lotIndex, how)].lote;
      if Truthy(lot.lastArrobaPrice) {
        price := lot.lastArrobaPrice;
      }
      if Truthy(price) {
        var row := RevenueRow(y.lotIndex, y.lotId, price.value, Revenue(price.value, y.total));
        line := [row];
        assert |RevenueLineFor(lots, y, how)| == 1 && RevenueLineFor(lots, y, how)[0] == row;
      }
    }
  }

  /**
   * A yield line of lot `k`, built with the id and head count of the lot `how`
   * finds, earns that lot's saved arroba price times its head count times the
   * final weight times the yield over 1500, when the id is non-zero and the
   * price is set and non-zero.
   */
  lemma {:induction false} RevenueFormula(lots: seq<LotData>, table: seq<YieldRow>, r: nat, k: nat, finalWeight: real, yieldPct: real, how: Lookup)
    requires forall i :: 0 <= i < |table| ==> table[i].lotIndex < |lots|
    requires r < |table| && k < |lots| && table[r] == YieldOf(k, lots[SourceLot(lots, k, how)], finalWeight, yieldPct)
    requires lots[SourceLot(lots, k, how)].lote.id != 0 && Truthy(lots[SourceLot(lots, k, how)].lote.lastArrobaPrice)
    ensures RevenueRow(k, table[r].lotId, lots[SourceLot(lots, k, how)].lote.lastArrobaPrice.value,
                       Revenue(lots[SourceLot(lots, k, how)].lote.lastArrobaPrice.value, table[r].total)) in RevenueLines(lots, table, how)
    ensures table[r].total == (lots[SourceLot(lots, k, how)].lote.quantidade as real) * finalWeight * yieldPct / 1500.0
  {
    var lot := lots[SourceLot(lots, k, how)].lote;
    RevenueLineOf(lots, table, r, how);
    YieldTotalFormula(k, lots[SourceLot(lots, k, how)], finalWeight, yieldPct);
    var line := RevenueRow(k, lot.id, lot.lastArrobaPrice.value, Revenue(lot.lastArrobaPrice.value, table[r].total));
    assert table[r].lotIndex == k && table[r].lotId == lot.id;
    var found := RevenueLineFor(lots, table[r], how);
    assert |found| == 1;
    assert found[0].lotIndex == line.lotIndex && found[0].lotId == line.lotId;
    assert found[0].arrobaPrice == line.arrobaPrice && found[0].revenue == line.revenue;
    assert found[0] == line;
    assert line in found;
    assert line in RevenueLines(lots, table, how);
  }

  /** Every yield line's contribution appears among the revenue lines. */
  lemma {:induction false} RevenueLineOf(lots: seq<LotData>, table: seq<YieldRow>, r: nat, how: Lookup)
    requires forall i :: 0 <= i < |table| ==> table[i].lotIndex < |lots|
    requires r < |table|
    ensures forall x :: x in RevenueLineFor(lots, table[r], how) ==> x in RevenueLines(lots, table, how)
  {
    var n := |table| - 1;
    RevenueLinesStep(lots, table, how);
    if r < n {
      RevenueLineOf(lots, table[..n], r, how);
      assert table[..n][r] == table[r];
    }
  }

  /** With distinct lot names the revenue lines do not depend on the lookup. */
  lemma {:induction false} RevenueLinesAgreeWithDistinctNames(lots: seq<LotData>, table: seq<YieldRow>)
    requires DistinctNames(lots)
    requires forall i :: 0 <= i < |table| ==> table[i].lotIndex < |lots|
    ensures RevenueLines(lots, table, ByName) == RevenueLines(lots, table, OwnLot)
  {
    if table != [] {
      var n := |table| - 1;
      RevenueLinesAgreeWithDistinctNames(lots, table[..n]);
      LookupsAgreeWithDistinctNames(lots, table[n].lotIndex);
      SameSourceSameLine(lots, table[n]);
      RevenueLinesStep(lots, table, ByName);
      RevenueLinesStep(lots, table, OwnLot);
    }
  }

  /** A line whose two lookups find the same lot gets the same contribution under both. */
  lemma SameSourceSameLine(lots: seq<LotData>, y: YieldRow)
    requires y.lotIndex < |lots| && SourceLot(lots, y.lotIndex, ByName) == y.lotIndex
    ensures RevenueLineFor(lots, y, ByName) == RevenueLineFor(lots, y, OwnLot)
  {
    assert |RevenueLineFor(lots, y, ByName)| == |RevenueLineFor(lots, y, OwnLot)|;
    if RevenueLineFor(lots, y, ByName) != [] {
      assert RevenueLineFor(lots, y, ByName)[0] == RevenueLineFor(lots, y, OwnLot)[0];
    }
  }

  /**
   * Two lots named alike: the first (id 1, 10 head, priced 100) and the second
   * (id 2, 20 head, no saved price). Looked up by name, the first lot's yield
   * line takes the second lot's id and 20 head, and earns nothing; read from
   * its own lot, it has 10 head and is priced at 100.
   */
  lemma DuplicateNameTakesOtherLot()
    ensures var a := Lote(1, "Lote A", 10, 300.0, 20.0, 1000.0, None, Some(100.0));
            var b := Lote(2, "Lote A", 20, 300.0, 20.0, 1000.0, None, None);
            var lots := [LotData(a, map[], map[], map[]), LotData(b, map[], map[], map[])];
            var asWritten := YieldOf(0, lots[SourceLot(lots, 0, ByName)], 300.0, 50.0);
            var own := YieldOf(0, lots[SourceLot(lots, 0, OwnLot)], 300.0, 50.0);
            && SourceLot(lots, 0, ByName) == 1
            && asWritten.lotId == 2 && asWritten.heads == 20
            && RevenueLines(lots, [asWritten], ByName) == []
            && own.lotId == 1 && own.heads == 10
            && RevenueLines(lots, [own], OwnLot) == [RevenueRow(0, 1, 100.0, 100.0 * own.total)]
  {
    var a := Lote(1, "Lote A", 10, 300.0, 20.0, 1000.0, None, Some(100.0));
    var b := Lote(2, "Lote A", 20, 300.0, 20.0, 1000.0, None, None);
    var lots := [LotData(a, map[], map[], map[]), LotData(b, map[], map[], map[])];
    assert SourceLot(lots, 0, ByName) == 1;
    var asWritten := YieldOf(0, lots[1], 300.0, 50.0);
    var own := YieldOf(0, lots[0], 300.0, 50.0);
    assert RevenueLineFor(lots, asWritten, ByName) == [];
    assert [asWritten][..0] == [] && [own][..0] == [];
  }
}
