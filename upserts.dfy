/**
 * The form saves of the feed, cash-flow and break-even pages. Each page posts
 * one text field per (category, month) cell; a cell is saved with
 * `update_or_create` on the table's unique key when the field is present, not
 * blank once stripped, parses as a Decimal and lies in the field's range. Any
 * other field is skipped silently and leaves the stored record as it was.
 */
module Upserts {
  import opened Wrappers
  import opened Calendar
  import opened Periods
  import opened Models

  /** A posted form field after `.strip()`: missing from the POST, blank, not a Decimal, or a number. */
  datatype Field = Missing | Blank | Unparsable | Number(value: real)

  /** The range a page demands of its values: costs and revenues `>= 0`, mortality `0 <= p <= 100`. */
  datatype Bounds = NonNegative | Percentage

  predicate InRange(b: Bounds, v: real) {
    match b
    case NonNegative => v >= 0.0
    case Percentage => 0.0 <= v <= 100.0
  }

  /** A field that is saved: it parsed as a number in range. */
  predicate Accepted(f: Field, b: Bounds) {
    f.Number? && InRange(b, f.value)
  }

  /** The field posted under key `k`, `Missing` when the POST has none. */
  function FieldAt<K(==,!new)>(post: map<K, Field>, k: K): (f: Field)
    ensures k !in post ==> f == Missing
    ensures k in post ==> f == post[k]
  {
    if k in post then post[k] else Missing
  }

  /** A database table reduced to its unique key and its stored value. */
  class Table<K(==,!new)> {
    var rows: map<K, real>

    constructor (initial: map<K, real>)
      ensures rows == initial
    {
      rows := initial;
    }

    /** `update_or_create`: the row with this key gets the value, created when absent; no other row changes. */
    method UpdateOrCreate(key: K, value: real)
      modifies this
      ensures rows == old(rows)[key := value]
    {
      rows := rows[key := value];
    }
  }

  // ---------------------------------------------------- a run of upserts

  /** The cells of one form in the order the page's loops visit them. */
  type Entries<K> = seq<(K, Field)>

  predicate DistinctKeys<K(==,!new)>(entries: Entries<K>) {
    forall i, j :: 0 <= i < j < |entries| ==> entries[i].0 != entries[j].0
  }

  /** The rows after saving `entries` in order: every accepted cell overwrites its key. Saving never removes a row. */
  function ApplyEntries<K(==,!new)>(rows: map<K, real>, entries: Entries<K>, b: Bounds): (r: map<K, real>)
    ensures rows.Keys <= r.Keys
  {
    if entries == [] then rows
    else
      var n := |entries| - 1;
      var before := ApplyEntries(rows, entries[..n], b);
      if Accepted(entries[n].1, b) then before[entries[n].0 := entries[n].1.value] else before
  }

  /** The number of cells saved; zero exactly when no cell was accepted. */
  function CountAccepted<K(==,!new)>(entries: Entries<K>, b: Bounds): (n: nat)
    ensures n <= |entries|
    ensures n == 0 <==> forall i :: 0 <= i < |entries| ==> !Accepted(entries[i].1, b)
  {
    if entries == [] then 0
    else
      var m := |entries| - 1;
      assert forall i :: 0 <= i < m ==> entries[..m][i] == entries[i];
      CountAccepted(entries[..m], b) + (if Accepted(entries[m].1, b) then 1 else 0)
  }

  /** The keys of the accepted cells: every accepted cell's key is among them. */
  function AcceptedKeys<K(==,!new)>(entries: Entries<K>, b: Bounds): (s: set<K>)
    ensures forall i :: 0 <= i < |entries| && Accepted(entries[i].1, b) ==> entries[i].0 in s
  {
    if entries == [] then {}
    else
      var m := |entries| - 1;
      assert forall i :: 0 <= i < m ==> entries[..m][i] == entries[i];
      AcceptedKeys(entries[..m], b) + (if Accepted(entries[m].1, b) then {entries[m].0} else {})
  }

  /** The loop of one form: each accepted cell is upserted and counted. */
  method SaveEntries<K(==,!new)>(t: Table<K>, entries: Entries<K>, b: Bounds) returns (saved: nat)
    modifies t
    ensures t.rows == ApplyEntries(old(t.rows), entries, b)
    ensures saved == CountAccepted(entries, b)
  {
    saved := 0;
    var i := 0;
    while i < |entries|
      invariant 0 <= i <= |entries|
      invariant t.rows == ApplyEntries(old(t.rows), entries[..i], b)
      invariant saved == CountAccepted(entries[..i], b)
    {
      assert entries[..i + 1][..i] == entries[..i];
      var (key, f) := entries[i];
      if Accepted(f, b) {
        t.UpdateOrCreate(key, f.value);
        saved := saved + 1;
      }
      i := i + 1;
    }
    assert entries[..|entries|] == entries;
  }

  /** A key no accepted cell names keeps its row, or its absence. */
  lemma {:induction false} ApplyEntriesUntouched<K(!new)>(rows: map<K, real>, entries: Entries<K>, b: Bounds, k: K)
    requires forall i :: 0 <= i < |entries| && entries[i].0 == k ==> !Accepted(entries[i].1, b)
    ensures k in ApplyEntries(rows, entries, b) <==> k in rows
    ensures k in rows ==> ApplyEntries(rows, entries, b)[k] == rows[k]
  {
    if entries != [] {
      var n := |entries| - 1;
      assert forall i :: 0 <= i < n ==> entries[..n][i] == entries[i];
      ApplyEntriesUntouched(rows, entries[..n], b, k);
    }
  }

  /** With distinct keys every cell decides its own key: the accepted value, or the row as it was. */
  lemma {:induction false} ApplyEntriesAt<K(!new)>(rows: map<K, real>, entries: Entries<K>, b: Bounds, i: int)
    requires DistinctKeys(entries) && 0 <= i < |entries|
    ensures var r := ApplyEntries(rows, entries, b); var k := entries[i].0;
      && (Accepted(entries[i].1, b) ==> k in r && r[k] == entries[i].1.value)
      && (!Accepted(entries[i].1, b) ==> (k in r <==> k in rows) && (k in rows ==> r[k] == rows[k]))
  {
    var n := |entries| - 1;
    var prefix := entries[..n];
    assert forall j :: 0 <= j < n ==> prefix[j] == entries[j];
    if i == n {
      ApplyEntriesUntouched(rows, prefix, b, entries[i].0);
    } else {
      ApplyEntriesAt(rows, prefix, b, i);
      assert entries[n].0 != entries[i].0;
    }
  }

  /** The rows after a save are the old rows plus the keys of the accepted cells. */
  lemma {:induction false} ApplyEntriesKeys<K(!new)>(rows: map<K, real>, entries: Entries<K>, b: Bounds)
    ensures ApplyEntries(rows, entries, b).Keys == rows.Keys + AcceptedKeys(entries, b)
  {
    if entries != [] {
      ApplyEntriesKeys(rows, entries[..|entries| - 1], b);
    }
  }

  /** Saving keeps the field validators: rows in range stay in range. */
  lemma {:induction false} ApplyEntriesInRange<K(!new)>(rows: map<K, real>, entries: Entries<K>, b: Bounds)
    requires forall k :: k in rows ==> InRange(b, rows[k])
    ensures forall k :: k in ApplyEntries(rows, entries, b) ==> InRange(b, ApplyEntries(rows, entries, b)[k])
  {
    if entries != [] {
      var n := |entries| - 1;
      ApplyEntriesInRange(rows, entries[..n], b);
      if Accepted(entries[n].1, b) {
        assert InRange(b, entries[n].1.value);
      }
    }
  }

  /** Saving one form after another is saving their cells in sequence. */
  lemma {:induction false} ApplyEntriesAppend<K(!new)>(rows: map<K, real>, a: Entries<K>, c: Entries<K>, b: Bounds)
    ensures ApplyEntries(rows, a + c, b) == ApplyEntries(ApplyEntries(rows, a, b), c, b)
    ensures CountAccepted(a + c, b) == CountAccepted(a, b) + CountAccepted(c, b)
  {
    if c == [] {
      assert a + c == a;
    } else {
      var n := |c| - 1;
      assert (a + c)[..|a + c| - 1] == a + c[..n];
      ApplyEntriesAppend(rows, a, c[..n], b);
    }
  }

  /** A key that no accepted cell names is not among the accepted keys. */
  lemma {:induction false} AcceptedKeysNamed<K(!new)>(entries: Entries<K>, b: Bounds, k: K)
    requires forall j :: 0 <= j < |entries| && Accepted(entries[j].1, b) ==> entries[j].0 != k
    ensures k !in AcceptedKeys(entries, b)
  {
    if entries != [] {
      var n := |entries| - 1;
      assert forall j :: 0 <= j < n ==> entries[..n][j] == entries[j];
      AcceptedKeysNamed(entries[..n], b, k);
    }
  }

  /** With distinct keys the count of saved cells is the number of rows written. */
  lemma {:induction false} CountIsRowsWritten<K(!new)>(entries: Entries<K>, b: Bounds)
    requires DistinctKeys(entries)
    ensures CountAccepted(entries, b) == |AcceptedKeys(entries, b)|
  {
    if entries != [] {
      var n := |entries| - 1;
      var prefix := entries[..n];
      assert DistinctKeys(prefix) by {
        assert forall j :: 0 <= j < n ==> prefix[j] == entries[j];
      }
      CountIsRowsWritten(prefix, b);
      assert entries == prefix + [entries[n]];
      CountStep(prefix, entries[n], b);
    }
  }

  /** One more cell, whose key is new, adds one to the count and one key when accepted. */
  lemma CountStep<K(!new)>(prefix: Entries<K>, cell: (K, Field), b: Bounds)
    requires forall j :: 0 <= j < |prefix| ==> prefix[j].0 != cell.0
    requires CountAccepted(prefix, b) == |AcceptedKeys(prefix, b)|
    ensures CountAccepted(prefix + [cell], b) == |AcceptedKeys(prefix + [cell], b)|
  {
    var entries := prefix + [cell];
    assert entries[..|prefix|] == prefix;
    var before := AcceptedKeys(prefix, b);
    AcceptedKeysNamed(prefix, b, cell.0);
    if Accepted(cell.1, b) {
      assert AcceptedKeys(entries, b) == before + {cell.0};
    } else {
      assert AcceptedKeys(entries, b) == before;
    }
  }

  // ------------------------------------------------------------ the forms

  /** The cells of one category, months 1 to `last`, in month order. */
  function MonthCells<C(==,!new)>(c: C, year: int, last: nat, post: map<(C, int), Field>): (row: Entries<(C, Period)>)
    requires last <= 12
    ensures |row| == last
    ensures forall i :: 0 <= i < last ==> row[i].0 == (c, Period(year, i + 1)) && row[i].1 == FieldAt(post, (c, i + 1))
  {
    seq(last, i requires 0 <= i < last => ((c, Period(year, i + 1)), FieldAt(post, (c, i + 1))))
  }

  /**
   * The cells of a form: for each category in order, its months 1 to `last`.
   * Every cell is keyed by a category of the form and a month of the year
   * posted, and carries the field posted for that category and month.
   */
  function Grid<C(==,!new)>(cats: seq<C>, year: int, last: nat, post: map<(C, int), Field>): (g: Entries<(C, Period)>)
    requires last <= 12
    ensures |g| == |cats| * last
    ensures forall i :: 0 <= i < |g| ==>
      && g[i].0.0 in cats && g[i].0.1.year == year && g[i].0.1.month <= last
      && g[i].1 == FieldAt(post, (g[i].0.0, g[i].0.1.month))
  {
    if cats == [] then []
    else
      var n := |cats| - 1;
      var front := Grid(cats[..n], year, last, post);
      var row := MonthCells(cats[n], year, last, post);
      assert forall i :: 0 <= i < |front| ==> front[i].0.0 in cats;
      front + row
  }

  /** Every (category, month) cell of the form is among its entries. */
  lemma {:induction false} GridCovers<C(!new)>(cats: seq<C>, year: int, last: nat, post: map<(C, int), Field>, c: C, m: Month)
    requires last <= 12 && c in cats && m <= last
    ensures exists i :: 0 <= i < |Grid(cats, year, last, post)| && Grid(cats, year, last, post)[i].0 == (c, Period(year, m))
  {
    var n := |cats| - 1;
    var front := Grid(cats[..n], year, last, post);
    var row := MonthCells(cats[n], year, last, post);
    assert Grid(cats, year, last, post) == front + row;
    if c == cats[n] {
      assert (front + row)[|front| + m - 1] == row[m - 1];
    } else {
      assert c in cats[..n];
      GridCovers(cats[..n], year, last, post, c, m);
      var i :| 0 <= i < |front| && front[i].0 == (c, Period(year, m));
      assert (front + row)[i] == front[i];
    }
  }

  /** Distinct categories give distinct keys. */
  lemma {:induction false} GridDistinct<C(!new)>(cats: seq<C>, year: int, last: nat, post: map<(C, int), Field>)
    requires last <= 12
    requires forall i, j :: 0 <= i < j < |cats| ==> cats[i] != cats[j]
    ensures DistinctKeys(Grid(cats, year, last, post))
  {
    if cats != [] {
      var n := |cats| - 1;
      var front := Grid(cats[..n], year, last, post);
      var row := MonthCells(cats[n], year, last, post);
      GridDistinct(cats[..n], year, last, post);
      assert cats[n] !in cats[..n];
      var g := front + row;
      forall i, j | 0 <= i < j < |g|
        ensures g[i].0 != g[j].0
      {
        if j < |front| {
          assert g[i] == front[i] && g[j] == front[j];
        } else if i < |front| {
          assert g[i] == front[i] && g[j] == row[j - |front|];
        } else {
          assert g[i] == row[i - |front|] && g[j] == row[j - |front|];
        }
      }
    }
  }

  /**
   * The saved value of one cell: the posted value when it is accepted,
   * otherwise the row as it was.
   */
  lemma SavedCell<C(!new)>(rows: map<(C, Period), real>, cats: seq<C>, year: int, last: nat, post: map<(C, int), Field>, b: Bounds, c: C, m: Month)
    requires last <= 12 && c in cats && m <= last
    requires forall i, j :: 0 <= i < j < |cats| ==> cats[i] != cats[j]
    ensures var r := ApplyEntries(rows, Grid(cats, year, last, post), b); var key := (c, Period(year, m)); var f := FieldAt(post, (c, m));
      && (Accepted(f, b) ==> key in r && r[key] == f.value)
      && (!Accepted(f, b) ==> (key in r <==> key in rows) && (key in rows ==> r[key] == rows[key]))
  {
    var g := Grid(cats, year, last, post);
    GridCovers(cats, year, last, post, c, m);
    GridDistinct(cats, year, last, post);
    var i :| 0 <= i < |g| && g[i].0 == (c, Period(year, m));
    ApplyEntriesAt(rows, g, b, i);
  }

  /** A key outside the form's categories, year or months keeps its row. */
  lemma SavedOutside<C(!new)>(rows: map<(C, Period), real>, cats: seq<C>, year: int, last: nat, post: map<(C, int), Field>, b: Bounds, key: (C, Period))
    requires last <= 12
    requires key.0 !in cats || key.1.year != year || key.1.month > last
    ensures var r := ApplyEntries(rows, Grid(cats, year, last, post), b);
      (key in r <==> key in rows) && (key in rows ==> r[key] == rows[key])
  {
    ApplyEntriesUntouched(rows, Grid(cats, year, last, post), b, key);
  }

  /** One more category appends its months. */
  lemma GridStep<C(!new)>(cats: seq<C>, j: int, year: int, last: nat, post: map<(C, int), Field>)
    requires last <= 12 && 0 <= j < |cats|
    ensures Grid(cats[..j + 1], year, last, post) == Grid(cats[..j], year, last, post) + MonthCells(cats[j], year, last, post)
  {
    assert cats[..j + 1][..j] == cats[..j];
  }

  /** The nested loops of a form: for each category, the loop over its months. */
  method SaveGrid<C(==,!new)>(t: Table<(C, Period)>, cats: seq<C>, year: int, last: nat, post: map<(C, int), Field>, b: Bounds)
    returns (saved: nat)
    requires last <= 12
    modifies t
    ensures t.rows == ApplyEntries(old(t.rows), Grid(cats, year, last, post), b)
    ensures saved == CountAccepted(Grid(cats, year, last, post), b)
  {
    saved := 0;
    var j := 0;
    while j < |cats|
      invariant 0 <= j <= |cats|
      invariant t.rows == ApplyEntries(old(t.rows), Grid(cats[..j], year, last, post), b)
      invariant saved == CountAccepted(Grid(cats[..j], year, last, post), b)
    {
      GridStep(cats, j, year, last, post);
      var row := MonthCells(cats[j], year, last, post);
      var n := SaveEntries(t, row, b);
      ApplyEntriesAppend(old(t.rows), Grid(cats[..j], year, last, post), row, b);
      saved := saved + n;
      j := j + 1;
    }
    assert cats[..|cats|] == cats;
  }

  /** `TIPO_CHOICES` of either table lists every category once. */
  lemma KindsDistinct()
    ensures forall i, j :: 0 <= i < j < |FixedCostKinds| ==> FixedCostKinds[i] != FixedCostKinds[j]
    ensures forall i, j :: 0 <= i < j < |RevenueKinds| ==> RevenueKinds[i] != RevenueKinds[j]
  {
  }

  /** `salvar_custos_fixos`: every fixed-cost category, months 1 to 12, values `>= 0`. */
  method SaveFixedCosts(t: Table<(FixedCostKind, Period)>, year: int, post: map<(FixedCostKind, int), Field>)
    modifies t
    ensures t.rows == ApplyEntries(old(t.rows), Grid(FixedCostKinds, year, 12, post), NonNegative)
  {
    var _ := SaveGrid(t, FixedCostKinds, year, 12, post, NonNegative);
  }

  /** `salvar_receitas`: every revenue category, months 1 to 12, values `>= 0`. */
  method SaveRevenues(t: Table<(RevenueKind, Period)>, year: int, post: map<(RevenueKind, int), Field>)
    modifies t
    ensures t.rows == ApplyEntries(old(t.rows), Grid(RevenueKinds, year, 12, post), NonNegative)
  {
    var _ := SaveGrid(t, RevenueKinds, year, 12, post, NonNegative);
  }

  /** `salvar_mortalidade`: every lot of the property, months 1 to 11 only, percentages in [0, 100]. */
  method SaveMortality(t: Table<(nat, Period)>, lotIds: seq<nat>, year: int, post: map<(nat, int), Field>)
    modifies t
    ensures t.rows == ApplyEntries(old(t.rows), Grid(lotIds, year, LastMonth, post), Percentage)
  {
    var _ := SaveGrid(t, lotIds, year, LastMonth, post, Percentage);
  }

  /** The last month the mortality form posts: November. */
  const LastMonth: nat := 11

  /** December mortality is never written by the mortality form. */
  lemma DecemberMortalityKept(rows: map<(nat, Period), real>, lotIds: seq<nat>, year: int, post: map<(nat, int), Field>, id: nat)
    ensures var r := ApplyEntries(rows, Grid(lotIds, year, LastMonth, post), Percentage); var key := (id, Period(year, 12));
      (key in r <==> key in rows) && (key in rows ==> r[key] == rows[key])
  {
    SavedOutside(rows, lotIds, year, LastMonth, post, Percentage, (id, Period(year, 12)));
  }

  /** The form of one lot's feed: fields `gasto_mes_1` to `gasto_mes_12`, keyed here by (lot id, month). */
  function FeedPost(lotId: nat, post: map<int, Field>): (keyed: map<(nat, int), Field>)
    ensures forall m :: FieldAt(keyed, (lotId, m)) == FieldAt(post, m)
  {
    map k | k in (set m | m in post :: (lotId, m)) :: post[k.1]
  }

  /**
   * `salvar_gastos`: when the posted lot id names a lot of the property, its
   * twelve months are saved (daily cost `>= 0`) and counted; an absent,
   * unparsable or foreign lot id saves nothing.
   */
  method SaveFeed(t: Table<(nat, Period)>, lotIds: set<nat>, lotId: Option<nat>, year: int, post: map<int, Field>)
    returns (saved: nat)
    modifies t
    ensures lotId.Some? && lotId.value in lotIds ==>
      && t.rows == ApplyEntries(old(t.rows), Grid([lotId.value], year, 12, FeedPost(lotId.value, post)), NonNegative)
      && saved == CountAccepted(Grid([lotId.value], year, 12, FeedPost(lotId.value, post)), NonNegative)
    ensures !(lotId.Some? && lotId.value in lotIds) ==> t.rows == old(t.rows) && saved == 0
  {
    saved := 0;
    if lotId.Some? && lotId.value in lotIds {
      saved := SaveGrid(t, [lotId.value], year, 12, FeedPost(lotId.value, post), NonNegative);
    }
  }

  /**
   * After a feed save the lot's month holds the posted daily cost when it was
   * accepted and is otherwise as it was; every other lot and year is untouched;
   * the count reported is the number of months written.
   */
  lemma FeedSaveEffect(rows: map<(nat, Period), real>, lotId: nat, year: int, post: map<int, Field>, key: (nat, Period))
    ensures var g := Grid([lotId], year, 12, FeedPost(lotId, post)); var r := ApplyEntries(rows, g, NonNegative);
      && (key.0 == lotId && key.1.year == year && Accepted(FieldAt(post, key.1.month), NonNegative) ==>
            key in r && r[key] == FieldAt(post, key.1.month).value)
      && (!(key.0 == lotId && key.1.year == year && Accepted(FieldAt(post, key.1.month), NonNegative)) ==>
            (key in r <==> key in rows) && (key in rows ==> r[key] == rows[key]))
      && CountAccepted(g, NonNegative) == |AcceptedKeys(g, NonNegative)|
  {
    var keyed := FeedPost(lotId, post);
    var g := Grid([lotId], year, 12, keyed);
    GridDistinct([lotId], year, 12, keyed);
    CountIsRowsWritten(g, NonNegative);
    if key.0 == lotId && key.1.year == year {
      SavedCell(rows, [lotId], year, 12, keyed, NonNegative, lotId, key.1.month);
    } else {
      SavedOutside(rows, [lotId], year, 12, keyed, NonNegative, key);
    }
  }

  /** Every fixed-cost category is in `TIPO_CHOICES`. */
  lemma FixedCostKindListed(kind: FixedCostKind)
    ensures kind in FixedCostKinds
  {
    match kind
    case Arrendamento => assert FixedCostKinds[0] == kind;
    case Amortizacao => assert FixedCostKinds[1] == kind;
    case Prolabore => assert FixedCostKinds[2] == kind;
    case Manutencao => assert FixedCostKinds[3] == kind;
    case Combustivel => assert FixedCostKinds[4] == kind;
    case MaoDeObra => assert FixedCostKinds[5] == kind;
    case ServicosTecnicos => assert FixedCostKinds[6] == kind;
    case Supermercado => assert FixedCostKinds[7] == kind;
    case Itr => assert FixedCostKinds[8] == kind;
    case Fretes => assert FixedCostKinds[9] == kind;
    case Energia => assert FixedCostKinds[10] == kind;
    case TeleInternet => assert FixedCostKinds[11] == kind;
    case Contador => assert FixedCostKinds[12] == kind;
  }

  /** Every revenue category is in `TIPO_CHOICES`. */
  lemma RevenueKindListed(kind: RevenueKind)
    ensures kind in RevenueKinds
  {
    match kind
    case VendaVacas => assert RevenueKinds[0] == kind;
    case VendaBois => assert RevenueKinds[1] == kind;
    case VendaNovilhas => assert RevenueKinds[2] == kind;
    case VendaBezerras => assert RevenueKinds[3] == kind;
    case VendaBezerros => assert RevenueKinds[4] == kind;
    case VendaGarrote => assert RevenueKinds[5] == kind;
    case VendaSilagem => assert RevenueKinds[6] == kind;
  }

  /** After a fixed-cost save each category's month holds the posted value when accepted and is otherwise as it was. */
  lemma FixedCostSaveEffect(costs: FixedCosts, year: int, post: map<(FixedCostKind, int), Field>, kind: FixedCostKind, m: Month)
    ensures var r := ApplyEntries(costs, Grid(FixedCostKinds, year, 12, post), NonNegative);
      var key := (kind, Period(year, m)); var f := FieldAt(post, (kind, m));
      && (Accepted(f, NonNegative) ==> key in r && r[key] == f.value)
      && (!Accepted(f, NonNegative) ==> (key in r <==> key in costs) && (key in costs ==> r[key] == costs[key]))
  {
    KindsDistinct();
    FixedCostKindListed(kind);
    SavedCell(costs, FixedCostKinds, year, 12, post, NonNegative, kind, m);
  }

  /** After a revenue save each category's month holds the posted value when accepted and is otherwise as it was. */
  lemma RevenueSaveEffect(revenues: Revenues, year: int, post: map<(RevenueKind, int), Field>, kind: RevenueKind, m: Month)
    ensures var r := ApplyEntries(revenues, Grid(RevenueKinds, year, 12, post), NonNegative);
      var key := (kind, Period(year, m)); var f := FieldAt(post, (kind, m));
      && (Accepted(f, NonNegative) ==> key in r && r[key] == f.value)
      && (!Accepted(f, NonNegative) ==> (key in r <==> key in revenues) && (key in revenues ==> r[key] == revenues[key]))
  {
    KindsDistinct();
    RevenueKindListed(kind);
    SavedCell(revenues, RevenueKinds, year, 12, post, NonNegative, kind, m);
  }

  /** Mortality saves keep every stored percentage within [0, 100]. */
  lemma MortalityStaysValid(rows: map<(nat, Period), real>, lotIds: seq<nat>, year: int, post: map<(nat, int), Field>)
    requires forall k :: k in rows ==> 0.0 <= rows[k] <= 100.0
    ensures forall k :: k in ApplyEntries(rows, Grid(lotIds, year, LastMonth, post), Percentage) ==>
      0.0 <= ApplyEntries(rows, Grid(lotIds, year, LastMonth, post), Percentage)[k] <= 100.0
  {
    ApplyEntriesInRange(rows, Grid(lotIds, year, LastMonth, post), Percentage);
  }
}
