/**
 * The record shapes of the ranch application (users, properties, animal lots
 * and the monthly series attached to them), their field validators and
 * uniqueness constraints, and the small helpers defined on them.
 */
module Models {
  import opened Wrappers
  import opened Calendar
  import opened Periods

  // ---------------------------------------------------------------- users

  datatype Usuario = Usuario(email: string, nome: string, isStaff: bool, isSuperuser: bool)

  /** Python's `a or b` on two strings: `a` when it is non-empty, otherwise `b`. */
  function StrOr(a: string, b: string): string {
    if a != [] then a else b
  }

  /** Python's `a and b` on two strings: `a` when it is empty, otherwise `b`. */
  function StrAnd(a: string, b: string): string {
    if a == [] then a else b
  }

  /** `get_full_name`: the name, or the email when no name was given. */
  function FullName(u: Usuario): (r: string)
    ensures u.nome != [] ==> r == u.nome
    ensures u.nome == [] ==> r == u.email
  {
    StrOr(u.nome, u.email)
  }

  /** `email.split('@')[0]`: the characters before the first '@', or all of them when there is none. */
  function LocalPart(email: string): (r: string)
    ensures '@' !in r
    ensures r <= email
    ensures |r| < |email| ==> email[|r|] == '@'
  {
    if email == [] || email[0] == '@' then [] else [email[0]] + LocalPart(email[1..])
  }

  /** `get_short_name`: the name, or the part of the email before its first '@'. */
  function ShortName(u: Usuario): (r: string)
    ensures u.nome != [] ==> r == u.nome
    ensures u.nome == [] ==> '@' !in r && r <= u.email
    ensures u.nome == [] && '@' in u.email ==> |r| < |u.email| && u.email[|r|] == '@'
    ensures u.nome == [] && '@' !in u.email ==> r == u.email
  {
    StrOr(u.nome, LocalPart(u.email))
  }

  datatype UserError = EmailRequired | StaffRequired | SuperuserRequired

  /** A value passed for `is_staff` or `is_superuser`: the object `True`, or anything else (False, 1, "yes", ...). */
  datatype FlagArg = TrueObject | OtherValue

  /**
   * `create_user`: an empty email raises; otherwise a user with that email and
   * the given staff flags (both False by default) is built. Django's email
   * normalisation and the password are not part of this model.
   */
  function CreateUser(email: string, isStaff: bool, isSuperuser: bool): (r: Result<Usuario, UserError>)
    ensures r.Err? <==> email == []
    ensures r.Err? ==> r.error == EmailRequired
    ensures r.Ok? ==> r.value == Usuario(email, [], isStaff, isSuperuser)
  {
    if email == [] then Err(EmailRequired) else Ok(Usuario(email, [], isStaff, isSuperuser))
  }

  /** `extra_fields.setdefault(key, True)` followed by `extra_fields.get(key) is not True`. */
  predicate FlagIsTrue(arg: Option<FlagArg>) {
    (if arg.None? then TrueObject else arg.value) == TrueObject
  }

  /**
   * `create_superuser`: both flags default to True and any other value is
   * rejected, the staff flag first; then `create_user` runs.
   */
  function CreateSuperuser(email: string, isStaff: Option<FlagArg>, isSuperuser: Option<FlagArg>): (r: Result<Usuario, UserError>)
    ensures r.Ok? <==> email != [] && isStaff in {None, Some(TrueObject)} && isSuperuser in {None, Some(TrueObject)}
    ensures r.Ok? ==> r.value.isStaff && r.value.isSuperuser && r.value.email == email
    ensures isStaff == Some(OtherValue) ==> r == Err(StaffRequired)
    ensures isStaff != Some(OtherValue) && isSuperuser == Some(OtherValue) ==> r == Err(SuperuserRequired)
    ensures FlagIsTrue(isStaff) && FlagIsTrue(isSuperuser) && email == [] ==> r == Err(EmailRequired)
  {
    if !FlagIsTrue(isStaff) then Err(StaffRequired)
    else if !FlagIsTrue(isSuperuser) then Err(SuperuserRequired)
    else CreateUser(email, true, true)
  }

  // ----------------------------------------------------------- properties

  datatype Propriedade = Propriedade(proprietario: string, municipioEstado: string, lastCarcassYield: Option<real>)

  /** `informacoes_preenchidas`: `bool(proprietario and municipio_estado)`. */
  predicate InformationFilled(p: Propriedade)
    ensures InformationFilled(p) <==> p.proprietario != [] && p.municipioEstado != []
  {
    StrAnd(p.proprietario, p.municipioEstado) != []
  }

  /** Validator of `ultimo_rendimento_carcaca`: a percentage in [0, 100] when set. */
  predicate ValidPropriedade(p: Propriedade) {
    p.lastCarcassYield.Some? ==> 0.0 <= p.lastCarcassYield.value <= 100.0
  }

  /** Truth value of an optional Decimal field: set and non-zero. */
  predicate Truthy(d: Option<real>) {
    d.Some? && d.value != 0.0
  }

  // ----------------------------------------------------------------- lots

  /** A lot: head count, entry weight in kg and in arrobas, purchase value and the two "last used" values. */
  datatype Lote = Lote(
    id: nat,
    nome: string,
    quantidade: nat,
    pesoKg: real,
    pesoArroba: real,
    valorCompra: real,
    lastGmd: Option<real>,
    lastArrobaPrice: Option<real>)

  /** Field validators of `Lote`. */
  predicate ValidLote(l: Lote) {
    && l.quantidade >= 1
    && l.pesoKg >= 0.0 && l.pesoArroba >= 0.0 && l.valorCompra >= 0.0
    && (l.lastGmd.Some? ==> l.lastGmd.value >= 0.0)
    && (l.lastArrobaPrice.Some? ==> l.lastArrobaPrice.value >= 0.0)
  }

  /**
   * A lot with its monthly series: daily weight gain (`ProjecaoGanho.gmd_kg`),
   * daily feed cost per animal (`GastoNutricional.gasto_diario`) and monthly
   * mortality percentage (`Mortalidade.percentual`). Each series holds at most
   * one value per (year, month), as `unique_together` demands.
   */
  datatype LotData = LotData(lote: Lote, growth: map<Period, real>, feed: map<Period, real>, mortality: map<Period, real>)

  /** Field validators of the lot and of every record of its series. */
  predicate ValidLotData(d: LotData) {
    && ValidLote(d.lote)
    && (forall p :: p in d.growth ==> d.growth[p] >= 0.0)
    && (forall p :: p in d.feed ==> d.feed[p] >= 0.0)
    && (forall p :: p in d.mortality ==> 0.0 <= d.mortality[p] <= 100.0)
  }

  /** The mortality of a month, 0 when no record exists (the field's default). */
  function MortalityOrDefault(d: LotData, p: Period): (r: real)
    ensures p in d.mortality ==> r == d.mortality[p]
    ensures p !in d.mortality ==> r == 0.0
    ensures ValidLotData(d) ==> 0.0 <= r <= 100.0
  {
    if p in d.mortality then d.mortality[p] else 0.0
  }

  /** A feed-cost record: daily cost per animal for one month of one lot. */
  datatype GastoNutricional = GastoNutricional(ano: int, mes: Month, gastoDiario: real)

  /** `calcular_gasto_mensal`: the daily cost accrued over every day of the record's month. */
  function CalcularGastoMensal(g: GastoNutricional): (r: real)
    ensures g.gastoDiario >= 0.0 ==> 28.0 * g.gastoDiario <= r <= 31.0 * g.gastoDiario
    ensures r == g.gastoDiario * (DaysInMonth(g.ano, g.mes) as real)
  {
    MonthTotalBounds(g.gastoDiario, Period(g.ano, g.mes));
    MonthTotal(g.gastoDiario, Period(g.ano, g.mes))
  }

  // ------------------------------------------------ property-level series

  /** `CustoFixo.TIPO_CHOICES`. */
  datatype FixedCostKind =
    | Arrendamento | Amortizacao | Prolabore | Manutencao | Combustivel | MaoDeObra | ServicosTecnicos
    | Supermercado | Itr | Fretes | Energia | TeleInternet | Contador

  const FixedCostKinds: seq<FixedCostKind> :=
    [Arrendamento, Amortizacao, Prolabore, Manutencao, Combustivel, MaoDeObra, ServicosTecnicos,
     Supermercado, Itr, Fretes, Energia, TeleInternet, Contador]

  /** `Receita.TIPO_CHOICES`. */
  datatype RevenueKind =
    | VendaVacas | VendaBois | VendaNovilhas | VendaBezerras | VendaBezerros | VendaGarrote | VendaSilagem

  const RevenueKinds: seq<RevenueKind> :=
    [VendaVacas, VendaBois, VendaNovilhas, VendaBezerras, VendaBezerros, VendaGarrote, VendaSilagem]

  /** A property's fixed costs or revenues of one category and month, keyed as `unique_together` keys them. */
  type FixedCosts = map<(FixedCostKind, Period), real>
  type Revenues = map<(RevenueKind, Period), real>

  // ---------------------------------------------------- uniqueness of rows

  /** A stored record reduced to its unique key and its value. */
  datatype Row<K> = Row(key: K, value: real)

  /** `unique_together`: no two rows share a key. */
  ghost predicate UniqueTogether<K>(rows: seq<Row<K>>) {
    forall i, j :: 0 <= i < j < |rows| ==> rows[i].key != rows[j].key
  }

  /** The series a table holds, as a map from key to value (a later row with the same key wins). */
  function SeriesOf<K(==)>(rows: seq<Row<K>>): (m: map<K, real>)
    ensures forall i :: 0 <= i < |rows| ==> rows[i].key in m
    ensures forall k :: k in m ==> exists i :: 0 <= i < |rows| && rows[i].key == k
  {
    if rows == [] then map[]
    else SeriesOf(rows[..|rows| - 1])[rows[|rows| - 1].key := rows[|rows| - 1].value]
  }

  /** Under `unique_together` the map loses nothing: every row is found under its key, and there are as many keys as rows. */
  lemma {:induction false} SeriesOfUnique<K>(rows: seq<Row<K>>)
    requires UniqueTogether(rows)
    ensures forall i :: 0 <= i < |rows| ==> SeriesOf(rows)[rows[i].key] == rows[i].value
    ensures |SeriesOf(rows)| == |rows|
  {
    if rows != [] {
      var init := rows[..|rows| - 1];
      var last := rows[|rows| - 1];
      assert UniqueTogether(init);
      SeriesOfUnique(init);
      assert last.key !in SeriesOf(init);
      forall i | 0 <= i < |rows|
        ensures SeriesOf(rows)[rows[i].key] == rows[i].value
      {
        if i < |rows| - 1 {
          assert rows[i] == init[i];
        }
      }
    }
  }
}
