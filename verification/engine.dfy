/** One planning cycle of the Theory-of-Constraints engine (`executar_ciclo_pcp`):
    validate the sheet, resolve the parameters, compute each row's adjusted time,
    aggregate load and utilisation per resource, pick the bottleneck, rank the
    bottleneck's rows by earliest due date and accumulate time and delay. */
module EnginePcp {
  import opened Wrappers
  import opened Lexico
  import opened Sums
  import opened StableSort

  /** One row of the planning sheet: one order's work at one resource.
      Dates are day numbers. */
  datatype Row = Row(
    pedido: string,
    recurso: string,
    tempoProcessamento: real,
    quantidade: int,
    dataEntrega: int)

  /** A data frame: the column names it carries and its rows. */
  datatype Frame = Frame(columns: set<string>, rows: seq<Row>)

  /** The columns the cycle reads. */
  const RequiredColumns: set<string> :=
    {"pedido", "recurso", "tempo_processamento", "quantidade", "data_entrega"}

  const HorasKey := "horas_disponiveis_dia"
  const EficienciaKey := "eficiencia_media"
  const SetupKey := "tempo_setup_medio"

  /** Why a cycle produced no plan. */
  datatype CycleError =
    | PlanilhaInvalida(esperado: set<string>, recebido: set<string>)  // a required column is missing
    | SemGargalo                                                      // empty load table: no first row to take
    | DivisaoPorZero                                                  // efficiency or available hours is zero

  /** The recognised entries of the `parametros` dict. */
  datatype Params = Params(horasDisponiveis: real, eficiencia: real, setup: real)

  /** `dict.get(key, default)`. */
  function Get(m: map<string, real>, key: string, default: real): real {
    if key in m then m[key] else default
  }

  /** The parameters of a cycle: a value given by the caller wins, otherwise
      8 available hours a day, efficiency 1 and no setup. */
  function ResolveParams(parametros: map<string, real>): (p: Params)
    ensures HorasKey !in parametros ==> p.horasDisponiveis == 8.0
    ensures EficienciaKey !in parametros ==> p.eficiencia == 1.0
    ensures SetupKey !in parametros ==> p.setup == 0.0
    ensures HorasKey in parametros ==> p.horasDisponiveis == parametros[HorasKey]
    ensures EficienciaKey in parametros ==> p.eficiencia == parametros[EficienciaKey]
    ensures SetupKey in parametros ==> p.setup == parametros[SetupKey]
  {
    Params(Get(parametros, HorasKey, 8.0), Get(parametros, EficienciaKey, 1.0), Get(parametros, SetupKey, 0.0))
  }

  type NonZero = x: real | x != 0.0 witness 1.0

  /** Parameters the cycle may divide by. */
  datatype Settings = Settings(horas: NonZero, eficiencia: NonZero, setup: real)

  /** `tempo_ajustado`: the requested time (quantity times unit time) scaled by
      the efficiency, plus the setup. */
  function TempoAjustado(cfg: Settings, row: Row): (t: real)
    ensures row.quantidade >= 0 && row.tempoProcessamento >= 0.0 && cfg.eficiencia > 0.0
            ==> t >= cfg.setup
    ensures row.quantidade == 0 ==> t == cfg.setup
  {
    var requerido := row.quantidade as real * row.tempoProcessamento;
    assert row.quantidade >= 0 && row.tempoProcessamento >= 0.0 ==> requerido >= 0.0;
    requerido / cfg.eficiencia + cfg.setup
  }

  /** The adjusted-time column as a function of the row. */
  function Ajustado(cfg: Settings): Row -> real {
    row => TempoAjustado(cfg, row)
  }

  /** The rows whose inputs are physically meaningful and whose adjusted time is
      therefore non-negative. */
  predicate NonNegativeInputs(cfg: Settings, rows: seq<Row>) {
    && cfg.eficiencia > 0.0
    && cfg.setup >= 0.0
    && forall i :: 0 <= i < |rows| ==> rows[i].quantidade >= 0 && rows[i].tempoProcessamento >= 0.0
  }

  /** `df[df["recurso"] == r]`: the rows at resource `r`, in sheet order. */
  function OnResource(rows: seq<Row>, r: string): (f: seq<Row>)
    ensures |f| <= |rows|
    ensures forall i :: 0 <= i < |f| ==> f[i].recurso == r
  {
    if |rows| == 0 then []
    else (if rows[0].recurso == r then [rows[0]] else []) + OnResource(rows[1..], r)
  }

  /** The filter keeps every row of resource `r`, as often as it occurs, and no other. */
  lemma {:induction false} OnResourceCount(rows: seq<Row>, r: string)
    ensures forall x :: multiset(OnResource(rows, r))[x] == if x.recurso == r then multiset(rows)[x] else 0
  {
    if |rows| > 0 {
      assert rows == [rows[0]] + rows[1..];
      OnResourceCount(rows[1..], r);
    }
  }

  lemma {:induction false} OnResourceAppend(a: seq<Row>, b: seq<Row>, r: string)
    ensures OnResource(a + b, r) == OnResource(a, r) + OnResource(b, r)
  {
    if |a| == 0 {
      assert a + b == b;
    } else {
      var h := if a[0].recurso == r then [a[0]] else [];
      assert (a + b)[0] == a[0];
      assert (a + b)[1..] == a[1..] + b;
      OnResourceAppend(a[1..], b, r);
      calc {
        OnResource(a + b, r);
        h + OnResource(a[1..] + b, r);
        h + (OnResource(a[1..], r) + OnResource(b, r));
        (h + OnResource(a[1..], r)) + OnResource(b, r);
        OnResource(a, r) + OnResource(b, r);
      }
    }
  }

  /** The resources named in the rows. */
  function ResourceSet(rows: seq<Row>): set<string> {
    set x | x in rows :: x.recurso
  }

  /** The group keys of `groupby("recurso")`: every resource once, in Python's
      string order. */
  function Recursos(rows: seq<Row>): (ks: seq<string>)
    ensures StrictlySorted(ks)
    ensures forall k :: k in ks <==> k in ResourceSet(rows)
  {
    if |rows| == 0 then []
    else
      var init := rows[..|rows| - 1];
      assert rows == init + [rows[|rows| - 1]];
      assert ResourceSet(rows) == ResourceSet(init) + {rows[|rows| - 1].recurso};
      InsertKey(Recursos(init), rows[|rows| - 1].recurso)
  }

  /** `carga_total` of resource `r`: the sum of the adjusted times of its rows. */
  function Load(cfg: Settings, rows: seq<Row>, r: string): real {
    Sum(Project(OnResource(rows, r), Ajustado(cfg)))
  }

  /** `utilizacao` of resource `r`: its load over the available hours. */
  function Utilization(cfg: Settings, rows: seq<Row>, r: string): real {
    Load(cfg, rows, r) / cfg.horas
  }

  /** One line of the `carga_recurso` table. */
  datatype LoadEntry = LoadEntry(recurso: string, cargaTotal: real, capacidade: real, utilizacao: real)

  /** The `carga_recurso` table: one line per distinct resource, in group-key
      order, with its total load, the available hours and the utilisation. */
  function LoadTable(cfg: Settings, rows: seq<Row>): (t: seq<LoadEntry>)
    ensures |t| == |Recursos(rows)|
    ensures forall i :: 0 <= i < |t| ==>
      && t[i].recurso == Recursos(rows)[i]
      && t[i].cargaTotal == Sum(Project(OnResource(rows, t[i].recurso), Ajustado(cfg)))
      && t[i].capacidade == cfg.horas
      && t[i].utilizacao == t[i].cargaTotal / cfg.horas
  {
    var ks := Recursos(rows);
    seq(|ks|, i requires 0 <= i < |ks| =>
      LoadEntry(ks[i], Load(cfg, rows, ks[i]), cfg.horas as real, Utilization(cfg, rows, ks[i])))
  }

  /** The load table has exactly one line per distinct resource of the sheet,
      ordered by resource name. */
  lemma {:induction false} LoadTableOnePerResource(cfg: Settings, rows: seq<Row>)
    ensures forall i, j :: 0 <= i < j < |LoadTable(cfg, rows)| ==>
      StrLt(LoadTable(cfg, rows)[i].recurso, LoadTable(cfg, rows)[j].recurso)
    ensures forall r :: r in ResourceSet(rows) <==>
      exists i :: 0 <= i < |LoadTable(cfg, rows)| && LoadTable(cfg, rows)[i].recurso == r
  {
    var t := LoadTable(cfg, rows);
    var ks := Recursos(rows);
    forall r
      ensures r in ResourceSet(rows) <==> exists i :: 0 <= i < |t| && t[i].recurso == r
    {
      if r in ResourceSet(rows) {
        var i :| 0 <= i < |ks| && ks[i] == r;
        assert t[i].recurso == r;
      }
      if exists i :: 0 <= i < |t| && t[i].recurso == r {
        var i :| 0 <= i < |t| && t[i].recurso == r;
        assert ks[i] == r;
      }
    }
  }

  /** The first line of greatest utilisation: what `sort_values("utilizacao",
      ascending=False).iloc[0]` returns when equal utilisations keep table order. */
  function FirstMax(t: seq<LoadEntry>): (m: nat)
    requires |t| > 0
    ensures m < |t|
    ensures forall j :: 0 <= j < |t| ==> t[j].utilizacao <= t[m].utilizacao
    ensures forall j :: 0 <= j < m ==> t[j].utilizacao < t[m].utilizacao
  {
    if |t| == 1 then 0
    else
      var m := FirstMax(t[..|t| - 1]);
      assert forall j :: 0 <= j < |t| - 1 ==> t[..|t| - 1][j] == t[j];
      if t[|t| - 1].utilizacao > t[m].utilizacao then |t| - 1 else m
  }

  /** The bottleneck (`gargalo`) of a non-empty sheet. */
  function Gargalo(cfg: Settings, rows: seq<Row>): (b: string)
    requires |rows| > 0
    ensures b in ResourceSet(rows)
  {
    var t := LoadTable(cfg, rows);
    assert rows[0].recurso in ResourceSet(rows);
    t[FirstMax(t)].recurso
  }

  /** `b` is the bottleneck: a resource of the sheet that no other resource
      exceeds in utilisation, and the smallest name among those that tie with it. */
  ghost predicate IsBottleneck(cfg: Settings, rows: seq<Row>, b: string) {
    && b in ResourceSet(rows)
    && forall r :: r in ResourceSet(rows) ==>
         && Utilization(cfg, rows, r) <= Utilization(cfg, rows, b)
         && (Utilization(cfg, rows, r) == Utilization(cfg, rows, b) ==> r == b || StrLt(b, r))
  }

  /** The due-date sort key. */
  function DueDate(row: Row): real {
    row.dataEntrega as real
  }

  /** Clipping at zero, `clip(lower=0)`. */
  function Clip(x: real): (r: real)
    ensures r >= 0.0 && r >= x
    ensures r == 0.0 || r == x
    ensures x >= 0.0 ==> r == x
  {
    if x < 0.0 then 0.0 else x
  }

  /** One line of the ranking: the row, its adjusted time, its position
      (`ordem`, from 1), the running time (`tempo_acumulado`) and its delay. */
  datatype Ranked = Ranked(linha: Row, tempoAjustado: real, ordem: int, tempoAcumulado: real, atraso: real)

  /** The rows of resource `g` in earliest-due-date order (stable). */
  function EddQueue(rows: seq<Row>, g: string): (q: seq<Row>)
    ensures multiset(q) == multiset(OnResource(rows, g))
    ensures forall i :: 0 <= i < |q| ==> q[i].recurso == g
  {
    var f := OnResource(rows, g);
    SortByPermutes(f, DueDate);
    SameResource(SortBy(f, DueDate), f, g);
    SortBy(f, DueDate)
  }

  /** A rearrangement of rows of one resource holds only rows of that resource. */
  lemma SameResource(a: seq<Row>, b: seq<Row>, g: string)
    requires multiset(a) == multiset(b)
    requires forall i :: 0 <= i < |b| ==> b[i].recurso == g
    ensures forall i :: 0 <= i < |a| ==> a[i].recurso == g
  {
    forall i | 0 <= i < |a|
      ensures a[i].recurso == g
    {
      assert a[i] in multiset(b);
    }
  }

  /** Numbers a queue 1..N and accumulates its adjusted times and delays. */
  function RankQueue(cfg: Settings, fila: seq<Row>): (rk: seq<Ranked>)
    ensures |rk| == |fila|
    ensures forall i :: 0 <= i < |rk| ==> rk[i].linha == fila[i] && rk[i].ordem == i + 1
    ensures forall i :: 0 <= i < |rk| ==>
      && rk[i].atraso >= 0.0
      && rk[i].atraso >= rk[i].tempoAcumulado - cfg.horas
      && (rk[i].atraso == 0.0 || rk[i].atraso == rk[i].tempoAcumulado - cfg.horas)
  {
    var tempos := Project(fila, Ajustado(cfg));
    var acum := PrefixSums(tempos);
    seq(|fila|, i requires 0 <= i < |fila| => Line(cfg, fila[i], i + 1, acum[i]))
  }

  /** The line for `row` at position `ordem` once `acum` hours have run. */
  function Line(cfg: Settings, row: Row, ordem: int, acum: real): Ranked {
    Ranked(row, TempoAjustado(cfg, row), ordem, acum, Clip(acum - cfg.horas))
  }

  /** The TOC ranking at resource `g`. */
  function Ranking(cfg: Settings, rows: seq<Row>, g: string): (rk: seq<Ranked>)
    ensures |rk| == |OnResource(rows, g)|
    ensures forall i :: 0 <= i < |rk| ==> rk[i].linha.recurso == g && rk[i].ordem == i + 1
  {
    RankQueue(cfg, EddQueue(rows, g))
  }

  function RankedTime(x: Ranked): real { x.tempoAjustado }
  function RankedDelay(x: Ranked): real { x.atraso }

  function Rows(rk: seq<Ranked>): (rs: seq<Row>)
    ensures |rs| == |rk|
    ensures forall i :: 0 <= i < |rk| ==> rs[i] == rk[i].linha
  {
    if |rk| == 0 then [] else [rk[0].linha] + Rows(rk[1..])
  }

  /** `atraso_total`: the sum of the ranking's delays. */
  function AtrasoTotal(rk: seq<Ranked>): (r: real)
    ensures |rk| == 0 ==> r == 0.0
    ensures (forall i :: 0 <= i < |rk| ==> rk[i].atraso >= 0.0) ==>
      r >= 0.0 && (r == 0.0 <==> forall i :: 0 <= i < |rk| ==> rk[i].atraso == 0.0)
  {
    var atrasos := Project(rk, RankedDelay);
    if forall i :: 0 <= i < |rk| ==> rk[i].atraso >= 0.0 then
      SumNonNegative(atrasos);
      SumZeroIffAllZero(atrasos);
      Sum(atrasos)
    else
      Sum(atrasos)
  }

  /** The value `executar_ciclo_pcp` returns. */
  datatype Plano = Plano(gargalo: string, atrasoTotal: real, ranking: seq<Ranked>)

  /** The planning cycle. It fails before any computation when a required column
      is missing; with no rows there is no first line in the load table; with zero
      efficiency or zero available hours the source divides by zero. */
  function ExecutarCiclo(frame: Frame, parametros: map<string, real>): (res: Result<Plano, CycleError>)
    ensures !(RequiredColumns <= frame.columns) <==>
            res == Failure(PlanilhaInvalida(RequiredColumns, frame.columns))
    ensures RequiredColumns <= frame.columns && |frame.rows| == 0 ==> res == Failure(SemGargalo)
    ensures res.Success? <==>
      && RequiredColumns <= frame.columns
      && |frame.rows| > 0
      && ResolveParams(parametros).horasDisponiveis != 0.0
      && ResolveParams(parametros).eficiencia != 0.0
  {
    if !(RequiredColumns <= frame.columns) then
      Failure(PlanilhaInvalida(RequiredColumns, frame.columns))
    else if |frame.rows| == 0 then
      Failure(SemGargalo)
    else
      var p := ResolveParams(parametros);
      if p.horasDisponiveis == 0.0 || p.eficiencia == 0.0 then
        Failure(DivisaoPorZero)
      else
        var cfg := Settings(p.horasDisponiveis, p.eficiencia, p.setup);
        var g := Gargalo(cfg, frame.rows);
        var rk := Ranking(cfg, frame.rows, g);
        Success(Plano(g, AtrasoTotal(rk), rk))
  }

  /** The settings a successful cycle runs with. */
  function SettingsOf(parametros: map<string, real>): Settings
    requires ResolveParams(parametros).horasDisponiveis != 0.0
    requires ResolveParams(parametros).eficiencia != 0.0
  {
    var p := ResolveParams(parametros);
    Settings(p.horasDisponiveis, p.eficiencia, p.setup)
  }

  // ---------------------------------------------------------------------------
  // Load aggregation
  // ---------------------------------------------------------------------------

  /** The load of a resource as a function of its name. */
  function LoadOf(cfg: Settings, rows: seq<Row>): string -> real {
    r => Load(cfg, rows, r)
  }

  function CargaOf(e: LoadEntry): real {
    e.cargaTotal
  }

  predicate Distinct(ks: seq<string>) {
    forall i, j :: 0 <= i < j < |ks| ==> ks[i] != ks[j]
  }

  /** Adding a row adds its adjusted time to the load of its own resource only. */
  lemma {:induction false} LoadSnoc(cfg: Settings, rows: seq<Row>, x: Row, r: string)
    ensures Load(cfg, rows + [x], r)
         == Load(cfg, rows, r) + (if x.recurso == r then TempoAjustado(cfg, x) else 0.0)
  {
    OnResourceAppend(rows, [x], r);
    assert OnResource([x], r) == (if x.recurso == r then [x] else []) + OnResource([], r);
    ProjectAppend(OnResource(rows, r), OnResource([x], r), Ajustado(cfg));
    SumAppend(Project(OnResource(rows, r), Ajustado(cfg)), Project(OnResource([x], r), Ajustado(cfg)));
    if x.recurso == r {
      assert Project([x], Ajustado(cfg)) == [TempoAjustado(cfg, x)];
      assert Sum([TempoAjustado(cfg, x)]) == TempoAjustado(cfg, x) + Sum([]);
    }
  }

  lemma {:induction false} LoadsSnoc(cfg: Settings, rows: seq<Row>, x: Row, ks: seq<string>)
    requires Distinct(ks)
    ensures Sum(Project(ks, LoadOf(cfg, rows + [x])))
         == Sum(Project(ks, LoadOf(cfg, rows))) + (if x.recurso in ks then TempoAjustado(cfg, x) else 0.0)
  {
    if |ks| > 0 {
      assert Distinct(ks[1..]);
      SumProjectCons(ks, LoadOf(cfg, rows + [x]));
      SumProjectCons(ks, LoadOf(cfg, rows));
      LoadsSnoc(cfg, rows, x, ks[1..]);
      LoadSnoc(cfg, rows, x, ks[0]);
      if x.recurso == ks[0] {
        assert x.recurso !in ks[1..];
      }
    }
  }

  lemma {:induction false} LoadsOfNothing(cfg: Settings, ks: seq<string>)
    ensures Sum(Project(ks, LoadOf(cfg, []))) == 0.0
  {
    if |ks| > 0 {
      SumProjectCons(ks, LoadOf(cfg, []));
      LoadsOfNothing(cfg, ks[1..]);
      assert OnResource([], ks[0]) == [];
      assert Project([], Ajustado(cfg)) == [];
    }
  }

  lemma {:induction false} LoadsCoverRows(cfg: Settings, rows: seq<Row>, ks: seq<string>)
    requires Distinct(ks)
    requires forall x :: x in rows ==> x.recurso in ks
    ensures Sum(Project(ks, LoadOf(cfg, rows))) == Sum(Project(rows, Ajustado(cfg)))
  {
    if |rows| == 0 {
      LoadsOfNothing(cfg, ks);
    } else {
      var init := rows[..|rows| - 1];
      var x := rows[|rows| - 1];
      assert rows == init + [x];
      assert forall y :: y in init ==> y in rows;
      LoadsCoverRows(cfg, init, ks);
      LoadsSnoc(cfg, init, x, ks);
      assert x.recurso in ks;
      SumOfSnoc(cfg, init, x);
    }
  }

  lemma SumOfSnoc(cfg: Settings, init: seq<Row>, x: Row)
    ensures Sum(Project(init + [x], Ajustado(cfg))) == Sum(Project(init, Ajustado(cfg))) + TempoAjustado(cfg, x)
  {
    ProjectAppend(init, [x], Ajustado(cfg));
    assert Project([x], Ajustado(cfg)) == [TempoAjustado(cfg, x)];
    SumAppend(Project(init, Ajustado(cfg)), [TempoAjustado(cfg, x)]);
    assert Sum([TempoAjustado(cfg, x)]) == TempoAjustado(cfg, x) + Sum([]);
  }

  /** Grouping neither loses nor invents work: the loads in the table add up to
      the adjusted time of the whole sheet. */
  lemma {:induction false} LoadConservation(cfg: Settings, rows: seq<Row>)
    ensures Sum(Project(LoadTable(cfg, rows), CargaOf)) == Sum(Project(rows, Ajustado(cfg)))
  {
    var ks := Recursos(rows);
    var t := LoadTable(cfg, rows);
    forall i, j | 0 <= i < j < |ks| ensures ks[i] != ks[j] {
      StrLtIrreflexive(ks[i]);
    }
    forall x | x in rows ensures x.recurso in ks {
      assert x.recurso in ResourceSet(rows);
    }
    LoadsCoverRows(cfg, rows, ks);
    assert Project(t, CargaOf) == Project(ks, LoadOf(cfg, rows));
  }

  // ---------------------------------------------------------------------------
  // Bottleneck
  // ---------------------------------------------------------------------------

  /** The chosen bottleneck is a resource of the sheet, no resource has a
      greater utilisation, and among equal utilisations it has the smallest name. */
  lemma {:induction false} BottleneckChoice(cfg: Settings, rows: seq<Row>)
    requires |rows| > 0
    ensures IsBottleneck(cfg, rows, Gargalo(cfg, rows))
  {
    var t := LoadTable(cfg, rows);
    LoadTableOnePerResource(cfg, rows);
    assert rows[0].recurso in ResourceSet(rows);
    assert Gargalo(cfg, rows) == t[FirstMax(t)].recurso;
    forall r | r in ResourceSet(rows)
      ensures Utilization(cfg, rows, r) <= Utilization(cfg, rows, Gargalo(cfg, rows))
      ensures Utilization(cfg, rows, r) == Utilization(cfg, rows, Gargalo(cfg, rows)) ==>
                r == Gargalo(cfg, rows) || StrLt(Gargalo(cfg, rows), r)
    {
      BottleneckAgainst(cfg, rows, r);
    }
  }

  /** The bottleneck compared with one resource of the sheet. */
  lemma BottleneckAgainst(cfg: Settings, rows: seq<Row>, r: string)
    requires |rows| > 0 && r in ResourceSet(rows)
    ensures Utilization(cfg, rows, r) <= Utilization(cfg, rows, Gargalo(cfg, rows))
    ensures Utilization(cfg, rows, r) == Utilization(cfg, rows, Gargalo(cfg, rows)) ==>
              r == Gargalo(cfg, rows) || StrLt(Gargalo(cfg, rows), r)
  {
    var t := LoadTable(cfg, rows);
    LoadTableOnePerResource(cfg, rows);
    assert rows[0].recurso in ResourceSet(rows);
    var m := FirstMax(t);
    var b := t[m].recurso;
    assert Gargalo(cfg, rows) == b;
    var i :| 0 <= i < |t| && t[i].recurso == r;
    assert t[i].utilizacao == Utilization(cfg, rows, r);
    assert t[m].utilizacao == Utilization(cfg, rows, b);
    assert t[i].utilizacao <= t[m].utilizacao;
    if t[i].utilizacao == t[m].utilizacao && i != m {
      assert m < i;
      assert StrLt(b, r);
    }
  }

  /** At most one resource satisfies the bottleneck condition, so the choice
      does not depend on the order in which resources are visited. */
  lemma {:induction false} BottleneckUnique(cfg: Settings, rows: seq<Row>, b1: string, b2: string)
    requires IsBottleneck(cfg, rows, b1) && IsBottleneck(cfg, rows, b2)
    ensures b1 == b2
  {
    if b1 != b2 {
      StrLtAsymmetric(b1, b2);
    }
  }

  // ---------------------------------------------------------------------------
  // Ranking, cumulative time and delay
  // ---------------------------------------------------------------------------

  /** The ranking lists exactly the rows of resource `g`, each as often as in the
      sheet, by non-decreasing due date; rows with equal due dates keep their
      sheet order; positions run 1..N. */
  lemma {:induction false} RankingIsEdd(cfg: Settings, rows: seq<Row>, g: string)
    ensures forall x :: multiset(Rows(Ranking(cfg, rows, g)))[x]
                     == if x.recurso == g then multiset(rows)[x] else 0
    ensures forall i, j :: 0 <= i < j < |Ranking(cfg, rows, g)| ==>
      Ranking(cfg, rows, g)[i].linha.dataEntrega <= Ranking(cfg, rows, g)[j].linha.dataEntrega
    ensures forall d :: Select(Rows(Ranking(cfg, rows, g)), DueDate, d)
                     == Select(OnResource(rows, g), DueDate, d)
    ensures forall i :: 0 <= i < |Ranking(cfg, rows, g)| ==> Ranking(cfg, rows, g)[i].ordem == i + 1
  {
    var fila := EddQueue(rows, g);
    var rk := Ranking(cfg, rows, g);
    assert rk == RankQueue(cfg, fila);
    RankQueueRows(cfg, fila);
    assert Rows(rk) == fila;
    SortByPermutes(OnResource(rows, g), DueDate);
    OnResourceCount(rows, g);
    SortBySorted(OnResource(rows, g), DueDate);
    forall i, j | 0 <= i < j < |rk|
      ensures rk[i].linha.dataEntrega <= rk[j].linha.dataEntrega
    {
      assert rk[i].linha == fila[i] && rk[j].linha == fila[j];
      assert DueDate(fila[i]) <= DueDate(fila[j]);
    }
    forall d ensures Select(fila, DueDate, d) == Select(OnResource(rows, g), DueDate, d) {
      SortByStable(OnResource(rows, g), DueDate, d);
    }
    forall i | 0 <= i < |rk| ensures rk[i].ordem == i + 1 {
      RankQueueAt(cfg, fila, i);
    }
  }

  /** A ranked queue lists the queue's own rows, in queue order. */
  lemma RankQueueRows(cfg: Settings, fila: seq<Row>)
    ensures Rows(RankQueue(cfg, fila)) == fila
  {
    var rk := RankQueue(cfg, fila);
    forall i | 0 <= i < |fila| ensures Rows(rk)[i] == fila[i] {
      RankQueueAt(cfg, fila, i);
    }
  }

  /** Line `i` of a ranked queue, spelled out. */
  lemma RankQueueAt(cfg: Settings, fila: seq<Row>, i: nat)
    requires i < |fila|
    ensures var acum := PrefixSums(Project(fila, Ajustado(cfg)))[i];
      RankQueue(cfg, fila)[i] == Ranked(fila[i], TempoAjustado(cfg, fila[i]), i + 1, acum, Clip(acum - cfg.horas))
  {
    var acum := PrefixSums(Project(fila, Ajustado(cfg)))[i];
    assert RankQueue(cfg, fila)[i] == Line(cfg, fila[i], i + 1, acum);
  }

  /** Each line carries its row's adjusted time; the running time is the sum of
      the adjusted times up to and including that line; the delay is the running
      time beyond the available hours, never negative. */
  lemma {:induction false} RankingTimes(cfg: Settings, rows: seq<Row>, g: string)
    ensures forall i :: 0 <= i < |Ranking(cfg, rows, g)| ==>
      var x := Ranking(cfg, rows, g)[i];
      && x.tempoAjustado == TempoAjustado(cfg, x.linha)
      && x.tempoAcumulado == Sum(Project(Ranking(cfg, rows, g), RankedTime)[..i + 1])
      && x.atraso == (if x.tempoAcumulado > cfg.horas then x.tempoAcumulado - cfg.horas else 0.0)
      && x.atraso >= 0.0
  {
    var fila := EddQueue(rows, g);
    var rk := RankQueue(cfg, fila);
    assert rk == Ranking(cfg, rows, g);
    var tempos := Project(fila, Ajustado(cfg));
    forall i | 0 <= i < |rk|
      ensures rk[i].tempoAjustado == tempos[i]
    {
      RankQueueAt(cfg, fila, i);
    }
    assert Project(rk, RankedTime) == tempos;
    PrefixSumsAreSums(tempos);
    forall i | 0 <= i < |rk|
      ensures rk[i].tempoAjustado == TempoAjustado(cfg, rk[i].linha)
      ensures rk[i].tempoAcumulado == Sum(tempos[..i + 1])
      ensures rk[i].atraso == (if rk[i].tempoAcumulado > cfg.horas then rk[i].tempoAcumulado - cfg.horas else 0.0)
    {
      RankQueueAt(cfg, fila, i);
      assert rk[i].tempoAcumulado == PrefixSums(tempos)[i];
    }
  }

  /** With non-negative inputs every row queued at `g` has a non-negative adjusted time. */
  lemma QueueNonNegative(cfg: Settings, rows: seq<Row>, g: string)
    requires NonNegativeInputs(cfg, rows)
    ensures forall i :: 0 <= i < |EddQueue(rows, g)| ==> Project(EddQueue(rows, g), Ajustado(cfg))[i] >= 0.0
  {
    var fila := EddQueue(rows, g);
    SortByPermutes(OnResource(rows, g), DueDate);
    OnResourceCount(rows, g);
    forall i | 0 <= i < |fila|
      ensures Project(fila, Ajustado(cfg))[i] >= 0.0
    {
      var x := fila[i];
      assert x in multiset(fila);
      assert multiset(rows)[x] > 0;
      assert x in rows;
      var k :| 0 <= k < |rows| && rows[k] == x;
      assert TempoAjustado(cfg, x) >= cfg.setup;
    }
  }

  /** The running times of the ranking are the prefix sums of the queue's adjusted times. */
  lemma {:induction false} RankingAccumulated(cfg: Settings, rows: seq<Row>, g: string)
    ensures forall i :: 0 <= i < |Ranking(cfg, rows, g)| ==>
      Ranking(cfg, rows, g)[i].tempoAcumulado == PrefixSums(Project(EddQueue(rows, g), Ajustado(cfg)))[i]
  {
    var fila := EddQueue(rows, g);
    forall i | 0 <= i < |fila|
      ensures Ranking(cfg, rows, g)[i].tempoAcumulado == PrefixSums(Project(fila, Ajustado(cfg)))[i]
    {
      RankQueueAt(cfg, fila, i);
    }
  }

  /** With non-negative inputs the running time never decreases, nor does the
      delay. */
  lemma {:induction false} RankingMonotone(cfg: Settings, rows: seq<Row>, g: string)
    requires NonNegativeInputs(cfg, rows)
    ensures forall i, j :: 0 <= i <= j < |Ranking(cfg, rows, g)| ==>
      && Ranking(cfg, rows, g)[i].tempoAcumulado <= Ranking(cfg, rows, g)[j].tempoAcumulado
      && Ranking(cfg, rows, g)[i].atraso <= Ranking(cfg, rows, g)[j].atraso
  {
    var fila := EddQueue(rows, g);
    var rk := Ranking(cfg, rows, g);
    var ps := PrefixSums(Project(fila, Ajustado(cfg)));
    RankingAccumulated(cfg, rows, g);
    QueueNonNegative(cfg, rows, g);
    PrefixSumsMonotone(Project(fila, Ajustado(cfg)));
    forall i, j | 0 <= i <= j < |rk|
      ensures rk[i].tempoAcumulado <= rk[j].tempoAcumulado
      ensures rk[i].atraso <= rk[j].atraso
    {
      assert ps[i] <= ps[j];
      RankQueueAt(cfg, fila, i);
      RankQueueAt(cfg, fila, j);
    }
  }

  /** The last running time of the ranking is the whole load of resource `g`. */
  lemma {:induction false} RankingEndsAtLoad(cfg: Settings, rows: seq<Row>, g: string)
    requires |Ranking(cfg, rows, g)| > 0
    ensures Ranking(cfg, rows, g)[|Ranking(cfg, rows, g)| - 1].tempoAcumulado == Load(cfg, rows, g)
  {
    var fila := EddQueue(rows, g);
    var tempos := Project(fila, Ajustado(cfg));
    var n := |fila| - 1;
    RankQueueAt(cfg, fila, n);
    PrefixSumsAreSums(tempos);
    assert tempos[..n + 1] == tempos;
    SortBySum(OnResource(rows, g), DueDate, Ajustado(cfg));
  }

  /** A resource named in the sheet has a non-empty ranking. */
  lemma RankingNonEmpty(cfg: Settings, rows: seq<Row>, g: string)
    requires g in ResourceSet(rows)
    ensures |Ranking(cfg, rows, g)| > 0
  {
    var x :| x in rows && x.recurso == g;
    OnResourceCount(rows, g);
    assert x in multiset(OnResource(rows, g));
  }

  /** The total delay is the sum of the per-line delays and is never negative;
      with non-negative inputs it is zero exactly when the load of resource `g`
      fits in the available hours. */
  lemma {:induction false} TotalDelay(cfg: Settings, rows: seq<Row>, g: string)
    ensures AtrasoTotal(Ranking(cfg, rows, g)) >= 0.0
    ensures NonNegativeInputs(cfg, rows) && g in ResourceSet(rows) ==>
      (AtrasoTotal(Ranking(cfg, rows, g)) == 0.0 <==> Load(cfg, rows, g) <= cfg.horas)
  {
    var rk := Ranking(cfg, rows, g);
    var atrasos := Project(rk, RankedDelay);
    RankingTimes(cfg, rows, g);
    SumNonNegative(atrasos);
    if NonNegativeInputs(cfg, rows) && g in ResourceSet(rows) {
      RankingNonEmpty(cfg, rows, g);
      RankingMonotone(cfg, rows, g);
      RankingEndsAtLoad(cfg, rows, g);
      SumZeroIffAllZero(atrasos);
      var n := |rk| - 1;
      if Load(cfg, rows, g) <= cfg.horas {
        forall i | 0 <= i < |rk| ensures atrasos[i] == 0.0 {
          assert rk[i].tempoAcumulado <= rk[n].tempoAcumulado;
        }
      } else {
        assert atrasos[n] != 0.0;
      }
    }
  }

  // ---------------------------------------------------------------------------
  // The cycle
  // ---------------------------------------------------------------------------

  /** A successful cycle names the bottleneck of its sheet, ranks that resource's
      rows and reports their total delay. */
  lemma {:induction false} CyclePlan(frame: Frame, parametros: map<string, real>)
    requires ExecutarCiclo(frame, parametros).Success?
    ensures var plano := ExecutarCiclo(frame, parametros).value;
      && plano.gargalo == Gargalo(SettingsOf(parametros), frame.rows)
      && IsBottleneck(SettingsOf(parametros), frame.rows, plano.gargalo)
      && plano.ranking == Ranking(SettingsOf(parametros), frame.rows, plano.gargalo)
      && plano.atrasoTotal == AtrasoTotal(plano.ranking)
      && plano.atrasoTotal >= 0.0
      && |plano.ranking| > 0
  {
    var cfg := SettingsOf(parametros);
    var plano := ExecutarCiclo(frame, parametros).value;
    BottleneckChoice(cfg, frame.rows);
    TotalDelay(cfg, frame.rows, plano.gargalo);
    RankingNonEmpty(cfg, frame.rows, plano.gargalo);
  }
}
