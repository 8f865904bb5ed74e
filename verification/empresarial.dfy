/** The enterprise layer: assembling orders from imported rows, and the
    management reports (`RelatoriosAvancados`) computed over a planning snapshot.
    Orders, resources, the buffer-zone classifier and the utilisation formula come
    from the base planning module, whose internals are not part of this model:
    the datatypes below carry only the fields these operations read, and the
    classifier and utilisation are parameters. */
module PcpEmpresarial {
  import opened Wrappers
  import opened Sums
  import opened StableSort

  // ---------------------------------------------------------------------------
  // Snapshot
  // ---------------------------------------------------------------------------

  /** Order status; the reports only distinguish concluded orders. */
  datatype StatusPedido = Concluido | EmAberto(nome: string)

  datatype Operacao = Operacao(
    idOperacao: string,
    recurso: string,
    tempoSetup: real,
    tempoProcessamento: real,
    ordem: int)

  /** An order. Dates are day numbers; `penetracaoBuffer` is the buffer
      penetration the base module computed. */
  datatype Pedido = Pedido(
    idPedido: string,
    cliente: string,
    operacoes: seq<Operacao>,
    dataEntrada: int,
    dataEntrega: int,
    prioridade: int,
    status: StatusPedido,
    penetracaoBuffer: real)

  datatype Recurso = Recurso(nome: string, capacidadeHorasDia: real, cargaPlanejada: real)

  /** The planning system as the reports see it. `recursos` is the resource dict
      in insertion order, keyed by `nome`. */
  datatype Sistema = Sistema(
    pedidos: seq<Pedido>,
    recursos: seq<Recurso>,
    gargaloAtual: Option<string>,
    dataAtual: int)

  /** Dict keys are unique. */
  predicate UniqueNames(rs: seq<Recurso>) {
    forall i, j :: 0 <= i < j < |rs| ==> rs[i].nome != rs[j].nome
  }

  const Verde := "VERDE"
  const Amarelo := "AMARELO"
  const Vermelho := "VERMELHO"

  // ---------------------------------------------------------------------------
  // Order assembly (importers)
  // ---------------------------------------------------------------------------

  /** A line of the `Pedidos` sheet or an order object of the JSON file;
      `prioridade` is `None` when the field is absent. */
  datatype LinhaPedido = LinhaPedido(idPedido: string, cliente: string, dataEntrega: int, prioridade: Option<int>)

  /** A line of the `Operacoes` sheet. */
  datatype LinhaOperacao = LinhaOperacao(
    idPedido: string,
    idOperacao: string,
    recurso: string,
    setupH: real,
    procH: real,
    ordem: int)

  /** An order object of the JSON file, with its nested operations. */
  datatype PedidoJson = PedidoJson(cabecalho: LinhaPedido, operacoes: seq<Operacao>)

  /** What the base module's `Pedido` constructor sets on a new order. */
  datatype PedidoInicial = PedidoInicial(status: StatusPedido, penetracao: real)

  const PrioridadePadrao := 5

  function OrdemKey(op: Operacao): real {
    op.ordem as real
  }

  function ParaOperacao(l: LinhaOperacao): Operacao {
    Operacao(l.idOperacao, l.recurso, l.setupH, l.procH, l.ordem)
  }

  /** `df_operacoes[df_operacoes['ID_Pedido'] == id]`, each line turned into an
      operation, in sheet order. */
  function OperacoesDo(linhas: seq<LinhaOperacao>, id: string): (ops: seq<Operacao>)
    ensures |ops| <= |linhas|
  {
    if |linhas| == 0 then []
    else (if linhas[0].idPedido == id then [ParaOperacao(linhas[0])] else []) + OperacoesDo(linhas[1..], id)
  }

  /** The number of operation lines that belong to order `id`. */
  function CountLines(linhas: seq<LinhaOperacao>, id: string): nat {
    if |linhas| == 0 then 0
    else (if linhas[0].idPedido == id then 1 else 0) + CountLines(linhas[1..], id)
  }

  /** The operations of order `id` are exactly its operation lines: one per line. */
  lemma {:induction false} OperacoesDoExact(linhas: seq<LinhaOperacao>, id: string)
    ensures |OperacoesDo(linhas, id)| == CountLines(linhas, id)
    ensures forall i :: 0 <= i < |linhas| && linhas[i].idPedido == id ==>
      ParaOperacao(linhas[i]) in OperacoesDo(linhas, id)
    ensures forall op :: op in OperacoesDo(linhas, id) ==>
      exists i :: 0 <= i < |linhas| && linhas[i].idPedido == id && ParaOperacao(linhas[i]) == op
  {
    if |linhas| > 0 {
      OperacoesDoExact(linhas[1..], id);
      var ops := OperacoesDo(linhas, id);
      var rest := OperacoesDo(linhas[1..], id);
      forall i | 0 <= i < |linhas| && linhas[i].idPedido == id
        ensures ParaOperacao(linhas[i]) in ops
      {
        if i > 0 {
          assert linhas[i] == linhas[1..][i - 1];
        }
      }
      forall op | op in ops
        ensures exists i :: 0 <= i < |linhas| && linhas[i].idPedido == id && ParaOperacao(linhas[i]) == op
      {
        if !(linhas[0].idPedido == id && ParaOperacao(linhas[0]) == op) {
          assert op in rest;
          var j :| 0 <= j < |linhas[1..]| && linhas[1..][j].idPedido == id && ParaOperacao(linhas[1..][j]) == op;
          assert linhas[j + 1] == linhas[1..][j];
        }
      }
    }
  }

  /** Filtering distributes over concatenation. */
  lemma {:induction false} OperacoesDoAppend(a: seq<LinhaOperacao>, b: seq<LinhaOperacao>, id: string)
    ensures OperacoesDo(a + b, id) == OperacoesDo(a, id) + OperacoesDo(b, id)
  {
    if |a| > 0 {
      assert (a + b)[1..] == a[1..] + b;
      OperacoesDoAppend(a[1..], b, id);
    } else {
      assert a + b == b;
    }
  }

  /** Positions, in sheet order, of the lines that belong to order `id`. */
  ghost function Posicoes(linhas: seq<LinhaOperacao>, id: string): (p: seq<int>)
    ensures forall j :: 0 <= j < |p| ==> 0 <= p[j] < |linhas| && linhas[p[j]].idPedido == id
    ensures forall a, b :: 0 <= a < b < |p| ==> p[a] < p[b]
    ensures forall k :: 0 <= k < |linhas| && linhas[k].idPedido == id ==> k in p
  {
    if |linhas| == 0 then []
    else
      var n := |linhas| - 1;
      var q := Posicoes(linhas[..n], id);
      assert forall j :: 0 <= j < |q| ==> linhas[q[j]] == linhas[..n][q[j]];
      assert forall k :: 0 <= k < n ==> linhas[k] == linhas[..n][k];
      q + (if linhas[n].idPedido == id then [n] else [])
  }

  /** The operations of order `id` are its operation lines, converted one by one,
      in the order they appear on the sheet. */
  lemma {:induction false} OperacoesDoInSheetOrder(linhas: seq<LinhaOperacao>, id: string)
    ensures |OperacoesDo(linhas, id)| == |Posicoes(linhas, id)|
    ensures forall j :: 0 <= j < |Posicoes(linhas, id)| ==>
      OperacoesDo(linhas, id)[j] == ParaOperacao(linhas[Posicoes(linhas, id)[j]])
  {
    if |linhas| > 0 {
      var n := |linhas| - 1;
      var p, x := linhas[..n], linhas[n];
      assert linhas == p + [x];
      OperacoesDoAppend(p, [x], id);
      OperacoesDoInSheetOrder(p, id);
      assert [x][1..] == [];
      var q := Posicoes(p, id);
      var ops := OperacoesDo(linhas, id);
      assert ops == OperacoesDo(p, id) + if x.idPedido == id then [ParaOperacao(x)] else [];
      var pos := Posicoes(linhas, id);
      assert pos == q + if x.idPedido == id then [n] else [];
      forall j | 0 <= j < |pos|
        ensures ops[j] == ParaOperacao(linhas[pos[j]])
      {
        if j < |q| {
          assert linhas[q[j]] == p[q[j]];
        }
      }
    }
  }

  /** Builds one order: operations sorted by `ordem` (a stable sort), priority
      defaulting to 5, entry date the import time. */
  function MontarPedido(cab: LinhaPedido, ops: seq<Operacao>, agora: int, inicial: PedidoInicial): (p: Pedido)
    ensures p.idPedido == cab.idPedido && p.cliente == cab.cliente
    ensures p.dataEntrada == agora && p.dataEntrega == cab.dataEntrega
    ensures p.prioridade == if cab.prioridade.Some? then cab.prioridade.value else PrioridadePadrao
    ensures multiset(p.operacoes) == multiset(ops)
    ensures forall i, j :: 0 <= i < j < |p.operacoes| ==> p.operacoes[i].ordem <= p.operacoes[j].ordem
    ensures forall k :: Select(p.operacoes, OrdemKey, k) == Select(ops, OrdemKey, k)
  {
    var ordenadas := SortBy(ops, OrdemKey);
    SortByIsStableSort(ops, OrdemKey);
    assert forall i, j :: 0 <= i < j < |ordenadas| ==> OrdemKey(ordenadas[i]) <= OrdemKey(ordenadas[j]);
    Pedido(cab.idPedido, cab.cliente, ordenadas, agora, cab.dataEntrega,
           cab.prioridade.GetOr(PrioridadePadrao), inicial.status, inicial.penetracao)
  }

  /** `importar_pedidos_excel`: one order per line of the `Pedidos` sheet, in
      sheet order, each with the operation lines that carry its id. */
  function ImportarPedidosPlanilha(
    pedidos: seq<LinhaPedido>, operacoes: seq<LinhaOperacao>, agora: int, inicial: PedidoInicial): (r: seq<Pedido>)
    ensures |r| == |pedidos|
    ensures forall i :: 0 <= i < |r| ==>
      r[i] == MontarPedido(pedidos[i], OperacoesDo(operacoes, pedidos[i].idPedido), agora, inicial)
  {
    if |pedidos| == 0 then []
    else [MontarPedido(pedidos[0], OperacoesDo(operacoes, pedidos[0].idPedido), agora, inicial)]
         + ImportarPedidosPlanilha(pedidos[1..], operacoes, agora, inicial)
  }

  /** An imported order holds exactly the operation lines with its id, sorted by
      `ordem`, lines with equal `ordem` in sheet order; its priority defaults to 5. */
  lemma ImportedOrder(pedidos: seq<LinhaPedido>, operacoes: seq<LinhaOperacao>, agora: int,
                      inicial: PedidoInicial, i: nat)
    requires i < |pedidos|
    ensures var p := ImportarPedidosPlanilha(pedidos, operacoes, agora, inicial)[i];
      && p.idPedido == pedidos[i].idPedido
      && |p.operacoes| == CountLines(operacoes, p.idPedido)
      && (forall k :: 0 <= k < |operacoes| && operacoes[k].idPedido == p.idPedido ==>
            ParaOperacao(operacoes[k]) in p.operacoes)
      && (forall op :: op in p.operacoes ==>
            exists k :: 0 <= k < |operacoes| && operacoes[k].idPedido == p.idPedido && ParaOperacao(operacoes[k]) == op)
      && multiset(p.operacoes) == multiset(OperacoesDo(operacoes, p.idPedido))
      && (forall a, b :: 0 <= a < b < |p.operacoes| ==> p.operacoes[a].ordem <= p.operacoes[b].ordem)
      && (forall k :: Select(p.operacoes, OrdemKey, k) == Select(OperacoesDo(operacoes, p.idPedido), OrdemKey, k))
      && p.prioridade == pedidos[i].prioridade.GetOr(PrioridadePadrao)
      && p.dataEntrada == agora
  {
    var id := pedidos[i].idPedido;
    var ops := OperacoesDo(operacoes, id);
    var p := ImportarPedidosPlanilha(pedidos, operacoes, agora, inicial)[i];
    OperacoesDoExact(operacoes, id);
    assert multiset(p.operacoes) == multiset(ops);
    assert |p.operacoes| == |multiset(p.operacoes)| == |multiset(ops)| == |ops|;
    forall op | op in p.operacoes ensures op in ops {
      assert op in multiset(p.operacoes);
    }
    forall op | op in ops ensures op in p.operacoes {
      assert op in multiset(ops);
    }
  }

  /** `importar_json`: one order per JSON object, its nested operations sorted by
      `ordem`, priority defaulting to 5. */
  function ImportarPedidosJson(peds: seq<PedidoJson>, agora: int, inicial: PedidoInicial): (r: seq<Pedido>)
    ensures |r| == |peds|
    ensures forall i :: 0 <= i < |r| ==> r[i] == MontarPedido(peds[i].cabecalho, peds[i].operacoes, agora, inicial)
    ensures forall i :: 0 <= i < |r| ==>
      && r[i].idPedido == peds[i].cabecalho.idPedido
      && r[i].cliente == peds[i].cabecalho.cliente
      && r[i].dataEntrega == peds[i].cabecalho.dataEntrega
      && r[i].dataEntrada == agora
      && multiset(r[i].operacoes) == multiset(peds[i].operacoes)
      && (forall a, b :: 0 <= a < b < |r[i].operacoes| ==> r[i].operacoes[a].ordem <= r[i].operacoes[b].ordem)
      && (forall k :: Select(r[i].operacoes, OrdemKey, k) == Select(peds[i].operacoes, OrdemKey, k))
      && r[i].prioridade == peds[i].cabecalho.prioridade.GetOr(PrioridadePadrao)
  {
    seq(|peds|, i requires 0 <= i < |peds| => MontarPedido(peds[i].cabecalho, peds[i].operacoes, agora, inicial))
  }

  // ---------------------------------------------------------------------------
  // KPI report
  // ---------------------------------------------------------------------------

  /** The orders not yet concluded, in snapshot order. */
  function Ativos(ps: seq<Pedido>): (a: seq<Pedido>)
    ensures |a| <= |ps|
    ensures forall i :: 0 <= i < |a| ==> a[i].status != Concluido
  {
    if |ps| == 0 then []
    else (if ps[0].status != Concluido then [ps[0]] else []) + Ativos(ps[1..])
  }

  /** Filtering keeps every unconcluded order, as often as it occurs, and no other. */
  lemma {:induction false} AtivosCount(ps: seq<Pedido>)
    ensures forall x :: multiset(Ativos(ps))[x] == if x.status != Concluido then multiset(ps)[x] else 0
  {
    if |ps| > 0 {
      assert ps == [ps[0]] + ps[1..];
      AtivosCount(ps[1..]);
    }
  }

  /** How many of `ps` the classifier puts in zone `nome`. */
  function CountZone(ps: seq<Pedido>, zona: real -> string, nome: string): (n: nat)
    ensures n <= |ps|
  {
    if |ps| == 0 then 0
    else (if zona(ps[0].penetracaoBuffer) == nome then 1 else 0) + CountZone(ps[1..], zona, nome)
  }

  /** An order is in at most one of the three zones, so their counts add up to at
      most the number of orders counted. */
  lemma {:induction false} ZoneCountsBounded(ps: seq<Pedido>, zona: real -> string)
    ensures CountZone(ps, zona, Verde) + CountZone(ps, zona, Amarelo) + CountZone(ps, zona, Vermelho) <= |ps|
  {
    if |ps| > 0 {
      ZoneCountsBounded(ps[1..], zona);
    }
  }

  /** Filtering distributes over concatenation. */
  lemma {:induction false} AtivosAppend(a: seq<Pedido>, b: seq<Pedido>)
    ensures Ativos(a + b) == Ativos(a) + Ativos(b)
  {
    if |a| > 0 {
      assert (a + b)[1..] == a[1..] + b;
      AtivosAppend(a[1..], b);
    } else {
      assert a + b == b;
    }
  }

  /** Zone counts add up over concatenation. */
  lemma {:induction false} CountZoneAppend(a: seq<Pedido>, b: seq<Pedido>, zona: real -> string, nome: string)
    ensures CountZone(a + b, zona, nome) == CountZone(a, zona, nome) + CountZone(b, zona, nome)
  {
    if |a| > 0 {
      assert (a + b)[1..] == a[1..] + b;
      CountZoneAppend(a[1..], b, zona, nome);
    } else {
      assert a + b == b;
    }
  }

  /** Positions of the unconcluded orders of `ps` that the classifier puts in zone `nome`. */
  ghost function NaZona(ps: seq<Pedido>, zona: real -> string, nome: string): set<int> {
    set i | 0 <= i < |ps| && ps[i].status != Concluido && zona(ps[i].penetracaoBuffer) == nome
  }

  /** Appending an order adds its position to the zone's positions when it is
      unconcluded and in the zone, and nothing otherwise. */
  lemma NaZonaSnocSet(p: seq<Pedido>, x: Pedido, zona: real -> string, nome: string)
    ensures NaZona(p + [x], zona, nome) ==
      NaZona(p, zona, nome) + if x.status != Concluido && zona(x.penetracaoBuffer) == nome then {|p|} else {}
  {
    var ps := p + [x];
    var a, b := NaZona(p, zona, nome), NaZona(ps, zona, nome);
    var extra: set<int> := if x.status != Concluido && zona(x.penetracaoBuffer) == nome then {|p|} else {};
    forall i | i in b
      ensures i in a + extra
    {
      if i < |p| {
        assert ps[i] == p[i];
      }
    }
    forall i | i in a + extra
      ensures i in b
    {
      if i < |p| {
        assert ps[i] == p[i];
      }
    }
  }

  /** So the zone's count grows by one exactly when the appended order is counted. */
  lemma NaZonaSnoc(p: seq<Pedido>, x: Pedido, zona: real -> string, nome: string)
    ensures |NaZona(p + [x], zona, nome)| ==
      |NaZona(p, zona, nome)| + if x.status != Concluido && zona(x.penetracaoBuffer) == nome then 1 else 0
  {
    NaZonaSnocSet(p, x, zona, nome);
    assert |p| !in NaZona(p, zona, nome);
  }

  /** Counting a zone among the unconcluded orders counts exactly the orders of the
      whole snapshot that are unconcluded and in that zone. */
  lemma {:induction false} ZoneCountActive(ps: seq<Pedido>, zona: real -> string, nome: string)
    ensures CountZone(Ativos(ps), zona, nome) == |NaZona(ps, zona, nome)|
  {
    if |ps| > 0 {
      var n := |ps| - 1;
      var p, x := ps[..n], ps[n];
      assert ps == p + [x];
      AtivosAppend(p, [x]);
      CountZoneAppend(Ativos(p), Ativos([x]), zona, nome);
      ZoneCountActive(p, zona, nome);
      NaZonaSnoc(p, x, zona, nome);
    } else {
      assert NaZona(ps, zona, nome) == {};
    }
  }

  /** Lead time of an order in days. */
  function LeadTime(p: Pedido): real {
    (p.dataEntrega - p.dataEntrada) as real
  }

  /** The KPI table. `utilizacaoMedia` is `None` for a system without resources,
      where numpy's mean of an empty list is NaN. */
  datatype Kpis = Kpis(
    totalPedidos: nat,
    pedidosVerde: nat,
    pedidosAmarelo: nat,
    pedidosVermelho: nat,
    utilizacaoMedia: Option<real>,
    leadTimeMedio: real,
    recursoGargalo: Option<string>,
    totalRecursos: nat)

  /** `relatorio_kpis`. Zones are counted over unconcluded orders only; the order
      total and the lead time cover every order. */
  function RelatorioKpis(s: Sistema, zona: real -> string, utilizacao: Recurso -> real): (k: Kpis)
    ensures k.totalPedidos == |s.pedidos| && k.totalRecursos == |s.recursos|
    ensures k.pedidosVerde + k.pedidosAmarelo + k.pedidosVermelho <= |Ativos(s.pedidos)| <= k.totalPedidos
    ensures k.pedidosVerde == |NaZona(s.pedidos, zona, Verde)|
    ensures k.pedidosAmarelo == |NaZona(s.pedidos, zona, Amarelo)|
    ensures k.pedidosVermelho == |NaZona(s.pedidos, zona, Vermelho)|
    ensures k.recursoGargalo == s.gargaloAtual
    ensures |s.pedidos| == 0 ==> k.leadTimeMedio == 0.0
    ensures IsMean(Project(s.pedidos, LeadTime), k.leadTimeMedio)
    ensures k.utilizacaoMedia.Some? ==> IsMean(Project(s.recursos, utilizacao), k.utilizacaoMedia.value)
    ensures forall c :: AllAtLeast(Project(s.pedidos, LeadTime), c) && |s.pedidos| > 0 ==> c <= k.leadTimeMedio
    ensures forall c :: AllAtMost(Project(s.pedidos, LeadTime), c) && |s.pedidos| > 0 ==> k.leadTimeMedio <= c
    ensures k.utilizacaoMedia.None? <==> |s.recursos| == 0
    ensures forall c :: AllAtLeast(Project(s.recursos, utilizacao), c) && k.utilizacaoMedia.Some? ==>
      c <= k.utilizacaoMedia.value
    ensures forall c :: AllAtMost(Project(s.recursos, utilizacao), c) && k.utilizacaoMedia.Some? ==>
      k.utilizacaoMedia.value <= c
  {
    var ativos := Ativos(s.pedidos);
    ZoneCountsBounded(ativos, zona);
    ZoneCountActive(s.pedidos, zona, Verde);
    ZoneCountActive(s.pedidos, zona, Amarelo);
    ZoneCountActive(s.pedidos, zona, Vermelho);
    Kpis(
      |s.pedidos|,
      CountZone(ativos, zona, Verde),
      CountZone(ativos, zona, Amarelo),
      CountZone(ativos, zona, Vermelho),
      if |s.recursos| == 0 then None else Some(Mean(Project(s.recursos, utilizacao))),
      Mean(Project(s.pedidos, LeadTime)),
      s.gargaloAtual,
      |s.recursos|)
  }

  // ---------------------------------------------------------------------------
  // Critical orders report
  // ---------------------------------------------------------------------------

  /** Sort key for "penetration, highest first". */
  function PenetracaoDesc(p: Pedido): real {
    -p.penetracaoBuffer
  }

  /** Python's `s[:n]`: a negative `n` counts from the end. */
  function SlicePrefix<T>(s: seq<T>, n: int): (r: seq<T>)
    ensures |r| == if n >= 0 then (if n < |s| then n else |s|) else (if |s| + n > 0 then |s| + n else 0)
    ensures r == s[..|r|]
  {
    if n >= 0 then (if n < |s| then s[..n] else s)
    else if |s| + n > 0 then s[..|s| + n]
    else []
  }

  /** The orders `relatorio_pedidos_criticos` lists: the unconcluded orders by
      penetration, highest first (a stable sort), cut to `top_n`. */
  function PedidosCriticos(ps: seq<Pedido>, topN: int): (c: seq<Pedido>)
    ensures |c| <= |Ativos(ps)|
    ensures c == PorPenetracao(ps)[..|c|]
  {
    SlicePrefix(SortBy(Ativos(ps), PenetracaoDesc), topN)
  }

  /** The unconcluded orders sorted by penetration, highest first. */
  function PorPenetracao(ps: seq<Pedido>): seq<Pedido> {
    SortBy(Ativos(ps), PenetracaoDesc)
  }

  /** The critical list has `min(top_n, |active|)` entries and every entry is an
      unconcluded order of the snapshot. */
  lemma {:induction false} CriticalActive(ps: seq<Pedido>, topN: int)
    ensures topN >= 0 ==> |PedidosCriticos(ps, topN)| == if topN < |Ativos(ps)| then topN else |Ativos(ps)|
    ensures forall i :: 0 <= i < |PedidosCriticos(ps, topN)| ==>
      PedidosCriticos(ps, topN)[i].status != Concluido && PedidosCriticos(ps, topN)[i] in ps
  {
    var sorted := PorPenetracao(ps);
    var c := PedidosCriticos(ps, topN);
    assert c == sorted[..|c|];
    SortByPermutes(Ativos(ps), PenetracaoDesc);
    AtivosCount(ps);
    forall i | 0 <= i < |c|
      ensures c[i].status != Concluido && c[i] in ps
    {
      assert c[i] == sorted[i];
      assert sorted[i] in multiset(sorted);
      assert multiset(Ativos(ps))[c[i]] > 0;
    }
  }

  /** The critical list runs from the highest penetration down, and orders of
      equal penetration appear in snapshot order (a prefix of their group). */
  lemma {:induction false} CriticalOrdered(ps: seq<Pedido>, topN: int)
    ensures forall i, j :: 0 <= i < j < |PedidosCriticos(ps, topN)| ==>
      PedidosCriticos(ps, topN)[i].penetracaoBuffer >= PedidosCriticos(ps, topN)[j].penetracaoBuffer
    ensures forall k :: Select(PedidosCriticos(ps, topN), PenetracaoDesc, k) <= Select(Ativos(ps), PenetracaoDesc, k)
  {
    var sorted := PorPenetracao(ps);
    var c := PedidosCriticos(ps, topN);
    var m := |c|;
    assert c == sorted[..m];
    assert sorted == c + sorted[m..];
    SortBySorted(Ativos(ps), PenetracaoDesc);
    forall i, j | 0 <= i < j < m
      ensures c[i].penetracaoBuffer >= c[j].penetracaoBuffer
    {
      assert PenetracaoDesc(sorted[i]) <= PenetracaoDesc(sorted[j]);
    }
    forall k
      ensures Select(c, PenetracaoDesc, k) <= Select(Ativos(ps), PenetracaoDesc, k)
    {
      SelectAppend(c, sorted[m..], PenetracaoDesc, k);
      SortByStable(Ativos(ps), PenetracaoDesc, k);
    }
  }

  /** No unconcluded order left out of the critical list has a higher
      penetration than any order in it. */
  lemma {:induction false} CriticalLeftOutBelow(ps: seq<Pedido>, topN: int)
    ensures forall p :: p in multiset(Ativos(ps)) - multiset(PedidosCriticos(ps, topN)) ==>
      forall i :: 0 <= i < |PedidosCriticos(ps, topN)| ==>
        p.penetracaoBuffer <= PedidosCriticos(ps, topN)[i].penetracaoBuffer
  {
    var sorted := PorPenetracao(ps);
    var c := PedidosCriticos(ps, topN);
    var rest := sorted[|c|..];
    assert sorted == c + rest;
    SortByPermutes(Ativos(ps), PenetracaoDesc);
    assert multiset(Ativos(ps)) == multiset(c) + multiset(rest);
    forall p | p in multiset(Ativos(ps)) - multiset(c)
      ensures forall i :: 0 <= i < |c| ==> p.penetracaoBuffer <= c[i].penetracaoBuffer
    {
      CriticalAboveLeftOut(ps, topN, p);
    }
  }

  /** An order past the cut of the sorted list has no more penetration than any
      listed one. */
  lemma CriticalAboveLeftOut(ps: seq<Pedido>, topN: int, p: Pedido)
    requires p in multiset(PorPenetracao(ps)[|PedidosCriticos(ps, topN)|..])
    ensures forall i :: 0 <= i < |PedidosCriticos(ps, topN)| ==>
      p.penetracaoBuffer <= PedidosCriticos(ps, topN)[i].penetracaoBuffer
  {
    var sorted := PorPenetracao(ps);
    var c := PedidosCriticos(ps, topN);
    SortBySorted(Ativos(ps), PenetracaoDesc);
    SortedSuffixAbove(sorted, PenetracaoDesc, |c|, p);
    forall i | 0 <= i < |c|
      ensures p.penetracaoBuffer <= c[i].penetracaoBuffer
    {
      assert c[i] == sorted[i];
      assert PenetracaoDesc(sorted[i]) <= PenetracaoDesc(p);
    }
  }


  /** One line of the critical-orders report. */
  datatype LinhaCritica = LinhaCritica(
    pedido: string,
    cliente: string,
    penetracao: real,
    zona: string,
    diasRestantes: int,
    prioridade: int,
    status: StatusPedido)

  function LinhaDe(s: Sistema, zona: real -> string, p: Pedido): LinhaCritica {
    LinhaCritica(p.idPedido, p.cliente, p.penetracaoBuffer, zona(p.penetracaoBuffer),
                 p.dataEntrega - s.dataAtual, p.prioridade, p.status)
  }

  /** `relatorio_pedidos_criticos`: a line per selected order, with its zone and
      the days left until its due date. */
  function RelatorioPedidosCriticos(s: Sistema, zona: real -> string, topN: int := 10): (r: seq<LinhaCritica>)
    ensures |r| == |PedidosCriticos(s.pedidos, topN)|
    ensures forall i :: 0 <= i < |r| ==> r[i] == LinhaDe(s, zona, PedidosCriticos(s.pedidos, topN)[i])
    ensures topN >= 0 ==> |r| == if topN < |Ativos(s.pedidos)| then topN else |Ativos(s.pedidos)|
    ensures forall i, j :: 0 <= i < j < |r| ==> r[i].penetracao >= r[j].penetracao
    ensures forall i :: 0 <= i < |r| ==> r[i].status != Concluido
    ensures forall i :: 0 <= i < |r| ==>
      exists p :: p in s.pedidos && p.idPedido == r[i].pedido && r[i].diasRestantes == p.dataEntrega - s.dataAtual
                  && r[i].zona == zona(p.penetracaoBuffer)
  {
    var c := PedidosCriticos(s.pedidos, topN);
    CriticalActive(s.pedidos, topN);
    CriticalOrdered(s.pedidos, topN);
    var r := seq(|c|, i requires 0 <= i < |c| => LinhaDe(s, zona, c[i]));
    assert forall i :: 0 <= i < |r| ==> r[i] == LinhaDe(s, zona, c[i]) && c[i] in s.pedidos;
    r
  }

  // ---------------------------------------------------------------------------
  // Capacity report
  // ---------------------------------------------------------------------------

  datatype StatusCapacidade = Gargalo | Ok

  /** One line of the capacity report. */
  datatype LinhaCapacidade = LinhaCapacidade(
    recurso: string,
    capacidadeTotal: real,
    cargaPlanejada: real,
    disponivel: real,
    percentualUso: real,
    status: StatusCapacidade)

  /** Load as a percentage of capacity; a non-positive capacity yields 0 instead
      of a division. */
  function PercentualUso(carga: real, capacidade: real): (pct: real)
    ensures capacidade <= 0.0 ==> pct == 0.0
    ensures capacidade > 0.0 ==> pct * capacidade == carga * 100.0
    ensures capacidade > 0.0 && 0.0 <= carga <= capacidade ==> 0.0 <= pct <= 100.0
  {
    if capacidade > 0.0 then
      var pct := carga / capacidade * 100.0;
      assert pct * capacidade == carga * 100.0;
      assert 0.0 <= carga <= capacidade ==> carga / capacidade <= 1.0;
      pct
    else 0.0
  }

  function LinhaCapacidadeDe(s: Sistema, r: Recurso, dias: int): LinhaCapacidade {
    var total := r.capacidadeHorasDia * dias as real;
    LinhaCapacidade(r.nome, total, r.cargaPlanejada, total - r.cargaPlanejada,
                    PercentualUso(r.cargaPlanejada, total),
                    if s.gargaloAtual == Some(r.nome) then Gargalo else Ok)
  }

  /** `relatorio_capacidade_periodo`: one line per resource, in dict order, with
      its capacity over `dias` days, what remains after the planned load, the
      percentage used and whether it is the current bottleneck. */
  function RelatorioCapacidade(s: Sistema, dias: int := 30): (t: seq<LinhaCapacidade>)
    ensures |t| == |s.recursos|
    ensures forall i :: 0 <= i < |t| ==>
      && t[i].recurso == s.recursos[i].nome
      && t[i].capacidadeTotal == s.recursos[i].capacidadeHorasDia * dias as real
      && t[i].disponivel + t[i].cargaPlanejada == t[i].capacidadeTotal
      && t[i].cargaPlanejada == s.recursos[i].cargaPlanejada
      && t[i].percentualUso == PercentualUso(t[i].cargaPlanejada, t[i].capacidadeTotal)
      && (t[i].capacidadeTotal <= 0.0 ==> t[i].percentualUso == 0.0)
      && (t[i].capacidadeTotal > 0.0 ==> (t[i].disponivel >= 0.0 <==> t[i].percentualUso <= 100.0))
      && (t[i].status == Gargalo <==> s.gargaloAtual == Some(t[i].recurso))
    ensures UniqueNames(s.recursos) ==>
      forall i, j :: 0 <= i < j < |t| ==> !(t[i].status == Gargalo && t[j].status == Gargalo)
  {
    var t := seq(|s.recursos|, i requires 0 <= i < |s.recursos| => LinhaCapacidadeDe(s, s.recursos[i], dias));
    forall i | 0 <= i < |t| && t[i].capacidadeTotal > 0.0
      ensures t[i].disponivel >= 0.0 <==> t[i].percentualUso <= 100.0
    {
      PercentBelowHundred(t[i].cargaPlanejada, t[i].capacidadeTotal);
    }
    t
  }

  lemma PercentBelowHundred(carga: real, capacidade: real)
    requires capacidade > 0.0
    ensures PercentualUso(carga, capacidade) <= 100.0 <==> carga <= capacidade
  {
    var pct := PercentualUso(carga, capacidade);
    assert pct * capacidade == carga * 100.0;
    if pct <= 100.0 {
      assert pct * capacidade <= 100.0 * capacidade;
    } else {
      assert pct * capacidade > 100.0 * capacidade;
    }
  }
}
