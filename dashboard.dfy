/** The dashboard: stock summary, availability projection, alerts,
    occupancy history and occupancy per client, each a computation over the
    store at a given `today`. */
module Dashboard {
  import opened Common
  import opened Seqs
  import opened Tables
  import opened DataloggerModel
  import opened DemandaModel
  import opened AlocacaoModel
  import opened Database
  import opened DataloggerRoutes
  import opened AlocacaoRoutes
  import DemandaRoutes

  // ---------------------------------------------------------------------
  // Stock summary

  /** The summary answer. The occupancy rate is a ratio of counts. */
  datatype Resumo = Resumo(
    totalDataloggers: nat,
    emEstoque: nat,
    alocados: nat,
    emCalibracao: nat,
    emManutencao: nat,
    demandasAtivas: nat,
    alocacoesEmCampo: nat,
    calibracoesVencidas: nat,
    retornosProximos: nat,
    taxaOcupacao: real)

  /** Share of `parte` in `total`, in percent; 0 for an empty total. */
  function Percentual(parte: nat, total: nat): (r: real)
    ensures total == 0 ==> r == 0.0
  {
    if total > 0 then (parte as real) / (total as real) * 100.0 else 0.0
  }

  /** Over a non-empty total the share times the total is the part in
      percent, and a part of the total lies between 0 and 100 percent. */
  lemma PercentualLimites(parte: nat, total: nat)
    ensures total > 0 ==> Percentual(parte, total) * (total as real) == (parte as real) * 100.0
    ensures parte <= total ==> 0.0 <= Percentual(parte, total) <= 100.0
  {
    if total > 0 {
      var q := (parte as real) / (total as real);
      assert q * (total as real) == parte as real;
      if parte <= total {
        assert q <= 1.0;
      }
    }
  }

  /** A device status among `ss`. */
  function ComAlgumStatus(ss: seq<string>): Datalogger -> bool {
    (d: Datalogger) => d.status in ss
  }

  /** The four documented device statuses are exclusive, so their counts
      add up to at most the number of devices, and exactly to it when every
      device holds a documented status. */
  lemma StatusPartition(t: Table<Datalogger>)
    requires t.Valid()
    ensures CountWhere(t, ComStatus(Estoque)) + CountWhere(t, ComStatus(Alocado)) +
            CountWhere(t, ComStatus(Calibracao)) + CountWhere(t, ComStatus(Manutencao)) <= Size(t)
    ensures (forall k :: k in t.rows ==> DataloggerStatusDocumentado(t.rows[k].status)) ==>
            CountWhere(t, ComStatus(Estoque)) + CountWhere(t, ComStatus(Alocado)) +
            CountWhere(t, ComStatus(Calibracao)) + CountWhere(t, ComStatus(Manutencao)) == Size(t)
  {
    var ea, eac, todos := [Estoque, Alocado], [Estoque, Alocado, Calibracao],
                          [Estoque, Alocado, Calibracao, Manutencao];
    CountWhereSplit(t, t, ComAlgumStatus(ea), ComStatus(Estoque), ComStatus(Alocado));
    CountWhereSplit(t, t, ComAlgumStatus(eac), ComAlgumStatus(ea), ComStatus(Calibracao));
    CountWhereSplit(t, t, ComAlgumStatus(todos), ComAlgumStatus(eac), ComStatus(Manutencao));
    CountWhereMonotone(t, ComAlgumStatus(todos), ComAlgumStatus(todos));
    if forall k :: k in t.rows ==> DataloggerStatusDocumentado(t.rows[k].status) {
      CountWhereAll(t, ComAlgumStatus(todos));
    }
  }

  /** Counting the devices of a status counts the listing filtered by it. */
  lemma ContagemPorStatus(db: Db, s: string)
    requires db.TablesValid() && s != ""
    ensures CountWhere(db.dataloggers, ComStatus(s)) == |ListDataloggers(db, Some(s))|
  {
    IncreasingUnique(Where(db.dataloggers, ComStatus(s)), ListDataloggers(db, Some(s)));
  }

  /** The condition `status == 'Ativa'` on a demand row. */
  function DemandaAtiva(d: Demanda): bool {
    d.status == Ativa
  }

  /** Counting the active demands counts the demand listing filtered by
      that status. */
  lemma ContagemDemandasAtivas(db: Db)
    requires db.TablesValid()
    ensures CountWhere(db.demandas, DemandaAtiva) == |DemandaRoutes.ListDemandas(db, Some(Ativa), None)|
  {
    IncreasingUnique(Where(db.demandas, DemandaAtiva), DemandaRoutes.ListDemandas(db, Some(Ativa), None));
  }

  /** `GET /dashboard/resumo`: the per-status device counts, the active
      demands, the allocations in field, the overdue calibrations, the
      returns expected within a week and the occupancy rate. */
  function ResumoEstoque(db: Db, today: Date): (r: Resumo)
    requires db.TablesValid()
    ensures r.totalDataloggers == |db.dataloggers.rows|
    ensures r.alocados == |ListDataloggers(db, Some(Alocado))|
    ensures r.emCalibracao == |ListDataloggers(db, Some(Calibracao))|
    ensures r.emManutencao == |ListDataloggers(db, Some(Manutencao))|
    ensures r.demandasAtivas == |DemandaRoutes.ListDemandas(db, Some(Ativa), None)|
    ensures r.emEstoque + r.alocados + r.emCalibracao + r.emManutencao <= r.totalDataloggers
    ensures 0.0 <= r.taxaOcupacao <= 100.0
    ensures r.taxaOcupacao == Percentual(r.alocados, r.totalDataloggers)
    ensures r.emEstoque == |Disponiveis(db)|
    ensures r.calibracoesVencidas == |CalibracaoVencida(db, today)|
    ensures r.retornosProximos == |RetornosPrevistos(db, Some(today), Some(today + 7))|
    ensures r.alocacoesEmCampo == |AlocacoesEmCampo(db)|
  {
    var t := db.dataloggers;
    StatusPartition(t);
    var total := Size(t);
    var alocados := CountWhere(t, ComStatus(Alocado));
    PercentualLimites(alocados, total);
    SizeIsRowCount(t);
    ContagemPorStatus(db, Alocado);
    ContagemPorStatus(db, Calibracao);
    ContagemPorStatus(db, Manutencao);
    ContagemDemandasAtivas(db);
    Resumo(
      total,
      CountWhere(t, ComStatus(Estoque)),
      alocados,
      CountWhere(t, ComStatus(Calibracao)),
      CountWhere(t, ComStatus(Manutencao)),
      CountWhere(db.demandas, DemandaAtiva),
      CountWhere(db.alocacoes, IsEmCampo),
      CountWhere(t, VencidaAte(today)),
      CountWhere(db.alocacoes, PrevistoEntre(Some(today), Some(today + 7))),
      Percentual(alocados, total))
  }

  // ---------------------------------------------------------------------
  // Availability projection

  /** One day of the projection. */
  datatype DiaProjecao = DiaProjecao(
    data: Date,
    disponibilidade: nat,
    retornos: nat,
    detalhesRetornos: seq<Id>)

  /** The projection answer. */
  datatype Projecao = Projecao(
    projecao: seq<DiaProjecao>,
    disponibilidadeAtual: nat,
    totalDataloggers: nat)

  /** An in-field allocation expected back on day `d`. */
  function DevolvidaEm(d: Date): Alocacao -> bool {
    (a: Alocacao) => IsEmCampo(a) && a.dataRetornoPrevista == d
  }

  /** The in-field allocations expected back on day `d`, by id. */
  function RetornosDoDia(db: Db, d: Date): (r: seq<Id>)
    requires db.TablesValid()
    ensures forall k :: k in r <==>
              k in db.alocacoes.rows && IsEmCampo(db.alocacoes.rows[k]) &&
              db.alocacoes.rows[k].dataRetornoPrevista == d
    ensures Increasing(r)
  {
    Where(db.alocacoes, DevolvidaEm(d))
  }

  /** The devices in stock now. */
  function EmEstoque(db: Db): nat
    requires db.TablesValid()
  {
    CountWhere(db.dataloggers, ComStatus(Estoque))
  }

  /** The returns expected on days `today` to `today + i`. */
  function RetornosAte(db: Db, today: Date, i: nat): nat
    requires db.TablesValid()
  {
    (if i == 0 then 0 else RetornosAte(db, today, i - 1)) + |RetornosDoDia(db, today + i)|
  }

  /** The availability projected for day `today + i`: the devices in stock
      now plus every return expected up to and including that day. */
  function Disponibilidade(db: Db, today: Date, i: nat): nat
    requires db.TablesValid()
  {
    EmEstoque(db) + RetornosAte(db, today, i)
  }

  /** The returns accumulated up to day `today + i` are exactly the
      in-field allocations expected back within `[today, today + i]`. */
  lemma {:induction false} RetornosAteConta(db: Db, today: Date, i: nat)
    requires db.TablesValid()
    ensures RetornosAte(db, today, i) == CountWhere(db.alocacoes, PrevistoEntre(Some(today), Some(today + i)))
  {
    var t := db.alocacoes;
    if i == 0 {
      WhereCongruent(t, DevolvidaEm(today), PrevistoEntre(Some(today), Some(today)));
    } else {
      RetornosAteConta(db, today, i - 1);
      var p', p, q := PrevistoEntre(Some(today), Some(today + i)),
                      PrevistoEntre(Some(today), Some(today + i - 1)), DevolvidaEm(today + i);
      forall k | k in t.rows
        ensures (p'(t.rows[k]) <==> p(t.rows[k]) || q(t.rows[k])) && !(p(t.rows[k]) && q(t.rows[k]))
      {
        assert p'(t.rows[k]) == RetornoPrevistoEntre(t.rows[k], Some(today), Some(today + i));
        assert p(t.rows[k]) == RetornoPrevistoEntre(t.rows[k], Some(today), Some(today + i - 1));
      }
      CountWhereSplit(t, t, p', p, q);
    }
  }

  /** The projected availability never decreases from one day to a later
      one, and never falls below the current stock. */
  lemma {:induction false} DisponibilidadeCresce(db: Db, today: Date, i: nat, j: nat)
    requires db.TablesValid() && i <= j
    ensures EmEstoque(db) <= Disponibilidade(db, today, i) <= Disponibilidade(db, today, j)
  {
    if i < j {
      DisponibilidadeCresce(db, today, i, j - 1);
    }
  }

  /** No day projects more than the current stock plus the allocations in
      field. */
  lemma DisponibilidadeLimite(db: Db, today: Date, i: nat)
    requires db.TablesValid()
    ensures Disponibilidade(db, today, i) <= EmEstoque(db) + CountWhere(db.alocacoes, IsEmCampo)
  {
    RetornosAteConta(db, today, i);
    CountWhereMonotone(db.alocacoes, PrevistoEntre(Some(today), Some(today + i)), IsEmCampo);
  }

  /** The list of a key in a grouping map; empty when absent. */
  function Get(m: map<Date, seq<Id>>, d: Date): seq<Id> {
    if d in m then m[d] else []
  }

  /** Within the projection window, the expected returns listed for a day
      are that day's returns. */
  lemma DetalhesDoDia(db: Db, today: Date, dias: int, d: Date)
    requires db.TablesValid() && today <= d <= today + dias
    ensures Filter(RetornosPrevistos(db, Some(today), Some(today + dias)), KeyIs(PrevistoEm(db), d))
            == RetornosDoDia(db, d)
  {
    var xs := RetornosPrevistos(db, Some(today), Some(today + dias));
    var p := KeyIs(PrevistoEm(db), d);
    var f := Filter(xs, p);
    var r := RetornosDoDia(db, d);
    forall k
      ensures k in f <==> k in r
    {
      if k in f {
        var i :| 0 <= i < |f| && f[i] == k;
      }
      if k in r {
        var i :| 0 <= i < |xs| && xs[i] == k;
      }
    }
    IncreasingUnique(f, r);
  }

  /** The grouping loop of the projection: the allocations of `alocacoes`
      gathered by expected return day, each group in list order. */
  method AgruparPorData(db: Db, alocacoes: seq<Id>) returns (porData: map<Date, seq<Id>>)
    requires db.TablesValid()
    requires forall j :: 0 <= j < |alocacoes| ==> alocacoes[j] in db.alocacoes.rows
    ensures forall d :: Get(porData, d) == Filter(alocacoes, KeyIs(PrevistoEm(db), d))
  {
    var key := PrevistoEm(db);
    porData := map[];
    for j := 0 to |alocacoes|
      invariant forall d :: Get(porData, d) == Filter(alocacoes[..j], KeyIs(key, d))
    {
      var k := alocacoes[j];
      var data := db.alocacoes.rows[k].dataRetornoPrevista;
      AgruparPasso(porData, alocacoes, j, key, data);
      porData := porData[data := Get(porData, data) + [k]];
    }
    assert alocacoes[..|alocacoes|] == alocacoes;
  }

  /** One step of the grouping loop: appending element `j` to the group of
      its key extends the grouping of the prefix to the next prefix. */
  lemma AgruparPasso(m: map<Date, seq<Id>>, xs: seq<Id>, j: nat, key: Id -> int, data: Date)
    requires j < |xs| && key(xs[j]) == data
    requires forall d :: Get(m, d) == Filter(xs[..j], KeyIs(key, d))
    ensures forall d :: Get(m[data := Get(m, data) + [xs[j]]], d) == Filter(xs[..j + 1], KeyIs(key, d))
  {
    var m' := m[data := Get(m, data) + [xs[j]]];
    forall d ensures Get(m', d) == Filter(xs[..j + 1], KeyIs(key, d)) {
      FilterSnoc(xs, j, KeyIs(key, d));
      assert Get(m, d) == Filter(xs[..j], KeyIs(key, d));
    }
  }

  /** One day further, the availability grows by that day's returns. */
  lemma DisponibilidadePasso(db: Db, today: Date, i: nat)
    requires db.TablesValid()
    ensures Disponibilidade(db, today, i) ==
            (if i == 0 then EmEstoque(db) else Disponibilidade(db, today, i - 1)) +
            |RetornosDoDia(db, today + i)|
  {
  }

  /** Day `today + i` of the projection: its date, the availability
      projected for it, and its expected returns with their number. */
  function DiaProjetado(db: Db, today: Date, i: nat): DiaProjecao
    requires db.TablesValid()
  {
    DiaProjecao(today + i, Disponibilidade(db, today, i),
                |RetornosDoDia(db, today + i)|, RetornosDoDia(db, today + i))
  }

  /** The first `n` days of the projection. */
  function Projetados(db: Db, today: Date, n: nat): (r: seq<DiaProjecao>)
    requires db.TablesValid()
    ensures |r| == n
    ensures forall i :: 0 <= i < n ==> r[i] == DiaProjetado(db, today, i)
  {
    if n == 0 then [] else Projetados(db, today, n - 1) + [DiaProjetado(db, today, n - 1)]
  }

  /** The accumulation loop of the projection, over the returns grouped
      by day: the running availability grows by each day's returns. */
  method AcumularProjecao(db: Db, today: Date, n: nat, porData: map<Date, seq<Id>>)
    returns (projecao: seq<DiaProjecao>)
    requires db.TablesValid()
    requires forall d :: today <= d < today + n ==> Get(porData, d) == RetornosDoDia(db, d)
    ensures projecao == Projetados(db, today, n)
  {
    var disponibilidade := EmEstoque(db);
    projecao := [];
    for i := 0 to n
      invariant projecao == Projetados(db, today, i)
      invariant disponibilidade == if i == 0 then EmEstoque(db) else Disponibilidade(db, today, i - 1)
    {
      var data := today + i;
      var retornos := Get(porData, data);
      DisponibilidadePasso(db, today, i);
      disponibilidade := disponibilidade + |retornos|;
      projecao := projecao + [DiaProjecao(data, disponibilidade, |retornos|, retornos)];
    }
  }

  /** The number of days the two time-series routes cover when the
      request carries no `dias` parameter. */
  const DiasPadrao: int := 30

  /** `GET /dashboard/disponibilidade`: for each day from today to
      `today + dias` (none when `dias` is negative; `dias` defaults to
      30), the in-field allocations expected back that day, their number,
      and the running availability. */
  method ProjecaoDisponibilidade(db: Db, today: Date, dias: Option<int>) returns (r: Projecao)
    requires db.TablesValid()
    ensures dias.None? ==> |r.projecao| == DiasPadrao + 1
    ensures dias.Some? ==> |r.projecao| == if dias.value >= 0 then dias.value + 1 else 0
    ensures forall i :: 0 <= i < |r.projecao| ==> r.projecao[i] == DiaProjetado(db, today, i)
    ensures r.disponibilidadeAtual == EmEstoque(db)
    ensures r.totalDataloggers == Size(db.dataloggers)
  {
    var dias := dias.GetOr(DiasPadrao);
    var alocacoes := RetornosPrevistos(db, Some(today), Some(today + dias));
    var porData := AgruparPorData(db, alocacoes);

    var n := if dias >= 0 then dias + 1 else 0;
    forall d | today <= d < today + n
      ensures Get(porData, d) == RetornosDoDia(db, d)
    {
      DetalhesDoDia(db, today, dias, d);
    }
    var projecao := AcumularProjecao(db, today, n, porData);
    r := Projecao(projecao, EmEstoque(db), Size(db.dataloggers));
  }

  // ---------------------------------------------------------------------
  // Alerts

  const Alta: string := "alta"
  const Media: string := "media"
  const Baixa: string := "baixa"

  /** The sort key of a priority: `alta` 0, `media` 1, `baixa` 2, any
      other value 3. */
  function OrdemPrioridade(p: string): (o: int)
    ensures 0 <= o <= 3
    ensures o == 0 <==> p == Alta
    ensures o == 1 <==> p == Media
    ensures o == 2 <==> p == Baixa
  {
    if p == Alta then 0 else if p == Media then 1 else if p == Baixa then 2 else 3
  }

  /** An alert. The kind is the constructor; the message text is not
      modelled, its day counts are. */
  datatype Alerta =
    | CalibracaoVencidaAlerta(dataloggerId: Id, dataVencimento: Date, diasVencido: int)
    | CalibracaoProximaAlerta(dataloggerId: Id, dataVencimento: Date, diasRestantes: int)
    | RetornoAtrasadoAlerta(alocacaoId: Id, dataloggerId: Id, demandaId: Id, diasAtraso: int)
  {
    function Prioridade(): string {
      if CalibracaoProximaAlerta? then Media else Alta
    }
  }

  /** The sort key of an alert. */
  function Ordem(a: Alerta): int {
    OrdemPrioridade(a.Prioridade())
  }

  /** A next calibration within the coming 30 days (after today). */
  predicate CalibracaoProximaEm(d: Datalogger, today: Date) {
    d.proximaCalibracao.Some? && today < d.proximaCalibracao.value <= today + 30
  }

  function ProximaAte(today: Date): Datalogger -> bool {
    (d: Datalogger) => CalibracaoProximaEm(d, today)
  }

  /** The devices whose calibration falls due within 30 days. */
  function CalibracoesProximas(db: Db, today: Date): (r: seq<Id>)
    requires db.TablesValid()
    ensures forall k :: k in r <==> k in db.dataloggers.rows && CalibracaoProximaEm(db.dataloggers.rows[k], today)
  {
    Where(db.dataloggers, ProximaAte(today))
  }

  /** An in-field allocation expected back before today. */
  predicate AtrasadaEm(a: Alocacao, today: Date) {
    IsEmCampo(a) && a.dataRetornoPrevista < today
  }

  function AtrasadaAte(today: Date): Alocacao -> bool {
    (a: Alocacao) => AtrasadaEm(a, today)
  }

  /** The in-field allocations overdue today. */
  function RetornosAtrasados(db: Db, today: Date): (r: seq<Id>)
    requires db.TablesValid()
    ensures forall k :: k in r <==> k in db.alocacoes.rows && AtrasadaEm(db.alocacoes.rows[k], today)
  {
    Where(db.alocacoes, AtrasadaAte(today))
  }

  /** The alert of an overdue calibration of device `k`. */
  function AlertaVencida(db: Db, today: Date): Id -> Alerta {
    (k: Id) => var venc := if k in db.dataloggers.rows then db.dataloggers.rows[k].proximaCalibracao.GetOr(today) else today;
         CalibracaoVencidaAlerta(k, venc, today - venc)
  }

  /** The alert of an upcoming calibration of device `k`. */
  function AlertaProxima(db: Db, today: Date): Id -> Alerta {
    (k: Id) => var venc := if k in db.dataloggers.rows then db.dataloggers.rows[k].proximaCalibracao.GetOr(today) else today;
         CalibracaoProximaAlerta(k, venc, venc - today)
  }

  /** The alert of overdue allocation `k`. */
  function AlertaAtraso(db: Db, today: Date): Id -> Alerta {
    (k: Id) => if k in db.alocacoes.rows
         then var a := db.alocacoes.rows[k];
              RetornoAtrasadoAlerta(k, a.dataloggerId, a.demandaId, today - a.dataRetornoPrevista)
         else RetornoAtrasadoAlerta(k, 0, 0, 0)
  }

  /** The alerts before sorting: overdue calibrations, then upcoming
      calibrations, then overdue returns, each group by id. */
  function AlertasDe(db: Db, today: Date): seq<Alerta>
    requires db.TablesValid()
  {
    MapSeq(CalibracaoVencida(db, today), AlertaVencida(db, today)) +
    MapSeq(CalibracoesProximas(db, today), AlertaProxima(db, today)) +
    MapSeq(RetornosAtrasados(db, today), AlertaAtraso(db, today))
  }

  /** One loop of the alert route: appends the alert of each id. */
  method AcrescentarAlertas(alertas: seq<Alerta>, ids: seq<Id>, f: Id -> Alerta)
    returns (r: seq<Alerta>)
    ensures r == alertas + MapSeq(ids, f)
  {
    r := alertas;
    for i := 0 to |ids|
      invariant r == alertas + MapSeq(ids[..i], f)
    {
      assert ids[..i + 1][..i] == ids[..i];
      r := r + [f(ids[i])];
    }
    assert ids[..|ids|] == ids;
  }

  /** `GET /dashboard/alertas`: the alerts, stably sorted by priority, so
      every `alta` alert precedes every `media` one, alerts of equal
      priority keep their order, and no alert is lost or added. */
  method Alertas(db: Db, today: Date) returns (r: seq<Alerta>)
    requires db.TablesValid()
    ensures r == SortBy(AlertasDe(db, today), Ordem)
    ensures SortedBy(r, Ordem)
    ensures multiset(r) == multiset(AlertasDe(db, today))
    ensures forall o :: Filter(r, KeyIs(Ordem, o)) == Filter(AlertasDe(db, today), KeyIs(Ordem, o))
  {
    var vencidas, proximas, atrasadas := CalibracaoVencida(db, today), CalibracoesProximas(db, today),
                                         RetornosAtrasados(db, today);
    var alertas: seq<Alerta> := [];
    alertas := AcrescentarAlertas(alertas, vencidas, AlertaVencida(db, today));
    assert alertas == MapSeq(vencidas, AlertaVencida(db, today));
    alertas := AcrescentarAlertas(alertas, proximas, AlertaProxima(db, today));
    alertas := AcrescentarAlertas(alertas, atrasadas, AlertaAtraso(db, today));
    r := SortBy(alertas, Ordem);
    OrdenarPorPrioridade(alertas);
  }

  /** Sorting by priority orders, permutes and keeps ties in order. */
  lemma OrdenarPorPrioridade(xs: seq<Alerta>)
    ensures SortedBy(SortBy(xs, Ordem), Ordem)
    ensures multiset(SortBy(xs, Ordem)) == multiset(xs)
    ensures forall o :: Filter(SortBy(xs, Ordem), KeyIs(Ordem, o)) == Filter(xs, KeyIs(Ordem, o))
  {
    SortBySorted(xs, Ordem);
    SortByPermutes(xs, Ordem);
    forall o ensures Filter(SortBy(xs, Ordem), KeyIs(Ordem, o)) == Filter(xs, KeyIs(Ordem, o)) {
      SortByStable(xs, Ordem, o);
    }
  }

  /** Each part of the alert list holds alerts of its own kind only. */
  lemma AlertasDeTipos(db: Db, today: Date)
    requires db.TablesValid()
    ensures forall x :: x in AlertasDe(db, today) && x.CalibracaoVencidaAlerta? ==>
              x in MapSeq(CalibracaoVencida(db, today), AlertaVencida(db, today))
    ensures forall x :: x in AlertasDe(db, today) && x.CalibracaoProximaAlerta? ==>
              x in MapSeq(CalibracoesProximas(db, today), AlertaProxima(db, today))
    ensures forall x :: x in AlertasDe(db, today) && x.RetornoAtrasadoAlerta? ==>
              x in MapSeq(RetornosAtrasados(db, today), AlertaAtraso(db, today))
  {
    var mv := MapSeq(CalibracaoVencida(db, today), AlertaVencida(db, today));
    var mp := MapSeq(CalibracoesProximas(db, today), AlertaProxima(db, today));
    var ma := MapSeq(RetornosAtrasados(db, today), AlertaAtraso(db, today));
    assert AlertasDe(db, today) == mv + mp + ma;
    TipoDasPartes(db, today);
    PartesPorTipo(mv, mp, ma);
  }

  /** Each part of the alert list holds alerts of its own kind only. */
  lemma TipoDasPartes(db: Db, today: Date)
    requires db.TablesValid()
    ensures var mv := MapSeq(CalibracaoVencida(db, today), AlertaVencida(db, today));
            forall i :: 0 <= i < |mv| ==> mv[i].CalibracaoVencidaAlerta?
    ensures var mp := MapSeq(CalibracoesProximas(db, today), AlertaProxima(db, today));
            forall i :: 0 <= i < |mp| ==> mp[i].CalibracaoProximaAlerta?
    ensures var ma := MapSeq(RetornosAtrasados(db, today), AlertaAtraso(db, today));
            forall i :: 0 <= i < |ma| ==> ma[i].RetornoAtrasadoAlerta?
  {
    var vs, ps, as_ := CalibracaoVencida(db, today), CalibracoesProximas(db, today), RetornosAtrasados(db, today);
    var fv, fp, fa := AlertaVencida(db, today), AlertaProxima(db, today), AlertaAtraso(db, today);
    forall i | 0 <= i < |vs| ensures MapSeq(vs, fv)[i].CalibracaoVencidaAlerta? {
      assert MapSeq(vs, fv)[i] == fv(vs[i]);
    }
    forall i | 0 <= i < |ps| ensures MapSeq(ps, fp)[i].CalibracaoProximaAlerta? {
      assert MapSeq(ps, fp)[i] == fp(ps[i]);
    }
    forall i | 0 <= i < |as_| ensures MapSeq(as_, fa)[i].RetornoAtrasadoAlerta? {
      assert MapSeq(as_, fa)[i] == fa(as_[i]);
    }
  }

  /** In a list made of a part of each kind, an alert of a kind lies in its
      own part. */
  lemma PartesPorTipo(mv: seq<Alerta>, mp: seq<Alerta>, ma: seq<Alerta>)
    requires forall i :: 0 <= i < |mv| ==> mv[i].CalibracaoVencidaAlerta?
    requires forall i :: 0 <= i < |mp| ==> mp[i].CalibracaoProximaAlerta?
    requires forall i :: 0 <= i < |ma| ==> ma[i].RetornoAtrasadoAlerta?
    ensures forall x :: x in mv + mp + ma && x.CalibracaoVencidaAlerta? ==> x in mv
    ensures forall x :: x in mv + mp + ma && x.CalibracaoProximaAlerta? ==> x in mp
    ensures forall x :: x in mv + mp + ma && x.RetornoAtrasadoAlerta? ==> x in ma
  {
  }

  /** Every part of the alert list lies within it. */
  lemma PartesContidas(mv: seq<Alerta>, mp: seq<Alerta>, ma: seq<Alerta>)
    ensures forall x :: x in mv ==> x in mv + mp + ma
    ensures forall x :: x in mp ==> x in mv + mp + ma
    ensures forall x :: x in ma ==> x in mv + mp + ma
  {
  }

  /** The overdue calibration alerts: one per device whose calibration
      date is set and not after today, with that date and the days since. */
  lemma ParteVencidasCompletas(db: Db, today: Date)
    requires db.TablesValid()
    ensures forall k :: k in db.dataloggers.rows && CalibracaoVencidaEm(db.dataloggers.rows[k], today) ==>
              var venc := db.dataloggers.rows[k].proximaCalibracao.value;
              CalibracaoVencidaAlerta(k, venc, today - venc)
                in MapSeq(CalibracaoVencida(db, today), AlertaVencida(db, today))
  {
    var ids, f := CalibracaoVencida(db, today), AlertaVencida(db, today);
    forall k | k in db.dataloggers.rows && CalibracaoVencidaEm(db.dataloggers.rows[k], today)
      ensures var venc := db.dataloggers.rows[k].proximaCalibracao.value;
              CalibracaoVencidaAlerta(k, venc, today - venc) in MapSeq(ids, f)
    {
      assert k in ids;
      var venc := db.dataloggers.rows[k].proximaCalibracao.value;
      assert f(k) == CalibracaoVencidaAlerta(k, venc, today - venc);
      MapSeqIn(ids, f, k);
    }
  }

  /** Every overdue calibration alert names such a device. */
  lemma ParteVencidasFieis(db: Db, today: Date)
    requires db.TablesValid()
    ensures forall x :: x in MapSeq(CalibracaoVencida(db, today), AlertaVencida(db, today)) ==>
              && x.CalibracaoVencidaAlerta?
              && x.dataloggerId in db.dataloggers.rows
              && db.dataloggers.rows[x.dataloggerId].proximaCalibracao == Some(x.dataVencimento)
              && x.diasVencido == today - x.dataVencimento >= 0
  {
    var ids, f := CalibracaoVencida(db, today), AlertaVencida(db, today);
    forall x: Alerta | x in MapSeq(ids, f)
      ensures && x.CalibracaoVencidaAlerta?
              && x.dataloggerId in db.dataloggers.rows
              && db.dataloggers.rows[x.dataloggerId].proximaCalibracao == Some(x.dataVencimento)
              && x.diasVencido == today - x.dataVencimento >= 0
    {
      var k := MapSeqFrom(ids, f, x);
      assert CalibracaoVencidaEm(db.dataloggers.rows[k], today);
    }
  }

  /** The upcoming calibration alerts: one per device whose calibration
      falls due within 30 days, with that date and the days left. */
  lemma ParteProximasCompletas(db: Db, today: Date)
    requires db.TablesValid()
    ensures forall k :: k in db.dataloggers.rows && CalibracaoProximaEm(db.dataloggers.rows[k], today) ==>
              var venc := db.dataloggers.rows[k].proximaCalibracao.value;
              CalibracaoProximaAlerta(k, venc, venc - today)
                in MapSeq(CalibracoesProximas(db, today), AlertaProxima(db, today))
  {
    var ids, f := CalibracoesProximas(db, today), AlertaProxima(db, today);
    forall k | k in db.dataloggers.rows && CalibracaoProximaEm(db.dataloggers.rows[k], today)
      ensures var venc := db.dataloggers.rows[k].proximaCalibracao.value;
              CalibracaoProximaAlerta(k, venc, venc - today) in MapSeq(ids, f)
    {
      assert k in ids;
      var venc := db.dataloggers.rows[k].proximaCalibracao.value;
      assert f(k) == CalibracaoProximaAlerta(k, venc, venc - today);
      MapSeqIn(ids, f, k);
    }
  }

  /** Every upcoming calibration alert names such a device. */
  lemma ParteProximasFieis(db: Db, today: Date)
    requires db.TablesValid()
    ensures forall x :: x in MapSeq(CalibracoesProximas(db, today), AlertaProxima(db, today)) ==>
              && x.CalibracaoProximaAlerta?
              && x.dataloggerId in db.dataloggers.rows
              && db.dataloggers.rows[x.dataloggerId].proximaCalibracao == Some(x.dataVencimento)
              && x.diasRestantes == x.dataVencimento - today
              && 1 <= x.diasRestantes <= 30
  {
    var ids, f := CalibracoesProximas(db, today), AlertaProxima(db, today);
    forall x: Alerta | x in MapSeq(ids, f)
      ensures && x.CalibracaoProximaAlerta?
              && x.dataloggerId in db.dataloggers.rows
              && db.dataloggers.rows[x.dataloggerId].proximaCalibracao == Some(x.dataVencimento)
              && x.diasRestantes == x.dataVencimento - today
              && 1 <= x.diasRestantes <= 30
    {
      var k := MapSeqFrom(ids, f, x);
      assert CalibracaoProximaEm(db.dataloggers.rows[k], today);
    }
  }

  /** Every overdue calibration is alerted, with its due date and the days
      since it, and every overdue calibration alert is one of those. */
  lemma AlertasVencidas(db: Db, today: Date)
    requires db.TablesValid()
    ensures forall k :: k in db.dataloggers.rows && CalibracaoVencidaEm(db.dataloggers.rows[k], today) ==>
              var venc := db.dataloggers.rows[k].proximaCalibracao.value;
              CalibracaoVencidaAlerta(k, venc, today - venc) in AlertasDe(db, today)
    ensures forall x :: x in AlertasDe(db, today) && x.CalibracaoVencidaAlerta? ==>
              && x.dataloggerId in db.dataloggers.rows
              && db.dataloggers.rows[x.dataloggerId].proximaCalibracao == Some(x.dataVencimento)
              && x.diasVencido == today - x.dataVencimento >= 0
  {
    var mv := MapSeq(CalibracaoVencida(db, today), AlertaVencida(db, today));
    var mp := MapSeq(CalibracoesProximas(db, today), AlertaProxima(db, today));
    var ma := MapSeq(RetornosAtrasados(db, today), AlertaAtraso(db, today));
    assert AlertasDe(db, today) == mv + mp + ma;
    ParteVencidasCompletas(db, today);
    ParteVencidasFieis(db, today);
    AlertasDeTipos(db, today);
    PartesContidas(mv, mp, ma);
  }

  /** Every calibration due within 30 days is alerted, with its due date
      and the days left (1 to 30), and every such alert is one of those. */
  lemma AlertasProximas(db: Db, today: Date)
    requires db.TablesValid()
    ensures forall k :: k in db.dataloggers.rows && CalibracaoProximaEm(db.dataloggers.rows[k], today) ==>
              var venc := db.dataloggers.rows[k].proximaCalibracao.value;
              CalibracaoProximaAlerta(k, venc, venc - today) in AlertasDe(db, today)
    ensures forall x :: x in AlertasDe(db, today) && x.CalibracaoProximaAlerta? ==>
              && x.dataloggerId in db.dataloggers.rows
              && db.dataloggers.rows[x.dataloggerId].proximaCalibracao == Some(x.dataVencimento)
              && x.diasRestantes == x.dataVencimento - today
              && 1 <= x.diasRestantes <= 30
  {
    var mv := MapSeq(CalibracaoVencida(db, today), AlertaVencida(db, today));
    var mp := MapSeq(CalibracoesProximas(db, today), AlertaProxima(db, today));
    var ma := MapSeq(RetornosAtrasados(db, today), AlertaAtraso(db, today));
    assert AlertasDe(db, today) == mv + mp + ma;
    ParteProximasCompletas(db, today);
    ParteProximasFieis(db, today);
    AlertasDeTipos(db, today);
    PartesContidas(mv, mp, ma);
  }

  /** Every in-field allocation expected back before today is alerted, with
      its device, its demand and the days late (at least one), and every
      such alert is one of those; in a consistent store the device exists. */
  lemma AlertasAtrasos(db: Db, today: Date)
    requires db.Valid()
    ensures forall k :: k in db.alocacoes.rows && AtrasadaEm(db.alocacoes.rows[k], today) ==>
              var a := db.alocacoes.rows[k];
              RetornoAtrasadoAlerta(k, a.dataloggerId, a.demandaId, today - a.dataRetornoPrevista)
                in AlertasDe(db, today)
    ensures forall x :: x in AlertasDe(db, today) && x.RetornoAtrasadoAlerta? ==>
              && x.alocacaoId in db.alocacoes.rows
              && AtrasadaEm(db.alocacoes.rows[x.alocacaoId], today)
              && x.dataloggerId == db.alocacoes.rows[x.alocacaoId].dataloggerId
              && x.demandaId == db.alocacoes.rows[x.alocacaoId].demandaId
              && x.dataloggerId in db.dataloggers.rows
              && x.diasAtraso == today - db.alocacoes.rows[x.alocacaoId].dataRetornoPrevista > 0
  {
    var ids, f := RetornosAtrasados(db, today), AlertaAtraso(db, today);
    var mv := MapSeq(CalibracaoVencida(db, today), AlertaVencida(db, today));
    var mp := MapSeq(CalibracoesProximas(db, today), AlertaProxima(db, today));
    assert AlertasDe(db, today) == mv + mp + MapSeq(ids, f);
    forall k | k in db.alocacoes.rows && AtrasadaEm(db.alocacoes.rows[k], today)
      ensures f(k) in AlertasDe(db, today)
    {
      MapSeqIn(ids, f, k);
    }
    AlertasDeTipos(db, today);
    forall x | x in AlertasDe(db, today) && x.RetornoAtrasadoAlerta?
      ensures && x.alocacaoId in db.alocacoes.rows
              && AtrasadaEm(db.alocacoes.rows[x.alocacaoId], today)
              && x.dataloggerId == db.alocacoes.rows[x.alocacaoId].dataloggerId
              && x.demandaId == db.alocacoes.rows[x.alocacaoId].demandaId
              && x.dataloggerId in db.dataloggers.rows
              && x.diasAtraso == today - db.alocacoes.rows[x.alocacaoId].dataRetornoPrevista > 0
    {
      var k := MapSeqFrom(ids, f, x);
      assert AtrasadaEm(db.alocacoes.rows[k], today);
    }
  }

  /** No device is alerted both as overdue and as upcoming. */
  lemma CalibracaoUmaSoVez(db: Db, today: Date)
    requires db.TablesValid()
    ensures forall x, y :: x in AlertasDe(db, today) && y in AlertasDe(db, today) &&
              x.CalibracaoVencidaAlerta? && y.CalibracaoProximaAlerta?
              ==> x.dataloggerId != y.dataloggerId
  {
    AlertasVencidas(db, today);
    AlertasProximas(db, today);
  }

  // ---------------------------------------------------------------------
  // Occupancy history

  /** One day of the history. `disponivel` is the device count less the
      allocations counted, and can fall below zero. */
  datatype DiaHistorico = DiaHistorico(data: Date, alocados: nat, disponivel: int, taxaOcupacao: real)

  /** An allocation that had left by day `d` and had not come back before
      it: no actual return date, or one on or after `d`. */
  predicate AlocadaNoDia(a: Alocacao, d: Date) {
    a.dataSaida <= d && (a.dataRetornoReal.None? || a.dataRetornoReal.value >= d)
  }

  function AlocadaEm(d: Date): Alocacao -> bool {
    (a: Alocacao) => AlocadaNoDia(a, d)
  }

  /** The history's prefilter: out by `fim` and not back before `inicio`. */
  function AtivaNoPeriodo(inicio: Date, fim: Date): Alocacao -> bool {
    (a: Alocacao) => a.dataSaida <= fim && (a.dataRetornoReal.None? || a.dataRetornoReal.value >= inicio)
  }

  /** What the history reports for day `d`: every allocation out on that
      day, counted over the whole table. */
  function DiaDoHistorico(db: Db, d: Date): DiaHistorico
    requires db.TablesValid()
  {
    var alocados := CountWhere(db.alocacoes, AlocadaEm(d));
    var total := Size(db.dataloggers);
    DiaHistorico(d, alocados, total - alocados, Percentual(alocados, total))
  }

  /** The inner loop of the history: counts the listed allocations out on
      day `d`. */
  method ContarAlocados(db: Db, ids: seq<Id>, d: Date) returns (n: nat)
    requires forall k :: k in ids ==> k in db.alocacoes.rows
    ensures n == |Filter(ids, RowIs(db.alocacoes.rows, AlocadaEm(d)))|
  {
    n := 0;
    for j := 0 to |ids|
      invariant n == |Filter(ids[..j], RowIs(db.alocacoes.rows, AlocadaEm(d)))|
    {
      FilterSnoc(ids, j, RowIs(db.alocacoes.rows, AlocadaEm(d)));
      var a := db.alocacoes.rows[ids[j]];
      if AlocadaNoDia(a, d) {
        n := n + 1;
      }
    }
    assert ids[..|ids|] == ids;
  }

  /** On a day of the period, counting over the prefiltered allocations
      counts the same allocations as counting over the whole table: the
      prefilter drops none that is out on such a day. */
  lemma ContagemPreFiltrada(db: Db, inicio: Date, fim: Date, d: Date)
    requires db.TablesValid()
    requires inicio <= d <= fim
    ensures Filter(Where(db.alocacoes, AtivaNoPeriodo(inicio, fim)), RowIs(db.alocacoes.rows, AlocadaEm(d)))
            == Where(db.alocacoes, AlocadaEm(d))
  {
    var t := db.alocacoes;
    FilterFilter(t.Ids(), RowIs(t.rows, AtivaNoPeriodo(inicio, fim)), RowIs(t.rows, AlocadaEm(d)),
                 RowIs(t.rows, AlocadaEm(d)));
  }

  /** The history's days from `inicio` on, `n` of them. */
  function Historico(db: Db, inicio: Date, n: nat): (r: seq<DiaHistorico>)
    requires db.TablesValid()
    ensures |r| == n
  {
    if n == 0 then [] else Historico(db, inicio, n - 1) + [DiaDoHistorico(db, inicio + n - 1)]
  }

  /** One iteration of the history's outer loop: the entry of day `data`,
      counted over the prefiltered allocations. */
  method DiaContado(db: Db, alocacoes: seq<Id>, inicio: Date, fim: Date, data: Date)
    returns (dia: DiaHistorico)
    requires db.TablesValid()
    requires alocacoes == Where(db.alocacoes, AtivaNoPeriodo(inicio, fim))
    requires inicio <= data <= fim
    ensures dia == DiaDoHistorico(db, data)
  {
    var total := Size(db.dataloggers);
    var alocados := ContarAlocados(db, alocacoes, data);
    ContagemPreFiltrada(db, inicio, fim, data);
    dia := DiaHistorico(data, alocados, total as int - alocados, Percentual(alocados, total));
  }

  /** `GET /dashboard/historico-ocupacao`: one entry per day from `dias`
      days ago up to today, none when `dias` is negative, `dias`
      defaulting to 30; each day reports the allocations out on that day,
      the devices left and their ratio. */
  method HistoricoOcupacao(db: Db, today: Date, dias: Option<int>) returns (historico: seq<DiaHistorico>)
    requires db.TablesValid()
    ensures dias.None? ==> historico == Historico(db, today - DiasPadrao, DiasPadrao + 1)
    ensures dias.Some? ==> historico == Historico(db, today - dias.value, if dias.value >= 0 then dias.value + 1 else 0)
  {
    var dias := dias.GetOr(DiasPadrao);
    var inicio := today - dias;
    var alocacoes := Where(db.alocacoes, AtivaNoPeriodo(inicio, today));
    var n := if dias >= 0 then dias + 1 else 0;
    historico := [];
    for i := 0 to n
      invariant historico == Historico(db, inicio, i)
    {
      historico := AcrescentarDia(db, alocacoes, inicio, today, historico, i);
    }
  }

  /** The body of the history's outer loop: appends the entry of day
      `inicio + i`, which lies within the period. */
  method AcrescentarDia(db: Db, alocacoes: seq<Id>, inicio: Date, fim: Date,
                        historico: seq<DiaHistorico>, i: nat)
    returns (historico': seq<DiaHistorico>)
    requires db.TablesValid()
    requires alocacoes == Where(db.alocacoes, AtivaNoPeriodo(inicio, fim))
    requires inicio + i <= fim
    requires historico == Historico(db, inicio, i)
    ensures historico' == Historico(db, inicio, i + 1)
  {
    var dia := DiaContado(db, alocacoes, inicio, fim, inicio + i);
    HistoricoPasso(db, inicio, i);
    historico' := historico + [dia];
  }

  /** One more day of history appends that day's entry. */
  lemma HistoricoPasso(db: Db, inicio: Date, i: nat)
    requires db.TablesValid()
    ensures Historico(db, inicio, i + 1) == Historico(db, inicio, i) + [DiaDoHistorico(db, inicio + i)]
  {
  }

  /** The entries of the history, day by day. */
  lemma {:induction false} HistoricoDias(db: Db, inicio: Date, n: nat)
    requires db.TablesValid()
    ensures var h := Historico(db, inicio, n);
            |h| == n && forall i :: 0 <= i < n ==> h[i] == DiaDoHistorico(db, inicio + i)
  {
    if n > 0 {
      HistoricoDias(db, inicio, n - 1);
      var h, h0 := Historico(db, inicio, n), Historico(db, inicio, n - 1);
      assert h == h0 + [DiaDoHistorico(db, inicio + (n - 1))];
      forall i | 0 <= i < n ensures h[i] == DiaDoHistorico(db, inicio + i) {
        if i < n - 1 {
          assert h[i] == h0[i];
        }
      }
    }
  }

  /** An allocation still in the field that left by
      day `d` and has no return date is counted on that day, so the day
      counts at least the allocations in the field that left by then. */
  lemma HistoricoContaEmCampo(db: Db, d: Date)
    requires db.TablesValid()
    ensures CountWhere(db.alocacoes, EmCampoSemRetornoAte(d)) <= DiaDoHistorico(db, d).alocados
  {
    CountWhereMonotone(db.alocacoes, EmCampoSemRetornoAte(d), AlocadaEm(d));
  }

  /** In the field since day `d` or before, with no actual return date. */
  function EmCampoSemRetornoAte(d: Date): Alocacao -> bool {
    (a: Alocacao) => IsEmCampo(a) && a.dataSaida <= d && a.dataRetornoReal.None?
  }

  // ---------------------------------------------------------------------
  // Occupancy per client

  /** One entry of the occupancy per client. */
  datatype OcupacaoCliente = OcupacaoCliente(cliente: string, quantidade: nat)

  /** An in-field allocation of a demand of client `c`: the rows the inner
      joins of allocation, demand and client keep for that client. */
  predicate DoCliente(db: Db, a: Alocacao, c: Id) {
    IsEmCampo(a) && a.demandaId in db.demandas.rows && db.demandas.rows[a.demandaId].clienteId == c
  }

  function AlocadaAoCliente(db: Db, c: Id): Alocacao -> bool {
    (a: Alocacao) => DoCliente(db, a, c)
  }

  /** The count of client `c`'s group. */
  function Quantidade(db: Db, c: Id): nat
    requires db.TablesValid()
  {
    CountWhere(db.alocacoes, AlocadaAoCliente(db, c))
  }

  function Ocupado(db: Db): Id -> bool {
    (c: Id) => db.TablesValid() && Quantidade(db, c) > 0
  }

  /** The groups of the query: the clients with at least one allocation in
      the field, by ascending id. */
  function ClientesOcupados(db: Db): (r: seq<Id>)
    requires db.TablesValid()
    ensures forall c :: c in r <==> c in db.clientes.rows && Quantidade(db, c) > 0
    ensures Increasing(r)
  {
    FilterIncreasing(db.clientes.Ids(), Ocupado(db));
    Filter(db.clientes.Ids(), Ocupado(db))
  }

  /** The entry of a client's group: its name and its count. */
  function Linha(db: Db): Id -> OcupacaoCliente {
    (c: Id) => OcupacaoCliente(if c in db.clientes.rows then db.clientes.rows[c].nome else "",
                               if db.TablesValid() then Quantidade(db, c) else 0)
  }

  /** `GET /dashboard/ocupacao-por-cliente`: one entry per client that has
      allocations in the field, once each, by ascending client id, with the
      client's name and the number of those allocations. */
  function OcupacaoPorCliente(db: Db): (r: seq<OcupacaoCliente>)
    requires db.TablesValid()
    ensures |r| == |ClientesOcupados(db)|
    ensures forall i :: 0 <= i < |r| ==>
              var c := ClientesOcupados(db)[i];
              && c in db.clientes.rows
              && r[i].cliente == db.clientes.rows[c].nome
              && r[i].quantidade == Quantidade(db, c) > 0
  {
    MapSeq(ClientesOcupados(db), Linha(db))
  }

  /** The sum of the counts of a list of entries. */
  function Total(r: seq<OcupacaoCliente>): nat {
    if r == [] then 0 else Total(r[..|r| - 1]) + r[|r| - 1].quantidade
  }

  /** An in-field allocation of a demand of one of the clients `cs`. */
  function DeAlgumCliente(db: Db, cs: seq<Id>): Alocacao -> bool {
    (a: Alocacao) => IsEmCampo(a) && a.demandaId in db.demandas.rows && db.demandas.rows[a.demandaId].clienteId in cs
  }

  /** An in-field allocation whose demand and client both exist: the rows
      the inner joins keep at all. */
  function ComCliente(db: Db): Alocacao -> bool {
    (a: Alocacao) => IsEmCampo(a) && a.demandaId in db.demandas.rows
                     && db.demandas.rows[a.demandaId].clienteId in db.clientes.rows
  }

  /** Over distinct clients, the counts of their groups add up to the count
      of the allocations of any of them: no allocation is counted twice. */
  lemma {:induction false} TotalDosGrupos(db: Db, cs: seq<Id>)
    requires db.TablesValid()
    requires Increasing(cs)
    ensures Total(MapSeq(cs, Linha(db))) == CountWhere(db.alocacoes, DeAlgumCliente(db, cs))
  {
    var t := db.alocacoes;
    if cs == [] {
      WhereCongruent(t, DeAlgumCliente(db, cs), Nenhuma());
      CountNenhuma(t);
    } else {
      var init, c := cs[..|cs| - 1], cs[|cs| - 1];
      assert Increasing(init);
      TotalDosGrupos(db, init);
      var linhas := MapSeq(cs, Linha(db));
      assert linhas[..|linhas| - 1] == MapSeq(init, Linha(db));
      assert c !in init;
      forall k | k in t.rows
        ensures DeAlgumCliente(db, cs)(t.rows[k]) <==>
                DeAlgumCliente(db, init)(t.rows[k]) || AlocadaAoCliente(db, c)(t.rows[k])
      {
        assert cs == init + [c];
      }
      CountWhereSplit(t, t, DeAlgumCliente(db, cs), DeAlgumCliente(db, init), AlocadaAoCliente(db, c));
    }
  }

  /** The counts of the occupancy per client add up to the in-field
      allocations whose demand and client exist, which is at most all the
      allocations in the field. */
  lemma OcupacaoTotal(db: Db)
    requires db.TablesValid()
    ensures Total(OcupacaoPorCliente(db)) == CountWhere(db.alocacoes, ComCliente(db))
    ensures Total(OcupacaoPorCliente(db)) <= CountWhere(db.alocacoes, IsEmCampo)
  {
    var t, cs := db.alocacoes, ClientesOcupados(db);
    TotalDosGrupos(db, cs);
    forall k | k in t.rows && ComCliente(db)(t.rows[k])
      ensures DeAlgumCliente(db, cs)(t.rows[k])
    {
      var c := db.demandas.rows[t.rows[k].demandaId].clienteId;
      assert k in Where(t, AlocadaAoCliente(db, c));
    }
    WhereCongruent(t, DeAlgumCliente(db, cs), ComCliente(db));
    CountWhereMonotone(t, ComCliente(db), IsEmCampo);
  }
}
