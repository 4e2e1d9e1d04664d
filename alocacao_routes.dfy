/** The allocation routes: allocating a device to a demand, registering its
    return, updating and deleting an allocation, and the listings of
    allocations and of expected returns. */
module AlocacaoRoutes {
  import opened Common
  import opened Seqs
  import opened Tables
  import opened DataloggerModel
  import opened DemandaModel
  import opened AlocacaoModel
  import opened Database

  /** The fields of an update body: the notes are assigned whenever
      present, a date only when present and non-empty. Status, device and
      demand are not among them. */
  datatype AlocacaoPatch = AlocacaoPatch(
    observacoes: Patch<Option<string>>,
    dataSaida: Option<Date>,
    dataRetornoPrevista: Option<Date>,
    dataRetornoReal: Option<Date>)

  /** `POST /alocacoes`. The device is checked first (it must exist and be
      in stock), then the demand (it must exist and be `Ativa`); any
      failure leaves the store as it was. On success exactly one allocation
      is added, in field with the given dates and no actual return, and its
      device becomes `Alocado`. */
  method CreateAlocacao(st: Store, dataloggerId: Id, demandaId: Id, dataSaida: Date,
                        dataRetornoPrevista: Date, observacoes: Option<string>)
    returns (r: Result<Id>)
    requires st.Valid()
    modifies st
    ensures st.Valid()
    ensures old(st.Coherent()) ==> st.Coherent()
    ensures dataloggerId !in old(st.dataloggers.rows) ==>
              r == Err(NotFound(DataloggerEntity)) && unchanged(st)
    ensures dataloggerId in old(st.dataloggers.rows) &&
            old(st.dataloggers.rows[dataloggerId].status) != Estoque ==>
              r == Err(DataloggerIndisponivel) && unchanged(st)
    ensures dataloggerId in old(st.dataloggers.rows) &&
            old(st.dataloggers.rows[dataloggerId].status) == Estoque &&
            demandaId !in old(st.demandas.rows) ==>
              r == Err(NotFound(DemandaEntity)) && unchanged(st)
    ensures dataloggerId in old(st.dataloggers.rows) &&
            old(st.dataloggers.rows[dataloggerId].status) == Estoque &&
            demandaId in old(st.demandas.rows) &&
            old(st.demandas.rows[demandaId].status) != Ativa ==>
              r == Err(DemandaInativa) && unchanged(st)
    ensures dataloggerId in old(st.dataloggers.rows) &&
            old(st.dataloggers.rows[dataloggerId].status) == Estoque &&
            demandaId in old(st.demandas.rows) &&
            old(st.demandas.rows[demandaId].status) == Ativa ==>
              && r == Ok(old(st.alocacoes.nextId))
              && st.alocacoes == old(st.alocacoes).Insert(
                   Alocacao(dataloggerId, demandaId, dataSaida, dataRetornoPrevista, None,
                            EmCampo, observacoes))
              && st.dataloggers == old(st.dataloggers).Put(dataloggerId,
                   old(st.dataloggers.rows[dataloggerId]).(status := Alocado))
              && unchanged(st`clientes, st`demandas)
  {
    if dataloggerId !in st.dataloggers.rows {
      return Err(NotFound(DataloggerEntity));
    }
    var datalogger := st.dataloggers.rows[dataloggerId];
    if datalogger.status != Estoque {
      return Err(DataloggerIndisponivel);
    }
    if demandaId !in st.demandas.rows {
      return Err(NotFound(DemandaEntity));
    }
    if st.demandas.rows[demandaId].status != Ativa {
      return Err(DemandaInativa);
    }
    var alocacao := Alocacao(dataloggerId, demandaId, dataSaida, dataRetornoPrevista, None,
                             EmCampo, observacoes);
    st.dataloggers := st.dataloggers.Put(dataloggerId, datalogger.(status := Alocado));
    r := Ok(st.alocacoes.nextId);
    st.alocacoes := st.alocacoes.Insert(alocacao);
  }

  /** The device status a return leaves behind. */
  function StatusAposRetorno(enviarCalibracao: bool): (s: string)
    ensures DataloggerStatusDocumentado(s) && s != Alocado
    ensures s == Calibracao <==> enviarCalibracao
    ensures !enviarCalibracao ==> s == Estoque
  {
    if enviarCalibracao then Calibracao else Estoque
  }

  /** `POST /alocacoes/<id>/retorno`. An unknown id aborts the request; an
      allocation already returned is refused and left as it was. Otherwise
      the allocation becomes `Retornado` on the given day (or today), takes
      the notes only when non-empty ones are sent, and its device, when it
      still exists, goes to calibration or back to stock. */
  method RegistrarRetorno(st: Store, id: Id, dataRetornoReal: Option<Date>,
                          observacoes: Option<string>, enviarCalibracao: bool, today: Date)
    returns (r: Result<Id>)
    requires st.Valid()
    modifies st
    ensures st.Valid()
    ensures old(st.Coherent()) ==> st.Coherent()
    ensures id !in old(st.alocacoes.rows) ==> r == Err(Abort404(AlocacaoEntity)) && unchanged(st)
    ensures id in old(st.alocacoes.rows) && old(st.alocacoes.rows[id].status) == Retornado ==>
              r == Err(AlocacaoJaFinalizada) && unchanged(st)
    ensures id in old(st.alocacoes.rows) && old(st.alocacoes.rows[id].status) != Retornado ==>
              var a := old(st.alocacoes.rows[id]);
              && r == Ok(id)
              && st.alocacoes == old(st.alocacoes).Put(id, a.(
                   status := Retornado,
                   dataRetornoReal := Some(dataRetornoReal.GetOr(today)),
                   observacoes := if Truthy(observacoes) then observacoes else a.observacoes))
              && st.dataloggers == (if a.dataloggerId in old(st.dataloggers.rows)
                                    then old(st.dataloggers).Put(a.dataloggerId,
                                           old(st.dataloggers.rows[a.dataloggerId]).(
                                             status := StatusAposRetorno(enviarCalibracao)))
                                    else old(st.dataloggers))
              && unchanged(st`clientes, st`demandas)
  {
    if id !in st.alocacoes.rows {
      return Err(Abort404(AlocacaoEntity));
    }
    var alocacao := st.alocacoes.rows[id];
    if alocacao.status == Retornado {
      return Err(AlocacaoJaFinalizada);
    }
    ghost var db0 := st.Snapshot();
    var retorno := if dataRetornoReal.Some? then dataRetornoReal.value else today;
    alocacao := alocacao.(status := Retornado, dataRetornoReal := Some(retorno));
    alocacao := alocacao.(observacoes := if Truthy(observacoes) then observacoes else alocacao.observacoes);
    st.alocacoes := st.alocacoes.Put(id, alocacao);
    if alocacao.dataloggerId in st.dataloggers.rows {
      var datalogger := st.dataloggers.rows[alocacao.dataloggerId];
      datalogger := datalogger.(status := StatusAposRetorno(enviarCalibracao));
      st.dataloggers := st.dataloggers.Put(alocacao.dataloggerId, datalogger);
    }
    assert st.Snapshot() == AposRetorno(db0, id, retorno, observacoes, enviarCalibracao);
    RetornoPreserva(db0, id, retorno, observacoes, enviarCalibracao);
    r := Ok(id);
  }

  /** The database after returning allocation `id` on day `retorno`. */
  function AposRetorno(db: Db, id: Id, retorno: Date, observacoes: Option<string>,
                       enviarCalibracao: bool): Db
    requires id in db.alocacoes.rows
  {
    var a := db.alocacoes.rows[id];
    var a' := a.(status := Retornado, dataRetornoReal := Some(retorno),
                 observacoes := if Truthy(observacoes) then observacoes else a.observacoes);
    var dls := db.dataloggers.rows;
    db.(alocacoes := db.alocacoes.(rows := db.alocacoes.rows[id := a']),
        dataloggers := if a.dataloggerId in dls
                       then db.dataloggers.(rows := dls[a.dataloggerId := dls[a.dataloggerId].(
                              status := StatusAposRetorno(enviarCalibracao))])
                       else db.dataloggers)
  }

  /** A return keeps the invariants: the returned allocation leaves the
      field, and the device it frees was the only one of its allocations
      in field. */
  lemma RetornoPreserva(db: Db, id: Id, retorno: Date, observacoes: Option<string>,
                        enviarCalibracao: bool)
    requires db.Valid() && id in db.alocacoes.rows && db.alocacoes.rows[id].status != Retornado
    ensures AposRetorno(db, id, retorno, observacoes, enviarCalibracao).Valid()
    ensures db.Coherent() ==> AposRetorno(db, id, retorno, observacoes, enviarCalibracao).Coherent()
  {
  }

  /** `PUT /alocacoes/<id>`. An unknown id aborts the request; otherwise
      only the notes and the three dates can change, and the status, the
      device and the demand are kept. */
  method UpdateAlocacao(st: Store, id: Id, patch: AlocacaoPatch) returns (r: Result<Id>)
    requires st.Valid()
    modifies st
    ensures st.Valid()
    ensures old(st.Coherent()) ==> st.Coherent()
    ensures id !in old(st.alocacoes.rows) ==> r == Err(Abort404(AlocacaoEntity)) && unchanged(st)
    ensures id in old(st.alocacoes.rows) ==>
              var was := old(st.alocacoes.rows[id]);
              && r == Ok(id)
              && st.alocacoes == old(st.alocacoes).Put(id, Alocacao(
                   was.dataloggerId,
                   was.demandaId,
                   patch.dataSaida.GetOr(was.dataSaida),
                   patch.dataRetornoPrevista.GetOr(was.dataRetornoPrevista),
                   patch.dataRetornoReal.OrElse(was.dataRetornoReal),
                   was.status,
                   patch.observacoes.ApplyTo(was.observacoes)))
              && unchanged(st`dataloggers, st`clientes, st`demandas)
  {
    if id !in st.alocacoes.rows {
      return Err(Abort404(AlocacaoEntity));
    }
    // the field loop over observacoes, then the three dates, each assigned
    // only when given
    var a := st.alocacoes.rows[id];
    a := a.(observacoes := patch.observacoes.ApplyTo(a.observacoes));
    a := a.(dataSaida := patch.dataSaida.GetOr(a.dataSaida));
    a := a.(dataRetornoPrevista := patch.dataRetornoPrevista.GetOr(a.dataRetornoPrevista));
    a := a.(dataRetornoReal := patch.dataRetornoReal.OrElse(a.dataRetornoReal));
    st.alocacoes := st.alocacoes.Put(id, a);
    r := Ok(id);
  }

  /** `DELETE /alocacoes/<id>`. An unknown id aborts the request;
      otherwise exactly that allocation is removed, and when it was in
      field its device, if it still exists, goes back to stock. A returned
      allocation's device is left alone. */
  method DeleteAlocacao(st: Store, id: Id) returns (r: Result<Id>)
    requires st.Valid()
    modifies st
    ensures st.Valid()
    ensures old(st.Coherent()) ==> st.Coherent()
    ensures id !in old(st.alocacoes.rows) ==> r == Err(Abort404(AlocacaoEntity)) && unchanged(st)
    ensures id in old(st.alocacoes.rows) ==>
              var a := old(st.alocacoes.rows[id]);
              && r == Ok(id)
              && st.alocacoes == old(st.alocacoes).Delete(id)
              && st.dataloggers == (if IsEmCampo(a) && a.dataloggerId in old(st.dataloggers.rows)
                                    then old(st.dataloggers).Put(a.dataloggerId,
                                           old(st.dataloggers.rows[a.dataloggerId]).(status := Estoque))
                                    else old(st.dataloggers))
              && unchanged(st`clientes, st`demandas)
  {
    if id !in st.alocacoes.rows {
      return Err(Abort404(AlocacaoEntity));
    }
    var alocacao := st.alocacoes.rows[id];
    if alocacao.status == EmCampo {
      if alocacao.dataloggerId in st.dataloggers.rows {
        var datalogger := st.dataloggers.rows[alocacao.dataloggerId];
        st.dataloggers := st.dataloggers.Put(alocacao.dataloggerId, datalogger.(status := Estoque));
      }
    }
    st.alocacoes := st.alocacoes.Delete(id);
    r := Ok(id);
  }

  /** `GET /alocacoes`: every allocation, narrowed by each filter sent
      (a non-empty status, a demand, a device). */
  function ListAlocacoes(db: Db, statusFilter: Option<string>, demandaFilter: Option<Id>,
                         dataloggerFilter: Option<Id>): (r: seq<Id>)
    requires db.TablesValid()
    ensures forall k :: k in r <==>
              && k in db.alocacoes.rows
              && (Truthy(statusFilter) ==> db.alocacoes.rows[k].status == statusFilter.value)
              && (demandaFilter.Some? ==> db.alocacoes.rows[k].demandaId == demandaFilter.value)
              && (dataloggerFilter.Some? ==> db.alocacoes.rows[k].dataloggerId == dataloggerFilter.value)
    ensures Increasing(r)
  {
    Where(db.alocacoes, (a: Alocacao) =>
      && (Truthy(statusFilter) ==> a.status == statusFilter.value)
      && (demandaFilter.Some? ==> a.demandaId == demandaFilter.value)
      && (dataloggerFilter.Some? ==> a.dataloggerId == dataloggerFilter.value))
  }

  /** `GET /alocacoes/em-campo`: exactly the allocations in field. */
  function AlocacoesEmCampo(db: Db): (r: seq<Id>)
    requires db.TablesValid()
    ensures forall k :: k in r <==> k in db.alocacoes.rows && IsEmCampo(db.alocacoes.rows[k])
    ensures Increasing(r)
  {
    Where(db.alocacoes, IsEmCampo)
  }

  /** An in-field allocation whose expected return lies within the bounds
      that were sent. */
  predicate RetornoPrevistoEntre(a: Alocacao, inicio: Option<Date>, fim: Option<Date>) {
    && IsEmCampo(a)
    && (inicio.Some? ==> inicio.value <= a.dataRetornoPrevista)
    && (fim.Some? ==> a.dataRetornoPrevista <= fim.value)
  }

  /** `RetornoPrevistoEntre` as a row condition. */
  function PrevistoEntre(inicio: Option<Date>, fim: Option<Date>): Alocacao -> bool {
    a => RetornoPrevistoEntre(a, inicio, fim)
  }

  /** The expected return of allocation `k`, the sort key of the listing. */
  function PrevistoEm(db: Db): Id -> int {
    k => if k in db.alocacoes.rows then db.alocacoes.rows[k].dataRetornoPrevista else 0
  }

  /** `GET /alocacoes/retornos-previstos`: exactly the in-field allocations
      expected back within the bounds sent, ordered by expected return;
      allocations due the same day keep ascending id order. */
  function RetornosPrevistos(db: Db, inicio: Option<Date>, fim: Option<Date>): (r: seq<Id>)
    requires db.TablesValid()
    ensures forall k :: k in r <==>
              k in db.alocacoes.rows && RetornoPrevistoEntre(db.alocacoes.rows[k], inicio, fim)
    ensures |r| == CountWhere(db.alocacoes, PrevistoEntre(inicio, fim))
    ensures SortedBy(r, PrevistoEm(db))
    ensures forall d :: Increasing(Filter(r, KeyIs(PrevistoEm(db), d)))
  {
    var w := Where(db.alocacoes, PrevistoEntre(inicio, fim));
    var r := SortBy(w, PrevistoEm(db));
    SortByPermutes(w, PrevistoEm(db));
    assert forall k :: k in r <==> k in multiset(r);
    SortBySorted(w, PrevistoEm(db));
    forall d ensures Increasing(Filter(r, KeyIs(PrevistoEm(db), d))) {
      SortByTiesIncreasing(w, PrevistoEm(db), d);
    }
    assert |r| == |multiset(r)| == |multiset(w)| == |w|;
    r
  }
}
