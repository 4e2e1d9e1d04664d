/** The demand routes: create and update with their client checks, delete
    behind the in-field guard, finalisation with its cascade over the
    demand's allocations, and the filtered listing. */
module DemandaRoutes {
  import opened Common
  import opened Seqs
  import opened Tables
  import opened DataloggerModel
  import opened DemandaModel
  import opened AlocacaoModel
  import opened Database

  /** The fields of an update body. The basic fields are assigned whenever
      present; a date only when present and non-empty. */
  datatype DemandaPatch = DemandaPatch(
    clienteId: Patch<Id>,
    descricao: Patch<string>,
    status: Patch<string>,
    observacoes: Patch<Option<string>>,
    dataInicio: Option<Date>,
    dataFimPrevista: Option<Date>,
    dataFimReal: Option<Date>)

  /** `GET /demandas`: every demand, narrowed to the given status when a
      non-empty status filter is sent and to the given client when a
      client filter is sent. */
  function ListDemandas(db: Db, statusFilter: Option<string>, clienteFilter: Option<Id>): (r: seq<Id>)
    requires db.TablesValid()
    ensures forall k :: k in r <==>
              && k in db.demandas.rows
              && (Truthy(statusFilter) ==> db.demandas.rows[k].status == statusFilter.value)
              && (clienteFilter.Some? ==> db.demandas.rows[k].clienteId == clienteFilter.value)
    ensures Increasing(r)
  {
    Where(db.demandas, (d: Demanda) =>
      && (Truthy(statusFilter) ==> d.status == statusFilter.value)
      && (clienteFilter.Some? ==> d.clienteId == clienteFilter.value))
  }

  /** `GET /demandas/<id>/alocacoes`: an aborted lookup for an unknown
      demand; otherwise exactly the allocations of the demand, whatever
      their status. */
  function AlocacoesDaDemanda(db: Db, id: Id): (r: Result<seq<Id>>)
    requires db.TablesValid()
    ensures r.Err? <==> id !in db.demandas.rows
    ensures r.Err? ==> r.error == Abort404(DemandaEntity)
    ensures r.Ok? ==> forall k :: k in r.value <==>
              k in db.alocacoes.rows && db.alocacoes.rows[k].demandaId == id
    ensures r.Ok? ==> Increasing(r.value)
  {
    if id !in db.demandas.rows then Err(Abort404(DemandaEntity))
    else Ok(Where(db.alocacoes, (a: Alocacao) => a.demandaId == id))
  }

  /** `POST /demandas`: not found when the client does not exist;
      otherwise adds exactly one demand, `Ativa` unless a status is given. */
  method CreateDemanda(st: Store, clienteId: Id, descricao: string, dataInicio: Date,
                       dataFimPrevista: Date, status: Option<string>, observacoes: Option<string>,
                       dataFimReal: Option<Date>)
    returns (r: Result<Id>)
    requires st.Valid()
    modifies st
    ensures st.Valid()
    ensures old(st.Coherent()) ==> st.Coherent()
    ensures clienteId !in old(st.clientes.rows) ==> r == Err(NotFound(ClienteEntity)) && unchanged(st)
    ensures clienteId in old(st.clientes.rows) ==>
              && r == Ok(old(st.demandas.nextId))
              && st.demandas == old(st.demandas).Insert(
                   Demanda(clienteId, descricao, dataInicio, dataFimPrevista, dataFimReal,
                           status.GetOr(DemandaStatusPadrao), observacoes))
              && unchanged(st`dataloggers, st`clientes, st`alocacoes)
  {
    if clienteId !in st.clientes.rows {
      return Err(NotFound(ClienteEntity));
    }
    var d := Demanda(clienteId, descricao, dataInicio, dataFimPrevista, None,
                     status.GetOr(DemandaStatusPadrao), observacoes);
    d := d.(dataFimReal := dataFimReal.OrElse(d.dataFimReal));
    r := Ok(st.demandas.nextId);
    st.demandas := st.demandas.Insert(d);
  }

  /** `PUT /demandas/<id>`: not found for an unknown demand, and for a
      client id in the body that does not exist; otherwise assigns exactly
      the fields present. The status is taken as given (no cascade). */
  method UpdateDemanda(st: Store, id: Id, patch: DemandaPatch) returns (r: Result<Id>)
    requires st.Valid()
    modifies st
    ensures st.Valid()
    ensures old(st.Coherent()) ==> st.Coherent()
    ensures id !in old(st.demandas.rows) ==> r == Err(Abort404(DemandaEntity)) && unchanged(st)
    ensures id in old(st.demandas.rows) && patch.clienteId.Set? &&
            patch.clienteId.value !in old(st.clientes.rows) ==>
              r == Err(NotFound(ClienteEntity)) && unchanged(st)
    ensures id in old(st.demandas.rows) &&
            (patch.clienteId.Set? ==> patch.clienteId.value in old(st.clientes.rows)) ==>
              && r == Ok(id)
              && unchanged(st`dataloggers, st`clientes, st`alocacoes)
              && var was := old(st.demandas.rows[id]);
                 st.demandas == old(st.demandas).Put(id, Demanda(
                   patch.clienteId.ApplyTo(was.clienteId),
                   patch.descricao.ApplyTo(was.descricao),
                   patch.dataInicio.GetOr(was.dataInicio),
                   patch.dataFimPrevista.GetOr(was.dataFimPrevista),
                   patch.dataFimReal.OrElse(was.dataFimReal),
                   patch.status.ApplyTo(was.status),
                   patch.observacoes.ApplyTo(was.observacoes)))
  {
    if id !in st.demandas.rows {
      return Err(Abort404(DemandaEntity));
    }
    if patch.clienteId.Set? && patch.clienteId.value !in st.clientes.rows {
      return Err(NotFound(ClienteEntity));
    }
    // the field loop over cliente_id, descricao, status, observacoes, then
    // the three dates, each assigned only when given
    var d := st.demandas.rows[id];
    d := d.(clienteId := patch.clienteId.ApplyTo(d.clienteId));
    d := d.(descricao := patch.descricao.ApplyTo(d.descricao));
    d := d.(status := patch.status.ApplyTo(d.status));
    d := d.(observacoes := patch.observacoes.ApplyTo(d.observacoes));
    d := d.(dataInicio := patch.dataInicio.GetOr(d.dataInicio));
    d := d.(dataFimPrevista := patch.dataFimPrevista.GetOr(d.dataFimPrevista));
    d := d.(dataFimReal := patch.dataFimReal.OrElse(d.dataFimReal));
    st.demandas := st.demandas.Put(id, d);
    r := Ok(id);
  }

  /** An allocation of demand `id` that is still in field. */
  predicate EmCampoDaDemanda(a: Alocacao, id: Id) {
    a.demandaId == id && IsEmCampo(a)
  }

  /** `EmCampoDaDemanda` as a row condition. */
  function EmCampoDe(id: Id): Alocacao -> bool {
    (a: Alocacao) => EmCampoDaDemanda(a, id)
  }

  /** Some allocation of demand `id` is in field. */
  predicate DemandaEmCampo(db: Db, id: Id) {
    exists k :: k in db.alocacoes.rows && EmCampoDaDemanda(db.alocacoes.rows[k], id)
  }

  /** `Alocacao.query.filter_by(demanda_id=id, status='Em campo')`:
      exactly the in-field allocations of the demand, by id. */
  function AlocacoesEmCampoDaDemanda(db: Db, id: Id): (r: seq<Id>)
    requires db.TablesValid()
    ensures forall k :: k in r <==> k in db.alocacoes.rows && EmCampoDaDemanda(db.alocacoes.rows[k], id)
    ensures Increasing(r)
    ensures |r| > 0 <==> DemandaEmCampo(db, id)
  {
    var r := Where(db.alocacoes, EmCampoDe(id));
    assert |r| > 0 ==> r[0] in r;
    r
  }

  /** `demanda.alocacoes`, which the session loads when the demand is
      deleted: every allocation of the demand, in field or returned. */
  function AlocacoesDaDemandaCarregadas(db: Db, id: Id): (r: seq<Id>)
    requires db.TablesValid()
    ensures forall k :: k in r <==> k in db.alocacoes.rows && db.alocacoes.rows[k].demandaId == id
    ensures |r| > 0 <==> db.DemandaReferenciada(id)
  {
    var r := Where(db.alocacoes, (a: Alocacao) => a.demandaId == id);
    assert |r| > 0 ==> r[0] in r;
    r
  }

  /** `DELETE /demandas/<id>` as written: not found for an unknown demand,
      refused while any of its allocations is in field. Past that guard the
      session deletes the demand, which sets `demanda_id` of each of its
      returned allocations to null; the column is `NOT NULL`, so the commit
      fails, the route rolls back and answers 500. Only a demand that never
      had an allocation is removed. */
  method DeleteDemanda(st: Store, id: Id) returns (r: Result<Id>)
    requires st.Valid()
    modifies st
    ensures st.Valid()
    ensures old(st.Coherent()) ==> st.Coherent()
    ensures id !in old(st.demandas.rows) ==> r == Err(Abort404(DemandaEntity)) && unchanged(st)
    ensures id in old(st.demandas.rows) && DemandaEmCampo(old(st.Snapshot()), id) ==>
              r == Err(AlocacoesAtivas) && unchanged(st)
    ensures id in old(st.demandas.rows) && !DemandaEmCampo(old(st.Snapshot()), id)
            && old(st.Snapshot().DemandaReferenciada(id)) ==>
              r == Err(IntegridadeViolada(DemandaEntity)) && unchanged(st)
    ensures id in old(st.demandas.rows) && !old(st.Snapshot().DemandaReferenciada(id)) ==>
              && r == Ok(id)
              && st.demandas == old(st.demandas).Delete(id)
              && unchanged(st`dataloggers, st`clientes, st`alocacoes)
  {
    if id !in st.demandas.rows {
      return Err(Abort404(DemandaEntity));
    }
    var db0 := st.Snapshot();
    var ativas := |AlocacoesEmCampoDaDemanda(db0, id)|;
    if ativas > 0 {
      return Err(AlocacoesAtivas);
    }
    if |AlocacoesDaDemandaCarregadas(db0, id)| > 0 {
      return Err(IntegridadeViolada(DemandaEntity));
    }
    ExclusaoPreserva(db0, id);
    st.demandas := st.demandas.Delete(id);
    assert st.Snapshot() == db0.(demandas := db0.demandas.Delete(id));
    r := Ok(id);
  }

  /** `DELETE /demandas/<id>` as evidently intended: the guard against
      allocations in field is the only refusal, so a demand whose
      allocations are all returned is removed; those allocations stay, and
      their demand fields read as null. */
  method DeleteDemandaPretendida(st: Store, id: Id) returns (r: Result<Id>)
    requires st.Valid()
    modifies st
    ensures st.Valid()
    ensures old(st.Coherent()) ==> st.Coherent()
    ensures id !in old(st.demandas.rows) ==> r == Err(Abort404(DemandaEntity)) && unchanged(st)
    ensures id in old(st.demandas.rows) && DemandaEmCampo(old(st.Snapshot()), id) ==>
              r == Err(AlocacoesAtivas) && unchanged(st)
    ensures id in old(st.demandas.rows) && !DemandaEmCampo(old(st.Snapshot()), id) ==>
              && r == Ok(id)
              && st.demandas == old(st.demandas).Delete(id)
              && unchanged(st`dataloggers, st`clientes, st`alocacoes)
  {
    if id !in st.demandas.rows {
      return Err(Abort404(DemandaEntity));
    }
    var db0 := st.Snapshot();
    var ativas := |AlocacoesEmCampoDaDemanda(db0, id)|;
    if ativas > 0 {
      return Err(AlocacoesAtivas);
    }
    ExclusaoPreserva(db0, id);
    st.demandas := st.demandas.Delete(id);
    assert st.Snapshot() == db0.(demandas := db0.demandas.Delete(id));
    r := Ok(id);
  }

  /** A finished demand whose only allocation was returned passes the guard
      against allocations in field, yet the route as written answers it
      500 for the allocation that still refers to it, where the intended
      delete removes it. */
  lemma ExclusaoComHistorico()
    ensures var db := ComUmaDevolucao();
            && db.Valid()
            && 1 in db.demandas.rows
            && !DemandaEmCampo(db, 1)
            && db.DemandaReferenciada(1)
    ensures IntegridadeViolada(DemandaEntity).HttpStatusAsWritten() == 500
  {
  }

  /** Removing a demand none of whose allocations is in field keeps every
      allocation in field documented and the device table untouched. */
  lemma ExclusaoPreserva(db: Db, id: Id)
    requires db.Valid() && !DemandaEmCampo(db, id)
    ensures db.(demandas := db.demandas.Delete(id)).Valid()
    ensures db.Coherent() ==> db.(demandas := db.demandas.Delete(id)).Coherent()
  {
  }

  /** The allocation table after finalising demand `id` on day `fim`:
      every allocation of the demand that was in field is `Retornado` on
      `fim`; every other allocation is as it was. */
  function Retornadas(als: map<Id, Alocacao>, id: Id, fim: Date): map<Id, Alocacao> {
    map k | k in als :: if EmCampoDaDemanda(als[k], id)
                        then als[k].(status := Retornado, dataRetornoReal := Some(fim))
                        else als[k]
  }

  /** Device `d` carries an in-field allocation of demand `id`. */
  predicate DevolvidoPor(als: map<Id, Alocacao>, id: Id, d: Id) {
    exists k :: k in als && EmCampoDaDemanda(als[k], id) && als[k].dataloggerId == d
  }

  /** The device table after finalising demand `id`: every device that
      carried an in-field allocation of the demand is back in stock; every
      other device is as it was. */
  function Reestocados(dls: map<Id, Datalogger>, als: map<Id, Alocacao>, id: Id): map<Id, Datalogger> {
    map d | d in dls :: if DevolvidoPor(als, id, d) then dls[d].(status := Estoque) else dls[d]
  }

  /** The allocation table after returning each allocation of `ids` on
      day `fim`. */
  function RetornadasEntre(als: map<Id, Alocacao>, ids: seq<Id>, fim: Date): map<Id, Alocacao> {
    map k | k in als :: if k in ids then als[k].(status := Retornado, dataRetornoReal := Some(fim)) else als[k]
  }

  /** Device `d` carries one of the allocations `ids`. */
  predicate DevolvidoEntre(als: map<Id, Alocacao>, ids: seq<Id>, d: Id) {
    exists k :: k in ids && k in als && als[k].dataloggerId == d
  }

  /** The device table after putting back in stock every device that
      carries one of the allocations `ids`. */
  function ReestocadosEntre(dls: map<Id, Datalogger>, als: map<Id, Alocacao>, ids: seq<Id>): map<Id, Datalogger> {
    map d | d in dls :: if DevolvidoEntre(als, ids, d) then dls[d].(status := Estoque) else dls[d]
  }

  /** The loop of the finalisation: each allocation of `ids` is returned on
      day `fim` and its device, when it exists, put back in stock. */
  method DevolverAlocacoes(st: Store, ids: seq<Id>, fim: Date)
    requires st.alocacoes.Valid() && st.dataloggers.Valid()
    requires forall j :: 0 <= j < |ids| ==> ids[j] in st.alocacoes.rows
    modifies st
    ensures st.alocacoes == old(st.alocacoes).(rows := RetornadasEntre(old(st.alocacoes.rows), ids, fim))
    ensures st.dataloggers == old(st.dataloggers).(
              rows := ReestocadosEntre(old(st.dataloggers.rows), old(st.alocacoes.rows), ids))
    ensures unchanged(st`clientes, st`demandas)
  {
    ghost var als0 := st.alocacoes.rows;
    ghost var dls0 := st.dataloggers.rows;
    for i := 0 to |ids|
      invariant st.alocacoes == old(st.alocacoes).(rows := RetornadasEntre(als0, ids[..i], fim))
      invariant st.dataloggers == old(st.dataloggers).(rows := ReestocadosEntre(dls0, als0, ids[..i]))
      invariant unchanged(st`clientes, st`demandas)
    {
      var k := ids[i];
      assert ids[..i + 1] == ids[..i] + [k];
      var a := st.alocacoes.rows[k];
      RetornadaPasso(als0, ids[..i], k, fim);
      st.alocacoes := st.alocacoes.Put(k, a.(status := Retornado, dataRetornoReal := Some(fim)));
      ReestocadoPasso(dls0, als0, ids[..i], k);
      if a.dataloggerId in st.dataloggers.rows {
        var dl := st.dataloggers.rows[a.dataloggerId];
        st.dataloggers := st.dataloggers.Put(a.dataloggerId, dl.(status := Estoque));
      }
    }
    assert ids[..|ids|] == ids;
  }

  /** One step of the loop on the allocation side. */
  lemma RetornadaPasso(als: map<Id, Alocacao>, pre: seq<Id>, k: Id, fim: Date)
    requires k in als
    ensures var m := RetornadasEntre(als, pre, fim);
            RetornadasEntre(als, pre + [k], fim)
            == m[k := m[k].(status := Retornado, dataRetornoReal := Some(fim))]
            && m[k].dataloggerId == als[k].dataloggerId
  {
    var m := RetornadasEntre(als, pre, fim);
    var m1, m2 := RetornadasEntre(als, pre + [k], fim), m[k := m[k].(status := Retornado, dataRetornoReal := Some(fim))];
    assert m1.Keys == m2.Keys;
    forall j | j in m1 ensures m1[j] == m2[j] {
      assert j in pre + [k] <==> j in pre || j == k;
    }
  }

  /** One step of the loop on the device side. */
  lemma ReestocadoPasso(dls: map<Id, Datalogger>, als: map<Id, Alocacao>, pre: seq<Id>, k: Id)
    requires k in als
    ensures var n, d := ReestocadosEntre(dls, als, pre), als[k].dataloggerId;
            ReestocadosEntre(dls, als, pre + [k])
            == if d in n then n[d := n[d].(status := Estoque)] else n
  {
    var n, d := ReestocadosEntre(dls, als, pre), als[k].dataloggerId;
    var n1, n2 := ReestocadosEntre(dls, als, pre + [k]), if d in n then n[d := n[d].(status := Estoque)] else n;
    forall e | e in dls
      ensures DevolvidoEntre(als, pre + [k], e) <==> DevolvidoEntre(als, pre, e) || e == d
    {
      if DevolvidoEntre(als, pre + [k], e) {
        var j :| j in pre + [k] && j in als && als[j].dataloggerId == e;
        assert j in pre || j == k;
      }
      if DevolvidoEntre(als, pre, e) {
        var j :| j in pre && j in als && als[j].dataloggerId == e;
        assert j in pre + [k];
      }
      if e == d {
        assert k in pre + [k];
      }
    }
    assert n1.Keys == n2.Keys;
    forall e | e in n1 ensures n1[e] == n2[e] {
    }
  }

  /** Returning exactly the in-field allocations of demand `id` is the
      finalisation's cascade. */
  lemma DevolverDaDemanda(db: Db, id: Id, fim: Date)
    requires db.TablesValid()
    ensures var ids := AlocacoesEmCampoDaDemanda(db, id);
            && RetornadasEntre(db.alocacoes.rows, ids, fim) == Retornadas(db.alocacoes.rows, id, fim)
            && ReestocadosEntre(db.dataloggers.rows, db.alocacoes.rows, ids)
               == Reestocados(db.dataloggers.rows, db.alocacoes.rows, id)
  {
    var ids := AlocacoesEmCampoDaDemanda(db, id);
    RetornadasDaDemanda(db.alocacoes.rows, ids, id, fim);
    ReestocadosDaDemanda(db.dataloggers.rows, db.alocacoes.rows, ids, id);
  }

  /** The allocation side of `DevolverDaDemanda`, for any list holding
      exactly the demand's in-field allocations. */
  lemma RetornadasDaDemanda(als: map<Id, Alocacao>, ids: seq<Id>, id: Id, fim: Date)
    requires forall k :: k in ids <==> k in als && EmCampoDaDemanda(als[k], id)
    ensures RetornadasEntre(als, ids, fim) == Retornadas(als, id, fim)
  {
    var m1, m2 := RetornadasEntre(als, ids, fim), Retornadas(als, id, fim);
    assert m1.Keys == m2.Keys;
    forall k | k in m1 ensures m1[k] == m2[k] {
      assert k in ids <==> EmCampoDaDemanda(als[k], id);
    }
  }

  /** The device side of `DevolverDaDemanda`. */
  lemma ReestocadosDaDemanda(dls: map<Id, Datalogger>, als: map<Id, Alocacao>, ids: seq<Id>, id: Id)
    requires forall k :: k in ids <==> k in als && EmCampoDaDemanda(als[k], id)
    ensures ReestocadosEntre(dls, als, ids) == Reestocados(dls, als, id)
  {
    var n1, n2 := ReestocadosEntre(dls, als, ids), Reestocados(dls, als, id);
    forall d | d in dls
      ensures DevolvidoEntre(als, ids, d) <==> DevolvidoPor(als, id, d)
    {
      if DevolvidoPor(als, id, d) {
        var k :| k in als && EmCampoDaDemanda(als[k], id) && als[k].dataloggerId == d;
        assert k in ids;
      }
    }
    assert n1.Keys == n2.Keys;
    assert forall d :: d in n1 ==> n1[d] == n2[d];
  }

  /** `POST /demandas/<id>/finalizar`: not found for an unknown demand;
      otherwise, whatever the demand's current status, the demand becomes
      `Finalizada` with its actual end on the given day (or today), and in
      the same step each of its in-field allocations is returned on that
      day and its device put back in stock. */
  method FinalizarDemanda(st: Store, id: Id, dataFimReal: Option<Date>, today: Date)
    returns (r: Result<Id>)
    requires st.Valid()
    modifies st
    ensures st.Valid()
    ensures old(st.Coherent()) ==> st.Coherent()
    ensures id !in old(st.demandas.rows) ==> r == Err(Abort404(DemandaEntity)) && unchanged(st)
    ensures id in old(st.demandas.rows) ==>
              var fim := dataFimReal.GetOr(today);
              && r == Ok(id)
              && st.Snapshot() == AposFinalizar(old(st.Snapshot()), id, fim)
  {
    if id !in st.demandas.rows {
      return Err(Abort404(DemandaEntity));
    }
    ghost var db0 := st.Snapshot();
    var fim := if dataFimReal.Some? then dataFimReal.value else today;
    var demanda := st.demandas.rows[id];
    st.demandas := st.demandas.Put(id, demanda.(status := Finalizada, dataFimReal := Some(fim)));
    var alocacoes := AlocacoesEmCampoDaDemanda(st.Snapshot(), id);
    DevolverAlocacoes(st, alocacoes, fim);
    DevolverDaDemanda(db0, id, fim);
    FinalizarPreservaValidade(db0, id, fim);
    if db0.Coherent() {
      FinalizarPreservaCoerencia(db0, id, fim);
    }
    r := Ok(id);
  }

  /** The database after finalising demand `id` on day `fim`: the demand
      is `Finalizada` with that end date, its in-field allocations are
      returned and their devices in stock; the clients are as they were. */
  function AposFinalizar(db: Db, id: Id, fim: Date): Db
    requires id in db.demandas.rows
  {
    db.(demandas := db.demandas.(rows := db.demandas.rows[id := db.demandas.rows[id].(status := Finalizada, dataFimReal := Some(fim))]),
        alocacoes := db.alocacoes.(rows := Retornadas(db.alocacoes.rows, id, fim)),
        dataloggers := db.dataloggers.(rows := Reestocados(db.dataloggers.rows, db.alocacoes.rows, id)))
  }

  lemma FinalizarPreservaValidade(db: Db, id: Id, fim: Date)
    requires db.Valid() && id in db.demandas.rows
    ensures AposFinalizar(db, id, fim).Valid()
  {
  }

  lemma FinalizarPreservaCoerencia(db: Db, id: Id, fim: Date)
    requires db.Valid() && db.Coherent() && id in db.demandas.rows
    ensures AposFinalizar(db, id, fim).Coherent()
  {
  }

  /** An in-field allocation of some other demand. */
  function EmCampoFora(id: Id): Alocacao -> bool {
    (a: Alocacao) => IsEmCampo(a) && a.demandaId != id
  }

  /** Finalising a demand with `n` allocations in field returns exactly
      those `n`: the returned allocations grow by `n` and the in-field ones
      shrink by `n`. */
  lemma FinalizarContagens(db: Db, id: Id, fim: Date)
    requires db.Valid() && id in db.demandas.rows
    ensures var n := |AlocacoesEmCampoDaDemanda(db, id)|;
            var depois := AposFinalizar(db, id, fim).alocacoes;
            && depois.Valid()
            && CountWhere(depois, IsRetornado) == CountWhere(db.alocacoes, IsRetornado) + n
            && CountWhere(depois, IsEmCampo) + n == CountWhere(db.alocacoes, IsEmCampo)
  {
    var antes := db.alocacoes;
    var depois := AposFinalizar(db, id, fim).alocacoes;
    CountWhereSplit(antes, depois, IsRetornado, IsRetornado, EmCampoDe(id));
    CountWhereSplit(antes, antes, IsEmCampo, EmCampoFora(id), EmCampoDe(id));
    CountWhereSplit(antes, depois, IsEmCampo, EmCampoFora(id), Nenhuma());
    CountNenhuma(antes);
  }
}
