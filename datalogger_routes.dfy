/** The device routes: create, update and delete with their guards, and
    the listings by status, of devices in stock and of devices whose
    calibration is due. */
module DataloggerRoutes {
  import opened Common
  import opened Tables
  import opened DataloggerModel
  import opened AlocacaoModel
  import opened Database

  /** The fields of an update body. The basic fields are assigned whenever
      present; a date is assigned only when present and non-empty, so a
      date cannot be cleared (`None` stands for absent or empty). */
  datatype DataloggerPatch = DataloggerPatch(
    numeroSerie: Patch<string>,
    modelo: Patch<string>,
    status: Patch<string>,
    observacoes: Patch<Option<string>>,
    dataAquisicao: Option<Date>,
    ultimaCalibracao: Option<Date>,
    proximaCalibracao: Option<Date>)

  /** The update would give device `id` a serial number that another
      device holds. Re-sending the device's own serial is no conflict. */
  predicate SerialConflict(db: Db, id: Id, patch: DataloggerPatch)
    requires id in db.dataloggers.rows
  {
    patch.numeroSerie.Set? &&
    patch.numeroSerie.value != db.dataloggers.rows[id].numeroSerie &&
    db.SerialEmUso(patch.numeroSerie.value)
  }

  /** `POST /dataloggers`. Refused when the serial number is taken;
      otherwise adds exactly one device, in stock unless a status is given,
      with only the dates that were given. */
  method CreateDatalogger(st: Store, numeroSerie: string, modelo: string, status: Option<string>,
                          observacoes: Option<string>, dataAquisicao: Option<Date>,
                          ultimaCalibracao: Option<Date>, proximaCalibracao: Option<Date>)
    returns (r: Result<Id>)
    requires st.Valid()
    modifies st
    ensures st.Valid()
    ensures old(st.Coherent()) ==> st.Coherent()
    ensures old(st.Snapshot().SerialEmUso(numeroSerie)) ==> r == Err(SerialDuplicado) && unchanged(st)
    ensures !old(st.Snapshot().SerialEmUso(numeroSerie)) ==>
              && r == Ok(old(st.dataloggers.nextId))
              && st.dataloggers == old(st.dataloggers).Insert(
                   Datalogger(numeroSerie, modelo, status.GetOr(DataloggerStatusPadrao),
                              dataAquisicao, ultimaCalibracao, proximaCalibracao, observacoes))
              && unchanged(st`clientes, st`demandas, st`alocacoes)
  {
    if st.Snapshot().SerialEmUso(numeroSerie) {
      return Err(SerialDuplicado);
    }
    var d := Datalogger(numeroSerie, modelo, status.GetOr(DataloggerStatusPadrao),
                        None, None, None, observacoes);
    if dataAquisicao.Some? {
      d := d.(dataAquisicao := dataAquisicao);
    }
    if ultimaCalibracao.Some? {
      d := d.(ultimaCalibracao := ultimaCalibracao);
    }
    if proximaCalibracao.Some? {
      d := d.(proximaCalibracao := proximaCalibracao);
    }
    r := Ok(st.dataloggers.nextId);
    st.dataloggers := st.dataloggers.Insert(d);
  }

  /** `PUT /dataloggers/<id>`. Refused for an unknown id, and for a serial
      number another device holds; otherwise assigns exactly the fields
      present in the body. The status is taken as given, without any
      state-machine check, so the device-status agreement is kept only when
      the status is not changed, is set to `Alocado`, or the device has no
      allocation in field. */
  method UpdateDatalogger(st: Store, id: Id, patch: DataloggerPatch) returns (r: Result<Id>)
    requires st.Valid()
    modifies st
    ensures st.Valid()
    ensures id !in old(st.dataloggers.rows) ==> r == Err(Abort404(DataloggerEntity)) && unchanged(st)
    ensures id in old(st.dataloggers.rows) && SerialConflict(old(st.Snapshot()), id, patch) ==>
              r == Err(SerialDuplicado) && unchanged(st)
    ensures id in old(st.dataloggers.rows) && !SerialConflict(old(st.Snapshot()), id, patch) ==>
              && r == Ok(id)
              && unchanged(st`clientes, st`demandas, st`alocacoes)
              && var was := old(st.dataloggers.rows[id]);
                 st.dataloggers == old(st.dataloggers).Put(id, Datalogger(
                   patch.numeroSerie.ApplyTo(was.numeroSerie),
                   patch.modelo.ApplyTo(was.modelo),
                   patch.status.ApplyTo(was.status),
                   patch.dataAquisicao.OrElse(was.dataAquisicao),
                   patch.ultimaCalibracao.OrElse(was.ultimaCalibracao),
                   patch.proximaCalibracao.OrElse(was.proximaCalibracao),
                   patch.observacoes.ApplyTo(was.observacoes)))
    ensures old(st.Coherent()) &&
            (patch.status.Keep? || patch.status == Set(Alocado) || !old(st.Snapshot().DataloggerEmCampo(id)))
            ==> st.Coherent()
  {
    if id !in st.dataloggers.rows {
      return Err(Abort404(DataloggerEntity));
    }
    if SerialConflict(st.Snapshot(), id, patch) {
      return Err(SerialDuplicado);
    }
    // the field loop over numero_serie, modelo, status, observacoes, then
    // the three dates, each assigned only when given
    var d := st.dataloggers.rows[id];
    d := d.(numeroSerie := patch.numeroSerie.ApplyTo(d.numeroSerie));
    d := d.(modelo := patch.modelo.ApplyTo(d.modelo));
    d := d.(status := patch.status.ApplyTo(d.status));
    d := d.(observacoes := patch.observacoes.ApplyTo(d.observacoes));
    d := d.(dataAquisicao := patch.dataAquisicao.OrElse(d.dataAquisicao));
    d := d.(ultimaCalibracao := patch.ultimaCalibracao.OrElse(d.ultimaCalibracao));
    d := d.(proximaCalibracao := patch.proximaCalibracao.OrElse(d.proximaCalibracao));
    st.dataloggers := st.dataloggers.Put(id, d);
    r := Ok(id);
  }

  /** The in-field allocations of device `id`: the query behind the
      deletion guard. */
  function AlocacoesAtivasDoDatalogger(db: Db, id: Id): (r: seq<Id>)
    requires db.TablesValid()
    ensures |r| > 0 <==> db.DataloggerEmCampo(id)
  {
    var r := Where(db.alocacoes, (a: Alocacao) => a.dataloggerId == id && IsEmCampo(a));
    assert |r| > 0 ==> r[0] in r;
    r
  }

  /** `datalogger.alocacoes`, which the session loads when the device is
      deleted: every allocation of the device, in field or returned. */
  function AlocacoesDoDatalogger(db: Db, id: Id): (r: seq<Id>)
    requires db.TablesValid()
    ensures forall k :: k in r <==> k in db.alocacoes.rows && db.alocacoes.rows[k].dataloggerId == id
    ensures |r| > 0 <==> db.DataloggerReferenciado(id)
  {
    var r := Where(db.alocacoes, (a: Alocacao) => a.dataloggerId == id);
    assert |r| > 0 ==> r[0] in r;
    r
  }

  /** `DELETE /dataloggers/<id>` as written. Refused for an unknown id and
      while any allocation of the device is in field. Past that guard the
      session deletes the device, which sets `datalogger_id` of each of its
      returned allocations to null; the column is `NOT NULL`, so the commit
      fails, the route rolls back and answers 500. Only a device that no
      allocation ever referred to is removed. */
  method DeleteDatalogger(st: Store, id: Id) returns (r: Result<Id>)
    requires st.Valid()
    modifies st
    ensures st.Valid()
    ensures old(st.Coherent()) ==> st.Coherent()
    ensures id !in old(st.dataloggers.rows) ==> r == Err(Abort404(DataloggerEntity)) && unchanged(st)
    ensures id in old(st.dataloggers.rows) && old(st.Snapshot().DataloggerEmCampo(id)) ==>
              r == Err(AlocacoesAtivas) && unchanged(st)
    ensures id in old(st.dataloggers.rows) && !old(st.Snapshot().DataloggerEmCampo(id))
            && old(st.Snapshot().DataloggerReferenciado(id)) ==>
              r == Err(IntegridadeViolada(DataloggerEntity)) && unchanged(st)
    ensures id in old(st.dataloggers.rows) && !old(st.Snapshot().DataloggerReferenciado(id)) ==>
              && r == Ok(id)
              && st.dataloggers == old(st.dataloggers).Delete(id)
              && unchanged(st`clientes, st`demandas, st`alocacoes)
  {
    if id !in st.dataloggers.rows {
      return Err(Abort404(DataloggerEntity));
    }
    var db0 := st.Snapshot();
    var ativas := |AlocacoesAtivasDoDatalogger(db0, id)|;
    if ativas > 0 {
      return Err(AlocacoesAtivas);
    }
    if |AlocacoesDoDatalogger(db0, id)| > 0 {
      return Err(IntegridadeViolada(DataloggerEntity));
    }
    ExclusaoPreserva(db0, id);
    st.dataloggers := st.dataloggers.Delete(id);
    assert st.Snapshot() == db0.(dataloggers := db0.dataloggers.Delete(id));
    r := Ok(id);
  }

  /** `DELETE /dataloggers/<id>` as evidently intended: the guard against
      allocations in field is the only refusal, so a device whose
      allocations are all returned is removed; those allocations stay, and
      their device fields read as null. */
  method DeleteDataloggerPretendido(st: Store, id: Id) returns (r: Result<Id>)
    requires st.Valid()
    modifies st
    ensures st.Valid()
    ensures old(st.Coherent()) ==> st.Coherent()
    ensures id !in old(st.dataloggers.rows) ==> r == Err(Abort404(DataloggerEntity)) && unchanged(st)
    ensures id in old(st.dataloggers.rows) && old(st.Snapshot().DataloggerEmCampo(id)) ==>
              r == Err(AlocacoesAtivas) && unchanged(st)
    ensures id in old(st.dataloggers.rows) && !old(st.Snapshot().DataloggerEmCampo(id)) ==>
              && r == Ok(id)
              && st.dataloggers == old(st.dataloggers).Delete(id)
              && unchanged(st`clientes, st`demandas, st`alocacoes)
  {
    if id !in st.dataloggers.rows {
      return Err(Abort404(DataloggerEntity));
    }
    var db0 := st.Snapshot();
    var ativas := |AlocacoesAtivasDoDatalogger(db0, id)|;
    if ativas > 0 {
      return Err(AlocacoesAtivas);
    }
    ExclusaoPreserva(db0, id);
    st.dataloggers := st.dataloggers.Delete(id);
    assert st.Snapshot() == db0.(dataloggers := db0.dataloggers.Delete(id));
    r := Ok(id);
  }

  /** A device whose only allocation was returned passes the guard against
      allocations in field, yet the route as written answers it 500 for the
      allocation that still refers to it, where the intended delete removes
      it. */
  lemma ExclusaoComHistorico()
    ensures var db := ComUmaDevolucao();
            && db.Valid()
            && 1 in db.dataloggers.rows
            && !db.DataloggerEmCampo(1)
            && db.DataloggerReferenciado(1)
    ensures IntegridadeViolada(DataloggerEntity).HttpStatusAsWritten() == 500
  {
  }

  /** Removing a device that has no allocation in field keeps every
      allocation in field pointing at a device, in `Alocado`, and keeps the
      serials unique. */
  lemma ExclusaoPreserva(db: Db, id: Id)
    requires db.Valid() && !db.DataloggerEmCampo(id)
    ensures db.(dataloggers := db.dataloggers.Delete(id)).Valid()
    ensures db.Coherent() ==> db.(dataloggers := db.dataloggers.Delete(id)).Coherent()
  {
  }

  /** `GET /dataloggers`: every device, or only those of the given status
      when a non-empty status filter is sent. */
  function ListDataloggers(db: Db, statusFilter: Option<string>): (r: seq<Id>)
    requires db.TablesValid()
    ensures forall k :: k in r <==>
              k in db.dataloggers.rows &&
              (Truthy(statusFilter) ==> db.dataloggers.rows[k].status == statusFilter.value)
    ensures Increasing(r)
  {
    if Truthy(statusFilter) then Where(db.dataloggers, (d: Datalogger) => d.status == statusFilter.value)
    else db.dataloggers.Ids()
  }

  /** `GET /dataloggers/disponveis`: exactly the devices in stock. */
  function Disponiveis(db: Db): (r: seq<Id>)
    requires db.TablesValid()
    ensures forall k :: k in r <==> k in db.dataloggers.rows && db.dataloggers.rows[k].status == Estoque
    ensures Increasing(r)
  {
    Where(db.dataloggers, ComStatus(Estoque))
  }

  /** A calibration date is set and falls on or before `today`. */
  predicate CalibracaoVencidaEm(d: Datalogger, today: Date) {
    d.proximaCalibracao.Some? && d.proximaCalibracao.value <= today
  }

  /** `CalibracaoVencidaEm` as a row condition. */
  function VencidaAte(today: Date): Datalogger -> bool {
    d => CalibracaoVencidaEm(d, today)
  }

  /** `GET /dataloggers/calibracao-vencida`: exactly the devices whose next
      calibration is set and not after today; a device without a date is
      never listed. */
  function CalibracaoVencida(db: Db, today: Date): (r: seq<Id>)
    requires db.TablesValid()
    ensures forall k :: k in r <==>
              k in db.dataloggers.rows &&
              db.dataloggers.rows[k].proximaCalibracao.Some? &&
              db.dataloggers.rows[k].proximaCalibracao.value <= today
    ensures Increasing(r)
  {
    Where(db.dataloggers, VencidaAte(today))
  }
}
