/** The database session shared by every route: four tables, the
    invariants every route keeps, and the store object the routes mutate. */
module Database {
  import opened Common
  import opened Tables
  import opened ClienteModel
  import opened DataloggerModel
  import opened DemandaModel
  import opened AlocacaoModel

  /** The contents of the store at one moment. */
  datatype Db = Db(
    dataloggers: Table<Datalogger>,
    clientes: Table<Cliente>,
    demandas: Table<Demanda>,
    alocacoes: Table<Alocacao>)
  {
    predicate TablesValid() {
      dataloggers.Valid() && clientes.Valid() && demandas.Valid() && alocacoes.Valid()
    }

    /** The unique constraint on `numero_serie`. */
    predicate SerialsUnique() {
      forall i, j :: i in dataloggers.rows && j in dataloggers.rows && i != j
        ==> dataloggers.rows[i].numeroSerie != dataloggers.rows[j].numeroSerie
    }

    /** Every allocation still in field points at a device and a demand
        that exist: allocation requires both, and neither can be deleted
        while such an allocation refers to it. */
    predicate InFieldLinked() {
      forall k :: k in alocacoes.rows && IsEmCampo(alocacoes.rows[k])
        ==> alocacoes.rows[k].dataloggerId in dataloggers.rows
            && alocacoes.rows[k].demandaId in demandas.rows
    }

    /** Every allocation is in field or returned: allocation creates it in
        field, a return or a finalisation returns it, and no route sets any
        other allocation status. */
    predicate AlocacoesDocumentadas() {
      forall k :: k in alocacoes.rows ==> AlocacaoStatusDocumentado(alocacoes.rows[k].status)
    }

    /** What every route keeps. */
    predicate Valid() {
      TablesValid() && SerialsUnique() && InFieldLinked() && AlocacoesDocumentadas()
    }

    /** The device side of the allocation state machine: a device with an
        allocation in field is `Alocado`, and no device is in field twice. */
    predicate Coherent() {
      && (forall k :: k in alocacoes.rows && IsEmCampo(alocacoes.rows[k])
            ==> alocacoes.rows[k].dataloggerId in dataloggers.rows
                && dataloggers.rows[alocacoes.rows[k].dataloggerId].status == Alocado)
      && (forall j, k ::
            j in alocacoes.rows && k in alocacoes.rows && j != k &&
            IsEmCampo(alocacoes.rows[j]) && IsEmCampo(alocacoes.rows[k])
            ==> alocacoes.rows[j].dataloggerId != alocacoes.rows[k].dataloggerId)
    }

    /** `Datalogger.query.filter_by(numero_serie=serial).first()` finds a row. */
    predicate SerialEmUso(serial: string) {
      exists k :: k in dataloggers.rows && dataloggers.rows[k].numeroSerie == serial
    }

    /** Some allocation, in field or returned, refers to device `id`:
        `datalogger.alocacoes` is not empty. */
    predicate DataloggerReferenciado(id: Id) {
      exists k :: k in alocacoes.rows && alocacoes.rows[k].dataloggerId == id
    }

    /** Some allocation, in field or returned, refers to demand `id`:
        `demanda.alocacoes` is not empty. */
    predicate DemandaReferenciada(id: Id) {
      exists k :: k in alocacoes.rows && alocacoes.rows[k].demandaId == id
    }

    /** Some allocation of device `id` is in field. */
    predicate DataloggerEmCampo(id: Id) {
      exists k :: k in alocacoes.rows && alocacoes.rows[k].dataloggerId == id &&
        IsEmCampo(alocacoes.rows[k])
    }
  }

  /** A fresh, empty database. */
  function EmptyDb(): (db: Db)
    ensures db.Valid() && db.Coherent()
  {
    Db(EmptyTable(), EmptyTable(), EmptyTable(), EmptyTable())
  }

  /** A store after one finished job: client 1 with demand 1, now
      `Finalizada`, which borrowed device 1 through allocation 1, since
      returned; the device is back in stock. */
  function ComUmaDevolucao(): (db: Db)
    ensures db.Valid() && db.Coherent()
    ensures 1 in db.dataloggers.rows && 1 in db.demandas.rows
    ensures forall k :: k in db.alocacoes.rows ==> !IsEmCampo(db.alocacoes.rows[k])
    ensures db.DataloggerReferenciado(1) && db.DemandaReferenciada(1)
  {
    var db := Db(
      Table(map[1 := Datalogger("DL-001", "Modelo", Estoque, None, None, None, None)], 2),
      Table(map[1 := Cliente("Cliente", None, None, None, None)], 2),
      Table(map[1 := Demanda(1, "Campanha", 10, 20, Some(18), Finalizada, None)], 2),
      Table(map[1 := Alocacao(1, 1, 10, 20, Some(18), Retornado, None)], 2));
    assert db.alocacoes.rows[1].dataloggerId == 1 && db.alocacoes.rows[1].demandaId == 1;
    db
  }

  /** The session: one table per record kind, reassigned by the routes. */
  class Store {
    var dataloggers: Table<Datalogger>
    var clientes: Table<Cliente>
    var demandas: Table<Demanda>
    var alocacoes: Table<Alocacao>

    function Snapshot(): Db
      reads this
    {
      Db(dataloggers, clientes, demandas, alocacoes)
    }

    predicate Valid()
      reads this
    {
      Snapshot().Valid()
    }

    predicate Coherent()
      reads this
    {
      Snapshot().Coherent()
    }

    constructor ()
      ensures Snapshot() == EmptyDb()
      ensures Valid() && Coherent()
    {
      dataloggers := EmptyTable();
      clientes := EmptyTable();
      demandas := EmptyTable();
      alocacoes := EmptyTable();
    }
  }
}
