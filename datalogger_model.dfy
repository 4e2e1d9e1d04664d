/** The device record (`dataloggers` table). */
module DataloggerModel {
  import opened Common

  /** The documented device statuses. The column itself is free text. */
  const Estoque: string := "Estoque"
  const Alocado: string := "Alocado"
  const Calibracao: string := "Calibra\U{E7}\U{E3}o"
  const Manutencao: string := "Manuten\U{E7}\U{E3}o"

  /** The status a device is created with when none is given. */
  const DataloggerStatusPadrao: string := Estoque

  predicate DataloggerStatusDocumentado(s: string) {
    s == Estoque || s == Alocado || s == Calibracao || s == Manutencao
  }

  /** The condition `status == s` on a device row. */
  function ComStatus(s: string): Datalogger -> bool {
    (d: Datalogger) => d.status == s
  }

  /** A device. The serial number is unique across the table (a store
      invariant); the acquisition and calibration dates are nullable. */
  datatype Datalogger = Datalogger(
    numeroSerie: string,
    modelo: string,
    status: string,
    dataAquisicao: Option<Date>,
    ultimaCalibracao: Option<Date>,
    proximaCalibracao: Option<Date>,
    observacoes: Option<string>)


  /** The JSON view of a device; dates stay day numbers. */
  datatype DataloggerDict = DataloggerDict(
    id: Id,
    numeroSerie: string,
    modelo: string,
    status: string,
    dataAquisicao: Option<Date>,
    ultimaCalibracao: Option<Date>,
    proximaCalibracao: Option<Date>,
    observacoes: Option<string>)

  /** `to_dict`: every column as stored, a null date as null. */
  function DataloggerToDict(id: Id, d: Datalogger): (r: DataloggerDict)
    ensures r.id == id && r.numeroSerie == d.numeroSerie && r.status == d.status
    ensures r.modelo == d.modelo && r.observacoes == d.observacoes
    ensures r.proximaCalibracao.None? <==> d.proximaCalibracao.None?
    ensures r.proximaCalibracao.Some? ==> r.proximaCalibracao.value == d.proximaCalibracao.value
    ensures r.dataAquisicao == d.dataAquisicao && r.ultimaCalibracao == d.ultimaCalibracao
  {
    DataloggerDict(id, d.numeroSerie, d.modelo, d.status,
      d.dataAquisicao, d.ultimaCalibracao, d.proximaCalibracao, d.observacoes)
  }
}
