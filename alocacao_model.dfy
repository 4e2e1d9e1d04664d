/** The allocation record (`alocacoes` table): one device lent to one
    demand for a field period. */
module AlocacaoModel {
  import opened Common
  import opened ClienteModel
  import opened DataloggerModel
  import opened DemandaModel

  /** The documented allocation statuses. */
  const EmCampo: string := "Em campo"
  const Retornado: string := "Retornado"

  predicate AlocacaoStatusDocumentado(s: string) {
    s == EmCampo || s == Retornado
  }

  /** An allocation. Device, demand, departure and expected return are
      required; the actual return date is set when the device comes back. */
  datatype Alocacao = Alocacao(
    dataloggerId: Id,
    demandaId: Id,
    dataSaida: Date,
    dataRetornoPrevista: Date,
    dataRetornoReal: Option<Date>,
    status: string,
    observacoes: Option<string>)

  predicate IsEmCampo(a: Alocacao) {
    a.status == EmCampo
  }

  predicate IsRetornado(a: Alocacao) {
    a.status == Retornado
  }

  /** The JSON view of an allocation, with the device serial, the demand
      description and the client name joined in. */
  datatype AlocacaoDict = AlocacaoDict(
    id: Id,
    dataloggerId: Id,
    dataloggerNumeroSerie: Option<string>,
    demandaId: Id,
    demandaDescricao: Option<string>,
    clienteNome: Option<string>,
    dataSaida: Option<Date>,
    dataRetornoPrevista: Option<Date>,
    dataRetornoReal: Option<Date>,
    status: string,
    observacoes: Option<string>)

  /** `to_dict`: each joined field is null exactly when a row on the way to
      it is missing, and carries that row's value otherwise; the actual
      return date is null exactly when unset. */
  function AlocacaoToDict(id: Id, a: Alocacao, dataloggers: map<Id, Datalogger>,
                          demandas: map<Id, Demanda>, clientes: map<Id, Cliente>): (r: AlocacaoDict)
    ensures r.id == id && r.dataloggerId == a.dataloggerId && r.demandaId == a.demandaId
    ensures r.status == a.status && r.observacoes == a.observacoes
    ensures r.dataloggerNumeroSerie.Some? <==> a.dataloggerId in dataloggers
    ensures r.dataloggerNumeroSerie.Some? ==>
              r.dataloggerNumeroSerie.value == dataloggers[a.dataloggerId].numeroSerie
    ensures r.demandaDescricao.Some? <==> a.demandaId in demandas
    ensures r.demandaDescricao.Some? ==> r.demandaDescricao.value == demandas[a.demandaId].descricao
    ensures r.clienteNome.Some? <==>
              a.demandaId in demandas && demandas[a.demandaId].clienteId in clientes
    ensures r.clienteNome.Some? ==>
              r.clienteNome.value == clientes[demandas[a.demandaId].clienteId].nome
    ensures r.dataRetornoReal.None? <==> a.dataRetornoReal.None?
    ensures r.dataRetornoReal.Some? ==> r.dataRetornoReal.value == a.dataRetornoReal.value
    ensures r.dataSaida == Some(a.dataSaida) && r.dataRetornoPrevista == Some(a.dataRetornoPrevista)
  {
    var demanda := if a.demandaId in demandas then Some(demandas[a.demandaId]) else None;
    AlocacaoDict(
      id,
      a.dataloggerId,
      if a.dataloggerId in dataloggers then Some(dataloggers[a.dataloggerId].numeroSerie) else None,
      a.demandaId,
      if demanda.Some? then Some(demanda.value.descricao) else None,
      if demanda.Some? && demanda.value.clienteId in clientes
        then Some(clientes[demanda.value.clienteId].nome) else None,
      Some(a.dataSaida),
      Some(a.dataRetornoPrevista),
      a.dataRetornoReal,
      a.status,
      a.observacoes)
  }
}
