/** The demand record (`demandas` table): one client engagement. */
module DemandaModel {
  import opened Common
  import opened ClienteModel

  /** The documented demand statuses. The column itself is free text. */
  const Ativa: string := "Ativa"
  const Finalizada: string := "Finalizada"
  const Cancelada: string := "Cancelada"

  /** The status a demand is created with when none is given. */
  const DemandaStatusPadrao: string := Ativa

  predicate DemandaStatusDocumentado(s: string) {
    s == Ativa || s == Finalizada || s == Cancelada
  }

  /** A demand. Client, description, start and expected end are required;
      the actual end date is set when the demand is finalised. */
  datatype Demanda = Demanda(
    clienteId: Id,
    descricao: string,
    dataInicio: Date,
    dataFimPrevista: Date,
    dataFimReal: Option<Date>,
    status: string,
    observacoes: Option<string>)


  /** The JSON view of a demand, with its client's name joined in. */
  datatype DemandaDict = DemandaDict(
    id: Id,
    clienteId: Id,
    clienteNome: Option<string>,
    descricao: string,
    dataInicio: Option<Date>,
    dataFimPrevista: Option<Date>,
    dataFimReal: Option<Date>,
    status: string,
    observacoes: Option<string>)

  /** `to_dict`: the client name is null exactly when the client row is
      gone; the actual end date is null exactly when unset; the required
      dates are always present. */
  function DemandaToDict(id: Id, d: Demanda, clientes: map<Id, Cliente>): (r: DemandaDict)
    ensures r.id == id && r.clienteId == d.clienteId && r.status == d.status
    ensures r.descricao == d.descricao && r.observacoes == d.observacoes
    ensures r.clienteNome.Some? <==> d.clienteId in clientes
    ensures r.clienteNome.Some? ==> r.clienteNome.value == clientes[d.clienteId].nome
    ensures r.dataFimReal.None? <==> d.dataFimReal.None?
    ensures r.dataFimReal.Some? ==> r.dataFimReal.value == d.dataFimReal.value
    ensures r.dataInicio == Some(d.dataInicio) && r.dataFimPrevista == Some(d.dataFimPrevista)
  {
    DemandaDict(id, d.clienteId,
      if d.clienteId in clientes then Some(clientes[d.clienteId].nome) else None,
      d.descricao, Some(d.dataInicio), Some(d.dataFimPrevista), d.dataFimReal,
      d.status, d.observacoes)
  }
}
