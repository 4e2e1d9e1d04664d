/** The client routes: create, update, delete behind the active-demand
    guard, and the listing of a client's demands. */
module ClienteRoutes {
  import opened Common
  import opened Tables
  import opened ClienteModel
  import opened DemandaModel
  import opened Database

  /** The fields of an update body; each is assigned whenever present. */
  datatype ClientePatch = ClientePatch(
    nome: Patch<string>,
    contato: Patch<Option<string>>,
    telefone: Patch<Option<string>>,
    email: Patch<Option<string>>,
    endereco: Patch<Option<string>>)

  /** Some demand of client `id` is `Ativa`. */
  predicate TemDemandaAtiva(db: Db, id: Id) {
    exists k :: k in db.demandas.rows && db.demandas.rows[k].clienteId == id &&
      db.demandas.rows[k].status == Ativa
  }

  /** `POST /clientes`: the name is required, the four contact fields are
      optional; adds exactly one client. */
  method CreateCliente(st: Store, nome: string, contato: Option<string>, telefone: Option<string>,
                       email: Option<string>, endereco: Option<string>)
    returns (r: Result<Id>)
    requires st.Valid()
    modifies st
    ensures st.Valid()
    ensures old(st.Coherent()) ==> st.Coherent()
    ensures r == Ok(old(st.clientes.nextId))
    ensures st.clientes == old(st.clientes).Insert(Cliente(nome, contato, telefone, email, endereco))
    ensures unchanged(st`dataloggers, st`demandas, st`alocacoes)
  {
    r := Ok(st.clientes.nextId);
    st.clientes := st.clientes.Insert(Cliente(nome, contato, telefone, email, endereco));
  }

  /** `PUT /clientes/<id>`: refused for an unknown id; otherwise assigns
      exactly the contact fields present in the body. */
  method UpdateCliente(st: Store, id: Id, patch: ClientePatch) returns (r: Result<Id>)
    requires st.Valid()
    modifies st
    ensures st.Valid()
    ensures old(st.Coherent()) ==> st.Coherent()
    ensures id !in old(st.clientes.rows) ==> r == Err(Abort404(ClienteEntity)) && unchanged(st)
    ensures id in old(st.clientes.rows) ==>
              && r == Ok(id)
              && unchanged(st`dataloggers, st`demandas, st`alocacoes)
              && var was := old(st.clientes.rows[id]);
                 st.clientes == old(st.clientes).Put(id, Cliente(
                   patch.nome.ApplyTo(was.nome),
                   patch.contato.ApplyTo(was.contato),
                   patch.telefone.ApplyTo(was.telefone),
                   patch.email.ApplyTo(was.email),
                   patch.endereco.ApplyTo(was.endereco)))
  {
    if id !in st.clientes.rows {
      return Err(Abort404(ClienteEntity));
    }
    // the field loop over nome, contato, telefone, email, endereco
    var c := st.clientes.rows[id];
    c := c.(nome := patch.nome.ApplyTo(c.nome));
    c := c.(contato := patch.contato.ApplyTo(c.contato));
    c := c.(telefone := patch.telefone.ApplyTo(c.telefone));
    c := c.(email := patch.email.ApplyTo(c.email));
    c := c.(endereco := patch.endereco.ApplyTo(c.endereco));
    st.clientes := st.clientes.Put(id, c);
    r := Ok(id);
  }

  /** The `Ativa` demands of client `id`: the query behind the deletion
      guard. */
  function DemandasAtivasDoCliente(db: Db, id: Id): (r: seq<Id>)
    requires db.TablesValid()
    ensures |r| > 0 <==> TemDemandaAtiva(db, id)
  {
    var r := Where(db.demandas, (d: Demanda) => d.clienteId == id && d.status == Ativa);
    assert |r| > 0 ==> r[0] in r;
    r
  }

  /** `DELETE /clientes/<id>`: refused for an unknown id and while any of
      its demands is `Ativa`; a client whose demands are all finished or
      cancelled, or who has none, is removed, and nothing else changes. */
  method DeleteCliente(st: Store, id: Id) returns (r: Result<Id>)
    requires st.Valid()
    modifies st
    ensures st.Valid()
    ensures old(st.Coherent()) ==> st.Coherent()
    ensures id !in old(st.clientes.rows) ==> r == Err(Abort404(ClienteEntity)) && unchanged(st)
    ensures id in old(st.clientes.rows) && TemDemandaAtiva(old(st.Snapshot()), id) ==>
              r == Err(DemandasAtivas) && unchanged(st)
    ensures id in old(st.clientes.rows) && !TemDemandaAtiva(old(st.Snapshot()), id) ==>
              && r == Ok(id)
              && st.clientes == old(st.clientes).Delete(id)
              && unchanged(st`dataloggers, st`demandas, st`alocacoes)
  {
    if id !in st.clientes.rows {
      return Err(Abort404(ClienteEntity));
    }
    var ativas := |DemandasAtivasDoCliente(st.Snapshot(), id)|;
    if ativas > 0 {
      return Err(DemandasAtivas);
    }
    st.clientes := st.clientes.Delete(id);
    r := Ok(id);
  }

  /** `GET /clientes/<id>/demandas`: not found for an unknown client;
      otherwise exactly the demands whose client is `id`. */
  function DemandasDoCliente(db: Db, id: Id): (r: Result<seq<Id>>)
    requires db.TablesValid()
    ensures r.Err? <==> id !in db.clientes.rows
    ensures r.Err? ==> r.error == Abort404(ClienteEntity)
    ensures r.Ok? ==> forall k :: k in r.value <==>
              k in db.demandas.rows && db.demandas.rows[k].clienteId == id
    ensures r.Ok? ==> Increasing(r.value)
  {
    if id !in db.clientes.rows then Err(Abort404(ClienteEntity))
    else Ok(Where(db.demandas, (d: Demanda) => d.clienteId == id))
  }
}
