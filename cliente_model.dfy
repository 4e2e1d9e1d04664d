/** The client record (`clientes` table), with the columns the client
    routes read and write: a required name and four optional contact
    fields. */
module ClienteModel {
  import opened Common

  datatype Cliente = Cliente(
    nome: string,
    contato: Option<string>,
    telefone: Option<string>,
    email: Option<string>,
    endereco: Option<string>)
}
