/** The records exchanged with the CND back end (`src/types/cliente.ts`). */
module ClienteTypes {

  /** A value or JavaScript's `null`/`undefined`. */
  datatype Option<T> = None | Some(value: T)

  /** The company a client record belongs to. `idEmpresa` is the short
      external key (at most six UTF-16 code units, JavaScript `.length`,
      once validated). */
  datatype Empresa = Empresa(idEmpresa: string, nomeEmpresa: string, cnpj: string)

  /** A client record as the API returns it; `id` is assigned by the server. */
  datatype Cliente = Cliente(
    id: int,
    cnpj: string,
    periodicidade: int,
    statusCliente: string,
    nacional: bool,
    municipal: bool,
    estadual: bool,
    empresa: Empresa)

  /** `CreateClienteDto`: a client record without its `id`. It is also the
      form's draft. */
  datatype ClienteDraft = ClienteDraft(
    cnpj: string,
    periodicidade: int,
    statusCliente: string,
    nacional: bool,
    municipal: bool,
    estadual: bool,
    empresa: Empresa)

  /** The eight non-id fields of a record, as the edit form copies them. */
  function DraftOf(c: Cliente): (d: ClienteDraft)
    ensures WithId(d, c.id) == c
  {
    ClienteDraft(c.cnpj, c.periodicidade, c.statusCliente, c.nacional, c.municipal, c.estadual,
                 Empresa(c.empresa.idEmpresa, c.empresa.nomeEmpresa, c.empresa.cnpj))
  }

  /** The record a server would hold for draft `d` under id `id`. */
  function WithId(d: ClienteDraft, id: int): Cliente {
    Cliente(id, d.cnpj, d.periodicidade, d.statusCliente, d.nacional, d.municipal, d.estadual, d.empresa)
  }

  /** Copying a record's fields into a draft loses nothing but the id. */
  lemma DraftOfWithId(d: ClienteDraft, id: int)
    ensures DraftOf(WithId(d, id)) == d
  {
  }
}
