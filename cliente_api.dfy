/** The REST client (`src/services/clienteService.ts`) as an oracle: the
    network is not modelled, so each call's server-side fate is a parameter
    that may take any value. What the client itself decides before any request
    is sent — the missing-key check of `updateCliente` and the all-or-nothing
    fan-out of the bulk delete — is modelled as written. */
module ClienteApi {
  import opened ClienteTypes

  /** Why a call failed: the local argument check of `updateCliente`, or a
      non-2xx or unreachable server. */
  datatype Reason = MissingIdEmpresa | Remote

  /** How the promise of an API call settles. */
  datatype Outcome = Succeeded | Failed(reason: Reason)

  /** The value passed as `updateCliente`'s one argument. JavaScript does not
      check it against `UpdateClienteDto`, so a caller can pass a bare number. */
  datatype UpdateArg = IdNumber(n: int) | Dto(dto: ClienteDraft)

  /** The id segment of a DELETE path: `deleteCliente(undefined)` sends the
      text "undefined". */
  datatype PathId = IdSegment(id: int) | Undefined

  /** `cliente.empresa?.idEmpresa` is truthy: the argument has an `empresa`
      whose `idEmpresa` is a non-empty string. A number has no `empresa`. */
  predicate HasIdEmpresa(arg: UpdateArg) {
    arg.Dto? && arg.dto.empresa.idEmpresa != []
  }

  /** `createCliente(dto)`: a POST whose fate the server decides. */
  function CreateCliente(dto: ClienteDraft, accepted: bool): Outcome {
    if accepted then Succeeded else Failed(Remote)
  }

  /** `updateCliente(arg)`: throws before any request when the key is missing;
      otherwise a PUT whose fate the server decides. */
  function UpdateCliente(arg: UpdateArg, accepted: bool): Outcome {
    if !HasIdEmpresa(arg) then Failed(MissingIdEmpresa)
    else if accepted then Succeeded
    else Failed(Remote)
  }

  /** `deleteCliente(id)`: a DELETE that succeeds unless the server rejects
      this path. */
  function DeleteCliente(id: PathId, rejected: set<PathId>): Outcome {
    if id in rejected then Failed(Remote) else Succeeded
  }

  /** `deleteMultipleClientes(ids)`: one `deleteCliente` per id, joined by
      `Promise.all`, which rejects as soon as any of them does. */
  function DeleteMultipleClientes(ids: set<int>, rejected: set<PathId>): (o: Outcome)
    ensures o.Succeeded? <==> forall id :: id in ids ==> DeleteCliente(IdSegment(id), rejected).Succeeded?
    ensures o.Failed? ==> o.reason == Remote
  {
    if exists id :: id in ids && IdSegment(id) in rejected then Failed(Remote) else Succeeded
  }

  /** Passing a bare number to `updateCliente` always fails locally, whatever
      the server would have answered: no PUT is ever sent. */
  lemma UpdateWithNumberFails(id: int, accepted: bool)
    ensures UpdateCliente(IdNumber(id), accepted) == Failed(MissingIdEmpresa)
  {
  }
}
