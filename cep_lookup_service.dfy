/**
 * The lookup port `ICepLookupService`: what one call of `BuscarPorCepAsync`
 * can end in, as seen by its caller.
 */
module Services {
  import opened Entities

  datatype LookupOutcome =
    | Found(endereco: Endereco)  // returned an address
    | Absent                     // returned null
    | Cancelled                  // threw OperationCanceledException
    | Failed                     // threw any other exception
}
