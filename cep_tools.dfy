/**
 * `CepTools.BuscarCepAsync`: the remotely invokable lookup, a blank guard in
 * front of the use case.
 */
module McpCepTools {
  import opened Wrappers
  import opened Text
  import opened ValueObjects
  import opened DTOs
  import opened Services
  import opened UseCases
  import HttpCep

  /** The tool's own message: note the unaccented spelling. */
  const ToolNotInformedMessage: string := "CEP nao informado."

  /** `BuscarCepAsync(cep, ct)`. */
  function BuscarCepAsync(cep: Option<string>, port: Cep -> LookupOutcome): (r: ConsultaCepResponse)
    ensures WellShaped(r)
    ensures IsNullOrWhiteSpace(cep) ==> r == Failure(ToolNotInformedMessage, "", "")
    ensures !IsNullOrWhiteSpace(cep) ==> r == ExecuteAsync(Some(ConsultaCepRequest(cep.value)), port)
  {
    if IsNullOrWhiteSpace(cep) then Failure(ToolNotInformedMessage, "", "")
    else ExecuteAsync(Some(ConsultaCepRequest(cep.value)), port)
  }

  /** Blank input never reaches the use case: the port cannot change the answer. */
  lemma BlankNeverReachesUseCase(cep: Option<string>, p1: Cep -> LookupOutcome, p2: Cep -> LookupOutcome)
    requires IsNullOrWhiteSpace(cep)
    ensures BuscarCepAsync(cep, p1) == BuscarCepAsync(cep, p2)
  {
  }

  /** Through this tool the use case's own not-informed message is unreachable. */
  lemma UseCaseNotInformedUnreachable(cep: Option<string>, port: Cep -> LookupOutcome)
    ensures BuscarCepAsync(cep, port).mensagem != Some(NotInformedMessage)
  {
    if !IsNullOrWhiteSpace(cep) {
      NotInformedOnlyForBlank(cep.value, port);
    }
  }

  /**
   * Over the HTTP adapter, the use case's generic lookup-error message is unreachable:
   * the adapter turns every non-cancellation failure into a miss.
   */
  lemma AdapterNeverReportsLookupError(cep: Option<string>, send: string -> HttpCep.HttpReply, tokenCancelled: bool)
    ensures BuscarCepAsync(cep, HttpCep.Port(send, tokenCancelled)).mensagem != Some(LookupErrorMessage)
  {
    MessagesDistinct();
    var port := HttpCep.Port(send, tokenCancelled);
    if !IsNullOrWhiteSpace(cep) && NewCep(cep).Ok? {
      var c := NewCep(cep).value;
      assert port(c) == HttpCep.BuscarPorCepAsync(c, send, tokenCancelled);
    }
  }
}
