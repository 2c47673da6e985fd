/**
 * `ConsultarCepUseCase.ExecuteAsync`: the boundary that turns a raw postal
 * code and the outcome of the lookup port into exactly one response.
 */
module UseCases {
  import opened Wrappers
  import opened Text
  import opened ValueObjects
  import opened DTOs
  import opened Services

  /** `ConsultaCepRequest`: its constructor refuses null, so `cep` is a string. */
  datatype ConsultaCepRequest = ConsultaCepRequest(cep: string)

  const NotInformedMessage: string := "CEP não informado."
  const InvalidMessage: string := "CEP inválido. O CEP deve conter exatamente 8 dígitos."
  const CancelledMessage: string := "Operação cancelada."
  const LookupErrorMessage: string := "Erro ao consultar o CEP. Tente novamente mais tarde."

  /**
   * `ExecuteAsync(request, ct)`. The port is a function from the constructed `Cep`
   * to its outcome; a null request is the caller's contract violation.
   */
  function ExecuteAsync(request: Option<ConsultaCepRequest>, port: Cep -> LookupOutcome): (r: ConsultaCepResponse)
    requires request.Some?
    ensures WellShaped(r)
    ensures var raw := request.value.cep;
      IsNullOrWhiteSpace(Some(raw)) ==> r == Failure(NotInformedMessage, "", "")
    ensures var raw := request.value.cep;
      !IsNullOrWhiteSpace(Some(raw)) && |DigitsOnly(raw)| != 8 ==> r == Failure(InvalidMessage, "", "")
    ensures var raw := request.value.cep;
      !IsNullOrWhiteSpace(Some(raw)) && |DigitsOnly(raw)| == 8 ==>
        var c := Cep(DigitsOnly(raw));
        match port(c)
        case Found(e) => r == FromDomain(Some(e))
        case Absent => r == FromDomain(None)
        case Cancelled => r == Failure(CancelledMessage, c.value, ToMaskedString(c))
        case Failed => r == Failure(LookupErrorMessage, c.value, ToMaskedString(c))
  {
    match NewCep(Some(request.value.cep))
    case Err(EmptyInput) => Failure(NotInformedMessage, "", "")
    case Err(MalformedInput) => Failure(InvalidMessage, "", "")
    case Ok(cep) =>
      match port(cep)
      case Found(e) => FromDomain(Some(e))
      case Absent => FromDomain(None)
      case Cancelled => Failure(CancelledMessage, cep.value, ToMaskedString(cep))
      case Failed => Failure(LookupErrorMessage, cep.value, ToMaskedString(cep))
  }

  /** Input that does not make a valid `Cep` never reaches the port: the port cannot change the answer. */
  lemma InvalidInputNeverReachesPort(raw: string, p1: Cep -> LookupOutcome, p2: Cep -> LookupOutcome)
    requires NewCep(Some(raw)).Err?
    ensures ExecuteAsync(Some(ConsultaCepRequest(raw)), p1) == ExecuteAsync(Some(ConsultaCepRequest(raw)), p2)
  {
  }

  /** The port sees only the constructed `Cep`: ports that agree on it give the same answer. */
  lemma PortQueriedOnlyAtNormalisedCep(raw: string, p1: Cep -> LookupOutcome, p2: Cep -> LookupOutcome)
    requires NewCep(Some(raw)).Ok? && p1(NewCep(Some(raw)).value) == p2(NewCep(Some(raw)).value)
    ensures ExecuteAsync(Some(ConsultaCepRequest(raw)), p1) == ExecuteAsync(Some(ConsultaCepRequest(raw)), p2)
  {
  }

  /** `Encontrado` holds exactly on the path where the input is valid and the port found an address. */
  lemma EncontradoOnlyOnFound(raw: string, port: Cep -> LookupOutcome)
    ensures ExecuteAsync(Some(ConsultaCepRequest(raw)), port).encontrado <==>
      NewCep(Some(raw)).Ok? && port(NewCep(Some(raw)).value).Found?
  {
  }

  /** The five failure messages are pairwise distinct, so each failure path is identifiable. */
  lemma MessagesDistinct()
    ensures NotInformedMessage != InvalidMessage && NotInformedMessage != CancelledMessage
    ensures NotInformedMessage != LookupErrorMessage && NotInformedMessage != NotFoundMessage
    ensures InvalidMessage != CancelledMessage && InvalidMessage != LookupErrorMessage
    ensures InvalidMessage != NotFoundMessage && CancelledMessage != LookupErrorMessage
    ensures CancelledMessage != NotFoundMessage && LookupErrorMessage != NotFoundMessage
  {
  }

  /** Only blank input produces the not-informed message; malformed input never does. */
  lemma NotInformedOnlyForBlank(raw: string, port: Cep -> LookupOutcome)
    ensures ExecuteAsync(Some(ConsultaCepRequest(raw)), port).mensagem == Some(NotInformedMessage)
      <==> IsNullOrWhiteSpace(Some(raw))
  {
    MessagesDistinct();
  }

  /** A masked input with a found address: both postal-code forms of the answer are the address's own. */
  lemma ScenarioMaskedInputFound(port: Cep -> LookupOutcome)
    requires port(Cep("01001000")).Found? && port(Cep("01001000")).endereco.cep == Cep("01001000")
    ensures var r := ExecuteAsync(Some(ConsultaCepRequest("01001-000")), port);
      r.encontrado && r.cep == "01001000" && r.cepFormatado == "01001-000"
  {
    SeparatedDigits("01001", "-", "000");
    assert "01001" + "-" + "000" == "01001-000";
    assert "01001" + "000" == "01001000";
  }

  /** Too few digits: the invalid message, whatever the port would answer. */
  lemma ScenarioTooShort(port: Cep -> LookupOutcome)
    ensures ExecuteAsync(Some(ConsultaCepRequest("123")), port) == Failure(InvalidMessage, "", "")
  {
    assert DigitsOnly("123") == "123" by { DigitsOnlyKeepsDigits("123"); }
    NotBlank("123", 0);
  }
}
