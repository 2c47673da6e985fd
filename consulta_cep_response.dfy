/** The response record handed back to every caller of the lookup. */
module DTOs {
  import opened Wrappers
  import opened ValueObjects
  import opened Entities

  /** `ConsultaCepResponse`: unset reference fields are null. */
  datatype ConsultaCepResponse = ConsultaCepResponse(
    cep: string,
    cepFormatado: string,
    logradouro: Option<string>,
    complemento: Option<string>,
    bairro: Option<string>,
    localidade: Option<string>,
    uf: Option<string>,
    encontrado: bool,
    mensagem: Option<string>)

  const NotFoundMessage: string := "CEP não encontrado"

  /** No address field is set. */
  predicate NoAddress(r: ConsultaCepResponse) {
    r.logradouro == None && r.complemento == None && r.bairro == None
    && r.localidade == None && r.uf == None
  }

  /** A found response carries no message; a not-found response carries a message and no address. */
  predicate WellShaped(r: ConsultaCepResponse) {
    && (r.encontrado <==> r.mensagem == None)
    && (!r.encontrado ==> NoAddress(r))
  }

  /** A not-found response with the given message and postal-code strings. */
  function Failure(message: string, cep: string, cepFormatado: string): (r: ConsultaCepResponse)
    ensures WellShaped(r) && !r.encontrado
    ensures r.mensagem == Some(message) && r.cep == cep && r.cepFormatado == cepFormatado
  {
    ConsultaCepResponse(cep, cepFormatado, None, None, None, None, None, false, Some(message))
  }

  /** `FromDomain(Endereco?)`. */
  function FromDomain(endereco: Option<Endereco>): (r: ConsultaCepResponse)
    ensures WellShaped(r)
    ensures r.encontrado <==> endereco.Some?
    ensures endereco.None? ==> r == Failure(NotFoundMessage, "", "")
    ensures endereco.Some? ==>
      && r.cep == endereco.value.cep.value
      && r.cepFormatado == ToMaskedString(endereco.value.cep)
      && r.logradouro == endereco.value.logradouro
      && r.complemento == endereco.value.complemento
      && r.bairro == endereco.value.bairro
      && r.localidade == endereco.value.localidade
      && r.uf == endereco.value.uf
  {
    match endereco
    case None => Failure(NotFoundMessage, "", "")
    case Some(e) =>
      ConsultaCepResponse(e.cep.value, ToMaskedString(e.cep), e.logradouro, e.complemento,
                          e.bairro, e.localidade, e.uf, true, None)
  }

  /** The IBGE and GIA codes are not carried: addresses differing only there give equal responses. */
  lemma IbgeAndGiaDropped(e: Endereco, ibge: Option<string>, gia: Option<string>)
    ensures FromDomain(Some(e)) == FromDomain(Some(e.(ibge := ibge, gia := gia)))
  {
  }

  /** A found response's two postal-code strings both rebuild the address's `Cep`. */
  lemma FoundCodesRoundTrip(e: Endereco)
    requires IsCanonical(e.cep.value)
    ensures var r := FromDomain(Some(e));
      NewCep(Some(r.cep)) == Ok(e.cep) && NewCep(Some(r.cepFormatado)) == Ok(e.cep)
  {
    ValueRoundTrip(e.cep);
    MaskedRoundTrip(e.cep);
  }
}
