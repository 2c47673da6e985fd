/**
 * `HttpCepLookupService.BuscarPorCepAsync`: the classification of one reply of
 * the external directory service into an address, a miss, or a cancellation.
 * The HTTP exchange itself is an abstract reply.
 */
module HttpCep {
  import opened Wrappers
  import opened ValueObjects
  import opened Entities
  import opened Services

  /** `ViaCepResponse`: the fields of the JSON body, each possibly missing. */
  datatype ViaCepResponse = ViaCepResponse(
    cep: Option<string>,
    logradouro: Option<string>,
    complemento: Option<string>,
    bairro: Option<string>,
    localidade: Option<string>,
    uf: Option<string>,
    ibge: Option<string>,
    gia: Option<string>,
    ddd: Option<string>,
    siafi: Option<string>,
    erro: Option<bool>)

  /** What reading the body of a successful reply ends in. */
  datatype Body =
    | Json(dto: Option<ViaCepResponse>)  // deserialised; `None` is a JSON `null` body
    | ReadCanceled                       // OperationCanceledException while reading
    | ReadFaulted                        // any other exception while reading (e.g. malformed JSON)

  /** What the GET of the request path ends in. */
  datatype HttpReply =
    | Response(isSuccessStatusCode: bool, body: Body)
    | SendCanceled   // OperationCanceledException from GetAsync (caller cancel or client timeout)
    | SendFaulted    // any other exception from GetAsync (network failure)

  /** The exception kinds the `try` block can raise. */
  datatype Raised = OperationCanceled | ArgumentNull | Argument | Other

  /** How the `try` block ends: a returned value or a raised exception. */
  datatype Attempt = Returned(endereco: Option<Endereco>) | Threw(raised: Raised)

  /** The relative request path `ws/{cep}/json/`. */
  function RequestPath(cep: Cep): (path: string)
    ensures |path| == |cep.value| + 9
    ensures path[..3] == "ws/" && path[|path| - 6..] == "/json/"
    ensures path[3..|path| - 6] == cep.value
  {
    "ws/" + cep.value + "/json/"
  }

  /** The digits of the request path are exactly the code's digits. */
  lemma RequestPathDigits(cep: Cep)
    requires IsCanonical(cep.value)
    ensures DigitsOnly(RequestPath(cep)) == cep.value
  {
    assert RequestPath(cep) == ("ws/" + cep.value) + "/json/";
    DigitsOnlyAppend("ws/" + cep.value, "/json/");
    DigitsOnlyAppend("ws/", cep.value);
    DigitsOnlyDropsNonDigits("ws/");
    DigitsOnlyDropsNonDigits("/json/");
    DigitsOnlyKeepsDigits(cep.value);
  }

  /** The exception a constructor failure raises. */
  function CepException(e: CepError): (x: Raised)
    ensures x != OperationCanceled && x != Other
  {
    match e
    case EmptyInput => ArgumentNull
    case MalformedInput => Argument
  }

  /** The CEP the address is built with: the one the source echoes, else the requested one. */
  function EchoedCep(cep: Cep, dto: ViaCepResponse): (s: string)
    ensures dto.cep.Some? ==> s == dto.cep.value
    ensures dto.cep.None? ==> s == cep.value
  {
    match dto.cep
    case Some(echoed) => echoed
    case None => cep.value
  }

  /** The reply raised `OperationCanceledException`, while sending or while reading the body. */
  predicate IsCancellation(reply: HttpReply) {
    reply == SendCanceled || reply == Response(true, ReadCanceled)
  }

  /** The reply raised some other exception: a network fault, or a body that cannot be read. */
  predicate IsFault(reply: HttpReply) {
    reply == SendFaulted || reply == Response(true, ReadFaulted)
  }

  /** The body of the `try` block, from the GET up to building the address. */
  function TryBlock(cep: Cep, reply: HttpReply): (a: Attempt)
    ensures a == Threw(OperationCanceled) <==> IsCancellation(reply)
    ensures IsFault(reply) ==> a == Threw(Other)
    ensures a.Returned? && a.endereco.Some? ==>
      reply.Response? && reply.isSuccessStatusCode && reply.body.Json? && reply.body.dto.Some?
      && reply.body.dto.value.erro != Some(true)
  {
    match reply
    case SendCanceled => Threw(OperationCanceled)
    case SendFaulted => Threw(Other)
    case Response(ok, body) =>
      if !ok then Returned(None)
      else
        match body
        case ReadCanceled => Threw(OperationCanceled)
        case ReadFaulted => Threw(Other)
        case Json(None) => Returned(None)
        case Json(Some(dto)) =>
          if dto.erro == Some(true) then Returned(None)
          else
            match NewCep(Some(EchoedCep(cep, dto)))
            case Err(e) => Threw(CepException(e))
            case Ok(echoed) =>
              Returned(Some(NewEndereco(echoed, dto.logradouro, dto.complemento, dto.bairro,
                                        dto.localidade, dto.uf, dto.ibge, dto.gia)))
  }

  /**
   * The `catch` clauses: a cancellation is rethrown only while the caller's token is
   * cancelled; every other exception is logged and becomes null.
   */
  function Catch(a: Attempt, tokenCancelled: bool): (o: LookupOutcome)
    ensures o != Failed
    ensures o == Cancelled <==> a == Threw(OperationCanceled) && tokenCancelled
    ensures a.Returned? ==> (if a.endereco.Some? then o == Found(a.endereco.value) else o == Absent)
    ensures o.Found? <==> a.Returned? && a.endereco.Some?
    ensures a.Threw? && !(a.raised == OperationCanceled && tokenCancelled) ==> o == Absent
  {
    match a
    case Returned(None) => Absent
    case Returned(Some(e)) => Found(e)
    case Threw(OperationCanceled) => if tokenCancelled then Cancelled else Absent
    case Threw(_) => Absent
  }

  /** `BuscarPorCepAsync(cep, ct)`: `send` answers the GET of a path. */
  function BuscarPorCepAsync(cep: Cep, send: string -> HttpReply, tokenCancelled: bool): (o: LookupOutcome)
    ensures o != Failed
    ensures o == Cancelled <==> tokenCancelled && IsCancellation(send(RequestPath(cep)))
    ensures IsFault(send(RequestPath(cep))) ==> o == Absent
  {
    Catch(TryBlock(cep, send(RequestPath(cep))), tokenCancelled)
  }

  /** The port as the use case sees it, for a fixed transport and token. */
  function Port(send: string -> HttpReply, tokenCancelled: bool): (port: Cep -> LookupOutcome)
    ensures forall c :: port(c) == BuscarPorCepAsync(c, send, tokenCancelled)
    ensures forall c :: port(c) != Failed
  {
    cep => BuscarPorCepAsync(cep, send, tokenCancelled)
  }

  /** A reply whose status is not a success is a miss. */
  lemma NonSuccessStatusIsAbsent(cep: Cep, reply: HttpReply, tokenCancelled: bool)
    requires reply.Response? && !reply.isSuccessStatusCode
    ensures Catch(TryBlock(cep, reply), tokenCancelled) == Absent
  {
  }

  /** A null body is a miss. */
  lemma NullBodyIsAbsent(cep: Cep, tokenCancelled: bool)
    ensures Catch(TryBlock(cep, Response(true, Json(None))), tokenCancelled) == Absent
  {
  }

  /** A body with `erro: true` is a miss. */
  lemma ErroMarkerIsAbsent(cep: Cep, dto: ViaCepResponse, tokenCancelled: bool)
    requires dto.erro == Some(true)
    ensures Catch(TryBlock(cep, Response(true, Json(Some(dto)))), tokenCancelled) == Absent
  {
  }

  /**
   * With `erro` false or missing, an address is built exactly when the echoed CEP (or,
   * when missing, the requested one) is valid; it then carries that CEP and the coerced fields.
   */
  lemma BuildPath(cep: Cep, dto: ViaCepResponse, tokenCancelled: bool)
    requires dto.erro != Some(true)
    ensures var o := Catch(TryBlock(cep, Response(true, Json(Some(dto)))), tokenCancelled);
      var echoed := NewCep(Some(EchoedCep(cep, dto)));
      && (o.Found? <==> echoed.Ok?)
      && (echoed.Err? ==> o == Absent)
      && (o.Found? ==>
            && o.endereco.cep == echoed.value
            && IsCanonical(o.endereco.cep.value)
            && NoBlankFields(o.endereco)
            && CoercedFrom(o.endereco.logradouro, dto.logradouro)
            && CoercedFrom(o.endereco.complemento, dto.complemento)
            && CoercedFrom(o.endereco.bairro, dto.bairro)
            && CoercedFrom(o.endereco.localidade, dto.localidade)
            && CoercedFrom(o.endereco.uf, dto.uf)
            && CoercedFrom(o.endereco.ibge, dto.ibge)
            && CoercedFrom(o.endereco.gia, dto.gia))
  {
  }

  /** Without an echoed CEP, a valid requested CEP is the address's CEP. */
  lemma MissingEchoUsesRequestedCep(cep: Cep, dto: ViaCepResponse, tokenCancelled: bool)
    requires dto.erro != Some(true) && dto.cep == None && IsCanonical(cep.value)
    ensures var o := Catch(TryBlock(cep, Response(true, Json(Some(dto)))), tokenCancelled);
      o.Found? && o.endereco.cep == cep
  {
    ValueRoundTrip(cep);
  }

  /** A cancellation without a cancelled caller token (a client timeout) is a miss. */
  lemma TimeoutIsAbsent(cep: Cep, reply: HttpReply)
    requires IsCancellation(reply)
    ensures Catch(TryBlock(cep, reply), false) == Absent
    ensures Catch(TryBlock(cep, reply), true) == Cancelled
  {
  }

  /** A network fault or an unreadable body (malformed JSON) is a miss, whatever the token. */
  lemma FaultIsAbsent(cep: Cep, reply: HttpReply, tokenCancelled: bool)
    requires IsFault(reply)
    ensures Catch(TryBlock(cep, reply), tokenCancelled) == Absent
  {
  }

  /** Every address the adapter returns has a valid CEP and no blank field. */
  lemma FoundIsWellFormed(cep: Cep, send: string -> HttpReply, tokenCancelled: bool)
    ensures var o := BuscarPorCepAsync(cep, send, tokenCancelled);
      o.Found? ==> IsCanonical(o.endereco.cep.value) && NoBlankFields(o.endereco)
  {
  }
}
