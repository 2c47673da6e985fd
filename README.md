# CEP lookup pipeline, modelled in Dafny

CepAgent turns a Brazilian postal code (a CEP) into a street address. It asks
the ViaCEP directory service and sends back one structured response. This
project models the pipeline's core and proves properties about it:

- `ValueObjects` (`cep.dfy`) is the `Cep` value object. The constructor rejects
  blank input. It then keeps only the ASCII digits `0`-`9`, in their original
  order, and requires exactly eight of them. The code renders as bare digits or
  masked as `NNNNN-NNN`.
- `Entities` (`endereco.dfy`) is the `Endereco` entity. Its constructor turns
  every blank optional field into null, and it has a display string.
- `DTOs` (`consulta_cep_response.dfy`) is the `ConsultaCepResponse` record and
  `FromDomain`.
- `Services` (`cep_lookup_service.dfy`) is the lookup port
  `ICepLookupService`. It is modelled as the four outcomes a caller can see:
  `Found`, `Absent` (null), `Cancelled` (an `OperationCanceledException`) and
  `Failed` (any other exception).
- `UseCases` (`consultar_cep_use_case.dfy`) is `ConsultarCepUseCase.ExecuteAsync`.
  It is a total function of the request and of the port, where the port is a
  function from `Cep` to outcome. That lets lemmas say which inputs ever reach
  the port.
- `HttpCep` (`http_cep_lookup_service.dfy`) is the decision chain of
  `HttpCepLookupService.BuscarPorCepAsync`. The HTTP exchange is an abstract
  reply: the send was cancelled, the send faulted, or a response came back with
  a status flag and a body-read outcome. The `try` block gives an `Attempt`
  (a returned value or a raised exception kind). The `catch` clauses map that
  to a port outcome.
- `McpCepTools` (`cep_tools.dfy`) is the `BuscarCepAsync` tool. It puts a blank
  guard in front of the use case. The lemmas that compose the tool, the use case
  and the HTTP adapter are here.
- `McpDebugTools` (`debug_tools.dfy`) holds `Echo` and `ReverseEcho`.
  `ReverseEcho` copies the message into a `char` array and reverses it in place,
  as `Array.Reverse` does. That loop is a method proved against the function
  `Reversed`.
- `Wrappers` and `Text` are helpers. A .NET string that may be null is an
  `Option<string>`. `IsNullOrWhiteSpace` uses the fixed character set of
  `char.IsWhiteSpace`.

The Portuguese messages are copied exactly from each call site. The use case
says `"CEP não informado."`, while the tool says `"CEP nao informado."`.

When ViaCEP echoes no CEP, the address keeps the requested one. An echoed CEP
that is not valid makes the whole lookup a miss.

## Model

| member | source | states |
|---|---|---|
| Text.IsWhiteSpace | CepAgent/CepAgent.Domain/ValueObjects/Cep.cs:26 | `char.IsWhiteSpace` over its fixed character set; no printable ASCII character other than space is white space |
| Text.IsNullOrWhiteSpace | CepAgent/CepAgent.Domain/Entities/Endereco.cs:75 | `string.IsNullOrWhiteSpace`: null, empty, or only white space; every null or empty string counts as blank |
| Text.OrEmpty | CepAgent/CepAgent.McpServer/Tools/DebugTools.cs:25 | `s ?? ""`: a null string gives `""`, any other string is returned as it is |
| Text.IsNullOrEmpty | CepAgent/CepAgent.Domain/Entities/Endereco.cs:90 | `string.IsNullOrEmpty`: holds exactly when the string renders as `""` under `?? ""` |
| Text.AsciiDigitClass | CepAgent/CepAgent.Domain/ValueObjects/Cep.cs:30 | `IsAsciiDigit` is the regex class `[0-9]`: it holds exactly for the ten characters `0123456789` |
| ValueObjects.DigitsOnly | CepAgent/CepAgent.Domain/ValueObjects/Cep.cs:30 | the filter's output is never longer than its input and holds only ASCII digits |
| ValueObjects.DigitsOnlyAppend | CepAgent/CepAgent.Domain/ValueObjects/Cep.cs:30 | filtering a concatenation is concatenating the filtered parts, so the digits keep their original order |
| ValueObjects.DigitsOnlyKeepsDigits | CepAgent/CepAgent.Domain/ValueObjects/Cep.cs:30 | a string of ASCII digits passes the filter unchanged |
| ValueObjects.DigitsOnlyDropsNonDigits | CepAgent/CepAgent.Domain/ValueObjects/Cep.cs:30 | a string with no ASCII digit (masks, spaces, non-ASCII digits) filters to the empty string |
| ValueObjects.NewCep | CepAgent/CepAgent.Domain/ValueObjects/Cep.cs:24-36 | empty-input error exactly for null, empty or white-space input (checked before filtering); malformed-input error exactly for non-blank input whose digit count is not 8; on success the value is the input's digits in order, exactly 8 ASCII digits |
| ValueObjects.ToString | CepAgent/CepAgent.Domain/ValueObjects/Cep.cs:42 | the rendered string is the value unchanged; `ValueRoundTrip` gives the way back |
| ValueObjects.ToMaskedString | CepAgent/CepAgent.Domain/ValueObjects/Cep.cs:47-53 | an 8-character value gives 9 characters: the first five, `'-'` at index 5, then the last three; any other value is returned unchanged |
| ValueObjects.ValueRoundTrip | CepAgent/CepAgent.Domain/ValueObjects/Cep.cs:30-35 | constructing from a valid code's `Value` succeeds with the same code |
| ValueObjects.MaskedRoundTrip | CepAgent/CepAgent.Domain/ValueObjects/Cep.cs:30-52 | constructing from a valid code's masked form succeeds with the same code |
| ValueObjects.MaskUnmaskMask | CepAgent/CepAgent.Domain/ValueObjects/Cep.cs:47-53 | masking, unmasking and masking again returns the first masked form |
| ValueObjects.BlankHasNoDigits | CepAgent/CepAgent.Domain/ValueObjects/Cep.cs:26-30 | null-or-white-space input holds no ASCII digit, so the blank check never rejects a string the digit filter would accept |
| ValueObjects.EightDigitsConstruct | CepAgent/CepAgent.Domain/ValueObjects/Cep.cs:26-35 | every input holding exactly eight ASCII digits, with any mask, spaces or other characters anywhere (`"01.001-000"`, `" 01001-000"`), constructs the code made of those digits in order |
| ValueObjects.SeparatedDigits | CepAgent/CepAgent.Domain/ValueObjects/Cep.cs:29-35 | eight digits split by one non-digit separator block construct the code made of those digits |
| ValueObjects.ValueEquality | CepAgent/CepAgent.Domain/ValueObjects/Cep.cs:11 | two codes are equal exactly when their values are equal |
| Entities.Coerce | CepAgent/CepAgent.Domain/Entities/Endereco.cs:75 | the result is null exactly when the argument is null, empty or white space, and is the argument verbatim otherwise |
| Entities.NewEndereco | CepAgent/CepAgent.Domain/Entities/Endereco.cs:65-82 | the CEP is stored unchanged; each of the seven optional fields is null exactly when its argument was blank and verbatim otherwise; no stored field is blank |
| Entities.RebuildIsIdentity | CepAgent/CepAgent.Domain/Entities/Endereco.cs:75-81 | rebuilding an address with no blank field from its own fields gives an address with identical fields |
| Entities.CoercionIdempotent | CepAgent/CepAgent.Domain/Entities/Endereco.cs:75-81 | constructing an address from a constructed address's fields gives an address with identical fields |
| Entities.Separator | CepAgent/CepAgent.Domain/Entities/Endereco.cs:90 | the separator is `", "` exactly when street and district are both non-empty, and `""` otherwise |
| Entities.ToString | CepAgent/CepAgent.Domain/Entities/Endereco.cs:88-91 | the display is street, separator, district, `" - "`, city, `"/"`, UF, `" (CEP: "`, masked code, `")"`, with null fields rendered empty; it starts with the street (null as empty) and ends with `"/" + UF + " (CEP: " + masked code + ")"`; after a non-empty street comes `", "` exactly when the district is non-empty |
| DTOs.FromDomain | CepAgent/CepAgent.Application/DTOs/ConsultaCepResponse.cs:62-87 | found exactly for an address; no address gives `"CEP não encontrado"` with empty codes and no fields; an address gives no message, its digits and masked code, and its five descriptive fields verbatim; found exactly when there is no message |
| DTOs.IbgeAndGiaDropped | CepAgent/CepAgent.Application/DTOs/ConsultaCepResponse.cs:75-86 | addresses that differ only in IBGE and GIA codes give equal responses |
| DTOs.FoundCodesRoundTrip | CepAgent/CepAgent.Application/DTOs/ConsultaCepResponse.cs:79-80 | both postal-code strings of a found response rebuild the address's `Cep` |
| DTOs.Failure | CepAgent/CepAgent.Application/UseCases/ConsultarCepUseCase.cs:49-55 | a not-found response carries its message and the given codes, and no address |
| UseCases.ExecuteAsync | CepAgent/CepAgent.Application/UseCases/ConsultarCepUseCase.cs:37-95 | a null request is excluded; blank input gives `"CEP não informado."`; non-blank input without exactly 8 digits gives the invalid message; both have empty codes; otherwise the port is asked for the normalised code: Found and Absent map through `FromDomain`, Cancelled gives `"Operação cancelada."` and Failed gives the generic error, both carrying the requested digits and masked code; every response is well shaped |
| UseCases.InvalidInputNeverReachesPort | CepAgent/CepAgent.Application/UseCases/ConsultarCepUseCase.cs:42-71 | when construction fails, any two ports give the same response |
| UseCases.PortQueriedOnlyAtNormalisedCep | CepAgent/CepAgent.Application/UseCases/ConsultarCepUseCase.cs:45-71 | ports that agree on the constructed code give the same response |
| UseCases.EncontradoOnlyOnFound | CepAgent/CepAgent.Application/UseCases/ConsultarCepUseCase.cs:41-94 | `Encontrado` holds exactly when the input constructs a code and the port finds an address for it |
| UseCases.MessagesDistinct | CepAgent/CepAgent.Application/UseCases/ConsultarCepUseCase.cs:47-94 | the five failure messages are pairwise distinct |
| UseCases.NotInformedOnlyForBlank | CepAgent/CepAgent.Application/UseCases/ConsultarCepUseCase.cs:47-66 | the not-informed message appears exactly for blank input, never for malformed input |
| UseCases.ScenarioMaskedInputFound | CepAgent/CepAgent.Application/UseCases/ConsultarCepUseCase.cs:45-72 | `"01001-000"` with a matching found address is found with codes `"01001000"` and `"01001-000"` |
| UseCases.ScenarioTooShort | CepAgent/CepAgent.Application/UseCases/ConsultarCepUseCase.cs:57-66 | `"123"` gives the invalid message with empty codes, whatever the port |
| HttpCep.RequestPath | CepAgent/CepAgent.Infrastructure/Http/Cep/HttpCepLookupService.cs:47 | the path is `"ws/"`, then the code's value, then `"/json/"` |
| HttpCep.RequestPathDigits | CepAgent/CepAgent.Infrastructure/Http/Cep/HttpCepLookupService.cs:47 | the only digits in the path of a valid code are that code's digits |
| HttpCep.CepException | CepAgent/CepAgent.Infrastructure/Http/Cep/HttpCepLookupService.cs:72 | a failed construction of the echoed code raises an argument exception, never a cancellation |
| HttpCep.EchoedCep | CepAgent/CepAgent.Infrastructure/Http/Cep/HttpCepLookupService.cs:72 | the echoed CEP when present, else the requested code's value |
| HttpCep.TryBlock | CepAgent/CepAgent.Infrastructure/Http/Cep/HttpCepLookupService.cs:44-83 | a cancellation is raised exactly when sending or reading is cancelled; a network fault or a failed read raises a generic exception; an address is returned only after a success status, a non-null body and `erro` not true |
| HttpCep.Catch | CepAgent/CepAgent.Infrastructure/Http/Cep/HttpCepLookupService.cs:84-93 | never Failed; Cancelled exactly for a cancellation while the caller's token is cancelled; every other exception gives Absent; Found exactly when an address was returned, which passes through, and a returned null is Absent |
| HttpCep.BuscarPorCepAsync | CepAgent/CepAgent.Infrastructure/Http/Cep/HttpCepLookupService.cs:39-94 | the adapter never reports Failed, reports Cancelled exactly when the caller's token is cancelled and the reply to the request path was a cancellation, and reports Absent for a network fault or an unreadable body |
| HttpCep.NonSuccessStatusIsAbsent | CepAgent/CepAgent.Infrastructure/Http/Cep/HttpCepLookupService.cs:50-54 | a non-success status is a miss |
| HttpCep.NullBodyIsAbsent | CepAgent/CepAgent.Infrastructure/Http/Cep/HttpCepLookupService.cs:56-62 | a null body is a miss |
| HttpCep.ErroMarkerIsAbsent | CepAgent/CepAgent.Infrastructure/Http/Cep/HttpCepLookupService.cs:64-68 | a body with `erro: true` is a miss |
| HttpCep.BuildPath | CepAgent/CepAgent.Infrastructure/Http/Cep/HttpCepLookupService.cs:71-93 | with `erro` false or missing, an address comes back exactly when the echoed-or-requested CEP is valid, and the address then has that CEP, a canonical value and all seven fields coerced from the body; an invalid echoed CEP is a miss |
| HttpCep.MissingEchoUsesRequestedCep | CepAgent/CepAgent.Infrastructure/Http/Cep/HttpCepLookupService.cs:72 | without an echoed CEP, the address carries the requested code |
| HttpCep.TimeoutIsAbsent | CepAgent/CepAgent.Infrastructure/Http/Cep/HttpCepLookupService.cs:84-93 | a cancellation is a miss when the caller's token is not cancelled (a client timeout), and is rethrown when it is |
| HttpCep.Port | CepAgent/CepAgent.Infrastructure/Configuration/ServiceCollectionExtensions.cs:25 | the port bound to `ICepLookupService` answers every code as `BuscarPorCepAsync` does, and never with Failed |
| HttpCep.FaultIsAbsent | CepAgent/CepAgent.Infrastructure/Http/Cep/HttpCepLookupService.cs:89-93 | a network fault or a body that cannot be read (malformed JSON) is a miss, whatever the token |
| HttpCep.FoundIsWellFormed | CepAgent/CepAgent.Infrastructure/Http/Cep/HttpCepLookupService.cs:71-80 | every address the adapter returns has a canonical CEP and no blank field |
| McpCepTools.BuscarCepAsync | CepAgent/CepAgent.McpServer/Tools/CepTools.cs:32-49 | null or blank input gives `"CEP nao informado."` with empty codes; other input returns the use case's response unchanged; every response is well shaped |
| McpCepTools.BlankNeverReachesUseCase | CepAgent/CepAgent.McpServer/Tools/CepTools.cs:34-46 | for blank input, any two ports give the same response |
| McpCepTools.UseCaseNotInformedUnreachable | CepAgent/CepAgent.McpServer/Tools/CepTools.cs:34-48 | no call of the tool yields the use case's `"CEP não informado."` |
| McpCepTools.AdapterNeverReportsLookupError | CepAgent/CepAgent.Infrastructure/Http/Cep/HttpCepLookupService.cs:84-93 | with the HTTP adapter behind the port, the tool never yields the generic lookup-error message |
| McpDebugTools.Echo | CepAgent/CepAgent.McpServer/Tools/DebugTools.cs:22-26 | the result starts with `"Echo: "`, is 6 characters longer than the message (null as empty), and after the prefix is the message itself |
| McpDebugTools.ReversedAt | CepAgent/CepAgent.McpServer/Tools/DebugTools.cs:37-39 | position `k` of the reversal holds position `len - 1 - k` of the original |
| McpDebugTools.ReversedInvolution | CepAgent/CepAgent.McpServer/Tools/DebugTools.cs:29-39 | reversing twice returns the original string |
| McpDebugTools.ReverseInPlace | CepAgent/CepAgent.McpServer/Tools/DebugTools.cs:38 | the array afterwards holds its former contents reversed |
| McpDebugTools.ReverseEcho | CepAgent/CepAgent.McpServer/Tools/DebugTools.cs:34-40 | null gives `""`; otherwise the result has the message's length and character `i` is the message's character `len - 1 - i` |

## Left out

- The capability host in `CepAgent/CepAgent.McpServer/Program.cs` is left out. It holds DI and logging setup plus reflection-based discovery of `[McpTool]` methods, which is only logged. There is no registry or dispatch to model.
- `CepAgent/CepAgent.Console/Program.cs` is left out. It is an interactive console loop and is pure I/O.
- `CepAgent/CepAgent.Infrastructure/Configuration/ServiceCollectionExtensions.cs` is left out. Apart from binding `ICepLookupService` to `HttpCepLookupService` (`HttpCep.Port`), it sets the base URL, the user agent and the 10-second timeout. The timeout appears only as a cancellation the caller's token did not ask for.
- JSON deserialisation of `ViaCepResponse` is a foreign library. The body is an abstract `Json(dto)` value or a read failure. The `ddd` and `siafi` fields are carried but never read, as in the code.
- HTTP, async/await, `CancellationToken`, exceptions and logging are not modelled as effects. The HTTP reply is a parameter (`send`, a function from path to reply). The token is the boolean `tokenCancelled`. Exceptions are datatype values.
- `default(Cep)`, whose `Value` is null, is not modelled. Neither is the adapter's null-value guard at `HttpCepLookupService.cs:41`, or `ToMaskedString`'s null branch. A modelled `Cep` always holds a string.
- A `ConsultaCepRequest` whose `Cep` is set to null through a `with` expression is not modelled. The request holds a plain string, since its constructor refuses null.
- Strings are sequences of Unicode scalar values, not UTF-16 code units. `ReverseEcho` on a string with surrogate pairs is therefore not modelled, and lengths there count scalar values.
- Regex and Unicode semantics beyond `[^0-9]` and the fixed `char.IsWhiteSpace` set are not modelled.
- The `ArgumentNullException` that `Endereco`'s documentation promises for a null CEP is not modelled. The constructor has no such check, and `Cep` is a struct.
