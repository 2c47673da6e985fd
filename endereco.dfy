/**
 * The `Endereco` entity: a postal code plus seven optional descriptive fields,
 * each coerced from blank to null once, at construction.
 */
module Entities {
  import opened Wrappers
  import opened Text
  import opened ValueObjects

  datatype Endereco = Endereco(
    cep: Cep,
    logradouro: Option<string>,
    complemento: Option<string>,
    bairro: Option<string>,
    localidade: Option<string>,
    uf: Option<string>,
    ibge: Option<string>,
    gia: Option<string>)

  /** A stored field is null exactly when its argument was blank, and is the argument otherwise. */
  predicate CoercedFrom(field: Option<string>, arg: Option<string>) {
    && (field == None <==> IsNullOrWhiteSpace(arg))
    && (field != None ==> field == arg)
  }

  /** `string.IsNullOrWhiteSpace(x) ? null : x`. */
  function Coerce(arg: Option<string>): (r: Option<string>)
    ensures CoercedFrom(r, arg)
  {
    if IsNullOrWhiteSpace(arg) then None else arg
  }

  /** Invariant of every constructed `Endereco`: no stored optional field is blank. */
  predicate NoBlankFields(e: Endereco) {
    && (e.logradouro == None || !IsNullOrWhiteSpace(e.logradouro))
    && (e.complemento == None || !IsNullOrWhiteSpace(e.complemento))
    && (e.bairro == None || !IsNullOrWhiteSpace(e.bairro))
    && (e.localidade == None || !IsNullOrWhiteSpace(e.localidade))
    && (e.uf == None || !IsNullOrWhiteSpace(e.uf))
    && (e.ibge == None || !IsNullOrWhiteSpace(e.ibge))
    && (e.gia == None || !IsNullOrWhiteSpace(e.gia))
  }

  /** The constructor `Endereco(cep, logradouro, ..., gia)`. */
  function NewEndereco(
    cep: Cep,
    logradouro: Option<string>,
    complemento: Option<string>,
    bairro: Option<string>,
    localidade: Option<string>,
    uf: Option<string>,
    ibge: Option<string>,
    gia: Option<string>): (e: Endereco)
    ensures e.cep == cep
    ensures CoercedFrom(e.logradouro, logradouro) && CoercedFrom(e.complemento, complemento)
    ensures CoercedFrom(e.bairro, bairro) && CoercedFrom(e.localidade, localidade)
    ensures CoercedFrom(e.uf, uf) && CoercedFrom(e.ibge, ibge) && CoercedFrom(e.gia, gia)
    ensures NoBlankFields(e)
  {
    Endereco(cep, Coerce(logradouro), Coerce(complemento), Coerce(bairro),
             Coerce(localidade), Coerce(uf), Coerce(ibge), Coerce(gia))
  }

  /** Rebuilding an address from its own fields changes nothing. */
  lemma RebuildIsIdentity(e: Endereco)
    requires NoBlankFields(e)
    ensures NewEndereco(e.cep, e.logradouro, e.complemento, e.bairro,
                        e.localidade, e.uf, e.ibge, e.gia) == e
  {
  }

  /** Coercion is idempotent: constructing twice is constructing once. */
  lemma CoercionIdempotent(
    cep: Cep, l: Option<string>, c: Option<string>, b: Option<string>,
    lo: Option<string>, uf: Option<string>, ibge: Option<string>, gia: Option<string>)
    ensures var e := NewEndereco(cep, l, c, b, lo, uf, ibge, gia);
      NewEndereco(e.cep, e.logradouro, e.complemento, e.bairro,
                  e.localidade, e.uf, e.ibge, e.gia) == e
  {
    RebuildIsIdentity(NewEndereco(cep, l, c, b, lo, uf, ibge, gia));
  }

  /** `", "` between street and district only when both render non-empty. */
  function Separator(e: Endereco): (sep: string)
    ensures sep == ", " <==> !IsNullOrEmpty(e.logradouro) && !IsNullOrEmpty(e.bairro)
    ensures sep == "" || sep == ", "
  {
    if IsNullOrEmpty(e.logradouro) || IsNullOrEmpty(e.bairro) then "" else ", "
  }

  /**
   * `ToString()`: "street, district - city/UF (CEP: NNNNN-NNN)", with null fields
   * rendered empty.
   */
  function ToString(e: Endereco): (r: string)
    ensures r == OrEmpty(e.logradouro)
      + (Separator(e) + OrEmpty(e.bairro) + " - " + OrEmpty(e.localidade))
      + ("/" + OrEmpty(e.uf) + " (CEP: " + ToMaskedString(e.cep) + ")")
    ensures var street := OrEmpty(e.logradouro);
      |r| >= |street| && r[..|street|] == street
    ensures var tail := "/" + OrEmpty(e.uf) + " (CEP: " + ToMaskedString(e.cep) + ")";
      |r| >= |tail| && r[|r| - |tail|..] == tail
    ensures var street := OrEmpty(e.logradouro);
      street != "" ==>
        (|r| >= |street| + 2 && (r[|street|..|street| + 2] == ", " <==> OrEmpty(e.bairro) != ""))
  {
    var street := OrEmpty(e.logradouro);
    var sep := Separator(e);
    var middle := sep + OrEmpty(e.bairro) + " - " + OrEmpty(e.localidade);
    var tail := "/" + OrEmpty(e.uf) + " (CEP: " + ToMaskedString(e.cep) + ")";
    var r := street + middle + tail;
    assert |middle| >= 3;
    assert r[..|street|] == (street + middle)[..|street|] == street;
    assert r[|street|..|street| + 2] == (street + middle)[|street|..|street| + 2] == middle[..2];
    assert street != "" && OrEmpty(e.bairro) != "" ==> sep == ", " && middle[..2] == ", ";
    assert street != "" && OrEmpty(e.bairro) == "" ==> sep == "" && middle[..2] == " -";
    r
  }
}
