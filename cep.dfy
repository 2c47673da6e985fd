/**
 * The `Cep` value object: a Brazilian postal code normalised to exactly eight
 * ASCII digits, rendered either as the bare digits or masked as `NNNNN-NNN`.
 */
module ValueObjects {
  import opened Wrappers
  import opened Text

  /** `readonly record struct Cep`: equality is structural over `Value`. */
  datatype Cep = Cep(value: string)

  /** The two exceptions the constructor throws. */
  datatype CepError =
    | EmptyInput      // ArgumentNullException: null, empty or white-space input
    | MalformedInput  // ArgumentException: not exactly 8 digits after filtering

  /** Exactly eight ASCII digits: the only strings a constructed `Cep` holds. */
  predicate AllDigits(s: string) {
    forall i :: 0 <= i < |s| ==> IsAsciiDigit(s[i])
  }

  predicate IsCanonical(s: string) {
    |s| == 8 && AllDigits(s)
  }

  predicate NoDigits(s: string) {
    forall i :: 0 <= i < |s| ==> !IsAsciiDigit(s[i])
  }

  /** `Regex.Replace(value, "[^0-9]", "")`: keep the ASCII digits, in order. */
  function DigitsOnly(s: string): (r: string)
    ensures |r| <= |s|
    ensures AllDigits(r)
  {
    if s == [] then ""
    else (if IsAsciiDigit(s[0]) then [s[0]] else "") + DigitsOnly(s[1..])
  }

  /** The constructor `Cep(string)`: blank check first, then filter, then length check. */
  function NewCep(raw: Option<string>): (r: Result<Cep, CepError>)
    ensures r == Err(EmptyInput) <==> IsNullOrWhiteSpace(raw)
    ensures r == Err(MalformedInput) <==> !IsNullOrWhiteSpace(raw) && |DigitsOnly(raw.value)| != 8
    ensures r.Ok? ==> IsCanonical(r.value.value) && r.value.value == DigitsOnly(raw.value)
  {
    if IsNullOrWhiteSpace(raw) then Err(EmptyInput)
    else
      var normalized := DigitsOnly(raw.value);
      if |normalized| != 8 then Err(MalformedInput) else Ok(Cep(normalized))
  }

  /** `ToString()`: the bare digits, unchanged (see `ValueRoundTrip` for the way back). */
  function ToString(c: Cep): (r: string)
    ensures r == c.value
  {
    c.value
  }

  /** `ToMaskedString()`: `NNNNN-NNN` for an 8-character value, the value itself otherwise. */
  function ToMaskedString(c: Cep): (r: string)
    ensures |c.value| == 8 ==> |r| == 9 && r[5] == '-' && r[..5] == c.value[..5] && r[6..] == c.value[5..]
    ensures |c.value| != 8 ==> r == c.value
  {
    if |c.value| != 8 then c.value
    else c.value[..5] + "-" + c.value[5..8]
  }

  /** Filtering distributes over concatenation. */
  lemma {:induction false} DigitsOnlyAppend(a: string, b: string)
    ensures DigitsOnly(a + b) == DigitsOnly(a) + DigitsOnly(b)
  {
    if a == [] {
      assert a + b == b;
    } else {
      var head := if IsAsciiDigit(a[0]) then [a[0]] else "";
      assert (a + b)[0] == a[0] && (a + b)[1..] == a[1..] + b;
      assert DigitsOnly(a + b) == head + DigitsOnly(a[1..] + b);
      DigitsOnlyAppend(a[1..], b);
      assert DigitsOnly(a) == head + DigitsOnly(a[1..]);
    }
  }

  /** A string of ASCII digits is left unchanged by the filter. */
  lemma {:induction false} DigitsOnlyKeepsDigits(s: string)
    requires AllDigits(s)
    ensures DigitsOnly(s) == s
  {
    if s != [] {
      DigitsOnlyKeepsDigits(s[1..]);
    }
  }

  /** A string without ASCII digits (masks, spaces, non-ASCII digits) filters to empty. */
  lemma {:induction false} DigitsOnlyDropsNonDigits(s: string)
    requires NoDigits(s)
    ensures DigitsOnly(s) == ""
  {
    if s != [] {
      DigitsOnlyDropsNonDigits(s[1..]);
    }
  }

  /** Constructing a `Cep` from an existing one's `Value` gives it back. */
  lemma ValueRoundTrip(c: Cep)
    requires IsCanonical(c.value)
    ensures NewCep(Some(c.value)) == Ok(c)
  {
    DigitIsNotWhiteSpace(c.value[0]);
    NotBlank(c.value, 0);
    DigitsOnlyKeepsDigits(c.value);
  }

  /** Removing the mask of `ToMaskedString()` gives the same `Cep` back. */
  lemma MaskedRoundTrip(c: Cep)
    requires IsCanonical(c.value)
    ensures NewCep(Some(ToMaskedString(c))) == Ok(c)
  {
    var v := c.value;
    var m := ToMaskedString(c);
    assert m == v[..5] + "-" + v[5..];
    DigitIsNotWhiteSpace(m[0]);
    NotBlank(m, 0);
    DigitsOnlyAppend(v[..5] + "-", v[5..]);
    DigitsOnlyAppend(v[..5], "-");
    DigitsOnlyKeepsDigits(v[..5]);
    DigitsOnlyKeepsDigits(v[5..]);
    DigitsOnlyDropsNonDigits("-");
    assert v[..5] + v[5..] == v;
    assert DigitsOnly(m) == v;
    assert !IsNullOrWhiteSpace(Some(m));
  }

  /** Masking, unmasking and masking again yields the first masked form. */
  lemma MaskUnmaskMask(c: Cep)
    requires IsCanonical(c.value)
    ensures var m := ToMaskedString(c);
      NewCep(Some(m)).Ok? && ToMaskedString(NewCep(Some(m)).value) == m
  {
    MaskedRoundTrip(c);
  }

  /** A blank input holds no ASCII digit. */
  lemma {:induction false} BlankHasNoDigits(s: string)
    requires IsNullOrWhiteSpace(Some(s))
    ensures DigitsOnly(s) == ""
  {
    forall i | 0 <= i < |s|
      ensures !IsAsciiDigit(s[i])
    {
      if IsAsciiDigit(s[i]) {
        DigitIsNotWhiteSpace(s[i]);
      }
    }
    DigitsOnlyDropsNonDigits(s);
  }

  /** Any input holding exactly eight ASCII digits, wherever they stand, constructs the code of those digits. */
  lemma {:induction false} EightDigitsConstruct(s: string)
    requires |DigitsOnly(s)| == 8
    ensures NewCep(Some(s)) == Ok(Cep(DigitsOnly(s)))
  {
    if IsNullOrWhiteSpace(Some(s)) {
      BlankHasNoDigits(s);
    }
  }

  /** Eight digits split by one separator block normalise to those digits. */
  lemma SeparatedDigits(a: string, sep: string, b: string)
    requires AllDigits(a) && AllDigits(b) && |a| + |b| == 8 && NoDigits(sep)
    ensures NewCep(Some(a + sep + b)) == Ok(Cep(a + b))
  {
    var s := a + sep + b;
    assert DigitsOnly(s) == a + b by {
      DigitsOnlyAppend(a + sep, b);
      DigitsOnlyAppend(a, sep);
      DigitsOnlyKeepsDigits(a);
      DigitsOnlyKeepsDigits(b);
      DigitsOnlyDropsNonDigits(sep);
    }
    EightDigitsConstruct(s);
  }

  /** Two codes are equal exactly when their values are equal. */
  lemma ValueEquality(a: Cep, b: Cep)
    ensures a == b <==> a.value == b.value
  {
  }
}
