/**
 * The few .NET string primitives the core relies on, over nullable strings.
 * A .NET string that may be `null` is an `Option<string>`.
 */
module Text {
  import opened Wrappers

  /**
   * `char.IsWhiteSpace`: the characters of the Unicode categories Zs, Zl and Zp
   * together with U+0009..U+000D and U+0085.
   */
  predicate IsWhiteSpace(c: char)
    ensures '!' <= c <= '~' ==> !IsWhiteSpace(c)
  {
    || ('\t' <= c <= '\r')
    || c == ' '
    || c == '\U{0085}'
    || c == '\U{00A0}'
    || c == '\U{1680}'
    || ('\U{2000}' <= c <= '\U{200A}')
    || c == '\U{2028}'
    || c == '\U{2029}'
    || c == '\U{202F}'
    || c == '\U{205F}'
    || c == '\U{3000}'
  }

  /** `string.IsNullOrWhiteSpace`: null, empty, or only white-space characters. */
  predicate IsNullOrWhiteSpace(s: Option<string>)
    ensures IsNullOrEmpty(s) ==> IsNullOrWhiteSpace(s)
  {
    match s
    case None => true
    case Some(t) => forall i :: 0 <= i < |t| ==> IsWhiteSpace(t[i])
  }

  /** `string.IsNullOrEmpty`. */
  predicate IsNullOrEmpty(s: Option<string>)
    ensures IsNullOrEmpty(s) <==> OrEmpty(s) == ""
  {
    s == None || s == Some("")
  }

  /** The regular-expression class `[0-9]`: ASCII digits only. */
  predicate IsAsciiDigit(c: char) {
    '0' <= c <= '9'
  }

  /** `s ?? ""`: a null string renders as the empty string. */
  function OrEmpty(s: Option<string>): (r: string)
    ensures s.Some? ==> r == s.value
    ensures s.None? ==> r == ""
  {
    match s
    case None => ""
    case Some(t) => t
  }

  /** A string holding a character that is not white space is never blank. */
  lemma NotBlank(s: string, i: nat)
    requires i < |s| && !IsWhiteSpace(s[i])
    ensures !IsNullOrWhiteSpace(Some(s))
  {
  }

  /** The class `[0-9]` is exactly the ten characters `0123456789`. */
  lemma AsciiDigitClass(c: char)
    ensures IsAsciiDigit(c) <==> c in "0123456789"
  {
    if IsAsciiDigit(c) {
      assert c == "0123456789"[(c as int) - ('0' as int)];
    }
  }

  /** An ASCII digit is not white space. */
  lemma DigitIsNotWhiteSpace(c: char)
    requires IsAsciiDigit(c)
    ensures !IsWhiteSpace(c)
  {
  }
}
