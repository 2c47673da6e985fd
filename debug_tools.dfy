/** `DebugTools`: the connectivity `Echo` and the round-trip `ReverseEcho`. */
module McpDebugTools {
  import opened Wrappers
  import opened Text

  const EchoPrefix: string := "Echo: "

  /** `Echo(message)`: the prefix followed by the message, a null message rendering empty. */
  function Echo(message: Option<string>): (r: string)
    ensures |r| == |EchoPrefix| + |OrEmpty(message)|
    ensures r[..|EchoPrefix|] == EchoPrefix
    ensures r[|EchoPrefix|..] == OrEmpty(message)
  {
    EchoPrefix + OrEmpty(message)
  }

  /** The characters of `s` in the opposite order. */
  function Reversed(s: string): (r: string)
    ensures |r| == |s|
  {
    if s == [] then "" else [s[|s| - 1]] + Reversed(s[..|s| - 1])
  }

  /** Position `k` of the reversal holds position `|s| - 1 - k` of the original. */
  lemma {:induction false} ReversedAt(s: string, k: nat)
    requires k < |s|
    ensures Reversed(s)[k] == s[|s| - 1 - k]
  {
    if k > 0 {
      ReversedAt(s[..|s| - 1], k - 1);
    }
  }

  /** Reversing twice gives the original string back. */
  lemma {:induction false} ReversedInvolution(s: string)
    ensures Reversed(Reversed(s)) == s
  {
    var t := Reversed(Reversed(s));
    forall k | 0 <= k < |s|
      ensures t[k] == s[k]
    {
      ReversedAt(Reversed(s), k);
      ReversedAt(s, |s| - 1 - k);
    }
  }

  /** `Array.Reverse(chars)`: reverses the buffer in place, swapping from both ends. */
  method ReverseInPlace(chars: array<char>)
    modifies chars
    ensures chars[..] == Reversed(old(chars[..]))
  {
    var i, j := 0, chars.Length - 1;
    while i < j
      invariant 0 <= i <= chars.Length && j == chars.Length - 1 - i
      invariant i <= j + 1
      invariant forall k :: 0 <= k < i ==> chars[k] == old(chars[chars.Length - 1 - k])
      invariant forall k :: j < k < chars.Length ==> chars[k] == old(chars[chars.Length - 1 - k])
      invariant forall k :: i <= k <= j ==> chars[k] == old(chars[k])
    {
      chars[i], chars[j] := chars[j], chars[i];
      i, j := i + 1, j - 1;
    }
    ghost var before := old(chars[..]);
    forall k | 0 <= k < chars.Length
      ensures chars[..][k] == Reversed(before)[k]
    {
      ReversedAt(before, k);
    }
  }

  /** `ReverseEcho(message)`: null gives the empty string, otherwise the message reversed. */
  method ReverseEcho(message: Option<string>) returns (r: string)
    ensures message.None? ==> r == ""
    ensures r == Reversed(OrEmpty(message))
    ensures |r| == |OrEmpty(message)|
    ensures forall i :: 0 <= i < |r| ==> r[i] == OrEmpty(message)[|r| - 1 - i]
  {
    if message.None? {
      return "";
    }
    var m := message.value;
    var chars := new char[|m|](i requires 0 <= i < |m| => m[i]);
    assert chars[..] == m;
    ReverseInPlace(chars);
    r := chars[..];
    forall i | 0 <= i < |r|
      ensures r[i] == m[|r| - 1 - i]
    {
      ReversedAt(m, i);
    }
  }
}
