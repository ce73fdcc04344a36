/**
 * The byte-buffer helper of WonderPy/core/wwHAL.py: `string_into_c_byte_array`
 * writes the code of each character of a string into a caller-provided
 * buffer, from index 0, one element per character.
 */
module Hal {

  /** The character codes of a string, in order (`ord` of each character). */
  function Codes(s: string): (r: seq<int>)
    ensures |r| == |s|
    ensures forall i | 0 <= i < |s| :: r[i] == s[i] as int
  {
    if s == [] then [] else [s[0] as int] + Codes(s[1..])
  }

  /**
   * The buffer must hold at least one element per character; its first
   * `|str|` elements become the codes of `str` and the rest are untouched.
   */
  method StringIntoByteArray(str: string, cba: array<int>)
    requires |str| <= cba.Length
    modifies cba
    ensures cba[..|str|] == Codes(str)
    ensures cba[|str|..] == old(cba[|str|..])
  {
    var n := 0;
    while n < |str|
      invariant 0 <= n <= |str|
      invariant forall j | 0 <= j < n :: cba[j] == str[j] as int
      invariant forall j | n <= j < cba.Length :: cba[j] == old(cba[j])
    {
      var c := str[n];
      cba[n] := c as int;
      n := n + 1;
    }
  }
}
