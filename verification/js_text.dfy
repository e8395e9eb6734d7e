/** JavaScript strings as the plugin sees them: sequences of UTF-16 code units,
    so that `length`, `slice` and `indexOf` have their JavaScript meaning. */
module JsText {

  /** One UTF-16 code unit. */
  newtype CodeUnit = x: int | 0 <= x < 0x1_0000

  /** A JavaScript string value. */
  type JsString = seq<CodeUnit>

  /** True when every character of `s` is 7-bit ASCII, so that it is one code unit. */
  predicate IsAscii(s: string) {
    forall i :: 0 <= i < |s| ==> s[i] as int < 128
  }

  /** The JavaScript string written in source as the ASCII literal `s`. */
  function Ascii(s: string): (r: JsString)
    requires IsAscii(s)
    ensures |r| == |s|
    ensures forall i :: 0 <= i < |s| ==> r[i] as int == s[i] as int
  {
    if s == [] then [] else [s[0] as int as CodeUnit] + Ascii(s[1..])
  }

  /** `Array.prototype.indexOf` on an array of strings: the first position
      whose element is strictly equal to `key`, or -1 when there is none. */
  function IndexOf(list: seq<JsString>, key: JsString): (r: int)
    ensures -1 <= r < |list|
    ensures r == -1 <==> key !in list
    ensures 0 <= r ==> list[r] == key && forall j :: 0 <= j < r ==> list[j] != key
  {
    if list == [] then -1
    else if list[0] == key then 0
    else
      var k := IndexOf(list[1..], key);
      if k == -1 then -1 else k + 1
  }
}
