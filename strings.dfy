/** The two `strings` package operations the core relies on. */
module Strings {

  /**
    `strings.Split(s, string(sep))[0]`: the text before the first `sep`, or
    all of `s` when it holds none (also `""` for `""`).
   */
  function FirstField(s: string, sep: char): (r: string)
    ensures r <= s
    ensures sep !in r
    ensures r == s || s[|r|] == sep
  {
    if s == [] then []
    else if s[0] == sep then []
    else [s[0]] + FirstField(s[1..], sep)
  }

  predicate IsUpperAscii(c: char) { 'A' <= c <= 'Z' }

  function LowerChar(c: char): char
  {
    if IsUpperAscii(c) then (c as int + 32) as char else c
  }

  /** `strings.ToLower` on the ASCII letters of `s`. */
  function LowerAscii(s: string): (r: string)
    ensures |r| == |s|
    ensures forall i :: 0 <= i < |s| ==> r[i] == LowerChar(s[i])
  {
    seq(|s|, i requires 0 <= i < |s| => LowerChar(s[i]))
  }

  /** Lowering leaves no upper-case ASCII letter and changes nothing else. */
  lemma LowerAsciiSpec(s: string)
    ensures forall i :: 0 <= i < |s| ==> !IsUpperAscii(LowerAscii(s)[i])
    ensures forall i :: 0 <= i < |s| && !IsUpperAscii(s[i]) ==> LowerAscii(s)[i] == s[i]
    ensures LowerAscii(LowerAscii(s)) == LowerAscii(s)
  {
  }
}
