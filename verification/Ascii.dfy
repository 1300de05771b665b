/** Letter case of ASCII text. */
module Ascii {
  function ToLower(c: char): char {
    if 'A' <= c <= 'Z' then (c as int + 32) as char else c
  }

  /** `to_ascii_lowercase`. */
  function Lower(text: string): (lower: string)
    ensures |lower| == |text|
    ensures forall i :: 0 <= i < |text| ==> lower[i] == ToLower(text[i])
  {
    seq(|text|, i requires 0 <= i < |text| => ToLower(text[i]))
  }
}
