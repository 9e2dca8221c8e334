/** String helpers the controllers share: the blank-input test
    (`replacingOccurrences(of: " ", with: "").isEmpty`), ASCII lower-casing
    and `hasPrefix`. */
module Strings {
  import opened Seqs

  /** `text.replacingOccurrences(of: " ", with: "")`: only the plain space
      is removed, not tabs or newlines. */
  function RemoveSpaces(text: string): (r: string)
    ensures |r| <= |text|
    ensures forall i :: 0 <= i < |r| ==> r[i] != ' '
    ensures forall c :: c != ' ' ==> multiset(r)[c] == multiset(text)[c]
  {
    Filter(text, (c: char) => c != ' ')
  }

  /** True when nothing but spaces is left of the input. */
  predicate IsBlank(text: string)
  {
    RemoveSpaces(text) == []
  }

  /** A text is blank exactly when every one of its characters is a space. */
  lemma BlankIffAllSpaces(text: string)
    ensures IsBlank(text) <==> forall i :: 0 <= i < |text| ==> text[i] == ' '
  {
    if !IsBlank(text) {
      var r := RemoveSpaces(text);
      assert r[0] in text;
    }
  }

  /** Lower-cases one character; only A-Z are changed. */
  function LowerChar(c: char): (r: char)
    ensures 'A' <= c <= 'Z' ==> 'a' <= r <= 'z' && r as int - c as int == 32
    ensures !('A' <= c <= 'Z') ==> r == c
  {
    if 'A' <= c <= 'Z' then (c as int + 32) as char else c
  }

  /** `lowercased()`, restricted to ASCII letters. */
  function Lower(s: string): (r: string)
    ensures |r| == |s|
    ensures forall i :: 0 <= i < |s| ==> r[i] == LowerChar(s[i])
  {
    seq(|s|, i requires 0 <= i < |s| => LowerChar(s[i]))
  }

  /** `s.hasPrefix(p)`. */
  predicate HasPrefix(s: string, p: string)
  {
    |p| <= |s| && s[..|p|] == p
  }
}
