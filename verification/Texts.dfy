/** Characters and texts, as the models share them. */
module Texts {

  type CodePoint = nat

  /** A Python string: its code points. */
  type Text = seq<CodePoint>

  predicate IsLower(c: char) { 'a' <= c <= 'z' }
  predicate IsUpper(c: char) { 'A' <= c <= 'Z' }
  predicate IsDigit(c: char) { '0' <= c <= '9' }
}
