/**
 * Java's notion of a blank string: `String.isBlank()` holds when every code
 * point satisfies `Character.isWhitespace`.
 */
module JavaText {
  import opened Wrappers

  /**
   * `Character.isWhitespace(codePoint)`: the Unicode space, line and
   * paragraph separators except the no-break spaces U+00A0, U+2007 and
   * U+202F, plus the controls U+0009..U+000D and U+001C..U+001F.
   */
  predicate IsWhitespace(c: char) {
    var n := c as int;
    || (0x09 <= n <= 0x0D)
    || (0x1C <= n <= 0x20)
    || n == 0x1680
    || (0x2000 <= n <= 0x2006)
    || (0x2008 <= n <= 0x200A)
    || n == 0x2028 || n == 0x2029
    || n == 0x205F || n == 0x3000
  }

  /** `s.isBlank()`: empty, or whitespace only. */
  predicate IsBlank(s: string) {
    forall i :: 0 <= i < |s| ==> IsWhitespace(s[i])
  }

  /** `m != null && !m.isBlank()`: the test the handler applies before echoing a message. */
  predicate HasText(m: Option<string>) {
    m.Some? && !IsBlank(m.value)
  }

  /** A string with a character that is not whitespace is not blank, and the empty string is. */
  lemma NotBlankWitness(s: string, i: nat)
    requires i < |s| && !IsWhitespace(s[i])
    ensures !IsBlank(s) && IsBlank([])
  {
  }
}
