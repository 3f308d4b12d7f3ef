/** The blank test that register() applies to route scripts: StringUtils.isNotBlank,
    which is true of a non-null string holding a character that is not Java whitespace. */
module Text {
  import opened RsfTypes

  /** Character.isWhitespace: the ASCII controls TAB, LF, VT, FF, CR and FS..US, and the
      Unicode space, line and paragraph separators except the non-breaking ones
      (U+00A0, U+2007, U+202F). */
  predicate IsWhitespace(c: char) {
    c == ' ' || c == '\t' || c == '\n' || c == '\U{000B}' || c == '\U{000C}' || c == '\r'
    || ('\U{001C}' <= c <= '\U{001F}')
    || c == '\U{1680}'
    || ('\U{2000}' <= c <= '\U{2006}')
    || ('\U{2008}' <= c <= '\U{200A}')
    || c == '\U{2028}' || c == '\U{2029}' || c == '\U{205F}' || c == '\U{3000}'
  }

  /** Scans s for a character that is not whitespace. */
  function HasNonWhitespace(s: string): bool {
    if s == [] then false
    else !IsWhitespace(s[0]) || HasNonWhitespace(s[1..])
  }

  /** The scan finds a non-whitespace character exactly when s holds one. */
  lemma {:induction false} HasNonWhitespaceIff(s: string)
    ensures HasNonWhitespace(s) <==> exists i :: 0 <= i < |s| && !IsWhitespace(s[i])
    decreases |s|
  {
    if s != [] {
      HasNonWhitespaceIff(s[1..]);
      assert forall i :: 1 <= i < |s| ==> s[i] == s[1..][i - 1];
      if !IsWhitespace(s[0]) {
        assert 0 < |s| && !IsWhitespace(s[0]);
      }
    }
  }

  /** StringUtils.isNotBlank: null, the empty string and all-whitespace strings are blank. */
  predicate IsNotBlank(s: Option<string>) {
    s.Some? && HasNonWhitespace(s.value)
  }
}
