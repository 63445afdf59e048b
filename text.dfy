/** Java's `String.isBlank` and the "required string" test built on it. */
module Text {

  import opened Outcomes

  /** `Character.isWhitespace` on a code point: the ASCII controls
      HT, LF, VT, FF, CR and FS..US, and every Unicode space, line or
      paragraph separator except the three no-break spaces. */
  predicate IsWhitespace(c: char)
  {
    || c == ' ' || ('\t' <= c <= '\r') || ('\U{1C}' <= c <= '\U{1F}')
    || c == '\U{1680}' || ('\U{2000}' <= c <= '\U{2006}') || ('\U{2008}' <= c <= '\U{200A}')
    || c == '\U{2028}' || c == '\U{2029}' || c == '\U{205F}' || c == '\U{3000}'
  }

  /** `s.isBlank()`: empty or made only of whitespace. */
  predicate IsBlank(s: string)
  {
    forall i :: 0 <= i < |s| ==> IsWhitespace(s[i])
  }

  /** The guard `s != null && !s.isBlank()` that every required name or title passes. */
  predicate Present(s: Option<string>)
  {
    s.Some? && !IsBlank(s.value)
  }
}
