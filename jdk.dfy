/** The parts of the Java platform the policy relies on but does not define:
    java.util.regex (compilation and whole-string matching), java.net.URLDecoder
    with the platform's default charset, and the conversion of a body buffer to text.
    Their behaviour is not visible from the policy's code, so it is a parameter
    (a `Library`) of every operation, and every property is proved for all libraries. */
module Jdk {

  /** A Java reference that may be null. */
  datatype Option<+T> = None | Some(value: T)

  /** The exceptions that can escape from the policy's code. */
  datatype Exception =
    | NullPointerException      // Pattern.compile with a null regex
    | PatternSyntaxException    // Pattern.compile with a malformed regex
    | IllegalArgumentException  // URLDecoder.decode with a malformed escape sequence

  /** A value, or the exception that was thrown instead of producing it. */
  datatype Result<+T> = Success(value: T) | Failure(exception: Exception)

  /** Pattern.CASE_INSENSITIVE. */
  const CASE_INSENSITIVE: bv32 := 0x02

  /** A compiled pattern: its source text and the flags it was compiled with
      (Pattern.pattern() and Pattern.flags()). */
  datatype Pattern = Pattern(regex: string, flags: bv32)

  predicate IsCaseInsensitive(p: Pattern) {
    p.flags & CASE_INSENSITIVE != 0
  }

  /** The three ways URLDecoder.decode(value, charset) can end. */
  datatype UrlDecoding =
    | Decoded(text: string)
    | UnsupportedEncoding  // UnsupportedEncodingException: the charset name is not supported
    | IllegalEscape        // IllegalArgumentException: a '%' not followed by two hex digits

  /** The foreign behaviour, left uninterpreted.
      `matches(p, s)` is Matcher.matches(): does `p` match the WHOLE of `s` (not a substring). */
  datatype Library = Library(
    compiles: (string, bv32) -> bool,
    matches: (Pattern, string) -> bool,
    urlDecode: string -> UrlDecoding,
    bufferText: seq<bv8> -> string)

  /** Pattern.compile(regex, flags). */
  function Compile(lib: Library, regex: Option<string>, flags: bv32): Result<Pattern> {
    match regex
    case None => Failure(NullPointerException)
    case Some(source) =>
      if lib.compiles(source, flags) then Success(Pattern(source, flags)) else Failure(PatternSyntaxException)
  }
}
