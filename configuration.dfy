/** RegexThreatProtectionPolicyConfiguration: the policy's settings and the
    compiled pattern, compiled on first use and cached from then on. */
module PolicyConfiguration {
  import opened Jdk

  /** The flags getPattern compiles with: CASE_INSENSITIVE exactly when matching
      is not case sensitive, and no other flag. */
  function CompileFlags(caseSensitive: bool): (flags: bv32)
    ensures (flags & CASE_INSENSITIVE != 0) <==> !caseSensitive
    ensures flags & !CASE_INSENSITIVE == 0
  {
    if caseSensitive then 0 else 0 | CASE_INSENSITIVE
  }

  /** The cache after a getPattern call that produced `r`. */
  function CacheAfter(r: Result<Pattern>): Option<Pattern> {
    if r.Success? then Some(r.value) else None
  }

  class Configuration {
    /** The cached compiled pattern; None stands for Java's null. */
    var pattern: Option<Pattern>
    /** The regex source; None stands for Java's null (the field has no default). */
    var regex: Option<string>
    var checkHeaders: bool
    var checkPath: bool
    var checkBody: bool
    var caseSensitive: bool
    /** How many times a pattern has been compiled successfully and cached. */
    ghost var compilations: nat

    /** The pattern is compiled at most once: it is cached exactly when one compilation happened. */
    ghost predicate Valid()
      reads this
    {
      compilations == if pattern.Some? then 1 else 0
    }

    /** A new configuration carries the documented defaults. */
    constructor ()
      ensures Valid() && compilations == 0
      ensures pattern == None && regex == None
      ensures checkHeaders && checkPath && checkBody && !caseSensitive
    {
      pattern := None;
      regex := None;
      checkHeaders := true;
      checkPath := true;
      checkBody := true;
      caseSensitive := false;
      compilations := 0;
    }

    /** What getPattern() returns in the current state. */
    function Fetch(lib: Library): Result<Pattern>
      reads this
    {
      if pattern.Some? then Success(pattern.value) else Compile(lib, regex, CompileFlags(caseSensitive))
    }

    /** getPattern(): compiles only when nothing is cached; a failed compilation
        throws and leaves the cache empty. */
    method GetPattern(lib: Library) returns (r: Result<Pattern>)
      requires Valid()
      modifies this`pattern, this`compilations
      ensures Valid()
      ensures r == old(Fetch(lib))
      ensures pattern == CacheAfter(r)
      ensures old(pattern).Some? ==> r == Success(old(pattern).value) && pattern == old(pattern)
      ensures old(pattern).None? && r.Success? ==>
                r.value.regex == regex.value && (IsCaseInsensitive(r.value) <==> !caseSensitive)
      ensures r.Failure? ==> pattern == None && compilations == old(compilations)
    {
      if pattern.None? {
        var flags: bv32 := 0;
        if !caseSensitive {
          flags := flags | CASE_INSENSITIVE;
        }
        var compiled := Compile(lib, regex, flags);
        if compiled.Failure? {
          return compiled;
        }
        pattern := Some(compiled.value);
        compilations := compilations + 1;
      }
      r := Success(pattern.value);
    }

    method SetRegex(regex: Option<string>)
      requires Valid()
      modifies this`regex
      ensures Valid() && this.regex == regex
    {
      this.regex := regex;
    }

    method SetCheckHeaders(checkHeaders: bool)
      requires Valid()
      modifies this`checkHeaders
      ensures Valid() && this.checkHeaders == checkHeaders
    {
      this.checkHeaders := checkHeaders;
    }

    method SetCheckPath(checkPath: bool)
      requires Valid()
      modifies this`checkPath
      ensures Valid() && this.checkPath == checkPath
    {
      this.checkPath := checkPath;
    }

    method SetCheckBody(checkBody: bool)
      requires Valid()
      modifies this`checkBody
      ensures Valid() && this.checkBody == checkBody
    {
      this.checkBody := checkBody;
    }

    method SetCaseSensitive(caseSensitive: bool)
      requires Valid()
      modifies this`caseSensitive
      ensures Valid() && this.caseSensitive == caseSensitive
    {
      this.caseSensitive := caseSensitive;
    }
  }
}
