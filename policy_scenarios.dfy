/** The twelve unit tests of RegexThreatProtectionPolicyTest, replayed as clients of the
    policy. Each replay starts from the tests' shared setup (regex ".*evil.*", every check
    off), turns on what the test turns on, and reports what was read and which chain calls
    were made. What the regex engine and the URL decoder do with the test's strings is
    stated as a requirement on the library.

    Four members replay no test. FirstOfHitAndEscapeDecides shows on concrete requests that the
    parameter search stops at whichever comes first of a match and an illegal escape. The last
    three methods are properties of the configuration's pattern cache, and the last one starts
    from the default configuration instead. */
module PolicyScenarios {
  import opened Jdk
  import opened Gateway
  import opened PolicyConfiguration
  import opened Policy
  import PolicyProperties

  const EVIL_REGEX: string := ".*evil.*"

  /** The pattern a default (case-insensitive) configuration compiles EVIL_REGEX to. */
  const EVIL: Pattern := Pattern(EVIL_REGEX, CASE_INSENSITIVE)

  const TEST_HEADERS: MultiValueMap := [("header1", ["abc", "def"]), ("header2", ["ghi", "jkl"])]
  const TEST_PARAMS: MultiValueMap := [("param1", ["abc", "def"]), ("param2", ["ghi", "jkl"])]

  /** The setup shared by every test: regex set, all checks off. */
  method NewTestConfiguration() returns (c: Configuration)
    ensures fresh(c) && c.Valid() && c.pattern == None && c.regex == Some(EVIL_REGEX)
    ensures !c.checkHeaders && !c.checkPath && !c.checkBody && !c.caseSensitive
  {
    c := new Configuration();
    c.SetRegex(Some(EVIL_REGEX));
    c.SetCheckHeaders(false);
    c.SetCheckPath(false);
    c.SetCheckBody(false);
  }

  /** shouldAcceptAllWhenNoCheck: no transform, no accessor read, one doNext. */
  method AcceptAllWhenNoCheck(data: RequestData, lib: Library)
    returns (noStream: bool, accessed: seq<Accessor>, calls: seq<ChainCall>, thrown: Option<Exception>)
    ensures noStream && accessed == [] && calls == [DoNext] && thrown == None
  {
    var c := NewTestConfiguration();
    var policy := new RegexThreatProtectionPolicy(c);
    var request := new Request(data);
    var chain := new PolicyChain();
    var stream := policy.OnRequestContent(chain);
    thrown := policy.OnRequest(request, chain, lib);
    noStream, accessed, calls := stream == null, request.accessed, chain.calls;
  }

  /** shouldCheckAndAcceptHeaders: only the headers are read, none matches, the chain continues. */
  method AcceptHeaders(pathInfo: string, parameters: MultiValueMap, lib: Library)
    returns (noStream: bool, accessed: seq<Accessor>, calls: seq<ChainCall>)
    requires lib.compiles(EVIL_REGEX, CASE_INSENSITIVE)
    requires forall s :: s in ["header1", "header2", "abc", "def", "ghi", "jkl"] ==> !lib.matches(EVIL, s)
    ensures noStream && accessed == [HeadersRead] && calls == [DoNext]
  {
    var c := NewTestConfiguration();
    c.SetCheckHeaders(true);
    var policy := new RegexThreatProtectionPolicy(c);
    var request := new Request(RequestData(TEST_HEADERS, pathInfo, parameters));
    var chain := new PolicyChain();
    PolicyProperties.AnyEntryMatchesIsExists(lib, EVIL, TEST_HEADERS, false);
    assert !MapHit(lib, EVIL, TEST_HEADERS, false);
    var stream := policy.OnRequestContent(chain);
    var _ := policy.OnRequest(request, chain, lib);
    noStream, accessed, calls := stream == null, request.accessed, chain.calls;
  }

  /** shouldRejectEvilHeaderName: only the headers are read and the request fails. */
  method RejectEvilHeaderName(pathInfo: string, parameters: MultiValueMap, lib: Library)
    returns (noStream: bool, accessed: seq<Accessor>, calls: seq<ChainCall>)
    requires lib.compiles(EVIL_REGEX, CASE_INSENSITIVE)
    requires lib.matches(EVIL, "header-evil")
    ensures noStream && accessed == [HeadersRead]
    ensures calls == [FailWith(Rejection(REGEX_THREAT_HEADER_DETECTED_KEY))]
  {
    var c := NewTestConfiguration();
    c.SetCheckHeaders(true);
    var policy := new RegexThreatProtectionPolicy(c);
    var headers := TEST_HEADERS + [("header-evil", ["jkl"])];
    var request := new Request(RequestData(headers, pathInfo, parameters));
    var chain := new PolicyChain();
    assert ("header-evil", ["jkl"]) in headers;
    assert EntryHit(lib, EVIL, ("header-evil", ["jkl"]), false);
    PolicyProperties.HeaderHitRejects(false, EVIL, request.data, lib);
    var stream := policy.OnRequestContent(chain);
    var _ := policy.OnRequest(request, chain, lib);
    noStream, accessed, calls := stream == null, request.accessed, chain.calls;
  }

  /** shouldRejectEvilHeaderValue: a raw header value matches; only the headers are read and
      the request fails. */
  method RejectEvilHeaderValue(pathInfo: string, parameters: MultiValueMap, lib: Library)
    returns (noStream: bool, accessed: seq<Accessor>, calls: seq<ChainCall>)
    requires lib.compiles(EVIL_REGEX, CASE_INSENSITIVE)
    requires lib.matches(EVIL, "jkl-evil")
    ensures noStream && accessed == [HeadersRead]
    ensures calls == [FailWith(Rejection(REGEX_THREAT_HEADER_DETECTED_KEY))]
  {
    var c := NewTestConfiguration();
    c.SetCheckHeaders(true);
    var policy := new RegexThreatProtectionPolicy(c);
    // HttpHeaders.add appends to the values of an existing name
    var headers := [("header1", ["abc", "def"]), ("header2", ["ghi", "jkl", "jkl-evil"])];
    var request := new Request(RequestData(headers, pathInfo, parameters));
    var chain := new PolicyChain();
    assert headers[1] in headers && "jkl-evil" in headers[1].1;
    assert ValueHit(lib, EVIL, "jkl-evil", false);
    assert EntryHit(lib, EVIL, headers[1], false);
    PolicyProperties.HeaderHitRejects(false, EVIL, request.data, lib);
    var stream := policy.OnRequestContent(chain);
    var _ := policy.OnRequest(request, chain, lib);
    noStream, accessed, calls := stream == null, request.accessed, chain.calls;
  }

  /** shouldRejectEvilPath: only the path is read and the request fails. */
  method RejectEvilPath(headers: MultiValueMap, parameters: MultiValueMap, lib: Library)
    returns (noStream: bool, accessed: seq<Accessor>, calls: seq<ChainCall>)
    requires lib.compiles(EVIL_REGEX, CASE_INSENSITIVE)
    requires lib.urlDecode("/path-evil") == Decoded("/path-evil")
    requires lib.matches(EVIL, "/path-evil")
    ensures noStream && accessed == [PathInfoRead]
    ensures calls == [FailWith(Rejection(REGEX_THREAT_PATH_DETECTED_KEY))]
  {
    var c := NewTestConfiguration();
    c.SetCheckPath(true);
    var policy := new RegexThreatProtectionPolicy(c);
    var request := new Request(RequestData(headers, "/path-evil", parameters));
    var chain := new PolicyChain();
    var stream := policy.OnRequestContent(chain);
    var _ := policy.OnRequest(request, chain, lib);
    noStream, accessed, calls := stream == null, request.accessed, chain.calls;
  }

  /** shouldCheckAndAcceptPathAndParams: path and parameters are read, the chain continues. */
  method AcceptPathAndParams(headers: MultiValueMap, lib: Library)
    returns (noStream: bool, accessed: seq<Accessor>, calls: seq<ChainCall>)
    requires lib.compiles(EVIL_REGEX, CASE_INSENSITIVE)
    requires forall s :: s in ["/path", "abc", "def", "ghi", "jkl"] ==> lib.urlDecode(s) == Decoded(s)
    requires forall s :: s in ["/path", "param1", "param2", "abc", "def", "ghi", "jkl"] ==> !lib.matches(EVIL, s)
    ensures noStream && accessed == [PathInfoRead, ParametersRead]
    ensures calls == [DoNext]
  {
    var c := NewTestConfiguration();
    c.SetCheckPath(true);
    var policy := new RegexThreatProtectionPolicy(c);
    var request := new Request(RequestData(headers, "/path", TEST_PARAMS));
    var chain := new PolicyChain();
    PolicyProperties.AnyEntryMatchesIsExists(lib, EVIL, TEST_PARAMS, true);
    assert !MapHit(lib, EVIL, TEST_PARAMS, true);
    var stream := policy.OnRequestContent(chain);
    var _ := policy.OnRequest(request, chain, lib);
    noStream, accessed, calls := stream == null, request.accessed, chain.calls;
  }

  /** shouldRejectEvilParamName: a raw parameter name matches; path and parameters are read
      and the request fails with the path reason. */
  method RejectEvilParamName(headers: MultiValueMap, lib: Library)
    returns (noStream: bool, accessed: seq<Accessor>, calls: seq<ChainCall>)
    requires lib.compiles(EVIL_REGEX, CASE_INSENSITIVE)
    requires forall s :: s in ["/path", "abc", "def", "ghi", "jkl"] ==> lib.urlDecode(s) == Decoded(s)
    requires !lib.matches(EVIL, "/path") && lib.matches(EVIL, "param-evil")
    ensures noStream && accessed == [PathInfoRead, ParametersRead]
    ensures calls == [FailWith(Rejection(REGEX_THREAT_PATH_DETECTED_KEY))]
  {
    var c := NewTestConfiguration();
    c.SetCheckPath(true);
    var policy := new RegexThreatProtectionPolicy(c);
    // LinkedMultiValueMap.add puts a new name last
    var params := TEST_PARAMS + [("param-evil", ["jkl"])];
    var request := new Request(RequestData(headers, "/path", params));
    var chain := new PolicyChain();
    assert params[2] in params && EntryHit(lib, EVIL, params[2], true);
    assert MapDecodable(lib, params);
    assert params + [] == params;
    PolicyProperties.ParameterHitRejects(false, EVIL, request.data, params, [], lib);
    var stream := policy.OnRequestContent(chain);
    var _ := policy.OnRequest(request, chain, lib);
    noStream, accessed, calls := stream == null, request.accessed, chain.calls;
  }

  /** shouldRejectEvilParamValue: a decoded parameter value matches; path and parameters are
      read and the request fails with the path reason. */
  method RejectEvilParamValue(headers: MultiValueMap, lib: Library)
    returns (noStream: bool, accessed: seq<Accessor>, calls: seq<ChainCall>)
    requires lib.compiles(EVIL_REGEX, CASE_INSENSITIVE)
    requires forall s :: s in ["/path", "abc", "def", "ghi", "jkl", "jkl-evil"] ==> lib.urlDecode(s) == Decoded(s)
    requires !lib.matches(EVIL, "/path") && lib.matches(EVIL, "jkl-evil")
    ensures noStream && accessed == [PathInfoRead, ParametersRead]
    ensures calls == [FailWith(Rejection(REGEX_THREAT_PATH_DETECTED_KEY))]
  {
    var c := NewTestConfiguration();
    c.SetCheckPath(true);
    var policy := new RegexThreatProtectionPolicy(c);
    var params := [("param1", ["abc", "def"]), ("param2", ["ghi", "jkl", "jkl-evil"])];
    var request := new Request(RequestData(headers, "/path", params));
    var chain := new PolicyChain();
    assert params[1] in params && "jkl-evil" in params[1].1;
    assert ValueHit(lib, EVIL, "jkl-evil", true);
    assert EntryHit(lib, EVIL, params[1], true);
    assert MapDecodable(lib, params);
    assert params + [] == params;
    PolicyProperties.ParameterHitRejects(false, EVIL, request.data, params, [], lib);
    var stream := policy.OnRequestContent(chain);
    var _ := policy.OnRequest(request, chain, lib);
    noStream, accessed, calls := stream == null, request.accessed, chain.calls;
  }

  /** shouldIgnoreBody: no transform and no chain interaction. */
  method IgnoreBody() returns (noStream: bool, calls: seq<ChainCall>)
    ensures noStream && calls == []
  {
    var c := NewTestConfiguration();
    var policy := new RegexThreatProtectionPolicy(c);
    var chain := new PolicyChain();
    var stream := policy.OnRequestContent(chain);
    noStream, calls := stream == null, chain.calls;
  }

  /** shouldCheckAndAcceptBody: a non-matching body is forwarded and nothing is called. */
  method AcceptBody(body: Buffer, lib: Library) returns (out: Result<Buffer>, calls: seq<ChainCall>)
    requires lib.compiles(EVIL_REGEX, CASE_INSENSITIVE)
    requires !lib.matches(EVIL, lib.bufferText(body.bytes))
    ensures out == Success(body) && calls == []
  {
    var c := NewTestConfiguration();
    c.SetCheckBody(true);
    var policy := new RegexThreatProtectionPolicy(c);
    var chain := new PolicyChain();
    var stream := policy.OnRequestContent(chain);
    out := stream.Apply(body, lib);
    calls := chain.calls;
  }

  /** shouldRejectEvilBody: a matching body is forwarded and the stream is failed once. */
  method RejectEvilBody(body: Buffer, lib: Library) returns (out: Result<Buffer>, calls: seq<ChainCall>)
    requires lib.compiles(EVIL_REGEX, CASE_INSENSITIVE)
    requires lib.bufferText(body.bytes) == "evil body content"
    requires lib.matches(EVIL, "evil body content")
    ensures out == Success(body)
    ensures calls == [StreamFailWith(Rejection(REGEX_THREAT_BODY_DETECTED_KEY))]
  {
    var c := NewTestConfiguration();
    c.SetCheckBody(true);
    var policy := new RegexThreatProtectionPolicy(c);
    var chain := new PolicyChain();
    var stream := policy.OnRequestContent(chain);
    out := stream.Apply(body, lib);
    calls := chain.calls;
  }

  /** shouldRejectEvilBodyCaseInsensitive: with the default case-insensitive setting the
      compiled pattern carries CASE_INSENSITIVE, so a case-insensitive engine that matches
      "EvIL body content" makes the transform fail the stream once, and still forward the body. */
  method RejectEvilBodyCaseInsensitive(body: Buffer, lib: Library)
    returns (used: Result<Pattern>, out: Result<Buffer>, calls: seq<ChainCall>)
    requires lib.compiles(EVIL_REGEX, CASE_INSENSITIVE)
    requires lib.bufferText(body.bytes) == "EvIL body content"
    requires lib.matches(EVIL, "EvIL body content")
    ensures used.Success? && used.value.regex == EVIL_REGEX && IsCaseInsensitive(used.value)
    ensures out == Success(body)
    ensures calls == [StreamFailWith(Rejection(REGEX_THREAT_BODY_DETECTED_KEY))]
  {
    var c := NewTestConfiguration();
    c.SetCheckBody(true);
    var policy := new RegexThreatProtectionPolicy(c);
    var chain := new PolicyChain();
    var stream := policy.OnRequestContent(chain);
    out := stream.Apply(body, lib);
    calls := chain.calls;
    // the pattern the transform matched with, now cached
    used := c.GetPattern(lib);
  }

  /** The parameter search stops at the first match or the first illegal escape, whichever
      comes first, across entries and within one entry: a matching name or value before an
      illegal escape fails the request, an illegal escape before a matching value throws. */
  lemma FirstOfHitAndEscapeDecides(headers: MultiValueMap, lib: Library)
    requires lib.urlDecode("/path") == Decoded("/path") && !lib.matches(EVIL, "/path")
    requires lib.urlDecode("jkl-evil") == Decoded("jkl-evil") && lib.matches(EVIL, "jkl-evil")
    requires lib.urlDecode("%zz").IllegalEscape?
    requires !lib.matches(EVIL, "p1") && !lib.matches(EVIL, "p2") && !lib.matches(EVIL, "p")
    requires lib.matches(EVIL, "param-evil")
    ensures RequestVerdict(false, true, Success(EVIL), RequestData(headers, "/path", [("p1", ["jkl-evil"]), ("p2", ["%zz"])]), lib).outcome
            == Called(FailWith(Rejection(REGEX_THREAT_PATH_DETECTED_KEY)))
    ensures RequestVerdict(false, true, Success(EVIL), RequestData(headers, "/path", [("p1", ["%zz"]), ("p2", ["jkl-evil"])]), lib).outcome
            == Threw(IllegalArgumentException)
    // within one entry: the raw name before its values, and the values first to last
    ensures RequestVerdict(false, true, Success(EVIL), RequestData(headers, "/path", [("param-evil", ["%zz"])]), lib).outcome
            == Called(FailWith(Rejection(REGEX_THREAT_PATH_DETECTED_KEY)))
    ensures RequestVerdict(false, true, Success(EVIL), RequestData(headers, "/path", [("p", ["jkl-evil", "%zz"])]), lib).outcome
            == Called(FailWith(Rejection(REGEX_THREAT_PATH_DETECTED_KEY)))
    ensures RequestVerdict(false, true, Success(EVIL), RequestData(headers, "/path", [("p", ["%zz", "jkl-evil"])]), lib).outcome
            == Threw(IllegalArgumentException)
  {
    var hit, escape := ("p1", ["jkl-evil"]), ("p2", ["%zz"]);
    assert [hit] + [escape] == [("p1", ["jkl-evil"]), ("p2", ["%zz"])];
    assert "jkl-evil" in hit.1 && ValueHit(lib, EVIL, "jkl-evil", true);
    assert hit in [hit] && EntryHit(lib, EVIL, hit, true);
    PolicyProperties.ParameterHitRejects(false, EVIL, RequestData(headers, "/path", [hit] + [escape]), [hit], [escape], lib);
    var escape1, hit2 := ("p1", ["%zz"]), ("p2", ["jkl-evil"]);
    assert [escape1] + [hit2] == [("p1", ["%zz"]), ("p2", ["jkl-evil"])];
    assert !ValuesDecodable(lib, escape1.1) && !MapDecodable(lib, [escape1]);
    assert AnyValueMatches(lib, EVIL, escape1.1, true).Failure?;
    assert !MapHit(lib, EVIL, [escape1], true) by {
      forall e | e in [escape1] ensures !EntryHit(lib, EVIL, e, true) {
        assert e == escape1 && !ValueHit(lib, EVIL, "%zz", true);
      }
    }
    PolicyProperties.IllegalParameterEscapeEscapes(false, EVIL, RequestData(headers, "/path", [escape1] + [hit2]), [escape1], [hit2], lib);
    var none: MultiValueMap := [];
    var noValues: seq<string> := [];
    assert none + [("param-evil", ["%zz"])] + none == [("param-evil", ["%zz"])];
    PolicyProperties.ParameterNameHitRejects(false, EVIL, RequestData(headers, "/path", [("param-evil", ["%zz"])]),
                                             none, "param-evil", ["%zz"], none, lib);
    assert noValues + ["jkl-evil"] + ["%zz"] == ["jkl-evil", "%zz"];
    assert none + [("p", noValues + ["jkl-evil"] + ["%zz"])] + none == [("p", ["jkl-evil", "%zz"])];
    PolicyProperties.ParameterValueHitRejects(false, EVIL, RequestData(headers, "/path", [("p", ["jkl-evil", "%zz"])]),
                                              none, "p", noValues, "jkl-evil", ["%zz"], none, lib);
    assert noValues + ["%zz"] + ["jkl-evil"] == ["%zz", "jkl-evil"];
    assert none + [("p", noValues + ["%zz"] + ["jkl-evil"])] + none == [("p", ["%zz", "jkl-evil"])];
    PolicyProperties.IllegalValueEscapeEscapes(false, EVIL, RequestData(headers, "/path", [("p", ["%zz", "jkl-evil"])]),
                                               none, "p", noValues, "%zz", ["jkl-evil"], none, lib);
  }

  /** With caseSensitive on, the pattern is compiled without CASE_INSENSITIVE. */
  method CaseSensitiveCompile(lib: Library) returns (r: Result<Pattern>)
    requires lib.compiles(EVIL_REGEX, 0)
    ensures r == Success(Pattern(EVIL_REGEX, 0)) && !IsCaseInsensitive(r.value)
  {
    var c := NewTestConfiguration();
    c.SetCaseSensitive(true);
    r := c.GetPattern(lib);
  }

  /** The cache is never invalidated: once a pattern is cached, changing the regex or the
      case flag does not change what getPattern returns, and nothing is compiled again. */
  method CacheSurvivesReconfiguration(other: Option<string>, lib: Library)
    returns (first: Result<Pattern>, second: Result<Pattern>, ghost compilations: nat)
    ensures first.Success? ==> second == first && compilations == 1
    ensures first == Compile(lib, Some(EVIL_REGEX), CASE_INSENSITIVE)
  {
    var c := NewTestConfiguration();
    first := c.GetPattern(lib);
    c.SetRegex(other);
    c.SetCaseSensitive(true);
    second := c.GetPattern(lib);
    compilations := c.compilations;
  }

  /** A failed compilation caches nothing: fixing the regex lets the next call compile it. */
  method CompileRetriedAfterFailure(lib: Library) returns (first: Result<Pattern>, second: Result<Pattern>)
    requires lib.compiles(EVIL_REGEX, CASE_INSENSITIVE)
    ensures first == Failure(NullPointerException)
    ensures second == Success(EVIL)
  {
    var c := new Configuration();
    first := c.GetPattern(lib);
    c.SetRegex(Some(EVIL_REGEX));
    second := c.GetPattern(lib);
  }
}
