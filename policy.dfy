/** RegexThreatProtectionPolicy: the request-inspection decision engine.

    The decision of onRequest and of the body transform is first given as pure
    functions (`RequestVerdict`, `TransformVerdict`) of the settings, the result of
    the first getPattern() call and the request; the class below then performs the
    same steps as the Java code, on the host's objects, and is proved to agree
    with those functions. */
module Policy {
  import opened Jdk
  import opened Gateway
  import opened PolicyConfiguration

  const BAD_REQUEST: string := "Bad Request"
  const REGEX_THREAT_HEADER_DETECTED_KEY: string := "REGEX_THREAT_HEADER_DETECTED"
  const REGEX_THREAT_PATH_DETECTED_KEY: string := "REGEX_THREAT_PATH_DETECTED"
  const REGEX_THREAT_BODY_DETECTED_KEY: string := "REGEX_THREAT_BODY_DETECTED"

  /** The failure report for a detected threat: always 400, "Bad Request", text/plain. */
  function Rejection(key: string): (r: PolicyResult)
    ensures r.key == key && r.statusCode == 400 && r.message == "Bad Request" && r.contentType == "text/plain"
  {
    PolicyResult(key, BAD_REQUEST_400, BAD_REQUEST, TEXT_PLAIN)
  }

  /** decode(value): URL-decoding that falls back to the raw value when the charset is
      unsupported. A malformed escape is not caught and its exception propagates. */
  function Decode(lib: Library, value: string): (r: Result<string>)
    ensures lib.urlDecode(value).UnsupportedEncoding? ==> r == Success(value)
    ensures lib.urlDecode(value).Decoded? ==> r == Success(lib.urlDecode(value).text)
    ensures r.Failure? <==> lib.urlDecode(value).IllegalEscape?
    ensures r.Failure? ==> r.exception == IllegalArgumentException
  {
    match lib.urlDecode(value)
    case Decoded(text) => Success(text)
    case UnsupportedEncoding => Success(value)
    case IllegalEscape => Failure(IllegalArgumentException)
  }

  /** The string a map value is matched as: decoded for query parameters, raw for headers. */
  function Subject(lib: Library, value: string, decodeValues: bool): Result<string> {
    if decodeValues then Decode(lib, value) else Success(value)
  }

  /** The inner anyMatch of matches(map, decodeValues): over the values of one entry, first to last,
      stopping at the first value that matches or whose decoding throws. */
  function AnyValueMatches(lib: Library, p: Pattern, values: seq<string>, decodeValues: bool): (r: Result<bool>)
    ensures r.Failure? ==> decodeValues && r.exception == IllegalArgumentException
    decreases |values|
  {
    if values == [] then Success(false)
    else
      match Subject(lib, values[0], decodeValues)
      case Failure(e) => Failure(e)
      case Success(s) =>
        if lib.matches(p, s) then Success(true) else AnyValueMatches(lib, p, values[1..], decodeValues)
  }

  /** The outer anyMatch of matches(map, decodeValues): over the entries, testing the raw name
      first and then the values. */
  function AnyEntryMatches(lib: Library, p: Pattern, entries: MultiValueMap, decodeValues: bool): (r: Result<bool>)
    ensures r.Failure? ==> decodeValues && r.exception == IllegalArgumentException
    decreases |entries|
  {
    if entries == [] then Success(false)
    else if lib.matches(p, entries[0].0) then Success(true)
    else
      match AnyValueMatches(lib, p, entries[0].1, decodeValues)
      case Failure(e) => Failure(e)
      case Success(hit) =>
        if hit then Success(true) else AnyEntryMatches(lib, p, entries[1..], decodeValues)
  }

  // Reference definitions of "something in the map matches".

  ghost predicate ValueHit(lib: Library, p: Pattern, value: string, decodeValues: bool) {
    var s := Subject(lib, value, decodeValues);
    s.Success? && lib.matches(p, s.value)
  }

  ghost predicate ValuesHit(lib: Library, p: Pattern, values: seq<string>, decodeValues: bool) {
    exists v :: v in values && ValueHit(lib, p, v, decodeValues)
  }

  ghost predicate EntryHit(lib: Library, p: Pattern, entry: (string, seq<string>), decodeValues: bool) {
    lib.matches(p, entry.0) || ValuesHit(lib, p, entry.1, decodeValues)
  }

  ghost predicate MapHit(lib: Library, p: Pattern, entries: MultiValueMap, decodeValues: bool) {
    exists e :: e in entries && EntryHit(lib, p, e, decodeValues)
  }

  /** No value decodes with an illegal escape. */
  ghost predicate ValuesDecodable(lib: Library, values: seq<string>) {
    forall v :: v in values ==> !lib.urlDecode(v).IllegalEscape?
  }

  ghost predicate MapDecodable(lib: Library, entries: MultiValueMap) {
    forall e :: e in entries ==> ValuesDecodable(lib, e.1)
  }

  /** How a call of onRequest ends: with one chain call, or by throwing. */
  datatype Outcome = Called(call: ChainCall) | Threw(exception: Exception)

  /** The accessors onRequest reads, in order, and how it ends. */
  datatype Verdict = Verdict(accessed: seq<Accessor>, outcome: Outcome)

  function CallsOf(outcome: Outcome): seq<ChainCall> {
    if outcome.Called? then [outcome.call] else []
  }

  function ThrownOf(outcome: Outcome): Option<Exception> {
    if outcome.Threw? then Some(outcome.exception) else None
  }

  /** onRequest as a function. `got` is what the first getPattern() call of the request returns;
      a success is cached, so every later call of the same request returns it too. */
  function RequestVerdict(checkHeaders: bool, checkPath: bool, got: Result<Pattern>, request: RequestData, lib: Library): (v: Verdict)
    // each accessor is read at most once, in the order headers, pathInfo, parameters
    ensures v.accessed in [[], [HeadersRead], [PathInfoRead], [PathInfoRead, ParametersRead],
                           [HeadersRead, PathInfoRead], [HeadersRead, PathInfoRead, ParametersRead]]
    ensures HeadersRead in v.accessed <==> checkHeaders
    ensures v.outcome.Called? ==>
              v.outcome.call in [DoNext, FailWith(Rejection(REGEX_THREAT_HEADER_DETECTED_KEY)),
                                 FailWith(Rejection(REGEX_THREAT_PATH_DETECTED_KEY))]
  {
    if checkHeaders then
      // request.headers() is evaluated before matches(...) calls getPattern()
      match got
      case Failure(e) => Verdict([HeadersRead], Threw(e))
      case Success(p) =>
        match AnyEntryMatches(lib, p, request.headers, false)
        case Failure(e) => Verdict([HeadersRead], Threw(e))
        case Success(hit) =>
          if hit then Verdict([HeadersRead], Called(FailWith(Rejection(REGEX_THREAT_HEADER_DETECTED_KEY))))
          else
            var rest := PathVerdict(checkPath, got, request, lib);
            assert [HeadersRead] + [] == [HeadersRead];
            assert [HeadersRead] + [PathInfoRead] == [HeadersRead, PathInfoRead];
            assert [HeadersRead] + [PathInfoRead, ParametersRead] == [HeadersRead, PathInfoRead, ParametersRead];
            Verdict([HeadersRead] + rest.accessed, rest.outcome)
    else PathVerdict(checkPath, got, request, lib)
  }

  /** The path and parameter stage of onRequest, and its final doNext. */
  function PathVerdict(checkPath: bool, got: Result<Pattern>, request: RequestData, lib: Library): (v: Verdict)
    ensures v.accessed in [[], [PathInfoRead], [PathInfoRead, ParametersRead]]
    ensures v.accessed == [] <==> !checkPath || got.Failure?
    ensures !checkPath ==> v.outcome == Called(DoNext)
    ensures v.outcome.Called? ==> v.outcome.call in [DoNext, FailWith(Rejection(REGEX_THREAT_PATH_DETECTED_KEY))]
  {
    if !checkPath then Verdict([], Called(DoNext))
    else
      // getPattern() is evaluated before request.pathInfo()
      match got
      case Failure(e) => Verdict([], Threw(e))
      case Success(p) =>
        match Decode(lib, request.pathInfo)
        case Failure(e) => Verdict([PathInfoRead], Threw(e))
        case Success(path) =>
          if lib.matches(p, path) then Verdict([PathInfoRead], Called(FailWith(Rejection(REGEX_THREAT_PATH_DETECTED_KEY))))
          else
            match AnyEntryMatches(lib, p, request.parameters, true)
            case Failure(e) => Verdict([PathInfoRead, ParametersRead], Threw(e))
            case Success(hit) =>
              Verdict([PathInfoRead, ParametersRead],
                      Called(if hit then FailWith(Rejection(REGEX_THREAT_PATH_DETECTED_KEY)) else DoNext))
  }

  /** The body transform's effect on one (complete) buffer. */
  datatype BodyVerdict = BodyVerdict(calls: seq<ChainCall>, result: Result<Buffer>)

  /** The transform lambda of onRequestContent as a function: the buffer is passed on unchanged,
      and streamFailWith is called once exactly when the whole body text matches. */
  function TransformVerdict(got: Result<Pattern>, buffer: Buffer, lib: Library): (v: BodyVerdict)
    ensures v.result.Success? ==> v.result.value == buffer
    ensures v.result.Success? <==> got.Success?
    ensures |v.calls| <= 1
    ensures |v.calls| == 1 <==> got.Success? && lib.matches(got.value, lib.bufferText(buffer.bytes))
    ensures v.calls != [] ==> v.calls == [StreamFailWith(Rejection(REGEX_THREAT_BODY_DETECTED_KEY))]
  {
    match got
    case Failure(e) => BodyVerdict([], Failure(e))
    case Success(p) =>
      var calls := if lib.matches(p, lib.bufferText(buffer.bytes))
                   then [StreamFailWith(Rejection(REGEX_THREAT_BODY_DETECTED_KEY))] else [];
      BodyVerdict(calls, Success(buffer))
  }

  /** The result of one getPattern() call followed by a search of `entries`. */
  function SearchWith(got: Result<Pattern>, entries: MultiValueMap, decodeValues: bool, lib: Library): Result<bool> {
    match got
    case Failure(e) => Failure(e)
    case Success(p) => AnyEntryMatches(lib, p, entries, decodeValues)
  }

  class RegexThreatProtectionPolicy {
    const configuration: Configuration

    constructor (configuration: Configuration)
      ensures this.configuration == configuration
    {
      this.configuration := configuration;
    }

    /** matches(map): header matching, where nothing is decoded. */
    method Matches(entries: MultiValueMap, lib: Library) returns (r: Result<bool>)
      requires configuration.Valid()
      modifies configuration`pattern, configuration`compilations
      ensures configuration.Valid()
      ensures r == SearchWith(old(configuration.Fetch(lib)), entries, false, lib)
      ensures configuration.pattern == CacheAfter(old(configuration.Fetch(lib)))
    {
      r := MatchesMap(entries, false, lib);
    }

    /** matches(map, decodeValues) */
    method MatchesMap(entries: MultiValueMap, decodeValues: bool, lib: Library) returns (r: Result<bool>)
      requires configuration.Valid()
      modifies configuration`pattern, configuration`compilations
      ensures configuration.Valid()
      ensures r == SearchWith(old(configuration.Fetch(lib)), entries, decodeValues, lib)
      ensures configuration.pattern == CacheAfter(old(configuration.Fetch(lib)))
    {
      var pattern := configuration.GetPattern(lib);
      if pattern.Failure? {
        return Failure(pattern.exception);
      }
      r := AnyEntryMatches(lib, pattern.value, entries, decodeValues);
    }

    /** onRequest: headers, then path, then query parameters; the first match fails the request,
        otherwise the chain continues. `thrown` is the exception that escapes, if any. */
    method OnRequest(request: Request, chain: PolicyChain, lib: Library) returns (thrown: Option<Exception>)
      requires configuration.Valid()
      modifies configuration`pattern, configuration`compilations, request`accessed, chain`calls
      ensures configuration.Valid()
      ensures var v := RequestVerdict(configuration.checkHeaders, configuration.checkPath,
                                      old(configuration.Fetch(lib)), request.data, lib);
              request.accessed == old(request.accessed) + v.accessed
              && chain.calls == old(chain.calls) + CallsOf(v.outcome)
              && thrown == ThrownOf(v.outcome)
      ensures configuration.pattern ==
                if configuration.checkHeaders || configuration.checkPath
                then CacheAfter(old(configuration.Fetch(lib))) else old(configuration.pattern)
    {
      ghost var got := configuration.Fetch(lib);
      ghost var accessed0, calls0 := request.accessed, chain.calls;

      // Header stage: raw names and raw values.
      if configuration.checkHeaders {
        var headers := request.Headers();
        var hit := Matches(headers, lib);
        if hit.Failure? {
          return Some(hit.exception);
        }
        if hit.value {
          chain.FailWith(Rejection(REGEX_THREAT_HEADER_DETECTED_KEY));
          return None;
        }
      }
      assert configuration.checkHeaders ==> got.Success? && request.accessed == accessed0 + [HeadersRead];
      assert !configuration.checkHeaders ==> request.accessed == accessed0;
      assert chain.calls == calls0;

      // Path stage: the decoded path, then parameter names (raw) and values (decoded).
      if configuration.checkPath {
        var pattern := configuration.GetPattern(lib);
        if pattern.Failure? {
          return Some(pattern.exception);
        }
        var pathInfo := request.PathInfo();
        var path := Decode(lib, pathInfo);
        if path.Failure? {
          return Some(path.exception);
        }
        var hit := lib.matches(pattern.value, path.value);
        if !hit {
          var parameters := request.Parameters();
          var parametersHit := MatchesMap(parameters, true, lib);
          if parametersHit.Failure? {
            return Some(parametersHit.exception);
          }
          hit := parametersHit.value;
        }
        if hit {
          chain.FailWith(Rejection(REGEX_THREAT_PATH_DETECTED_KEY));
          return None;
        }
      }

      chain.DoNext();
      thrown := None;
    }

    /** onRequestContent: no transform (null) when the body is not checked, otherwise the
        body transform. It changes nothing and makes no chain call. */
    method OnRequestContent(chain: PolicyChain) returns (stream: BodyTransform?)
      ensures stream != null <==> configuration.checkBody
      ensures stream != null ==> fresh(stream) && stream.configuration == configuration && stream.chain == chain
    {
      if configuration.checkBody {
        stream := new BodyTransform(configuration, chain);
      } else {
        stream := null;
      }
    }
  }

  /** The transform installed on the request body, applied to the complete body. */
  class BodyTransform {
    const configuration: Configuration
    const chain: PolicyChain

    constructor (configuration: Configuration, chain: PolicyChain)
      ensures this.configuration == configuration && this.chain == chain
    {
      this.configuration := configuration;
      this.chain := chain;
    }

    /** The transform lambda: match the whole body text, fail the stream on a match, and return
        the buffer in every case. */
    method Apply(buffer: Buffer, lib: Library) returns (r: Result<Buffer>)
      requires configuration.Valid()
      modifies configuration`pattern, configuration`compilations, chain`calls
      ensures configuration.Valid()
      ensures var v := TransformVerdict(old(configuration.Fetch(lib)), buffer, lib);
              r == v.result && chain.calls == old(chain.calls) + v.calls
      ensures configuration.pattern == CacheAfter(old(configuration.Fetch(lib)))
    {
      var pattern := configuration.GetPattern(lib);
      if pattern.Failure? {
        return Failure(pattern.exception);
      }
      // Whole-body match.
      if lib.matches(pattern.value, lib.bufferText(buffer.bytes)) {
        chain.StreamFailWith(Rejection(REGEX_THREAT_BODY_DETECTED_KEY));
      }
      r := Success(buffer);
    }
  }
}
