/** What onRequest's decision promises: the searches find exactly the matches,
    the checks run in their fixed order and short-circuit, a disabled check reads
    nothing, and a request ends with exactly one chain call unless an exception escapes. */
module PolicyProperties {
  import opened Jdk
  import opened Gateway
  import opened Policy

  /** The decoded path matches. */
  ghost predicate PathHit(lib: Library, p: Pattern, request: RequestData) {
    var path := Decode(lib, request.pathInfo);
    path.Success? && lib.matches(p, path.value)
  }

  /** Neither the path nor any parameter value has an illegal escape. */
  ghost predicate RequestDecodable(lib: Library, request: RequestData) {
    !lib.urlDecode(request.pathInfo).IllegalEscape? && MapDecodable(lib, request.parameters)
  }

  /** The value search reports exactly whether some value matches; it can only fail on a
      value whose decoding throws, and it cannot fail when no value does. */
  lemma {:induction false} AnyValueMatchesIsExists(lib: Library, p: Pattern, values: seq<string>, decodeValues: bool)
    ensures var r := AnyValueMatches(lib, p, values, decodeValues);
            (r.Success? ==> r.value == ValuesHit(lib, p, values, decodeValues))
            && (r.Failure? ==> decodeValues && !ValuesDecodable(lib, values) && r.exception == IllegalArgumentException)
            && ((!decodeValues || ValuesDecodable(lib, values)) ==> r.Success?)
            && (r == Success(false) ==> !decodeValues || ValuesDecodable(lib, values))
    decreases |values|
  {
    if values != [] {
      var rest := values[1..];
      AnyValueMatchesIsExists(lib, p, rest, decodeValues);
      assert forall v :: v in values <==> v == values[0] || v in rest by {
        assert values == [values[0]] + rest;
      }
      var s := Subject(lib, values[0], decodeValues);
      if s.Success? && !lib.matches(p, s.value) {
        assert ValuesHit(lib, p, values, decodeValues) == ValuesHit(lib, p, rest, decodeValues);
        assert ValuesDecodable(lib, rest) ==> ValuesDecodable(lib, values) || !decodeValues;
      } else if s.Success? {
        assert ValueHit(lib, p, values[0], decodeValues);
      }
    }
  }

  /** The map search (matches(map, decodeValues)) reports exactly whether some name or value
      matches; names are never decoded, so only a value's decoding can make it fail. */
  lemma {:induction false} AnyEntryMatchesIsExists(lib: Library, p: Pattern, entries: MultiValueMap, decodeValues: bool)
    ensures var r := AnyEntryMatches(lib, p, entries, decodeValues);
            (r.Success? ==> r.value == MapHit(lib, p, entries, decodeValues))
            && (r.Failure? ==> decodeValues && !MapDecodable(lib, entries) && r.exception == IllegalArgumentException)
            && ((!decodeValues || MapDecodable(lib, entries)) ==> r.Success?)
            && (r == Success(false) ==> !decodeValues || MapDecodable(lib, entries))
    decreases |entries|
  {
    if entries != [] {
      var e, rest := entries[0], entries[1..];
      AnyEntryMatchesIsExists(lib, p, rest, decodeValues);
      AnyValueMatchesIsExists(lib, p, e.1, decodeValues);
      assert forall x :: x in entries <==> x == e || x in rest by {
        assert entries == [e] + rest;
      }
      if lib.matches(p, e.0) {
        assert EntryHit(lib, p, e, decodeValues);
      } else {
        var inner := AnyValueMatches(lib, p, e.1, decodeValues);
        if inner.Success? && inner.value {
          assert EntryHit(lib, p, e, decodeValues);
        } else if inner.Success? {
          assert !EntryHit(lib, p, e, decodeValues);
          assert MapHit(lib, p, entries, decodeValues) == MapHit(lib, p, rest, decodeValues);
        }
      }
    }
  }

  lemma {:induction false} ValueSearchIgnoresDecoderWhenRaw(lib: Library, decoder: string -> UrlDecoding, p: Pattern, values: seq<string>)
    ensures AnyValueMatches(lib.(urlDecode := decoder), p, values, false) == AnyValueMatches(lib, p, values, false)
    decreases |values|
  {
    if values != [] {
      ValueSearchIgnoresDecoderWhenRaw(lib, decoder, p, values[1..]);
    }
  }

  /** Header matching decodes nothing: the result is the same whatever URL decoder the platform has. */
  lemma {:induction false} HeaderSearchIgnoresDecoder(lib: Library, decoder: string -> UrlDecoding, p: Pattern, headers: MultiValueMap)
    ensures AnyEntryMatches(lib.(urlDecode := decoder), p, headers, false) == AnyEntryMatches(lib, p, headers, false)
    decreases |headers|
  {
    if headers != [] {
      ValueSearchIgnoresDecoderWhenRaw(lib, decoder, p, headers[0].1);
      HeaderSearchIgnoresDecoder(lib, decoder, p, headers[1..]);
    }
  }

  /** The inner anyMatch over values split in two: the second part is tried only when the first
      part neither matches nor throws. */
  lemma {:induction false} AnyValueMatchesAppend(lib: Library, p: Pattern, a: seq<string>, b: seq<string>, decodeValues: bool)
    ensures AnyValueMatches(lib, p, a + b, decodeValues)
            == (match AnyValueMatches(lib, p, a, decodeValues)
                case Success(false) => AnyValueMatches(lib, p, b, decodeValues)
                case r => r)
    decreases |a|
  {
    if a == [] {
      assert a + b == b;
    } else {
      assert (a + b)[0] == a[0] && (a + b)[1..] == a[1..] + b;
      AnyValueMatchesAppend(lib, p, a[1..], b, decodeValues);
    }
  }

  /** anyMatch over a map split in two: the second part is searched only when the first part
      neither matches nor throws, so whichever comes first of a match and an illegal escape decides. */
  lemma {:induction false} AnyEntryMatchesAppend(lib: Library, p: Pattern, a: MultiValueMap, b: MultiValueMap, decodeValues: bool)
    ensures AnyEntryMatches(lib, p, a + b, decodeValues)
            == (match AnyEntryMatches(lib, p, a, decodeValues)
                case Success(false) => AnyEntryMatches(lib, p, b, decodeValues)
                case r => r)
    decreases |a|
  {
    if a == [] {
      assert a + b == b;
    } else {
      assert (a + b)[0] == a[0] && (a + b)[1..] == a[1..] + b;
      AnyEntryMatchesAppend(lib, p, a[1..], b, decodeValues);
    }
  }

  /** With every check off nothing is read, the pattern is not needed, and the chain continues. */
  lemma NoChecksReadsNothing(got: Result<Pattern>, request: RequestData, lib: Library)
    ensures RequestVerdict(false, false, got, request, lib) == Verdict([], Called(DoNext))
  {
  }

  /** A disabled check never reads its input. */
  lemma DisabledCheckIsNotRead(checkHeaders: bool, checkPath: bool, got: Result<Pattern>, request: RequestData, lib: Library)
    ensures var v := RequestVerdict(checkHeaders, checkPath, got, request, lib);
            (!checkHeaders ==> HeadersRead !in v.accessed)
            && (!checkPath ==> PathInfoRead !in v.accessed && ParametersRead !in v.accessed)
  {
  }

  /** A matching header name or raw value fails the request with the header reason,
      and neither the path nor the parameters are read. */
  lemma HeaderHitRejects(checkPath: bool, p: Pattern, request: RequestData, lib: Library)
    requires MapHit(lib, p, request.headers, false)
    ensures RequestVerdict(true, checkPath, Success(p), request, lib)
            == Verdict([HeadersRead], Called(FailWith(Rejection(REGEX_THREAT_HEADER_DETECTED_KEY))))
  {
    AnyEntryMatchesIsExists(lib, p, request.headers, false);
  }

  /** Headers passing does not skip the path check: the two checks are independent. */
  lemma HeadersPassedPathStillChecked(p: Pattern, request: RequestData, lib: Library)
    requires !MapHit(lib, p, request.headers, false)
    ensures var v := RequestVerdict(true, true, Success(p), request, lib);
            |v.accessed| >= 2 && v.accessed[0] == HeadersRead && v.accessed[1] == PathInfoRead
  {
    AnyEntryMatchesIsExists(lib, p, request.headers, false);
  }

  /** A matching decoded path fails the request with the path reason, and the parameters
      are not read. */
  lemma PathHitSkipsParameters(checkHeaders: bool, p: Pattern, request: RequestData, lib: Library)
    requires checkHeaders ==> !MapHit(lib, p, request.headers, false)
    requires PathHit(lib, p, request)
    ensures var v := RequestVerdict(checkHeaders, true, Success(p), request, lib);
            v.outcome == Called(FailWith(Rejection(REGEX_THREAT_PATH_DETECTED_KEY)))
            && ParametersRead !in v.accessed
            && v.accessed == (if checkHeaders then [HeadersRead] else []) + [PathInfoRead]
  {
    AnyEntryMatchesIsExists(lib, p, request.headers, false);
  }

  /** A matching parameter name (raw) or value (decoded) fails the request with the path reason,
      after path and parameters were read, provided no value before it (in `a`) has an illegal
      escape; whatever follows it (`b`) is never looked at. */
  lemma ParameterHitRejects(checkHeaders: bool, p: Pattern, request: RequestData, a: MultiValueMap, b: MultiValueMap, lib: Library)
    requires checkHeaders ==> !MapHit(lib, p, request.headers, false)
    requires !lib.urlDecode(request.pathInfo).IllegalEscape? && !PathHit(lib, p, request)
    requires request.parameters == a + b && MapHit(lib, p, a, true) && MapDecodable(lib, a)
    ensures RequestVerdict(checkHeaders, true, Success(p), request, lib)
            == Verdict((if checkHeaders then [HeadersRead] else []) + [PathInfoRead, ParametersRead],
                       Called(FailWith(Rejection(REGEX_THREAT_PATH_DETECTED_KEY))))
  {
    AnyEntryMatchesIsExists(lib, p, request.headers, false);
    AnyEntryMatchesIsExists(lib, p, a, true);
    AnyEntryMatchesAppend(lib, p, a, b, true);
  }

  /** For every request, doNext is called only when no enabled check found a match. */
  lemma DoNextOnlyWhenNothingMatched(checkHeaders: bool, checkPath: bool, p: Pattern, request: RequestData, lib: Library)
    ensures RequestVerdict(checkHeaders, checkPath, Success(p), request, lib).outcome == Called(DoNext) ==>
              !(checkHeaders && MapHit(lib, p, request.headers, false))
              && !(checkPath && (PathHit(lib, p, request) || MapHit(lib, p, request.parameters, true)))
  {
    AnyEntryMatchesIsExists(lib, p, request.headers, false);
    AnyEntryMatchesIsExists(lib, p, request.parameters, true);
  }

  /** When the pattern compiles and nothing fails to decode, onRequest makes exactly one chain
      call, and it is doNext exactly when no enabled check found a match. */
  lemma DoNextIffNothingMatched(checkHeaders: bool, checkPath: bool, p: Pattern, request: RequestData, lib: Library)
    requires checkPath ==> RequestDecodable(lib, request)
    ensures var v := RequestVerdict(checkHeaders, checkPath, Success(p), request, lib);
            v.outcome.Called?
            && (v.outcome == Called(DoNext) <==>
                  !(checkHeaders && MapHit(lib, p, request.headers, false))
                  && !(checkPath && (PathHit(lib, p, request) || MapHit(lib, p, request.parameters, true))))
  {
    AnyEntryMatchesIsExists(lib, p, request.headers, false);
    AnyEntryMatchesIsExists(lib, p, request.parameters, true);
  }

  /** Every failWith has a reason: the header reason only after a header match, the path reason
      only after a path or parameter match. onRequest never calls streamFailWith. */
  lemma RejectionsAreJustified(checkHeaders: bool, checkPath: bool, got: Result<Pattern>, request: RequestData, lib: Library)
    ensures var v := RequestVerdict(checkHeaders, checkPath, got, request, lib);
            (v.outcome.Called? ==> !v.outcome.call.StreamFailWith?)
            && (v.outcome.Called? && v.outcome.call.FailWith? ==>
                  got.Success?
                  && ((v.outcome.call.result == Rejection(REGEX_THREAT_HEADER_DETECTED_KEY)
                       && checkHeaders && MapHit(lib, got.value, request.headers, false))
                      || (v.outcome.call.result == Rejection(REGEX_THREAT_PATH_DETECTED_KEY)
                          && checkPath
                          && (PathHit(lib, got.value, request) || MapHit(lib, got.value, request.parameters, true)))))
  {
    if got.Success? {
      AnyEntryMatchesIsExists(lib, got.value, request.headers, false);
      AnyEntryMatchesIsExists(lib, got.value, request.parameters, true);
    }
  }

  /** An exception escapes only from a failed compilation (when some check is on) or from an
      illegal escape in the path or a parameter value (when the path is checked). */
  lemma ThrowsOnlyFromCompileOrEscape(checkHeaders: bool, checkPath: bool, got: Result<Pattern>, request: RequestData, lib: Library)
    ensures var v := RequestVerdict(checkHeaders, checkPath, got, request, lib);
            v.outcome.Threw? ==>
              (got.Failure? && (checkHeaders || checkPath) && v.outcome.exception == got.exception)
              || (got.Success? && checkPath && !RequestDecodable(lib, request)
                  && v.outcome.exception == IllegalArgumentException)
  {
    if got.Success? {
      AnyEntryMatchesIsExists(lib, got.value, request.headers, false);
      AnyEntryMatchesIsExists(lib, got.value, request.parameters, true);
    }
  }

  /** A failed compilation escapes from onRequest, with no chain call, as soon as some check is on. */
  lemma CompileFailureEscapes(checkHeaders: bool, checkPath: bool, e: Exception, request: RequestData, lib: Library)
    requires checkHeaders || checkPath
    ensures var v := RequestVerdict(checkHeaders, checkPath, Failure(e), request, lib);
            v.outcome == Threw(e) && CallsOf(v.outcome) == []
  {
  }

  /** An illegal escape in the path escapes from onRequest (IllegalArgumentException, no chain
      call) once the headers have passed; the parameters are not read. */
  lemma IllegalPathEscapeEscapes(checkHeaders: bool, p: Pattern, request: RequestData, lib: Library)
    requires checkHeaders ==> !MapHit(lib, p, request.headers, false)
    requires lib.urlDecode(request.pathInfo).IllegalEscape?
    ensures var v := RequestVerdict(checkHeaders, true, Success(p), request, lib);
            v.outcome == Threw(IllegalArgumentException) && CallsOf(v.outcome) == []
            && ParametersRead !in v.accessed
  {
    AnyEntryMatchesIsExists(lib, p, request.headers, false);
  }

  /** An illegal escape in a parameter value escapes from onRequest (IllegalArgumentException,
      no chain call) when nothing before it matched: no header, not the path, and no parameter
      up to it (in `a`); a match after it (in `b`) is never reached. */
  lemma IllegalParameterEscapeEscapes(checkHeaders: bool, p: Pattern, request: RequestData, a: MultiValueMap, b: MultiValueMap, lib: Library)
    requires checkHeaders ==> !MapHit(lib, p, request.headers, false)
    requires !lib.urlDecode(request.pathInfo).IllegalEscape? && !PathHit(lib, p, request)
    requires request.parameters == a + b && !MapHit(lib, p, a, true) && !MapDecodable(lib, a)
    ensures var v := RequestVerdict(checkHeaders, true, Success(p), request, lib);
            v.accessed == (if checkHeaders then [HeadersRead] else []) + [PathInfoRead, ParametersRead]
            && v.outcome == Threw(IllegalArgumentException) && CallsOf(v.outcome) == []
  {
    AnyEntryMatchesIsExists(lib, p, request.headers, false);
    AnyEntryMatchesIsExists(lib, p, a, true);
    AnyEntryMatchesAppend(lib, p, a, b, true);
  }

  // Inside one parameter entry: the raw name is tested before the values, and the values first
  // to last, so the first of a match and an illegal escape decides even within an entry.

  /** A matching raw parameter name fails the request with the path reason whatever its values
      hold, provided no value in the entries before it has an illegal escape. */
  lemma ParameterNameHitRejects(checkHeaders: bool, p: Pattern, request: RequestData,
                                a: MultiValueMap, name: string, vs: seq<string>, b: MultiValueMap, lib: Library)
    requires checkHeaders ==> !MapHit(lib, p, request.headers, false)
    requires !lib.urlDecode(request.pathInfo).IllegalEscape? && !PathHit(lib, p, request)
    requires request.parameters == a + [(name, vs)] + b && MapDecodable(lib, a) && lib.matches(p, name)
    ensures RequestVerdict(checkHeaders, true, Success(p), request, lib)
            == Verdict((if checkHeaders then [HeadersRead] else []) + [PathInfoRead, ParametersRead],
                       Called(FailWith(Rejection(REGEX_THREAT_PATH_DETECTED_KEY))))
  {
    AnyEntryMatchesIsExists(lib, p, request.headers, false);
    AnyEntryMatchesIsExists(lib, p, a, true);
    var e := (name, vs);
    assert a + [e] + b == a + ([e] + b);
    assert ([e] + b)[0] == e;
    AnyEntryMatchesAppend(lib, p, a, [e] + b, true);
  }

  /** A parameter value that decodes and matches fails the request with the path reason whatever
      follows it, provided no value before it (in the earlier entries or earlier in its own
      entry) has an illegal escape. */
  lemma ParameterValueHitRejects(checkHeaders: bool, p: Pattern, request: RequestData, a: MultiValueMap,
                                 name: string, vs: seq<string>, v: string, ws: seq<string>, b: MultiValueMap, lib: Library)
    requires checkHeaders ==> !MapHit(lib, p, request.headers, false)
    requires !lib.urlDecode(request.pathInfo).IllegalEscape? && !PathHit(lib, p, request)
    requires request.parameters == a + [(name, vs + [v] + ws)] + b
    requires MapDecodable(lib, a) && ValuesDecodable(lib, vs) && ValueHit(lib, p, v, true)
    ensures RequestVerdict(checkHeaders, true, Success(p), request, lib)
            == Verdict((if checkHeaders then [HeadersRead] else []) + [PathInfoRead, ParametersRead],
                       Called(FailWith(Rejection(REGEX_THREAT_PATH_DETECTED_KEY))))
  {
    AnyEntryMatchesIsExists(lib, p, request.headers, false);
    AnyEntryMatchesIsExists(lib, p, a, true);
    var e := (name, vs + [v] + ws);
    assert a + [e] + b == a + ([e] + b);
    assert ([e] + b)[0] == e && ([e] + b)[1..] == b;
    AnyEntryMatchesAppend(lib, p, a, [e] + b, true);
    AnyValueMatchesIsExists(lib, p, vs, true);
    assert vs + [v] + ws == vs + ([v] + ws);
    assert ([v] + ws)[0] == v;
    AnyValueMatchesAppend(lib, p, vs, [v] + ws, true);
  }

  /** A parameter value with an illegal escape escapes from onRequest (IllegalArgumentException,
      no chain call) whatever follows it, provided nothing before it matched: no header, not the
      path, no name or value in the earlier entries, not its own entry's name and none of the
      values before it in that entry. */
  lemma IllegalValueEscapeEscapes(checkHeaders: bool, p: Pattern, request: RequestData, a: MultiValueMap,
                                  name: string, vs: seq<string>, v: string, ws: seq<string>, b: MultiValueMap, lib: Library)
    requires checkHeaders ==> !MapHit(lib, p, request.headers, false)
    requires !lib.urlDecode(request.pathInfo).IllegalEscape? && !PathHit(lib, p, request)
    requires request.parameters == a + [(name, vs + [v] + ws)] + b
    requires !MapHit(lib, p, a, true) && !lib.matches(p, name) && !ValuesHit(lib, p, vs, true)
    requires lib.urlDecode(v).IllegalEscape?
    ensures var r := RequestVerdict(checkHeaders, true, Success(p), request, lib);
            r.accessed == (if checkHeaders then [HeadersRead] else []) + [PathInfoRead, ParametersRead]
            && r.outcome == Threw(IllegalArgumentException) && CallsOf(r.outcome) == []
  {
    AnyEntryMatchesIsExists(lib, p, request.headers, false);
    AnyEntryMatchesIsExists(lib, p, a, true);
    var e := (name, vs + [v] + ws);
    assert a + [e] + b == a + ([e] + b);
    assert ([e] + b)[0] == e && ([e] + b)[1..] == b;
    AnyEntryMatchesAppend(lib, p, a, [e] + b, true);
    AnyValueMatchesIsExists(lib, p, vs, true);
    assert vs + [v] + ws == vs + ([v] + ws);
    assert ([v] + ws)[0] == v;
    AnyValueMatchesAppend(lib, p, vs, [v] + ws, true);
  }
}
