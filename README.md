# Regex threat protection policy — a Dafny model

This project models the Gravitee regex threat protection policy. The policy is a gateway filter. It matches one configured regular expression against a request's headers, its path, its query parameters and its body. On the first match it fails the request with HTTP 400. Otherwise it lets the request continue.

Modules, one per concern:

- `Jdk` (jdk.dfy): the Java platform pieces the policy uses but does not define. These are `Pattern.compile`, `Matcher.matches()` (a whole-string match), `URLDecoder.decode` with the default charset, and `Buffer.toString()`. They are uninterpreted: a `Library` value carries them as functions, and every property is proved for every library. Java exceptions become `Result.Failure`, and Java `null` becomes `Option.None`.
- `Gateway` (gateway.dfy): the host objects. `Request` keeps a log of the accessors called on it. `PolicyChain` keeps a log of `doNext` / `failWith` / `streamFailWith` calls. This log is what the repository's Mockito tests check.
- `PolicyConfiguration` (configuration.dfy): the configuration class. It has mutable settings with the documented defaults, and a pattern that is compiled lazily and then cached. A ghost counter together with `Valid()` states that at most one compilation succeeds.
- `Policy` (policy.dfy): the decision engine. `RequestVerdict` and `TransformVerdict` are pure specification functions. `RegexThreatProtectionPolicy` and `BodyTransform` are classes that follow the Java code step by step, and their contracts tie them to those functions.
- `PolicyProperties` (policy_properties.dfy): lemmas about the decision. They cover check order, short-circuiting, which accessors are read, exactly one chain call, and raw versus decoded matching.
- `PolicyScenarios` (policy_scenarios.dfy): the twelve tests of RegexThreatProtectionPolicyTest restated as client methods of the classes, all starting from the tests' shared setup. What the regex engine and the URL decoder do with the test strings is a precondition on the library. Three further methods (`CaseSensitiveCompile`, `CacheSurvivesReconfiguration`, `CompileRetriedAfterFailure`) replay no test: they exercise the configuration's pattern cache, and `CompileRetriedAfterFailure` starts from the default configuration. The lemma `FirstOfHitAndEscapeDecides` shows the parameter search's left-to-right order on a concrete request.

Behaviours of the code that the model keeps as they are:

- The header check and the path check are two independent `if`s (RegexThreatProtectionPolicy.java:57-67). After the headers pass, the path is still checked.
- `decode` catches only `UnsupportedEncodingException` (RegexThreatProtectionPolicy.java:107-111). A malformed escape makes `URLDecoder.decode` throw `IllegalArgumentException`, and nothing catches it. It escapes from `onRequest` and no chain call is made (`PolicyProperties.IllegalPathEscapeEscapes`, `PolicyProperties.IllegalParameterEscapeEscapes`). The model has this case as `UrlDecoding.IllegalEscape`.
- The pattern is compiled on first use, inside `getPattern` (RegexThreatProtectionPolicyConfiguration.java:72-86). A null or malformed regex therefore throws from the first `onRequest` or body transform that needs the pattern, and that call makes no chain call (`PolicyProperties.CompileFailureEscapes`).
- Accessors are read and the pattern is compiled in Java's evaluation order. `request.headers()` is read before `getPattern()`, and `getPattern()` runs before `request.pathInfo()`.

## Model

| member | source | states |
|---|---|---|
| `PolicyConfiguration.CompileFlags` | src/main/java/io/gravitee/policy/threatprotection/regex/RegexThreatProtectionPolicyConfiguration.java:76-80 | the compile flags contain CASE_INSENSITIVE exactly when caseSensitive is false, and no other flag |
| `PolicyConfiguration.Configuration.constructor` | src/main/java/io/gravitee/policy/threatprotection/regex/RegexThreatProtectionPolicyConfiguration.java:36-65 | defaults: checkHeaders, checkPath and checkBody are true, caseSensitive is false, regex is null, nothing is cached or compiled |
| `PolicyConfiguration.Configuration.GetPattern` | src/main/java/io/gravitee/policy/threatprotection/regex/RegexThreatProtectionPolicyConfiguration.java:72-86 | compiles only when nothing is cached; a cached pattern is returned unchanged; a new pattern is compiled from the current regex with CASE_INSENSITIVE exactly when caseSensitive is false; a failure (null regex, syntax error) caches nothing; at most one compilation ever succeeds |
| `PolicyConfiguration.Configuration.SetRegex` | src/main/java/io/gravitee/policy/threatprotection/regex/RegexThreatProtectionPolicyConfiguration.java:92-94 | sets regex and changes no other field; in particular the cached pattern is not invalidated |
| `PolicyConfiguration.Configuration.SetCheckHeaders` | src/main/java/io/gravitee/policy/threatprotection/regex/RegexThreatProtectionPolicyConfiguration.java:100-102 | sets checkHeaders and changes no other field |
| `PolicyConfiguration.Configuration.SetCheckPath` | src/main/java/io/gravitee/policy/threatprotection/regex/RegexThreatProtectionPolicyConfiguration.java:108-110 | sets checkPath and changes no other field |
| `PolicyConfiguration.Configuration.SetCheckBody` | src/main/java/io/gravitee/policy/threatprotection/regex/RegexThreatProtectionPolicyConfiguration.java:116-118 | sets checkBody and changes no other field |
| `PolicyConfiguration.Configuration.SetCaseSensitive` | src/main/java/io/gravitee/policy/threatprotection/regex/RegexThreatProtectionPolicyConfiguration.java:124-126 | sets caseSensitive and changes no other field; it does not invalidate the cached pattern |
| `Policy.Rejection` | src/main/java/io/gravitee/policy/threatprotection/regex/RegexThreatProtectionPolicy.java:42-45 | every failure report has status 400, message "Bad Request", content type text/plain, and the given reason key |
| `Policy.Decode` | src/main/java/io/gravitee/policy/threatprotection/regex/RegexThreatProtectionPolicy.java:105-112 | the decoded text, or the input unchanged when the charset is unsupported; fails (IllegalArgumentException) exactly when the value holds an illegal escape |
| `PolicyProperties.AnyValueMatchesIsExists` | src/main/java/io/gravitee/policy/threatprotection/regex/RegexThreatProtectionPolicy.java:101-102 | when it does not throw, the value search returns true exactly when some value (decoded when asked) matches; it fails only on an undecodable value, cannot fail when values are raw or all decodable, and a false result means every value decoded |
| `PolicyProperties.AnyEntryMatchesIsExists` | src/main/java/io/gravitee/policy/threatprotection/regex/RegexThreatProtectionPolicy.java:97-103 | when it does not throw, matches(map, decodeValues) returns true exactly when some raw name or some (decoded when asked) value matches; it fails only when decoding is on and some value is undecodable; a false result means every value decoded |
| `PolicyProperties.ValueSearchIgnoresDecoderWhenRaw` | src/main/java/io/gravitee/policy/threatprotection/regex/RegexThreatProtectionPolicy.java:102 | with decodeValues false the value search does not depend on the URL decoder |
| `PolicyProperties.HeaderSearchIgnoresDecoder` | src/main/java/io/gravitee/policy/threatprotection/regex/RegexThreatProtectionPolicy.java:92-95 | header matching (decodeValues false) gives the same result whatever the URL decoder is: nothing is decoded |
| `Policy.AnyValueMatches` | src/main/java/io/gravitee/policy/threatprotection/regex/RegexThreatProtectionPolicy.java:102 | the inner anyMatch over one entry's values; it can fail only when values are decoded, and then with IllegalArgumentException |
| `Policy.AnyEntryMatches` | src/main/java/io/gravitee/policy/threatprotection/regex/RegexThreatProtectionPolicy.java:97-103 | the outer anyMatch over the map's entries, name before values; it can fail only when values are decoded, and then with IllegalArgumentException |
| `Policy.RequestVerdict` | src/main/java/io/gravitee/policy/threatprotection/regex/RegexThreatProtectionPolicy.java:54-70 | onRequest as a function: each accessor is read at most once, in the order headers, pathInfo, parameters; the headers are read exactly when checkHeaders is on; the only chain calls are doNext and failWith with the header or path reason |
| `Policy.PathVerdict` | src/main/java/io/gravitee/policy/threatprotection/regex/RegexThreatProtectionPolicy.java:63-69 | the path stage: pathInfo, then possibly parameters, are read exactly when checkPath is on and the pattern compiled; with checkPath off the result is doNext; the only chain calls are doNext and failWith with the path reason |
| `Policy.RegexThreatProtectionPolicy.constructor` | src/main/java/io/gravitee/policy/threatprotection/regex/RegexThreatProtectionPolicy.java:49-51 | the policy keeps the configuration it is given |
| `Policy.RegexThreatProtectionPolicy.Matches` | src/main/java/io/gravitee/policy/threatprotection/regex/RegexThreatProtectionPolicy.java:92-95 | one getPattern call, then the raw map search; caches what getPattern caches |
| `Policy.RegexThreatProtectionPolicy.MatchesMap` | src/main/java/io/gravitee/policy/threatprotection/regex/RegexThreatProtectionPolicy.java:97-103 | one getPattern call (its exception propagates), then the map search with the requested decoding |
| `Policy.RegexThreatProtectionPolicy.OnRequest` | src/main/java/io/gravitee/policy/threatprotection/regex/RegexThreatProtectionPolicy.java:54-70 | the accessors read, the chain calls made and the exception thrown are exactly those of RequestVerdict for the settings and the first getPattern result; the pattern is not touched when both checks are off |
| `Policy.RegexThreatProtectionPolicy.OnRequestContent` | src/main/java/io/gravitee/policy/threatprotection/regex/RegexThreatProtectionPolicy.java:73-90 | returns null exactly when checkBody is off, and otherwise a new transform bound to this configuration and chain; changes nothing and makes no chain call |
| `Policy.TransformVerdict` | src/main/java/io/gravitee/policy/threatprotection/regex/RegexThreatProtectionPolicy.java:79-86 | the transform returns the same buffer whenever the pattern is available; at most one chain call, which is streamFailWith with the body reason and happens exactly when the whole body text matches |
| `Policy.BodyTransform.Apply` | src/main/java/io/gravitee/policy/threatprotection/regex/RegexThreatProtectionPolicy.java:79-86 | the result and the chain calls of the transform lambda are those of TransformVerdict for the first getPattern result |
| `PolicyProperties.NoChecksReadsNothing` | src/main/java/io/gravitee/policy/threatprotection/regex/RegexThreatProtectionPolicy.java:57-69 | with both request checks off, nothing is read, the pattern is not needed, and the only call is doNext |
| `PolicyProperties.DisabledCheckIsNotRead` | src/main/java/io/gravitee/policy/threatprotection/regex/RegexThreatProtectionPolicy.java:57-67 | headers are never read with checkHeaders off; pathInfo and parameters are never read with checkPath off |
| `PolicyProperties.HeaderHitRejects` | src/main/java/io/gravitee/policy/threatprotection/regex/RegexThreatProtectionPolicy.java:57-59 | a matching header name or raw value gives exactly one failWith with the header reason, and only the headers are read |
| `PolicyProperties.HeadersPassedPathStillChecked` | src/main/java/io/gravitee/policy/threatprotection/regex/RegexThreatProtectionPolicy.java:57-67 | with both checks on and no header match, the path is read next: passing headers does not skip the path check |
| `PolicyProperties.PathHitSkipsParameters` | src/main/java/io/gravitee/policy/threatprotection/regex/RegexThreatProtectionPolicy.java:63-66 | a matching decoded path fails with the path reason, and the parameters are never read |
| `PolicyProperties.ParameterHitRejects` | src/main/java/io/gravitee/policy/threatprotection/regex/RegexThreatProtectionPolicy.java:63-66 | a raw parameter name or decoded parameter value that matches fails with the path reason, after path and parameters were read, for a parameter map split between entries as a + b where some entry of a matches and no value anywhere in a (including the matching entry) has an illegal escape; b is never looked at. Splits inside an entry are `ParameterNameHitRejects` and `ParameterValueHitRejects` |
| `PolicyProperties.AnyValueMatchesAppend` | src/main/java/io/gravitee/policy/threatprotection/regex/RegexThreatProtectionPolicy.java:102 | searching values split in two equals searching the first part and, only when it neither matches nor throws, the second part |
| `PolicyProperties.AnyEntryMatchesAppend` | src/main/java/io/gravitee/policy/threatprotection/regex/RegexThreatProtectionPolicy.java:101-102 | searching a map split in two equals searching the first part and, only when it neither matches nor throws, the second part: the first match or illegal escape decides |
| `PolicyProperties.DoNextOnlyWhenNothingMatched` | src/main/java/io/gravitee/policy/threatprotection/regex/RegexThreatProtectionPolicy.java:57-69 | for every request, doNext is called only when no enabled check matched |
| `PolicyProperties.DoNextIffNothingMatched` | src/main/java/io/gravitee/policy/threatprotection/regex/RegexThreatProtectionPolicy.java:57-69 | when the pattern compiles and nothing is undecodable, exactly one chain call is made, and it is doNext exactly when no enabled check matched |
| `PolicyProperties.RejectionsAreJustified` | src/main/java/io/gravitee/policy/threatprotection/regex/RegexThreatProtectionPolicy.java:57-69 | a failWith with the header reason implies an enabled header match; one with the path reason implies an enabled path or parameter match; onRequest never calls streamFailWith |
| `PolicyProperties.ThrowsOnlyFromCompileOrEscape` | src/main/java/io/gravitee/policy/threatprotection/regex/RegexThreatProtectionPolicy.java:57-69 | an exception escapes only from a failed compilation while some check is on, or from an illegal escape in the path or a parameter while the path is checked |
| `PolicyProperties.CompileFailureEscapes` | src/main/java/io/gravitee/policy/threatprotection/regex/RegexThreatProtectionPolicy.java:57-64 | with some check on, a failed compilation escapes from onRequest as the same exception, and no chain call is made |
| `PolicyProperties.IllegalPathEscapeEscapes` | src/main/java/io/gravitee/policy/threatprotection/regex/RegexThreatProtectionPolicy.java:63-64 | once the headers pass, an illegal escape in the path escapes as IllegalArgumentException, with no chain call and without reading the parameters |
| `PolicyProperties.IllegalParameterEscapeEscapes` | src/main/java/io/gravitee/policy/threatprotection/regex/RegexThreatProtectionPolicy.java:63-64 | for a parameter map split between entries as a + b where no name or value in a matches and some value in a has an illegal escape (and no header and not the path matches), IllegalArgumentException escapes after path and parameters were read, with no chain call; a match in b is never reached. A split inside an entry is `IllegalValueEscapeEscapes` |
| `PolicyProperties.ParameterNameHitRejects` | src/main/java/io/gravitee/policy/threatprotection/regex/RegexThreatProtectionPolicy.java:101 | a raw parameter name that matches fails with the path reason whatever its own values hold (even illegal escapes) and whatever follows, provided no value in the entries before it has an illegal escape |
| `PolicyProperties.ParameterValueHitRejects` | src/main/java/io/gravitee/policy/threatprotection/regex/RegexThreatProtectionPolicy.java:102 | a decoded parameter value that matches fails with the path reason whatever follows it in its entry and in later entries, provided no value before it, in earlier entries or earlier in its entry, has an illegal escape |
| `PolicyProperties.IllegalValueEscapeEscapes` | src/main/java/io/gravitee/policy/threatprotection/regex/RegexThreatProtectionPolicy.java:102 | a parameter value with an illegal escape makes IllegalArgumentException escape, with no chain call, whatever follows it, provided nothing before it matched: no header, not the path, no name or value of earlier entries, not its entry's name, no earlier value of its entry |
| `PolicyScenarios.NewTestConfiguration` | src/test/java/io/gravitee/policy/threatprotection/regex/RegexThreatProtectionPolicyTest.java:59-68 | the tests' setup: regex ".*evil.*", every check off, case-insensitive, nothing cached |
| `PolicyScenarios.AcceptAllWhenNoCheck` | src/test/java/io/gravitee/policy/threatprotection/regex/RegexThreatProtectionPolicyTest.java:71-81 | all checks off: no transform, no accessor read, exactly one doNext, for every request and library |
| `PolicyScenarios.AcceptHeaders` | src/test/java/io/gravitee/policy/threatprotection/regex/RegexThreatProtectionPolicyTest.java:84-97 | headers checked, none of the test headers matching: no transform, only the headers are read, one doNext |
| `PolicyScenarios.RejectEvilHeaderName` | src/test/java/io/gravitee/policy/threatprotection/regex/RegexThreatProtectionPolicyTest.java:100-116 | a header named "header-evil" that the pattern matches: no transform, only the headers are read, one failWith with the header reason |
| `PolicyScenarios.RejectEvilHeaderValue` | src/test/java/io/gravitee/policy/threatprotection/regex/RegexThreatProtectionPolicyTest.java:119-135 | header2 given the extra value "jkl-evil", which the pattern matches: no transform, only the headers are read, one failWith with the header reason |
| `PolicyScenarios.RejectEvilPath` | src/test/java/io/gravitee/policy/threatprotection/regex/RegexThreatProtectionPolicyTest.java:155-168 | path "/path-evil" that the pattern matches: no transform, only pathInfo is read, one failWith with the path reason |
| `PolicyScenarios.AcceptPathAndParams` | src/test/java/io/gravitee/policy/threatprotection/regex/RegexThreatProtectionPolicyTest.java:138-152 | path "/path" and the test parameters, none matching: no transform, pathInfo then parameters are read, one doNext |
| `PolicyScenarios.RejectEvilParamName` | src/test/java/io/gravitee/policy/threatprotection/regex/RegexThreatProtectionPolicyTest.java:171-188 | a parameter named "param-evil" that the pattern matches: no transform, pathInfo then parameters are read, one failWith with the path reason |
| `PolicyScenarios.RejectEvilParamValue` | src/test/java/io/gravitee/policy/threatprotection/regex/RegexThreatProtectionPolicyTest.java:191-208 | param2 given the extra value "jkl-evil", which decodes to itself and matches: no transform, pathInfo then parameters are read, one failWith with the path reason |
| `PolicyScenarios.FirstOfHitAndEscapeDecides` | src/main/java/io/gravitee/policy/threatprotection/regex/RegexThreatProtectionPolicy.java:101-102 | on concrete parameter maps, across entries and within one entry (a matching name before an escaping value, a matching value before an escaping one, and the reverse), whichever of a match and an illegal escape comes first decides: failWith with the path reason, or IllegalArgumentException |
| `PolicyScenarios.IgnoreBody` | src/test/java/io/gravitee/policy/threatprotection/regex/RegexThreatProtectionPolicyTest.java:211-219 | checkBody off: no transform and no chain interaction |
| `PolicyScenarios.AcceptBody` | src/test/java/io/gravitee/policy/threatprotection/regex/RegexThreatProtectionPolicyTest.java:222-234 | a body that does not match is returned unchanged and no chain call is made |
| `PolicyScenarios.RejectEvilBody` | src/test/java/io/gravitee/policy/threatprotection/regex/RegexThreatProtectionPolicyTest.java:237-249 | a body whose text "evil body content" the pattern matches is returned unchanged, and exactly one streamFailWith with the body reason is made |
| `PolicyScenarios.RejectEvilBodyCaseInsensitive` | src/test/java/io/gravitee/policy/threatprotection/regex/RegexThreatProtectionPolicyTest.java:252-264 | with the default settings the pattern carries CASE_INSENSITIVE; if the engine matches "EvIL body content" with it, the body is returned unchanged and exactly one streamFailWith with the body reason is made |
| `PolicyScenarios.CaseSensitiveCompile` | src/main/java/io/gravitee/policy/threatprotection/regex/RegexThreatProtectionPolicyConfiguration.java:76-82 | with caseSensitive on, the pattern is compiled with no flags |
| `PolicyScenarios.CacheSurvivesReconfiguration` | src/main/java/io/gravitee/policy/threatprotection/regex/RegexThreatProtectionPolicyConfiguration.java:72-94 | after a successful getPattern, setRegex and setCaseSensitive do not change what getPattern returns, and exactly one compilation happened |
| `PolicyScenarios.CompileRetriedAfterFailure` | src/main/java/io/gravitee/policy/threatprotection/regex/RegexThreatProtectionPolicyConfiguration.java:72-86 | getPattern with a null regex throws and caches nothing; after setRegex the next call compiles the new regex |

## Left out

- Regex semantics of `java.util.regex`: `Library.compiles` and `Library.matches` are uninterpreted. Whole-string matching (`Matcher.matches()`) is recorded only as their reading. Results that depend on what a particular regex matches, such as the test strings, are stated as preconditions on the library.
- `URLDecoder.decode` and `Charset.defaultCharset()`: these are represented by `Library.urlDecode`, which has three outcomes (decoded text, unsupported charset, illegal escape). Percent-decoding itself is not modelled.
- `Buffer.toString()`: this is `Library.bufferText`. Character decoding of the body bytes is not modelled.
- `TransformableRequestStreamBuilder`: chunk accumulation, stream plumbing and backpressure belong to the host library. `BodyTransform.Apply` is the lambda applied to the complete, already accumulated body. The builder is given the request (`TransformableRequestStreamBuilder.on(request)`); whatever it reads from or changes on the request, such as its headers, is not modelled, and `OnRequestContent` takes no request.
- Host types (`PolicyChain`, `PolicyResult`, `HttpStatusCode`, `MediaType`, `Request`, `Response`) are reduced to the datatypes and logging classes in `Gateway`. `Response` and the arguments of `doNext` are not modelled.
- `MultiValueMap`/`HttpHeaders` are given as their entry sequence in iteration order. Key uniqueness and the maps' own ordering or case rules are not modelled.
- The getters (`getRegex`, `isCheckHeaders`, `isCheckPath`, `isCheckBody`, `isCaseSensitive`) are plain field reads of the class. They have no separate members.
- Jackson annotations and the `@OnRequest`/`@OnRequestContent` dispatch annotations: deserialization and reflection plumbing.
- Thread safety of the lazy initialisation in `getPattern`: the code has no synchronisation, and concurrency is not modelled.
- Other unchecked Java exceptions, such as a null header list returned by the host, are not modelled.
