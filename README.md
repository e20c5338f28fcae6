# Response assertions of httpexpect, modelled in Dafny

httpexpect is a fluent assertion library for HTTP responses in Go tests. A
`Response` wraps a received `http.Response` (status code, header multimap,
optional body) together with a *chain*: a failure flag plus the reporter that
failures go to. Each assertion (`Status`, `NoContent`, `ContentTypeJSON`,
`JSON`) checks the raw data and, on a mismatch, marks the chain failed and
reports once, instead of panicking or returning an error. The accessors
`Headers()`, `Header(name)`, `Body()` and `JSON()` hand out wrappers that carry
a copy of the chain as it is at that moment, so an earlier failure is inherited
and later checks on a failed chain do nothing.

The model states the behaviour that `response_test.go` pins down; every choice
beyond it is named below.

Files and modules:

- `wrappers.dfy` (`Wrappers`): `Option` (a Go nil) and `Result`.
- `tokens.dfy` (`Tokens`): `tchar`/`token` of section 3.2.6 of RFC 7230, ASCII case mapping.
- `json_tree.dfy` (`JsonTree`): the decoded JSON tree, with `Absent` for the nil a failed `JSON()` holds, and the decoder as a function type.
- `header_map.dfy` (`HeaderMap`): the header multimap, canonical header names, `Get` (first value or `""`), the header map seen as a JSON object.
- `media_type.dfy` (`MediaTypes`): a parser and a printer for media types following section 3.1.1.1 of RFC 7231, the round trip between them, and the JSON acceptance rule.
- `chain.dfy` (`Chains`): the `Reporter` and `Chain` classes; `Fail`, `Reset`, and copying a chain into a wrapper.
- `values.dfy` (`Values`): the `String`, `Object` and `Value` wrappers with `Equal`, `Empty` and `Object()`.
- `response.dfy` (`Responses`): the raw response, the verdict of each check as a pure function, the `Response` class, and how the checks relate.
- `response_scenarios.dfy` (`ResponseScenarios`): each test of `response_test.go` as a method whose postcondition is what the test asserts.

Choices where the tests leave room:

- Content-Type is parsed as `type "/" subtype *( OWS ";" OWS parameter )`, where each parameter is `token "=" ( token / quoted-string )`. Whitespace around the whole field value is dropped first. Anything else, the empty value included, is not a media type and fails `ContentTypeJSON`.
- The type, the subtype and parameter names are compared without regard to ASCII case, as section 3.1.1.1 of RFC 7231 says. So `Application/JSON` is accepted. A stricter reading would compare the media type case-sensitively; the tests only use lower case.
- The value of a `charset` parameter must be `utf-8` up to ASCII case, following section 3.1.1.2 of RFC 7231. Every `charset` parameter present is checked. Other parameters are ignored.
- `Header(name)` canonicalises `name` the way Go's `http.Header.Get` does. So lookup ignores ASCII case for names made of token characters. The keys of the raw map are used as stored.
- A chain reports only its first failure. Every check on a response whose chain has already failed does nothing and reports nothing.
- `NoContent` reports a non-empty Content-Type before a non-empty body.
- `Headers()` is the generic object wrapper over the header map seen as a JSON object of string arrays. Its `Equal` takes that view of the expected map.

## Model

| member | source | states |
|---|---|---|
| `Chains.Chain.constructor` | response_test.go:12 | a new chain reports to the given reporter and has not failed |
| `Chains.Chain.Fail` | response_test.go:14 | afterwards the chain has failed; the failure is reported only if the chain had not failed before |
| `Chains.Chain.Reset` | response_test.go:51 | afterwards the chain is OK again |
| `Chains.Chain.Clone` | response_test.go:16 | a copied chain has the same reporter and the same failed state as its source |
| `Chains.Chain.Check` | response_test.go:55-61 | the chain fails exactly when it had failed or the verdict is a failure, and only a new failure is reported |
| `Chains.Reporter.Report` | response_test.go:36 | the reporter's log grows by exactly the reported failure |
| `Values.String.Raw` | response_test.go:82 | `Raw()` is the string the wrapper was built over |
| `Values.String.Equal` | response_test.go:66 | the string wrapper's chain fails exactly when it had failed or the value differs from the expected one |
| `Values.String.Empty` | response_test.go:69 | the string wrapper's chain fails exactly when it had failed or the value is not empty |
| `Values.StringEqualVerdict` | response_test.go:66 | string equality passes if and only if the strings are equal |
| `Values.StringEmptyVerdict` | response_test.go:69 | `Empty()` passes if and only if the string is empty |
| `Values.Object.Raw` | response_test.go:185 | `Raw()` is the map the wrapper was built over |
| `Values.Object.Equal` | response_test.go:63 | the object wrapper's chain fails exactly when it had failed or the object differs from the expected one |
| `Values.ObjectEqualVerdict` | response_test.go:63 | object equality passes if and only if the maps are equal |
| `Values.Value.Raw` | response_test.go:250 | `Raw()` is the JSON value the wrapper was built over, `Absent` after a failed `JSON()` |
| `Values.Value.Object` | response_test.go:184-185 | narrowing keeps the members of a JSON object, and fails the chain with an empty object for any other shape; the object wrapper inherits the resulting failed state |
| `Values.ObjectVerdict` | response_test.go:184-185 | narrowing passes if and only if the value is a JSON object |
| `Responses.StatusVerdict` | response_test.go:55-61 | the status check passes if and only if the expected code is the received one, and otherwise reports both codes |
| `Responses.NoContentVerdict` | response_test.go:106-108 | `NoContent` passes if and only if the Content-Type is empty or absent and the body text is empty |
| `Responses.ContentTypeJsonVerdict` | response_test.go:110-112 | `ContentTypeJSON` passes if and only if the Content-Type value passes the JSON media-type rule |
| `Responses.Response.Raw` | response_test.go:53 | `Raw()` is the raw response the response was built from |
| `Responses.Response.NewResponse` | response_test.go:49-53 | a new response has an OK chain on the given reporter, keeps exactly the raw response it was given, and reads a nil body as `""` |
| `Responses.Response.FromParts` | response_test.go:16 | a response built from an already failed chain and no raw response has a failed chain |
| `Responses.Response.Status` | response_test.go:55-61 | on an OK chain, the chain fails exactly when the code differs from the received one; a failed chain is left alone and the absent raw response is never read |
| `Responses.Response.Headers` | response_test.go:63 | the header wrapper holds the header map as a JSON object, or an empty object when the chain has already failed, and a copy of the chain's current failed state |
| `Responses.Response.Header` | response_test.go:66-69 | the string wrapper holds the first value stored under the header name, or `""` when there is none or the chain has failed |
| `Responses.Response.Body` | response_test.go:82 | the body wrapper holds the body text byte for byte, and reading it leaves the chain unchanged |
| `Responses.Response.NoContent` | response_test.go:106-108 | on an OK chain, the chain fails exactly when the Content-Type or the body is not empty |
| `Responses.Response.ContentTypeJSON` | response_test.go:110-112 | on an OK chain, the chain fails exactly when the Content-Type fails the JSON media-type rule |
| `Responses.Response.JSON` | response_test.go:114-116 | on an OK chain, the chain fails when the content type is rejected or the body does not decode, and the wrapper then holds `Absent`; otherwise it holds the decoded tree |
| `Responses.JsonFailsWithContentType` | response_test.go:246-250 | whenever `ContentTypeJSON` fails, `JSON` fails with the same failure and holds `Absent` |
| `Responses.JsonPassesIff` | response_test.go:180-185 | `JSON` passes if and only if the content type is accepted and the body decodes, and then holds the decoded tree |
| `Responses.NoContentExcludesJson` | response_test.go:138-148 | a response that passes `NoContent` fails both `ContentTypeJSON` and `JSON` |
| `Responses.BodyFailsNoContent` | response_test.go:172-174 | a non-empty body fails `NoContent` whatever the headers |
| `Responses.BodyText` | response_test.go:126-136 | the body as text, a nil body read as `""`; `BodyTextOf` pins it down |
| `Responses.BodyTextOf` | response_test.go:126-136 | the body text is empty exactly for a nil or empty body, and is otherwise the body itself |
| `HeaderMap.Get` | response_test.go:66-69 | `Header(name)` yields the first value stored under the canonical form of `name`, or `""`; `GetFirstValue` and `GetFrame` pin down that it sees exactly that value |
| `HeaderMap.CanonicalKey` | response_test.go:66 | the canonical form of a header name has its length and, for a name of token characters, is that name up to ASCII case; `CanonicalKeyIdempotent` and `CanonicalName` pin it down |
| `HeaderMap.HeaderObject` | response_test.go:63 | the JSON-object view of the header map has exactly the header names as keys; `HeaderObjectInjective` shows it loses nothing |
| `HeaderMap.GetFirstValue` | response_test.go:66-69 | storing values under the canonical form of a name makes lookup of that name yield their first value, and a header stored with no values yields `""` |
| `HeaderMap.GetFrame` | response_test.go:66-69 | changing the values under any key other than the canonical form of a name leaves lookup of that name unchanged, so lookup sees nothing else |
| `HeaderMap.GetIgnoresCase` | response_test.go:66 | lookup gives the same answer for names made of token characters that differ only in ASCII case |
| `HeaderMap.CanonicalKeyIgnoresCase` | response_test.go:66 | names made of token characters that differ only in ASCII case have the same canonical form |
| `HeaderMap.CanonicalKeyIdempotent` | response_test.go:66 | canonicalising a name twice gives the same as once |
| `HeaderMap.CanonicalName` | response_test.go:66 | a name already written in canonical form is looked up as written |
| `HeaderMap.HyphenatedNameCanonical` | response_test.go:66 | two capitalised words joined by `-` form a name that is its own canonical key |
| `HeaderMap.HeaderObjectInjective` | response_test.go:63 | two header maps with equal JSON views are equal, so `Headers().Equal` passes only for the received map |
| `MediaTypes.Parse` | response_test.go:155 | parses a Content-Type value into type, subtype and parameters, or fails; `ParseWellFormed` and `ParseFormat` pin it down |
| `MediaTypes.IsJsonContentType` | response_test.go:110-112 | the acceptance rule of `ContentTypeJSON`: the value parses as application/json with every charset UTF-8; `JsonContentTypeOfFormat` and the literal lemmas pin it down |
| `MediaTypes.ParseWellFormed` | response_test.go:155 | every media type the parser returns has token type, subtype and parameter names, and quotable values |
| `MediaTypes.ParseFormat` | response_test.go:155 | parsing the printed form of any well-formed media type gives back that media type |
| `MediaTypes.JsonContentTypeOfFormat` | response_test.go:176-178 | a printed media type passes the JSON rule if and only if it is application/json and every charset is UTF-8 |
| `MediaTypes.ApplicationJsonAccepted` | response_test.go:209-211 | `application/json` passes the JSON rule |
| `MediaTypes.Utf8CharsetAccepted` | response_test.go:176-178 | `application/json; charset=utf-8` passes the JSON rule |
| `MediaTypes.EmptyContentTypeRejected` | response_test.go:110-112 | an empty Content-Type fails the JSON rule |
| `MediaTypes.BadCharsetRejected` | response_test.go:242-244 | `application/json; charset=bad` fails the JSON rule |
| `ResponseScenarios.FailedResponse` | response_test.go:11-32 | over a failed chain and no raw response, every wrapper has failed, every check completes, and nothing beyond the first failure is reported |
| `ResponseScenarios.Status` | response_test.go:49-61 | a new response starts OK and keeps its raw response, and the status check passes for 200 and fails for 404 |
| `ResponseScenarios.HeadersEqual` | response_test.go:63 | `Headers().Equal` passes for the header map sent |
| `ResponseScenarios.TestHeaderNameCanonical` | response_test.go:66-69 | `Content-Type`, `First-Header`, `Second-Header` and `Bad-Header` are looked up as written |
| `ResponseScenarios.TwoHeadersLookup` | response_test.go:66-69 | in the header map sent, `First-Header` yields `foo`, `Second-Header` yields `bar`, and `Bad-Header` yields `""` |
| `ResponseScenarios.HeaderValues` | response_test.go:65-69 | each header yields its value, and a missing header yields `""`, which passes `Empty()` |
| `ResponseScenarios.BodyText` | response_test.go:72-85 | the body reads as `body` and the chain stays OK |
| `ResponseScenarios.NoContent` | response_test.go:87-149 | with an empty Content-Type and an empty or nil body, the body reads as `""`, `NoContent` passes, and `ContentTypeJSON` and `JSON` fail |
| `ResponseScenarios.JsonBodyAccepted` | response_test.go:151-215 | with a JSON body under either accepted Content-Type, `NoContent` fails and `ContentTypeJSON` and `JSON` pass |
| `ResponseScenarios.JsonBodyObjectOf` | response_test.go:184-185 | `JSON().Object().Raw()` is the one-entry object the body decodes to |
| `ResponseScenarios.JsonBadCharset` | response_test.go:221-251 | with `charset=bad`, `NoContent`, `ContentTypeJSON` and `JSON` fail, and `JSON().Raw()` is `Absent` |
| `ResponseScenarios.AcceptedJsonContentTypePasses` | response_test.go:155 | both accepted Content-Type values are found under `Content-Type` and pass the JSON rule |

## Left out

- The example server in `_examples/iris.go`: framework and network wiring with no logic of its own.
- Reading and closing the body stream: the body is an already-read `Option<string>`. A read error, which would fail the chain, is not modelled.
- JSON decoding: the decoder is a parameter of `JSON()` (`string -> Option<Json>`). The JSON scenarios require that it decode the test body to the one-entry object. Numbers are reals; float64 rounding is not modelled.
- Go's nil stands both for JSON `null` and for "nothing decoded". The model keeps them apart as `Null` and `Absent`.
- The wording of failure messages: the reporter logs a `Failure` value that names the kind of failure and the values involved.
- The reporter's policy (marking a test failed, stopping it) and the test framework's assertion helpers.
- Narrowing a JSON value to an array, string, number or boolean, and assertions the response tests do not use (`Contains` and the like).
- Duplicate parameters and a trailing `;` in a Content-Type: they fall under the grammar above, not under any lenient parser.
- An OK chain over a nil raw response: every check on a `Response` requires that the chain has failed or that a raw response is present (`Readable`). A chain that is OK over no response would make Go dereference nil, and the model does not describe that crash.
- Concurrency: a response and its wrappers are used by one goroutine.
