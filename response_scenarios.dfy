/**
 * The behaviour pinned down by the response tests, each stated as a method
 * that drives the model the way the test drives the Go code and promises
 * what the test asserts.
 */
module ResponseScenarios {
  import opened Wrappers
  import opened JsonTree
  import opened HeaderMap
  import opened MediaTypes
  import opened Chains
  import opened Responses

  /** The JSON body the JSON tests send, and the object it decodes to. */
  const JsonBody: string := "{\"key\": \"value\"}"
  const JsonBodyObject: map<string, Json> := map["key" := Str("value")]

  /** The header names the tests use are already canonical, so they are looked up as written. */
  lemma TestHeaderNameCanonical(name: string)
    requires name == "Content-Type" || name == "First-Header" || name == "Second-Header" || name == "Bad-Header"
    ensures CanonicalKey(name) == name
  {
    if name == "Content-Type" {
      assert name == "Content" + "-" + "Type";
      HyphenatedNameCanonical("Content", "Type");
    } else if name == "First-Header" {
      assert name == "First" + "-" + "Header";
      HyphenatedNameCanonical("First", "Header");
    } else if name == "Second-Header" {
      assert name == "Second" + "-" + "Header";
      HyphenatedNameCanonical("Second", "Header");
    } else {
      assert name == "Bad" + "-" + "Header";
      HyphenatedNameCanonical("Bad", "Header");
    }
  }

  /**
   * A response over a chain that has already failed, with no raw response at
   * all: every wrapper it hands out has failed already, the checks still run
   * without looking at the missing response, and nothing more is reported.
   */
  method FailedResponse(reporter: Reporter, decode: Decoder)
    returns (responseFailed: bool, headersFailed: bool, headerFailed: bool, bodyFailed: bool, jsonFailed: bool)
    modifies reporter
    ensures responseFailed && headersFailed && headerFailed && bodyFailed && jsonFailed
    ensures reporter.reports == old(reporter.reports) + [Message("fail")]
  {
    var chain := new Chain(reporter);
    chain.Fail(Message("fail"));
    var resp := new Response.FromParts(chain, None, "");
    responseFailed := resp.chain.failed;

    var headers := resp.Headers();
    var header := resp.Header("foo");
    var body := resp.Body();
    var json := resp.JSON(decode);
    headersFailed := headers.chain.failed;
    headerFailed := header.chain.failed;
    bodyFailed := body.chain.failed;
    jsonFailed := json.chain.failed;

    resp.Status(123);
    resp.NoContent();
    resp.ContentTypeJSON();
  }

  /** The 200 response with two headers that the status and header checks run on. */
  const TwoHeaders: Header := map["First-Header" := ["foo"], "Second-Header" := ["bar"]]

  /**
   * A new response starts OK and keeps its raw response, and the status
   * check passes for the received code (200) and fails for another (404).
   */
  method Status(reporter: Reporter) returns (startsOk: bool, rawKept: bool, okStatusPasses: bool, notFoundFails: bool)
    modifies reporter
    ensures startsOk && rawKept && okStatusPasses && notFoundFails
  {
    var httpResp := HttpResponse(200, TwoHeaders, None);
    var resp := new Response.NewResponse(reporter, httpResp);
    startsOk := !resp.chain.failed;
    resp.chain.Reset();
    rawKept := resp.Raw() == Some(httpResp);

    resp.Status(200);
    okStatusPasses := !resp.chain.failed;
    resp.chain.Reset();

    resp.Status(404);
    notFoundFails := resp.chain.failed;
    resp.chain.Reset();
  }

  /** The header map, seen through `Headers()`, equals the one sent. */
  method HeadersEqual(reporter: Reporter) returns (headersEqual: bool)
    modifies reporter
    ensures headersEqual
  {
    var resp := new Response.NewResponse(reporter, HttpResponse(200, TwoHeaders, None));
    var all := resp.Headers();
    all.Equal(HeaderObject(TwoHeaders));
    headersEqual := !all.chain.failed;
  }

  /** Looking up the two headers sent yields their values; the missing one yields "". */
  lemma TwoHeadersLookup()
    ensures Get(TwoHeaders, "First-Header") == "foo"
    ensures Get(TwoHeaders, "Second-Header") == "bar"
    ensures Get(TwoHeaders, "Bad-Header") == ""
  {
    TestHeaderNameCanonical("First-Header");
    TestHeaderNameCanonical("Second-Header");
    TestHeaderNameCanonical("Bad-Header");
  }

  /**
   * Each header sent yields its value, and a missing header yields an empty
   * string that passes `Empty()` without failing.
   */
  method HeaderValues(reporter: Reporter) returns (firstEqual: bool, secondEqual: bool, missingEmpty: bool)
    modifies reporter
    ensures firstEqual && secondEqual && missingEmpty
  {
    TwoHeadersLookup();
    var resp := new Response.NewResponse(reporter, HttpResponse(200, TwoHeaders, None));

    var first := resp.Header("First-Header");
    first.Equal("foo");
    firstEqual := !first.chain.failed;

    var second := resp.Header("Second-Header");
    second.Equal("bar");
    secondEqual := !second.chain.failed;

    var missing := resp.Header("Bad-Header");
    missing.Empty();
    missingEmpty := !missing.chain.failed;
  }

  /** The body wrapper holds the body text as sent, and reading it leaves the chain OK. */
  method BodyText(reporter: Reporter) returns (text: string, ok: bool)
    modifies reporter
    ensures text == "body" && ok
  {
    var resp := new Response.NewResponse(reporter, HttpResponse(200, map[], Some("body")));
    var body := resp.Body();
    text := body.Raw();
    ok := !resp.chain.failed;
  }

  /**
   * An empty Content-Type with an empty or nil body: the body reads as "",
   * `NoContent()` passes, and `ContentTypeJSON()` and `JSON()` fail.
   */
  method NoContent(reporter: Reporter, body: Option<string>, decode: Decoder)
    returns (text: string, bodyOk: bool, noContentPasses: bool, contentTypeFails: bool, jsonFails: bool)
    requires body == None || body == Some("")
    modifies reporter
    ensures text == "" && bodyOk && noContentPasses && contentTypeFails && jsonFails
  {
    var headers: Header := map["Content-Type" := [""]];
    TestHeaderNameCanonical("Content-Type");
    EmptyContentTypeRejected();
    var resp := new Response.NewResponse(reporter, HttpResponse(200, headers, body));

    var b := resp.Body();
    text := b.Raw();
    bodyOk := !resp.chain.failed;
    resp.chain.Reset();

    resp.NoContent();
    noContentPasses := !resp.chain.failed;
    resp.chain.Reset();

    resp.ContentTypeJSON();
    contentTypeFails := resp.chain.failed;
    resp.chain.Reset();

    var json := resp.JSON(decode);
    jsonFails := resp.chain.failed;
    resp.chain.Reset();
  }

  /** A response carrying the JSON body under the given Content-Type. */
  function JsonResponse(contentType: string): HttpResponse {
    HttpResponse(200, map["Content-Type" := [contentType]], Some(JsonBody))
  }

  /** The two Content-Type values the JSON tests accept. */
  predicate AcceptedJsonContentType(contentType: string) {
    contentType == "application/json; charset=utf-8" || contentType == "application/json"
  }

  lemma AcceptedJsonContentTypePasses(contentType: string)
    requires AcceptedJsonContentType(contentType)
    ensures ContentType(JsonResponse(contentType).header) == contentType
    ensures IsJsonContentType(contentType)
  {
    TestHeaderNameCanonical("Content-Type");
    ApplicationJsonAccepted();
    Utf8CharsetAccepted();
  }

  /**
   * A JSON body sent as `application/json`, with or without `charset=utf-8`:
   * the body reads as sent, `NoContent()` fails, and `ContentTypeJSON()` and
   * `JSON()` pass.
   */
  method JsonBodyAccepted(reporter: Reporter, contentType: string, decode: Decoder)
    returns (text: string, noContentFails: bool, contentTypePasses: bool, jsonPasses: bool)
    requires AcceptedJsonContentType(contentType)
    requires decode(JsonBody) == Some(Obj(JsonBodyObject))
    modifies reporter
    ensures text == JsonBody && noContentFails && contentTypePasses && jsonPasses
  {
    AcceptedJsonContentTypePasses(contentType);
    var resp := new Response.NewResponse(reporter, JsonResponse(contentType));

    var b := resp.Body();
    text := b.Raw();
    resp.chain.Reset();

    resp.NoContent();
    noContentFails := resp.chain.failed;
    resp.chain.Reset();

    resp.ContentTypeJSON();
    contentTypePasses := !resp.chain.failed;
    resp.chain.Reset();

    var json := resp.JSON(decode);
    jsonPasses := !resp.chain.failed;
  }

  /** Under an accepted Content-Type, `JSON().Object().Raw()` is the object the body decodes to. */
  method JsonBodyObjectOf(reporter: Reporter, contentType: string, decode: Decoder)
    returns (fields: map<string, Json>)
    requires AcceptedJsonContentType(contentType)
    requires decode(JsonBody) == Some(Obj(JsonBodyObject))
    modifies reporter
    ensures fields == JsonBodyObject
  {
    AcceptedJsonContentTypePasses(contentType);
    var resp := new Response.NewResponse(reporter, JsonResponse(contentType));
    var json := resp.JSON(decode);
    var o := json.Object();
    fields := o.Raw();
  }

  /**
   * A JSON body sent as `application/json; charset=bad`: `NoContent()`,
   * `ContentTypeJSON()` and `JSON()` all fail, and the JSON wrapper holds
   * `Absent` whatever the body would decode to.
   */
  method JsonBadCharset(reporter: Reporter, decode: Decoder)
    returns (noContentFails: bool, contentTypeFails: bool, jsonFails: bool, tree: Json)
    modifies reporter
    ensures noContentFails && contentTypeFails && jsonFails && tree == Absent
  {
    var headers: Header := map["Content-Type" := ["application/json; charset=bad"]];
    TestHeaderNameCanonical("Content-Type");
    BadCharsetRejected();
    var resp := new Response.NewResponse(reporter, HttpResponse(200, headers, Some(JsonBody)));

    resp.NoContent();
    noContentFails := resp.chain.failed;
    resp.chain.Reset();

    resp.ContentTypeJSON();
    contentTypeFails := resp.chain.failed;
    resp.chain.Reset();

    var json := resp.JSON(decode);
    jsonFails := resp.chain.failed;
    resp.chain.Reset();

    json := resp.JSON(decode);
    tree := json.Raw();
  }
}
