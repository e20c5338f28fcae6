/**
 * The response under assertion: a received HTTP response, its body text read
 * once, and the chain that its assertions fail.
 */
module Responses {
  import opened Wrappers
  import opened JsonTree
  import opened HeaderMap
  import opened MediaTypes
  import opened Chains
  import opened Values

  /** A received HTTP response: status code, header multimap and a body that may be nil. */
  datatype HttpResponse = HttpResponse(statusCode: int, header: Header, body: Option<string>)

  /** The body as text; a nil body reads as the empty string. */
  function BodyText(body: Option<string>): string {
    match body
    case None => ""
    case Some(text) => text
  }

  /** The Content-Type header value, empty when there is none. */
  function ContentType(h: Header): string {
    Get(h, "Content-Type")
  }

  /** `Status(expected)` passes exactly when the received status code is `expected`. */
  function StatusVerdict(expected: int, actual: int): (v: Option<Failure>)
    ensures v.None? <==> expected == actual
    ensures v.Some? ==> v.value == StatusMismatch(expected, actual)
  {
    if expected == actual then None else Some(StatusMismatch(expected, actual))
  }

  /**
   * `NoContent()` passes exactly when the Content-Type header is empty or
   * absent and the body text is empty; a non-empty Content-Type is reported
   * before a non-empty body.
   */
  function NoContentVerdict(h: Header, content: string): (v: Option<Failure>)
    ensures v.None? <==> ContentType(h) == "" && content == ""
  {
    if ContentType(h) != "" then Some(ContentTypeNotEmpty(ContentType(h)))
    else if content != "" then Some(BodyNotEmpty(content))
    else None
  }

  /** `ContentTypeJSON()` passes exactly when the Content-Type header names JSON in UTF-8. */
  function ContentTypeJsonVerdict(h: Header): (v: Option<Failure>)
    ensures v.None? <==> IsJsonContentType(ContentType(h))
  {
    if IsJsonContentType(ContentType(h)) then None else Some(NotJsonContentType(ContentType(h)))
  }

  /**
   * What `JSON()` computes on a chain that has not failed: the content type is
   * checked first, and only a JSON content type lets the body be decoded.
   */
  function JsonOutcome(h: Header, content: string, decode: Decoder): Result<Json, Failure> {
    match ContentTypeJsonVerdict(h)
    case Some(failure) => Err(failure)
    case None =>
      match decode(content)
      case None => Err(UndecodableJson(content))
      case Some(tree) => Ok(tree)
  }

  /** The failure `JSON()` reports, if any. */
  function JsonVerdict(outcome: Result<Json, Failure>): Option<Failure> {
    match outcome
    case Err(failure) => Some(failure)
    case Ok(_) => None
  }

  /** The tree `JSON()` wraps: the decoded value, or `Absent` when it failed. */
  function JsonTreeOf(outcome: Result<Json, Failure>): Json {
    match outcome
    case Err(_) => Absent
    case Ok(tree) => tree
  }

  class Response {
    const chain: Chain
    const raw: Option<HttpResponse>
    const content: string

    /** `NewResponse(reporter, response)`: a fresh OK chain, the response, and its body text. */
    constructor NewResponse(reporter: Reporter, response: HttpResponse)
      ensures fresh(chain) && chain.reporter == reporter && !chain.failed
      ensures raw == Some(response)
      ensures content == BodyText(response.body)
    {
      chain := new Chain(reporter);
      raw := Some(response);
      content := BodyText(response.body);
    }

    /**
     * A response put together from its parts, as a struct literal does; the
     * raw response may be nil when the chain has already failed.
     */
    constructor FromParts(parent: Chain, raw: Option<HttpResponse>, content: string)
      ensures fresh(chain) && chain.reporter == parent.reporter && chain.failed == parent.failed
      ensures this.raw == raw && this.content == content
    {
      chain := new Chain.Clone(parent);
      this.raw := raw;
      this.content := content;
    }

    /** The raw response this one was built from. */
    function Raw(): (r: Option<HttpResponse>)
      ensures r == raw
    {
      raw
    }

    /** The raw response is only looked at while the chain has not failed. */
    predicate Readable()
      reads chain
    {
      chain.failed || raw.Some?
    }

    method Status(expected: int)
      requires Readable()
      modifies chain, chain.reporter
      ensures old(chain.failed) ==> chain.failed && chain.reporter.reports == old(chain.reporter.reports)
      ensures !old(chain.failed) ==>
        && chain.failed == (expected != raw.value.statusCode)
        && chain.reporter.reports ==
           old(chain.reporter.reports) + Reported(false, StatusVerdict(expected, raw.value.statusCode))
    {
      if !chain.failed {
        chain.Check(StatusVerdict(expected, raw.value.statusCode));
      }
    }

    /** The header map as an object wrapper; empty when the chain has already failed. */
    method Headers() returns (o: Object)
      requires Readable()
      ensures fresh(o) && fresh(o.chain)
      ensures o.chain.reporter == chain.reporter && o.chain.failed == chain.failed
      ensures o.value == if chain.failed then map[] else HeaderObject(raw.value.header)
    {
      var value := if chain.failed then map[] else HeaderObject(raw.value.header);
      o := new Object(chain, value);
    }

    /** One header's first value as a string wrapper; empty when absent or when the chain has already failed. */
    method Header(name: string) returns (s: String)
      requires Readable()
      ensures fresh(s) && fresh(s.chain)
      ensures s.chain.reporter == chain.reporter && s.chain.failed == chain.failed
      ensures s.value == if chain.failed then "" else Get(raw.value.header, name)
    {
      var value := if chain.failed then "" else Get(raw.value.header, name);
      s := new String(chain, value);
    }

    /** The body text as a string wrapper; reading it never fails the chain. */
    method Body() returns (s: String)
      ensures fresh(s) && fresh(s.chain)
      ensures s.chain.reporter == chain.reporter && s.chain.failed == chain.failed
      ensures s.value == content
    {
      s := new String(chain, content);
    }

    method NoContent()
      requires Readable()
      modifies chain, chain.reporter
      ensures old(chain.failed) ==> chain.failed && chain.reporter.reports == old(chain.reporter.reports)
      ensures !old(chain.failed) ==>
        && chain.failed == (ContentType(raw.value.header) != "" || content != "")
        && chain.reporter.reports ==
           old(chain.reporter.reports) + Reported(false, NoContentVerdict(raw.value.header, content))
    {
      if !chain.failed {
        chain.Check(NoContentVerdict(raw.value.header, content));
      }
    }

    method ContentTypeJSON()
      requires Readable()
      modifies chain, chain.reporter
      ensures old(chain.failed) ==> chain.failed && chain.reporter.reports == old(chain.reporter.reports)
      ensures !old(chain.failed) ==>
        && chain.failed == !IsJsonContentType(ContentType(raw.value.header))
        && chain.reporter.reports ==
           old(chain.reporter.reports) + Reported(false, ContentTypeJsonVerdict(raw.value.header))
    {
      if !chain.failed {
        chain.Check(ContentTypeJsonVerdict(raw.value.header));
      }
    }

    /**
     * The body decoded as JSON. Fails the chain when the content type is not
     * JSON or the body does not decode, and then the wrapper holds `Absent`.
     */
    method JSON(decode: Decoder) returns (v: Value)
      requires Readable()
      modifies chain, chain.reporter
      ensures fresh(v) && fresh(v.chain)
      ensures v.chain.reporter == chain.reporter && v.chain.failed == chain.failed
      ensures old(chain.failed) ==>
        && chain.failed && chain.reporter.reports == old(chain.reporter.reports)
        && v.value == Absent
      ensures !old(chain.failed) ==>
        var outcome := JsonOutcome(raw.value.header, content, decode);
        && chain.failed == outcome.Err?
        && chain.reporter.reports == old(chain.reporter.reports) + Reported(false, JsonVerdict(outcome))
        && v.value == JsonTreeOf(outcome)
    {
      var tree := Absent;
      if !chain.failed {
        var outcome := JsonOutcome(raw.value.header, content, decode);
        chain.Check(JsonVerdict(outcome));
        tree := JsonTreeOf(outcome);
      }
      v := new Value(chain, tree);
    }
  }

  // ---------------------------------------------------------------------------
  // How the checks relate to one another.

  /** `JSON()` fails, with the same failure, whenever `ContentTypeJSON()` does, and then holds `Absent`. */
  lemma JsonFailsWithContentType(h: Header, content: string, decode: Decoder)
    requires ContentTypeJsonVerdict(h).Some?
    ensures JsonVerdict(JsonOutcome(h, content, decode)) == ContentTypeJsonVerdict(h)
    ensures JsonTreeOf(JsonOutcome(h, content, decode)) == Absent
  {
  }

  /** `JSON()` passes exactly when `ContentTypeJSON()` passes and the body decodes; it then holds the decoded tree. */
  lemma JsonPassesIff(h: Header, content: string, decode: Decoder)
    ensures JsonVerdict(JsonOutcome(h, content, decode)).None? <==>
      IsJsonContentType(ContentType(h)) && decode(content).Some?
    ensures JsonVerdict(JsonOutcome(h, content, decode)).None? ==>
      JsonTreeOf(JsonOutcome(h, content, decode)) == decode(content).value
  {
  }

  /** A response that passes `NoContent()` fails `ContentTypeJSON()` and `JSON()`. */
  lemma NoContentExcludesJson(h: Header, content: string, decode: Decoder)
    requires NoContentVerdict(h, content).None?
    ensures ContentTypeJsonVerdict(h).Some?
    ensures JsonOutcome(h, content, decode).Err?
  {
    EmptyContentTypeRejected();
  }

  /** A non-empty body fails `NoContent()`, whatever the headers. */
  lemma BodyFailsNoContent(h: Header, content: string)
    requires content != ""
    ensures NoContentVerdict(h, content).Some?
  {
  }

  /** A nil body and an empty body read the same; any other body reads as itself. */
  lemma BodyTextOf(body: Option<string>)
    ensures BodyText(body) == "" <==> body == None || body == Some("")
    ensures body.Some? ==> BodyText(body) == body.value
  {
  }
}
