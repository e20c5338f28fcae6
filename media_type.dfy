/**
 * Media types as carried by a Content-Type header, following section 3.1.1.1
 * of RFC 7231:
 *
 *   media-type = type "/" subtype *( OWS ";" OWS parameter )
 *   parameter  = token "=" ( token / quoted-string )
 *
 * with quoted-string, qdtext and quoted-pair from section 3.2.6 of RFC 7230.
 * Whitespace around the whole field value is not part of it (section 3.2.4 of
 * RFC 7230) and is trimmed first. Type, subtype and parameter names keep the
 * case they were received in; the JSON check compares them without regard to
 * ASCII case, and the charset value likewise (section 3.1.1.2 of RFC 7231).
 */
module MediaTypes {
  import opened Wrappers
  import opened Tokens

  datatype Parameter = Parameter(name: string, value: string)

  datatype MediaType = MediaType(mainType: string, subtype: string, params: seq<Parameter>)

  /** `OWS` characters: space and horizontal tab. */
  predicate IsOws(c: char) {
    c == ' ' || c == '\t'
  }

  /** `obs-text`. */
  predicate IsObsText(c: char) {
    '\U{80}' <= c <= '\U{FF}'
  }

  /** `qdtext`: what may stand unescaped inside a quoted-string. */
  predicate IsQdText(c: char) {
    c == '\t' || c == ' ' || c == '!' || ('#' <= c <= '[') || (']' <= c <= '~') || IsObsText(c)
  }

  /** What may follow a backslash in a `quoted-pair`. */
  predicate IsQuotedPairChar(c: char) {
    c == '\t' || (' ' <= c <= '~') || IsObsText(c)
  }

  /** A parameter value that a quoted-string can carry. */
  predicate Quotable(v: string) {
    forall i :: 0 <= i < |v| ==> IsQuotedPairChar(v[i])
  }

  /** A media type that this syntax can express. */
  predicate WellFormed(mt: MediaType) {
    && IsToken(mt.mainType)
    && IsToken(mt.subtype)
    && forall i :: 0 <= i < |mt.params| ==> ValidParameter(mt.params[i])
  }

  function SkipOws(s: string): (r: string)
    ensures |r| <= |s|
    ensures r == [] || !IsOws(r[0])
  {
    if s != [] && IsOws(s[0]) then SkipOws(s[1..]) else s
  }

  function TrimEnd(s: string): (r: string)
    ensures |r| <= |s|
    ensures r == [] || !IsOws(r[|r| - 1])
  {
    if s != [] && IsOws(s[|s| - 1]) then TrimEnd(s[..|s| - 1]) else s
  }

  /** The field value without surrounding whitespace. */
  function Trim(s: string): string {
    TrimEnd(SkipOws(s))
  }

  /** Parse a Content-Type field value; None when it is not a media type. */
  function Parse(s: string): Option<MediaType> {
    ParseTrimmed(Trim(s))
  }

  /** Parse a field value that has no surrounding whitespace. */
  function ParseTrimmed(t: string): Option<MediaType> {
    var n := TokenLen(t);
    if n == 0 || n == |t| || t[n] != '/' then None
    else
      var rest := t[n + 1..];
      var m := TokenLen(rest);
      if m == 0 then None
      else
        match ParseParams(rest[m..])
        case None => None
        case Some(ps) => Some(MediaType(t[..n], rest[..m], ps))
  }

  /** Parse `*( OWS ";" OWS parameter )`, which must make up all of `s`. */
  function ParseParams(s: string): Option<seq<Parameter>>
    decreases |s|
  {
    if s == [] then Some([])
    else
      match ParseParam(s)
      case None => None
      case Some((p, rest)) =>
        match ParseParams(rest)
        case None => None
        case Some(ps) => Some([p] + ps)
  }

  /** A parameter this syntax can express. */
  predicate ValidParameter(p: Parameter) {
    IsToken(p.name) && Quotable(p.value)
  }

  /** Parse one `OWS ";" OWS parameter` at the start of `s`: the parameter and what follows it. */
  function ParseParam(s: string): (r: Option<(Parameter, string)>)
    ensures r.Some? ==> |r.value.1| < |s|
  {
    var a := SkipOws(s);
    if a == [] || a[0] != ';' then None
    else
      var b := SkipOws(a[1..]);
      var n := TokenLen(b);
      if n == 0 || n == |b| || b[n] != '=' then None
      else
        match ParseValue(b[n + 1..])
        case None => None
        case Some((v, rest)) => Some((Parameter(b[..n], v), rest))
  }

  /** Parse `token / quoted-string` at the start of `s`: the value and what follows it. */
  function ParseValue(s: string): (r: Option<(string, string)>)
    ensures r.Some? ==> |r.value.1| < |s|
  {
    if s != [] && s[0] == '"' then ParseQuoted(s[1..])
    else
      var n := TokenLen(s);
      if n == 0 then None else Some((s[..n], s[n..]))
  }

  /** Parse the rest of a quoted-string after its opening quote: the unescaped text and what follows the closing quote. */
  function ParseQuoted(s: string): (r: Option<(string, string)>)
    ensures r.Some? ==> |r.value.1| < |s|
  {
    if s == [] then None
    else if s[0] == '"' then Some(([], s[1..]))
    else if s[0] == '\\' then
      if |s| < 2 || !IsQuotedPairChar(s[1]) then None
      else
        match ParseQuoted(s[2..])
        case None => None
        case Some((v, rest)) => Some(([s[1]] + v, rest))
    else if IsQdText(s[0]) then
      match ParseQuoted(s[1..])
      case None => None
      case Some((v, rest)) => Some(([s[0]] + v, rest))
    else None
  }

  /** Write a media type back as a field value, parameters as `; name=value`. */
  function Format(mt: MediaType): string {
    mt.mainType + "/" + mt.subtype + FormatParams(mt.params)
  }

  function FormatParams(ps: seq<Parameter>): string {
    if ps == [] then "" else FormatParam(ps[0]) + FormatParams(ps[1..])
  }

  function FormatParam(p: Parameter): string {
    "; " + p.name + "=" + FormatValue(p.value)
  }

  /** A value is written bare when it is a token and as a quoted-string otherwise. */
  function FormatValue(v: string): string {
    if IsToken(v) then v else "\"" + Escape(v) + "\""
  }

  /** Backslash-escape the quote and the backslash. */
  function Escape(v: string): string {
    if v == [] then []
    else (if v[0] == '"' || v[0] == '\\' then ['\\', v[0]] else [v[0]]) + Escape(v[1..])
  }

  /** A media type is JSON when it is application/json with no charset other than UTF-8. */
  predicate IsJson(mt: MediaType) {
    && EqualsIgnoreCase(mt.mainType, "application")
    && EqualsIgnoreCase(mt.subtype, "json")
    && forall i :: 0 <= i < |mt.params| && EqualsIgnoreCase(mt.params[i].name, "charset") ==>
         EqualsIgnoreCase(mt.params[i].value, "utf-8")
  }

  /** The acceptance rule of `ContentTypeJSON`. */
  predicate IsJsonContentType(contentType: string) {
    match Parse(contentType)
    case None => false
    case Some(mt) => IsJson(mt)
  }

  // ---------------------------------------------------------------------------
  // Whatever parses is well formed.

  lemma {:induction false} ParseQuotedQuotable(s: string)
    ensures ParseQuoted(s).Some? ==> Quotable(ParseQuoted(s).value.0)
  {
    if s != [] && s[0] != '"' {
      if s[0] == '\\' {
        if |s| >= 2 && IsQuotedPairChar(s[1]) {
          ParseQuotedQuotable(s[2..]);
        }
      } else if IsQdText(s[0]) {
        ParseQuotedQuotable(s[1..]);
      }
    }
  }

  lemma ParseValueQuotable(s: string)
    ensures ParseValue(s).Some? ==> Quotable(ParseValue(s).value.0)
  {
    if s != [] && s[0] == '"' {
      ParseQuotedQuotable(s[1..]);
    } else {
      TokenLenScansToken(s);
    }
  }

  lemma ParseParamValid(s: string)
    ensures ParseParam(s).Some? ==> ValidParameter(ParseParam(s).value.0)
  {
    var a := SkipOws(s);
    if a != [] && a[0] == ';' {
      var b := SkipOws(a[1..]);
      TokenLenScansToken(b);
      var n := TokenLen(b);
      if n != 0 && n != |b| && b[n] == '=' {
        ParseValueQuotable(b[n + 1..]);
      }
    }
  }

  lemma {:induction false} ParseParamsValid(s: string)
    ensures ParseParams(s).Some? ==> forall i :: 0 <= i < |ParseParams(s).value| ==> ValidParameter(ParseParams(s).value[i])
    decreases |s|
  {
    if s != [] {
      ParseParamValid(s);
      match ParseParam(s)
      case None =>
      case Some((p, rest)) =>
        ParseParamsValid(rest);
    }
  }

  /** Every media type the parser produces is one the syntax can express. */
  lemma ParseWellFormed(s: string)
    requires Parse(s).Some?
    ensures WellFormed(Parse(s).value)
  {
    var t := Trim(s);
    TokenLenScansToken(t);
    var n := TokenLen(t);
    var rest := t[n + 1..];
    TokenLenScansToken(rest);
    ParseParamsValid(rest[TokenLen(rest)..]);
  }

  // ---------------------------------------------------------------------------
  // Parsing undoes formatting.

  lemma {:induction false} ParseQuotedEscape(v: string, rest: string)
    requires Quotable(v)
    ensures ParseQuoted(Escape(v) + "\"" + rest) == Some((v, rest))
  {
    var s := Escape(v) + "\"" + rest;
    if v == [] {
      assert s == "\"" + rest;
    } else {
      ParseQuotedEscape(v[1..], rest);
      var tail := Escape(v[1..]) + "\"" + rest;
      if v[0] == '"' || v[0] == '\\' {
        assert s == ['\\', v[0]] + tail;
        assert s[2..] == tail;
      } else {
        assert s == [v[0]] + tail;
        assert s[1..] == tail;
      }
      assert [v[0]] + v[1..] == v;
    }
  }

  /** Every formatted parameter list is empty or starts with ';'. */
  lemma FormatParamsStart(ps: seq<Parameter>)
    ensures FormatParams(ps) == [] || FormatParams(ps)[0] == ';'
  {
  }

  lemma ParseValueFormat(v: string, rest: string)
    requires Quotable(v)
    requires rest == [] || !IsTokenChar(rest[0])
    ensures ParseValue(FormatValue(v) + rest) == Some((v, rest))
  {
    var s := FormatValue(v) + rest;
    if IsToken(v) {
      TokenLenOfToken(v, rest);
      assert s[..|v|] == v && s[|v|..] == rest;
    } else {
      ParseQuotedEscape(v, rest);
      assert s == "\"" + (Escape(v) + "\"" + rest);
    }
  }

  /** How a `; name=...` prefix is parsed, whatever the value text that follows. */
  lemma ParseParamShape(name: string, w: string)
    requires IsToken(name)
    ensures ParseParam("; " + name + "=" + w) ==
      match ParseValue(w)
      case None => None
      case Some((v, rest)) => Some((Parameter(name, v), rest))
  {
    var s := "; " + name + "=" + w;
    var b := name + "=" + w;
    assert s == ";" + " " + b;
    assert SkipOws(s) == s;
    assert s[1..] == " " + b;
    assert b[0] == name[0];
    assert SkipOws(b) == b;
    assert SkipOws(s[1..]) == b;
    TokenLenOfToken(name, "=" + w);
    assert b == name + ("=" + w);
    assert b[..|name|] == name;
    assert b[|name| + 1..] == w;
  }

  lemma ParseParamFormat(p: Parameter, tail: string)
    requires ValidParameter(p)
    requires tail == [] || tail[0] == ';'
    ensures ParseParam(FormatParam(p) + tail) == Some((p, tail))
  {
    var w := FormatValue(p.value) + tail;
    assert FormatParam(p) + tail == "; " + p.name + "=" + w;
    ParseParamShape(p.name, w);
    ParseValueFormat(p.value, tail);
  }

  lemma {:induction false} ParseParamsFormat(ps: seq<Parameter>)
    requires forall i :: 0 <= i < |ps| ==> ValidParameter(ps[i])
    ensures ParseParams(FormatParams(ps)) == Some(ps)
  {
    if ps != [] {
      var tail := FormatParams(ps[1..]);
      FormatParamsStart(ps[1..]);
      ParseParamFormat(ps[0], tail);
      ParseParamsFormat(ps[1..]);
      assert [ps[0]] + ps[1..] == ps;
    }
  }

  /** A formatted parameter list does not end in whitespace. */
  lemma {:induction false} FormatParamsEnd(ps: seq<Parameter>)
    requires forall i :: 0 <= i < |ps| ==> ValidParameter(ps[i])
    ensures FormatParams(ps) == [] || !IsOws(FormatParams(ps)[|FormatParams(ps)| - 1])
  {
    if ps != [] {
      FormatParamsEnd(ps[1..]);
      var v := FormatValue(ps[0].value);
      assert v != [] && !IsOws(v[|v| - 1]);
      var tail := FormatParams(ps[1..]);
      var head := FormatParam(ps[0]);
      assert head[|head| - 1] == v[|v| - 1];
      var s := head + tail;
      if tail == [] {
        assert s[|s| - 1] == head[|head| - 1];
      } else {
        assert s[|s| - 1] == tail[|tail| - 1];
      }
    }
  }

  /** A well-formed media type is written without surrounding whitespace. */
  lemma TrimFormat(mt: MediaType)
    requires WellFormed(mt)
    ensures Trim(Format(mt)) == Format(mt)
  {
    var s := Format(mt);
    var tail := FormatParams(mt.params);
    FormatParamsEnd(mt.params);
    assert s[0] == mt.mainType[0];
    assert SkipOws(s) == s;
    if tail == [] {
      assert s[|s| - 1] == mt.subtype[|mt.subtype| - 1];
    } else {
      assert s[|s| - 1] == tail[|tail| - 1];
    }
  }

  /** How `type/subtype` followed by a parameter section is parsed, given where each part ends. */
  lemma ParseTrimmedAt(t: string, n: nat, m: nat, ps: seq<Parameter>)
    requires 0 < n < |t| && TokenLen(t) == n && t[n] == '/'
    requires 0 < m && TokenLen(t[n + 1..]) == m
    requires ParseParams(t[n + 1..][m..]) == Some(ps)
    ensures ParseTrimmed(t) == Some(MediaType(t[..n], t[n + 1..][..m], ps))
  {
  }

  /** How `type/subtype` followed by a parameter section is parsed. */
  lemma ParseShape(mainType: string, subtype: string, tail: string, ps: seq<Parameter>)
    requires IsToken(mainType) && IsToken(subtype)
    requires tail == [] || tail[0] == ';'
    requires ParseParams(tail) == Some(ps)
    ensures ParseTrimmed(mainType + "/" + subtype + tail) == Some(MediaType(mainType, subtype, ps))
  {
    var rest := subtype + tail;
    var s := mainType + (['/'] + rest);
    assert s == mainType + "/" + subtype + tail;
    TokenLenOfToken(mainType, ['/'] + rest);
    TokenLenOfToken(subtype, tail);
    var n := |mainType|;
    assert s[..n] == mainType && s[n] == '/' && s[n + 1..] == rest;
    assert rest[..|subtype|] == subtype && rest[|subtype|..] == tail;
    ParseTrimmedAt(s, n, |subtype|, ps);
  }

  /** Parsing a formatted well-formed media type gives it back unchanged. */
  lemma ParseFormat(mt: MediaType)
    requires WellFormed(mt)
    ensures Parse(Format(mt)) == Some(mt)
  {
    TrimFormat(mt);
    FormatParamsStart(mt.params);
    ParseParamsFormat(mt.params);
    ParseShape(mt.mainType, mt.subtype, FormatParams(mt.params), mt.params);
  }

  /** Whether a formatted media type passes the JSON check is decided by the media type alone. */
  lemma JsonContentTypeOfFormat(mt: MediaType)
    requires WellFormed(mt)
    ensures IsJsonContentType(Format(mt)) <==> IsJson(mt)
  {
    ParseFormat(mt);
  }

  // ---------------------------------------------------------------------------
  // The Content-Type values a JSON response is checked against.

  /** `application/json` passes the JSON check. */
  lemma ApplicationJsonAccepted()
    ensures IsJsonContentType("application/json")
  {
    var mt := MediaType("application", "json", []);
    assert Format(mt) == "application/json";
    JsonContentTypeOfFormat(mt);
  }

  /** The formatted form of `application/json` with one parameter whose value is a token. */
  lemma FormatJsonWithParam(name: string, value: string)
    requires IsToken(value)
    ensures Format(MediaType("application", "json", [Parameter(name, value)])) ==
      "application/json; " + name + "=" + value
  {
    var ps := [Parameter(name, value)];
    assert FormatValue(value) == value;
    assert FormatParams(ps[1..]) == "";
    assert FormatParams(ps) == "; " + name + "=" + value;
  }

  /** `application/json; charset=utf-8` passes the JSON check. */
  lemma Utf8CharsetAccepted()
    ensures IsJsonContentType("application/json; charset=utf-8")
  {
    var mt := MediaType("application", "json", [Parameter("charset", "utf-8")]);
    assert IsToken("utf-8") && IsToken("charset");
    FormatJsonWithParam("charset", "utf-8");
    assert Format(mt) == "application/json; charset=utf-8";
    assert IsJson(mt);
    JsonContentTypeOfFormat(mt);
  }

  /** An empty Content-Type fails the JSON check. */
  lemma EmptyContentTypeRejected()
    ensures !IsJsonContentType("")
  {
  }

  /** `application/json; charset=bad` fails the JSON check. */
  lemma BadCharsetRejected()
    ensures !IsJsonContentType("application/json; charset=bad")
  {
    var mt := MediaType("application", "json", [Parameter("charset", "bad")]);
    assert IsToken("bad") && IsToken("charset");
    FormatJsonWithParam("charset", "bad");
    assert Format(mt) == "application/json; charset=bad";
    assert !EqualsIgnoreCase("bad", "utf-8");
    assert !IsJson(mt);
    JsonContentTypeOfFormat(mt);
  }
}
