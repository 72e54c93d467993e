/**
 * Properties of the collector that relate several calls or that pin down the
 * scenarios its test suite exercises.
 */
module CollectorProperties {
  import opened Optional
  import opened JsText
  import opened JsonShape
  import opened Collector

  /**
   * Identity is stable: a second request that presents the cookie issued by a
   * first one gets the same identity, in its response and in its record.
   */
  lemma IdentityStable(cfg: Config, req1: Request, host1: Host, parse1: Parser, req2: Request, host2: Host, parse2: Parser)
    requires Call(cfg, req1, host1, parse1).response.cookie.value != ""
    requires cfg.key in req2.cookies && req2.cookies[cfg.key] == Call(cfg, req1, host1, parse1).response.cookie.value
    ensures Call(cfg, req2, host2, parse2).response.cookie.value == Call(cfg, req1, host1, parse1).response.cookie.value
    ensures forall e :: e in Call(cfg, req2, host2, parse2).emitted ==> e.acid == Call(cfg, req1, host1, parse1).response.cookie.value
  {
  }

  /**
   * Only POST looks at the body: for any other method the content type, the
   * body-read outcome and the parser make no difference to the outcome.
   */
  lemma OnlyPostReadsBody(cfg: Config, req: Request, host: Host, parse: Parser, typeOk: bool, body: BodyRead, parse': Parser)
    requires req.verb != "POST"
    ensures Call(cfg, req, host, parse) == Call(cfg, req.(typeIsJsonOrText := typeOk, body := body), host, parse')
  {
    var req' := req.(typeIsJsonOrText := typeOk, body := body);
    assert HasOrigin(req') == HasOrigin(req) && AsksForPost(req') == AsksForPost(req);
  }

  /** With a `JSON.parse` that turns `{`-text into objects only, every `data` is a JSON object. */
  lemma DataIsObject(cfg: Config, req: Request, host: Host, parse: Parser)
    requires ObjectTextParsesToObject(parse)
    ensures forall e :: e in Call(cfg, req, host, parse).emitted && e.data.Some? ==> e.data.value.JObject?
  {
    if req.body.ReadOk? {
      AcceptedIsObject(req.body.text, parse);
    }
  }

  /**
   * The status is one the collector picks itself (200, 204, 400, 405, 415,
   * 422), or the non-zero status a failed body read reported.
   */
  lemma StatusIsKnown(cfg: Config, req: Request, host: Host, parse: Parser)
    ensures var status := Call(cfg, req, host, parse).response.status;
            || status in {200, 204, 400, 405, 415, 422}
            || (&& req.verb == "POST" && req.typeIsJsonOrText && req.body.ReadFailed?
                && IsTruthyInt(req.body.status) && status == req.body.status.value)
  {
  }

  /**
   * Unless the body reader itself reports status 200 on a failure, a 200
   * response is exactly the case where the record carries `data`.
   */
  lemma SuccessIffData(cfg: Config, req: Request, host: Host, parse: Parser)
    requires !(req.body.ReadFailed? && req.body.status == Some(200))
    ensures var out := Call(cfg, req, host, parse);
            out.response.status == 200 <==> (|out.emitted| == 1 && out.emitted[0].data.Some?)
  {
  }

  /**
   * A collector built from an existing configuration's own settings is that
   * configuration again: the constructor only fills in what is missing.
   */
  lemma NewCollectorKeepsSettings(c: Config)
    requires c.key != "" && c.byteLength != 0 && c.maxAge != 0 && c.limit != ""
    ensures NewCollector(Options(Some(c.key), Some(c.byteLength), Some(c.maxAge), Some(c.limit))) == c
  {
  }

  /** Building a collector twice, the second time from the first one's settings, changes nothing. */
  lemma NewCollectorIdempotent(options: Options)
    ensures var c := NewCollector(options);
            NewCollector(Options(Some(c.key), Some(c.byteLength), Some(c.maxAge), Some(c.limit))) == c
  {
    NewCollectorKeepsSettings(NewCollector(options));
  }

  /** A POST request with the given headers, content-type verdict and body, carrying no cookie. */
  function Post(headers: map<string, string>, typeOk: bool, body: BodyRead): Request
  {
    Request("POST", headers, typeOk, map[], body)
  }

  /** A bodiless request with the given method and headers, carrying no cookie. */
  function Bare(verb: string, headers: map<string, string>): Request
  {
    Request(verb, headers, false, map[], ReadOk(""))
  }

  /** A JSON object body is passed on as `data` with status 200. */
  lemma ObjectIsPassedOn(cfg: Config, host: Host, parse: Parser, obj: Json)
    requires parse("{\"event\":\"asdf\"}") == Some(obj)
    ensures var out := Call(cfg, Post(map[], true, ReadOk("{\"event\":\"asdf\"}")), host, parse);
            out.response.status == 200 && |out.emitted| == 1 && out.emitted[0].data == Some(obj)
  {
    var s := "{\"event\":\"asdf\"}";
    assert NoLineTerminator(s);
    BracedLineMatches(s);
  }

  /** An array body is refused with 422, and its record has no `data`. */
  lemma ArrayIsRefused(cfg: Config, host: Host, parse: Parser)
    ensures var out := Call(cfg, Post(map[], true, ReadOk("[1,2,3]")), host, parse);
            out.response.status == 422 && |out.emitted| == 1 && out.emitted[0].data.None?
  {
    ShapeOkIffPattern("[1,2,3]");
  }

  /** Object-shaped text that does not parse is refused with 400, and its record has no `data`. */
  lemma UnparsableIsRefused(cfg: Config, host: Host, parse: Parser)
    requires parse("{a:1}") == None
    ensures var out := Call(cfg, Post(map[], true, ReadOk("{a:1}")), host, parse);
            out.response.status == 400 && |out.emitted| == 1 && out.emitted[0].data.None?
  {
    var s := "{a:1}";
    assert NoLineTerminator(s);
    BracedLineMatches(s);
  }

  /**
   * Pretty-printed JSON spans several lines: a `{`…`}` text with a line
   * terminator between its braces is refused with 422, whatever space
   * surrounds it and whatever the parser does.
   */
  lemma MultiLineIsRefused(cfg: Config, host: Host, parse: Parser, pre: string, t: string, post: string, i: nat)
    requires AllSpace(pre) && AllSpace(post)
    requires |t| >= 2 && t[0] == '{' && t[|t| - 1] == '}'
    requires 0 < i < |t| - 1 && IsLineTerminator(t[i])
    ensures var out := Call(cfg, Post(map[], true, ReadOk(pre + t + post)), host, parse);
            out.response.status == 422 && |out.emitted| == 1 && out.emitted[0].data.None?
  {
    var s := pre + t + post;
    assert s[..|pre|] == pre && s[|pre|..|pre| + |t|] == t && s[|pre| + |t|..] == post;
    assert PaddedAt(s, t, |pre|);
    TrimUnique(s, t);
    assert !NoLineTerminator(t);
    ShapeOkIffPattern(s);
  }

  /**
   * Line breaks and other space around a one-line `{`…`}` text are only
   * padding: such a body is matched and its parsed value passed on with 200.
   */
  lemma PaddingLineBreaksAreAccepted(cfg: Config, host: Host, parse: Parser, pre: string, t: string, post: string)
    requires AllSpace(pre) && AllSpace(post)
    requires |t| >= 2 && t[0] == '{' && t[|t| - 1] == '}' && NoLineTerminator(t)
    requires parse(pre + t + post).Some?
    ensures var out := Call(cfg, Post(map[], true, ReadOk(pre + t + post)), host, parse);
            && out.response.status == 200 && |out.emitted| == 1
            && out.emitted[0].data == parse(pre + t + post)
  {
    var s := pre + t + post;
    var a, b := |pre|, |pre| + |t| - 1;
    NoLineTerminatorInner(t);
    assert s[..a] == pre && s[b + 1..] == post;
    assert s[a + 1..b] == t[1..|t| - 1];
    assert ObjectMatchAt(s, a, b);
  }

  /** A form body is refused with 415, and a record without `data` is still written. */
  lemma FormIsRefused(cfg: Config, host: Host, parse: Parser)
    ensures var out := Call(cfg, Post(map[], false, ReadOk("a=1")), host, parse);
            out.response.status == 415 && |out.emitted| == 1 && out.emitted[0].data.None?
  {
  }

  /** Request headers such as the user agent reach the record unchanged. */
  lemma HeadersArePassedOn(cfg: Config, host: Host, parse: Parser, body: BodyRead)
    ensures var headers := map["user-agent" := "useragent", "referrer" := "https://google.com"];
            var out := Call(cfg, Post(headers, true, body), host, parse);
            && out.emitted[0].headers["user-agent"] == "useragent"
            && out.emitted[0].headers["referrer"] == "https://google.com"
  {
  }

  /** GET is refused with 405 and `Allow: POST, OPTIONS`, and nothing is written. */
  lemma GetIsRefused(cfg: Config, host: Host, parse: Parser)
    ensures var out := Call(cfg, Bare("GET", map[]), host, parse);
            && out.response.status == 405 && out.emitted == []
            && AllowHeader in out.response.headers && out.response.headers[AllowHeader] == "POST, OPTIONS"
  {
  }

  /** OPTIONS without an origin is answered with 204. */
  lemma PlainOptionsIsAnswered(cfg: Config, host: Host, parse: Parser)
    ensures var out := Call(cfg, Bare("OPTIONS", map[]), host, parse);
            out.response.status == 204 && out.emitted == [] && AllowOriginHeader !in out.response.headers
  {
  }

  /** A CORS preflight asking for POST is answered with 204 and the preflight headers. */
  lemma PreflightForPostIsAnswered(cfg: Config, host: Host, parse: Parser)
    ensures var headers := map["origin" := "https://google.com", "access-control-request-method" := "POST"];
            var out := Call(cfg, Bare("OPTIONS", headers), host, parse);
            && out.response.status == 204
            && out.response.headers == map[AllowOriginHeader := "*", AllowMethodsHeader := "POST",
                                           MaxAgeHeader := "1728000", AllowHeader := "POST, OPTIONS"]
  {
    var headers := map["origin" := "https://google.com", "access-control-request-method" := "POST"];
    assert Trim("POST") == "POST";
    assert AsksForPost(Bare("OPTIONS", headers));
  }

  /** A CORS preflight asking for GET is refused with 405, still allowing any origin. */
  lemma PreflightForGetIsRefused(cfg: Config, host: Host, parse: Parser)
    ensures var headers := map["origin" := "https://google.com", "access-control-request-method" := "GET"];
            var out := Call(cfg, Bare("OPTIONS", headers), host, parse);
            out.response.status == 405 && out.response.headers == map[AllowOriginHeader := "*"]
  {
    var headers := map["origin" := "https://google.com", "access-control-request-method" := "GET"];
    assert Trim("GET") == "GET";
    assert !AsksForPost(Bare("OPTIONS", headers));
  }
}
