/**
 * The collector's request handling as a pure function from an abstract
 * request to the response it writes and the records it pushes to its output
 * stream. The body reader, the `type-is` match, the address resolver, the
 * clock, the random id source and `JSON.parse` are all inputs.
 */
module Collector {
  import opened Optional
  import opened JsText
  import opened JsonShape

  const DefaultKey: string := "acid"
  const DefaultByteLength: int := 16
  const DefaultMaxAge: int := 365 * 24 * 60 * 60 * 1000
  const DefaultLimit: string := "10kb"

  /** The response headers the collector writes (the identity cookie is kept apart, in `Cookie`). */
  datatype HeaderName =
    | AllowOriginHeader   // Access-Control-Allow-Origin
    | AllowMethodsHeader  // Access-Control-Allow-Methods
    | MaxAgeHeader        // Access-Control-Max-Age
    | AllowHeader         // Allow

  /** A status code with the response headers written so far. */
  datatype Answer = Answer(status: int, headers: map<HeaderName, string>)

  /** A status code with the records written to the stream. */
  datatype Ingested = Ingested(status: int, records: seq<EventRecord>)

  /** The constant header values the collector writes. */
  const AllowedMethods: string := "POST, OPTIONS"
  const PreflightMaxAge: string := "1728000"

  /** Constructor options; every one may be left out. */
  datatype Options = Options(key: Option<string>, byteLength: Option<int>, maxAge: Option<int>, limit: Option<string>)

  /** The settings a collector runs with. */
  datatype Config = Config(key: string, byteLength: int, maxAge: int, limit: string)

  /** Outcome of reading the body: an error that may carry a status, or the decoded text. */
  datatype BodyRead = ReadFailed(status: Option<int>) | ReadOk(text: string)

  /**
   * An incoming request: `verb` is the HTTP method. Header names are lower-case, as the HTTP server
   * delivers them; `cookies` is what the cookie jar reads from the request.
   */
  datatype Request = Request(
    verb: string,
    headers: map<string, string>,
    typeIsJsonOrText: bool,
    cookies: map<string, string>,
    body: BodyRead)

  /** What the host supplies per request: the resolved address, the clock, a fresh random id. */
  datatype Host = Host(ip: string, now: int, freshId: string)

  /** The cookie written on the response: the identity, with a sliding expiry, HTTP-only. */
  datatype Cookie = Cookie(name: string, value: string, expires: int, httpOnly: bool)

  datatype Response = Response(status: int, headers: map<HeaderName, string>, cookie: Cookie)

  /** The record pushed to the output stream; `data` is set only on an accepted body. */
  datatype EventRecord = EventRecord(
    headers: map<string, string>,
    acid: string,
    ip: string,
    receivedAt: int,
    data: Option<Json>)

  /** Everything one call produces: the response and the records written to the stream, in order. */
  datatype Outcome = Outcome(response: Response, emitted: seq<EventRecord>)

  /** The collector constructor: each option falls back to its default when falsy. */
  function NewCollector(options: Options): (c: Config)
    ensures c.key != "" && c.byteLength != 0 && c.maxAge != 0 && c.limit != ""
    ensures options.key.Some? && options.key.value != "" ==> c.key == options.key.value
    ensures options.byteLength.Some? && options.byteLength.value != 0 ==> c.byteLength == options.byteLength.value
    ensures options.maxAge.Some? && options.maxAge.value != 0 ==> c.maxAge == options.maxAge.value
    ensures options.limit.Some? && options.limit.value != "" ==> c.limit == options.limit.value
    ensures !IsTruthyString(options.key) ==> c.key == "acid"
    ensures !IsTruthyInt(options.byteLength) ==> c.byteLength == 16
    ensures !IsTruthyInt(options.maxAge) ==> c.maxAge == 31536000000
    ensures !IsTruthyString(options.limit) ==> c.limit == "10kb"
  {
    Config(
      if IsTruthyString(options.key) then options.key.value else DefaultKey,
      if IsTruthyInt(options.byteLength) then options.byteLength.value else DefaultByteLength,
      if IsTruthyInt(options.maxAge) then options.maxAge.value else DefaultMaxAge,
      if IsTruthyString(options.limit) then options.limit.value else DefaultLimit)
  }

  /**
   * `getACID`: keep the identity cookie the request carries when it is
   * non-empty, otherwise take a fresh id; in both cases write it back with
   * an expiry `maxAge` from now.
   */
  function GetAcid(cfg: Config, req: Request, host: Host): (c: Cookie)
    ensures c.name == cfg.key && c.httpOnly && c.expires == host.now + cfg.maxAge
    ensures cfg.key in req.cookies && req.cookies[cfg.key] != "" ==> c.value == req.cookies[cfg.key]
    ensures (cfg.key !in req.cookies || req.cookies[cfg.key] == "") ==> c.value == host.freshId
    ensures host.freshId != "" ==> c.value != ""
  {
    var existing := Lookup(req.cookies, cfg.key);
    var acid := if IsTruthyString(existing) then existing.value else host.freshId;
    Cookie(cfg.key, acid, host.now + cfg.maxAge, true)
  }

  /** The request carries a non-empty `Origin` header. */
  predicate HasOrigin(req: Request)
  {
    IsTruthyString(Lookup(req.headers, "origin"))
  }

  /** The preflight asks for POST: `Access-Control-Request-Method` is present and trims to `POST`. */
  predicate AsksForPost(req: Request)
  {
    var m := Lookup(req.headers, "access-control-request-method");
    m.Some? && Trim(m.value) == "POST"
  }

  /** `err.status || 415`. */
  function ReadErrorStatus(status: Option<int>): (code: int)
    ensures code != 0
    ensures IsTruthyInt(status) ==> code == status.value
    ensures !IsTruthyInt(status) ==> code == 415
  {
    if IsTruthyInt(status) then status.value else 415
  }

  /** The headers written before dispatch: `Access-Control-Allow-Origin: *` when there is an origin. */
  function CorsHeaders(req: Request): (h: map<HeaderName, string>)
    ensures AllowOriginHeader in h <==> HasOrigin(req)
    ensures forall k :: k in h ==> k == AllowOriginHeader && h[k] == "*"
  {
    if HasOrigin(req) then map[AllowOriginHeader := "*"] else map[]
  }

  /**
   * The OPTIONS branch. With an origin, a preflight that does not ask for
   * POST is refused with 405 and no `Allow`; otherwise 204 with `Allow`,
   * plus the preflight answer headers when there is an origin.
   */
  function Preflight(req: Request, h: map<HeaderName, string>): (r: Answer)
    requires AllowHeader !in h && AllowMethodsHeader !in h && MaxAgeHeader !in h
    ensures r.status == 405 <==> HasOrigin(req) && !AsksForPost(req)
    ensures r.status == 405 || r.status == 204
    ensures r.status == 405 ==> r.headers == h
    ensures r.status == 204 ==> AllowHeader in r.headers && r.headers[AllowHeader] == AllowedMethods
    ensures r.status == 204 ==> (AllowMethodsHeader in r.headers <==> HasOrigin(req))
    ensures r.status == 204 ==> (MaxAgeHeader in r.headers <==> HasOrigin(req))
    ensures AllowMethodsHeader in r.headers ==> r.headers[AllowMethodsHeader] == "POST" && MaxAgeHeader in r.headers && r.headers[MaxAgeHeader] == PreflightMaxAge
    ensures forall k :: k in h ==> k in r.headers && r.headers[k] == h[k]
    ensures forall k :: k in r.headers && k !in h ==> k == AllowHeader || k == AllowMethodsHeader || k == MaxAgeHeader
  {
    if HasOrigin(req) && !AsksForPost(req) then Answer(405, h)
    else
      var h1 := if HasOrigin(req) then h[AllowMethodsHeader := "POST"][MaxAgeHeader := PreflightMaxAge] else h;
      Answer(204, h1[AllowHeader := AllowedMethods])
  }

  /**
   * The POST branch after dispatch: the content-type gate, the body read and
   * the shape/parse check. Exactly one record is written on every outcome;
   * it carries `data` only when the body was accepted, and then the status
   * stays at the default 200.
   */
  function Ingest(req: Request, obj: EventRecord, parse: Parser): (r: Ingested)
    requires obj.data.None?
    ensures |r.records| == 1 && r.records[0] == obj.(data := r.records[0].data)
    ensures !req.typeIsJsonOrText ==> r.status == 415 && r.records[0].data.None?
    ensures req.typeIsJsonOrText && req.body.ReadFailed? ==>
              r.status == ReadErrorStatus(req.body.status) && r.records[0].data.None?
    ensures req.typeIsJsonOrText && req.body.ReadOk? && !MatchesObjectPattern(req.body.text) ==>
              r.status == 422 && r.records[0].data.None?
    ensures req.typeIsJsonOrText && req.body.ReadOk? && MatchesObjectPattern(req.body.text) && parse(req.body.text).None? ==>
              r.status == 400 && r.records[0].data.None?
    ensures req.typeIsJsonOrText && req.body.ReadOk? && MatchesObjectPattern(req.body.text) && parse(req.body.text).Some? ==>
              r.status == 200 && r.records[0].data == parse(req.body.text)
  {
    if !req.typeIsJsonOrText then Ingested(415, [obj])
    else match req.body
      case ReadFailed(status) => Ingested(ReadErrorStatus(status), [obj])
      case ReadOk(text) =>
        match ParseJson(text, parse)
        case Rejected(code) => Ingested(code, [obj])
        case Accepted(v) => Ingested(200, [obj.(data := Some(v))])
  }

  /** The body was read, has the object shape and parses: the one case that yields `data`. */
  ghost predicate BodyAccepted(req: Request, parse: Parser)
  {
    && req.typeIsJsonOrText
    && req.body.ReadOk?
    && MatchesObjectPattern(req.body.text)
    && parse(req.body.text).Some?
  }

  /** The record every call assembles before dispatch, without `data`. */
  function BaseRecord(req: Request, acid: string, host: Host): EventRecord
  {
    EventRecord(req.headers, acid, host.ip, host.now, None)
  }

  /**
   * `call`: the identity cookie is set on every request; POST is ingested,
   * OPTIONS answered as a preflight, every other method refused with 405.
   */
  function Call(cfg: Config, req: Request, host: Host, parse: Parser): (out: Outcome)
    // identity and the record's contents
    ensures out.response.cookie == GetAcid(cfg, req, host)
    ensures forall e :: e in out.emitted ==>
              e.headers == req.headers && e.acid == out.response.cookie.value && e.ip == host.ip && e.receivedAt == host.now
    // a record is written exactly for POST, and then exactly one
    ensures |out.emitted| == (if req.verb == "POST" then 1 else 0)
    // `Access-Control-Allow-Origin: *` exactly when there is an origin, on every path
    ensures AllowOriginHeader in out.response.headers <==> HasOrigin(req)
    ensures AllowOriginHeader in out.response.headers ==> out.response.headers[AllowOriginHeader] == "*"
    // any other method
    ensures req.verb != "POST" && req.verb != "OPTIONS" ==>
              && out.response.status == 405
              && AllowHeader in out.response.headers && out.response.headers[AllowHeader] == AllowedMethods
              && AllowMethodsHeader !in out.response.headers && MaxAgeHeader !in out.response.headers
    // OPTIONS
    ensures req.verb == "OPTIONS" && HasOrigin(req) && !AsksForPost(req) ==>
              && out.response.status == 405
              && AllowHeader !in out.response.headers
              && AllowMethodsHeader !in out.response.headers && MaxAgeHeader !in out.response.headers
    ensures req.verb == "OPTIONS" && (!HasOrigin(req) || AsksForPost(req)) ==>
              && out.response.status == 204
              && AllowHeader in out.response.headers && out.response.headers[AllowHeader] == AllowedMethods
              && (AllowMethodsHeader in out.response.headers <==> HasOrigin(req))
              && (MaxAgeHeader in out.response.headers <==> HasOrigin(req))
    ensures AllowMethodsHeader in out.response.headers ==>
              && out.response.headers[AllowMethodsHeader] == "POST"
              && MaxAgeHeader in out.response.headers && out.response.headers[MaxAgeHeader] == PreflightMaxAge
    // POST
    ensures req.verb == "POST" ==> out.response.headers.Keys <= {AllowOriginHeader}
    ensures req.verb == "POST" && !req.typeIsJsonOrText ==> out.response.status == 415
    ensures req.verb == "POST" && req.typeIsJsonOrText && req.body.ReadFailed? ==>
              out.response.status == ReadErrorStatus(req.body.status)
    ensures req.verb == "POST" && req.typeIsJsonOrText && req.body.ReadOk? ==>
              out.response.status == (if !MatchesObjectPattern(req.body.text) then 422
                                      else if parse(req.body.text).None? then 400
                                      else 200)
    // `data` is present exactly on an accepted body, and is the parsed value
    ensures forall e :: e in out.emitted ==> e.data == (if BodyAccepted(req, parse) then parse(req.body.text) else None)
  {
    var cookie := GetAcid(cfg, req, host);
    var obj := BaseRecord(req, cookie.value, host);
    var h := CorsHeaders(req);
    if req.verb == "POST" then
      var r := Ingest(req, obj, parse);
      Outcome(Response(r.status, h, cookie), r.records)
    else if req.verb == "OPTIONS" then
      var r := Preflight(req, h);
      Outcome(Response(r.status, r.headers, cookie), [])
    else
      Outcome(Response(405, h[AllowHeader := AllowedMethods], cookie), [])
  }
}
