/**
 * The endpoint's HTTP surface written as a decision table, independently of
 * the order in which `call` tests things: each row names the requests it
 * covers, the status it answers with and whether a record is written.
 */
module HttpSurface {
  import opened JsonShape
  import opened Collector

  datatype Row =
    | ObjectAccepted    // POST, json/text, body read, object-shaped, parses
    | UnsupportedType   // POST, neither json nor text
    | ReadFailure       // POST, json/text, the body could not be read
    | NotAnObject       // POST, json/text, body read but not object-shaped
    | Malformed         // POST, json/text, object-shaped but unparsable
    | PlainOptions      // OPTIONS without an origin
    | PreflightGranted  // OPTIONS with an origin asking for POST
    | PreflightRefused  // OPTIONS with an origin asking for anything else
    | MethodRefused     // any other method

  /** The requests a row covers. */
  ghost predicate Covers(row: Row, req: Request, parse: Parser)
  {
    var post := req.verb == "POST";
    var typed := post && req.typeIsJsonOrText;
    var read := typed && req.body.ReadOk?;
    match row
    case ObjectAccepted => read && MatchesObjectPattern(req.body.text) && parse(req.body.text).Some?
    case UnsupportedType => post && !req.typeIsJsonOrText
    case ReadFailure => typed && req.body.ReadFailed?
    case NotAnObject => read && !MatchesObjectPattern(req.body.text)
    case Malformed => read && MatchesObjectPattern(req.body.text) && parse(req.body.text).None?
    case PlainOptions => req.verb == "OPTIONS" && !HasOrigin(req)
    case PreflightGranted => req.verb == "OPTIONS" && HasOrigin(req) && AsksForPost(req)
    case PreflightRefused => req.verb == "OPTIONS" && HasOrigin(req) && !AsksForPost(req)
    case MethodRefused => req.verb != "POST" && req.verb != "OPTIONS"
  }

  /** The status a row answers with; a read failure answers with the reader's status, or 415. */
  function RowStatus(row: Row, req: Request): int
  {
    match row
    case ObjectAccepted => 200
    case UnsupportedType => 415
    case ReadFailure => if req.body.ReadFailed? then ReadErrorStatus(req.body.status) else 415
    case NotAnObject => 422
    case Malformed => 400
    case PlainOptions => 204
    case PreflightGranted => 204
    case PreflightRefused => 405
    case MethodRefused => 405
  }

  /** Rows that write a record to the stream: every POST row. */
  predicate WritesRecord(row: Row)
  {
    row in {ObjectAccepted, UnsupportedType, ReadFailure, NotAnObject, Malformed}
  }

  /** Rows that answer with `Allow: POST, OPTIONS`. */
  predicate AnswersAllow(row: Row)
  {
    row in {PlainOptions, PreflightGranted, MethodRefused}
  }

  /** The row covering a request; the table leaves no request uncovered. */
  function RowOf(req: Request, parse: Parser): (row: Row)
    ensures Covers(row, req, parse)
  {
    ShapeOkIffPattern(if req.body.ReadOk? then req.body.text else "");
    if req.verb == "POST" then
      if !req.typeIsJsonOrText then UnsupportedType
      else if req.body.ReadFailed? then ReadFailure
      else if !ShapeOk(req.body.text) then NotAnObject
      else if parse(req.body.text).None? then Malformed
      else ObjectAccepted
    else if req.verb == "OPTIONS" then
      if !HasOrigin(req) then PlainOptions
      else if AsksForPost(req) then PreflightGranted
      else PreflightRefused
    else MethodRefused
  }

  /** No two rows cover the same request. */
  lemma RowsAreDisjoint(req: Request, parse: Parser, r1: Row, r2: Row)
    requires Covers(r1, req, parse) && Covers(r2, req, parse)
    ensures r1 == r2
  {
  }

  /**
   * `call` answers every request as the row covering it says: the status,
   * whether a record is written, whether it carries `data`, and whether
   * `Allow` is sent.
   */
  lemma CallFollowsTable(cfg: Config, req: Request, host: Host, parse: Parser, row: Row)
    requires Covers(row, req, parse)
    ensures var out := Call(cfg, req, host, parse);
            && out.response.status == RowStatus(row, req)
            && (|out.emitted| == 1 <==> WritesRecord(row))
            && (|out.emitted| == 1 ==> (out.emitted[0].data.Some? <==> row == ObjectAccepted))
            && (AllowHeader in out.response.headers <==> AnswersAllow(row))
  {
  }
}
