/**
 * The collector's body check: a pre-filter regular expression
 * `/^\s*\{.*\}\s*$/` (no flags, so `.` refuses line terminators and `^`/`$`
 * anchor at the ends of the whole text) followed by `JSON.parse`.
 */
module JsonShape {
  import opened Optional
  import opened JsText

  /** A parsed JSON value; numbers are kept as their literal text. */
  datatype Json =
    | JNull
    | JBool(b: bool)
    | JNumber(literal: string)
    | JString(text: string)
    | JArray(items: seq<Json>)
    | JObject(members: seq<(string, Json)>)

  /** `JSON.parse` as a partial function: None where it throws. */
  type Parser = string -> Option<Json>

  /**
   * The language of `/^\s*\{.*\}\s*$/`: space characters, `{`, any run of
   * characters other than line terminators, `}`, space characters.
   */
  ghost predicate MatchesObjectPattern(s: string)
  {
    exists a, b :: ObjectMatchAt(s, a, b)
  }

  /** The pattern matches `s` with its `{` at offset `a` and its `}` at offset `b`. */
  predicate ObjectMatchAt(s: string, a: int, b: int)
  {
    && 0 <= a < b < |s|
    && AllSpace(s[..a])
    && s[a] == '{'
    && NoLineTerminator(s[a + 1..b])
    && s[b] == '}'
    && AllSpace(s[b + 1..])
  }

  /**
   * The shape test stated on the trimmed text: at least two characters,
   * opening with `{`, closing with `}`, and no line terminator anywhere.
   */
  predicate ShapeOk(s: string)
  {
    var t := Trim(s);
    |t| >= 2 && t[0] == '{' && t[|t| - 1] == '}' && NoLineTerminator(t)
  }

  /** Trimmed text of the right shape yields a match of the regular expression. */
  lemma ShapeOkMatches(s: string)
    requires ShapeOk(s)
    ensures MatchesObjectPattern(s)
  {
    var t := Trim(s);
    TrimIsPadded(s);
    var a := |s| - |TrimStart(s)|;
    var b := a + |t| - 1;
    InnerOfSlice(s, a, b);
    NoLineTerminatorInner(t);
    assert ObjectMatchAt(s, a, b);
  }

  /** The characters strictly between the ends of `s[a..b + 1]` are `s[a + 1..b]`. */
  lemma InnerOfSlice(s: string, a: int, b: int)
    requires 0 <= a < b < |s|
    ensures s[a..b + 1][1..b - a] == s[a + 1..b]
    ensures s[a..b + 1][0] == s[a] && s[a..b + 1][b - a] == s[b]
  {
    var t := s[a..b + 1];
    var u := t[1..b - a];
    assert |u| == |s[a + 1..b]|;
    forall i | 0 <= i < |u| ensures u[i] == s[a + 1..b][i] {
      assert u[i] == t[i + 1] == s[a + 1 + i];
    }
  }

  /** Dropping the first and last characters keeps a text free of line terminators. */
  lemma NoLineTerminatorInner(t: string)
    requires |t| >= 2 && NoLineTerminator(t)
    ensures NoLineTerminator(t[1..|t| - 1])
  {
    var u := t[1..|t| - 1];
    forall i | 0 <= i < |u| ensures !IsLineTerminator(u[i]) {
      assert u[i] == t[i + 1];
    }
  }

  /** The text a match spans, from its `{` to its `}`, holds no line terminator. */
  lemma MatchedSpanHasNoLineTerminator(s: string, a: int, b: int)
    requires ObjectMatchAt(s, a, b)
    ensures NoLineTerminator(s[a..b + 1])
  {
    var t := s[a..b + 1];
    forall i | 0 <= i < |t| ensures !IsLineTerminator(t[i]) {
      if 0 < i < |t| - 1 {
        assert t[i] == s[a + 1..b][i - 1];
      }
    }
  }

  /** A match of the regular expression trims to text of the right shape. */
  lemma MatchIsShapeOk(s: string)
    requires MatchesObjectPattern(s)
    ensures ShapeOk(s)
  {
    var a, b :| ObjectMatchAt(s, a, b);
    var t := s[a..b + 1];
    assert Unpadded(t);
    assert PaddedAt(s, t, a);
    TrimUnique(s, t);
    MatchedSpanHasNoLineTerminator(s, a, b);
    assert t[0] == '{' && t[|t| - 1] == '}';
  }

  /** The trimmed-text formulation agrees with the regular expression on every string. */
  lemma ShapeOkIffPattern(s: string)
    ensures ShapeOk(s) <==> MatchesObjectPattern(s)
  {
    if ShapeOk(s) {
      ShapeOkMatches(s);
    }
    if MatchesObjectPattern(s) {
      MatchIsShapeOk(s);
    }
  }

  /** Text that is itself `{`…`}` on one line matches, with nothing to trim. */
  lemma BracedLineMatches(s: string)
    requires |s| >= 2 && s[0] == '{' && s[|s| - 1] == '}' && NoLineTerminator(s)
    ensures MatchesObjectPattern(s)
  {
    NoLineTerminatorInner(s);
    assert s[1..|s| - 1] == s[0 + 1..|s| - 1];
    assert s[|s|..] == [];
    assert ObjectMatchAt(s, 0, |s| - 1);
  }

  /** A line break between the braces defeats the pattern, whatever else the text holds. */
  lemma InnerLineBreakFails(s: string, i: nat)
    requires |s| >= 2 && s[0] == '{' && s[|s| - 1] == '}'
    requires 0 < i < |s| - 1 && IsLineTerminator(s[i])
    ensures !MatchesObjectPattern(s)
  {
    assert s[0..0 + |s|] == s && s[..0] == [] && s[0 + |s|..] == [];
    assert PaddedAt(s, s, 0);
    TrimUnique(s, s);
    ShapeOkIffPattern(s);
  }

  /** What `parseJSON` returns: a status code, or the parsed value. */
  datatype ParseResult = Rejected(status: int) | Accepted(value: Json)

  /**
   * `parseJSON`: 422 when the text does not have the object shape, 400 when
   * it has it but does not parse, otherwise the parsed value.
   */
  function ParseJson(s: string, parse: Parser): (r: ParseResult)
    ensures r == Rejected(422) <==> !MatchesObjectPattern(s)
    ensures r == Rejected(400) <==> MatchesObjectPattern(s) && parse(s).None?
    ensures r.Accepted? <==> MatchesObjectPattern(s) && parse(s).Some?
    ensures r.Accepted? ==> parse(s) == Some(r.value)
  {
    ShapeOkIffPattern(s);
    if !ShapeOk(s) then Rejected(422)
    else match parse(s)
      case None => Rejected(400)
      case Some(v) => Accepted(v)
  }

  /** The first character left after leading space is `{`. */
  predicate OpensWithBrace(s: string)
  {
    var u := TrimStart(s);
    |u| > 0 && u[0] == '{'
  }

  /**
   * A fact about `JSON.parse` the model relies on: JSON text whose first
   * non-space character is `{` can only parse to an object.
   */
  ghost predicate ObjectTextParsesToObject(parse: Parser)
  {
    forall s :: parse(s).Some? && OpensWithBrace(s) ==> parse(s).value.JObject?
  }

  /**
   * An accepted body is always a JSON object, so the `typeof json === 'number'`
   * test in `call` tells the two rejection codes apart from every accepted value.
   */
  lemma AcceptedIsObject(s: string, parse: Parser)
    requires ObjectTextParsesToObject(parse)
    ensures ParseJson(s, parse).Accepted? ==> ParseJson(s, parse).value.JObject?
  {
    ShapeOkIffPattern(s);
    if ShapeOk(s) {
      var u := TrimStart(s);
      TrimEndSpec(u);
      assert Trim(s)[0] == u[0];
    }
  }
}
