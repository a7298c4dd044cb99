/** The single-pass parser: pulls tokens from the scanner and builds the document,
    a map from section name to a map from key to value. */
module Parser {
  import opened Results
  import opened Tokens
  import opened Lexer

  /** A list element or scalar value: a number or a string with its quotes removed. */
  datatype Scalar = Num(number: real) | Str(text: string)

  /** A key's value: one scalar, or a list of scalars in source order. */
  datatype Value = Single(scalar: Scalar) | List(items: seq<Scalar>)

  /** A section maps keys to values; `None` is a key declared but not yet assigned. */
  type Section = map<string, Option<Value>>

  type Document = map<string, Section>

  /** Why a parse fails. Besides the two diagnostics the parser reports itself,
      each place where the parser would crash on a missing value has its own case. */
  datatype Error =
    | WrongToken(expected: TokenKind, got: TokenKind)   // a required kind was not found
    | UnexpectedToken(text: string)                     // a token with no production here
    | UnexpectedEnd                                     // input ended after `[` or `=`
    | NoSection                                         // a key or `=` before any header
    | NoKey                                             // `=` before any key was declared
    | MalformedNumber(text: string)                     // number text the float reader rejects
    | Lex(failure: LexError)                            // the scanner failed

  /** The conversion of number text to a number; `None` when the text is not a
      valid floating-point literal. */
  type FloatReader = string -> Option<real>

  /** The parser's running state: the scanner cursor, the current section header,
      the last declared key, and the document built so far. */
  datatype ParserState = ParserState(cursor: nat, head: Option<string>, lastVar: Option<string>, doc: Document)

  /** The state the parser is built with: the cursor at the start, an empty document,
      no current section (the source's `""`, which has no `.text`) and no pending key
      (`last_var` is set only by the first identifier). */
  const Initial: ParserState := ParserState(0, None, None, map[])

  /** What holds of every state the parser reaches: the cursor is within the input,
      the current section exists in the document, and no key is pending before the
      first header. */
  ghost predicate Valid(content: string, st: ParserState) {
    && st.cursor <= |content|
    && (st.head.Some? ==> st.head.value in st.doc)
    && (st.head.None? ==> st.lastVar.None?)
  }

  /** Every section of `d` is still in `d'`, and keeps all of its keys unless it has
      been reset to empty (which is what re-declaring a section with a header does). */
  ghost predicate SectionsKept(d: Document, d': Document) {
    && d.Keys <= d'.Keys
    && forall s | s in d :: d[s].Keys <= d'[s].Keys || d'[s] == map[]
  }

  /** Fetches the next token, turning a scanner failure into a parse error. */
  function Pull(content: string, cursor: nat): Result<Lexed, Error> {
    match Next(content, cursor)
    case Ok(l) => Ok(l)
    case Err(e) => Err(Lex(e))
  }

  /** The text between the first and last characters; empty when there are fewer than two. */
  function Unquote(s: string): string {
    if |s| < 2 then [] else s[1..|s| - 1]
  }

  /** Converts a token to a value: a Number through the float reader, a String by
      removing its quotes; any other kind is unexpected here. */
  function ConvertIdent(t: Token, readFloat: FloatReader): (r: Result<Scalar, Error>)
    ensures r.Ok? <==> t.kind == String || (t.kind == Number && readFloat(t.text).Some?)
    ensures r.Ok? && t.kind == Number ==> r.value == Num(readFloat(t.text).value)
    ensures r.Ok? && t.kind == String && |t.text| >= 2 ==>
              r.value.Str? && [t.text[0]] + r.value.text + [t.text[|t.text| - 1]] == t.text
    ensures r.Err? && t.kind == Number ==> r.error == MalformedNumber(t.text)
    ensures r.Err? && t.kind != Number ==> r.error == UnexpectedToken(t.text)
  {
    if t.kind == Number then
      match readFloat(t.text)
      case Some(x) => Ok(Num(x))
      case None => Err(MalformedNumber(t.text))
    else if t.kind == String then
      Ok(Str(Unquote(t.text)))
    else
      Err(UnexpectedToken(t.text))
  }

  datatype Items = Items(items: seq<Scalar>, cursor: nat)

  /** The body of a list value, after its `[`: converts tokens until `]` or end of
      input, skipping commas. */
  function ReadItems(content: string, readFloat: FloatReader, cursor: nat): (r: Result<Items, Error>)
    requires cursor <= |content|
    ensures r.Ok? ==> cursor <= r.value.cursor <= |content|
    decreases |content| - cursor
  {
    var l :- Pull(content, cursor);
    match l.token
    case None => Ok(Items([], l.cursor))
    case Some(t) =>
      if t.kind == RightBracket then Ok(Items([], l.cursor))
      else if t.kind == Comma then ReadItems(content, readFloat, l.cursor)
      else
        var x :- ConvertIdent(t, readFloat);
        var rest :- ReadItems(content, readFloat, l.cursor);
        Ok(Items([x] + rest.items, rest.cursor))
  }

  datatype ValueRead = ValueRead(value: Value, cursor: nat)

  /** The value after `=`: a list when the next token is `[`, otherwise that one
      token converted. There must be a token: end of input fails, as does a
      scanner failure. */
  function ReadValue(content: string, readFloat: FloatReader, cursor: nat): (r: Result<ValueRead, Error>)
    requires cursor <= |content|
    ensures r.Ok? ==> cursor < r.value.cursor <= |content|
    ensures Next(content, cursor).Err? ==> r == Err(Lex(Next(content, cursor).error))
    ensures Next(content, cursor).Ok? && Next(content, cursor).value.token.None? ==> r == Err(UnexpectedEnd)
  {
    var l :- Pull(content, cursor);
    match l.token
    case None => Err(UnexpectedEnd)
    case Some(t) =>
      if t.kind == LeftBracket then
        var list :- ReadItems(content, readFloat, l.cursor);
        Ok(ValueRead(List(list.items), list.cursor))
      else
        var x :- ConvertIdent(t, readFloat);
        Ok(ValueRead(Single(x), l.cursor))
  }

  function SetKey(doc: Document, section: string, key: string, v: Option<Value>): Document
    requires section in doc
  {
    doc[section := doc[section][key := v]]
  }

  /** After `[`: the next token's text names the section, whatever its kind, and
      the token after it must be `]`. The section is (re)set to empty. */
  function OpenSection(content: string, st: ParserState, cursor: nat): Result<ParserState, Error>
    requires cursor <= |content|
  {
    var name :- Pull(content, cursor);
    var close :- Pull(content, name.cursor);
    if close.token.None? || name.token.None? then Err(UnexpectedEnd)
    else if close.token.value.kind != RightBracket then Err(WrongToken(RightBracket, close.token.value.kind))
    else
      var section := name.token.value.text;
      Ok(ParserState(close.cursor, Some(section), st.lastVar, st.doc[section := map[]]))
  }

  /** A bare identifier declares a key, unassigned, in the current section and
      becomes the target of the next `=`. */
  function DeclareKey(st: ParserState, key: string, cursor: nat): Result<ParserState, Error>
    requires st.head.Some? ==> st.head.value in st.doc
  {
    match st.head
    case None => Err(NoSection)
    case Some(h) => Ok(st.(cursor := cursor, lastVar := Some(key), doc := SetKey(st.doc, h, key, None)))
  }

  /** After `=`: reads the value, then stores it under the last declared key of
      the current section. The value is read before the section and the key are
      looked at, so its errors come first. */
  function AssignValue(content: string, readFloat: FloatReader, st: ParserState, cursor: nat): Result<ParserState, Error>
    requires cursor <= |content|
    requires st.head.Some? ==> st.head.value in st.doc
  {
    var v :- ReadValue(content, readFloat, cursor);
    match (st.head, st.lastVar)
    case (None, _) => Err(NoSection)
    case (_, None) => Err(NoKey)
    case (Some(h), Some(k)) => Ok(st.(cursor := v.cursor, doc := SetKey(st.doc, h, k, Some(v.value))))
  }

  /** The outcome of handling one top-level token. */
  datatype StepResult = Continue(next: ParserState) | Finished(doc: Document) | Failed(error: Error)

  function Resume(r: Result<ParserState, Error>): StepResult {
    match r
    case Ok(st) => Continue(st)
    case Err(e) => Failed(e)
  }

  /** One round of the parse loop: fetches a top-level token and handles it. The
      parse finishes, with the document unchanged, at end of input and at any token
      kind that has no top-level production. A step that continues keeps the state
      valid and moves the cursor forward; it deletes no section, and removes keys only
      by resetting a re-declared section to empty. */
  function Step(content: string, readFloat: FloatReader, st: ParserState): (r: StepResult)
    requires Valid(content, st)
    ensures r.Continue? ==> Valid(content, r.next) && st.cursor < r.next.cursor
    ensures r.Continue? ==> SectionsKept(st.doc, r.next.doc)
    ensures r.Finished? ==> r.doc == st.doc
  {
    match Pull(content, st.cursor)
    case Err(e) => Failed(e)
    case Ok(Lexed(None, _)) => Finished(st.doc)
    case Ok(Lexed(Some(t), c)) =>
      match t.kind
      case LeftBracket => Resume(OpenSection(content, st, c))
      case RightBracket => Failed(UnexpectedToken(t.text))
      case Identifier => Resume(DeclareKey(st, t.text, c))
      case Equal => Resume(AssignValue(content, readFloat, st, c))
      case Comment => Continue(st.(cursor := c))
      case NewLine => Continue(st.(cursor := c))
      case _ => Finished(st.doc)
  }

  /** The parse loop from a given state. Sections are never removed: every section
      of the starting document is in the result. */
  function Run(content: string, readFloat: FloatReader, st: ParserState): (r: Result<Document, Error>)
    requires Valid(content, st)
    ensures r.Ok? ==> st.doc.Keys <= r.value.Keys
    decreases |content| - st.cursor
  {
    match Step(content, readFloat, st)
    case Continue(next) => Run(content, readFloat, next)
    case Finished(doc) => Ok(doc)
    case Failed(e) => Err(e)
  }

  /** Parses a whole input from the start. */
  function Parse(content: string, readFloat: FloatReader): Result<Document, Error> {
    Run(content, readFloat, Initial)
  }
}
