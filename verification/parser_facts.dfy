/** Properties of the parser: what each top-level token does to the parser state,
    what a list value holds, and the behaviour on small complete inputs. */
module ParserFacts {
  import opened Results
  import opened Tokens
  import opened Lexer
  import opened TokenStream
  import opened Parser

  /** Comments and newlines at top level change nothing but the cursor: the
      document, the current section and the pending key stay as they were. */
  lemma TriviaIsIgnored(content: string, readFloat: FloatReader, st: ParserState, t: Token, c: nat)
    requires Valid(content, st)
    requires Next(content, st.cursor) == Ok(Lexed(Some(t), c))
    requires t.kind == Comment || t.kind == NewLine
    ensures Step(content, readFloat, st) == Continue(st.(cursor := c))
  {
  }

  /** A `]` at top level is an unexpected token. */
  lemma StrayCloseBracketFails(content: string, readFloat: FloatReader, st: ParserState, t: Token, c: nat)
    requires Valid(content, st)
    requires Next(content, st.cursor) == Ok(Lexed(Some(t), c))
    requires t.kind == RightBracket
    ensures Step(content, readFloat, st) == Failed(UnexpectedToken("]"))
  {
    PunctuationText(content, st.cursor);
  }

  /** End of input, and a brace, string, number or comma at top level, end the
      parse with the document built so far. */
  lemma StopsWithDocument(content: string, readFloat: FloatReader, st: ParserState)
    requires Valid(content, st)
    requires Next(content, st.cursor).Ok?
    requires var tok := Next(content, st.cursor).value.token;
             tok.None? || tok.value.kind in {LeftBrace, RightBrace, String, Number, Comma}
    ensures Step(content, readFloat, st) == Finished(st.doc)
    ensures Run(content, readFloat, st) == Ok(st.doc)
  {
  }

  /** `[ name ]` makes the text of `name`, whatever its kind, the current section,
      and sets that section to empty, discarding earlier contents; no other section
      and not the pending key change. If the token after the name is not `]`, the
      step fails with WrongToken. */
  lemma HeaderResetsSection(content: string, readFloat: FloatReader, st: ParserState,
                            c: nat, name: Token, c': nat, close: Token, c'': nat)
    requires Valid(content, st)
    requires Next(content, st.cursor) == Ok(Lexed(Some(Token(LeftBracket, "[")), c))
    requires Next(content, c) == Ok(Lexed(Some(name), c'))
    requires Next(content, c') == Ok(Lexed(Some(close), c''))
    ensures close.kind != RightBracket ==>
              Step(content, readFloat, st) == Failed(WrongToken(RightBracket, close.kind))
    ensures close.kind == RightBracket ==>
              && Step(content, readFloat, st).Continue?
              && var next := Step(content, readFloat, st).next;
              && next.cursor == c''
              && next.head == Some(name.text)
              && next.lastVar == st.lastVar
              && next.doc.Keys == st.doc.Keys + {name.text}
              && next.doc[name.text] == map[]
              && forall s | s in st.doc && s != name.text :: next.doc[s] == st.doc[s]
  {
  }

  /** A `[` with no name or no closing token before end of input fails. */
  lemma HeaderAtEndFails(content: string, readFloat: FloatReader, st: ParserState, c: nat)
    requires Valid(content, st)
    requires Next(content, st.cursor) == Ok(Lexed(Some(Token(LeftBracket, "[")), c))
    requires Next(content, c).Ok?
    requires var n := Next(content, c).value;
             n.token.None? || (Next(content, n.cursor).Ok? && Next(content, n.cursor).value.token.None?)
    ensures Step(content, readFloat, st) == Failed(UnexpectedEnd)
  {
  }

  /** A scanner failure where a top-level token is due fails the step with that
      failure. */
  lemma ScanFailureFails(content: string, readFloat: FloatReader, st: ParserState)
    requires Valid(content, st)
    requires Next(content, st.cursor).Err?
    ensures Step(content, readFloat, st) == Failed(Lex(Next(content, st.cursor).error))
  {
  }

  /** A scanner failure on the token after `[` or `=` fails the step with that failure. */
  lemma ScanFailureAfterOpener(content: string, readFloat: FloatReader, st: ParserState, t: Token, c: nat)
    requires Valid(content, st)
    requires Next(content, st.cursor) == Ok(Lexed(Some(t), c))
    requires t.kind == LeftBracket || t.kind == Equal
    requires Next(content, c).Err?
    ensures Step(content, readFloat, st) == Failed(Lex(Next(content, c).error))
  {
  }

  /** A scanner failure where the `]` of a header is due fails the step with that failure. */
  lemma ScanFailureAfterHeaderName(content: string, readFloat: FloatReader, st: ParserState,
                                   c: nat, name: Token, c': nat)
    requires Valid(content, st)
    requires Next(content, st.cursor) == Ok(Lexed(Some(Token(LeftBracket, "[")), c))
    requires Next(content, c) == Ok(Lexed(Some(name), c'))
    requires Next(content, c').Err?
    ensures Step(content, readFloat, st) == Failed(Lex(Next(content, c').error))
  {
  }

  /** An `=` with no token after it fails, whatever the section and pending key. */
  lemma EqualAtEndFails(content: string, readFloat: FloatReader, st: ParserState, t: Token, c: nat)
    requires Valid(content, st)
    requires Next(content, st.cursor) == Ok(Lexed(Some(t), c))
    requires t.kind == Equal
    requires Next(content, c).Ok? && Next(content, c).value.token.None?
    ensures Step(content, readFloat, st) == Failed(UnexpectedEnd)
  {
  }

  /** An identifier declares its text as a key of the current section with no value
      (resetting any earlier value) and becomes the pending key; nothing else in the
      document changes. Before any header it fails with NoSection. */
  lemma IdentifierDeclaresKey(content: string, readFloat: FloatReader, st: ParserState, t: Token, c: nat)
    requires Valid(content, st)
    requires Next(content, st.cursor) == Ok(Lexed(Some(t), c))
    requires t.kind == Identifier
    ensures st.head.None? ==> Step(content, readFloat, st) == Failed(NoSection)
    ensures st.head.Some? ==>
              && Step(content, readFloat, st).Continue?
              && var next := Step(content, readFloat, st).next;
              var h := st.head.value;
              && next.cursor == c
              && next.head == st.head
              && next.lastVar == Some(t.text)
              && next.doc.Keys == st.doc.Keys
              && next.doc[h] == st.doc[h][t.text := None]
              && forall s | s in st.doc && s != h :: next.doc[s] == st.doc[s]
  {
  }

  /** `=` reads a value and stores it under the pending key of the current section,
      overwriting what was there; nothing else in the document changes. A value that
      cannot be read fails first; then a missing section, then a missing key. */
  lemma EqualAssignsPendingKey(content: string, readFloat: FloatReader, st: ParserState, t: Token, c: nat)
    requires Valid(content, st)
    requires Next(content, st.cursor) == Ok(Lexed(Some(t), c))
    requires t.kind == Equal
    ensures var v := ReadValue(content, readFloat, c);
            && (v.Err? ==> Step(content, readFloat, st) == Failed(v.error))
            && (v.Ok? && st.head.None? ==> Step(content, readFloat, st) == Failed(NoSection))
            && (v.Ok? && st.head.Some? && st.lastVar.None? ==> Step(content, readFloat, st) == Failed(NoKey))
    ensures var v := ReadValue(content, readFloat, c);
            v.Ok? && st.head.Some? && st.lastVar.Some? ==>
              && Step(content, readFloat, st).Continue?
              && var next := Step(content, readFloat, st).next;
              var h := st.head.value;
              && next.cursor == v.value.cursor
              && next.head == st.head
              && next.lastVar == st.lastVar
              && next.doc.Keys == st.doc.Keys
              && next.doc[h] == st.doc[h][st.lastVar.value := Some(v.value.value)]
              && forall s | s in st.doc && s != h :: next.doc[s] == st.doc[s]
  {
  }

  /** A scalar value is the one token after `=`, converted: a String loses its
      quotes, a Number goes through the float reader, anything else is unexpected. */
  lemma ScalarValue(content: string, readFloat: FloatReader, c: nat, t: Token, c': nat)
    requires c <= |content|
    requires Next(content, c) == Ok(Lexed(Some(t), c'))
    requires t.kind != LeftBracket
    ensures var v := ReadValue(content, readFloat, c);
            && (v.Ok? <==> ConvertIdent(t, readFloat).Ok?)
            && (v.Ok? ==> v.value == ValueRead(Single(ConvertIdent(t, readFloat).value), c'))
            && (v.Err? ==> v.error == ConvertIdent(t, readFloat).error)
  {
  }

  /** Quoting any text free of `"`, scanning it and converting the token gives the
      text back. */
  lemma QuotedStringRoundTrip(s: string, rest: string, readFloat: FloatReader)
    requires '"' !in s
    ensures var l := Next(['"'] + s + ['"'] + rest, 0);
            && l.Ok? && l.value.token.Some?
            && ConvertIdent(l.value.token.value, readFloat) == Ok(Str(s))
  {
    var q := ['"'] + s + ['"'];
    var content := q + rest;
    assert forall m | 0 < m < |q| - 1 :: q[m] == s[m - 1];
    assert content[0..|q|] == q;
    StringIs(content, 0, q);
    assert Unquote(q) == s;
  }

  // ---------------------------------------------------------------------------
  // List values, stated over the materialised token stream

  /** The position of the first token of kind `k`, or the length when there is none. */
  function FirstOfKind(ts: seq<Token>, k: TokenKind): (i: nat)
    ensures i <= |ts|
    ensures forall j | 0 <= j < i :: ts[j].kind != k
    ensures i < |ts| ==> ts[i].kind == k
  {
    if ts == [] then 0
    else if ts[0].kind == k then 0
    else 1 + FirstOfKind(ts[1..], k)
  }

  /** The tokens that are not commas, in their original order. */
  function DropCommas(ts: seq<Token>): (r: seq<Token>)
    ensures |r| <= |ts|
    ensures forall t | t in r :: t in ts && t.kind != Comma
    ensures forall t | t in ts && t.kind != Comma :: t in r
  {
    if ts == [] then []
    else if ts[0].kind == Comma then DropCommas(ts[1..])
    else [ts[0]] + DropCommas(ts[1..])
  }

  /** Converts every token; fails with the error of the first token that does not
      convert. */
  function ConvertAll(ts: seq<Token>, readFloat: FloatReader): (r: Result<seq<Scalar>, Error>)
    ensures r.Ok? <==> forall i | 0 <= i < |ts| :: ConvertIdent(ts[i], readFloat).Ok?
    ensures r.Ok? ==> |r.value| == |ts|
    ensures r.Ok? ==> forall i | 0 <= i < |ts| :: r.value[i] == ConvertIdent(ts[i], readFloat).value
    ensures r.Err? ==>
              exists i | 0 <= i < |ts| ::
                && ConvertIdent(ts[i], readFloat) == Err(r.error)
                && forall j | 0 <= j < i :: ConvertIdent(ts[j], readFloat).Ok?
  {
    if ts == [] then Ok([])
    else
      var x :- ConvertIdent(ts[0], readFloat);
      var rest :- ConvertAll(ts[1..], readFloat);
      Ok([x] + rest)
  }

  /** What a list body holds according to the token stream after its `[`: the
      tokens before the first `]` (all of them if there is none), commas dropped,
      each converted in order. If the stream has no `]` because the scanner failed,
      the list fails with that scanner error, unless a conversion failed first. */
  function ListFromStream(s: Stream, readFloat: FloatReader): Result<seq<Scalar>, Error> {
    ListBody(TokensOf(s.lexemes), s.failure, readFloat)
  }

  /** The pull-based list reader agrees with the stream description: a list value
      is the converted non-comma tokens up to `]` or end of input, in source order. */
  lemma {:induction false} ListFollowsStream(content: string, readFloat: FloatReader, cursor: nat)
    requires cursor <= |content|
    ensures ItemsOf(ReadItems(content, readFloat, cursor)) == ListFromStream(Tokenize(content, cursor), readFloat)
    decreases |content| - cursor
  {
    match Next(content, cursor)
    case Ok(Lexed(Some(t), c)) =>
      ListFollowsStream(content, readFloat, c);
      ListStep(content, readFloat, cursor, t, c);
    case _ =>
  }

  /** One token of `ListFollowsStream`: the stream description after a token is
      the description after the rest, with that token's contribution in front. */
  lemma ListStep(content: string, readFloat: FloatReader, cursor: nat, t: Token, c: nat)
    requires cursor <= |content|
    requires Next(content, cursor) == Ok(Lexed(Some(t), c))
    requires ItemsOf(ReadItems(content, readFloat, c)) == ListFromStream(Tokenize(content, c), readFloat)
    ensures ItemsOf(ReadItems(content, readFloat, cursor)) == ListFromStream(Tokenize(content, cursor), readFloat)
  {
    TokenizeCons(content, cursor, t, c);
    ReadItemsCons(content, readFloat, cursor, t, c);
    ListCombine(SkipSpaces(content, cursor) - cursor, t, Tokenize(content, c), readFloat,
                ItemsOf(ReadItems(content, readFloat, cursor)), ItemsOf(ReadItems(content, readFloat, c)));
  }

  /** The inductive step of `ListFollowsStream`, free of the scanner: if the reader
      and the stream description take the same step on a token and agree on the
      rest, they agree on the whole. */
  lemma ListCombine(gap: nat, t: Token, rest: Stream, readFloat: FloatReader,
                    r: Result<seq<Scalar>, Error>, tail: Result<seq<Scalar>, Error>)
    requires tail == ListFromStream(rest, readFloat)
    requires t.kind == RightBracket ==> r == Ok([])
    requires t.kind == Comma ==> r == tail
    requires t.kind != RightBracket && t.kind != Comma ==> r == ConsItem(ConvertIdent(t, readFloat), tail)
    ensures r == ListFromStream(Stream([Lexeme(gap, t)] + rest.lexemes, rest.trailing, rest.failure), readFloat)
  {
    ListFromStreamCons(gap, t, rest, readFloat);
  }

  /** The list reader, one token at a time. */
  lemma ReadItemsCons(content: string, readFloat: FloatReader, cursor: nat, t: Token, c: nat)
    requires cursor <= |content|
    requires Next(content, cursor) == Ok(Lexed(Some(t), c))
    ensures var r := ItemsOf(ReadItems(content, readFloat, cursor));
            var tail := ItemsOf(ReadItems(content, readFloat, c));
            && (t.kind == RightBracket ==> r == Ok([]))
            && (t.kind == Comma ==> r == tail)
            && (t.kind != RightBracket && t.kind != Comma ==> r == ConsItem(ConvertIdent(t, readFloat), tail))
  {
  }

  /** The elements read by the list reader, or its error. */
  function ItemsOf(r: Result<Items, Error>): Result<seq<Scalar>, Error> {
    match r
    case Ok(items) => Ok(items.items)
    case Err(e) => Err(e)
  }

  /** A converted element in front of the conversion of the rest; the first failure wins. */
  function ConsItem(head: Result<Scalar, Error>, tail: Result<seq<Scalar>, Error>): Result<seq<Scalar>, Error> {
    if head.Err? then Err(head.error)
    else if tail.Err? then Err(tail.error)
    else Ok([head.value] + tail.value)
  }

  /** The stream description of a list body, one token at a time: `]` closes the
      list, a comma contributes nothing, any other token is converted and put in
      front of the rest. */
  lemma ListFromStreamCons(gap: nat, t: Token, rest: Stream, readFloat: FloatReader)
    ensures var s := Stream([Lexeme(gap, t)] + rest.lexemes, rest.trailing, rest.failure);
            && (t.kind == RightBracket ==> ListFromStream(s, readFloat) == Ok([]))
            && (t.kind == Comma ==> ListFromStream(s, readFloat) == ListFromStream(rest, readFloat))
            && (t.kind != RightBracket && t.kind != Comma ==>
                  ListFromStream(s, readFloat) ==
                    ConsItem(ConvertIdent(t, readFloat), ListFromStream(rest, readFloat)))
  {
    var s := Stream([Lexeme(gap, t)] + rest.lexemes, rest.trailing, rest.failure);
    var ts' := TokensOf(rest.lexemes);
    TokensOfCons(Lexeme(gap, t), rest.lexemes);
    FirstOfKindCons(t, ts', RightBracket);
    if t.kind != RightBracket {
      ListBodyCons(t, ts', rest.failure, readFloat);
    }
  }

  /** `ListFromStream` restated over a token sequence and a failure. */
  function ListBody(ts: seq<Token>, failure: Option<LexError>, readFloat: FloatReader): Result<seq<Scalar>, Error> {
    var k := FirstOfKind(ts, RightBracket);
    var items := ConvertAll(DropCommas(ts[..k]), readFloat);
    if items.Ok? && k == |ts| && failure.Some? then Err(Lex(failure.value)) else items
  }

  lemma ListBodyCons(t: Token, ts: seq<Token>, failure: Option<LexError>, readFloat: FloatReader)
    requires t.kind != RightBracket
    ensures t.kind == Comma ==> ListBody([t] + ts, failure, readFloat) == ListBody(ts, failure, readFloat)
    ensures t.kind != Comma ==>
              ListBody([t] + ts, failure, readFloat) == ConsItem(ConvertIdent(t, readFloat), ListBody(ts, failure, readFloat))
  {
    var k' := FirstOfKind(ts, RightBracket);
    FirstOfKindCons(t, ts, RightBracket);
    assert ([t] + ts)[..1 + k'] == [t] + ts[..k'];
    DropCommasCons(t, ts[..k']);
    var items := ConvertAll(DropCommas(ts[..k']), readFloat);
    if t.kind == Comma {
      assert ConvertAll(DropCommas(([t] + ts)[..1 + k']), readFloat) == items;
    } else {
      ConvertAllCons(t, DropCommas(ts[..k']), readFloat);
      assert ConvertAll(DropCommas(([t] + ts)[..1 + k']), readFloat) == ConsItem(ConvertIdent(t, readFloat), items);
    }
  }

  lemma TokensOfCons(l: Lexeme, ls: seq<Lexeme>)
    ensures TokensOf([l] + ls) == [l.token] + TokensOf(ls)
  {
    assert ([l] + ls)[1..] == ls;
  }

  lemma FirstOfKindCons(t: Token, ts: seq<Token>, k: TokenKind)
    ensures FirstOfKind([t] + ts, k) == if t.kind == k then 0 else 1 + FirstOfKind(ts, k)
  {
    assert ([t] + ts)[1..] == ts;
  }

  lemma DropCommasCons(t: Token, ts: seq<Token>)
    ensures DropCommas([t] + ts) == if t.kind == Comma then DropCommas(ts) else [t] + DropCommas(ts)
  {
    assert ([t] + ts)[1..] == ts;
  }

  lemma ConvertAllCons(t: Token, ts: seq<Token>, readFloat: FloatReader)
    ensures ConvertAll([t] + ts, readFloat) == ConsItem(ConvertIdent(t, readFloat), ConvertAll(ts, readFloat))
  {
    assert ([t] + ts)[1..] == ts;
  }

  /** A list value is the stream description of the tokens after its `[`. */
  lemma ListValue(content: string, readFloat: FloatReader, c: nat, c': nat)
    requires c <= |content|
    requires Next(content, c) == Ok(Lexed(Some(Token(LeftBracket, "[")), c'))
    ensures var v := ReadValue(content, readFloat, c);
            var expected := ListFromStream(Tokenize(content, c'), readFloat);
            && (v.Ok? <==> expected.Ok?)
            && (v.Ok? ==> v.value.value == List(expected.value))
            && (v.Err? ==> v.error == expected.error)
  {
    ListFollowsStream(content, readFloat, c');
  }

  /** The parse starts with an empty document, no current section and no pending
      key. So an input that ends or stops at once parses to the empty document, and a
      key, or an `=` whose value can be read, as the first token fails with NoSection. */
  lemma FreshParse(content: string, readFloat: FloatReader, l: Lexed)
    requires Next(content, 0) == Ok(l)
    ensures Valid(content, Initial)
    ensures l.token.None? ==> Parse(content, readFloat) == Ok(map[])
    ensures l.token.Some? && l.token.value.kind in {LeftBrace, RightBrace, String, Number, Comma} ==>
              Parse(content, readFloat) == Ok(map[])
    ensures l.token.Some? && l.token.value.kind == Identifier ==> Parse(content, readFloat) == Err(NoSection)
    ensures l.token.Some? && l.token.value.kind == Equal && ReadValue(content, readFloat, l.cursor).Ok? ==>
              Parse(content, readFloat) == Err(NoSection)
  {
  }

  // ---------------------------------------------------------------------------
  // Whole inputs

  /** From any state, an input whose remaining tokens are all comments and newlines
      leaves the document as it is. */
  lemma {:induction false} TriviaOnlyLeavesDocument(content: string, readFloat: FloatReader, st: ParserState)
    requires Valid(content, st)
    requires Tokenize(content, st.cursor).failure.None?
    requires forall t | t in TokensOf(Tokenize(content, st.cursor).lexemes) :: t.kind == Comment || t.kind == NewLine
    ensures Run(content, readFloat, st) == Ok(st.doc)
    decreases |content| - st.cursor
  {
    var l := Next(content, st.cursor);
    if l.Ok? && l.value.token.Some? {
      var c := l.value.cursor;
      var s := Tokenize(content, st.cursor);
      var rest := Tokenize(content, c);
      assert TokensOf(s.lexemes) == [l.value.token.value] + TokensOf(rest.lexemes);
      assert TokensOf(s.lexemes)[0] == l.value.token.value;
      TriviaOnlyLeavesDocument(content, readFloat, st.(cursor := c));
    }
  }

  /** An input made only of spaces, newlines and comments parses to the empty document. */
  lemma BlankInputIsEmpty(content: string, readFloat: FloatReader)
    requires Tokenize(content, 0).failure.None?
    requires forall t | t in TokensOf(Tokenize(content, 0).lexemes) :: t.kind == Comment || t.kind == NewLine
    ensures Parse(content, readFloat) == Ok(map[])
  {
    TriviaOnlyLeavesDocument(content, readFloat, Initial);
  }

  // ---------------------------------------------------------------------------
  // Small complete inputs

  /** A header whose closing bracket is missing fails with WrongToken, whatever follows. */
  lemma MissingCloseBracketExample(rest: string, readFloat: FloatReader)
    ensures Parse("[server\n" + rest, readFloat) == Err(WrongToken(RightBracket, NewLine))
  {
    var content := "[server\n" + rest;
    assert content[..8] == "[server\n";
    PunctuationTokens(content, 0);
    assert content[1..7] == "server" && IsWord("server");
    WordIs(content, 1, "server");
    PunctuationTokens(content, 7);
    HeaderResetsSection(content, readFloat, Initial, 1, Token(Identifier, "server"), 7, Token(NewLine, "\n"), 8);
  }

  /** A single header line `[name]`, for any name that scans as one word, parses
      to one empty section of that name. */
  lemma LoneHeaderExample(name: string, readFloat: FloatReader)
    requires IsWord(name)
    ensures Parse("[" + name + "]\n", readFloat) == Ok(map[name := map[]])
  {
    var content := "[" + name + "]\n";
    var n := |name|;
    assert content[1..n + 1] == name;
    assert content[n + 1] == ']' && content[n + 2] == '\n';
    PunctuationTokens(content, 0);
    WordIs(content, 1, name);
    var t := Token(if IsDigit(name[0]) then Number else Identifier, name);
    PunctuationTokens(content, n + 1);
    PunctuationTokens(content, n + 2);
    HeaderResetsSection(content, readFloat, Initial, 1, t, n + 1, Token(RightBracket, "]"), n + 2);
    var st := ParserState(n + 2, Some(name), None, map[name := map[]]);
    assert Step(content, readFloat, Initial) == Continue(st);
    TriviaIsIgnored(content, readFloat, st, Token(NewLine, "\n"), n + 3);
    StopsWithDocument(content, readFloat, st.(cursor := n + 3));
    assert Run(content, readFloat, st) == Ok(st.doc);
  }

  // ---------------------------------------------------------------------------
  // Whole lines, and a section declared twice

  /** One header round, as an equation between states. */
  lemma StepHeader(content: string, readFloat: FloatReader, i: nat, c: nat, c': nat, c'': nat,
                   h: Option<string>, lv: Option<string>, d: Document, name: string)
    requires i <= |content| && (h.None? ==> lv.None?) && (h.Some? ==> h.value in d)
    requires Next(content, i) == Ok(Lexed(Some(Token(LeftBracket, "[")), c))
    requires Next(content, c) == Ok(Lexed(Some(Token(Identifier, name)), c'))
    requires Next(content, c') == Ok(Lexed(Some(Token(RightBracket, "]")), c''))
    ensures Step(content, readFloat, ParserState(i, h, lv, d))
            == Continue(ParserState(c'', Some(name), lv, d[name := map[]]))
  {
  }

  /** One comment or newline round, as an equation between states. */
  lemma StepTrivia(content: string, readFloat: FloatReader, i: nat, t: Token, c: nat,
                   h: Option<string>, lv: Option<string>, d: Document)
    requires i <= |content| && (h.None? ==> lv.None?) && (h.Some? ==> h.value in d)
    requires Next(content, i) == Ok(Lexed(Some(t), c))
    requires t.kind == NewLine || t.kind == Comment
    ensures Step(content, readFloat, ParserState(i, h, lv, d)) == Continue(ParserState(c, h, lv, d))
  {
  }

  /** One key-declaration round, as an equation between states. */
  lemma StepKey(content: string, readFloat: FloatReader, i: nat, c: nat,
                h: string, lv: Option<string>, d: Document, key: string)
    requires i <= |content| && h in d
    requires Next(content, i) == Ok(Lexed(Some(Token(Identifier, key)), c))
    ensures Step(content, readFloat, ParserState(i, Some(h), lv, d))
            == Continue(ParserState(c, Some(h), Some(key), d[h := d[h][key := None]]))
  {
  }

  /** One assignment round with a scalar value, as an equation between states. */
  lemma StepAssign(content: string, readFloat: FloatReader, i: nat, c: nat, c': nat,
                   h: string, k: string, d: Document, t: Token)
    requires i <= |content| && h in d
    requires Next(content, i) == Ok(Lexed(Some(Token(Equal, "=")), c))
    requires Next(content, c) == Ok(Lexed(Some(t), c'))
    requires t.kind != LeftBracket && ConvertIdent(t, readFloat).Ok?
    ensures Step(content, readFloat, ParserState(i, Some(h), Some(k), d))
            == Continue(ParserState(c', Some(h), Some(k), d[h := d[h][k := Some(Single(ConvertIdent(t, readFloat).value))]]))
  {
    ScalarValue(content, readFloat, c, t, c');
  }

  /** A round that continues hands the rest of the parse to the state it produced. */
  lemma RunSteps(content: string, readFloat: FloatReader, s: ParserState, s': ParserState)
    requires Valid(content, s)
    requires Step(content, readFloat, s) == Continue(s')
    ensures Run(content, readFloat, s) == Run(content, readFloat, s')
  {
  }

  /** A header line `[name]` followed by a newline. */
  lemma HeaderLine(content: string, readFloat: FloatReader, i: nat, c1: nat, c2: nat, c3: nat, c4: nat,
                   h: Option<string>, lv: Option<string>, d: Document, name: string)
    requires i <= |content| && (h.None? ==> lv.None?) && (h.Some? ==> h.value in d)
    requires Next(content, i) == Ok(Lexed(Some(Token(LeftBracket, "[")), c1))
    requires Next(content, c1) == Ok(Lexed(Some(Token(Identifier, name)), c2))
    requires Next(content, c2) == Ok(Lexed(Some(Token(RightBracket, "]")), c3))
    requires Next(content, c3) == Ok(Lexed(Some(Token(NewLine, "\n")), c4))
    ensures Run(content, readFloat, ParserState(i, h, lv, d))
            == Run(content, readFloat, ParserState(c4, Some(name), lv, d[name := map[]]))
  {
    StepHeader(content, readFloat, i, c1, c2, c3, h, lv, d, name);
    RunSteps(content, readFloat, ParserState(i, h, lv, d), ParserState(c3, Some(name), lv, d[name := map[]]));
    StepTrivia(content, readFloat, c3, Token(NewLine, "\n"), c4, Some(name), lv, d[name := map[]]);
    RunSteps(content, readFloat, ParserState(c3, Some(name), lv, d[name := map[]]), ParserState(c4, Some(name), lv, d[name := map[]]));
  }

  /** An assignment line `key=value` followed by a newline, inside section `h`. */
  lemma AssignLine(content: string, readFloat: FloatReader, i: nat, c1: nat, c2: nat, c3: nat, c4: nat,
                   h: string, lv: Option<string>, d: Document, key: string, t: Token)
    requires i <= |content| && h in d
    requires t.kind != LeftBracket && ConvertIdent(t, readFloat).Ok?
    requires Next(content, i) == Ok(Lexed(Some(Token(Identifier, key)), c1))
    requires Next(content, c1) == Ok(Lexed(Some(Token(Equal, "=")), c2))
    requires Next(content, c2) == Ok(Lexed(Some(t), c3))
    requires Next(content, c3) == Ok(Lexed(Some(Token(NewLine, "\n")), c4))
    ensures var d' := d[h := d[h][key := None]];
            Run(content, readFloat, ParserState(i, Some(h), lv, d))
            == Run(content, readFloat, ParserState(c4, Some(h), Some(key), d'[h := d'[h][key := Some(Single(ConvertIdent(t, readFloat).value))]]))
  {
    var d' := d[h := d[h][key := None]];
    var d'' := d'[h := d'[h][key := Some(Single(ConvertIdent(t, readFloat).value))]];
    StepKey(content, readFloat, i, c1, h, lv, d, key);
    RunSteps(content, readFloat, ParserState(i, Some(h), lv, d), ParserState(c1, Some(h), Some(key), d'));
    StepAssign(content, readFloat, c1, c2, c3, h, key, d', t);
    RunSteps(content, readFloat, ParserState(c1, Some(h), Some(key), d'), ParserState(c3, Some(h), Some(key), d''));
    StepTrivia(content, readFloat, c3, Token(NewLine, "\n"), c4, Some(h), Some(key), d'');
    RunSteps(content, readFloat, ParserState(c3, Some(h), Some(key), d''), ParserState(c4, Some(h), Some(key), d''));
  }

  /** One assignment round with a list value, as an equation between states. */
  lemma StepAssignList(content: string, readFloat: FloatReader, i: nat, c: nat, c': nat, e: nat,
                       h: string, k: string, d: Document, items: seq<Scalar>)
    requires i <= |content| && h in d
    requires Next(content, i) == Ok(Lexed(Some(Token(Equal, "=")), c))
    requires Next(content, c) == Ok(Lexed(Some(Token(LeftBracket, "[")), c'))
    requires ReadItems(content, readFloat, c') == Ok(Items(items, e))
    ensures Step(content, readFloat, ParserState(i, Some(h), Some(k), d))
            == Continue(ParserState(e, Some(h), Some(k), d[h := d[h][k := Some(List(items))]]))
  {
  }

  /** An assignment line `key = [ ... ]` followed by a newline, inside section `h`,
      given what the list reader returns for the list body. */
  lemma AssignListLine(content: string, readFloat: FloatReader, i: nat, c1: nat, c2: nat, c3: nat,
                       e: nat, c5: nat, h: string, lv: Option<string>, d: Document, key: string,
                       items: seq<Scalar>)
    requires i <= |content| && h in d
    requires Next(content, i) == Ok(Lexed(Some(Token(Identifier, key)), c1))
    requires Next(content, c1) == Ok(Lexed(Some(Token(Equal, "=")), c2))
    requires Next(content, c2) == Ok(Lexed(Some(Token(LeftBracket, "[")), c3))
    requires ReadItems(content, readFloat, c3) == Ok(Items(items, e))
    requires Next(content, e) == Ok(Lexed(Some(Token(NewLine, "\n")), c5))
    ensures var d' := d[h := d[h][key := None]];
            Run(content, readFloat, ParserState(i, Some(h), lv, d))
            == Run(content, readFloat, ParserState(c5, Some(h), Some(key), d'[h := d'[h][key := Some(List(items))]]))
  {
    var d' := d[h := d[h][key := None]];
    var d'' := d'[h := d'[h][key := Some(List(items))]];
    StepKey(content, readFloat, i, c1, h, lv, d, key);
    RunSteps(content, readFloat, ParserState(i, Some(h), lv, d), ParserState(c1, Some(h), Some(key), d'));
    StepAssignList(content, readFloat, c1, c2, c3, e, h, key, d', items);
    RunSteps(content, readFloat, ParserState(c1, Some(h), Some(key), d'), ParserState(e, Some(h), Some(key), d''));
    StepTrivia(content, readFloat, e, Token(NewLine, "\n"), c5, Some(h), Some(key), d'');
    RunSteps(content, readFloat, ParserState(e, Some(h), Some(key), d''), ParserState(c5, Some(h), Some(key), d''));
  }

  /** A comment line: the comment and its newline leave the state as it was. */
  lemma CommentLine(content: string, readFloat: FloatReader, i: nat, t: Token, c1: nat, c2: nat,
                    h: Option<string>, lv: Option<string>, d: Document)
    requires i <= |content| && (h.None? ==> lv.None?) && (h.Some? ==> h.value in d)
    requires Next(content, i) == Ok(Lexed(Some(t), c1)) && t.kind == Comment
    requires Next(content, c1) == Ok(Lexed(Some(Token(NewLine, "\n")), c2))
    ensures Run(content, readFloat, ParserState(i, h, lv, d)) == Run(content, readFloat, ParserState(c2, h, lv, d))
  {
    StepTrivia(content, readFloat, i, t, c1, h, lv, d);
    RunSteps(content, readFloat, ParserState(i, h, lv, d), ParserState(c1, h, lv, d));
    StepTrivia(content, readFloat, c1, Token(NewLine, "\n"), c2, h, lv, d);
    RunSteps(content, readFloat, ParserState(c1, h, lv, d), ParserState(c2, h, lv, d));
  }

  /** The list reader stops at `]` with no further items. */
  lemma ItemsClose(content: string, readFloat: FloatReader, c: nat, c': nat)
    requires c <= |content|
    requires Next(content, c) == Ok(Lexed(Some(Token(RightBracket, "]")), c'))
    ensures ReadItems(content, readFloat, c) == Ok(Items([], c'))
  {
  }

  /** The list reader passes over a comma. */
  lemma ItemsComma(content: string, readFloat: FloatReader, c: nat, c': nat)
    requires c <= |content|
    requires Next(content, c) == Ok(Lexed(Some(Token(Comma, ",")), c'))
    ensures c' <= |content|
    ensures ReadItems(content, readFloat, c) == ReadItems(content, readFloat, c')
  {
  }

  /** The list reader converts an item and puts it in front of the items after it. */
  lemma ItemsScalar(content: string, readFloat: FloatReader, c: nat, t: Token, c': nat, x: Scalar,
                    rest: seq<Scalar>, e: nat)
    requires c <= |content|
    requires Next(content, c) == Ok(Lexed(Some(t), c'))
    requires t.kind != RightBracket && t.kind != Comma && ConvertIdent(t, readFloat) == Ok(x)
    requires c' <= |content| && ReadItems(content, readFloat, c') == Ok(Items(rest, e))
    ensures ReadItems(content, readFloat, c) == Ok(Items([x] + rest, e))
  {
  }

  /** Re-opening section `a` throws away what the first opening collected. */
  lemma RedeclaredDocument(one: Option<Value>, two: Option<Value>)
    ensures var d1: Document := map[]["a" := map[]];
            var d2 := d1["a" := d1["a"]["x" := None]];
            var d3 := d2["a" := d2["a"]["x" := one]];
            var d4 := d3["a" := map[]];
            var d5 := d4["a" := d4["a"]["y" := None]];
            d5["a" := d5["a"]["y" := two]] == map["a" := map["y" := two]]
  {
    var d4: Document := map["a" := map[]];
    var d5 := d4["a" := d4["a"]["y" := None]];
    assert d5["a"]["y" := two] == map["y" := two];
  }

  /** The parse of any input the scanner splits like `[a]\nx=1\n[a]\ny=2\n`. */
  lemma RedeclaredRun(content: string, readFloat: FloatReader)
    requires readFloat("1").Some? && readFloat("2").Some?
    requires Next(content, 0) == Ok(Lexed(Some(Token(LeftBracket, "[")), 1))
    requires Next(content, 1) == Ok(Lexed(Some(Token(Identifier, "a")), 2))
    requires Next(content, 2) == Ok(Lexed(Some(Token(RightBracket, "]")), 3))
    requires Next(content, 3) == Ok(Lexed(Some(Token(NewLine, "\n")), 4))
    requires Next(content, 4) == Ok(Lexed(Some(Token(Identifier, "x")), 5))
    requires Next(content, 5) == Ok(Lexed(Some(Token(Equal, "=")), 6))
    requires Next(content, 6) == Ok(Lexed(Some(Token(Number, "1")), 7))
    requires Next(content, 7) == Ok(Lexed(Some(Token(NewLine, "\n")), 8))
    requires Next(content, 8) == Ok(Lexed(Some(Token(LeftBracket, "[")), 9))
    requires Next(content, 9) == Ok(Lexed(Some(Token(Identifier, "a")), 10))
    requires Next(content, 10) == Ok(Lexed(Some(Token(RightBracket, "]")), 11))
    requires Next(content, 11) == Ok(Lexed(Some(Token(NewLine, "\n")), 12))
    requires Next(content, 12) == Ok(Lexed(Some(Token(Identifier, "y")), 13))
    requires Next(content, 13) == Ok(Lexed(Some(Token(Equal, "=")), 14))
    requires Next(content, 14) == Ok(Lexed(Some(Token(Number, "2")), 15))
    requires Next(content, 15) == Ok(Lexed(Some(Token(NewLine, "\n")), 16))
    requires Next(content, 16) == Ok(Lexed(None, 16))
    ensures Parse(content, readFloat) == Ok(map["a" := map["y" := Some(Single(Num(readFloat("2").value)))]])
  {
    var one := Some(Single(Num(readFloat("1").value)));
    var two := Some(Single(Num(readFloat("2").value)));
    var d1: Document := map[]["a" := map[]];
    var d2 := d1["a" := d1["a"]["x" := None]];
    var d3 := d2["a" := d2["a"]["x" := one]];
    var d4 := d3["a" := map[]];
    var d5 := d4["a" := d4["a"]["y" := None]];
    var d6 := d5["a" := d5["a"]["y" := two]];
    HeaderLine(content, readFloat, 0, 1, 2, 3, 4, None, None, map[], "a");
    AssignLine(content, readFloat, 4, 5, 6, 7, 8, "a", None, d1, "x", Token(Number, "1"));
    HeaderLine(content, readFloat, 8, 9, 10, 11, 12, Some("a"), Some("x"), d3, "a");
    AssignLine(content, readFloat, 12, 13, 14, 15, 16, "a", Some("x"), d4, "y", Token(Number, "2"));
    StopsWithDocument(content, readFloat, ParserState(16, Some("a"), Some("y"), d6));
    RedeclaredDocument(one, two);
  }

  /** The four tokens of a header line `[c]` and its newline, for a one-letter name
      starting at `i`; `c1` to `c4` are the positions after each character. */
  lemma HeaderLineTokens(content: string, i: nat, c1: nat, c2: nat, c3: nat, c4: nat, c: char)
    requires c1 == i + 1 && c2 == i + 2 && c3 == i + 3 && c4 == i + 4 <= |content|
    requires content[i] == '[' && content[c1] == c && content[c2] == ']' && content[c3] == '\n'
    requires c !in Specials && !IsDigit(c)
    ensures Next(content, i) == Ok(Lexed(Some(Token(LeftBracket, "[")), c1))
    ensures Next(content, c1) == Ok(Lexed(Some(Token(Identifier, [c])), c2))
    ensures Next(content, c2) == Ok(Lexed(Some(Token(RightBracket, "]")), c3))
    ensures Next(content, c3) == Ok(Lexed(Some(Token(NewLine, "\n")), c4))
  {
    PunctuationTokens(content, i);
    assert content[c1..c2] == [c];
    WordIs(content, c1, [c]);
    PunctuationTokens(content, c2);
    PunctuationTokens(content, c3);
  }

  /** The four tokens of an assignment line `k=n` and its newline, for a one-letter
      key and a one-digit number starting at `i`. */
  lemma AssignLineTokens(content: string, i: nat, c1: nat, c2: nat, c3: nat, c4: nat, k: char, n: char)
    requires c1 == i + 1 && c2 == i + 2 && c3 == i + 3 && c4 == i + 4 <= |content|
    requires content[i] == k && content[c1] == '=' && content[c2] == n && content[c3] == '\n'
    requires k !in Specials && !IsDigit(k) && IsDigit(n)
    ensures Next(content, i) == Ok(Lexed(Some(Token(Identifier, [k])), c1))
    ensures Next(content, c1) == Ok(Lexed(Some(Token(Equal, "=")), c2))
    ensures Next(content, c2) == Ok(Lexed(Some(Token(Number, [n])), c3))
    ensures Next(content, c3) == Ok(Lexed(Some(Token(NewLine, "\n")), c4))
  {
    assert content[i..c1] == [k];
    WordIs(content, i, [k]);
    PunctuationTokens(content, c1);
    assert content[c2..c3] == [n];
    WordIs(content, c2, [n]);
    PunctuationTokens(content, c3);
  }

  /** The redeclaration input, described character by character. */
  lemma RedeclaredRunText(content: string, readFloat: FloatReader)
    requires readFloat("1").Some? && readFloat("2").Some?
    requires |content| == 16
    requires content[0] == '[' && content[1] == 'a' && content[2] == ']' && content[3] == '\n'
    requires content[4] == 'x' && content[5] == '=' && content[6] == '1' && content[7] == '\n'
    requires content[8] == '[' && content[9] == 'a' && content[10] == ']' && content[11] == '\n'
    requires content[12] == 'y' && content[13] == '=' && content[14] == '2' && content[15] == '\n'
    ensures Parse(content, readFloat) == Ok(map["a" := map["y" := Some(Single(Num(readFloat("2").value)))]])
  {
    HeaderLineTokens(content, 0, 1, 2, 3, 4, 'a');
    AssignLineTokens(content, 4, 5, 6, 7, 8, 'x', '1');
    HeaderLineTokens(content, 8, 9, 10, 11, 12, 'a');
    AssignLineTokens(content, 12, 13, 14, 15, 16, 'y', '2');
    RedeclaredRun(content, readFloat);
  }

  /** Declaring section `a` a second time empties it: only the key assigned after the
      second header survives. */
  lemma RedeclaredSectionExample(readFloat: FloatReader)
    requires readFloat("1").Some? && readFloat("2").Some?
    ensures Parse("[a]\nx=1\n[a]\ny=2\n", readFloat) == Ok(map["a" := map["y" := Some(Single(Num(readFloat("2").value)))]])
  {
    RedeclaredRunText("[a]\nx=1\n[a]\ny=2\n", readFloat);
  }
}
