/** The scanner: a cursor over the text that yields one token per call. */
module Lexer {
  import opened Results
  import opened Tokens

  /** Characters that end an identifier or number. */
  const WordStops: set<char> := {',', '\n', '#', '"', '=', ' ', ']'}

  /** Characters that the scanner classifies on their own before falling back to
      identifiers and numbers. */
  const Specials: set<char> := {'[', ']', '{', '}', '\n', ' ', '=', ',', '"', '#'}

  /** The scanner's digit test, restricted to ASCII. */
  predicate IsDigit(c: char) {
    '0' <= c <= '9'
  }

  /** One scanner step: the token found (None at end of input) and the new cursor. */
  datatype Lexed = Lexed(token: Option<Token>, cursor: nat)

  /** A string literal that is still open at end of input; `start` is its opening quote. */
  datatype LexError = UnterminatedString(start: nat)

  /** Every character of `content[lo..hi]` is a space. */
  ghost predicate AllSpaces(content: string, lo: nat, hi: nat)
    requires lo <= hi <= |content|
  {
    forall i | lo <= i < hi :: content[i] == ' '
  }

  /** Advances from `cursor` over characters outside `stops`; the result is the
      position of the first stop character, or the end of input. */
  function ChopTo(content: string, cursor: nat, stops: set<char>): (end: nat)
    requires cursor <= |content|
    ensures cursor <= end <= |content|
    ensures forall i | cursor <= i < end :: content[i] !in stops
    ensures end == |content| || content[end] in stops
    decreases |content| - cursor
  {
    if cursor == |content| || content[cursor] in stops then cursor
    else ChopTo(content, cursor + 1, stops)
  }

  /** The characterisation in the contract of `ChopTo` determines its result. */
  lemma ChopToUnique(content: string, cursor: nat, stops: set<char>, end: nat)
    requires cursor <= end <= |content|
    requires forall i | cursor <= i < end :: content[i] !in stops
    requires end == |content| || content[end] in stops
    ensures ChopTo(content, cursor, stops) == end
  {
  }

  /** The first position at or after `cursor` that does not hold a space. */
  function SkipSpaces(content: string, cursor: nat): (s: nat)
    ensures cursor <= s
    ensures cursor >= |content| ==> s == cursor
    ensures cursor <= |content| ==> s <= |content| && AllSpaces(content, cursor, s)
    ensures s < |content| ==> content[s] != ' '
    decreases |content| - cursor
  {
    if cursor >= |content| || content[cursor] != ' ' then cursor
    else SkipSpaces(content, cursor + 1)
  }

  /** A one-character token of the given kind, ending just before `cursor`. */
  function OneChar(kind: TokenKind, x: char, cursor: nat): Result<Lexed, LexError> {
    Ok(Lexed(Some(Token(kind, [x])), cursor))
  }

  /** The scanner's `next`: skips spaces, then reads one token starting at the first
      non-space character. At or past the end of input it yields no token and
      leaves the cursor where it is. A token's text is exactly the source text it
      was read from, and a token-yielding step always moves the cursor forward. */
  function Next(content: string, cursor: nat): (r: Result<Lexed, LexError>)
    ensures cursor >= |content| ==> r == Ok(Lexed(None, cursor))
    ensures r.Ok? && r.value.token.None? ==>
              cursor >= |content| || (r.value.cursor == |content| && AllSpaces(content, cursor, |content|))
    ensures r.Ok? && r.value.token.Some? ==>
              && cursor <= SkipSpaces(content, cursor) < r.value.cursor <= |content|
              && r.value.token.value.text == content[SkipSpaces(content, cursor)..r.value.cursor]
    ensures r.Err? ==>
              && r.error.start == SkipSpaces(content, cursor) < |content|
              && content[r.error.start] == '"'
    decreases |content| - cursor
  {
    if cursor >= |content| then Ok(Lexed(None, cursor))
    else if content[cursor] == ' ' then Next(content, cursor + 1)
    else ReadToken(content, cursor)
  }

  /** Reads the token that starts with the non-space character at `cursor`. */
  function ReadToken(content: string, cursor: nat): (r: Result<Lexed, LexError>)
    requires cursor < |content| && content[cursor] != ' '
    ensures r.Ok? ==>
              && r.value.token.Some?
              && cursor < r.value.cursor <= |content|
              && r.value.token.value.text == content[cursor..r.value.cursor]
    ensures r.Err? ==> r.error.start == cursor && content[cursor] == '"'
  {
    var x := content[cursor];
    var c := cursor + 1;
    match x
    case '[' => OneChar(LeftBracket, x, c)
    case ']' => OneChar(RightBracket, x, c)
    case '{' => OneChar(LeftBrace, x, c)
    case '}' => OneChar(RightBrace, x, c)
    case '\n' => OneChar(NewLine, x, c)
    case '=' => OneChar(Equal, x, c)
    case ',' => OneChar(Comma, x, c)
    case '"' =>
      var e := ChopTo(content, c, {'"'});
      if e == |content| then Err(UnterminatedString(cursor))
      else Ok(Lexed(Some(Token(String, [x] + content[c..e] + [content[e]])), e + 1))
    case '#' =>
      var e := ChopTo(content, c, {'\n'});
      Ok(Lexed(Some(Token(Comment, [x] + content[c..e])), e))
    case _ =>
      var kind := if IsDigit(x) then Number else Identifier;
      var e := ChopTo(content, c, WordStops);
      Ok(Lexed(Some(Token(kind, [x] + content[c..e])), e))
  }

  /** Once a step reports end of input, every later step reports it again from the
      same cursor. */
  lemma EndOfInputIsSticky(content: string, cursor: nat)
    requires Next(content, cursor).Ok? && Next(content, cursor).value.token.None?
    ensures Next(content, Next(content, cursor).value.cursor) == Next(content, cursor)
  {
  }

  /** Spaces before a token are never emitted: scanning from `cursor` is the same as
      scanning from the first non-space character, and no token text starts with a space. */
  lemma {:induction false} SpacesAreSkipped(content: string, cursor: nat)
    ensures Next(content, cursor) == Next(content, SkipSpaces(content, cursor))
    ensures Next(content, cursor).Ok? && Next(content, cursor).value.token.Some? ==>
              Next(content, cursor).value.token.value.text[0] != ' '
    decreases |content| - cursor
  {
    if cursor < |content| && content[cursor] == ' ' {
      SpacesAreSkipped(content, cursor + 1);
    }
  }

  /** Each of `[ ] { } \n = ,` becomes a one-character token of its own kind, and the
      cursor moves just past it. */
  lemma PunctuationTokens(content: string, cursor: nat)
    requires cursor < |content|
    ensures content[cursor] == '[' ==> Next(content, cursor) == Ok(Lexed(Some(Token(LeftBracket, "[")), cursor + 1))
    ensures content[cursor] == ']' ==> Next(content, cursor) == Ok(Lexed(Some(Token(RightBracket, "]")), cursor + 1))
    ensures content[cursor] == '{' ==> Next(content, cursor) == Ok(Lexed(Some(Token(LeftBrace, "{")), cursor + 1))
    ensures content[cursor] == '}' ==> Next(content, cursor) == Ok(Lexed(Some(Token(RightBrace, "}")), cursor + 1))
    ensures content[cursor] == '\n' ==> Next(content, cursor) == Ok(Lexed(Some(Token(NewLine, "\n")), cursor + 1))
    ensures content[cursor] == '=' ==> Next(content, cursor) == Ok(Lexed(Some(Token(Equal, "=")), cursor + 1))
    ensures content[cursor] == ',' ==> Next(content, cursor) == Ok(Lexed(Some(Token(Comma, ",")), cursor + 1))
  {
  }

  /** A `"` starts a String token running to the next `"` inclusive: its text starts
      and ends with a quote and has none in between. Scanning fails exactly when no
      closing quote follows. */
  lemma StringToken(content: string, cursor: nat)
    requires cursor < |content| && content[cursor] == '"'
    ensures Next(content, cursor).Err? <==> forall i | cursor < i < |content| :: content[i] != '"'
    ensures Next(content, cursor).Ok? ==>
              var Lexed(t, c) := Next(content, cursor).value;
              && t.Some? && t.value.kind == String
              && t.value.text == content[cursor..c]
              && |t.value.text| >= 2
              && t.value.text[0] == '"' && t.value.text[|t.value.text| - 1] == '"'
              && forall i | 0 < i < |t.value.text| - 1 :: t.value.text[i] != '"'
  {
    var e := ChopTo(content, cursor + 1, {'"'});
    if e < |content| {
      var text := content[cursor..e + 1];
      assert forall i | 0 < i < |text| - 1 :: text[i] == content[cursor + i];
    }
  }

  /** A `#` starts a Comment token: the `#` and everything up to, but not including,
      the next newline, which is left for the following step. */
  lemma CommentToken(content: string, cursor: nat)
    requires cursor < |content| && content[cursor] == '#'
    ensures Next(content, cursor).Ok?
    ensures var Lexed(t, c) := Next(content, cursor).value;
            && t.Some? && t.value.kind == Comment
            && t.value.text == content[cursor..c]
            && t.value.text[0] == '#'
            && (forall i | 0 <= i < |t.value.text| :: t.value.text[i] != '\n')
            && (c == |content| || content[c] == '\n')
  {
    var e := ChopTo(content, cursor + 1, {'\n'});
    var text := content[cursor..e];
    assert forall i | 0 < i < |text| :: text[i] == content[cursor + i];
  }

  /** Any other first character starts a Number (if it is a digit) or an Identifier
      made of that character and the longest following run of characters outside
      the stop set; the stop character itself is not consumed. */
  lemma WordToken(content: string, cursor: nat)
    requires cursor < |content| && content[cursor] !in Specials
    ensures Next(content, cursor).Ok?
    ensures var Lexed(t, c) := Next(content, cursor).value;
            && t.Some?
            && (t.value.kind == Number <==> IsDigit(content[cursor]))
            && (t.value.kind == Identifier <==> !IsDigit(content[cursor]))
            && t.value.text == content[cursor..c]
            && (forall i | 0 <= i < |t.value.text| :: t.value.text[i] !in WordStops)
            && (c == |content| || content[c] in WordStops)
  {
    var e := ChopTo(content, cursor + 1, WordStops);
    var text := content[cursor..e];
    assert forall i | 0 < i < |text| :: text[i] == content[cursor + i];
  }

  /** The one-character kinds carry exactly their character as text, wherever the
      token was read. */
  lemma PunctuationText(content: string, cursor: nat)
    requires Next(content, cursor).Ok? && Next(content, cursor).value.token.Some?
    ensures var t := Next(content, cursor).value.token.value;
            && (t.kind == LeftBracket ==> t.text == "[")
            && (t.kind == RightBracket ==> t.text == "]")
            && (t.kind == LeftBrace ==> t.text == "{")
            && (t.kind == RightBrace ==> t.text == "}")
            && (t.kind == NewLine ==> t.text == "\n")
            && (t.kind == Equal ==> t.text == "=")
            && (t.kind == Comma ==> t.text == ",")
  {
    SpacesAreSkipped(content, cursor);
  }

  /** A space in front of a token changes nothing: scanning resumes after it. */
  lemma SpaceSkipped(content: string, i: nat)
    requires i < |content| && content[i] == ' '
    ensures Next(content, i) == Next(content, i + 1)
  {
  }

  /** `w` reads as one Identifier or Number token. */
  predicate IsWord(w: string)
  {
    0 < |w| && w[0] !in Specials && forall m | 0 < m < |w| :: w[m] !in WordStops
  }

  /** `t` reads as one String token: quotes at both ends and none in between. */
  predicate IsStringLiteral(t: string)
  {
    2 <= |t| && t[0] == '"' && t[|t| - 1] == '"' && forall m | 0 < m < |t| - 1 :: t[m] != '"'
  }

  /** `t` reads as one Comment token. */
  predicate IsComment(t: string)
  {
    0 < |t| && t[0] == '#' && forall m | 0 < m < |t| :: t[m] != '\n'
  }

  /** Round trip for words: a word found in the input, followed by a stop character
      or the end, scans back as one token of exactly that text. */
  lemma WordIs(content: string, i: nat, w: string)
    requires IsWord(w) && i + |w| <= |content| && content[i..i + |w|] == w
    requires i + |w| == |content| || content[i + |w|] in WordStops
    ensures Next(content, i) == Ok(Lexed(Some(Token(if IsDigit(w[0]) then Number else Identifier, w)), i + |w|))
  {
    var j := i + |w|;
    assert forall k | i <= k < j :: content[k] == w[k - i];
    ChopToUnique(content, i + 1, WordStops, j);
    assert [content[i]] + content[i + 1..j] == content[i..j];
  }

  /** Round trip for strings: a string literal found in the input scans back as one
      String token of exactly that text, whatever follows it. */
  lemma StringIs(content: string, i: nat, t: string)
    requires IsStringLiteral(t) && i + |t| <= |content| && content[i..i + |t|] == t
    ensures Next(content, i) == Ok(Lexed(Some(Token(String, t)), i + |t|))
  {
    StringRead(content, i, t);
  }

  /** The string branch of the token reader, on a string literal found in the input. */
  lemma StringRead(content: string, i: nat, t: string)
    requires IsStringLiteral(t) && i + |t| <= |content| && content[i..i + |t|] == t
    ensures ReadToken(content, i) == Ok(Lexed(Some(Token(String, t)), i + |t|))
  {
    var j := i + |t| - 1;
    assert forall k | i <= k <= j :: content[k] == t[k - i];
    ChopToUnique(content, i + 1, {'"'}, j);
    assert [content[i]] + content[i + 1..j] + [content[j]] == content[i..j + 1];
  }

  /** Round trip for comments: a comment found in the input, running to a newline or
      the end, scans back as one Comment token of exactly that text. */
  lemma CommentIs(content: string, i: nat, t: string)
    requires IsComment(t) && i + |t| <= |content| && content[i..i + |t|] == t
    requires i + |t| == |content| || content[i + |t|] == '\n'
    ensures Next(content, i) == Ok(Lexed(Some(Token(Comment, t)), i + |t|))
  {
    var j := i + |t|;
    assert forall k | i <= k < j :: content[k] == t[k - i];
    ChopToUnique(content, i + 1, {'\n'}, j);
    assert [content[i]] + content[i + 1..j] == content[i..j];
  }
}
