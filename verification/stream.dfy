/** The whole token sequence the scanner produces from a position, materialised so
    that properties of the pull-based scanner can be stated over all of its output. */
module TokenStream {
  import opened Results
  import opened Tokens
  import opened Lexer

  /** A token together with the number of spaces the scanner skipped before it. */
  datatype Lexeme = Lexeme(gap: nat, token: Token)

  /** The lexemes read from a position until end of input or a scanning failure;
      `trailing` counts the spaces after the last lexeme (before the failing quote
      when there is a failure). */
  datatype Stream = Stream(lexemes: seq<Lexeme>, trailing: nat, failure: Option<LexError>)

  function Spaces(n: nat): (s: string)
    ensures |s| == n
    ensures forall i | 0 <= i < n :: s[i] == ' '
  {
    seq(n, _ => ' ')
  }

  /** Calls the scanner repeatedly from `cursor` and collects what it yields. */
  function Tokenize(content: string, cursor: nat): (s: Stream)
    decreases |content| - cursor
  {
    match Next(content, cursor)
    case Err(e) => Stream([], SkipSpaces(content, cursor) - cursor, Some(e))
    case Ok(Lexed(None, _)) => Stream([], if cursor < |content| then |content| - cursor else 0, None)
    case Ok(Lexed(Some(t), c)) =>
      var rest := Tokenize(content, c);
      Stream([Lexeme(SkipSpaces(content, cursor) - cursor, t)] + rest.lexemes, rest.trailing, rest.failure)
  }

  /** A token-yielding scanner step puts its token in front of the stream that follows it. */
  lemma TokenizeCons(content: string, cursor: nat, t: Token, c: nat)
    requires Next(content, cursor) == Ok(Lexed(Some(t), c))
    ensures var rest := Tokenize(content, c);
            Tokenize(content, cursor)
              == Stream([Lexeme(SkipSpaces(content, cursor) - cursor, t)] + rest.lexemes, rest.trailing, rest.failure)
  {
  }

  /** The tokens of a sequence of lexemes, in scanning order. */
  function TokensOf(ls: seq<Lexeme>): (ts: seq<Token>)
    ensures |ts| == |ls|
    ensures forall i | 0 <= i < |ts| :: ts[i] == ls[i].token
  {
    if ls == [] then [] else [ls[0].token] + TokensOf(ls[1..])
  }

  /** Writes lexemes back out: each token's text preceded by its skipped spaces. */
  function Render(ls: seq<Lexeme>): string {
    if ls == [] then [] else Spaces(ls[0].gap) + ls[0].token.text + Render(ls[1..])
  }

  /** Where scanning from `cursor` stops: the end of input, or the opening quote of
      an unterminated string. */
  function StreamEnd(content: string, s: Stream): nat {
    if s.failure.Some? then s.failure.value.start else |content|
  }

  lemma SpacesSlice(content: string, lo: nat, hi: nat)
    requires lo <= hi <= |content|
    requires AllSpaces(content, lo, hi)
    ensures content[lo..hi] == Spaces(hi - lo)
  {
  }

  /** Writing the stream scanned from `cursor` back out reproduces the input from
      `cursor` up to where scanning stopped. */
  ghost predicate RendersBack(content: string, cursor: nat) {
    var s := Tokenize(content, cursor);
    && cursor <= StreamEnd(content, s) <= |content|
    && Render(s.lexemes) + Spaces(s.trailing) == content[cursor..StreamEnd(content, s)]
  }

  /** Scanning from `cursor` stops early only at a `"` that no later `"` closes. */
  ghost predicate FailsOnlyAtOpenQuote(content: string, cursor: nat) {
    var s := Tokenize(content, cursor);
    s.failure.Some? ==>
      && s.failure.value.start < |content|
      && content[s.failure.value.start] == '"'
      && forall i | s.failure.value.start < i < |content| :: content[i] != '"'
  }

  /** Scanning loses nothing but the spaces between tokens, and records how many:
      writing the lexemes back out reproduces the input from `cursor` up to where
      scanning stopped, which is the end of input unless a string is left open. */
  lemma {:induction false} Lossless(content: string, cursor: nat)
    requires cursor <= |content|
    ensures RendersBack(content, cursor)
    ensures FailsOnlyAtOpenQuote(content, cursor)
    decreases |content| - cursor
  {
    match Next(content, cursor)
    case Err(e) =>
      LosslessAtFailure(content, cursor, e);
    case Ok(Lexed(None, c)) =>
      LosslessAtEnd(content, cursor, c);
    case Ok(Lexed(Some(t), c)) =>
      Lossless(content, c);
      LosslessCons(content, cursor, t, c);
  }

  lemma LosslessAtFailure(content: string, cursor: nat, e: LexError)
    requires cursor <= |content|
    requires Next(content, cursor) == Err(e)
    ensures RendersBack(content, cursor)
    ensures FailsOnlyAtOpenQuote(content, cursor)
  {
    SpacesSlice(content, cursor, e.start);
    SpacesAreSkipped(content, cursor);
    StringToken(content, e.start);
  }

  lemma LosslessAtEnd(content: string, cursor: nat, c: nat)
    requires cursor <= |content|
    requires Next(content, cursor) == Ok(Lexed(None, c))
    ensures RendersBack(content, cursor)
    ensures FailsOnlyAtOpenQuote(content, cursor)
  {
    SpacesSlice(content, cursor, |content|);
  }

  lemma LosslessCons(content: string, cursor: nat, t: Token, c: nat)
    requires cursor <= |content|
    requires Next(content, cursor) == Ok(Lexed(Some(t), c))
    requires RendersBack(content, c)
    requires FailsOnlyAtOpenQuote(content, c)
    ensures RendersBack(content, cursor)
    ensures FailsOnlyAtOpenQuote(content, cursor)
  {
    TokenizeCons(content, cursor, t, c);
    LosslessStep(content, cursor, SkipSpaces(content, cursor), c, t, Tokenize(content, c));
  }

  /** The inductive step of `Lossless`, free of the scanner: a lexeme whose gap is
      spaces and whose text is the source slice after them, in front of a stream
      that renders the rest, renders the whole. */
  lemma LosslessStep(content: string, cursor: nat, sp: nat, c: nat, t: Token, rest: Stream)
    requires cursor <= sp < c <= StreamEnd(content, rest) <= |content|
    requires AllSpaces(content, cursor, sp)
    requires t.text == content[sp..c]
    requires Render(rest.lexemes) + Spaces(rest.trailing) == content[c..StreamEnd(content, rest)]
    ensures var s := Stream([Lexeme(sp - cursor, t)] + rest.lexemes, rest.trailing, rest.failure);
            Render(s.lexemes) + Spaces(s.trailing) == content[cursor..StreamEnd(content, s)]
  {
    var end := StreamEnd(content, rest);
    RenderCons(Lexeme(sp - cursor, t), rest.lexemes);
    SpacesSlice(content, cursor, sp);
    SliceSplit(content, cursor, sp, c, end);
    AppendAssoc(Spaces(sp - cursor), t.text, Render(rest.lexemes), Spaces(rest.trailing));
  }

  lemma SliceSplit(s: string, a: nat, b: nat, c: nat, d: nat)
    requires a <= b <= c <= d <= |s|
    ensures s[a..d] == s[a..b] + s[b..c] + s[c..d]
  {
  }

  lemma AppendAssoc(a: string, b: string, c: string, d: string)
    ensures (a + b + c) + d == a + b + (c + d)
  {
  }

  lemma RenderCons(l: Lexeme, ls: seq<Lexeme>)
    ensures Render([l] + ls) == Spaces(l.gap) + l.token.text + Render(ls)
  {
    assert ([l] + ls)[1..] == ls;
  }
}
