/** The token vocabulary of the configuration format. */
module Tokens {
  import opened Results

  /** The eleven lexical categories, declared in the order of the source's kind table,
      so that a kind's position in that table is its numeric code. */
  datatype TokenKind =
    | LeftBracket
    | RightBracket
    | LeftBrace
    | RightBrace
    | Identifier
    | NewLine
    | Equal
    | String
    | Comment
    | Comma
    | Number

  /** A token: its kind and the exact source text that produced it. */
  datatype Token = Token(kind: TokenKind, text: string)

  /** The kind names, indexed by numeric code; the diagnostics print these names. */
  const KindNames: seq<string> := [
    "TOKEN_LEFT_BRACKET",
    "TOKEN_RIGHT_BRACKET",
    "TOKEN_LEFT_BRACE",
    "TOKEN_RIGHT_BRACE",
    "TOKEN_IDENTIFIER",
    "TOKEN_NEW_LINE",
    "TOKEN_EQUAL",
    "TOKEN_STRING",
    "TOKEN_COMMENT",
    "TOKEN_COMMA",
    "TOKEN_NUMBER"
  ]

  /** The numeric code of a kind: its position in the kind table. */
  function KindCode(k: TokenKind): (i: nat)
    ensures i < |KindNames|
  {
    match k
    case LeftBracket => 0
    case RightBracket => 1
    case LeftBrace => 2
    case RightBrace => 3
    case Identifier => 4
    case NewLine => 5
    case Equal => 6
    case String => 7
    case Comment => 8
    case Comma => 9
    case Number => 10
  }

  /** The name a kind is printed under. */
  function KindName(k: TokenKind): string {
    KindNames[KindCode(k)]
  }

  /** The name-to-code table: the code of the first kind whose name is `name`, if any. */
  function CodeOfName(name: string): (r: Option<nat>)
    ensures r.Some? ==> r.value < |KindNames| && KindNames[r.value] == name
    ensures r.None? ==> name !in KindNames
  {
    CodeOfNameFrom(name, 0)
  }

  function CodeOfNameFrom(name: string, i: nat): (r: Option<nat>)
    requires i <= |KindNames|
    ensures r.Some? ==> i <= r.value < |KindNames| && KindNames[r.value] == name
    ensures r.None? ==> forall j | i <= j < |KindNames| :: KindNames[j] != name
    decreases |KindNames| - i
  {
    if i == |KindNames| then None
    else if KindNames[i] == name then Some(i)
    else CodeOfNameFrom(name, i + 1)
  }

  /** The kind table is a bijection between kinds and codes 0..10: looking a kind's
      name up in the name-to-code table gives back that kind's code, and distinct
      kinds have distinct codes. */
  lemma KindTableRoundTrip(k: TokenKind, k': TokenKind)
    ensures CodeOfName(KindName(k)) == Some(KindCode(k))
    ensures KindCode(k) == KindCode(k') ==> k == k'
  {
    assert forall i, j | 0 <= i < j < |KindNames| :: KindNames[i] != KindNames[j];
  }
}
