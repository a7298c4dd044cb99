/** Whole documents followed line by line, from the characters of the input to the
    dictionary the parser returns. */
module Walkthrough {
  import opened Results
  import opened Tokens
  import opened Lexer
  import opened Parser
  import opened ParserFacts

  const HeaderSource := "[server]\n"
  const HostSource := "host = \"localhost\"\n"
  const PortsSource := "ports = [80, 443]\n"
  const CommentSource := "# comment line\n"
  const NameSource := "name=42\n"

  /** A character of a line found at position `i` of the input. */
  lemma CharOf(content: string, i: nat, line: string, k: nat)
    requires i + |line| <= |content| && content[i..i + |line|] == line && k < |line|
    ensures content[i + k] == line[k]
  {
    assert content[i..i + |line|][k] == line[k];
  }

  /** A piece of a line found at position `i` of the input. */
  lemma PieceOf(content: string, i: nat, line: string, a: nat, b: nat)
    requires i + |line| <= |content| && content[i..i + |line|] == line
    requires a <= b <= |line|
    ensures content[i + a..i + b] == line[a..b]
  {
    assert forall k | a <= k < b :: content[i + k] == line[k];
  }

  // What each line is made of.

  lemma HeaderText()
    ensures |HeaderSource| == 9 && IsWord("server") && HeaderSource[1..7] == "server"
    ensures HeaderSource[0] == '[' && HeaderSource[7] == ']' && HeaderSource[8] == '\n'
  {
  }

  lemma HostText()
    ensures |HostSource| == 19 && IsWord("host") && HostSource[0..4] == "host"
    ensures IsStringLiteral("\"localhost\"") && HostSource[7..18] == "\"localhost\""
    ensures HostSource[4] == ' ' && HostSource[5] == '=' && HostSource[6] == ' ' && HostSource[18] == '\n'
  {
  }

  lemma PortsText()
    ensures |PortsSource| == 18 && IsWord("ports") && PortsSource[0..5] == "ports"
    ensures IsWord("80") && PortsSource[9..11] == "80" && IsWord("443") && PortsSource[13..16] == "443"
    ensures PortsSource[5] == ' ' && PortsSource[6] == '=' && PortsSource[7] == ' ' && PortsSource[8] == '['
    ensures PortsSource[11] == ',' && PortsSource[12] == ' ' && PortsSource[16] == ']' && PortsSource[17] == '\n'
  {
  }

  lemma CommentText()
    ensures |CommentSource| == 15 && IsComment("# comment line") && CommentSource[0..14] == "# comment line"
    ensures CommentSource[14] == '\n'
  {
  }

  lemma NameText()
    ensures |NameSource| == 8 && IsWord("name") && NameSource[0..4] == "name"
    ensures IsWord("42") && NameSource[5..7] == "42"
    ensures NameSource[4] == '=' && NameSource[7] == '\n'
  {
  }

  // The tokens of each line, wherever the line starts.

  lemma HeaderTokens(content: string, i: nat)
    requires i + |HeaderSource| <= |content| && content[i..i + |HeaderSource|] == HeaderSource
    ensures Next(content, i) == Ok(Lexed(Some(Token(LeftBracket, "[")), i + 1))
    ensures Next(content, i + 1) == Ok(Lexed(Some(Token(Identifier, "server")), i + 7))
    ensures Next(content, i + 7) == Ok(Lexed(Some(Token(RightBracket, "]")), i + 8))
    ensures Next(content, i + 8) == Ok(Lexed(Some(Token(NewLine, "\n")), i + 9))
  {
    HeaderText();
    CharOf(content, i, HeaderSource, 0);
    CharOf(content, i, HeaderSource, 7);
    CharOf(content, i, HeaderSource, 8);
    PieceOf(content, i, HeaderSource, 1, 7);
    PunctuationTokens(content, i);
    WordIs(content, i + 1, "server");
    PunctuationTokens(content, i + 7);
    PunctuationTokens(content, i + 8);
  }

  lemma HostTokens(content: string, i: nat)
    requires i + |HostSource| <= |content| && content[i..i + |HostSource|] == HostSource
    ensures Next(content, i) == Ok(Lexed(Some(Token(Identifier, "host")), i + 4))
    ensures Next(content, i + 4) == Ok(Lexed(Some(Token(Equal, "=")), i + 6))
    ensures Next(content, i + 6) == Ok(Lexed(Some(Token(String, "\"localhost\"")), i + 18))
    ensures Next(content, i + 18) == Ok(Lexed(Some(Token(NewLine, "\n")), i + 19))
  {
    HostText();
    CharOf(content, i, HostSource, 4);
    CharOf(content, i, HostSource, 5);
    CharOf(content, i, HostSource, 6);
    CharOf(content, i, HostSource, 18);
    PieceOf(content, i, HostSource, 0, 4);
    PieceOf(content, i, HostSource, 7, 18);
    WordIs(content, i, "host");
    SpaceSkipped(content, i + 4);
    PunctuationTokens(content, i + 5);
    SpaceSkipped(content, i + 6);
    StringIs(content, i + 7, "\"localhost\"");
    PunctuationTokens(content, i + 18);
  }

  lemma PortsTokens(content: string, i: nat)
    requires i + |PortsSource| <= |content| && content[i..i + |PortsSource|] == PortsSource
    ensures Next(content, i) == Ok(Lexed(Some(Token(Identifier, "ports")), i + 5))
    ensures Next(content, i + 5) == Ok(Lexed(Some(Token(Equal, "=")), i + 7))
    ensures Next(content, i + 7) == Ok(Lexed(Some(Token(LeftBracket, "[")), i + 9))
    ensures Next(content, i + 9) == Ok(Lexed(Some(Token(Number, "80")), i + 11))
    ensures Next(content, i + 11) == Ok(Lexed(Some(Token(Comma, ",")), i + 12))
    ensures Next(content, i + 12) == Ok(Lexed(Some(Token(Number, "443")), i + 16))
    ensures Next(content, i + 16) == Ok(Lexed(Some(Token(RightBracket, "]")), i + 17))
    ensures Next(content, i + 17) == Ok(Lexed(Some(Token(NewLine, "\n")), i + 18))
  {
    PortsText();
    PortsWords(content, i);
    PortsPunctuation(content, i);
  }

  lemma PortsWords(content: string, i: nat)
    requires i + |PortsSource| <= |content| && content[i..i + |PortsSource|] == PortsSource
    ensures Next(content, i) == Ok(Lexed(Some(Token(Identifier, "ports")), i + 5))
    ensures Next(content, i + 9) == Ok(Lexed(Some(Token(Number, "80")), i + 11))
    ensures Next(content, i + 12) == Ok(Lexed(Some(Token(Number, "443")), i + 16))
  {
    PortsText();
    CharOf(content, i, PortsSource, 5);
    CharOf(content, i, PortsSource, 11);
    CharOf(content, i, PortsSource, 12);
    CharOf(content, i, PortsSource, 16);
    PieceOf(content, i, PortsSource, 0, 5);
    PieceOf(content, i, PortsSource, 9, 11);
    PieceOf(content, i, PortsSource, 13, 16);
    WordIs(content, i, "ports");
    WordIs(content, i + 9, "80");
    SpaceSkipped(content, i + 12);
    WordIs(content, i + 13, "443");
  }

  lemma PortsPunctuation(content: string, i: nat)
    requires i + |PortsSource| <= |content| && content[i..i + |PortsSource|] == PortsSource
    ensures Next(content, i + 5) == Ok(Lexed(Some(Token(Equal, "=")), i + 7))
    ensures Next(content, i + 7) == Ok(Lexed(Some(Token(LeftBracket, "[")), i + 9))
    ensures Next(content, i + 11) == Ok(Lexed(Some(Token(Comma, ",")), i + 12))
    ensures Next(content, i + 16) == Ok(Lexed(Some(Token(RightBracket, "]")), i + 17))
    ensures Next(content, i + 17) == Ok(Lexed(Some(Token(NewLine, "\n")), i + 18))
  {
    PortsText();
    CharOf(content, i, PortsSource, 5);
    CharOf(content, i, PortsSource, 6);
    CharOf(content, i, PortsSource, 7);
    CharOf(content, i, PortsSource, 8);
    CharOf(content, i, PortsSource, 11);
    CharOf(content, i, PortsSource, 16);
    CharOf(content, i, PortsSource, 17);
    SpaceSkipped(content, i + 5);
    PunctuationTokens(content, i + 6);
    SpaceSkipped(content, i + 7);
    PunctuationTokens(content, i + 8);
    PunctuationTokens(content, i + 11);
    PunctuationTokens(content, i + 16);
    PunctuationTokens(content, i + 17);
  }

  lemma CommentTokens(content: string, i: nat)
    requires i + |CommentSource| <= |content| && content[i..i + |CommentSource|] == CommentSource
    ensures Next(content, i) == Ok(Lexed(Some(Token(Comment, "# comment line")), i + 14))
    ensures Next(content, i + 14) == Ok(Lexed(Some(Token(NewLine, "\n")), i + 15))
  {
    CommentText();
    CharOf(content, i, CommentSource, 14);
    PieceOf(content, i, CommentSource, 0, 14);
    CommentIs(content, i, "# comment line");
    PunctuationTokens(content, i + 14);
  }

  lemma NameTokens(content: string, i: nat)
    requires i + |NameSource| <= |content| && content[i..i + |NameSource|] == NameSource
    ensures Next(content, i) == Ok(Lexed(Some(Token(Identifier, "name")), i + 4))
    ensures Next(content, i + 4) == Ok(Lexed(Some(Token(Equal, "=")), i + 5))
    ensures Next(content, i + 5) == Ok(Lexed(Some(Token(Number, "42")), i + 7))
    ensures Next(content, i + 7) == Ok(Lexed(Some(Token(NewLine, "\n")), i + 8))
  {
    NameText();
    CharOf(content, i, NameSource, 4);
    CharOf(content, i, NameSource, 7);
    PieceOf(content, i, NameSource, 0, 4);
    PieceOf(content, i, NameSource, 5, 7);
    WordIs(content, i, "name");
    PunctuationTokens(content, i + 4);
    WordIs(content, i + 5, "42");
    PunctuationTokens(content, i + 7);
  }

  // From tokens to the document.

  /** The list body `443]` reads as one number, ending after `]`. */
  lemma PortsLastItem(content: string, readFloat: FloatReader, c: nat)
    requires readFloat("443").Some? && c + 5 <= |content|
    requires Next(content, c) == Ok(Lexed(Some(Token(Number, "443")), c + 4))
    requires Next(content, c + 4) == Ok(Lexed(Some(Token(RightBracket, "]")), c + 5))
    ensures ReadItems(content, readFloat, c) == Ok(Items([Num(readFloat("443").value)], c + 5))
  {
    var high := Num(readFloat("443").value);
    ItemsClose(content, readFloat, c + 4, c + 5);
    ItemsScalar(content, readFloat, c, Token(Number, "443"), c + 4, high, [], c + 5);
    assert [high] + [] == [high];
  }

  /** The list body `80, 443]` reads as the two numbers, ending after `]`. */
  lemma PortsItems(content: string, readFloat: FloatReader, c: nat)
    requires readFloat("80").Some? && readFloat("443").Some?
    requires c + 8 <= |content|
    requires Next(content, c) == Ok(Lexed(Some(Token(Number, "80")), c + 2))
    requires Next(content, c + 2) == Ok(Lexed(Some(Token(Comma, ",")), c + 3))
    requires Next(content, c + 3) == Ok(Lexed(Some(Token(Number, "443")), c + 7))
    requires Next(content, c + 7) == Ok(Lexed(Some(Token(RightBracket, "]")), c + 8))
    ensures ReadItems(content, readFloat, c)
            == Ok(Items([Num(readFloat("80").value), Num(readFloat("443").value)], c + 8))
  {
    var low, high := Num(readFloat("80").value), Num(readFloat("443").value);
    PortsLastItem(content, readFloat, c + 3);
    ItemsComma(content, readFloat, c + 2, c + 3);
    ItemsScalar(content, readFloat, c, Token(Number, "80"), c + 2, low, [high], c + 8);
    assert [low] + [high] == [low, high];
  }

  /** The string token `"localhost"` converts to the text between its quotes. */
  lemma LocalhostValue(readFloat: FloatReader)
    ensures ConvertIdent(Token(String, "\"localhost\""), readFloat) == Ok(Str("localhost"))
  {
    assert "\"localhost\""[1..10] == "localhost";
  }

  /** The section after `host` and `ports` are assigned, in the order the parser assigns them. */
  lemma FirstTwoKeys(host: Option<Value>, ports: Option<Value>)
    ensures var d1: Document := map[]["server" := map[]];
            var d2 := d1["server" := d1["server"]["host" := None]];
            var d3 := d2["server" := d2["server"]["host" := host]];
            var d4 := d3["server" := d3["server"]["ports" := None]];
            d4["server" := d4["server"]["ports" := ports]] == map["server" := map["host" := host, "ports" := ports]]
  {
    var d1: Document := map[]["server" := map[]];
    var d2 := d1["server" := d1["server"]["host" := None]];
    var d3 := d2["server" := d2["server"]["host" := host]];
    assert d3["server"] == map["host" := host];
    var d4 := d3["server" := d3["server"]["ports" := None]];
    assert d4["server"]["ports" := ports] == map["host" := host, "ports" := ports];
  }

  /** The three assignments in section `server`, applied one after another. */
  lemma ServerDocument(host: Option<Value>, ports: Option<Value>, name: Option<Value>)
    ensures var d1: Document := map[]["server" := map[]];
            var d2 := d1["server" := d1["server"]["host" := None]];
            var d3 := d2["server" := d2["server"]["host" := host]];
            var d4 := d3["server" := d3["server"]["ports" := None]];
            var d5 := d4["server" := d4["server"]["ports" := ports]];
            var d6 := d5["server" := d5["server"]["name" := None]];
            d6["server" := d6["server"]["name" := name]]
            == map["server" := map["host" := host, "ports" := ports, "name" := name]]
  {
    FirstTwoKeys(host, ports);
    var d5: Document := map["server" := map["host" := host, "ports" := ports]];
    var d6 := d5["server" := d5["server"]["name" := None]];
    assert d6["server"]["name" := name] == map["host" := host, "ports" := ports, "name" := name];
  }

  /** The first two lines, `[server]` and the `host` assignment, from the text. */
  lemma ServerHead(content: string, readFloat: FloatReader)
    requires 28 <= |content| && content[0..9] == HeaderSource && content[9..28] == HostSource
    ensures var d1: Document := map[]["server" := map[]];
            var d2 := d1["server" := d1["server"]["host" := None]];
            Parse(content, readFloat)
            == Run(content, readFloat, ParserState(28, Some("server"), Some("host"),
                                                   d2["server" := d2["server"]["host" := Some(Single(Str("localhost")))]]))
  {
    var d1: Document := map[]["server" := map[]];
    HeaderTokens(content, 0);
    HostTokens(content, 9);
    LocalhostValue(readFloat);
    HeaderLine(content, readFloat, 0, 1, 7, 8, 9, None, None, map[], "server");
    AssignLine(content, readFloat, 9, 13, 15, 27, 28, "server", None, d1, "host", Token(String, "\"localhost\""));
  }

  /** The `ports` line, from the text: the list of two numbers is assigned. */
  lemma PortsLine(content: string, readFloat: FloatReader, d: Document)
    requires readFloat("80").Some? && readFloat("443").Some? && "server" in d
    requires 46 <= |content| && content[28..46] == PortsSource
    ensures var ports := Some(List([Num(readFloat("80").value), Num(readFloat("443").value)]));
            var d4 := d["server" := d["server"]["ports" := None]];
            Run(content, readFloat, ParserState(28, Some("server"), Some("host"), d))
            == Run(content, readFloat, ParserState(46, Some("server"), Some("ports"), d4["server" := d4["server"]["ports" := ports]]))
  {
    PortsTokens(content, 28);
    PortsItems(content, readFloat, 37);
    AssignListLine(content, readFloat, 28, 33, 35, 37, 45, 46, "server", Some("host"), d, "ports",
                   [Num(readFloat("80").value), Num(readFloat("443").value)]);
  }

  /** The comment line and the `name` line, from the text, up to the end of the input. */
  lemma ServerLast(content: string, readFloat: FloatReader, d: Document)
    requires readFloat("42").Some? && "server" in d
    requires |content| == 69 && content[46..61] == CommentSource && content[61..69] == NameSource
    ensures var d6 := d["server" := d["server"]["name" := None]];
            Run(content, readFloat, ParserState(46, Some("server"), Some("ports"), d))
            == Ok(d6["server" := d6["server"]["name" := Some(Single(Num(readFloat("42").value)))]])
  {
    var d6 := d["server" := d["server"]["name" := None]];
    var d7 := d6["server" := d6["server"]["name" := Some(Single(Num(readFloat("42").value)))]];
    CommentTokens(content, 46);
    NameTokens(content, 61);
    CommentLine(content, readFloat, 46, Token(Comment, "# comment line"), 60, 61, Some("server"), Some("ports"), d);
    AssignLine(content, readFloat, 61, 65, 66, 68, 69, "server", Some("ports"), d, "name", Token(Number, "42"));
    StopsWithDocument(content, readFloat, ParserState(69, Some("server"), Some("name"), d7));
  }

  /** The parse of any 69-character input made of the five lines of the example. */
  lemma ServerRunText(content: string, readFloat: FloatReader)
    requires readFloat("80").Some? && readFloat("443").Some? && readFloat("42").Some?
    requires |content| == 69
    requires content[0..9] == HeaderSource && content[9..28] == HostSource && content[28..46] == PortsSource
    requires content[46..61] == CommentSource && content[61..69] == NameSource
    ensures Parse(content, readFloat)
            == Ok(map["server" := map["host" := Some(Single(Str("localhost"))),
                                      "ports" := Some(List([Num(readFloat("80").value), Num(readFloat("443").value)])),
                                      "name" := Some(Single(Num(readFloat("42").value)))]])
  {
    var host := Some(Single(Str("localhost")));
    var ports := Some(List([Num(readFloat("80").value), Num(readFloat("443").value)]));
    var d1: Document := map[]["server" := map[]];
    var d2 := d1["server" := d1["server"]["host" := None]];
    var d3 := d2["server" := d2["server"]["host" := host]];
    var d4 := d3["server" := d3["server"]["ports" := None]];
    var d5 := d4["server" := d4["server"]["ports" := ports]];
    ServerHead(content, readFloat);
    PortsLine(content, readFloat, d3);
    ServerLast(content, readFloat, d5);
    ServerDocument(host, ports, Some(Single(Num(readFloat("42").value))));
  }

  /** The five lines of the example, one after another. */
  lemma Lines(a: string, b: string, c: string, d: string, e: string)
    ensures var text := a + b + c + d + e;
            var i, j, k, l := |a|, |a| + |b|, |a| + |b| + |c|, |a| + |b| + |c| + |d|;
            && |text| == l + |e|
            && text[0..i] == a && text[i..j] == b && text[j..k] == c && text[k..l] == d && text[l..] == e
  {
    var text := a + b + c + d + e;
    var i, j, k, l := |a|, |a| + |b|, |a| + |b| + |c|, |a| + |b| + |c| + |d|;
    assert text[0..i] == a;
    assert text[i..j] == b;
    assert text[j..k] == c;
    assert text[k..l] == d;
  }

  /** The example document: a section with a string, a list of numbers, a comment line
      and a number. */
  lemma ServerExample(readFloat: FloatReader)
    requires readFloat("80").Some? && readFloat("443").Some? && readFloat("42").Some?
    ensures Parse("[server]\n" + "host = \"localhost\"\n" + "ports = [80, 443]\n" + "# comment line\n" + "name=42\n",
                  readFloat)
            == Ok(map["server" := map["host" := Some(Single(Str("localhost"))),
                                      "ports" := Some(List([Num(readFloat("80").value), Num(readFloat("443").value)])),
                                      "name" := Some(Single(Num(readFloat("42").value)))]])
  {
    Lines(HeaderSource, HostSource, PortsSource, CommentSource, NameSource);
    HeaderText();
    HostText();
    PortsText();
    CommentText();
    NameText();
    ServerRunText(HeaderSource + HostSource + PortsSource + CommentSource + NameSource, readFloat);
  }

  // A list mixing numbers and a string.

  const ListSource := "key = [1, 2, \"three\"]\n"

  lemma ListPieces()
    ensures |ListSource| == 22 && IsWord("key") && ListSource[0..3] == "key"
    ensures IsWord("1") && ListSource[7..8] == "1" && IsWord("2") && ListSource[10..11] == "2"
    ensures IsStringLiteral("\"three\"") && ListSource[13..20] == "\"three\""
  {
    assert ListSource[7..8] == [ListSource[7]];
    assert ListSource[10..11] == [ListSource[10]];
  }

  lemma ListChars()
    ensures |ListSource| == 22
    ensures ListSource[3] == ' ' && ListSource[4] == '=' && ListSource[5] == ' ' && ListSource[6] == '['
    ensures ListSource[8] == ',' && ListSource[9] == ' ' && ListSource[11] == ',' && ListSource[12] == ' '
    ensures ListSource[20] == ']' && ListSource[21] == '\n'
  {
  }

  lemma ListWords(content: string, i: nat)
    requires i + |ListSource| <= |content| && content[i..i + |ListSource|] == ListSource
    ensures Next(content, i) == Ok(Lexed(Some(Token(Identifier, "key")), i + 3))
    ensures Next(content, i + 7) == Ok(Lexed(Some(Token(Number, "1")), i + 8))
    ensures Next(content, i + 9) == Ok(Lexed(Some(Token(Number, "2")), i + 11))
    ensures Next(content, i + 12) == Ok(Lexed(Some(Token(String, "\"three\"")), i + 20))
  {
    ListPieces();
    ListChars();
    CharOf(content, i, ListSource, 3);
    CharOf(content, i, ListSource, 8);
    CharOf(content, i, ListSource, 9);
    CharOf(content, i, ListSource, 11);
    CharOf(content, i, ListSource, 12);
    PieceOf(content, i, ListSource, 0, 3);
    PieceOf(content, i, ListSource, 7, 8);
    PieceOf(content, i, ListSource, 10, 11);
    PieceOf(content, i, ListSource, 13, 20);
    WordIs(content, i, "key");
    WordIs(content, i + 7, "1");
    SpaceSkipped(content, i + 9);
    WordIs(content, i + 10, "2");
    SpaceSkipped(content, i + 12);
    StringIs(content, i + 13, "\"three\"");
  }

  lemma ListPunctuation(content: string, i: nat)
    requires i + |ListSource| <= |content| && content[i..i + |ListSource|] == ListSource
    ensures Next(content, i + 3) == Ok(Lexed(Some(Token(Equal, "=")), i + 5))
    ensures Next(content, i + 5) == Ok(Lexed(Some(Token(LeftBracket, "[")), i + 7))
    ensures Next(content, i + 8) == Ok(Lexed(Some(Token(Comma, ",")), i + 9))
    ensures Next(content, i + 11) == Ok(Lexed(Some(Token(Comma, ",")), i + 12))
    ensures Next(content, i + 20) == Ok(Lexed(Some(Token(RightBracket, "]")), i + 21))
    ensures Next(content, i + 21) == Ok(Lexed(Some(Token(NewLine, "\n")), i + 22))
  {
    ListChars();
    CharOf(content, i, ListSource, 3);
    CharOf(content, i, ListSource, 4);
    CharOf(content, i, ListSource, 5);
    CharOf(content, i, ListSource, 6);
    CharOf(content, i, ListSource, 8);
    CharOf(content, i, ListSource, 11);
    CharOf(content, i, ListSource, 20);
    CharOf(content, i, ListSource, 21);
    SpaceSkipped(content, i + 3);
    PunctuationTokens(content, i + 4);
    SpaceSkipped(content, i + 5);
    PunctuationTokens(content, i + 6);
    PunctuationTokens(content, i + 8);
    PunctuationTokens(content, i + 11);
    PunctuationTokens(content, i + 20);
    PunctuationTokens(content, i + 21);
  }

  /** The string token `"three"` converts to the text between its quotes. */
  lemma ThreeValue(readFloat: FloatReader)
    ensures ConvertIdent(Token(String, "\"three\""), readFloat) == Ok(Str("three"))
  {
    assert "\"three\""[1..6] == "three";
  }

  /** The list body `"three"]` reads as one string, ending after `]`. */
  lemma ThreeItem(content: string, readFloat: FloatReader, c: nat, c1: nat, c2: nat)
    requires c <= |content|
    requires Next(content, c) == Ok(Lexed(Some(Token(String, "\"three\"")), c1))
    requires Next(content, c1) == Ok(Lexed(Some(Token(RightBracket, "]")), c2))
    ensures ReadItems(content, readFloat, c) == Ok(Items([Str("three")], c2))
  {
    ThreeValue(readFloat);
    ItemsClose(content, readFloat, c1, c2);
    ItemsScalar(content, readFloat, c, Token(String, "\"three\""), c1, Str("three"), [], c2);
    assert [Str("three")] + [] == [Str("three")];
  }

  /** The list body `2, "three"]`, given what follows the comma. */
  lemma TwoItems(content: string, readFloat: FloatReader, c: nat, c1: nat, c2: nat, e: nat)
    requires readFloat("2").Some? && c <= |content|
    requires Next(content, c) == Ok(Lexed(Some(Token(Number, "2")), c1))
    requires Next(content, c1) == Ok(Lexed(Some(Token(Comma, ",")), c2))
    requires ReadItems(content, readFloat, c2) == Ok(Items([Str("three")], e))
    ensures ReadItems(content, readFloat, c) == Ok(Items([Num(readFloat("2").value), Str("three")], e))
  {
    ItemsComma(content, readFloat, c1, c2);
    ItemsScalar(content, readFloat, c, Token(Number, "2"), c1, Num(readFloat("2").value), [Str("three")], e);
    assert [Num(readFloat("2").value)] + [Str("three")] == [Num(readFloat("2").value), Str("three")];
  }

  /** The list body `1, 2, "three"]`, given what follows the first comma. */
  lemma OneItems(content: string, readFloat: FloatReader, c: nat, c1: nat, c2: nat, e: nat)
    requires readFloat("1").Some? && readFloat("2").Some? && c <= |content|
    requires Next(content, c) == Ok(Lexed(Some(Token(Number, "1")), c1))
    requires Next(content, c1) == Ok(Lexed(Some(Token(Comma, ",")), c2))
    requires ReadItems(content, readFloat, c2) == Ok(Items([Num(readFloat("2").value), Str("three")], e))
    ensures ReadItems(content, readFloat, c)
            == Ok(Items([Num(readFloat("1").value), Num(readFloat("2").value), Str("three")], e))
  {
    var one, two := Num(readFloat("1").value), Num(readFloat("2").value);
    ItemsComma(content, readFloat, c1, c2);
    ItemsScalar(content, readFloat, c, Token(Number, "1"), c1, one, [two, Str("three")], e);
    assert [one] + [two, Str("three")] == [one, two, Str("three")];
  }

  /** The list body of the line: two numbers and a string, ending after `]`. */
  lemma MixedItems(content: string, readFloat: FloatReader, i: nat)
    requires readFloat("1").Some? && readFloat("2").Some?
    requires i + |ListSource| <= |content| && content[i..i + |ListSource|] == ListSource
    ensures ReadItems(content, readFloat, i + 7)
            == Ok(Items([Num(readFloat("1").value), Num(readFloat("2").value), Str("three")], i + 21))
  {
    ListWords(content, i);
    ListPunctuation(content, i);
    ThreeItem(content, readFloat, i + 12, i + 20, i + 21);
    TwoItems(content, readFloat, i + 9, i + 11, i + 12, i + 21);
    OneItems(content, readFloat, i + 7, i + 8, i + 9, i + 21);
  }

  /** The line `key = [1, 2, "three"]`, wherever it stands inside section `h`, assigns
      the list of the two numbers and the string to `key`. */
  lemma MixedListLine(content: string, readFloat: FloatReader, i: nat, h: string, lv: Option<string>, d: Document)
    requires readFloat("1").Some? && readFloat("2").Some? && h in d
    requires i + |ListSource| <= |content| && content[i..i + |ListSource|] == ListSource
    ensures var items := [Num(readFloat("1").value), Num(readFloat("2").value), Str("three")];
            var d' := d[h := d[h]["key" := None]];
            Run(content, readFloat, ParserState(i, Some(h), lv, d))
            == Run(content, readFloat, ParserState(i + 22, Some(h), Some("key"), d'[h := d'[h]["key" := Some(List(items))]]))
  {
    ListWords(content, i);
    ListPunctuation(content, i);
    MixedItems(content, readFloat, i);
    AssignListLine(content, readFloat, i, i + 3, i + 5, i + 7, i + 21, i + 22, h, lv, d, "key",
                   [Num(readFloat("1").value), Num(readFloat("2").value), Str("three")]);
  }

  /** Section `t` opened and its `key` assigned, in the order the parser does it. */
  lemma OneKeyDocument(v: Option<Value>)
    ensures var d1: Document := map[]["t" := map[]];
            var d2 := d1["t" := d1["t"]["key" := None]];
            d2["t" := d2["t"]["key" := v]] == map["t" := map["key" := v]]
  {
    var d1: Document := map[]["t" := map[]];
    var d2 := d1["t" := d1["t"]["key" := None]];
    assert d2["t"]["key" := v] == map["key" := v];
  }

  /** A 26-character input made of `[t]` and that line parses to section `t` holding the list. */
  lemma MixedListRun(content: string, readFloat: FloatReader)
    requires readFloat("1").Some? && readFloat("2").Some?
    requires |content| == 26 && content[0] == '[' && content[1] == 't' && content[2] == ']' && content[3] == '\n'
    requires content[4..26] == ListSource
    ensures Parse(content, readFloat)
            == Ok(map["t" := map["key" := Some(List([Num(readFloat("1").value), Num(readFloat("2").value), Str("three")]))]])
  {
    var items := [Num(readFloat("1").value), Num(readFloat("2").value), Str("three")];
    var d1: Document := map[]["t" := map[]];
    var d2 := d1["t" := d1["t"]["key" := None]];
    var d3 := d2["t" := d2["t"]["key" := Some(List(items))]];
    HeaderLineTokens(content, 0, 1, 2, 3, 4, 't');
    HeaderLine(content, readFloat, 0, 1, 2, 3, 4, None, None, map[], "t");
    MixedListLine(content, readFloat, 4, "t", None, d1);
    StopsWithDocument(content, readFloat, ParserState(26, Some("t"), Some("key"), d3));
    OneKeyDocument(Some(List(items)));
  }

  /** A document holding only that line, in section `t`. */
  lemma MixedListExample(readFloat: FloatReader)
    requires readFloat("1").Some? && readFloat("2").Some?
    ensures Parse("[t]\n" + "key = [1, 2, \"three\"]\n", readFloat)
            == Ok(map["t" := map["key" := Some(List([Num(readFloat("1").value), Num(readFloat("2").value), Str("three")]))]])
  {
    var content := "[t]\n" + ListSource;
    ListChars();
    assert content[4..26] == ListSource;
    MixedListRun(content, readFloat);
  }
}
