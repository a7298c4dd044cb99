# toml-parserpy in Dafny

This project models the scanner and the single-pass parser of `toml-parserpy`. That program reads a small INI/TOML-like configuration format. The input is a text made of:

- section headers `[name]`;
- bare keys;
- assignments `key = value`, where a value is a number, a quoted string, or a bracketed list of those;
- comments `# ...` and newlines.

The output is a document: a map from section name to a map from key to an optional value.

The model is functional:

- **Tokens** (`tokens.dfy`): the eleven token kinds, kept in the order of the source's kind table. The table of kind names is a bijection between kinds and the codes 0..10.
- **Lexer** (`lexer.dfy`): the scanner's `next` is a pure step, `Next(content, cursor)`. It returns the token found (or none at end of input) and the new cursor. `ChopTo` is `chop_to`, and `SkipSpaces` is the space-skipping recursion. The lemmas characterise each token class and give round trips from text to token.
- **TokenStream** (`stream.dfy`): the whole output of repeated `Next` calls, collected as a stream. `Lossless` proves that writing the stream back out (tokens plus the skipped spaces) reproduces the input. Scanning stops early only at a `"` that is never closed.
- **Parser** (`parser.dfy`): the parser state holds the cursor, the current section, the last declared key and the document. `Step` is one round of the parse loop. `Run` iterates `Step` until the input ends or a token has no top-level meaning. `Parse` starts `Run` from the empty state. Every `exit(1)` of the source, and every exception the model covers, becomes a value of `Error`. Python's recursion limit is the exception not covered (see Left out).
- **ParserFacts** (`parser_facts.dfy`): what each top-level token does to the state. It also shows what a list value holds, checked against an independent definition over the token stream, `ListFromStream`. It proves a few facts about whole inputs, including one where a section declared twice keeps only what follows its second header.
- **Walkthrough** (`walkthrough.dfy`): two documents followed from their characters to the dictionary the parser returns. One is a `[server]` section with a string, a list of numbers, a comment line and a number. The other is a line `key = [1, 2, "three"]`, whose list mixes numbers and a string.

Points of the source's behaviour that are easy to miss:

- **An unterminated string is an error.** At end of input `get_current_char` returns `None`, and parser.py:76 concatenates it to the text read so far, which raises. The model returns `Lex(UnterminatedString(start))`.
- **A header's name may be any token.** After `[` the parser takes the text of whatever token comes next (parser.py:123-125), not only an identifier.
- **The pending key survives a new header.** `last_var` changes only at the next identifier (parser.py:130, 142). So `[a]\nx\n[b]\n= 1` stores `x = 1` in section `b`.
- **Exceptions become errors.** A key or `=` before any header fails with `NoSection`, because the initial `current_head` is the string `""` and `"".text` raises. `=` before any key fails with `NoKey`, because `last_var` is never set before the first identifier. `[` or `=` at end of input fails with `UnexpectedEnd`, because `.kind` is read on `None`.
- **Python's evaluation order is kept.** In `self.ast[self.current_head.text][self.last_var.text] = value` the value is read first, then the section, then the key. So a bad value is reported before `NoSection` or `NoKey`.

## Model

| member | source | states |
|---|---|---|
| Tokens.CodeOfName | parser.py:16 | the name-to-code table finds a code exactly when the name is in the kind table, and the code it finds indexes that name |
| Tokens.KindTableRoundTrip | parser.py:3-16 | looking up a kind's printed name gives back that kind's code, and distinct kinds have distinct codes |
| Lexer.ChopTo | parser.py:43-52 | `chop_to` stops at the first character in the stop set, or at end of input; every character it passes is outside the stop set |
| Lexer.ChopToUnique | parser.py:43-52 | any position with those three properties is where `chop_to` stops |
| Lexer.SkipSpaces | parser.py:69-70 | skipping spaces lands on the first non-space position, passing only spaces, and never beyond the end |
| Lexer.Next | parser.py:54-85 | at or past the end there is no token and the cursor stays; "no token" otherwise means only spaces were left; a token's text is exactly the source between the first non-space character and the new cursor, so the cursor strictly advances and stays within the input; a failure is at an opening quote |
| Lexer.ReadToken | parser.py:56-85 | reading a token at a non-space character consumes at least that character, and the text is the consumed source; only a `"` can fail |
| Lexer.EndOfInputIsSticky | parser.py:54-55 | once a step reports end of input, the next step from the returned cursor reports it again |
| Lexer.SpacesAreSkipped | parser.py:69-70 | scanning from a cursor gives the same result as scanning from the first non-space character; no token text starts with a space |
| Lexer.PunctuationTokens | parser.py:58-74 | each of `[ ] { } \n = ,` scans as a one-character token of its own kind, and the cursor moves just past it |
| Lexer.PunctuationText | parser.py:58-74 | conversely, a token of one of those seven kinds, wherever it was read, has exactly its character as text |
| Lexer.StringToken | parser.py:75-78 | a `"` fails to scan exactly when no later `"` exists; otherwise the String token runs from the opening quote to the next quote inclusive, with no quote in between |
| Lexer.CommentToken | parser.py:79-80 | a `#` scans as a Comment token: the `#` and everything up to the next newline, which is not consumed |
| Lexer.WordToken | parser.py:81-85 | any other character starts a token that is a Number exactly when that character is a digit, and an Identifier otherwise; the token is the longest run of characters outside `,\n#"= ]`, and the stop character is not consumed |
| Lexer.WordIs | parser.py:81-85 | round trip for words: a word (no stop character, not starting with a special character) found at any position and followed by a stop character or the end scans as one token of exactly that word, a Number when it starts with a digit and an Identifier otherwise |
| Lexer.StringIs | parser.py:75-78 | round trip for strings: a string literal (quotes at both ends, none in between) found at any position scans as one String token of exactly that literal, and the cursor moves past the closing quote |
| Lexer.CommentIs | parser.py:79-80 | round trip for comments: a newline-free comment found at any position, followed by a newline or the end, scans as one Comment token of exactly that text, and the newline is not consumed |
| Lexer.SpaceSkipped | parser.py:69-70 | scanning at a space gives the same result as scanning after it |
| TokenStream.Lossless | parser.py:54-85 | writing the scanned tokens back out with their skipped spaces reproduces the input up to where scanning stopped; scanning stops early only at a `"` that is never closed |
| Parser.ConvertIdent | parser.py:109-115 | conversion succeeds exactly for a String, or for a Number the float reader accepts; a Number gives the reader's value; a String with its outer characters put back is the token text; the error is MalformedNumber for a Number and UnexpectedToken otherwise |
| Parser.ReadItems | parser.py:135-139 | the list reader stays within the input; what it returns is stated by ParserFacts.ListFollowsStream |
| Parser.ReadValue | parser.py:132-141 | reading a value consumes at least one token and stays within the input; with no token left it fails with UnexpectedEnd, and a scanner failure on that token is its error; its content is stated by ParserFacts.ScalarValue and ParserFacts.ListValue |
| Parser.Step | parser.py:118-146 | a round that continues keeps the state valid and moves the cursor forward; it deletes no section, and removes keys only by resetting a re-declared section to empty; a round that finishes returns the document unchanged |
| Parser.Run | parser.py:117-146 | the loop never removes a section: every section of the starting document is in the result |
| ParserFacts.TriviaIsIgnored | parser.py:143-144 | a Comment or NewLine at top level changes only the cursor |
| ParserFacts.StrayCloseBracketFails | parser.py:126-127 | a `]` at top level fails with UnexpectedToken("]") |
| ParserFacts.StopsWithDocument | parser.py:145-146 | end of input, a brace, a String, a Number or a Comma at top level ends the parse with the document built so far |
| ParserFacts.HeaderResetsSection | parser.py:122-125 | `[` name `]` makes the name's text, whatever its kind, the current section and sets that section to empty; no other section and not the pending key change; any other token after the name fails with WrongToken(RightBracket, its kind) |
| ParserFacts.HeaderAtEndFails | parser.py:100-103 | a `[` with no name, or a name with no token after it, before end of input fails with UnexpectedEnd |
| ParserFacts.ScanFailureFails | parser.py:119 | a scanner failure where a top-level token is due fails the round with that failure |
| ParserFacts.ScanFailureAfterOpener | parser.py:122-133 | a scanner failure on the token after `[` or after `=` fails the round with that failure |
| ParserFacts.ScanFailureAfterHeaderName | parser.py:100-101 | a scanner failure where the `]` of a header is due fails the round with that failure |
| ParserFacts.EqualAtEndFails | parser.py:132-133 | an `=` with no token after it fails with UnexpectedEnd, whatever the section and pending key |
| ParserFacts.IdentifierDeclaresKey | parser.py:128-130 | an identifier sets its key in the current section to no value and becomes the pending key, and nothing else changes; before any header it fails with NoSection |
| ParserFacts.EqualAssignsPendingKey | parser.py:131-142 | `=` stores the value read under the pending key of the current section, and nothing else changes; the value's error comes first, then NoSection, then NoKey |
| ParserFacts.ScalarValue | parser.py:140-141 | a value that does not start with `[` is the next token, converted, and its errors are the conversion's errors |
| ParserFacts.QuotedStringRoundTrip | parser.py:112-113 | quoting quote-free text, scanning it and converting the token gives the text back |
| ParserFacts.ListFollowsStream | parser.py:135-139 | the list reader returns the tokens before the first `]` (or all of them), commas dropped, each converted in source order; it fails with the first failing conversion, or with the scanner's error if the input ends in an open string |
| ParserFacts.ListValue | parser.py:132-139 | a value starting with `[` succeeds exactly when `ListFromStream` of the tokens after it succeeds, with the same list or the same error |
| ParserFacts.FreshParse | parser.py:88-92 | `Parse` runs the loop from `Initial`, which is valid and holds an empty document, no section (the source's `""`) and no pending key (the never-set `last_var`): an input that ends or stops at once parses to the empty document, and a key, or an `=` whose value can be read, as the first token fails with NoSection |
| ParserFacts.TriviaOnlyLeavesDocument | parser.py:118-146 | from any state, if the rest of the input is only comments, newlines and spaces, the parse returns the document unchanged |
| ParserFacts.BlankInputIsEmpty | parser.py:117-146 | an input of only spaces, comments and newlines parses to the empty document |
| ParserFacts.MissingCloseBracketExample | parser.py:122-124 | `[server` followed by a newline fails with WrongToken(RightBracket, NewLine), whatever comes after |
| ParserFacts.LoneHeaderExample | parser.py:122-125 | a single header line `[name]`, for any name that scans as one word, parses to one empty section of that name |
| ParserFacts.HeaderLine | parser.py:122-125 | a line `[name]` with an identifier name and its newline hand the rest of the parse to the state whose current section is `name`, emptied, with the pending key unchanged |
| ParserFacts.AssignLine | parser.py:128-142 | a line `key = value` with a scalar value and its newline hand the rest of the parse to the state where `key` is pending and maps to the converted value in the current section |
| ParserFacts.AssignListLine | parser.py:128-142 | a line `key = [ ... ]` and its newline hand the rest of the parse to the state where `key` is pending and maps to the list the list reader returns |
| ParserFacts.CommentLine | parser.py:143-144 | a comment and its newline leave the state as it was |
| ParserFacts.HeaderLineTokens | parser.py:58-85 | the characters `[`, a one-letter name, `]` and a newline scan as LeftBracket, Identifier, RightBracket and NewLine, one character each |
| ParserFacts.AssignLineTokens | parser.py:58-85 | the characters of a one-letter key, `=`, a digit and a newline scan as Identifier, Equal, Number and NewLine, one character each |
| ParserFacts.RedeclaredRun | parser.py:117-146 | any input that scans as `[a]`, `x=1`, `[a]`, `y=2` (each with its newline) and then ends parses to section `a` holding only `y` |
| Walkthrough.PortsItems | parser.py:135-139 | the list body `80, 443]` reads as the two numbers the float reader gives, ending after `]` |
| Walkthrough.ServerRunText | parser.py:117-146 | any 69-character input made of the lines `[server]`, `host = "localhost"`, `ports = [80, 443]`, `# comment line` and `name=42` parses to section `server` holding `host`, `ports` and `name` with their values |
| Walkthrough.ServerExample | parser.py:117-146 | that exact text parses to `{"server": {"host": "localhost", "ports": [80, 443], "name": 42}}`, the numbers as the float reader reads them |
| Walkthrough.MixedItems | parser.py:135-139 | the list body `1, 2, "three"]` reads as two numbers and the string `three`, ending after `]` |
| Walkthrough.MixedListLine | parser.py:128-142 | the line `key = [1, 2, "three"]`, wherever it stands inside a section, assigns that mixed list to `key` and makes it the pending key |
| Walkthrough.MixedListExample | parser.py:117-146 | `[t]` followed by that line parses to `{"t": {"key": [1, 2, "three"]}}` |
| ParserFacts.RedeclaredSectionExample | parser.py:122-142 | `[a]\nx=1\n[a]\ny=2\n` parses to section `a` holding only `y` with the float reader's value for `2`: the second header discards `x` |

## Left out

- `read_entire_file` and the module-level script that reads `test.toml` and prints the result (parser.py:18-20, 148-150) are file and console I/O.
- `Token.print` (parser.py:27-28) is console output.
- The messages `wrong_token` and `unexpected_token` write to standard error, and the `exit(1)` after them (parser.py:94-98, 105-107), are not modelled. Each becomes an `Error` value carrying the same kinds or token text. The printed kind names are `Tokens.KindName`.
- `float(token.text)` (parser.py:111) is a parameter, `FloatReader`. It maps number text to a value, or to none when Python's `float` would raise. Values are exact reals, so binary64 rounding is not modelled. Python's `float` also accepts text such as `1e999`, `inf` and `nan` and returns a non-finite value, which a real cannot hold; such results are outside what a `FloatReader` can return.
- `get_current_char` and `chop` (parser.py:35-41) are folded into index arithmetic in `ChopTo` and `ReadToken`. The model reads `content[cursor]` only below the end of input and never moves the cursor past it, so the `None` these return at end of input is the end-of-input case of each branch.
- `str.isdigit` (parser.py:83) also accepts non-ASCII digits. The model's `IsDigit` is ASCII `0`-`9` only.
- Python's recursion limit is not modelled. `next` recurses once per skipped space (parser.py:69-70), so a run of about a thousand spaces raises in the source. The model skips any number of spaces.
- Dictionary insertion order is not modelled. Documents and sections are Dafny maps, so the order in which sections and keys print is not represented.
- Parser.ReadItems: its own contract states only that the cursor stays within the input. What the list holds is stated by ParserFacts.ListFollowsStream.
- Parser.ReadValue: its own contract states the cursor bounds and the two failures that come before any token is read (end of input and a scanner failure). What a value that is read holds is stated by ParserFacts.ScalarValue and ParserFacts.ListValue.
- Parser.Run: its own contract states only that sections are never removed. What each round does is stated by the ParserFacts lemmas, one production at a time.
