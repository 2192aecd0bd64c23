# TOML lexical scanner, modelled in Dafny

This project models the lexical scanner of a small TOML parser written in Go
(`main.go`). The scanner wraps a character reader. Each call of `Scan`
returns one token and its lexeme:

- a run of spaces and tabs gives `WHITESPACE`;
- a run of bare-key letters (`A-Z a-z 0-9 - _`, the bare-key charset of
  TOML v1.0.0) gives `BARE_KEY`;
- `"` starts a naive `STRING`;
- `=` gives `ASSIGNMENT`;
- the end of the input gives `EOF`;
- any other character gives `ILLEGAL` with that character.

`Parse` drains a scanner into the list of token kinds, up to and including
the first `EOF`.

The model has four modules:

- `Chars` (`chars.dfy`): the character-class predicates and the `eof` rune
  (`EofRune`, rune 0, main.go:27). The predicates are proved to match listed
  charsets: the letters are the 52 ASCII letters, the digits the ten decimal
  digits, and the bare-key letters the 64-character TOML charset. They are
  also proved disjoint.
- `Lexer` (`lexer.dfy`): the token kinds (`Token`, main.go:9-25) with the
  integer codes Go gives them, and one call of `Scan` as a pure
  function `Step` of the input and the cursor. `Step` returns the token, the
  lexeme and the new cursor. `Tokenize` is the list `Parse` builds. The
  lemmas prove maximal munch, progress, the stability of `EOF`, the shape
  of `Parse`'s result, and that `DOTTED_KEY` never appears. They also prove
  that a whitespace or key lexeme is exactly the input span it came from.
  The cursor then stands right after that span, or one further when a NUL
  ended the run: that NUL is consumed but is not in the lexeme.
- `Scanning` (`scanner.dfy`): the scanner as a class. It holds the decoded
  input and a cursor `pos`, plus a ghost flag `canUnread` that holds only
  right after a read that returned a character of the input. `Read`,
  `Unread`, the sub-scanners, `Scan` and `Parse` are written with the
  source's loops. Each is proved to compute what `Step` and `Tokenize`
  describe.
- `Scenarios` (`scenarios.dfy`): concrete inputs worked through the model.

Behaviour of `main.go` that the model keeps:

- **The pushback discipline.** `Read` sets `canUnread` only when it returns
  a character of the input, and records the character in a ghost
  `lastRead`. `Unread` requires `canUnread` and that `lastRead` is not the
  sentinel. So every call site proves three things about a pushback:
  - it happens only right after a successful read;
  - it never happens twice in a row, nor after the end of input;
  - it never follows a read of the sentinel, NUL included.

  The reasons differ by call site. In `Scan` the character just read is
  whitespace or a key letter. In the run loops it is the terminator, which
  is outside the class, and the loop has already tested it for the sentinel
  before it pushes it back.
- **NUL is the end-of-input sentinel.** The reader signals the end with
  rune 0, so a NUL character in the input cannot be told apart from the end.
  - When a NUL is the first character `Scan` reads, it returns `EOF` and the
    NUL is consumed. `Parse` stops there. A further `Scan` carries on after
    it.
  - When a NUL ends a whitespace, key or string run, the run's loop consumes
    it and does not push it back. It disappears, and the text on its other
    side starts a new token (`a\0b` gives two `BARE_KEY` tokens).
  - Only at the true end of input does `Scan` leave the cursor in place.
    There it returns `(EOF, "")` on every later call.
- **Strings stop at the first non-key letter.** `scanString` stops at the
  first character that is not a key letter, not only at the closing quote.
  That character is consumed and dropped. So `"Quoted key"` gives
  `STRING "Quoted"` (eating the space), then `BARE_KEY "key"`, then a `"`
  that starts another string.

Where the source disagrees with other descriptions of it, the model follows
`main.go`. The repository's test (`main_test.go`) expects token kinds that
`main.go` does not define: `KEY`, `BRAKET_OPEN`, `INTEGER`, `COMMA` and
`COMMENT`. It also expects `"Quoted key"` to scan as one string. Those
describe a later scanner with brackets, integers, commas and comments.
None of that is in `main.go`, so none of it is modelled.

## Model

| member | source | states |
|---|---|---|
| Chars.IsWhitespace | main.go:160-162 | a whitespace character is never a line break, the eof rune or a key letter |
| Chars.IsLetter | main.go:164-166 | a character is a letter exactly when it is one of the 52 listed ASCII letters A-Z, a-z |
| Chars.IsDigit | main.go:168-170 | a character is a digit exactly when it is one of the ten listed decimal digits |
| Chars.IsDashOrUnderscore | main.go:172-174 | '-' and '_' are neither letters nor digits |
| Chars.IsBareKeyLetter | main.go:176-178 | a character is a bare-key letter exactly when it is one of the 64 characters A-Z, a-z, 0-9, '-', '_' of the TOML charset; the eof rune, '"' and '=' are not |
| Chars.ClassesDisjoint | main.go:160-178 | no character is both whitespace and a key letter; the eof rune, '"' and '=' are in neither class |
| Lexer.Code | main.go:11-25 | each token kind has a code below 7, and the code is 1 exactly for EOF, the value Parse's loop compares with |
| Lexer.CodeInjective | main.go:11-25 | no two token kinds share a code |
| Lexer.RunEnd | main.go:79-113 | the run loops stop at the end of a maximal run: every character before it is in the class, the one at it is not (or input ends) |
| Lexer.AfterRun | main.go:84-109 | after a run loop the cursor is at the end of the run, or one past it only when the character there is a NUL, which the eof branch consumes |
| Lexer.MaximalRunUnique | main.go:102-113 | the maximal run from a position is unique, so any span with the maximal-run property is the one the loop finds |
| Lexer.Step | main.go:53-74 | a Scan that does not return EOF advances the cursor; an EOF has an empty lexeme and leaves the cursor in place exactly at the true end of input |
| Lexer.StepKind | main.go:53-74 | the token kind is determined by the first unread character, in both directions, for each kind; DOTTED_KEY is never returned |
| Lexer.WhitespaceToken | main.go:76-95 | a WHITESPACE lexeme is non-empty, is a maximal run of spaces and tabs, equals the input span it came from, and the cursor ends right after it or after the NUL that ended it |
| Lexer.BareKeyToken | main.go:97-116 | a BARE_KEY lexeme is non-empty, is a maximal run of key letters, equals the input span it came from, and the cursor ends right after it or after the NUL that ended it |
| Lexer.StringToken | main.go:118-138 | a STRING lexeme drops the opening quote, is the maximal run of key letters after it, and the character ending it is consumed and dropped; at end of input the run is returned as is |
| Lexer.EofIsStable | main.go:39-47 | at the true end of input, any number of further Scans leave the cursor in place and each returns (EOF, "") |
| Lexer.Tokenize | main.go:142-158 | the kinds Parse collects from a cursor are never empty and end with EOF |
| Lexer.TokenizeEndsWithSingleEof | main.go:147-157 | the list Parse collects ends with EOF, holds no other EOF, and has at most one token per remaining character plus one |
| Lexer.TokenizeHasNoDottedKey | main.go:18 | no input makes Parse report DOTTED_KEY |
| Lexer.LexemesCoverInput | main.go:53-116 | on input without '"' and NUL, the lexemes concatenated give back the input exactly: nothing dropped, nothing duplicated |
| Scanning.Scanner.constructor | main.go:35-37 | a new scanner is at the start of its text, with nothing to unread |
| Scanning.Scanner.Read | main.go:39-47 | returns the next input character and advances, or returns the eof rune and stays put at end of input |
| Scanning.Scanner.Unread | main.go:49-51 | steps back one character; allowed only right after a read that returned an input character other than the eof rune, so never twice in a row |
| Scanning.Scanner.ScanRun | main.go:79-113 | the shared run loop returns the maximal run from the cursor and leaves the cursor right after it, or after the NUL that ended it |
| Scanning.Scanner.ScanWhiteSpace | main.go:76-95 | returns WHITESPACE with the maximal run of spaces and tabs from the cursor, and the cursor as RunEnd and AfterRun give it |
| Scanning.Scanner.ScanBareKey | main.go:97-116 | returns BARE_KEY with the maximal run of key letters from the cursor, and the cursor as RunEnd and AfterRun give it |
| Scanning.Scanner.ScanString | main.go:118-138 | returns the maximal run of key letters from the cursor and consumes the character that ended it, if any |
| Scanning.Scanner.Scan | main.go:53-74 | returns the token and lexeme Step gives for the old cursor and moves the cursor to Step's new position |
| Scanning.Parse | main.go:142-158 | returns Tokenize of the input, which ends with a single EOF and holds no other |
| Scenarios.KeyAssignStringSteps | main.go:53-116 | the scans of `key = "value"` before the string: BARE_KEY "key", WHITESPACE, ASSIGNMENT, WHITESPACE, each with its cursor |
| Scenarios.KeyAssignStringValue | main.go:118-138 | the string scan of `key = "value"` gives `value` with both quotes consumed and dropped, and EOF follows |
| Scenarios.KeyAssignString | main.go:142-158 | `key = "value"` parses to BARE_KEY, WHITESPACE, ASSIGNMENT, WHITESPACE, STRING, EOF |
| Scenarios.QuotedKeyStopsAtSpace | main.go:128-131 | `"Quoted key"` yields STRING "Quoted", which consumes the space, then BARE_KEY "key" |
| Scenarios.NewlineIsIllegal | main.go:73 | `a\nb` parses to BARE_KEY, ILLEGAL, BARE_KEY, EOF; the newline is an ILLEGAL token |
| Scenarios.EmptyInput | main.go:65-66 | empty input parses to EOF alone |
| Scenarios.NulActsAsEof | main.go:84-85 | a NUL read first by Scan ends Parse; a NUL ending a run is consumed silently and splits the run into two tokens |

## Left out

- The `bufio.Reader`/`io.Reader` plumbing and UTF-8 decoding (main.go:35-37, 40) are library code. The input is an already-decoded `seq<char>`, so invalid UTF-8, which `ReadRune` turns into U+FFFD, is not modelled. A read error other than end of input is not modelled either.
- The error that `UnreadRune` returns is discarded (main.go:50). Instead, `Scanning.Scanner.Unread` requires the state in which it cannot fail: the last operation was a read that returned an input character. It also requires that this character was not the sentinel. Every call site proves both.
- The `bytes.Buffer` internals are not modelled. A lexeme is built by sequence concatenation.
- `main()` (main.go:140) is empty and is not modelled.
- `NewScanner` allocates a reader around any `io.Reader`. The constructor takes the text itself.
