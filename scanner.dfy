/** The scanner object of main.go:29-138 and the Parse driver of
    main.go:142-158. The buffered reader is modelled as the decoded input
    text with a cursor; each method is proved to do what the functions of
    module Lexer describe. */
module Scanning {
  import opened Chars
  import opened Lexer

  class Scanner {
    /** The decoded input text. */
    const input: seq<char>
    /** The reader's cursor: the index of the next character to read. */
    var pos: nat
    /** Whether the last reader operation was a read that returned a
        character of the input, the only state in which the reader can
        step back. */
    ghost var canUnread: bool
    /** The character the last read returned. */
    ghost var lastRead: char

    ghost predicate Valid()
      reads this
    {
      pos <= |input| && (canUnread ==> 0 < pos && lastRead == input[pos - 1])
    }

    /** NewScanner (main.go:35-37): a scanner at the start of `text`. */
    constructor (text: string)
      ensures Valid()
      ensures input == text && pos == 0 && !canUnread
    {
      input := text;
      pos := 0;
      canUnread := false;
      lastRead := EofRune;
    }

    /** read (main.go:39-47): the next character, or the sentinel once the
        input is exhausted; only a character of the input moves the cursor. */
    method Read() returns (c: char)
      requires Valid()
      modifies this
      ensures Valid()
      ensures old(pos) < |input| ==> c == input[old(pos)] && pos == old(pos) + 1 && canUnread
      ensures old(pos) == |input| ==> c == EofRune && pos == old(pos) && !canUnread
      ensures lastRead == c
    {
      if pos < |input| {
        c := input[pos];
        pos := pos + 1;
        canUnread := true;
      } else {
        c := EofRune;
        canUnread := false;
      }
      lastRead := c;
    }

    /** unread (main.go:49-51): steps back over the character just read.
        Allowed only right after a read that returned a character of the
        input other than the sentinel, and never twice in a row: one
        character of pushback. */
    method Unread()
      requires Valid() && canUnread && lastRead != EofRune
      modifies this
      ensures Valid()
      ensures pos == old(pos) - 1 && !canUnread
    {
      pos := pos - 1;
      canUnread := false;
    }

    /** The loop shared by scanWhiteSpace (main.go:76-95) and scanBareKey
        (main.go:97-116): the first character is taken unconditionally,
        then characters of the class are appended until the sentinel (not
        pushed back) or a character outside the class (pushed back). */
    method ScanRun(inClass: char -> bool) returns (lexeme: string)
      requires Valid() && pos < |input| && inClass(input[pos])
      requires !inClass(EofRune)
      modifies this
      ensures Valid()
      ensures var e := RunEnd(input, old(pos), inClass);
        lexeme == input[old(pos)..e] && pos == AfterRun(input, e)
    {
      ghost var start, e := pos, RunEnd(input, pos, inClass);
      var c := Read();
      lexeme := [c];
      while true
        invariant Valid() && start < pos <= e
        invariant lexeme == input[start..pos]
        invariant RunEnd(input, pos, inClass) == e
        decreases |input| - pos
      {
        c := Read();
        if c == EofRune {
          break;
        } else if !inClass(c) {
          Unread();
          break;
        } else {
          lexeme := lexeme + [c];
        }
      }
    }

    /** scanWhiteSpace (main.go:76-95), entered with the cursor on the first
        space or tab. */
    method ScanWhiteSpace() returns (kind: Token, lexeme: string)
      requires Valid() && pos < |input| && IsWhitespace(input[pos])
      modifies this
      ensures Valid()
      ensures var e := RunEnd(input, old(pos), IsWhitespace);
        kind == Whitespace && lexeme == input[old(pos)..e] && pos == AfterRun(input, e)
    {
      lexeme := ScanRun(IsWhitespace);
      kind := Whitespace;
    }

    /** scanBareKey (main.go:97-116), entered with the cursor on the first
        key letter. */
    method ScanBareKey() returns (kind: Token, lexeme: string)
      requires Valid() && pos < |input| && IsBareKeyLetter(input[pos])
      modifies this
      ensures Valid()
      ensures var e := RunEnd(input, old(pos), IsBareKeyLetter);
        kind == BareKey && lexeme == input[old(pos)..e] && pos == AfterRun(input, e)
    {
      lexeme := ScanRun(IsBareKeyLetter);
      kind := BareKey;
    }

    /** scanString (main.go:118-138), entered after the opening quote:
        appends key letters and stops at the first other character, which
        is consumed and not pushed back. */
    method ScanString() returns (lexeme: string)
      requires Valid()
      modifies this
      ensures Valid()
      ensures var e := RunEnd(input, old(pos), IsBareKeyLetter);
        lexeme == input[old(pos)..e] && pos == (if e < |input| then e + 1 else e)
    {
      ghost var start, e := pos, RunEnd(input, pos, IsBareKeyLetter);
      lexeme := [];
      while true
        invariant Valid() && start <= pos <= e
        invariant lexeme == input[start..pos]
        invariant RunEnd(input, pos, IsBareKeyLetter) == e
        decreases |input| - pos
      {
        var c := Read();
        if c == EofRune {
          break;
        } else if c == '"' {
          break;
        } else if !IsBareKeyLetter(c) {
          break;
        } else {
          lexeme := lexeme + [c];
        }
      }
    }

    /** Scan (main.go:53-74): one token per call, as Step describes. */
    method Scan() returns (kind: Token, lexeme: string)
      requires Valid()
      modifies this
      ensures Valid()
      ensures Scanned(kind, lexeme, pos) == Step(input, old(pos))
    {
      var c := Read();
      if IsWhitespace(c) {
        Unread();
        kind, lexeme := ScanWhiteSpace();
      } else if IsBareKeyLetter(c) {
        Unread();
        kind, lexeme := ScanBareKey();
      } else if c == EofRune {
        kind, lexeme := Eof, "";
      } else if c == '"' {
        lexeme := ScanString();
        kind := String;
      } else if c == '=' {
        kind, lexeme := Assignment, "=";
      } else {
        kind, lexeme := Illegal, [c];
      }
    }
  }

  /** Parse (main.go:142-158): scans `toml` to its first EOF and returns
      the token kinds, which end with that EOF and hold no other. */
  method Parse(toml: string) returns (tokens: seq<Token>)
    ensures tokens == Tokenize(toml, 0)
    ensures 0 < |tokens| && tokens[|tokens| - 1] == Eof
    ensures forall i :: 0 <= i < |tokens| - 1 ==> tokens[i] != Eof
  {
    tokens := [];
    var scanner := new Scanner(toml);
    ghost var rest := Tokenize(toml, 0);
    while true
      invariant scanner.Valid() && scanner.input == toml
      invariant rest == Tokenize(toml, scanner.pos)
      invariant tokens + rest == Tokenize(toml, 0)
      decreases |toml| - scanner.pos
    {
      ghost var at := scanner.pos;
      var token, lexeme := scanner.Scan();
      ParseStep(toml, at, Scanned(token, lexeme, scanner.pos), rest);
      tokens := tokens + [token];
      if token == Eof {
        break;
      }
      rest := rest[1..];
    }
    TokenizeEndsWithSingleEof(toml, 0);
  }
}
