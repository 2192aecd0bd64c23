/** Concrete inputs worked through the model of main.go. */
module Scenarios {
  import opened Chars
  import opened Lexer

  /** The scans over `key = "value"` before the string. */
  lemma KeyAssignStringSteps(s: string)
    requires s == "key = \"value\""
    ensures Step(s, 0) == Scanned(BareKey, "key", 3)
    ensures Step(s, 3) == Scanned(Whitespace, " ", 4)
    ensures Step(s, 4) == Scanned(Assignment, "=", 5)
    ensures Step(s, 5) == Scanned(Whitespace, " ", 6)
  {
    MaximalRunUnique(s, 0, 3, IsBareKeyLetter);
    MaximalRunUnique(s, 3, 4, IsWhitespace);
    MaximalRunUnique(s, 5, 6, IsWhitespace);
  }

  /** The string scan over `key = "value"`: both quotes are consumed and
      dropped, and the input is exhausted after it. */
  lemma KeyAssignStringValue(s: string)
    requires s == "key = \"value\""
    ensures Step(s, 6) == Scanned(String, "value", 13)
    ensures Step(s, 13) == Scanned(Eof, "", 13)
  {
    MaximalRunUnique(s, 7, 12, IsBareKeyLetter);
  }

  /** `key = "value"` scans as a key, whitespace, '=', whitespace and the
      string `value` with its quotes dropped, then EOF. */
  lemma KeyAssignString(s: string)
    requires s == "key = \"value\""
    ensures Tokenize(s, 0) == [BareKey, Whitespace, Assignment, Whitespace, String, Eof]
  {
    KeyAssignStringSteps(s);
    KeyAssignStringValue(s);
    assert Tokenize(s, 13) == [Eof];
    assert Tokenize(s, 6) == [String, Eof];
    assert Tokenize(s, 5) == [Whitespace, String, Eof];
    assert Tokenize(s, 4) == [Assignment, Whitespace, String, Eof];
    assert Tokenize(s, 3) == [Whitespace, Assignment, Whitespace, String, Eof];
  }

  /** A quoted key with a space in it is not one string: the string stops
      at the space, which it consumes, and `key` follows as a bare key. */
  lemma QuotedKeyStopsAtSpace(s: string)
    requires s == "\"Quoted key\" = 1"
    ensures Step(s, 0) == Scanned(String, "Quoted", 8)
    ensures Step(s, 8) == Scanned(BareKey, "key", 11)
  {
    assert RunEnd(s, 1, IsBareKeyLetter) == 7 by { MaximalRunUnique(s, 1, 7, IsBareKeyLetter); }
    assert RunEnd(s, 8, IsBareKeyLetter) == 11 by { MaximalRunUnique(s, 8, 11, IsBareKeyLetter); }
  }

  /** A newline is not whitespace: it comes out as an ILLEGAL token. */
  lemma NewlineIsIllegal(s: string)
    requires s == "a\nb"
    ensures Tokenize(s, 0) == [BareKey, Illegal, BareKey, Eof]
    ensures Step(s, 1) == Scanned(Illegal, "\n", 2)
  {
    assert RunEnd(s, 0, IsBareKeyLetter) == 1 by { MaximalRunUnique(s, 0, 1, IsBareKeyLetter); }
    assert RunEnd(s, 2, IsBareKeyLetter) == 3 by { MaximalRunUnique(s, 2, 3, IsBareKeyLetter); }
    assert Step(s, 2) == Scanned(BareKey, "b", 3);
    assert Tokenize(s, 3) == [Eof];
    assert Tokenize(s, 2) == [BareKey, Eof];
  }

  /** Empty input gives EOF alone. */
  lemma EmptyInput()
    ensures Tokenize("", 0) == [Eof]
  {
  }

  /** A NUL in the input reads as the end-of-input sentinel. When it is
      the first character a Scan reads, the result is EOF and Parse stops
      there; when it ends a run, the run's loop consumes it silently and
      scanning goes on after it, so the run on its other side becomes a
      separate token. */
  lemma NulActsAsEof(a: string, s: string, w: string)
    requires a == "=\0b" && s == "a\0b" && w == " \0 "
    ensures Tokenize(a, 0) == [Assignment, Eof]
    ensures Tokenize(s, 0) == [BareKey, BareKey, Eof]
    ensures Step(w, 0) == Scanned(Whitespace, " ", 2)
    ensures Step(w, 2) == Scanned(Whitespace, " ", 3)
  {
    assert Step(a, 1) == Scanned(Eof, "", 2);
    assert Tokenize(a, 1) == [Eof];
    assert RunEnd(s, 0, IsBareKeyLetter) == 1 by { MaximalRunUnique(s, 0, 1, IsBareKeyLetter); }
    assert RunEnd(s, 2, IsBareKeyLetter) == 3 by { MaximalRunUnique(s, 2, 3, IsBareKeyLetter); }
    assert Step(s, 2) == Scanned(BareKey, "b", 3);
    assert Tokenize(s, 3) == [Eof];
    assert Tokenize(s, 2) == [BareKey, Eof];
    assert RunEnd(w, 0, IsWhitespace) == 1 by { MaximalRunUnique(w, 0, 1, IsWhitespace); }
    assert RunEnd(w, 2, IsWhitespace) == 3 by { MaximalRunUnique(w, 2, 3, IsWhitespace); }
  }
}
