/** What one call of Scan computes (main.go:53-138) and what Parse collects
    (main.go:142-158), stated as functions of the input text and the cursor
    position. The imperative scanner in module Scanning is proved to agree
    with these functions. */
module Lexer {
  import opened Chars

  /** The token kinds of main.go:9-25, in declaration order. */
  datatype Token = Illegal | Eof | Whitespace | BareKey | DottedKey | String | Assignment

  /** The integer each kind stands for: the constants are numbered from 0
      in declaration order, and Parse's loop compares against EOF's, 1. */
  function Code(t: Token): (n: nat)
    ensures n < 7
    ensures n == 1 <==> t == Eof
  {
    match t
    case Illegal => 0
    case Eof => 1
    case Whitespace => 2
    case BareKey => 3
    case DottedKey => 4
    case String => 5
    case Assignment => 6
  }

  /** No two kinds share a code. */
  lemma CodeInjective(t: Token, u: Token)
    ensures Code(t) == Code(u) ==> t == u
  {
  }

  /** The outcome of one Scan: the token, its lexeme, and where the cursor
      is afterwards. */
  datatype Scanned = Scanned(kind: Token, lexeme: string, next: nat)

  /** s[i..e] is a maximal run of the class `inClass` starting at i: every
      character in it belongs to the class and the character after it, if
      there is one, does not. */
  ghost predicate MaximalRun(s: seq<char>, i: nat, e: nat, inClass: char -> bool) {
    i <= e <= |s| &&
    (forall k :: i <= k < e ==> inClass(s[k])) &&
    (e == |s| || !inClass(s[e]))
  }

  /** The end of the longest run of `inClass` characters starting at i. */
  function RunEnd(s: seq<char>, i: nat, inClass: char -> bool): (e: nat)
    requires i <= |s|
    ensures MaximalRun(s, i, e, inClass)
    decreases |s| - i
  {
    if i < |s| && inClass(s[i]) then RunEnd(s, i + 1, inClass) else i
  }

  /** A maximal run is unique: RunEnd finds the only one. */
  lemma MaximalRunUnique(s: seq<char>, i: nat, e: nat, inClass: char -> bool)
    requires MaximalRun(s, i, e, inClass)
    ensures e == RunEnd(s, i, inClass)
  {
  }

  /** Where the cursor stands after a run loop stopped at e: the loop pushes
      back the character that ended the run, unless it read the sentinel,
      which is a NUL in the input (consumed) or the end of the input. */
  function AfterRun(s: seq<char>, e: nat): (q: nat)
    requires e <= |s|
    ensures q <= |s|
    ensures q == e || (q == e + 1 && s[e] == EofRune)
  {
    if e < |s| && s[e] == EofRune then e + 1 else e
  }

  /** One call of Scan at cursor p (main.go:53-74). */
  function Step(s: seq<char>, p: nat): (r: Scanned)
    requires p <= |s|
    ensures r.next <= |s|
    ensures r.kind != Eof ==> p < r.next
    ensures r.kind == Eof ==> r.lexeme == [] && (r.next == p <==> p == |s|)
  {
    if p == |s| then Scanned(Eof, "", p)
    else
      var c := s[p];
      if IsWhitespace(c) then
        var e := RunEnd(s, p, IsWhitespace);
        Scanned(Whitespace, s[p..e], AfterRun(s, e))
      else if IsBareKeyLetter(c) then
        var e := RunEnd(s, p, IsBareKeyLetter);
        Scanned(BareKey, s[p..e], AfterRun(s, e))
      else if c == EofRune then Scanned(Eof, "", p + 1)
      else if c == '"' then
        var e := RunEnd(s, p + 1, IsBareKeyLetter);
        Scanned(String, s[p + 1..e], if e < |s| then e + 1 else e)
      else if c == '=' then Scanned(Assignment, "=", p + 1)
      else Scanned(Illegal, [c], p + 1)
  }

  /** The token kinds Parse collects from cursor p: every token up to and
      including the first Eof (main.go:142-158). */
  function Tokenize(s: seq<char>, p: nat): (ts: seq<Token>)
    requires p <= |s|
    ensures 0 < |ts| && ts[|ts| - 1] == Eof
    decreases |s| - p
  {
    var r := Step(s, p);
    if r.kind == Eof then [Eof] else [r.kind] + Tokenize(s, r.next)
  }

  /** One step of Parse against Tokenize: the kind Scan returns at p heads
      the list, and unless it is EOF the rest is the list from the cursor
      Scan leaves. */
  lemma ParseStep(s: seq<char>, p: nat, r: Scanned, rest: seq<Token>)
    requires p <= |s| && r == Step(s, p) && rest == Tokenize(s, p)
    ensures 0 < |rest| && rest[0] == r.kind
    ensures r.kind == Eof ==> rest == [Eof]
    ensures r.kind != Eof ==> p < r.next && rest == [r.kind] + rest[1..] && rest[1..] == Tokenize(s, r.next)
  {
  }

  /** The lexemes of the tokens Tokenize collects, concatenated. */
  function Lexemes(s: seq<char>, p: nat): string
    requires p <= |s|
    decreases |s| - p
  {
    var r := Step(s, p);
    if r.kind == Eof then "" else r.lexeme + Lexemes(s, r.next)
  }

  /** Which token Scan returns is decided by the first unread character
      alone, in both directions, and DottedKey is never returned. */
  lemma StepKind(s: seq<char>, p: nat)
    requires p <= |s|
    ensures Step(s, p).kind == Eof <==> p == |s| || s[p] == EofRune
    ensures Step(s, p).kind == Whitespace <==> p < |s| && IsWhitespace(s[p])
    ensures Step(s, p).kind == BareKey <==> p < |s| && IsBareKeyLetter(s[p])
    ensures Step(s, p).kind == String <==> p < |s| && s[p] == '"'
    ensures Step(s, p).kind == Assignment <==> p < |s| && s[p] == '='
    ensures Step(s, p).kind == Illegal <==>
      p < |s| && !IsWhitespace(s[p]) && !IsBareKeyLetter(s[p]) &&
      s[p] !in {EofRune, '"', '='}
    ensures Step(s, p).kind != DottedKey
  {
  }

  /** A WHITESPACE token is a non-empty maximal run of spaces and tabs, its
      lexeme is exactly that span of the input, and the cursor stops right
      after it (or after the NUL that ended it). */
  lemma WhitespaceToken(s: seq<char>, p: nat)
    requires p < |s| && IsWhitespace(s[p])
    ensures var r := Step(s, p);
      var e := p + |r.lexeme|;
      r.kind == Whitespace && r.lexeme != [] &&
      MaximalRun(s, p, e, IsWhitespace) &&
      r.lexeme == s[p..e] && r.next == AfterRun(s, e)
  {
  }

  /** A BARE_KEY token is a non-empty maximal run of key letters, its
      lexeme is exactly that span, and the cursor stops right after it (or
      after the NUL that ended it). */
  lemma BareKeyToken(s: seq<char>, p: nat)
    requires p < |s| && IsBareKeyLetter(s[p])
    ensures var r := Step(s, p);
      var e := p + |r.lexeme|;
      r.kind == BareKey && r.lexeme != [] &&
      MaximalRun(s, p, e, IsBareKeyLetter) &&
      r.lexeme == s[p..e] && r.next == AfterRun(s, e)
  {
  }

  /** A STRING token: the opening quote is dropped, the lexeme is the
      maximal run of key letters after it, and the character that ends the
      run -- the closing quote, a space, a NUL or anything else that is not
      a key letter -- is consumed and dropped too. At end of input the run
      is returned as it is. */
  lemma StringToken(s: seq<char>, p: nat)
    requires p < |s| && s[p] == '"'
    ensures var r := Step(s, p);
      var e := p + 1 + |r.lexeme|;
      r.kind == String &&
      MaximalRun(s, p + 1, e, IsBareKeyLetter) &&
      r.lexeme == s[p + 1..e] &&
      r.next == (if e < |s| then e + 1 else e)
  {
  }

  /** At the true end of input Scan returns (EOF, "") and leaves the cursor
      where it is, so every later Scan returns (EOF, "") again. */
  lemma {:induction false} EofIsStable(s: seq<char>, n: nat)
    ensures Iterate(s, |s|, n) == |s|
    ensures Step(s, Iterate(s, |s|, n)) == Scanned(Eof, "", |s|)
  {
    if n > 0 {
      EofIsStable(s, n - 1);
    }
  }

  /** The cursor after n further calls of Scan from cursor p. */
  function Iterate(s: seq<char>, p: nat, n: nat): (q: nat)
    requires p <= |s|
    ensures q <= |s|
    decreases n
  {
    if n == 0 then p else Iterate(s, Step(s, p).next, n - 1)
  }

  /** Parse's result ends with EOF, holds it nowhere else, and holds no
      more tokens than there are characters left, plus one. */
  lemma {:induction false} TokenizeEndsWithSingleEof(s: seq<char>, p: nat)
    requires p <= |s|
    ensures var ts := Tokenize(s, p);
      0 < |ts| <= |s| - p + 1 && ts[|ts| - 1] == Eof &&
      forall i :: 0 <= i < |ts| - 1 ==> ts[i] != Eof
    decreases |s| - p
  {
    var r := Step(s, p);
    if r.kind != Eof {
      TokenizeEndsWithSingleEof(s, r.next);
    }
  }

  /** No input makes Parse report a DOTTED_KEY. */
  lemma {:induction false} TokenizeHasNoDottedKey(s: seq<char>, p: nat)
    requires p <= |s|
    ensures DottedKey !in Tokenize(s, p)
    decreases |s| - p
  {
    StepKind(s, p);
    var r := Step(s, p);
    if r.kind != Eof {
      TokenizeHasNoDottedKey(s, r.next);
    }
  }

  /** When the input holds no '"' and no NUL, nothing is dropped and nothing
      is duplicated: the lexemes, concatenated, give back the input. */
  lemma {:induction false} LexemesCoverInput(s: seq<char>, p: nat)
    requires p <= |s|
    requires forall k :: p <= k < |s| ==> s[k] != '"' && s[k] != EofRune
    ensures Lexemes(s, p) == s[p..]
    decreases |s| - p
  {
    var r := Step(s, p);
    if p < |s| {
      assert r.lexeme == s[p..r.next] by {
        var c := s[p];
        if IsWhitespace(c) {
          WhitespaceToken(s, p);
        } else if IsBareKeyLetter(c) {
          BareKeyToken(s, p);
        }
      }
      LexemesCoverInput(s, r.next);
      assert s[p..] == s[p..r.next] + s[r.next..];
    }
  }
}
