/** Character classes of the TOML scanner (main.go:160-178) and the
    end-of-input sentinel (main.go:27). */
module Chars {

  /** The rune the reader returns once the input is exhausted: rune 0.
      A NUL character in the input is indistinguishable from it. */
  const EofRune: char := '\0'

  /** The n consecutive characters starting at lo, listed out. */
  function CharRange(lo: char, n: nat): (a: seq<char>)
    requires lo as int + n <= 0xD800
    ensures |a| == n
  {
    seq(n, i requires 0 <= i < n => (lo as int + i) as char)
  }

  /** CharRange(lo, n) holds exactly the characters from lo below lo + n. */
  lemma InCharRange(lo: char, n: nat, c: char)
    requires lo as int + n <= 0xD800
    ensures c in CharRange(lo, n) <==> lo <= c && c as int < lo as int + n
  {
    var a := CharRange(lo, n);
    if lo <= c && c as int < lo as int + n {
      assert a[c as int - lo as int] == c;
    }
  }

  /** The 52 ASCII letters, upper case then lower case. */
  function Letters(): seq<char> {
    CharRange('A', 26) + CharRange('a', 26)
  }

  /** The ten decimal digits. */
  function Digits(): seq<char> {
    CharRange('0', 10)
  }

  /** The bare-key charset of TOML v1.0.0 ("Keys"), listed out: the
      letters, the digits, then '-' and '_'. */
  function KeyAlphabet(): (a: seq<char>)
    ensures |a| == 64
  {
    Letters() + Digits() + ['-', '_']
  }

  /** Space and tab only: whitespace never contains a line break, the
      sentinel or a key letter. */
  predicate IsWhitespace(c: char): (r: bool)
    ensures r ==> c != '\n' && c != '\r' && c != EofRune && !IsBareKeyLetter(c)
  {
    c == ' ' || c == '\t'
  }

  /** Exactly the 52 ASCII letters. */
  predicate IsLetter(c: char): (r: bool)
    ensures r <==> c in Letters()
  {
    InCharRange('A', 26, c);
    InCharRange('a', 26, c);
    ('a' <= c <= 'z') || ('A' <= c <= 'Z')
  }

  /** Exactly the ten decimal digits. */
  predicate IsDigit(c: char): (r: bool)
    ensures r <==> c in Digits()
  {
    InCharRange('0', 10, c);
    '0' <= c <= '9'
  }

  /** '-' and '_', which are neither letters nor digits. */
  predicate IsDashOrUnderscore(c: char): (r: bool)
    ensures r ==> !IsLetter(c) && !IsDigit(c)
  {
    c == '-' || c == '_'
  }

  /** A character is a bare-key letter exactly when it is one of the 64
      characters of the TOML bare-key charset; the sentinel and the two
      characters Scan matches exactly ('"' and '=') are not. */
  predicate IsBareKeyLetter(c: char): (r: bool)
    ensures r <==> c in KeyAlphabet()
    ensures r ==> c != EofRune && c != '"' && c != '='
  {
    IsLetter(c) || IsDigit(c) || IsDashOrUnderscore(c)
  }

  /** The classes Scan dispatches on do not overlap: no character is both
      whitespace and a key letter, and neither the sentinel nor the
      characters Scan matches exactly ('"' and '=') belongs to a class. */
  lemma ClassesDisjoint(c: char)
    ensures !(IsWhitespace(c) && IsBareKeyLetter(c))
    ensures !IsWhitespace(EofRune) && !IsBareKeyLetter(EofRune)
    ensures !IsWhitespace('"') && !IsBareKeyLetter('"')
    ensures !IsWhitespace('=') && !IsBareKeyLetter('=')
  {
  }
}
