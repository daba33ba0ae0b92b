/** Character classes used by the lexer, and the two scanning notions built on
    them: the end of a maximal run of one class, and the count of newlines. */
module Chars {

  /** The code points with the Unicode White_Space property. */
  const WhiteSpace: set<char> := {
    '\t', '\n', '\U{000B}', '\U{000C}', '\r', ' ', '\U{0085}', '\U{00A0}', '\U{1680}',
    '\U{2000}', '\U{2001}', '\U{2002}', '\U{2003}', '\U{2004}', '\U{2005}',
    '\U{2006}', '\U{2007}', '\U{2008}', '\U{2009}', '\U{200A}',
    '\U{2028}', '\U{2029}', '\U{202F}', '\U{205F}', '\U{3000}'
  }

  /** Rust's `char::is_whitespace`. */
  predicate IsWhitespace(c: char) {
    c in WhiteSpace
  }

  /** Rust's `char::is_digit(10)`: exactly the ASCII digits. */
  predicate IsDigit(c: char) {
    '0' <= c <= '9'
  }

  /** Rust's `char::is_alphabetic`, restricted to the ASCII letters. */
  predicate IsAlphabetic(c: char) {
    ('a' <= c <= 'z') || ('A' <= c <= 'Z')
  }

  /** The three classes the lexer scans maximal runs of. */
  datatype CharClass = Space | Digit | Letter

  predicate InClass(c: char, k: CharClass) {
    match k
    case Space => IsWhitespace(c)
    case Digit => IsDigit(c)
    case Letter => IsAlphabetic(c)
  }

  /** The end of the maximal run of class `k` that starts at `i`: every char
      in `s[i..j]` is of class `k`, and `j` is the end of `s` or a char of
      another class. */
  function RunEnd(s: seq<char>, i: nat, k: CharClass): (j: nat)
    requires i <= |s|
    ensures i <= j <= |s|
    ensures forall m :: i <= m < j ==> InClass(s[m], k)
    ensures j == |s| || !InClass(s[j], k)
    decreases |s| - i
  {
    if i == |s| || !InClass(s[i], k) then i else RunEnd(s, i + 1, k)
  }

  /** A run that starts with a char of its class ends where the run from
      the next char ends. */
  lemma RunEndStep(s: seq<char>, i: nat, k: CharClass)
    requires i < |s| && InClass(s[i], k)
    ensures RunEnd(s, i, k) == RunEnd(s, i + 1, k)
    ensures [s[i]] + s[i + 1..RunEnd(s, i, k)] == s[i..RunEnd(s, i, k)]
  {
  }

  /** The run end is the only index with the two properties above. */
  lemma RunEndUnique(s: seq<char>, i: nat, j: nat, k: CharClass)
    requires i <= j <= |s|
    requires forall m :: i <= m < j ==> InClass(s[m], k)
    requires j == |s| || !InClass(s[j], k)
    ensures RunEnd(s, i, k) == j
  {
  }

  /** The number of newline chars in `t`, counted from its end. */
  function Newlines(t: seq<char>): nat {
    if t == [] then 0
    else Newlines(t[..|t| - 1]) + (if t[|t| - 1] == '\n' then 1 else 0)
  }

  /** `Newlines` is the number of occurrences of the newline char. */
  lemma {:induction false} NewlinesCount(t: seq<char>)
    ensures Newlines(t) == multiset(t)['\n']
  {
    if t != [] {
      NewlinesCount(t[..|t| - 1]);
      assert t == t[..|t| - 1] + [t[|t| - 1]];
    }
  }

  /** The newlines of a stretch of text are those of its two parts. */
  lemma NewlinesSplit(s: seq<char>, i: nat, j: nat, k: nat)
    requires i <= j <= k <= |s|
    ensures Newlines(s[i..k]) == Newlines(s[i..j]) + Newlines(s[j..k])
  {
    assert s[i..k] == s[i..j] + s[j..k];
    NewlinesCount(s[i..k]);
    NewlinesCount(s[i..j]);
    NewlinesCount(s[j..k]);
  }

  /** A stretch of text without a newline char adds no line. */
  lemma NoNewlines(t: seq<char>)
    requires forall i :: 0 <= i < |t| ==> t[i] != '\n'
    ensures Newlines(t) == 0
  {
    NewlinesCount(t);
    assert '\n' !in multiset(t);
  }

  /** One more char adds a line exactly when it is a newline. */
  lemma NewlinesSnoc(t: seq<char>, c: char)
    ensures Newlines(t + [c]) == Newlines(t) + (if c == '\n' then 1 else 0)
  {
    assert (t + [c])[..|t|] == t;
  }
}
