/** Character-level helpers shared by the two forms: JavaScript's notion of
    whitespace, `String.prototype.trim`, and two small string searches. */
module Text {

  /** The code points ECMAScript counts as WhiteSpace or LineTerminator: the
      set the regular-expression class `\s` matches and `trim` removes. */
  predicate IsWhitespace(c: char) {
    || c == '\t' || c == '\n' || c == '\U{000B}' || c == '\U{000C}' || c == '\r' || c == ' '
    || c == '\U{00A0}' || c == '\U{1680}' || ('\U{2000}' <= c <= '\U{200A}')
    || c == '\U{2028}' || c == '\U{2029}' || c == '\U{202F}' || c == '\U{205F}'
    || c == '\U{3000}' || c == '\U{FEFF}'
  }

  /** Every character is whitespace (the empty string included). */
  predicate IsBlank(s: string) {
    forall j :: 0 <= j < |s| ==> IsWhitespace(s[j])
  }

  /** `s.trim()`: strips whitespace from both ends. The result is empty exactly
      when `s` is blank, and otherwise neither starts nor ends with whitespace;
      `TrimIsInfix` shows it is `s` with blank ends cut off. */
  function Trim(s: string): (r: string)
    ensures r == [] <==> IsBlank(s)
    ensures r != [] ==> !IsWhitespace(r[0]) && !IsWhitespace(r[|r| - 1])
    decreases |s|
  {
    if s != [] && IsWhitespace(s[0]) then
      Trim(s[1..])
    else if s != [] && IsWhitespace(s[|s| - 1]) then
      Trim(s[..|s| - 1])
    else
      s
  }

  /** `s[i..j]` is what remains of `s` after cutting off a blank prefix of
      length `i` and a blank suffix from `j` on. */
  ghost predicate BlankEnds(s: string, i: int, j: int) {
    0 <= i <= j <= |s| && IsBlank(s[..i]) && IsBlank(s[j..])
  }

  /** The trimmed string is an infix of `s` whose cut-off ends are blank. */
  lemma {:induction false} TrimIsInfix(s: string)
    ensures exists i, j :: BlankEnds(s, i, j) && Trim(s) == s[i..j]
    decreases |s|
  {
    if s != [] && IsWhitespace(s[0]) {
      TrimIsInfix(s[1..]);
      var i, j :| BlankEnds(s[1..], i, j) && Trim(s[1..]) == s[1..][i..j];
      BlankEndsFirst(s, i, j);
    } else if s != [] && IsWhitespace(s[|s| - 1]) {
      TrimIsInfix(s[..|s| - 1]);
      var i, j :| BlankEnds(s[..|s| - 1], i, j) && Trim(s[..|s| - 1]) == s[..|s| - 1][i..j];
      BlankEndsLast(s, i, j);
    } else {
      assert s[0..|s|] == s;
      assert BlankEnds(s, 0, |s|);
    }
  }

  /** A blank first character widens the cut-off prefix by one. */
  lemma BlankEndsFirst(s: string, i: int, j: int)
    requires s != [] && IsWhitespace(s[0]) && BlankEnds(s[1..], i, j)
    ensures BlankEnds(s, i + 1, j + 1) && s[i + 1..j + 1] == s[1..][i..j]
  {
    var t, prefix, suffix := s[1..], s[..i + 1], s[j + 1..];
    forall k | 0 <= k < |prefix| ensures IsWhitespace(prefix[k]) {
      if k > 0 {
        assert prefix[k] == t[..i][k - 1];
      }
    }
    forall k | 0 <= k < |suffix| ensures IsWhitespace(suffix[k]) {
      assert suffix[k] == t[j..][k];
    }
  }

  /** A blank last character widens the cut-off suffix by one. */
  lemma BlankEndsLast(s: string, i: int, j: int)
    requires s != [] && IsWhitespace(s[|s| - 1]) && BlankEnds(s[..|s| - 1], i, j)
    ensures BlankEnds(s, i, j) && s[i..j] == s[..|s| - 1][i..j]
  {
    var t := s[..|s| - 1];
    forall k | 0 <= k < i ensures IsWhitespace(s[..i][k]) {
      assert s[..i][k] == t[..i][k];
    }
    forall k | 0 <= k < |s| - j ensures IsWhitespace(s[j..][k]) {
      if k < |s| - j - 1 {
        assert s[j..][k] == t[j..][k];
      }
    }
  }

  /** Number of occurrences of `c` in `s`. */
  function Count(s: string, c: char): nat {
    if s == [] then 0 else (if s[0] == c then 1 else 0) + Count(s[1..], c)
  }

  /** Index of the first `c` in `s`, or `|s|` when there is none. */
  function IndexOf(s: string, c: char): (i: nat)
    ensures i <= |s|
    ensures i < |s| ==> s[i] == c
    ensures forall j :: 0 <= j < i ==> s[j] != c
  {
    if s == [] then 0 else if s[0] == c then 0 else 1 + IndexOf(s[1..], c)
  }

  lemma {:induction false} CountZero(s: string, c: char)
    ensures Count(s, c) == 0 <==> forall j :: 0 <= j < |s| ==> s[j] != c
  {
    if s != [] {
      CountZero(s[1..], c);
      assert forall j :: 1 <= j < |s| ==> s[j] == s[1..][j - 1];
    }
  }

  /** `c` occurs exactly once in `s` iff position `k`, which holds `c`, is its only occurrence. */
  lemma {:induction false} CountOne(s: string, c: char, k: nat)
    requires k < |s| && s[k] == c
    ensures Count(s, c) == 1 <==> forall j :: 0 <= j < |s| && j != k ==> s[j] != c
  {
    assert forall j :: 1 <= j < |s| ==> s[j] == s[1..][j - 1];
    if k == 0 {
      CountZero(s[1..], c);
    } else {
      CountOne(s[1..], c, k - 1);
      if s[0] == c {
        CountZero(s[1..], c);
        assert s[1..][k - 1] == c;
      }
    }
  }
}
