/** The e-mail check both forms share: the anchored regular expression
    `^[^\s@]+@[^\s@]+\.[^\s@]+$`, read once as the language it accepts and
    once as a direct check, and proved to agree. */
module Email {
  import opened Text

  /** A character of the class `[^\s@]`. */
  predicate AtomChar(c: char) {
    !IsWhitespace(c) && c != '@'
  }

  /** A string matched by `[^\s@]+`. */
  predicate IsAtom(t: string) {
    t != [] && forall j :: 0 <= j < |t| ==> AtomChar(t[j])
  }

  /** The language of the regular expression: `s` splits, at an '@' at `k` and a
      '.' at `p`, into three runs of `[^\s@]+`. The middle run may itself hold
      dots, which is how backtracking lets the pattern pick any later dot. */
  ghost predicate MatchesEmailPattern(s: string) {
    exists k, p ::
      && 0 <= k < p < |s| && s[k] == '@' && s[p] == '.'
      && IsAtom(s[..k]) && IsAtom(s[k + 1..p]) && IsAtom(s[p + 1..])
  }

  /** Direct check: no whitespace, exactly one '@', something before it, and a
      '.' in the domain part that is neither its first nor its last character. */
  predicate ValidEmail(s: string) {
    && (forall j :: 0 <= j < |s| ==> !IsWhitespace(s[j]))
    && Count(s, '@') == 1
    && var k := IndexOf(s, '@');
       0 < k && exists p :: k + 1 < p < |s| - 1 && s[p] == '.'
  }

  /** The direct check accepts exactly the strings the regular expression matches. */
  lemma ValidEmailIffPattern(s: string)
    ensures ValidEmail(s) <==> MatchesEmailPattern(s)
  {
    if ValidEmail(s) {
      ValidEmailMatches(s);
    }
    if MatchesEmailPattern(s) {
      MatchIsValidEmail(s);
    }
  }

  /** A string the direct check accepts splits as the regular expression requires. */
  lemma ValidEmailMatches(s: string)
    requires ValidEmail(s)
    ensures MatchesEmailPattern(s)
  {
    var k := IndexOf(s, '@');
    var p :| k + 1 < p < |s| - 1 && s[p] == '.';
    CountOne(s, '@', k);
    assert IsAtom(s[..k]);
    var domain, top := s[k + 1..p], s[p + 1..];
    forall j | 0 <= j < |domain| ensures AtomChar(domain[j]) {
      assert domain[j] == s[k + 1 + j];
    }
    forall j | 0 <= j < |top| ensures AtomChar(top[j]) {
      assert top[j] == s[p + 1 + j];
    }
  }

  /** A string the regular expression matches passes the direct check. */
  lemma MatchIsValidEmail(s: string)
    requires MatchesEmailPattern(s)
    ensures ValidEmail(s)
  {
    var k, p :| && 0 <= k < p < |s| && s[k] == '@' && s[p] == '.'
                && IsAtom(s[..k]) && IsAtom(s[k + 1..p]) && IsAtom(s[p + 1..]);
    PatternChars(s, k, p);
    CountOne(s, '@', k);
    assert IndexOf(s, '@') == k;
  }

  /** Outside the '@' at `k`, every character of a match is of the class `[^\s@]`. */
  lemma PatternChars(s: string, k: nat, p: nat)
    requires k < p < |s| && s[p] == '.'
    requires IsAtom(s[..k]) && IsAtom(s[k + 1..p]) && IsAtom(s[p + 1..])
    ensures forall j :: 0 <= j < |s| && j != k ==> AtomChar(s[j])
  {
    forall j | 0 <= j < |s| && j != k ensures AtomChar(s[j]) {
      if j < k {
        assert s[j] == s[..k][j];
      } else if j < p {
        assert s[j] == s[k + 1..p][j - k - 1];
      } else if p < j {
        assert s[j] == s[p + 1..][j - p - 1];
      }
    }
  }
}
