/** The email pattern `^[^\s@]+@[^\s@]+\.[^\s@]+$` that both the login and the registration
    form test, stated twice: by the structure of the regular expression, and as the plain
    conditions a reader checks by eye. The two are proved to agree. */
module EmailPattern {
  import opened Common

  /** A character the class `[^\s@]` admits. */
  predicate PlainChar(c: char) {
    !IsJsWhitespace(c) && c != '@'
  }

  /** A non-empty run of `[^\s@]` covering `s[lo..hi]`. */
  predicate PlainRun(s: string, lo: int, hi: int) {
    0 <= lo < hi <= |s| && forall m :: lo <= m < hi ==> PlainChar(s[m])
  }

  /** `s` splits as run '@' run '.' run, with the '@' at `at` and the '.' at `dot`. */
  predicate SplitsAt(s: string, at: int, dot: int) {
    && 0 <= at < dot < |s|
    && s[at] == '@' && s[dot] == '.'
    && PlainRun(s, 0, at) && PlainRun(s, at + 1, dot) && PlainRun(s, dot + 1, |s|)
  }

  /** The regular expression matches the whole of `s` (the anchors leave no prefix or suffix). */
  ghost predicate MatchesEmailPattern(s: string) {
    exists at, dot :: SplitsAt(s, at, dot)
  }

  /** The same language described directly: no whitespace, exactly one '@', which is not first,
      and after it a '.' that is neither the first nor the last character of the domain part. */
  predicate IsValidEmail(s: string) {
    && (forall m :: 0 <= m < |s| ==> !IsJsWhitespace(s[m]))
    && exists at :: 0 < at < |s| && s[at] == '@'
         && (forall m :: 0 <= m < |s| && m != at ==> s[m] != '@')
         && exists dot :: at + 1 < dot < |s| - 1 && s[dot] == '.'
  }

  /** The regular expression accepts exactly the strings the direct description admits. */
  lemma EmailPatternIsValidEmail(s: string)
    ensures MatchesEmailPattern(s) <==> IsValidEmail(s)
  {
    if MatchesEmailPattern(s) {
      var at, dot :| SplitsAt(s, at, dot);
      forall m | 0 <= m < |s|
        ensures !IsJsWhitespace(s[m]) && (m != at ==> s[m] != '@')
      {
        if m < at {
          assert PlainChar(s[m]);
        } else if at < m < dot {
          assert PlainChar(s[m]);
        } else if dot < m {
          assert PlainChar(s[m]);
        }
      }
      assert at + 1 < dot < |s| - 1;
    }
    if IsValidEmail(s) {
      var at :| 0 < at < |s| && s[at] == '@'
         && (forall m :: 0 <= m < |s| && m != at ==> s[m] != '@')
         && exists dot :: at + 1 < dot < |s| - 1 && s[dot] == '.';
      var dot :| at + 1 < dot < |s| - 1 && s[dot] == '.';
      assert SplitsAt(s, at, dot);
    }
  }

  /** Two samples of the pattern's edges: a single-letter address passes, a dot right after '@' fails. */
  lemma EmailPatternSamples()
    ensures IsValidEmail("a@b.c")
    ensures !IsValidEmail("a@.bc")
    ensures !IsValidEmail("a@b@c.d")
  {
    var s := "a@b.c";
    assert s[1] == '@' && s[3] == '.';
    var t := "a@.bc";
    assert t[1] == '@';
    var u := "a@b@c.d";
    assert u[1] == '@' && u[3] == '@';
  }
}
