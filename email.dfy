/** The e-mail check that four of the scripts carry as the same regular
    expression, `^[^\s@]+@[^\s@]+\.[^\s@]+$` (checkout, contact form,
    newsletter, hero newsletter form). It is defined once here: the regular
    expression's own meaning as a ghost predicate, and the executable test
    written as the plain-words rule, proved to agree with it. */
module Email {
  import opened Text

  /** A character of the class `[^\s@]`. */
  predicate EmailChar(c: char) {
    !IsSpace(c) && c != '@'
  }

  /** What the regular expression matches: the whole string splits as
      `local @ d1 . d2`, three non-empty runs of `[^\s@]` around a literal
      `@` at `at` and a literal `.` at `dot`. As the `.` is itself in
      `[^\s@]`, every character except the `@` is in that class. */
  ghost predicate RegexMatchAt(s: string, at: int, dot: int) {
    && 0 < at && at + 1 < dot < |s| - 1
    && s[at] == '@' && s[dot] == '.'
    && forall i :: 0 <= i < |s| && i != at ==> EmailChar(s[i])
  }

  ghost predicate RegexMatch(s: string) {
    exists at, dot :: RegexMatchAt(s, at, dot)
  }

  /** The test as a rule in words: no whitespace; exactly one `@`, not the
      first character; and the domain after it holds a `.` that is neither
      its first nor its last character. */
  predicate IsValidEmail(s: string) {
    && NoSpace(s)
    && '@' in s
    && var at := IndexOfChar(s, '@');
       && at > 0
       && '@' !in s[at + 1..]
       && at + 2 < |s|
       && '.' in s[at + 2..|s| - 1]
  }

  /** The rule and the regular expression accept exactly the same strings. */
  lemma {:induction false} EmailRuleMatchesRegex(s: string)
    ensures IsValidEmail(s) <==> RegexMatch(s)
  {
    if IsValidEmail(s) {
      var at := IndexOfChar(s, '@');
      var j :| 0 <= j < |s[at + 2..|s| - 1]| && s[at + 2..|s| - 1][j] == '.';
      var dot := at + 2 + j;
      forall i | 0 <= i < |s| && i != at ensures EmailChar(s[i]) {
        if i < at {
          assert s[..at][i] == s[i];
        } else {
          assert s[at + 1..][i - at - 1] == s[i];
        }
      }
      assert RegexMatchAt(s, at, dot);
    }
    if RegexMatch(s) {
      var at, dot :| RegexMatchAt(s, at, dot);
      assert s[at] == '@';
      var first := IndexOfChar(s, '@');
      assert first == at;
      var rest := s[at + 1..];
      assert '@' !in rest by {
        forall i | 0 <= i < |rest| ensures rest[i] != '@' {
          assert EmailChar(s[at + 1 + i]);
        }
      }
      assert s[at + 2..|s| - 1][dot - at - 2] == '.';
    }
  }
}
