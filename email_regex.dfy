/**
 * The e-mail pattern `^[^\s@]+@[^\s@]+\.[^\s@]+$`, which both the registration page and the
 * registration endpoint test against.
 */
module EmailRegex {
  import opened Js

  /** A character the class `[^\s@]` accepts. */
  predicate Plain(c: char) {
    !IsSpace(c) && c != '@'
  }

  /** Every character of `s` except the one at `at` is accepted by `[^\s@]`. */
  predicate PlainExcept(s: string, at: int) {
    forall k :: 0 <= k < |s| && k != at ==> Plain(s[k])
  }

  /**
   * What the pattern matches, read position by position: an `@` at index `at` and a `.` at index
   * `dot`, with non-empty runs before the `@`, between the `@` and the `.`, and after the `.`, and
   * every character other than the `@` accepted by `[^\s@]` (the `.` itself is).
   */
  ghost predicate Matches(s: string) {
    exists at, dot :: 0 < at && at + 1 < dot < |s| - 1 && s[at] == '@' && s[dot] == '.' && PlainExcept(s, at)
  }

  /** The domain part has a `.` that is neither its first nor its last character. */
  predicate HasInnerDot(domain: string) {
    exists j :: 0 < j < |domain| - 1 && domain[j] == '.'
  }

  /**
   * `emailRegex.test(s)`, decided the way the pattern reads: exactly one `@` and no whitespace,
   * a non-empty local part, and a domain with an inner `.`.
   */
  function Test(s: string): (ok: bool)
    ensures ok <==> Matches(s)
  {
    var at := IndexOf(s, '@');
    DecidedAtFirstAt(s);
    0 < at < |s| && PlainExcept(s, at) && HasInnerDot(s[at + 1..])
  }

  /** The pattern matches exactly when the decision taken at the first `@` succeeds. */
  lemma DecidedAtFirstAt(s: string)
    ensures var at := IndexOf(s, '@');
      (0 < at < |s| && PlainExcept(s, at) && HasInnerDot(s[at + 1..])) <==> Matches(s)
  {
    var at := IndexOf(s, '@');
    if 0 < at < |s| && PlainExcept(s, at) && HasInnerDot(s[at + 1..]) {
      var j :| 0 < j < |s[at + 1..]| - 1 && s[at + 1..][j] == '.';
      assert s[at + 1 + j] == '.';
    }
    if Matches(s) {
      var at', dot :| 0 < at' && at' + 1 < dot < |s| - 1 && s[at'] == '@' && s[dot] == '.' && PlainExcept(s, at');
      assert at != at' ==> Plain(s[at]);
      assert s[at + 1..][dot - at - 1] == '.';
    }
  }

  /** Lower-casing keeps a matching address matching: it maps `@`, `.`, whitespace and `[^\s@]` to themselves. */
  lemma LowerCaseKeepsMatch(s: string)
    requires Matches(s)
    ensures Matches(ToLowerCase(s))
  {
    var at, dot :| 0 < at && at + 1 < dot < |s| - 1 && s[at] == '@' && s[dot] == '.' && PlainExcept(s, at);
    var t := ToLowerCase(s);
    assert t[at] == '@' && t[dot] == '.';
    assert PlainExcept(t, at) by {
      forall k | 0 <= k < |t| && k != at
        ensures Plain(t[k])
      {
        assert Plain(s[k]);
      }
    }
  }
}
