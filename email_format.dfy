/**
 * The email-format rule shared by the payment initializer, the
 * event-registration and subscription handlers and the checkout modal:
 * the regular expression `^[^\s@]+@[^\s@]+\.[^\s@]+$`.
 *
 * `ValidEmail` is the rule as a scan of the string; `MatchesPattern` is the
 * regular expression's own shape (three non-empty runs of characters that are
 * neither whitespace nor '@', joined by '@' and '.'). `ValidEmailIffPattern`
 * proves the two agree on every string.
 */
module EmailFormat {

  import opened Text

  /** JavaScript's `\s`: the ECMAScript WhiteSpace and LineTerminator characters. */
  predicate IsJsWhitespace(c: char) {
    || c == '\t' || c == '\n' || c == '\U{000B}' || c == '\U{000C}' || c == '\r'
    || c == ' ' || c == '\U{00A0}' || c == '\U{1680}'
    || ('\U{2000}' <= c <= '\U{200A}')
    || c == '\U{2028}' || c == '\U{2029}' || c == '\U{202F}' || c == '\U{205F}'
    || c == '\U{3000}' || c == '\U{FEFF}'
  }

  /** A character matched by the class `[^\s@]`. */
  predicate PlainChar(c: char) {
    !IsJsWhitespace(c) && c != '@'
  }

  predicate AllPlain(s: string) {
    forall k :: 0 <= k < |s| ==> PlainChar(s[k])
  }

  /** The regular expression, read as a shape: local `@` head `.` tail, each part non-empty. */
  ghost predicate MatchesPattern(s: string) {
    exists at, dot ::
      && 0 < at && at + 1 < dot && dot + 1 < |s|
      && s[at] == '@' && s[dot] == '.'
      && AllPlain(s[..at]) && AllPlain(s[at + 1..dot]) && AllPlain(s[dot + 1..])
  }

  // ---- the scan ----

  function CountChar(s: string, c: char): nat {
    if s == [] then 0 else CountChar(s[1..], c) + (if s[0] == c then 1 else 0)
  }

  lemma {:induction false} CountCharAppend(a: string, b: string, c: char)
    ensures CountChar(a + b, c) == CountChar(a, c) + CountChar(b, c)
  {
    if a != [] {
      assert (a + b)[1..] == a[1..] + b;
      CountCharAppend(a[1..], b, c);
    } else {
      assert a + b == b;
    }
  }

  lemma {:induction false} CountCharZero(s: string, c: char)
    ensures CountChar(s, c) == 0 <==> forall k :: 0 <= k < |s| ==> s[k] != c
  {
    if s != [] {
      CountCharZero(s[1..], c);
      assert forall k :: 1 <= k < |s| ==> s[k] == s[1..][k - 1];
    }
  }

  /** When '@' occurs exactly once, its one occurrence is the first. */
  lemma SingleAtIsFirst(s: string)
    ensures CountChar(s, '@') == 1 ==> forall k :: 0 <= k < |s| && s[k] == '@' ==> k == FirstIndex(s, '@')
  {
    var at := FirstIndex(s, '@');
    if CountChar(s, '@') == 1 {
      if at == |s| {
        CountCharZero(s, '@');
      } else {
        var d := s[at + 1..];
        assert s == s[..at] + [s[at]] + d;
        CountCharAppend(s[..at] + [s[at]], d, '@');
        CountCharAppend(s[..at], [s[at]], '@');
        CountCharZero(s[..at], '@');
        CountCharZero(d, '@');
        assert forall k :: at < k < |s| ==> s[k] == d[k - at - 1];
      }
    }
  }

  predicate NoWhitespace(s: string) {
    forall k :: 0 <= k < |s| ==> !IsJsWhitespace(s[k])
  }

  /** A `.` that is neither the first nor the last character of `d`. */
  predicate HasInnerDot(d: string) {
    exists j :: 0 < j < |d| - 1 && d[j] == '.'
  }

  /**
   * The rule as the checkout copy and the three handlers apply it: no
   * whitespace anywhere, exactly one '@', a non-empty part before it, and a
   * '.' inside the part after it.
   */
  predicate ValidEmail(s: string)
    ensures ValidEmail(s) ==> |s| >= 5
    ensures ValidEmail(s) ==> forall k :: 0 <= k < |s| && s[k] == '@' ==> k == FirstIndex(s, '@')
  {
    SingleAtIsFirst(s);
    var at := FirstIndex(s, '@');
    NoWhitespace(s) && CountChar(s, '@') == 1 && 0 < at < |s| && HasInnerDot(s[at + 1..])
  }

  /** The scan and the regular expression accept exactly the same strings. */
  lemma ValidEmailIffPattern(s: string)
    ensures ValidEmail(s) <==> MatchesPattern(s)
  {
    if ValidEmail(s) {
      ValidEmailMatches(s);
    }
    if MatchesPattern(s) {
      var at, dot :| && 0 < at && at + 1 < dot && dot + 1 < |s|
        && s[at] == '@' && s[dot] == '.'
        && AllPlain(s[..at]) && AllPlain(s[at + 1..dot]) && AllPlain(s[dot + 1..]);
      PatternIsValid(s, at, dot);
    }
  }

  lemma ValidEmailMatches(s: string)
    requires ValidEmail(s)
    ensures MatchesPattern(s)
  {
    var at := FirstIndex(s, '@');
    var d := s[at + 1..];
    var j :| 0 < j < |d| - 1 && d[j] == '.';
    var dot := at + 1 + j;
    assert s == s[..at] + [s[at]] + d;
    CountCharAppend(s[..at] + [s[at]], d, '@');
    CountCharAppend(s[..at], [s[at]], '@');
    CountCharZero(d, '@');
    assert forall k :: at < k < |s| ==> s[k] == d[k - at - 1];
    assert AllPlain(s[..at]);
    assert AllPlain(s[at + 1..dot]);
    assert AllPlain(s[dot + 1..]);
    assert s[dot] == '.';
  }

  lemma PatternIsValid(s: string, at: int, dot: int)
    requires 0 < at && at + 1 < dot && dot + 1 < |s|
    requires s[at] == '@' && s[dot] == '.'
    requires AllPlain(s[..at]) && AllPlain(s[at + 1..dot]) && AllPlain(s[dot + 1..])
    ensures ValidEmail(s)
  {
    var d := s[at + 1..];
    assert forall k :: 0 <= k < at ==> s[..at][k] == s[k];
    assert forall k :: at < k < dot ==> s[at + 1..dot][k - at - 1] == s[k];
    assert forall k :: dot < k < |s| ==> s[dot + 1..][k - dot - 1] == s[k];
    assert NoWhitespace(s);
    assert forall k :: 0 <= k < |d| ==> d[k] != '@';
    assert FirstIndex(s, '@') == at;
    assert s == s[..at] + [s[at]] + d;
    CountCharAppend(s[..at] + [s[at]], d, '@');
    CountCharAppend(s[..at], [s[at]], '@');
    CountCharZero(d, '@');
    CountCharZero(s[..at], '@');
    assert d[dot - at - 1] == '.';
  }

  /** The empty string, a missing '@' and a dot-free domain are all rejected. */
  lemma ValidEmailRejects(s: string)
    ensures ValidEmail(s) ==> |s| >= 5
    ensures (forall k :: 0 <= k < |s| ==> s[k] != '@') ==> !ValidEmail(s)
    ensures ValidEmail(s) ==> '.' in s[FirstIndex(s, '@') + 1..]
  {
    if ValidEmail(s) {
      var at := FirstIndex(s, '@');
      var d := s[at + 1..];
      var j :| 0 < j < |d| - 1 && d[j] == '.';
      assert d[j] in d;
    }
  }

  /** A concrete address used by the end-to-end scenario passes. */
  lemma SampleAddressIsValid()
    ensures ValidEmail("a@b.com")
  {
    var s := "a@b.com";
    assert FirstIndex(s, '@') == 1;
    assert s[2..][1] == '.';
  }
}
