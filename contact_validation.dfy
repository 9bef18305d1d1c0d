/**
 * The per-field checks of the contact form's submit handler (js/main.js),
 * each a pure test of one field's value, and the messages the handler sets
 * as the field's custom validity when a check fails.
 */
module ContactValidation {
  import opened Js

  const NameMinLength: nat := 2
  const MessageMinLength: nat := 20

  const NameError := "Please enter your full name (at least 2 characters)"
  const EmailError := "Please enter a valid email address"
  const PhoneError := "Please enter a valid phone number"
  const InquiryError := "Please select an inquiry type"
  const MessageError := "Please provide more details (at least 20 characters)"
  const ConsentError := "You must consent to us storing your information"

  // ---------------------------------------------------------------------
  // The email pattern /^[^\s@]+@[^\s@]+\.[^\s@]+$/
  // ---------------------------------------------------------------------

  /** `[^\s@]`: the character class the pattern repeats. */
  predicate IsAddressChar(c: char) {
    !IsWhiteSpace(c) && c != '@'
  }

  predicate AllAddressChars(s: string) {
    forall k :: 0 <= k < |s| ==> IsAddressChar(s[k])
  }

  /**
   * `s` matches the pattern with its "@" at index `at` and the "." the pattern
   * names at index `dot`: three non-empty runs of `[^\s@]` around them.
   */
  ghost predicate EmailSplit(s: string, at: int, dot: int) {
    0 < at && at + 1 < dot && dot + 1 < |s| && s[at] == '@' && s[dot] == '.' &&
    AllAddressChars(s[..at]) && AllAddressChars(s[at + 1..dot]) && AllAddressChars(s[dot + 1..])
  }

  /** The language of the regular expression, as the regular expression reads. */
  ghost predicate EmailRegexMatches(s: string) {
    exists at, dot :: EmailSplit(s, at, dot)
  }

  /** Index of the first '@' in `s`, or `|s|` when there is none. */
  function IndexOfAt(s: string): (i: nat)
    ensures i <= |s|
    ensures i < |s| ==> s[i] == '@'
    ensures forall k :: 0 <= k < i ==> s[k] != '@'
  {
    if s == [] then 0
    else if s[0] == '@' then 0
    else 1 + IndexOfAt(s[1..])
  }

  /** A "." with at least one character on each side of it. */
  predicate HasInnerDot(domain: string) {
    |domain| >= 3 && '.' in domain[1..|domain| - 1]
  }

  /**
   * `emailPattern.test(s)`, decided by splitting at the first "@": a non-empty
   * local part and a domain, both free of white space and "@", the domain
   * holding an inner ".".
   */
  predicate MatchesEmailPattern(s: string) {
    var at := IndexOfAt(s);
    0 < at < |s| &&
    AllAddressChars(s[..at]) && AllAddressChars(s[at + 1..]) && HasInnerDot(s[at + 1..])
  }

  /** Every string the split-based test accepts matches the regular expression. */
  lemma EmailPatternSound(s: string)
    requires MatchesEmailPattern(s)
    ensures EmailRegexMatches(s)
  {
    var at := IndexOfAt(s);
    var domain := s[at + 1..];
    var j :| 0 <= j < |domain| - 2 && domain[1..|domain| - 1][j] == '.';
    var dot := at + 2 + j;
    assert s[at + 1..dot] == domain[..j + 1];
    assert s[dot + 1..] == domain[j + 2..];
    assert EmailSplit(s, at, dot);
  }

  /** Every string the regular expression matches passes the split-based test. */
  lemma EmailPatternComplete(s: string)
    requires EmailRegexMatches(s)
    ensures MatchesEmailPattern(s)
  {
    var at, dot :| EmailSplit(s, at, dot);
    var i := IndexOfAt(s);
    assert forall k :: 0 <= k < at ==> s[k] != '@' by {
      forall k | 0 <= k < at ensures s[k] != '@' {
        assert s[k] == s[..at][k];
      }
    }
    assert i == at;
    var domain := s[at + 1..];
    assert AllAddressChars(domain) by {
      forall k | 0 <= k < |domain| ensures IsAddressChar(domain[k]) {
        if k < dot - at - 1 {
          assert domain[k] == s[at + 1..dot][k];
        } else if k > dot - at - 1 {
          assert domain[k] == s[dot + 1..][k - (dot - at)];
        }
      }
    }
    assert HasInnerDot(domain) by {
      assert domain[1..|domain| - 1][dot - at - 2] == '.';
    }
  }

  /** The split-based test accepts exactly the strings the regular expression matches. */
  lemma EmailPatternIsRegex(s: string)
    ensures MatchesEmailPattern(s) <==> EmailRegexMatches(s)
  {
    if MatchesEmailPattern(s) {
      EmailPatternSound(s);
    }
    if EmailRegexMatches(s) {
      EmailPatternComplete(s);
    }
  }

  /** "a@b.com" has the shape the pattern asks for. */
  lemma EmailAcceptsExample()
    ensures MatchesEmailPattern("a@b.com")
  {
    var s := "a@b.com";
    assert IndexOfAt(s) == 1;
    assert AllAddressChars(s[..1]) by { assert s[..1] == "a"; }
    assert s[2..] == "b.com";
    assert AllAddressChars("b.com") by {
      forall k | 0 <= k < 5 ensures IsAddressChar("b.com"[k]) {}
    }
    assert "b.com"[1..4] == ".co";
  }

  /** A missing domain dot, a missing "@", or an empty part before the dot all fail. */
  lemma EmailRejectsExamples()
    ensures !MatchesEmailPattern("a@b")
    ensures !MatchesEmailPattern("plain")
    ensures !MatchesEmailPattern("a@.com")
  {
    assert IndexOfAt("a@b") == 1;
    assert "a@b"[2..] == "b";
    assert IndexOfAt("plain") == 5;
    assert IndexOfAt("a@.com") == 1;
    assert "a@.com"[2..] == ".com";
    assert ".com"[1..3] == "co";
  }

  /** A second "@" fails. */
  lemma EmailRejectsSecondAt()
    ensures !MatchesEmailPattern("a@b@c.com")
  {
    assert IndexOfAt("a@b@c.com") == 1;
    assert "a@b@c.com"[2..][1] == '@';
  }

  /** A space anywhere fails. */
  lemma EmailRejectsSpace()
    ensures !MatchesEmailPattern("a b@c.com")
  {
    assert IndexOfAt("a b@c.com") == 3;
    assert "a b@c.com"[..3][1] == ' ';
  }

  // ---------------------------------------------------------------------
  // The six field checks (true means the field fails)
  // ---------------------------------------------------------------------

  /** Name: fewer than two code units once trimmed. */
  predicate NameFails(value: string) {
    Utf16Length(Trim(value)) < NameMinLength
  }

  /** Email: checked only when non-empty, then it must match the pattern. */
  predicate EmailFails(value: string) {
    value != "" && !MatchesEmailPattern(value)
  }

  /** Phone: checked only when non-empty, then the browser's own validity decides. */
  predicate PhoneFails(value: string, valid: bool) {
    value != "" && !valid
  }

  /** Inquiry type: the select has no value. */
  predicate InquiryFails(value: string) {
    value == ""
  }

  /** Message: fewer than twenty code units once trimmed. */
  predicate MessageFails(value: string) {
    Utf16Length(Trim(value)) < MessageMinLength
  }

  /** Consent: the box is not checked. */
  predicate ConsentFails(checked: bool) {
    !checked
  }

  /** Text that needs no trimming and has no astral characters has its own length. */
  predicate PlainText(s: string) {
    (s == [] || (!IsWhiteSpace(s[0]) && !IsWhiteSpace(s[|s| - 1]))) && InBmp(s)
  }

  /**
   * For plain text the name and message checks are the length thresholds:
   * a name fails exactly below 2 characters, a message exactly below 20.
   */
  lemma LengthChecksOnPlainText(s: string)
    requires PlainText(s)
    ensures NameFails(s) <==> |s| < 2
    ensures MessageFails(s) <==> |s| < 20
  {
    PlainLength(s);
  }

  /** Plain text is its own trim, one code unit per character. */
  lemma PlainLength(s: string)
    requires PlainText(s)
    ensures Utf16Length(Trim(s)) == |s|
  {
    assert Trim(s) == s;
    Utf16LengthOfBmp(s);
  }

  /**
   * White space around a name or message does not count: a leading space and a
   * trailing newline never change either verdict, whatever the text holds.
   */
  lemma PaddingDoesNotCount(s: string)
    ensures NameFails(" " + s + "\n") == NameFails(s)
    ensures MessageFails(" " + s + "\n") == MessageFails(s)
  {
    assert Trim(" " + s + "\n") == Trim(s) by {
      assert " " + s + "\n" == [' '] + (s + ['\n']);
      TrimStartSkips(' ', s + ['\n']);
      TrimStartAppend(s, '\n');
      if TrimStart(s) != [] {
        TrimEndSkips(TrimStart(s), '\n');
      }
    }
  }

  /** "Jo" is a long enough name; "J" and a blank name are not. */
  lemma NameExamples()
    ensures !NameFails("Jo") && NameFails("J") && NameFails("   ")
  {
    LengthChecksOnPlainText("Jo");
    LengthChecksOnPlainText("J");
    assert "   " == [' '] + "  " && "  " == [' '] + " " && " " == [' '] + "";
    TrimStartSkips(' ', "  ");
    TrimStartSkips(' ', " ");
    TrimStartSkips(' ', "");
    assert Trim("   ") == "";
  }

  /** A message of twenty letters passes and one of nineteen does not. */
  lemma MessageExamples()
    ensures !MessageFails(seq(20, _ => 'x')) && MessageFails(seq(19, _ => 'x'))
  {
    LengthChecksOnPlainText(seq(20, _ => 'x'));
    LengthChecksOnPlainText(seq(19, _ => 'x'));
  }
}
