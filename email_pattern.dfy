/** The address check of the sign-up form: the regular expression
    ^[^\s@]+@[^\s@]+\.[^\s@]+$ tested against the whole input. It is an ad hoc
    shape check, not the addr-spec grammar of RFC 5322. */
module EmailPattern {

  /** JavaScript's `\s`: the WhiteSpace and LineTerminator code points. */
  predicate IsJsWhitespace(ch: char)
  {
    || ('\t' <= ch <= '\r')
    || ch == ' ' || ch == '\U{00A0}' || ch == '\U{1680}'
    || ('\U{2000}' <= ch <= '\U{200A}')
    || ch == '\U{2028}' || ch == '\U{2029}' || ch == '\U{202F}' || ch == '\U{205F}'
    || ch == '\U{3000}' || ch == '\U{FEFF}'
  }

  /** One character of the class `[^\s@]`. */
  predicate InClass(ch: char)
  {
    !IsJsWhitespace(ch) && ch != '@'
  }

  predicate AllInClass(t: string)
  {
    forall k | 0 <= k < |t| :: InClass(t[k])
  }

  /** The pattern matches with its `@` at `at` and its `\.` at `dot`: the three
      runs `[^\s@]+` before, between and after them are non-empty. */
  predicate MatchesAt(s: string, at: int, dot: int)
  {
    && 0 < at && at + 1 < dot && dot + 1 < |s|
    && s[at] == '@' && s[dot] == '.'
    && AllInClass(s[..at]) && AllInClass(s[at + 1..dot]) && AllInClass(s[dot + 1..])
  }

  /** The regular expression's test: some placement of the `@` and the `.`
      matches. A match has at least five characters, and its first and last
      characters are in `[^\s@]`. */
  function EmailRegexTest(s: string): (matches: bool)
    ensures matches ==> 5 <= |s| && s[0] != '@' && s[|s| - 1] != '@'
  {
    exists at, dot | 0 <= at < |s| && 0 <= dot < |s| :: MatchesAt(s, at, dot)
  }

  /** `at` is the position of the only `@` in `s`. */
  predicate OnlyAtSign(s: string, at: int)
    requires 0 <= at < |s|
  {
    s[at] == '@' && forall k | 0 <= k < |s| && s[k] == '@' :: k == at
  }

  /** The part after the `@` has a `.` that is neither its first nor its last character. */
  predicate HasInnerDot(domain: string)
  {
    exists k | 0 < k < |domain| - 1 :: domain[k] == '.'
  }

  /** The check in plain words: no whitespace, exactly one `@`, something before
      it, and a `.` strictly inside what follows it. */
  predicate PlainReading(s: string)
  {
    && (forall k | 0 <= k < |s| :: !IsJsWhitespace(s[k]))
    && exists at | 0 <= at < |s| :: OnlyAtSign(s, at) && 0 < at && HasInnerDot(s[at + 1..])
  }

  lemma MatchImpliesPlainReading(s: string, at: int, dot: int)
    requires 0 <= at < |s| && 0 <= dot < |s| && MatchesAt(s, at, dot)
    ensures PlainReading(s)
  {
    forall k | 0 <= k < |s|
      ensures !IsJsWhitespace(s[k]) && (s[k] == '@' ==> k == at)
    {
      if k < at {
        assert s[..at][k] == s[k];
      } else if at < k < dot {
        assert s[at + 1..dot][k - at - 1] == s[k];
      } else if dot < k {
        assert s[dot + 1..][k - dot - 1] == s[k];
      }
    }
    assert s[at + 1..][dot - at - 1] == '.';
    assert HasInnerDot(s[at + 1..]);
    assert OnlyAtSign(s, at);
  }

  lemma PlainReadingImpliesMatch(s: string) returns (at: int, dot: int)
    requires PlainReading(s)
    ensures 0 <= at < |s| && 0 <= dot < |s| && MatchesAt(s, at, dot)
  {
    at :| 0 <= at < |s| && OnlyAtSign(s, at) && 0 < at && HasInnerDot(s[at + 1..]);
    var domain := s[at + 1..];
    var k :| 0 < k < |domain| - 1 && domain[k] == '.';
    dot := at + 1 + k;
    assert s[dot] == '.';
    forall i | 0 <= i < at ensures InClass(s[..at][i]) {
      assert s[..at][i] == s[i];
    }
    var host, tld := s[at + 1..dot], s[dot + 1..];
    forall i | 0 <= i < |host| ensures InClass(host[i]) {
      assert host[i] == s[at + 1 + i];
    }
    forall i | 0 <= i < |tld| ensures InClass(tld[i]) {
      assert tld[i] == s[dot + 1 + i];
    }
  }

  /** The regular expression accepts exactly the strings of the plain reading. */
  lemma EmailRegexCharacterization(s: string)
    ensures EmailRegexTest(s) <==> PlainReading(s)
  {
    if EmailRegexTest(s) {
      var at, dot :| 0 <= at < |s| && 0 <= dot < |s| && MatchesAt(s, at, dot);
      MatchImpliesPlainReading(s, at, dot);
    }
    if PlainReading(s) {
      var at, dot := PlainReadingImpliesMatch(s);
    }
  }

  /** An ordinary address passes. */
  lemma AcceptsOrdinaryAddress()
    ensures EmailRegexTest("user@example.com")
  {
    var s := "user@example.com";
    assert s[..4] == "user" && s[5..12] == "example" && s[13..] == "com";
    assert MatchesAt(s, 4, 12);
  }

  /** A host without a dot fails. */
  lemma RejectsDotlessHost()
    ensures !EmailRegexTest("me@localhost")
  {
  }

  /** A second `@` fails. */
  lemma RejectsSecondAtSign()
    ensures !EmailRegexTest("a@b@c.de")
  {
    EmailRegexCharacterization("a@b@c.de");
    assert "a@b@c.de"[1] == '@' && "a@b@c.de"[3] == '@';
  }

  /** A space anywhere fails. */
  lemma RejectsSpace()
    ensures !EmailRegexTest("a b@c.de")
  {
    EmailRegexCharacterization("a b@c.de");
    assert IsJsWhitespace("a b@c.de"[1]);
  }
}
