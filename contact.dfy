/** Contact-form validation (js/main.js, section 8): the three required
    fields, then the email pattern `^[^\s@]+@[^\s@]+\.[^\s@]+$`. */
module ContactForm {
  import opened Common

  /** The outcome of the submit listener: the two alerts, or the submission
      going through to the form's endpoint. */
  datatype Verdict = MissingField | InvalidEmail | Accepted

  /** The `\s` class of ECMAScript regular expressions: the WhiteSpace and
      LineTerminator code points. */
  predicate IsWhitespace(c: char)
  {
    c == '\t' || c == '\n' || c == '\U{000B}' || c == '\U{000C}' || c == '\r' || c == ' '
    || c == '\U{00A0}' || c == '\U{1680}' || ('\U{2000}' <= c <= '\U{200A}')
    || c == '\U{2028}' || c == '\U{2029}' || c == '\U{202F}' || c == '\U{205F}'
    || c == '\U{3000}' || c == '\U{FEFF}'
  }

  /** A character of the class `[^\s@]`. */
  predicate PartChar(c: char)
  {
    !IsWhitespace(c) && c != '@'
  }

  /** The string matches `[^\s@]+`. */
  predicate Run(s: string)
  {
    |s| > 0 && forall k :: 0 <= k < |s| ==> PartChar(s[k])
  }

  /** `s[..i]`, `@`, `s[i+1..j]`, a dot, `s[j+1..]`, each run matching
      `[^\s@]+`. */
  predicate SplitsAt(s: string, i: int, j: int)
  {
    0 < i < j < |s| && Run(s[..i]) && s[i] == '@' && Run(s[i + 1..j]) && s[j] == '.' && Run(s[j + 1..])
  }

  /** The string matches the anchored email pattern: a run, `@`, a run, a
      literal dot, a run. */
  predicate MatchesEmailPattern(s: string)
  {
    exists i, j | 0 < i < j < |s| :: SplitsAt(s, i, j)
  }

  /** The first position of `c` in `s`. */
  function FirstIndexOf(s: string, c: char): (r: Option<nat>)
    ensures r.Some? ==> r.value < |s| && s[r.value] == c && c !in s[..r.value]
    ensures r.None? <==> c !in s
  {
    if s == [] then None
    else if s[0] == c then Some(0)
    else match FirstIndexOf(s[1..], c)
      case None => None
      case Some(i) =>
        assert s[..i + 1] == [s[0]] + s[1..][..i];
        Some(i + 1)
  }

  /** A position holding `c` with no `c` before it is the first index of `c`. */
  lemma {:induction false} FirstIndexOfAt(s: string, c: char, i: nat)
    requires i < |s| && s[i] == c && c !in s[..i]
    ensures FirstIndexOf(s, c) == Some(i)
  {
    if i > 0 {
      assert s[0] == s[..i][0];
      assert s[1..][..i - 1] == s[..i][1..];
      FirstIndexOfAt(s[1..], c, i - 1);
    }
  }

  /** The domain has a dot that is neither its first nor its last character. */
  predicate HasInnerDot(domain: string)
  {
    |domain| >= 3 && '.' in domain[1..|domain| - 1]
  }

  /** What the pattern asks for, said plainly: no whitespace anywhere,
      exactly one `@`, something before it, and a dot inside the part
      after it. */
  predicate EmailShape(s: string)
  {
    (forall k :: 0 <= k < |s| ==> !IsWhitespace(s[k]))
    && match FirstIndexOf(s, '@')
       case None => false
       case Some(i) => 0 < i && '@' !in s[i + 1..] && HasInnerDot(s[i + 1..])
  }

  lemma ShapeImpliesPattern(s: string)
    requires EmailShape(s)
    ensures MatchesEmailPattern(s)
  {
    var i := FirstIndexOf(s, '@').value;
    var d := s[i + 1..];
    var m :| 1 <= m < |d| - 1 && d[m] == '.';
    var j := i + 1 + m;
    assert s[j] == '.';
    assert Run(s[..i]) by {
      forall k | 0 <= k < i ensures PartChar(s[..i][k]) {
        assert s[..i][k] in s[..i];
      }
    }
    forall k | i + 1 <= k < |s| ensures PartChar(s[k]) {
      assert s[k] == d[k - (i + 1)];
      assert d[k - (i + 1)] in d;
    }
    assert Run(s[i + 1..j]);
    assert Run(s[j + 1..]);
    assert SplitsAt(s, i, j);
  }

  /** In such a split, every position other than the `@` and the dot holds
      a run character. */
  lemma SplitRunChars(s: string, i: int, j: int)
    requires SplitsAt(s, i, j)
    ensures forall k :: 0 <= k < |s| && k != i && k != j ==> PartChar(s[k])
  {
    forall k | 0 <= k < |s| && k != i && k != j ensures PartChar(s[k]) {
      if k < i {
        assert s[k] == s[..i][k];
      } else if k < j {
        assert s[k] == s[i + 1..j][k - (i + 1)];
      } else {
        assert s[k] == s[j + 1..][k - (j + 1)];
      }
    }
  }

  /** The part before the `@` of a split holds no `@`, so that `@` is the
      first one. */
  lemma SplitLocalPart(s: string, i: int, j: int)
    requires SplitsAt(s, i, j)
    ensures FirstIndexOf(s, '@') == Some(i)
  {
    assert '@' !in s[..i] by {
      forall k | 0 <= k < i ensures s[..i][k] != '@' {
        assert s[..i][k] == s[k];
      }
    }
    FirstIndexOfAt(s, '@', i);
  }

  /** The part after the `@` of a split holds no `@` and has an inner dot. */
  lemma SplitDomainPart(s: string, i: int, j: int)
    requires SplitsAt(s, i, j)
    ensures '@' !in s[i + 1..] && HasInnerDot(s[i + 1..])
  {
    SplitRunChars(s, i, j);
    var d := s[i + 1..];
    forall k | 0 <= k < |d| ensures d[k] != '@' {
      assert d[k] == s[i + 1 + k];
    }
    assert d[1..|d| - 1][j - i - 2] == '.';
  }

  lemma PatternImpliesShape(s: string)
    requires MatchesEmailPattern(s)
    ensures EmailShape(s)
  {
    var i, j :| 0 < i < j < |s| && SplitsAt(s, i, j);
    SplitRunChars(s, i, j);
    assert forall k :: 0 <= k < |s| ==> !IsWhitespace(s[k]);
    SplitLocalPart(s, i, j);
    SplitDomainPart(s, i, j);
  }

  /** The pattern and its plain description accept the same strings. */
  lemma EmailPatternIffShape(s: string)
    ensures MatchesEmailPattern(s) <==> EmailShape(s)
  {
    if EmailShape(s) {
      ShapeImpliesPattern(s);
    }
    if MatchesEmailPattern(s) {
      PatternImpliesShape(s);
    }
  }

  /** The submit listener over the values `FormData.get` returns (None for a
      missing field). The required-field check comes first. */
  function Validate(name: Option<string>, email: Option<string>, message: Option<string>): (v: Verdict)
    ensures v == MissingField <==> !Truthy(name) || !Truthy(email) || !Truthy(message)
    ensures v == InvalidEmail <==> Truthy(name) && Truthy(email) && Truthy(message) && !EmailShape(email.value)
    ensures v == Accepted <==> Truthy(name) && Truthy(email) && Truthy(message) && EmailShape(email.value)
  {
    if !Truthy(name) || !Truthy(email) || !Truthy(message) then MissingField
    else
      EmailPatternIffShape(email.value);
      if !MatchesEmailPattern(email.value) then InvalidEmail
      else Accepted
  }

  /** Sample submission with an empty name. */
  lemma EmptyNameRejected()
    ensures Validate(Some(""), Some("a@b.com"), Some("hi")) == MissingField
  {
  }

  /** Sample submission whose address has no `@`. */
  lemma AddressWithoutAtRejected()
    ensures Validate(Some("A"), Some("not-an-email"), Some("hi")) == InvalidEmail
  {
    var s := "not-an-email";
    assert forall k :: 0 <= k < |s| ==> s[k] != '@';
    assert !EmailShape(s);
  }

  /** A well-formed sample submission. */
  lemma WellFormedAccepted()
    ensures Validate(Some("A"), Some("a@b.com"), Some("hi")) == Accepted
  {
    var s := "a@b.com";
    assert FirstIndexOf(s, '@') == Some(1);
    assert s[2..][1..4] == ".co";
    assert forall k :: 0 <= k < |s| ==> !IsWhitespace(s[k]);
  }

  /** The required-field check only rejects empty or missing values: a
      name of blanks passes it. */
  lemma BlankNameIsFilled(email: string, message: string)
    requires message != ""
    ensures Validate(Some(" "), Some(email), Some(message)) != MissingField <==> email != ""
  {
  }
}
