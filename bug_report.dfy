/** Input checks of the bug report page: a blank test built on JavaScript's
    `trim`, the email shape the page's regular expression accepts, and the
    order in which a submission is checked before it is sent. */
module BugReport {

  /** The characters JavaScript's `trim` removes and `\s` matches: the
      white space characters (tab, vertical tab, form feed, space, no-break
      space, the byte order mark and the other space separators) and the
      line terminators. */
  predicate IsJsWhitespace(c: char)
  {
    c == '\t' || c == '\n' || c == '\U{000B}' || c == '\U{000C}' || c == '\r' || c == ' '
    || c == '\U{00A0}' || c == '\U{1680}' || ('\U{2000}' <= c <= '\U{200A}')
    || c == '\U{2028}' || c == '\U{2029}' || c == '\U{202F}' || c == '\U{205F}'
    || c == '\U{3000}' || c == '\U{FEFF}'
  }

  predicate AllWhitespace(s: string)
  {
    forall i :: 0 <= i < |s| ==> IsJsWhitespace(s[i])
  }

  /** `s` without its leading white space. */
  function TrimStart(s: string): (r: string)
    ensures |r| <= |s| && r == s[|s| - |r|..]
    ensures AllWhitespace(s[..|s| - |r|])
    ensures |r| > 0 ==> !IsJsWhitespace(r[0])
  {
    if |s| > 0 && IsJsWhitespace(s[0]) then TrimStart(s[1..]) else s
  }

  /** `s` without its trailing white space. */
  function TrimEnd(s: string): (r: string)
    ensures |r| <= |s| && r == s[..|r|]
    ensures AllWhitespace(s[|r|..])
    ensures |r| > 0 ==> !IsJsWhitespace(r[|r| - 1])
  {
    if |s| > 0 && IsJsWhitespace(s[|s| - 1]) then TrimEnd(s[..|s| - 1]) else s
  }

  /** `String.prototype.trim`. */
  function Trim(s: string): string
  {
    TrimEnd(TrimStart(s))
  }

  /** `trim` keeps a middle piece of `s` and drops only white space around
      it. */
  lemma TrimKeepsMiddle(s: string)
    ensures exists i, j :: (0 <= i <= j <= |s| && Trim(s) == s[i..j]
                            && AllWhitespace(s[..i]) && AllWhitespace(s[j..]))
  {
    var t := TrimStart(s);
    MiddleOfSuffix(s, t, TrimEnd(t));
  }

  /** A prefix `r` of a suffix `t` of `s`, with only white space cut off on
      either side, is a middle piece of `s`. */
  lemma MiddleOfSuffix(s: string, t: string, r: string)
    requires |t| <= |s| && t == s[|s| - |t|..] && AllWhitespace(s[..|s| - |t|])
    requires |r| <= |t| && r == t[..|r|] && AllWhitespace(t[|r|..])
    ensures exists i, j :: (0 <= i <= j <= |s| && r == s[i..j]
                            && AllWhitespace(s[..i]) && AllWhitespace(s[j..]))
  {
    var i := |s| - |t|;
    var j := i + |r|;
    assert r == s[i..j];
    assert s[j..] == t[|r|..];
  }

  /** The piece `trim` keeps neither starts nor ends with white space. */
  lemma TrimmedEndsNotWhitespace(s: string)
    ensures |Trim(s)| > 0 ==> !IsJsWhitespace(Trim(s)[0]) && !IsJsWhitespace(Trim(s)[|Trim(s)| - 1])
  {
    var t := TrimStart(s);
    var r := TrimEnd(t);
    if |r| > 0 {
      assert r[0] == t[0];
    }
  }

  /** `isStringEmpty`. */
  predicate IsStringEmpty(s: string)
  {
    Trim(s) == ""
  }

  /** A string is empty for the page exactly when it is all white space,
      the empty string included. */
  lemma {:induction false} IsStringEmptyIffAllWhitespace(s: string)
    ensures IsStringEmpty(s) <==> AllWhitespace(s)
  {
    var t := TrimStart(s);
    if |t| > 0 {
      assert |TrimEnd(t)| > 0;
      assert !IsJsWhitespace(s[|s| - |t|]);
    } else {
      assert s[..|s| - |t|] == s;
    }
  }

  /** The class `[^\s@]` of the email pattern. */
  predicate Plain(c: char)
  {
    !IsJsWhitespace(c) && c != '@'
  }

  predicate AllPlain(s: string)
  {
    forall i :: 0 <= i < |s| ==> Plain(s[i])
  }

  /** The email pattern `^[^\s@]+@[^\s@]+\.[^\s@]+$` read as a split: a
      non-empty name, an `@`, and a domain with a `.` that has a character
      of the class on each side, no piece holding white space or `@`. */
  ghost predicate MatchesEmailPattern(s: string)
  {
    exists at, dot :: 0 < at && at + 1 < dot && dot + 1 < |s| && s[at] == '@' && s[dot] == '.'
      && AllPlain(s[..at]) && AllPlain(s[at + 1..dot]) && AllPlain(s[dot + 1..])
  }

  /** The states of a left-to-right matcher for the email pattern: before
      the first character, inside the name, and in the domain with nothing
      yet, without a usable dot, just after a usable dot, and past it. */
  datatype MatchState = Start | Name | DomainEmpty | DomainNoDot | DomainDot | DomainDone | Failed

  function Step(q: MatchState, c: char): MatchState
  {
    match q
    case Start => if Plain(c) then Name else Failed
    case Name => if Plain(c) then Name else if c == '@' then DomainEmpty else Failed
    case DomainEmpty => if Plain(c) then DomainNoDot else Failed
    case DomainNoDot => if c == '.' then DomainDot else if Plain(c) then DomainNoDot else Failed
    case DomainDot => if Plain(c) then DomainDone else Failed
    case DomainDone => if Plain(c) then DomainDone else Failed
    case Failed => Failed
  }

  function Run(q: MatchState, s: string): MatchState
    decreases |s|
  {
    if |s| == 0 then q else Run(Step(q, s[0]), s[1..])
  }

  /** `isValidEmail`: the pattern's `test`, run by the matcher. */
  function IsValidEmail(email: string): bool
  {
    Run(Start, email) == DomainDone
  }

  lemma {:induction false} FromDomainDone(s: string)
    ensures Run(DomainDone, s) == DomainDone <==> AllPlain(s)
  {
    if |s| > 0 {
      FromDomainDone(s[1..]);
      if Plain(s[0]) {
        assert AllPlain(s) <==> AllPlain(s[1..]) by {
          if AllPlain(s[1..]) {
            forall i | 0 <= i < |s| ensures Plain(s[i]) {
              if i > 0 { assert s[i] == s[1..][i - 1]; }
            }
          }
        }
      } else {
        FailedStays(s[1..]);
      }
    }
  }

  lemma {:induction false} FailedStays(s: string)
    ensures Run(Failed, s) == Failed
  {
    if |s| > 0 {
      FailedStays(s[1..]);
    }
  }

  lemma {:induction false} FromDomainDot(s: string)
    ensures Run(DomainDot, s) == DomainDone <==> |s| > 0 && AllPlain(s)
  {
    if |s| > 0 {
      if Plain(s[0]) {
        FromDomainDone(s[1..]);
        PlainCons(s);
      } else {
        FailedStays(s[1..]);
      }
    }
  }

  /** A non-empty string is all of the class exactly when its first
      character is and the rest is. */
  lemma PlainCons(s: string)
    requires |s| > 0
    ensures AllPlain(s) <==> Plain(s[0]) && AllPlain(s[1..])
  {
    if Plain(s[0]) && AllPlain(s[1..]) {
      forall i | 0 <= i < |s| ensures Plain(s[i]) {
        if i > 0 { assert s[i] == s[1..][i - 1]; }
      }
    }
  }

  /** `s` has a `.` with at least one character after it. */
  ghost predicate DotBeforeEnd(s: string)
  {
    exists k :: 0 <= k && k + 1 < |s| && s[k] == '.'
  }

  lemma {:induction false} FromDomainNoDot(s: string)
    ensures Run(DomainNoDot, s) == DomainDone <==> AllPlain(s) && DotBeforeEnd(s)
  {
    if |s| > 0 {
      PlainCons(s);
      if s[0] == '.' {
        FromDomainDot(s[1..]);
        if |s| > 1 {
          assert s[0] == '.' && 0 + 1 < |s|;
        } else {
          assert !DotBeforeEnd(s);
        }
      } else if Plain(s[0]) {
        FromDomainNoDot(s[1..]);
        DotBeforeEndCons(s);
      } else {
        FailedStays(s[1..]);
      }
    }
  }

  lemma DotBeforeEndCons(s: string)
    requires |s| > 0 && s[0] != '.'
    ensures DotBeforeEnd(s) <==> DotBeforeEnd(s[1..])
  {
    if DotBeforeEnd(s) {
      var k :| 0 <= k && k + 1 < |s| && s[k] == '.';
      assert s[1..][k - 1] == '.';
    }
    if DotBeforeEnd(s[1..]) {
      var k :| 0 <= k && k + 1 < |s[1..]| && s[1..][k] == '.';
      assert s[k + 1] == '.';
    }
  }

  lemma {:induction false} FromDomainEmpty(s: string)
    ensures Run(DomainEmpty, s) == DomainDone <==> |s| > 0 && AllPlain(s) && DotBeforeEnd(s[1..])
  {
    if |s| > 0 {
      PlainCons(s);
      if Plain(s[0]) {
        FromDomainNoDot(s[1..]);
      } else {
        FailedStays(s[1..]);
      }
    }
  }

  /** After the name's first character: the rest of the name, an `@` and a
      domain the matcher accepts. */
  ghost predicate NameThenDomain(s: string)
  {
    exists at :: 0 <= at < |s| && s[at] == '@' && AllPlain(s[..at]) && Run(DomainEmpty, s[at + 1..]) == DomainDone
  }

  /** A leading character of the class can be put in front of the name. */
  lemma NameThenDomainPrepend(s: string)
    requires |s| > 0 && Plain(s[0]) && NameThenDomain(s[1..])
    ensures NameThenDomain(s)
  {
    var at :| 0 <= at < |s[1..]| && s[1..][at] == '@' && AllPlain(s[1..][..at]) && Run(DomainEmpty, s[1..][at + 1..]) == DomainDone;
    assert s[at + 2..] == s[1..][at + 1..];
    assert AllPlain(s[..at + 1]) by {
      PlainCons(s[..at + 1]);
      assert s[..at + 1][1..] == s[1..][..at];
    }
  }

  /** A leading character of the class can be dropped from the name. */
  lemma NameThenDomainDrop(s: string)
    requires |s| > 0 && Plain(s[0]) && NameThenDomain(s)
    ensures NameThenDomain(s[1..])
  {
    var at :| 0 <= at < |s| && s[at] == '@' && AllPlain(s[..at]) && Run(DomainEmpty, s[at + 1..]) == DomainDone;
    assert at > 0;
    assert s[1..][..at - 1] == s[..at][1..];
    assert s[1..][at - 1 + 1..] == s[at + 1..];
    PlainCons(s[..at]);
  }

  lemma {:induction false} FromName(s: string)
    ensures Run(Name, s) == DomainDone <==> NameThenDomain(s)
  {
    if |s| > 0 {
      if Plain(s[0]) {
        FromName(s[1..]);
        if NameThenDomain(s[1..]) {
          NameThenDomainPrepend(s);
        }
        if NameThenDomain(s) {
          NameThenDomainDrop(s);
        }
      } else if s[0] == '@' {
        assert s[1..] == s[0 + 1..] && s[..0] == [];
        if NameThenDomain(s) {
          var at :| 0 <= at < |s| && s[at] == '@' && AllPlain(s[..at]) && Run(DomainEmpty, s[at + 1..]) == DomainDone;
          assert at == 0;
        }
      } else {
        FailedStays(s[1..]);
      }
    }
  }

  /** An accepted email splits at an `@` after a non-empty name of the
      class, with a domain the matcher accepts from its first state. */
  lemma AcceptedNameSplit(s: string)
    requires IsValidEmail(s)
    ensures exists a :: 0 < a < |s| && s[a] == '@' && AllPlain(s[..a]) && Run(DomainEmpty, s[a + 1..]) == DomainDone
  {
    if |s| == 0 || !Plain(s[0]) {
      if |s| > 0 {
        FailedStays(s[1..]);
      }
      assert false;
    }
    FromName(s[1..]);
    var at :| 0 <= at < |s[1..]| && s[1..][at] == '@' && AllPlain(s[1..][..at]) && Run(DomainEmpty, s[1..][at + 1..]) == DomainDone;
    assert s[at + 1 + 1..] == s[1..][at + 1..];
    assert AllPlain(s[..at + 1]) by {
      PlainCons(s[..at + 1]);
      assert s[..at + 1][1..] == s[1..][..at];
    }
  }

  /** An accepted domain splits at a `.` with a non-empty piece of the class
      on each side. */
  lemma AcceptedDomainSplit(d: string)
    requires Run(DomainEmpty, d) == DomainDone
    ensures exists j :: 0 < j && j + 1 < |d| && d[j] == '.' && AllPlain(d[..j]) && AllPlain(d[j + 1..])
  {
    FromDomainEmpty(d);
    var k :| 0 <= k && k + 1 < |d[1..]| && d[1..][k] == '.';
    var j := k + 1;
    assert d[j] == '.';
  }

  /** A name, an `@` and a domain split at a `.` make a match of the email
      pattern. */
  lemma PatternFromSplit(s: string, a: int, j: int)
    requires 0 < a < |s| && s[a] == '@' && AllPlain(s[..a])
    requires 0 < j && j + 1 < |s[a + 1..]| && s[a + 1..][j] == '.'
    requires AllPlain(s[a + 1..][..j]) && AllPlain(s[a + 1..][j + 1..])
    ensures MatchesEmailPattern(s)
  {
    var dot := a + 1 + j;
    assert s[a + 1..dot] == s[a + 1..][..j];
    assert s[dot + 1..] == s[a + 1..][j + 1..];
  }

  /** What the matcher accepts matches the email pattern. */
  lemma AcceptedEmailMatchesPattern(s: string)
    requires IsValidEmail(s)
    ensures MatchesEmailPattern(s)
  {
    AcceptedNameSplit(s);
    var a :| 0 < a < |s| && s[a] == '@' && AllPlain(s[..a]) && Run(DomainEmpty, s[a + 1..]) == DomainDone;
    AcceptedDomainSplit(s[a + 1..]);
    var j :| 0 < j && j + 1 < |s[a + 1..]| && s[a + 1..][j] == '.' && AllPlain(s[a + 1..][..j]) && AllPlain(s[a + 1..][j + 1..]);
    PatternFromSplit(s, a, j);
  }

  /** A domain split at a `.` with a non-empty piece of the class on each
      side is accepted from the domain's first state. */
  lemma SplitDomainAccepted(d: string, j: int)
    requires 0 < j && j + 1 < |d| && d[j] == '.'
    requires AllPlain(d[..j]) && AllPlain(d[j + 1..])
    ensures Run(DomainEmpty, d) == DomainDone
  {
    assert AllPlain(d) by {
      forall i | 0 <= i < |d| ensures Plain(d[i]) {
        if i < j {
          assert d[i] == d[..j][i];
        } else if i > j {
          assert d[i] == d[j + 1..][i - j - 1];
        }
      }
    }
    assert d[1..][j - 1] == '.';
    FromDomainEmpty(d);
  }

  /** What the email pattern matches, the matcher accepts. */
  lemma PatternEmailAccepted(s: string)
    requires MatchesEmailPattern(s)
    ensures IsValidEmail(s)
  {
    var at, dot :| 0 < at && at + 1 < dot && dot + 1 < |s| && s[at] == '@' && s[dot] == '.'
      && AllPlain(s[..at]) && AllPlain(s[at + 1..dot]) && AllPlain(s[dot + 1..]);
    var d := s[at + 1..];
    var j := dot - at - 1;
    assert d[..j] == s[at + 1..dot] && d[j + 1..] == s[dot + 1..];
    SplitDomainAccepted(d, j);
    SplitNameAccepted(s, at);
  }

  /** A non-empty name of the class, an `@` and a domain the matcher
      accepts make an email the matcher accepts. */
  lemma SplitNameAccepted(s: string, at: int)
    requires 0 < at < |s| && s[at] == '@' && AllPlain(s[..at])
    requires Run(DomainEmpty, s[at + 1..]) == DomainDone
    ensures IsValidEmail(s)
  {
    assert s[1..][at - 1] == '@';
    assert s[1..][..at - 1] == s[..at][1..];
    PlainCons(s[..at]);
    assert s[1..][at - 1 + 1..] == s[at + 1..];
    FromName(s[1..]);
  }

  lemma IsValidEmailMatchesPattern(email: string)
    ensures IsValidEmail(email) <==> MatchesEmailPattern(email)
  {
    if IsValidEmail(email) {
      AcceptedEmailMatchesPattern(email);
    }
    if MatchesEmailPattern(email) {
      PatternEmailAccepted(email);
    }
  }

  /** The issue a valid report files. */
  datatype Issue = Issue(title: string, body: string, labels: seq<string>)

  /** What pressing send does: an alert with the first failing check's
      message, or the issue sent to the tracker. */
  datatype Submission = Rejected(message: string) | Submitted(issue: Issue)

  const TitleEmptyMessage := "Title cannot be empty"
  const DescriptionEmptyMessage := "Description cannot be empty"
  const EmailInvalidMessage := "Email must be in the correct form"
  const TitlePrefix := "[Reported In App] "

  function IssueBody(description: string, email: string, coreVersion: string, coreReleaseDate: string): string
  {
    "## Description\n" + description + "\n\n**Reported by:** " + email
      + "\n\n**Core version:** " + coreVersion + "\n\n**Core release date:** " + coreReleaseDate
  }

  /** `submitBugReport` up to the request: the title, then the description,
      then the email is checked, the first failure deciding the alert and
      nothing being sent. */
  function SubmitBugReport(title: string, description: string, email: string, coreVersion: string, coreReleaseDate: string): (r: Submission)
    ensures r.Submitted? <==> !AllWhitespace(title) && !AllWhitespace(description) && MatchesEmailPattern(email)
    ensures AllWhitespace(title) ==> r == Rejected(TitleEmptyMessage)
    ensures !AllWhitespace(title) && AllWhitespace(description) ==> r == Rejected(DescriptionEmptyMessage)
    ensures !AllWhitespace(title) && !AllWhitespace(description) && !MatchesEmailPattern(email) ==> r == Rejected(EmailInvalidMessage)
    ensures r.Submitted? ==> r.issue.title == TitlePrefix + title && r.issue.labels == ["bug"]
    ensures r.Submitted? ==> r.issue.title[|TitlePrefix|..] == title
  {
    IsStringEmptyIffAllWhitespace(title);
    IsStringEmptyIffAllWhitespace(description);
    IsValidEmailMatchesPattern(email);
    if IsStringEmpty(title) then Rejected(TitleEmptyMessage)
    else if IsStringEmpty(description) then Rejected(DescriptionEmptyMessage)
    else if !IsValidEmail(email) then Rejected(EmailInvalidMessage)
    else Submitted(Issue(TitlePrefix + title, IssueBody(description, email, coreVersion, coreReleaseDate), ["bug"]))
  }
}
