// The extension's Gmail helpers: the compose-window URL, the validator an
// email task passes before it is sent, the address check and the one-line
// summary.
module Gmail {
  import opened Common

  /** An email task's payload; absent optional fields are `None`. */
  datatype EmailTask = EmailTask(to: string, subject: string, body: string, cc: Option<string>, bcc: Option<string>)

  // ---------------------------------------------------------------------
  // Compose URL

  const ComposeBase := "https://mail.google.com/mail/?view=cm"

  /** The parameters of the compose URL, in the order they are appended. */
  function ComposeParams(t: EmailTask): seq<(string, string)>
  {
    [("to", t.to), ("su", t.subject), ("body", t.body)]
    + OptionalParam("cc", t.cc)
    + OptionalParam("bcc", t.bcc)
  }

  /** `GmailUtils.buildComposeUrl`. */
  method BuildComposeUrl(t: EmailTask) returns (url: Url)
    ensures url == Url(ComposeBase, ComposeParams(t))
  {
    var params: seq<(string, string)> := [];
    params := params + [("to", t.to)];
    params := params + [("su", t.subject)];
    params := params + [("body", t.body)];
    if Present(t.cc) {
      params := params + [("cc", t.cc.value)];
    }
    if Present(t.bcc) {
      params := params + [("bcc", t.bcc.value)];
    }
    url := Url(ComposeBase, params);
  }

  /** The compose URL names `to`, `su` and `body`, then `cc` and `bcc` only when they are given. */
  lemma ComposeParamsKeys(t: EmailTask)
    ensures Keys(ComposeParams(t))
            == ["to", "su", "body"] + (if Present(t.cc) then ["cc"] else []) + (if Present(t.bcc) then ["bcc"] else [])
  {
    var a := [("to", t.to), ("su", t.subject), ("body", t.body)];
    var b := OptionalParam("cc", t.cc);
    var c := OptionalParam("bcc", t.bcc);
    KeysConcat(a + b, c);
    KeysConcat(a, b);
  }

  lemma OptionalComposeValues(t: EmailTask)
    ensures var rest := OptionalParam("cc", t.cc) + OptionalParam("bcc", t.bcc);
            Lookup(rest, "cc") == (if Present(t.cc) then t.cc else None)
            && Lookup(rest, "bcc") == (if Present(t.bcc) then t.bcc else None)
  {
    var b := OptionalParam("cc", t.cc);
    var c := OptionalParam("bcc", t.bcc);
    if Present(t.cc) {
      LookupPrefix(b, c, "cc");
    } else {
      LookupSkip(b, c, "cc");
    }
    assert "bcc" !in Keys(b);
    LookupSkip(b, c, "bcc");
  }

  /** Each compose parameter reads back as the task field it was built from. */
  lemma ComposeParamsValues(t: EmailTask)
    ensures var p := ComposeParams(t);
            Lookup(p, "to") == Some(t.to)
            && Lookup(p, "su") == Some(t.subject)
            && Lookup(p, "body") == Some(t.body)
            && Lookup(p, "cc") == (if Present(t.cc) then t.cc else None)
            && Lookup(p, "bcc") == (if Present(t.bcc) then t.bcc else None)
  {
    var a := [("to", t.to), ("su", t.subject), ("body", t.body)];
    var rest := OptionalParam("cc", t.cc) + OptionalParam("bcc", t.bcc);
    assert ComposeParams(t) == a + rest;
    assert Keys(a) == ["to", "su", "body"];
    assert Lookup(a, "to") == Some(t.to);
    assert Lookup(a, "su") == Lookup(a[1..], "su") == Some(t.subject);
    assert Lookup(a, "body") == Lookup(a[1..], "body") == Lookup(a[1..][1..], "body") == Some(t.body);
    LookupPrefix(a, rest, "to");
    LookupPrefix(a, rest, "su");
    LookupPrefix(a, rest, "body");
    assert "cc" !in Keys(a) && "bcc" !in Keys(a);
    LookupSkip(a, rest, "cc");
    LookupSkip(a, rest, "bcc");
    OptionalComposeValues(t);
  }

  // ---------------------------------------------------------------------
  // Address check

  /** No whitespace and no `@`: the class `[^\s@]`. */
  predicate Clean(s: string)
  {
    forall k :: 0 <= k < |s| ==> !IsWhitespace(s[k]) && s[k] != '@'
  }

  /**
   * `/^[^\s@]+@[^\s@]+\.[^\s@]+$/` as a split: a non-empty clean local part,
   * `@`, a non-empty clean part, a dot, and a non-empty clean part.
   */
  predicate MatchesEmailPattern(t: string)
  {
    exists i, j :: 0 < i && i + 1 < j && j + 1 < |t| && t[i] == '@' && t[j] == '.'
                   && Clean(t[..i]) && Clean(t[i + 1..j]) && Clean(t[j + 1..])
  }

  /** The first index of `c` in `s`. */
  function FirstIndex(s: string, c: char): (r: Option<nat>)
    ensures r.Some? ==> r.value < |s| && s[r.value] == c && forall k :: 0 <= k < r.value ==> s[k] != c
    ensures r.None? ==> forall k :: 0 <= k < |s| ==> s[k] != c
  {
    if s == [] then None
    else if s[0] == c then Some(0)
    else match FirstIndex(s[1..], c)
      case None => None
      case Some(k) => Some(k + 1)
  }

  predicate NoWhitespace(s: string)
  {
    forall k :: 0 <= k < |s| ==> !IsWhitespace(s[k])
  }

  /** A dot strictly inside the domain, neither first nor last. */
  predicate HasInnerDot(d: string)
  {
    |d| >= 3 && FirstIndex(d[1..|d| - 1], '.').Some?
  }

  /**
   * `isValidEmail`: the trimmed address has no whitespace, one `@` that is
   * not first, and a dot strictly inside what follows it.
   */
  predicate IsValidEmail(email: string)
  {
    var t := Trim(email);
    NoWhitespace(t)
    && match FirstIndex(t, '@')
       case None => false
       case Some(i) => 0 < i && FirstIndex(t[i + 1..], '@').None? && HasInnerDot(t[i + 1..])
  }

  lemma ValidEmailMatches(t: string)
    requires NoWhitespace(t) && FirstIndex(t, '@').Some?
    requires var i := FirstIndex(t, '@').value;
             0 < i && FirstIndex(t[i + 1..], '@').None? && HasInnerDot(t[i + 1..])
    ensures MatchesEmailPattern(t)
  {
    var i := FirstIndex(t, '@').value;
    var d := t[i + 1..];
    var k := FirstIndex(d[1..|d| - 1], '.').value;
    var j := i + 2 + k;
    assert t[j] == d[1..|d| - 1][k];
    var mid, tail := t[i + 1..j], t[j + 1..];
    forall m | 0 <= m < |tail| ensures !IsWhitespace(tail[m]) && tail[m] != '@' {
      assert tail[m] == t[j + 1 + m] == d[j - i + m];
    }
    forall m | 0 <= m < |mid| ensures !IsWhitespace(mid[m]) && mid[m] != '@' {
      assert mid[m] == t[i + 1 + m] == d[m];
    }
    assert 0 < i && i + 1 < j && j + 1 < |t| && t[i] == '@' && t[j] == '.'
           && Clean(t[..i]) && Clean(t[i + 1..j]) && Clean(t[j + 1..]);
  }

  lemma MatchesValidEmail(t: string, i: int, j: int)
    requires 0 < i && i + 1 < j && j + 1 < |t| && t[i] == '@' && t[j] == '.'
    requires Clean(t[..i]) && Clean(t[i + 1..j]) && Clean(t[j + 1..])
    ensures NoWhitespace(t) && FirstIndex(t, '@') == Some(i)
    ensures FirstIndex(t[i + 1..], '@').None? && HasInnerDot(t[i + 1..])
  {
    forall m | 0 <= m < |t| ensures !IsWhitespace(t[m]) && (m != i ==> t[m] != '@') {
      if m < i {
        assert t[m] == t[..i][m];
      } else if i < m < j {
        assert t[m] == t[i + 1..j][m - i - 1];
      } else if j < m {
        assert t[m] == t[j + 1..][m - j - 1];
      }
    }
    var d := t[i + 1..];
    assert forall m :: 0 <= m < |d| ==> d[m] == t[i + 1 + m];
    var inner := d[1..|d| - 1];
    assert inner[j - i - 2] == '.';
  }

  /** The address check is exactly the pattern, applied to the trimmed address. */
  lemma IsValidEmailIffPattern(email: string)
    ensures IsValidEmail(email) <==> MatchesEmailPattern(Trim(email))
  {
    var t := Trim(email);
    if IsValidEmail(email) {
      ValidEmailMatches(t);
    }
    if MatchesEmailPattern(t) {
      var i, j :| 0 < i && i + 1 < j && j + 1 < |t| && t[i] == '@' && t[j] == '.'
                  && Clean(t[..i]) && Clean(t[i + 1..j]) && Clean(t[j + 1..]);
      MatchesValidEmail(t, i, j);
    }
  }

  /** A blank address is never valid. */
  lemma BlankIsInvalid(email: string)
    requires Trim(email) == ""
    ensures !IsValidEmail(email)
  {
  }

  // ---------------------------------------------------------------------
  // Validation

  /** The validator's error kinds, in the order it checks them. */
  datatype EmailError = RecipientRequired | RecipientInvalid | SubjectRequired | BodyRequired | CcInvalid | BccInvalid

  /** The message each error kind reports. */
  function Message(err: EmailError): string
  {
    match err
    case RecipientRequired => "Recipient email is required"
    case RecipientInvalid => "Invalid recipient email format"
    case SubjectRequired => "Subject is required"
    case BodyRequired => "Email body is required"
    case CcInvalid => "Invalid CC email format"
    case BccInvalid => "Invalid BCC email format"
  }

  /** Different error kinds report different messages, so the list of messages identifies the errors. */
  lemma MessageInjective(a: EmailError, b: EmailError)
    ensures Message(a) == Message(b) ==> a == b
  {
    if a != b {
      var ma, mb := Message(a), Message(b);
      if ma[0] == mb[0] {
        assert ma[8] != mb[8];
      }
    }
  }

  function Messages(errs: seq<EmailError>): (r: seq<string>)
    ensures |r| == |errs| && forall i :: 0 <= i < |errs| ==> r[i] == Message(errs[i])
  {
    seq(|errs|, i requires 0 <= i < |errs| => Message(errs[i]))
  }

  /** What the validator finds out about each field of a task. */
  datatype Verdicts = Verdicts(toBlank: bool, toValid: bool, subjectBlank: bool, bodyBlank: bool,
                               ccBad: bool, bccBad: bool)

  /** `!x || x.trim() === ''` is a blank trim; CC and BCC are checked only when truthy. */
  function Judge(t: EmailTask): Verdicts
  {
    Verdicts(Trim(t.to) == "", IsValidEmail(t.to), Trim(t.subject) == "", Trim(t.body) == "",
             Present(t.cc) && !IsValidEmail(t.cc.value), Present(t.bcc) && !IsValidEmail(t.bcc.value))
  }

  /** The one-element list of `err` when `fails` holds, else nothing. */
  function When(fails: bool, err: EmailError): (r: seq<EmailError>)
    ensures err in r <==> fails
    ensures |r| <= 1 && forall e :: e in r ==> e == err
  {
    if fails then [err] else []
  }

  /** The recipient's errors: required when blank, otherwise invalid when the address check fails. */
  function RecipientErrors(v: Verdicts): (r: seq<EmailError>)
    ensures |r| <= 1
  {
    if v.toBlank then [RecipientRequired] else When(!v.toValid, RecipientInvalid)
  }

  /** The errors of a task, in the order the validator's checks run. */
  function ErrorsOf(v: Verdicts): seq<EmailError>
  {
    RecipientErrors(v) + When(v.subjectBlank, SubjectRequired) + When(v.bodyBlank, BodyRequired)
    + When(v.ccBad, CcInvalid) + When(v.bccBad, BccInvalid)
  }

  function EmailErrors(t: EmailTask): seq<EmailError>
  {
    ErrorsOf(Judge(t))
  }

  datatype ValidationResult = ValidationResult(isValid: bool, errors: seq<string>)

  /**
   * `GmailUtils.validateEmailTask`. The field checks are pure, so they are
   * judged first and then pushed in the source's order.
   */
  method ValidateEmailTask(t: EmailTask) returns (r: ValidationResult)
    ensures r.errors == Messages(EmailErrors(t))
    ensures r.isValid <==> EmailErrors(t) == []
  {
    var v := Judge(t);
    var errors := CollectErrors(v);
    r := ValidationResult(|errors| == 0, errors);
  }

  /** The validator's chain of conditional pushes. */
  method CollectErrors(v: Verdicts) returns (errors: seq<string>)
    ensures errors == Messages(ErrorsOf(v))
  {
    errors := [];
    if v.toBlank {
      errors := errors + [Message(RecipientRequired)];
    } else if !v.toValid {
      errors := errors + [Message(RecipientInvalid)];
    }
    ghost var kinds := RecipientErrors(v);
    assert errors == Messages(kinds);
    errors := Push(errors, kinds, v.subjectBlank, SubjectRequired);
    kinds := kinds + When(v.subjectBlank, SubjectRequired);
    errors := Push(errors, kinds, v.bodyBlank, BodyRequired);
    kinds := kinds + When(v.bodyBlank, BodyRequired);
    errors := Push(errors, kinds, v.ccBad, CcInvalid);
    kinds := kinds + When(v.ccBad, CcInvalid);
    errors := Push(errors, kinds, v.bccBad, BccInvalid);
  }

  /** `if (fails) errors.push(message)`. */
  method Push(errors: seq<string>, ghost kinds: seq<EmailError>, fails: bool, err: EmailError)
    returns (r: seq<string>)
    requires errors == Messages(kinds)
    ensures r == Messages(kinds + When(fails, err))
  {
    r := errors;
    if fails {
      r := r + [Message(err)];
    }
  }

  lemma ErrorsOfMembers(v: Verdicts)
    ensures var errs := ErrorsOf(v);
            (RecipientRequired in errs <==> v.toBlank)
            && (RecipientInvalid in errs <==> !v.toBlank && !v.toValid)
            && (SubjectRequired in errs <==> v.subjectBlank)
            && (BodyRequired in errs <==> v.bodyBlank)
            && (CcInvalid in errs <==> v.ccBad)
            && (BccInvalid in errs <==> v.bccBad)
  {
    assert RecipientRequired in RecipientErrors(v) <==> v.toBlank;
    assert RecipientInvalid in RecipientErrors(v) <==> !v.toBlank && !v.toValid;
  }

  /** Each error is reported exactly when its condition holds. */
  lemma EmailErrorsMembers(t: EmailTask)
    ensures var errs := EmailErrors(t);
            (RecipientRequired in errs <==> Trim(t.to) == "")
            && (RecipientInvalid in errs <==> Trim(t.to) != "" && !IsValidEmail(t.to))
            && (SubjectRequired in errs <==> Trim(t.subject) == "")
            && (BodyRequired in errs <==> Trim(t.body) == "")
            && (CcInvalid in errs <==> Present(t.cc) && !IsValidEmail(t.cc.value))
            && (BccInvalid in errs <==> Present(t.bcc) && !IsValidEmail(t.bcc.value))
  {
    ErrorsOfMembers(Judge(t));
  }

  lemma ErrorsOfEmpty(v: Verdicts)
    ensures ErrorsOf(v) == [] <==> !v.toBlank && v.toValid && !v.subjectBlank && !v.bodyBlank && !v.ccBad && !v.bccBad
  {
  }

  /**
   * A task is valid exactly when the recipient is a valid address, subject
   * and body are not blank, and each given CC/BCC is a valid address.
   */
  lemma ValidIffAllChecksPass(t: EmailTask)
    ensures EmailErrors(t) == [] <==>
              IsValidEmail(t.to) && Trim(t.subject) != "" && Trim(t.body) != ""
              && (Present(t.cc) ==> IsValidEmail(t.cc.value))
              && (Present(t.bcc) ==> IsValidEmail(t.bcc.value))
  {
    ErrorsOfEmpty(Judge(t));
    if Trim(t.to) == "" {
      BlankIsInvalid(t.to);
    }
  }

  /** At most one recipient error, and one exactly when the recipient is not a valid address. */
  lemma RecipientErrorsExclusive(t: EmailTask)
    ensures var errs := EmailErrors(t);
            !(RecipientRequired in errs && RecipientInvalid in errs)
            && (RecipientRequired in errs || RecipientInvalid in errs <==> !IsValidEmail(t.to))
  {
    ErrorsOfMembers(Judge(t));
    if Trim(t.to) == "" {
      BlankIsInvalid(t.to);
    }
  }

  /** The position of an error kind in the validator's fixed order. */
  function Rank(err: EmailError): nat
  {
    match err
    case RecipientRequired => 0
    case RecipientInvalid => 1
    case SubjectRequired => 2
    case BodyRequired => 3
    case CcInvalid => 4
    case BccInvalid => 5
  }

  predicate RankIncreasing(errs: seq<EmailError>)
  {
    forall i, j :: 0 <= i < j < |errs| ==> Rank(errs[i]) < Rank(errs[j])
  }

  /** Two ordered lists whose ranks do not overlap concatenate to an ordered list. */
  lemma RankIncreasingConcat(a: seq<EmailError>, b: seq<EmailError>, bound: nat)
    requires RankIncreasing(a) && RankIncreasing(b)
    requires forall e :: e in a ==> Rank(e) < bound
    requires forall e :: e in b ==> bound <= Rank(e)
    ensures RankIncreasing(a + b)
  {
    var ab := a + b;
    forall i, j | 0 <= i < j < |ab| ensures Rank(ab[i]) < Rank(ab[j]) {
      if j < |a| {
        assert ab[i] == a[i] && ab[j] == a[j];
      } else if i >= |a| {
        assert ab[i] == b[i - |a|] && ab[j] == b[j - |a|];
      } else {
        assert ab[i] == a[i] && ab[j] == b[j - |a|];
        assert a[i] in a && b[j - |a|] in b;
      }
    }
  }

  lemma ErrorsOfInOrder(v: Verdicts)
    ensures RankIncreasing(ErrorsOf(v))
    ensures |ErrorsOf(v)| <= 5
  {
    var r := RecipientErrors(v);
    var s, b, c, d := When(v.subjectBlank, SubjectRequired), When(v.bodyBlank, BodyRequired),
                      When(v.ccBad, CcInvalid), When(v.bccBad, BccInvalid);
    assert forall e :: e in r ==> Rank(e) < 2;
    RankIncreasingConcat(r, s, 2);
    RankIncreasingConcat(r + s, b, 3);
    RankIncreasingConcat(r + s + b, c, 4);
    RankIncreasingConcat(r + s + b + c, d, 5);
  }

  /** Errors are reported in the fixed order recipient, subject, body, CC, BCC, each at most once. */
  lemma EmailErrorsInOrder(t: EmailTask)
    ensures RankIncreasing(EmailErrors(t))
    ensures |EmailErrors(t)| <= 5
  {
    ErrorsOfInOrder(Judge(t));
  }

  // ---------------------------------------------------------------------
  // Summary

  const SummaryLimit := 50

  /** The subject as the summary shows it: cut to 50 characters plus `...` when longer. */
  function ShownSubject(subject: string): (r: string)
    ensures |subject| <= SummaryLimit ==> r == subject
    ensures |subject| > SummaryLimit ==> |r| == SummaryLimit + 3 && r[..SummaryLimit] == subject[..SummaryLimit]
                                         && r[SummaryLimit..] == "..."
  {
    if |subject| > SummaryLimit then subject[..SummaryLimit] + "..." else subject
  }

  /** `GmailUtils.formatEmailSummary`. */
  function FormatEmailSummary(t: EmailTask): (r: string)
    ensures StartsWith(r, "To: " + t.to + " - ")
    ensures |r| <= |"To: " + t.to + " - "| + SummaryLimit + 3
  {
    "To: " + t.to + " - " + ShownSubject(t.subject)
  }

  /** The summary gives back the recipient and the shown subject. */
  lemma FormatEmailSummaryParts(t: EmailTask)
    ensures var head := "To: " + t.to + " - ";
            FormatEmailSummary(t)[|head|..] == ShownSubject(t.subject)
  {
  }
}
