// The `send_email` tool: it checks the required fields, writes an 'email'
// task for the browser extension and answers with a confirmation. The task
// writer is a parameter (its error message, if it fails).
module SendEmail {
  import opened Common
  import opened ToolTypes

  const Name := "send_email"
  const MissingFields := "Error: Missing required fields. Please provide to, subject, and body."
  const Header := "✓ Email prepared and ready to send:"
  const Footer := "The email compose window will open in Gmail where you can review and send the email."

  const Definition := Tool(Name,
    "Send an email by opening Gmail compose window with pre-filled details. IMPORTANT: Only use this tool AFTER the user has explicitly confirmed they want to send the email (e.g., \"yes\", \"send it\", \"looks good\", \"go ahead\"). Always present the final email details and ask for confirmation before calling this tool.",
    Parameters(["to", "subject", "body", "cc", "bcc"], ["to", "subject", "body"]),
    SendEmailTool)

  datatype EmailInput = EmailInput(to: JsValue, subject: JsValue, body: JsValue, cc: JsValue, bcc: JsValue)

  predicate HasRequired(i: EmailInput)
  {
    Truthy(i.to) && Truthy(i.subject) && Truthy(i.body)
  }

  /** The task's data: to, subject and body, then cc and bcc when truthy. */
  function EmailData(i: EmailInput): (data: seq<(string, DataValue)>)
    ensures DataKeys(data) == ["to", "subject", "body"] + (if Truthy(i.cc) then ["cc"] else [])
                              + (if Truthy(i.bcc) then ["bcc"] else [])
    ensures data[..3] == [("to", Scalar(i.to)), ("subject", Scalar(i.subject)), ("body", Scalar(i.body))]
  {
    var head := [("to", Scalar(i.to)), ("subject", Scalar(i.subject)), ("body", Scalar(i.body))];
    DataKeysAppend(head + EntryIf("cc", i.cc), EntryIf("bcc", i.bcc));
    DataKeysAppend(head, EntryIf("cc", i.cc));
    head + EntryIf("cc", i.cc) + EntryIf("bcc", i.bcc)
  }

  /** The confirmation's candidate lines, `null` as `None`, with the `''` separator. */
  function ConfirmationLines(i: EmailInput): seq<Option<string>>
  {
    [Some(Header), Some("To: " + JsString(i.to)), Some("Subject: " + JsString(i.subject)),
     LineIf(Truthy(i.cc), "CC: " + JsString(i.cc)), LineIf(Truthy(i.bcc), "BCC: " + JsString(i.bcc)),
     Some(""), Some(Footer)]
  }

  function Confirmation(i: EmailInput): string
  {
    Join(Compact(ConfirmationLines(i)), "\n")
  }

  /**
   * `execute`: the missing-fields answer before any write; after a failed
   * write, the error as a string; otherwise the task and the confirmation.
   * It never rejects.
   */
  function Execute(i: EmailInput, writeError: Option<string>): (run: ToolRun)
    ensures run.outcome.Returned?
    ensures !HasRequired(i) ==> run == ToolRun(Returned(MissingFields), None)
    ensures HasRequired(i) && writeError.Some? ==>
      run == ToolRun(Returned("Error preparing email: " + writeError.value), None)
    ensures HasRequired(i) && writeError.None? ==>
      run == ToolRun(Returned(Confirmation(i)), Some(TaskRow("email", EmailData(i), None)))
    ensures run.task.Some? <==> HasRequired(i) && writeError.None?
  {
    if !HasRequired(i) then ToolRun(Returned(MissingFields), None)
    else match writeError
      case Some(m) => ToolRun(Returned("Error preparing email: " + m), None)
      case None => ToolRun(Returned(Confirmation(i)), Some(TaskRow("email", EmailData(i), None)))
  }

  /**
   * The lines that reach the confirmation: header, recipient, subject, the
   * CC and BCC lines only when given, and the footer; the `''` separator is
   * filtered out with the nulls.
   */
  lemma ConfirmationShape(i: EmailInput)
    ensures Compact(ConfirmationLines(i)) ==
      [Header, "To: " + JsString(i.to), "Subject: " + JsString(i.subject)]
      + (if Truthy(i.cc) then ["CC: " + JsString(i.cc)] else [])
      + (if Truthy(i.bcc) then ["BCC: " + JsString(i.bcc)] else [])
      + [Footer]
  {
    var to, subject := "To: " + JsString(i.to), "Subject: " + JsString(i.subject);
    assert |Header| > 0 && |Footer| > 0 && |to| > 0 && |subject| > 0;
    var o := [LineIf(Truthy(i.cc), "CC: " + JsString(i.cc)), LineIf(Truthy(i.bcc), "BCC: " + JsString(i.bcc))];
    assert ConfirmationLines(i) == [Some(Header), Some(to), Some(subject)] + o + [Some(""), Some(Footer)];
    CompactFramed(Header, to, subject, o, Footer);
    var x, y := OptionalShape(i);
    assert [Header, to, subject] + (x + y) + [Footer] == [Header, to, subject] + x + y + [Footer];
  }

  /** The CC and BCC lines are each kept exactly when their field is given. */
  lemma OptionalShape(i: EmailInput) returns (cc: seq<string>, bcc: seq<string>)
    ensures cc == (if Truthy(i.cc) then ["CC: " + JsString(i.cc)] else [])
    ensures bcc == (if Truthy(i.bcc) then ["BCC: " + JsString(i.bcc)] else [])
    ensures Compact([LineIf(Truthy(i.cc), "CC: " + JsString(i.cc)), LineIf(Truthy(i.bcc), "BCC: " + JsString(i.bcc))]) == cc + bcc
  {
    var a, b := LineIf(Truthy(i.cc), "CC: " + JsString(i.cc)), LineIf(Truthy(i.bcc), "BCC: " + JsString(i.bcc));
    assert a.Some? ==> |a.value| > 0;
    assert b.Some? ==> |b.value| > 0;
    CompactPair(a, b);
    cc, bcc := Kept(a), Kept(b);
  }
}
