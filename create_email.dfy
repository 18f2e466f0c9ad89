// The `create_email` tool: it checks the required fields and inserts a
// pending 'email' task row. The insert's outcome is a parameter (its
// error message, if it fails).
module CreateEmail {
  import opened Common
  import opened ToolTypes

  const Name := "create_email"
  const MissingFields := "Error: Missing required fields (to, subject, body)"

  const Definition := Tool(Name,
    "Create a draft email for the user to review and send. Use this when the user needs to communicate with someone via email or when creating an email would be helpful based on their current activity.",
    Parameters(["to", "subject", "body"], ["to", "subject", "body"]),
    CreateEmailTool)

  datatype EmailDraft = EmailDraft(to: JsValue, subject: JsValue, body: JsValue)

  predicate HasRequired(i: EmailDraft)
  {
    Truthy(i.to) && Truthy(i.subject) && Truthy(i.body)
  }

  /** The row's data object: to, subject and body, in that order. */
  function TaskData(i: EmailDraft): (data: seq<(string, DataValue)>)
    ensures DataKeys(data) == ["to", "subject", "body"]
    ensures forall k :: 0 <= k < |data| ==> data[k].1.Scalar?
    ensures data[0].1.v == i.to && data[1].1.v == i.subject && data[2].1.v == i.body
  {
    [("to", Scalar(i.to)), ("subject", Scalar(i.subject)), ("body", Scalar(i.body))]
  }

  function SuccessMessage(i: EmailDraft): string
  {
    "Email draft created successfully. The email to " + JsString(i.to) + " with subject \""
      + JsString(i.subject) + "\" has been prepared and is ready for review."
  }

  /**
   * `execute`: the missing-fields answer before any insert; a failed insert
   * rejects with its message and writes nothing; otherwise a pending row
   * and the success message.
   */
  function Execute(i: EmailDraft, insertError: Option<string>): (run: ToolRun)
    ensures !HasRequired(i) ==> run == ToolRun(Returned(MissingFields), None)
    ensures HasRequired(i) && insertError.Some? ==>
      run == ToolRun(Rejected("Failed to create email task: " + insertError.value), None)
    ensures HasRequired(i) && insertError.None? ==>
      run == ToolRun(Returned(SuccessMessage(i)), Some(TaskRow("email", TaskData(i), Some("pending"))))
    ensures run.outcome.Rejected? <==> HasRequired(i) && insertError.Some?
    ensures run.task.Some? <==> HasRequired(i) && insertError.None?
  {
    if !HasRequired(i) then ToolRun(Returned(MissingFields), None)
    else match insertError
      case Some(m) => ToolRun(Rejected("Failed to create email task: " + m), None)
      case None => ToolRun(Returned(SuccessMessage(i)), Some(TaskRow("email", TaskData(i), Some("pending"))))
  }

  /** The success message names the recipient and the subject as given. */
  lemma SuccessNamesRecipientAndSubject(i: EmailDraft)
    ensures Contains(SuccessMessage(i), JsString(i.to))
    ensures Contains(SuccessMessage(i), JsString(i.subject))
  {
    var prefix := "Email draft created successfully. The email to ";
    var middle := " with subject \"";
    var suffix := "\" has been prepared and is ready for review.";
    var to, subject := JsString(i.to), JsString(i.subject);
    assert SuccessMessage(i) == prefix + to + (middle + subject + suffix);
    OccursAfter(prefix, to, middle + subject + suffix);
    assert SuccessMessage(i) == (prefix + to + middle) + subject + suffix;
    OccursAfter(prefix + to + middle, subject, suffix);
  }
}
