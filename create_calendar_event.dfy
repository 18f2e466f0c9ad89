// The `create_calendar_event` tool: required fields, then the two dates,
// then their order; a 'calendar' task for the browser extension and a
// confirmation. Date parsing and the locale's date display are parameters,
// and so is the task writer (its error message, if it fails).
module CreateCalendarEvent {
  import opened Common
  import opened ToolTypes

  const Name := "create_calendar_event"
  const MissingFields := "Error: Missing required fields. Please provide title, startTime, and endTime."
  const InvalidDate := "Error: Invalid date format. Please use ISO 8601 format (e.g., \"2025-10-20T14:00:00\")."
  const EndNotAfterStart := "Error: End time must be after start time."
  const Header := "✓ Calendar event prepared:"
  const Footer := "The event creation window will open in Google Calendar where you can review and save the event."

  const Definition := Tool(Name,
    "Create a calendar event for the user to review and confirm. Use this when the user needs to schedule a meeting, set a reminder, or manage calendar events.",
    Parameters(["title", "startTime", "endTime", "description", "location", "attendees"], ["title", "startTime", "endTime"]),
    CreateCalendarEventTool)

  /** The tool's input; `attendees` is `None` when absent. */
  datatype EventInput = EventInput(title: JsValue, startTime: JsValue, endTime: JsValue,
                                   description: JsValue, location: JsValue, attendees: Option<seq<string>>)

  /**
   * What the environment makes of the dates: the instants `new Date` parses
   * (`None` for an invalid date) and the locale's display of start and end.
   */
  datatype DateReading = DateReading(start: Option<int>, end: Option<int>, startDisplay: string, endDisplay: string)

  predicate HasRequired(i: EventInput)
  {
    Truthy(i.title) && Truthy(i.startTime) && Truthy(i.endTime)
  }

  /** `attendees && attendees.length > 0`. */
  predicate HasAttendees(i: EventInput)
  {
    i.attendees.Some? && |i.attendees.value| > 0
  }

  /** The task's data: title and the two times, then whichever optional fields are given. */
  function EventData(i: EventInput): (data: seq<(string, DataValue)>)
    ensures DataKeys(data) == ["title", "startTime", "endTime"]
                              + (if Truthy(i.description) then ["description"] else [])
                              + (if Truthy(i.location) then ["location"] else [])
                              + (if HasAttendees(i) then ["attendees"] else [])
    ensures data[..3] == [("title", Scalar(i.title)), ("startTime", Scalar(i.startTime)), ("endTime", Scalar(i.endTime))]
    ensures HasAttendees(i) ==> data[|data| - 1] == ("attendees", Strings(i.attendees.value))
  {
    var head := [("title", Scalar(i.title)), ("startTime", Scalar(i.startTime)), ("endTime", Scalar(i.endTime))];
    var desc, loc := EntryIf("description", i.description), EntryIf("location", i.location);
    var people := if HasAttendees(i) then [("attendees", Strings(i.attendees.value))] else [];
    var a := head + desc;
    var b := a + loc;
    assert DataKeys(head) == ["title", "startTime", "endTime"];
    EntryIfKeys("description", i.description);
    EntryIfKeys("location", i.location);
    assert DataKeys(people) == if HasAttendees(i) then ["attendees"] else [];
    DataKeysAppend(head, desc);
    DataKeysAppend(a, loc);
    DataKeysAppend(b, people);
    assert (b + people)[..3] == head;
    b + people
  }

  /** The three optional lines, `null` as `None`. */
  function OptionalLines(i: EventInput): seq<Option<string>>
  {
    [LineIf(Truthy(i.location), "Location: " + JsString(i.location)),
     LineIf(HasAttendees(i), "Attendees: " + (if i.attendees.Some? then Join(i.attendees.value, ", ") else "")),
     LineIf(Truthy(i.description), "\nDescription: " + JsString(i.description))]
  }

  function ConfirmationLines(i: EventInput, d: DateReading): seq<Option<string>>
  {
    [Some(Header), Some("Title: " + JsString(i.title)), Some("When: " + d.startDisplay + " - " + d.endDisplay)]
      + OptionalLines(i) + [Some(""), Some(Footer)]
  }

  function Confirmation(i: EventInput, d: DateReading): string
  {
    Join(Compact(ConfirmationLines(i, d)), "\n")
  }

  /** The checks in order; `None` when the input passes them all. */
  function Validate(i: EventInput, d: DateReading): (e: Option<string>)
    ensures !HasRequired(i) ==> e == Some(MissingFields)
    ensures HasRequired(i) && (d.start.None? || d.end.None?) ==> e == Some(InvalidDate)
    ensures HasRequired(i) && d.start.Some? && d.end.Some? && d.end.value <= d.start.value ==> e == Some(EndNotAfterStart)
    ensures e.None? <==> HasRequired(i) && d.start.Some? && d.end.Some? && d.start.value < d.end.value
  {
    if !HasRequired(i) then Some(MissingFields)
    else if d.start.None? || d.end.None? then Some(InvalidDate)
    else if d.end.value <= d.start.value then Some(EndNotAfterStart)
    else None
  }

  /**
   * `execute`: a failed check answers with its message and writes nothing;
   * a failed write answers with its error; otherwise the task and the
   * confirmation. It never rejects.
   */
  function Execute(i: EventInput, d: DateReading, writeError: Option<string>): (run: ToolRun)
    ensures run.outcome.Returned?
    ensures Validate(i, d).Some? ==> run == ToolRun(Returned(Validate(i, d).value), None)
    ensures Validate(i, d).None? && writeError.Some? ==>
      run == ToolRun(Returned("Error preparing calendar event: " + writeError.value), None)
    ensures Validate(i, d).None? && writeError.None? ==>
      run == ToolRun(Returned(Confirmation(i, d)), Some(TaskRow("calendar", EventData(i), None)))
    ensures run.task.Some? ==> d.start.Some? && d.end.Some? && d.start.value < d.end.value
  {
    match Validate(i, d)
      case Some(e) => ToolRun(Returned(e), None)
      case None =>
        match writeError
          case Some(m) => ToolRun(Returned("Error preparing calendar event: " + m), None)
          case None => ToolRun(Returned(Confirmation(i, d)), Some(TaskRow("calendar", EventData(i), None)))
  }

  /**
   * The lines that reach the confirmation: header, title and time, the
   * location, attendees and description lines only when given, and the
   * footer.
   */
  lemma ConfirmationShape(i: EventInput, d: DateReading)
    ensures Compact(ConfirmationLines(i, d)) ==
      [Header, "Title: " + JsString(i.title), "When: " + d.startDisplay + " - " + d.endDisplay]
      + (if Truthy(i.location) then ["Location: " + JsString(i.location)] else [])
      + (if HasAttendees(i) then ["Attendees: " + Join(i.attendees.value, ", ")] else [])
      + (if Truthy(i.description) then ["\nDescription: " + JsString(i.description)] else [])
      + [Footer]
  {
    var title, when := "Title: " + JsString(i.title), "When: " + d.startDisplay + " - " + d.endDisplay;
    assert |Header| > 0 && |Footer| > 0 && |title| > 0 && |when| > 0;
    CompactFramed(Header, title, when, OptionalLines(i), Footer);
    var x, y, z := OptionalShape(i);
    assert [Header, title, when] + (x + y + z) + [Footer] == [Header, title, when] + x + y + z + [Footer];
  }

  /** Each optional line is kept exactly when its field is given. */
  lemma OptionalShape(i: EventInput) returns (location: seq<string>, people: seq<string>, notes: seq<string>)
    ensures location == (if Truthy(i.location) then ["Location: " + JsString(i.location)] else [])
    ensures people == (if HasAttendees(i) then ["Attendees: " + Join(i.attendees.value, ", ")] else [])
    ensures notes == (if Truthy(i.description) then ["\nDescription: " + JsString(i.description)] else [])
    ensures Compact(OptionalLines(i)) == location + people + notes
  {
    var o := OptionalLines(i);
    assert o[0].Some? ==> |o[0].value| > 0;
    assert o[1].Some? ==> |o[1].value| > 0;
    assert o[2].Some? ==> |o[2].value| > 0;
    assert o == [o[0], o[1], o[2]];
    CompactTriple(o[0], o[1], o[2]);
    location, people, notes := Kept(o[0]), Kept(o[1]), Kept(o[2]);
  }

  /** An event that ends when it starts is refused before anything is written. */
  lemma ZeroLengthRefused(i: EventInput, t: int, display: string, writeError: Option<string>)
    requires HasRequired(i)
    ensures Execute(i, DateReading(Some(t), Some(t), display, display), writeError)
            == ToolRun(Returned(EndNotAfterStart), None)
  {
  }
}
