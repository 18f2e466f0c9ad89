// The demonstration scenarios the task generator can be seeded with: two
// fixed tables of four email and four calendar scenarios, lookup by id,
// and a pick driven by a random number in [0, 1) that is a parameter.
module Scenarios {
  import opened Common

  datatype EmailScenario = EmailScenario(id: string, context: string, to: string, tone: string,
                                         keyPoints: Option<seq<string>>)

  datatype CalendarScenario = CalendarScenario(id: string, context: string, attendees: seq<string>, tone: string,
                                               keyPoints: Option<seq<string>>)

  const EmailScenarios: seq<EmailScenario> := [
    EmailScenario(
      "client-followup",
      "Follow up with client Sarah Chen about the Q4 project proposal discussed in yesterday's meeting. She seemed interested but wanted to review the technical specifications with her team. The proposal includes a new AI-powered dashboard feature that could save them 40% on manual reporting time.",
      "sarah.chen@example.com",
      "professional and friendly",
      Some(["Thank her for the productive meeting", "Offer to schedule a technical demo", "Highlight the AI dashboard benefits"])),
    EmailScenario(
      "project-status-update",
      "Send a status update to the development team about the TEDAI Chrome extension project. We've completed the core task queue functionality and are now working on Gemini API integration. The extension is currently in beta testing with 5 internal users.",
      "dev-team@company.com",
      "informative and encouraging",
      Some(["Core functionality complete", "Gemini API integration in progress", "Beta testing phase started"])),
    EmailScenario(
      "proposal-submission",
      "Submit a proposal for the AI automation hackathon. Our TEDAI Chrome extension can proactively suggest emails and calendar events based on screen context. We need to highlight the technical innovation and potential market impact.",
      "hackathon@techconference.com",
      "persuasive and technical",
      Some(["Proactive AI assistance", "Screen context analysis", "Market potential for productivity tools"])),
    EmailScenario(
      "meeting-request",
      "Request a meeting with the product team to discuss integrating our TEDAI AI agent into their existing workflow tools. We want to explore partnership opportunities and demonstrate the extension's capabilities.",
      "product@partnercompany.com",
      "collaborative and professional",
      Some(["Partnership exploration", "Product demonstration", "Workflow integration potential"]))
  ]

  const CalendarScenarios: seq<CalendarScenario> := [
    CalendarScenario(
      "team-standup",
      "Schedule a weekly team standup for the TEDAI project. The team consists of 4 developers and 2 designers. We need to discuss progress on the Chrome extension, upcoming deadlines, and any blockers. The meeting should be interactive with time for each person to share updates.",
      ["dev1@company.com", "dev2@company.com", "dev3@company.com", "dev4@company.com", "designer1@company.com", "designer2@company.com"],
      "collaborative and structured",
      Some(["Weekly progress review", "Blockers discussion", "Upcoming deadlines", "Individual updates"])),
    CalendarScenario(
      "client-demo",
      "Schedule a product demonstration for potential client TechCorp. They are interested in our AI-powered productivity tools. The demo should showcase the Chrome extension's ability to generate contextual emails and calendar events. Include time for Q&A and discussion of implementation.",
      ["john.smith@techcorp.com", "sarah.wilson@techcorp.com", "mike.chen@techcorp.com"],
      "professional and engaging",
      Some(["Product demonstration", "Contextual AI features", "Implementation discussion", "Q&A session"])),
    CalendarScenario(
      "quarterly-review",
      "Schedule a quarterly business review meeting with the executive team. We need to present the progress on TEDAI project, discuss budget allocation for next quarter, and review key performance metrics. Include stakeholders from engineering, product, and business development.",
      ["ceo@company.com", "cto@company.com", "cpo@company.com", "cfo@company.com"],
      "formal and data-driven",
      Some(["Project progress review", "Budget discussion", "KPI analysis", "Next quarter planning"])),
    CalendarScenario(
      "technical-workshop",
      "Schedule a technical workshop for the development team on Gemini API integration. The session should cover API best practices, error handling, and performance optimization. Include hands-on coding exercises and troubleshooting tips.",
      ["dev1@company.com", "dev2@company.com", "dev3@company.com", "dev4@company.com"],
      "educational and hands-on",
      Some(["API best practices", "Error handling", "Performance optimization", "Hands-on exercises"]))
  ]

  /** No id occurs twice in the email table. */
  lemma EmailIdsDistinct()
    ensures forall i, j :: 0 <= i < j < |EmailScenarios| ==> EmailScenarios[i].id != EmailScenarios[j].id
  {
    var a, b, c, d := EmailScenarios[0].id, EmailScenarios[1].id, EmailScenarios[2].id, EmailScenarios[3].id;
    assert a[0] == 'c' && b[0] == 'p' && c[0] == 'p' && d[0] == 'm';
    assert b[2] == 'o' && c[2] == 'o' && b[3] == 'j' && c[3] == 'p';
  }

  /** No id occurs twice in the calendar table. */
  lemma CalendarIdsDistinct()
    ensures forall i, j :: 0 <= i < j < |CalendarScenarios| ==> CalendarScenarios[i].id != CalendarScenarios[j].id
  {
    var a, b, c, d := CalendarScenarios[0].id, CalendarScenarios[1].id, CalendarScenarios[2].id, CalendarScenarios[3].id;
    assert a[0] == 't' && b[0] == 'c' && c[0] == 'q' && d[0] == 't';
    assert a[1] == 'e' && d[1] == 'e' && a[2] == 'a' && d[2] == 'c';
  }

  /** Every calendar scenario invites at least one attendee. */
  lemma CalendarScenariosHaveAttendees()
    ensures forall i :: 0 <= i < |CalendarScenarios| ==> |CalendarScenarios[i].attendees| > 0
  {
  }

  /** The index of the first entry whose id is `id`, as `Array.prototype.find` scans. */
  function FirstWithId<T>(table: seq<T>, idOf: T -> string, id: string): (k: Option<nat>)
    ensures k.Some? ==> k.value < |table| && idOf(table[k.value]) == id
    ensures k.Some? ==> forall j :: 0 <= j < k.value ==> idOf(table[j]) != id
    ensures k.None? <==> forall j :: 0 <= j < |table| ==> idOf(table[j]) != id
  {
    if table == [] then None
    else if idOf(table[0]) == id then Some(0)
    else
      match FirstWithId(table[1..], idOf, id)
      case None => None
      case Some(k) => Some(k + 1)
  }

  /** With distinct ids, the first entry with the id of entry `k` is entry `k`. */
  lemma FirstWithOwnId<T>(table: seq<T>, idOf: T -> string, k: nat)
    requires k < |table| && forall i, j :: 0 <= i < j < |table| ==> idOf(table[i]) != idOf(table[j])
    ensures FirstWithId(table, idOf, idOf(table[k])) == Some(k)
  {
  }

  /** `emailScenarios.find(s => s.id === id)`: the first scenario with the id, or `undefined`. */
  function GetEmailScenarioById(id: string): (r: Option<EmailScenario>)
    ensures r.Some? ==> r.value in EmailScenarios && r.value.id == id
    ensures r.None? <==> forall i :: 0 <= i < |EmailScenarios| ==> EmailScenarios[i].id != id
  {
    match FirstWithId(EmailScenarios, (s: EmailScenario) => s.id, id)
    case None => None
    case Some(k) => Some(EmailScenarios[k])
  }

  /** `calendarScenarios.find(s => s.id === id)`. */
  function GetCalendarScenarioById(id: string): (r: Option<CalendarScenario>)
    ensures r.Some? ==> r.value in CalendarScenarios && r.value.id == id
    ensures r.None? <==> forall i :: 0 <= i < |CalendarScenarios| ==> CalendarScenarios[i].id != id
  {
    match FirstWithId(CalendarScenarios, (s: CalendarScenario) => s.id, id)
    case None => None
    case Some(k) => Some(CalendarScenarios[k])
  }

  /** Every scenario of the email table is found by its own id. */
  lemma EmailScenarioFoundById(k: nat)
    requires k < 4
    ensures GetEmailScenarioById(EmailScenarios[k].id) == Some(EmailScenarios[k])
  {
    EmailIdsDistinct();
    FirstWithOwnId(EmailScenarios, (s: EmailScenario) => s.id, k);
  }

  /** Every scenario of the calendar table is found by its own id. */
  lemma CalendarScenarioFoundById(k: nat)
    requires k < 4
    ensures GetCalendarScenarioById(CalendarScenarios[k].id) == Some(CalendarScenarios[k])
  {
    CalendarIdsDistinct();
    FirstWithOwnId(CalendarScenarios, (s: CalendarScenario) => s.id, k);
  }

  /** `Math.floor(random * length)`: an index of the table for every `random` in [0, 1). */
  function RandomIndex(random: real, length: nat): (i: int)
    requires 0.0 <= random < 1.0 && length > 0
    ensures 0 <= i < length
  {
    var x := random * length as real;
    assert x < length as real by {
      assert random * length as real < 1.0 * length as real;
    }
    x.Floor
  }

  /** `getRandomEmailScenario`: always an element of the table. */
  function GetRandomEmailScenario(random: real): (s: EmailScenario)
    requires 0.0 <= random < 1.0
    ensures s in EmailScenarios
  {
    EmailScenarios[RandomIndex(random, |EmailScenarios|)]
  }

  /** `getRandomCalendarScenario`: always an element of the table, so it always has attendees. */
  function GetRandomCalendarScenario(random: real): (s: CalendarScenario)
    requires 0.0 <= random < 1.0
    ensures s in CalendarScenarios && |s.attendees| > 0
  {
    CalendarScenarioAt(RandomIndex(random, |CalendarScenarios|))
  }

  function CalendarScenarioAt(i: int): (s: CalendarScenario)
    requires 0 <= i < |CalendarScenarios|
    ensures s in CalendarScenarios && |s.attendees| > 0
  {
    CalendarScenariosHaveAttendees();
    CalendarScenarios[i]
  }

  /** Each scenario is picked for a quarter of the random range: `random` in [k/4, (k+1)/4) picks scenario k. */
  lemma RandomPickQuarters(random: real, k: nat)
    requires k < 4 && k as real / 4.0 <= random < (k + 1) as real / 4.0
    ensures GetRandomEmailScenario(random) == EmailScenarios[k]
  {
    assert random * 4.0 >= k as real;
    assert random * 4.0 < (k + 1) as real;
  }
}
