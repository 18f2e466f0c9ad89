// The extension's calendar utilities: the Google Calendar template URL, the
// iCalendar (RFC 5545) file for an event, the TEXT escaping its property
// values get, and the name of the downloaded file.
module Calendar {
  import opened Common

  // ---------------------------------------------------------------------
  // Instants

  /** A UTC instant as the fields `Date.prototype.toISOString` prints. */
  datatype DateTime = DateTime(year: nat, month: nat, day: nat, hour: nat, minute: nat, second: nat, millis: nat)

  predicate ValidDateTime(d: DateTime)
  {
    d.year < 10000 && 1 <= d.month <= 12 && 1 <= d.day <= 31
    && d.hour < 24 && d.minute < 60 && d.second < 60 && d.millis < 1000
  }

  type UtcTime = d: DateTime | ValidDateTime(d) witness DateTime(1970, 1, 1, 0, 0, 0, 0)

  /** `toISOString()`: `YYYY-MM-DDTHH:MM:SS.sssZ`. */
  function IsoString(d: UtcTime): (r: string)
    ensures |r| == 24 && r[23] == 'Z'
  {
    IsoSeconds(d) + "." + ZeroPad(d.millis, 3) + "Z"
  }

  /** The part of the ISO string before the fractional seconds. */
  function IsoSeconds(d: UtcTime): (r: string)
    ensures |r| == 19 && '.' !in r
  {
    var r := ZeroPad(d.year, 4) + "-" + ZeroPad(d.month, 2) + "-" + ZeroPad(d.day, 2) + "T"
             + ZeroPad(d.hour, 2) + ":" + ZeroPad(d.minute, 2) + ":" + ZeroPad(d.second, 2);
    assert forall i :: 0 <= i < |r| ==> r[i] != '.' by {
      DigitsLackDot(ZeroPad(d.year, 4));
      DigitsLackDot(ZeroPad(d.month, 2));
      DigitsLackDot(ZeroPad(d.day, 2));
      DigitsLackDot(ZeroPad(d.hour, 2));
      DigitsLackDot(ZeroPad(d.minute, 2));
      DigitsLackDot(ZeroPad(d.second, 2));
    }
    r
  }

  lemma DigitsLackDot(s: string)
    requires AllDigits(s)
    ensures '.' !in s && '-' !in s && ':' !in s
  {
    forall i | 0 <= i < |s| ensures s[i] != '.' && s[i] != '-' && s[i] != ':' {
      assert IsDigit(s[i]);
    }
  }

  lemma StripStep(a: string, b: string, sa: string, sb: string)
    requires StripDashColon(a) == sa && StripDashColon(b) == sb
    ensures StripDashColon(a + b) == sa + sb
  {
    StripConcat(a, b);
  }

  /** `s.replace(/[-:]/g, '')`. */
  function StripDashColon(s: string): (r: string)
    ensures '-' !in r && ':' !in r
  {
    if s == [] then ""
    else (if s[0] == '-' || s[0] == ':' then "" else [s[0]]) + StripDashColon(s[1..])
  }

  lemma {:induction false} StripConcat(a: string, b: string)
    ensures StripDashColon(a + b) == StripDashColon(a) + StripDashColon(b)
  {
    if a == [] {
      assert a + b == b;
    } else {
      var ab := a + b;
      assert ab[0] == a[0] && ab[1..] == a[1..] + b;
      StripConcat(a[1..], b);
      assert StripDashColon(ab) == (if a[0] == '-' || a[0] == ':' then "" else [a[0]]) + StripDashColon(ab[1..]);
    }
  }

  lemma {:induction false} StripKeeps(s: string)
    requires '-' !in s && ':' !in s
    ensures StripDashColon(s) == s
  {
    if s != [] {
      StripKeeps(s[1..]);
    }
  }

  /** `s.split(c)[0]`: everything before the first `c`, or all of `s`. */
  function BeforeFirst(s: string, c: char): (r: string)
    ensures c !in r && |r| <= |s| && r == s[..|r|]
  {
    if s == [] || s[0] == c then "" else [s[0]] + BeforeFirst(s[1..], c)
  }

  lemma {:induction false} BeforeFirstOf(a: string, c: char, b: string)
    requires c !in a
    ensures BeforeFirst(a + [c] + b, c) == a
  {
    if a != [] {
      assert (a + [c] + b)[1..] == a[1..] + [c] + b;
      BeforeFirstOf(a[1..], c, b);
    }
  }

  /** The calendar date formatter: the ISO string without `-`, `:` and fractional seconds, then `Z`. */
  function FormatDate(d: UtcTime): string
  {
    BeforeFirst(StripDashColon(IsoString(d)), '.') + "Z"
  }

  /** The RFC 5545 section 3.3.5 UTC DATE-TIME form `YYYYMMDDTHHMMSSZ`. */
  predicate IsUtcDateTimeForm(s: string)
  {
    |s| == 16 && s[8] == 'T' && s[15] == 'Z'
    && (forall i :: 0 <= i < 8 ==> IsDigit(s[i]))
    && (forall i :: 9 <= i < 15 ==> IsDigit(s[i]))
  }

  /** The date part of the formatted instant: the fields, zero-padded, run together. */
  function BasicForm(d: UtcTime): string
  {
    ZeroPad(d.year, 4) + ZeroPad(d.month, 2) + ZeroPad(d.day, 2) + "T"
    + ZeroPad(d.hour, 2) + ZeroPad(d.minute, 2) + ZeroPad(d.second, 2) + "Z"
  }

  /** The seconds part of the ISO string loses its separators, keeping `T`. */
  lemma StripIsoSeconds(d: UtcTime)
    ensures StripDashColon(IsoSeconds(d)) == BasicForm(d)[..15]
  {
    var y, mo, dd, h, mi, s := ZeroPad(d.year, 4), ZeroPad(d.month, 2), ZeroPad(d.day, 2),
                               ZeroPad(d.hour, 2), ZeroPad(d.minute, 2), ZeroPad(d.second, 2);
    DigitsLackDot(y); DigitsLackDot(mo); DigitsLackDot(dd);
    DigitsLackDot(h); DigitsLackDot(mi); DigitsLackDot(s);
    StripKeeps(y); StripKeeps(mo); StripKeeps(dd); StripKeeps(h); StripKeeps(mi); StripKeeps(s);
    assert StripDashColon("-") == "" && StripDashColon(":") == "" && StripDashColon("T") == "T";
    var p1 := y + "-";          StripStep(y, "-", y, "");
    var p2 := p1 + mo;          StripStep(p1, mo, y, mo);
    var p3 := p2 + "-";         StripStep(p2, "-", y + mo, "");
    var p4 := p3 + dd;          StripStep(p3, dd, y + mo, dd);
    var p5 := p4 + "T";         StripStep(p4, "T", y + mo + dd, "T");
    var p6 := p5 + h;           StripStep(p5, h, y + mo + dd + "T", h);
    var p7 := p6 + ":";         StripStep(p6, ":", y + mo + dd + "T" + h, "");
    var p8 := p7 + mi;          StripStep(p7, mi, y + mo + dd + "T" + h, mi);
    var p9 := p8 + ":";         StripStep(p8, ":", y + mo + dd + "T" + h + mi, "");
    StripStep(p9, s, y + mo + dd + "T" + h + mi, s);
    assert IsoSeconds(d) == p9 + s;
    var compact := y + mo + dd + "T" + h + mi + s;
    assert BasicForm(d) == compact + "Z";
    assert BasicForm(d)[..15] == compact;
  }

  /** The formatter yields the fields of the instant, run together. */
  lemma FormatDateIsBasicForm(d: UtcTime)
    ensures FormatDate(d) == BasicForm(d)
  {
    var secs := IsoSeconds(d);
    var rest := ZeroPad(d.millis, 3) + "Z";
    StripIsoSeconds(d);
    var compact := BasicForm(d)[..15];
    assert IsoString(d) == secs + ['.'] + rest;
    StripConcat(secs + ['.'], rest);
    StripConcat(secs, ['.']);
    assert StripDashColon(['.']) == ['.'];
    assert StripDashColon(IsoString(d)) == compact + ['.'] + StripDashColon(rest);
    BeforeFirstOf(compact, '.', StripDashColon(rest));
    assert BasicForm(d) == compact + "Z";
  }

  /** The formatted instant has the RFC 5545 UTC form. */
  lemma FormatDateForm(d: UtcTime)
    ensures IsUtcDateTimeForm(FormatDate(d))
  {
    FormatDateIsBasicForm(d);
    var y, mo, dd, h, mi, s := ZeroPad(d.year, 4), ZeroPad(d.month, 2), ZeroPad(d.day, 2),
                               ZeroPad(d.hour, 2), ZeroPad(d.minute, 2), ZeroPad(d.second, 2);
    var f := BasicForm(d);
    assert f == y + mo + dd + "T" + h + mi + s + "Z";
    assert forall i :: 0 <= i < 4 ==> f[i] == y[i];
    assert forall i :: 4 <= i < 6 ==> f[i] == mo[i - 4];
    assert forall i :: 6 <= i < 8 ==> f[i] == dd[i - 6];
    assert forall i :: 9 <= i < 11 ==> f[i] == h[i - 9];
    assert forall i :: 11 <= i < 13 ==> f[i] == mi[i - 11];
    assert forall i :: 13 <= i < 15 ==> f[i] == s[i - 13];
  }

  // ---------------------------------------------------------------------
  // Event data

  /**
   * The event a calendar task carries. `startTime` and `endTime` are ISO
   * strings; absent optional fields are `None`.
   */
  datatype CalendarEventData = CalendarEventData(
    title: string,
    description: Option<string>,
    startTime: string,
    endTime: string,
    attendees: Option<seq<string>>,
    location: Option<string>,
    reminder: Option<int>)

  /** `eventData.attendees && eventData.attendees.length > 0`. */
  predicate HasAttendees(e: CalendarEventData)
  {
    e.attendees.Some? && |e.attendees.value| > 0
  }

  /** `if (eventData.reminder)`: a reminder of 0 minutes counts as none. */
  predicate HasReminder(e: CalendarEventData)
  {
    e.reminder.Some? && e.reminder.value != 0
  }

  // ---------------------------------------------------------------------
  // Google Calendar URL

  const CalendarBase := "https://calendar.google.com/calendar/render?action=TEMPLATE"

  /** The `dates` parameter: both instants in the UTC form, separated by `/`. */
  function DatesParam(start: UtcTime, end: UtcTime): string
  {
    FormatDate(start) + "/" + FormatDate(end)
  }

  /** The parameters of the template URL, in the order they are appended. */
  function CalendarParams(e: CalendarEventData, dates: string): seq<(string, string)>
  {
    [("text", e.title), ("dates", dates)]
    + OptionalParam("details", e.description)
    + OptionalParam("location", e.location)
    + AddParam(e)
  }

  /**
   * `generateGoogleCalendarUrl`. `parse` is `new Date(...)`: `None` for an
   * invalid date, on which `toISOString` throws, here the `None` result.
   */
  method GenerateGoogleCalendarUrl(e: CalendarEventData, parse: string -> Option<UtcTime>) returns (r: Option<Url>)
    ensures r.None? <==> parse(e.startTime).None? || parse(e.endTime).None?
    ensures r.Some? ==>
              r.value == Url(CalendarBase, CalendarParams(e, DatesParam(parse(e.startTime).value, parse(e.endTime).value)))
  {
    var startDate := parse(e.startTime);
    var endDate := parse(e.endTime);
    if startDate.None? || endDate.None? {
      return None;
    }
    var params := CollectCalendarParams(e, DatesParam(startDate.value, endDate.value));
    r := Some(Url(CalendarBase, params));
  }

  /** The `params.append` calls of `generateGoogleCalendarUrl`, in order. */
  method CollectCalendarParams(e: CalendarEventData, dates: string) returns (params: seq<(string, string)>)
    ensures params == CalendarParams(e, dates)
  {
    params := [("text", e.title)];
    params := params + [("dates", dates)];
    if Present(e.description) {
      params := params + [("details", e.description.value)];
    }
    if Present(e.location) {
      params := params + [("location", e.location.value)];
    }
    if HasAttendees(e) {
      params := params + [("add", Join(e.attendees.value, ","))];
    }
  }

  /**
   * The template URL names the title, then the dates, then the description,
   * location and comma-joined attendees, each of the last three only when given.
   */
  lemma CalendarParamsKeys(e: CalendarEventData, dates: string)
    ensures Keys(CalendarParams(e, dates))
            == ["text", "dates"] + (if Present(e.description) then ["details"] else [])
               + (if Present(e.location) then ["location"] else [])
               + (if HasAttendees(e) then ["add"] else [])
  {
    var a := [("text", e.title), ("dates", dates)];
    var b := OptionalParam("details", e.description);
    var c := OptionalParam("location", e.location);
    var d := AddParam(e);
    KeysConcat(a + b + c, d);
    KeysConcat(a + b, c);
    KeysConcat(a, b);
  }

  /** Each parameter of the template URL reads back as the event field it was built from. */
  lemma CalendarParamsValues(e: CalendarEventData, dates: string)
    ensures var p := CalendarParams(e, dates);
            Lookup(p, "text") == Some(e.title)
            && Lookup(p, "dates") == Some(dates)
            && Lookup(p, "details") == (if Present(e.description) then e.description else None)
            && Lookup(p, "location") == (if Present(e.location) then e.location else None)
            && Lookup(p, "add") == (if HasAttendees(e) then Some(Join(e.attendees.value, ",")) else None)
  {
    var rest := OptionalParam("details", e.description) + OptionalParam("location", e.location) + AddParam(e);
    assert CalendarParams(e, dates) == [("text", e.title), ("dates", dates)] + rest;
    LeadingParamsValues(e.title, dates, rest);
    TrailingParamsValues(e, dates);
  }

  lemma TrailingParamsValues(e: CalendarEventData, dates: string)
    ensures var p := [("text", e.title), ("dates", dates)]
                     + (OptionalParam("details", e.description) + OptionalParam("location", e.location) + AddParam(e));
            Lookup(p, "details") == (if Present(e.description) then e.description else None)
            && Lookup(p, "location") == (if Present(e.location) then e.location else None)
            && Lookup(p, "add") == (if HasAttendees(e) then Some(Join(e.attendees.value, ",")) else None)
  {
    var rest := OptionalParam("details", e.description) + OptionalParam("location", e.location) + AddParam(e);
    assert |"details"| == 7 && |"location"| == 8 && |"add"| == 3;
    LeadingParamsSkipped(e.title, dates, rest, "details");
    LeadingParamsSkipped(e.title, dates, rest, "location");
    LeadingParamsSkipped(e.title, dates, rest, "add");
    OptionalParamsValues(e);
  }

  lemma LeadingParamsValues(title: string, dates: string, rest: seq<(string, string)>)
    ensures Lookup([("text", title), ("dates", dates)] + rest, "text") == Some(title)
    ensures Lookup([("text", title), ("dates", dates)] + rest, "dates") == Some(dates)
  {
    var a := [("text", title), ("dates", dates)];
    assert Keys(a) == ["text", "dates"];
    LookupPrefix(a, rest, "text");
    LookupPrefix(a, rest, "dates");
  }

  lemma LeadingParamsSkipped(title: string, dates: string, rest: seq<(string, string)>, key: string)
    requires |key| != 4 && |key| != 5
    ensures Lookup([("text", title), ("dates", dates)] + rest, key) == Lookup(rest, key)
  {
    var a := [("text", title), ("dates", dates)];
    assert Keys(a) == ["text", "dates"];
    LookupSkip(a, rest, key);
  }

  function AddParam(e: CalendarEventData): (r: seq<(string, string)>)
    ensures Keys(r) == if HasAttendees(e) then ["add"] else []
  {
    if HasAttendees(e) then [("add", Join(e.attendees.value, ","))] else []
  }

  lemma OptionalParamsValues(e: CalendarEventData)
    ensures var rest := OptionalParam("details", e.description) + OptionalParam("location", e.location) + AddParam(e);
            Lookup(rest, "details") == (if Present(e.description) then e.description else None)
            && Lookup(rest, "location") == (if Present(e.location) then e.location else None)
            && Lookup(rest, "add") == (if HasAttendees(e) then Some(Join(e.attendees.value, ",")) else None)
  {
    var b := OptionalParam("details", e.description);
    var cd := OptionalParam("location", e.location) + AddParam(e);
    assert b + OptionalParam("location", e.location) + AddParam(e) == b + cd;
    if Present(e.description) {
      LookupPrefix(b, cd, "details");
    } else {
      assert b + cd == cd;
    }
    LookupSkip(b, cd, "location");
    LookupSkip(b, cd, "add");
    LocationAddValues(e);
  }

  lemma LocationAddValues(e: CalendarEventData)
    ensures var cd := OptionalParam("location", e.location) + AddParam(e);
            Lookup(cd, "details") == None
            && Lookup(cd, "location") == (if Present(e.location) then e.location else None)
            && Lookup(cd, "add") == (if HasAttendees(e) then Some(Join(e.attendees.value, ",")) else None)
  {
    var c := OptionalParam("location", e.location);
    var d := AddParam(e);
    if Present(e.location) {
      LookupPrefix(c, d, "location");
    } else {
      assert c + d == d;
    }
    LookupSkip(c, d, "add");
    LookupSkip(c, d, "details");
  }

  // ---------------------------------------------------------------------
  // TEXT escaping (RFC 5545 section 3.3.11)

  /** `escapeIcsText`: five global replacements, backslash first, then CR deleted. */
  function EscapeIcsText(text: string): string
  {
    var s1 := ReplaceAllChar(text, '\\', "\\\\");
    var s2 := ReplaceAllChar(s1, ';', "\\;");
    var s3 := ReplaceAllChar(s2, ',', "\\,");
    var s4 := ReplaceAllChar(s3, '\n', "\\n");
    ReplaceAllChar(s4, '\r', "")
  }

  /** What one input character becomes after escaping. */
  function EscapeChar(c: char): string
  {
    if c == '\\' then "\\\\"
    else if c == ';' then "\\;"
    else if c == ',' then "\\,"
    else if c == '\n' then "\\n"
    else if c == '\r' then ""
    else [c]
  }

  /** The reference escaping: each character escaped on its own. */
  function EscapePerChar(s: string): string
  {
    if s == [] then "" else EscapeChar(s[0]) + EscapePerChar(s[1..])
  }

  lemma EscapeIcsTextConcat(a: string, b: string)
    ensures EscapeIcsText(a + b) == EscapeIcsText(a) + EscapeIcsText(b)
  {
    ReplaceAllCharConcat(a, b, '\\', "\\\\");
    var a1, b1 := ReplaceAllChar(a, '\\', "\\\\"), ReplaceAllChar(b, '\\', "\\\\");
    ReplaceAllCharConcat(a1, b1, ';', "\\;");
    var a2, b2 := ReplaceAllChar(a1, ';', "\\;"), ReplaceAllChar(b1, ';', "\\;");
    ReplaceAllCharConcat(a2, b2, ',', "\\,");
    var a3, b3 := ReplaceAllChar(a2, ',', "\\,"), ReplaceAllChar(b2, ',', "\\,");
    ReplaceAllCharConcat(a3, b3, '\n', "\\n");
    var a4, b4 := ReplaceAllChar(a3, '\n', "\\n"), ReplaceAllChar(b3, '\n', "\\n");
    ReplaceAllCharConcat(a4, b4, '\r', "");
  }

  lemma ReplaceAllCharSingle(c: char, x: char, rep: string)
    ensures ReplaceAllChar([c], x, rep) == if c == x then rep else [c]
  {
    assert [c][1..] == [];
  }

  lemma ReplaceAllCharPlain(s: string, x: char, rep: string)
    requires x !in s
    ensures ReplaceAllChar(s, x, rep) == s
  {
    if s != [] {
      ReplaceAllCharPlain(s[1..], x, rep);
    }
  }

  lemma EscapeIcsTextChar(c: char)
    ensures EscapeIcsText([c]) == EscapeChar(c)
  {
    ReplaceAllCharSingle(c, '\\', "\\\\");
    var s1 := ReplaceAllChar([c], '\\', "\\\\");
    if c == '\\' {
      ReplaceAllCharPlain(s1, ';', "\\;");
      ReplaceAllCharPlain(s1, ',', "\\,");
      ReplaceAllCharPlain(s1, '\n', "\\n");
      ReplaceAllCharPlain(s1, '\r', "");
    } else {
      ReplaceAllCharSingle(c, ';', "\\;");
      var s2 := ReplaceAllChar(s1, ';', "\\;");
      if c == ';' {
        ReplaceAllCharPlain(s2, ',', "\\,");
        ReplaceAllCharPlain(s2, '\n', "\\n");
        ReplaceAllCharPlain(s2, '\r', "");
      } else {
        ReplaceAllCharSingle(c, ',', "\\,");
        var s3 := ReplaceAllChar(s2, ',', "\\,");
        if c == ',' {
          ReplaceAllCharPlain(s3, '\n', "\\n");
          ReplaceAllCharPlain(s3, '\r', "");
        } else {
          ReplaceAllCharSingle(c, '\n', "\\n");
          var s4 := ReplaceAllChar(s3, '\n', "\\n");
          if c == '\n' {
            ReplaceAllCharPlain(s4, '\r', "");
          } else {
            ReplaceAllCharSingle(c, '\r', "");
          }
        }
      }
    }
  }

  /** The chain of global replacements escapes every character independently. */
  lemma {:induction false} EscapeIcsTextIsPerChar(s: string)
    ensures EscapeIcsText(s) == EscapePerChar(s)
  {
    if s == [] {
    } else {
      assert s == [s[0]] + s[1..];
      EscapeIcsTextConcat([s[0]], s[1..]);
      EscapeIcsTextChar(s[0]);
      EscapeIcsTextIsPerChar(s[1..]);
    }
  }

  /** An escaped value never contains a raw CR or LF, so it stays on one content line. */
  lemma {:induction false} EscapedHasNoLineBreak(s: string)
    ensures '\r' !in EscapeIcsText(s) && '\n' !in EscapeIcsText(s)
  {
    EscapeIcsTextIsPerChar(s);
    EscapePerCharNoLineBreak(s);
  }

  lemma EscapedLacksCr(s: string)
    ensures Lacks(EscapeIcsText(s), '\r')
  {
    var t := EscapeIcsText(s);
    EscapedHasNoLineBreak(s);
    forall i | 0 <= i < |t| ensures t[i] != '\r' {
      assert t[i] in t;
    }
  }

  lemma {:induction false} EscapePerCharNoLineBreak(s: string)
    ensures '\r' !in EscapePerChar(s) && '\n' !in EscapePerChar(s)
  {
    if s != [] {
      EscapePerCharNoLineBreak(s[1..]);
    }
  }

  /** Reading an escaped TEXT value back. */
  function UnescapeIcsText(s: string): string
  {
    if s == [] then ""
    else if s[0] == '\\' && |s| >= 2 then
      (if s[1] == 'n' then "\n" else [s[1]]) + UnescapeIcsText(s[2..])
    else [s[0]] + UnescapeIcsText(s[1..])
  }

  /** Escaping loses nothing except carriage returns. */
  lemma {:induction false} UnescapeEscape(s: string)
    requires '\r' !in s
    ensures UnescapeIcsText(EscapeIcsText(s)) == s
  {
    EscapeIcsTextIsPerChar(s);
    UnescapePerChar(s);
  }

  lemma UnescapeOne(c: char, rest: string)
    requires c != '\r'
    ensures UnescapeIcsText(EscapeChar(c) + rest) == [c] + UnescapeIcsText(rest)
  {
    var e := EscapeChar(c) + rest;
    if c == '\\' || c == ';' || c == ',' || c == '\n' {
      assert e[0] == '\\' && |e| >= 2 && e[2..] == rest;
    } else {
      assert e[0] == c && e[1..] == rest;
    }
  }

  lemma {:induction false} UnescapePerChar(s: string)
    requires '\r' !in s
    ensures UnescapeIcsText(EscapePerChar(s)) == s
  {
    if s != [] {
      UnescapePerChar(s[1..]);
      UnescapeOne(s[0], EscapePerChar(s[1..]));
    }
  }

  // ---------------------------------------------------------------------
  // iCalendar content

  /** The `UID` value: `tedai-<now>-<random base-36 digits>@tedai-agent`. */
  function Uid(now: nat, random: string): (r: string)
    ensures StartsWith(r, "tedai-")
  {
    "tedai-" + NatToString(now) + "-" + random + "@tedai-agent"
  }

  const IcsHeader: seq<string> := ["BEGIN:VCALENDAR", "VERSION:2.0", "PRODID:-//TEDAI AI Agent//Calendar Event//EN",
                                   "CALSCALE:GREGORIAN", "METHOD:PUBLISH", "BEGIN:VEVENT"]

  const IcsFooter: seq<string> := ["END:VEVENT", "END:VCALENDAR"]

  function AttendeeLine(attendee: string): string
  {
    "ATTENDEE:MAILTO:" + attendee
  }

  function AttendeeLines(attendees: seq<string>): (r: seq<string>)
    ensures |r| == |attendees| && forall i :: 0 <= i < |attendees| ==> r[i] == AttendeeLine(attendees[i])
  {
    seq(|attendees|, i requires 0 <= i < |attendees| => AttendeeLine(attendees[i]))
  }

  /** The event's fixed properties; `dtstart` and `dtend` are the formatted instants. */
  function EventLines(e: CalendarEventData, uid: string, dtstart: string, dtend: string): seq<string>
  {
    IcsHeader + ["UID:" + uid, "DTSTART:" + dtstart, "DTEND:" + dtend,
                 "SUMMARY:" + EscapeIcsText(e.title), "STATUS:CONFIRMED", "TRANSP:OPAQUE"]
  }

  function OptionalLines(e: CalendarEventData): seq<string>
  {
    (if Present(e.description) then ["DESCRIPTION:" + EscapeIcsText(e.description.value)] else [])
    + (if Present(e.location) then ["LOCATION:" + EscapeIcsText(e.location.value)] else [])
  }

  function EventAttendeeLines(e: CalendarEventData): seq<string>
  {
    if HasAttendees(e) then AttendeeLines(e.attendees.value) else []
  }

  /** The VALARM component; its trigger is a negative DURATION (RFC 5545 sections 3.6.6 and 3.3.6). */
  function AlarmLines(e: CalendarEventData): seq<string>
  {
    if HasReminder(e) then
      ["BEGIN:VALARM", "ACTION:DISPLAY", "TRIGGER:-PT" + IntToString(e.reminder.value) + "M",
       "DESCRIPTION:" + EscapeIcsText(e.title), "END:VALARM"]
    else []
  }

  /** The content lines `generateIcsContent` collects, in order. */
  function IcsLines(e: CalendarEventData, uid: string, dtstart: string, dtend: string): seq<string>
  {
    EventLines(e, uid, dtstart, dtend) + OptionalLines(e) + EventAttendeeLines(e) + AlarmLines(e) + IcsFooter
  }

  /** RFC 5545 section 3.1: content lines are delimited by CRLF. */
  const Crlf := "\r\n"

  /**
   * `generateIcsContent`: the lines built with conditional pushes and one
   * push per attendee, joined by CRLF. `None` when a date is invalid.
   */
  method GenerateIcsContent(e: CalendarEventData, parse: string -> Option<UtcTime>, uid: string)
    returns (content: Option<string>)
    ensures content.None? <==> parse(e.startTime).None? || parse(e.endTime).None?
    ensures content.Some? ==>
              content.value == Join(IcsLines(e, uid, FormatDate(parse(e.startTime).value),
                                             FormatDate(parse(e.endTime).value)), Crlf)
  {
    var startDate := parse(e.startTime);
    var endDate := parse(e.endTime);
    if startDate.None? || endDate.None? {
      return None;
    }
    var dtstart := FormatDate(startDate.value);
    var dtend := FormatDate(endDate.value);
    var icsContent := CollectIcsLines(e, uid, dtstart, dtend);
    content := Some(Join(icsContent, Crlf));
  }

  /** The pushes of `generateIcsContent`, in order. */
  method CollectIcsLines(e: CalendarEventData, uid: string, dtstart: string, dtend: string)
    returns (icsContent: seq<string>)
    ensures icsContent == IcsLines(e, uid, dtstart, dtend)
  {
    icsContent := EventLines(e, uid, dtstart, dtend);
    if Present(e.description) {
      icsContent := icsContent + ["DESCRIPTION:" + EscapeIcsText(e.description.value)];
    }
    if Present(e.location) {
      icsContent := icsContent + ["LOCATION:" + EscapeIcsText(e.location.value)];
    }
    assert icsContent == EventLines(e, uid, dtstart, dtend) + OptionalLines(e);
    if HasAttendees(e) {
      icsContent := PushAttendeeLines(icsContent, e.attendees.value);
    }
    assert icsContent == EventLines(e, uid, dtstart, dtend) + OptionalLines(e) + EventAttendeeLines(e);
    if HasReminder(e) {
      icsContent := icsContent + ["BEGIN:VALARM", "ACTION:DISPLAY", "TRIGGER:-PT" + IntToString(e.reminder.value) + "M",
                                  "DESCRIPTION:" + EscapeIcsText(e.title), "END:VALARM"];
    }
    icsContent := icsContent + ["END:VEVENT"];
    icsContent := icsContent + ["END:VCALENDAR"];
  }

  /** The `forEach` over the attendees: one `ATTENDEE:MAILTO:` line pushed per attendee, in order. */
  method PushAttendeeLines(lines: seq<string>, attendees: seq<string>) returns (r: seq<string>)
    ensures r == lines + AttendeeLines(attendees)
  {
    r := lines;
    var i := 0;
    while i < |attendees|
      invariant 0 <= i <= |attendees|
      invariant r == lines + AttendeeLines(attendees[..i])
    {
      assert AttendeeLines(attendees[..i + 1]) == AttendeeLines(attendees[..i]) + [AttendeeLine(attendees[i])];
      r := r + [AttendeeLine(attendees[i])];
      i := i + 1;
    }
    assert attendees[..|attendees|] == attendees;
  }

  /** The calendar opens with the fixed header and the event's own lines, and closes both components. */
  lemma IcsFrame(e: CalendarEventData, uid: string, dtstart: string, dtend: string)
    ensures var lines := IcsLines(e, uid, dtstart, dtend);
            |lines| >= 14
            && lines[..6] == IcsHeader
            && lines[6] == "UID:" + uid
            && lines[7] == "DTSTART:" + dtstart
            && lines[8] == "DTEND:" + dtend
            && lines[9] == "SUMMARY:" + EscapeIcsText(e.title)
            && lines[|lines| - 2..] == IcsFooter
  {
  }

  predicate IsAttendeeLine(line: string)
  {
    StartsWith(line, "ATTENDEE:")
  }

  /** A line whose first two characters are not `AT` is not an attendee line. */
  lemma NotAttendee(p: string, rest: string)
    requires |p| >= 2 && (p[0] != 'A' || p[1] != 'T')
    ensures !IsAttendeeLine(p + rest)
  {
    assert (p + rest)[0] == p[0] && (p + rest)[1] == p[1];
  }

  lemma {:induction false} FilterNone(s: seq<string>)
    requires forall i :: 0 <= i < |s| ==> !IsAttendeeLine(s[i])
    ensures Filter(s, IsAttendeeLine) == []
  {
    if s != [] {
      FilterNone(s[1..]);
    }
  }

  lemma EventLinesNoAttendee(e: CalendarEventData, uid: string, dtstart: string, dtend: string)
    ensures Filter(EventLines(e, uid, dtstart, dtend), IsAttendeeLine) == []
  {
    var ev := EventLines(e, uid, dtstart, dtend);
    NotAttendee("UID:", uid);
    NotAttendee("DTSTART:", dtstart);
    NotAttendee("DTEND:", dtend);
    NotAttendee("SUMMARY:", EscapeIcsText(e.title));
    NotAttendee("BEGIN:VCALENDAR", "");
    NotAttendee("VERSION:2.0", "");
    NotAttendee("PRODID:-//TEDAI AI Agent//Calendar Event//EN", "");
    NotAttendee("CALSCALE:GREGORIAN", "");
    NotAttendee("METHOD:PUBLISH", "");
    NotAttendee("BEGIN:VEVENT", "");
    NotAttendee("STATUS:CONFIRMED", "");
    NotAttendee("TRANSP:OPAQUE", "");
    FilterNone(ev);
  }

  lemma OtherLinesNoAttendee(e: CalendarEventData)
    ensures Filter(OptionalLines(e), IsAttendeeLine) == []
    ensures Filter(AlarmLines(e), IsAttendeeLine) == []
    ensures Filter(IcsFooter, IsAttendeeLine) == []
  {
    OptionalLinesNoAttendee(e);
    AlarmLinesNoAttendee(e);
    NotAttendee("END:VEVENT", "");
    NotAttendee("END:VCALENDAR", "");
    FilterNone(IcsFooter);
  }

  lemma OptionalLinesNoAttendee(e: CalendarEventData)
    ensures Filter(OptionalLines(e), IsAttendeeLine) == []
  {
    if Present(e.description) {
      NotAttendee("DESCRIPTION:", EscapeIcsText(e.description.value));
    }
    if Present(e.location) {
      NotAttendee("LOCATION:", EscapeIcsText(e.location.value));
    }
    FilterNone(OptionalLines(e));
  }

  lemma AlarmLinesNoAttendee(e: CalendarEventData)
    ensures Filter(AlarmLines(e), IsAttendeeLine) == []
  {
    if HasReminder(e) {
      NotAttendee("BEGIN:VALARM", "");
      NotAttendee("ACTION:DISPLAY", "");
      NotAttendee("TRIGGER:-PT", IntToString(e.reminder.value) + "M");
      assert "TRIGGER:-PT" + IntToString(e.reminder.value) + "M" == "TRIGGER:-PT" + (IntToString(e.reminder.value) + "M");
      NotAttendee("DESCRIPTION:", EscapeIcsText(e.title));
      NotAttendee("END:VALARM", "");
    }
    FilterNone(AlarmLines(e));
  }

  /** The attendee lines of the calendar are one `ATTENDEE:MAILTO:` line per attendee, in input order. */
  lemma IcsAttendees(e: CalendarEventData, uid: string, dtstart: string, dtend: string)
    ensures Filter(IcsLines(e, uid, dtstart, dtend), IsAttendeeLine)
            == if HasAttendees(e) then AttendeeLines(e.attendees.value) else []
  {
    var ev := EventLines(e, uid, dtstart, dtend);
    var opt := OptionalLines(e);
    var att := EventAttendeeLines(e);
    var al := AlarmLines(e);
    EventLinesNoAttendee(e, uid, dtstart, dtend);
    OtherLinesNoAttendee(e);
    forall i | 0 <= i < |att| ensures IsAttendeeLine(att[i]) {
      assert att[i][..9] == "ATTENDEE:";
    }
    FilterAll(att, IsAttendeeLine);
    FilterConcat(ev + opt + att + al, IcsFooter, IsAttendeeLine);
    FilterConcat(ev + opt + att, al, IsAttendeeLine);
    FilterConcat(ev + opt, att, IsAttendeeLine);
    FilterConcat(ev, opt, IsAttendeeLine);
  }

  /** A line whose first character is not `B` is not the alarm opener. */
  lemma NotAlarm(p: string, rest: string)
    requires |p| >= 1 && p[0] != 'B'
    ensures p + rest != "BEGIN:VALARM"
  {
    assert (p + rest)[0] == p[0];
  }

  lemma NoAlarmOutside(e: CalendarEventData, uid: string, dtstart: string, dtend: string)
    ensures "BEGIN:VALARM" !in EventLines(e, uid, dtstart, dtend) + OptionalLines(e) + EventAttendeeLines(e) + IcsFooter
  {
    var ev := EventLines(e, uid, dtstart, dtend);
    var opt := OptionalLines(e);
    var att := EventAttendeeLines(e);
    NotAlarm("UID:", uid);
    NotAlarm("DTSTART:", dtstart);
    NotAlarm("DTEND:", dtend);
    NotAlarm("SUMMARY:", EscapeIcsText(e.title));
    if Present(e.description) {
      NotAlarm("DESCRIPTION:", EscapeIcsText(e.description.value));
    }
    if Present(e.location) {
      NotAlarm("LOCATION:", EscapeIcsText(e.location.value));
    }
    forall i | 0 <= i < |att| ensures att[i] != "BEGIN:VALARM" {
      NotAlarm("ATTENDEE:MAILTO:", e.attendees.value[i]);
    }
  }

  /** An alarm is emitted exactly when the reminder is truthy, so a reminder of 0 gives none. */
  lemma IcsAlarmIffReminder(e: CalendarEventData, uid: string, dtstart: string, dtend: string)
    ensures "BEGIN:VALARM" in IcsLines(e, uid, dtstart, dtend) <==> HasReminder(e)
    ensures HasReminder(e) ==> "TRIGGER:-PT" + IntToString(e.reminder.value) + "M" in IcsLines(e, uid, dtstart, dtend)
  {
    var lines := IcsLines(e, uid, dtstart, dtend);
    var front := EventLines(e, uid, dtstart, dtend) + OptionalLines(e) + EventAttendeeLines(e);
    assert lines == front + AlarmLines(e) + IcsFooter;
    if HasReminder(e) {
      assert lines[|front|] == "BEGIN:VALARM";
      assert lines[|front| + 2] == "TRIGGER:-PT" + IntToString(e.reminder.value) + "M";
    } else {
      NoAlarmOutside(e, uid, dtstart, dtend);
      assert lines == front + IcsFooter;
    }
  }

  /** A numeral has no carriage return. */
  lemma DateFormLacksCr(s: string)
    requires IsUtcDateTimeForm(s)
    ensures Lacks(s, '\r')
  {
  }

  /** A line made of a CR-free name and a CR-free value has no CR. */
  lemma PropertyLacksCr(name: string, value: string)
    requires Lacks(name, '\r') && Lacks(value, '\r')
    ensures Lacks(name + value, '\r')
  {
  }

  /** The fixed header lines have no CR. */
  lemma HeaderLacksCr()
    ensures forall i :: 0 <= i < |IcsHeader| ==> Lacks(IcsHeader[i], '\r')
    ensures forall i :: 0 <= i < |IcsFooter| ==> Lacks(IcsFooter[i], '\r')
  {
    assert Lacks("BEGIN:VCALENDAR", '\r') && Lacks("VERSION:2.0", '\r');
    assert Lacks("PRODID:-//TEDAI AI Agent//Calendar Event//EN", '\r') && Lacks("CALSCALE:GREGORIAN", '\r');
    assert Lacks("METHOD:PUBLISH", '\r') && Lacks("BEGIN:VEVENT", '\r');
    assert Lacks("END:VEVENT", '\r') && Lacks("END:VCALENDAR", '\r');
  }

  lemma EventLinesLackCr(e: CalendarEventData, uid: string, dtstart: string, dtend: string)
    requires Lacks(uid, '\r') && Lacks(dtstart, '\r') && Lacks(dtend, '\r')
    ensures forall i :: 0 <= i < |EventLines(e, uid, dtstart, dtend)| ==> Lacks(EventLines(e, uid, dtstart, dtend)[i], '\r')
  {
    var ev := EventLines(e, uid, dtstart, dtend);
    var own := ["UID:" + uid, "DTSTART:" + dtstart, "DTEND:" + dtend,
                "SUMMARY:" + EscapeIcsText(e.title), "STATUS:CONFIRMED", "TRANSP:OPAQUE"];
    assert ev == IcsHeader + own;
    EscapedLacksCr(e.title);
    PropertyLacksCr("UID:", uid);
    PropertyLacksCr("DTSTART:", dtstart);
    PropertyLacksCr("DTEND:", dtend);
    PropertyLacksCr("SUMMARY:", EscapeIcsText(e.title));
    assert Lacks("STATUS:CONFIRMED", '\r') && Lacks("TRANSP:OPAQUE", '\r');
    assert forall i :: 0 <= i < |own| ==> Lacks(own[i], '\r');
    HeaderLacksCr();
    forall i | 0 <= i < |ev| ensures Lacks(ev[i], '\r') {
      if i < |IcsHeader| {
        assert ev[i] == IcsHeader[i];
      } else {
        assert ev[i] == own[i - |IcsHeader|];
      }
    }
  }

  lemma OptionalLinesLackCr(e: CalendarEventData)
    ensures forall i :: 0 <= i < |OptionalLines(e)| ==> Lacks(OptionalLines(e)[i], '\r')
  {
    if Present(e.description) {
      EscapedLacksCr(e.description.value);
      PropertyLacksCr("DESCRIPTION:", EscapeIcsText(e.description.value));
    }
    if Present(e.location) {
      EscapedLacksCr(e.location.value);
      PropertyLacksCr("LOCATION:", EscapeIcsText(e.location.value));
    }
  }

  lemma AlarmLinesLackCr(e: CalendarEventData)
    ensures forall i :: 0 <= i < |AlarmLines(e)| ==> Lacks(AlarmLines(e)[i], '\r')
  {
    if HasReminder(e) {
      var n := IntToString(e.reminder.value);
      IntToStringLacks(e.reminder.value, '\r');
      PropertyLacksCr("TRIGGER:-PT", n);
      PropertyLacksCr("TRIGGER:-PT" + n, "M");
      EscapedLacksCr(e.title);
      PropertyLacksCr("DESCRIPTION:", EscapeIcsText(e.title));
      assert Lacks("BEGIN:VALARM", '\r') && Lacks("ACTION:DISPLAY", '\r') && Lacks("END:VALARM", '\r');
    }
  }

  lemma OtherLinesLackCr(e: CalendarEventData)
    requires HasAttendees(e) ==> forall i :: 0 <= i < |e.attendees.value| ==> Lacks(e.attendees.value[i], '\r')
    ensures forall i :: 0 <= i < |OptionalLines(e)| ==> Lacks(OptionalLines(e)[i], '\r')
    ensures forall i :: 0 <= i < |EventAttendeeLines(e)| ==> Lacks(EventAttendeeLines(e)[i], '\r')
    ensures forall i :: 0 <= i < |AlarmLines(e)| ==> Lacks(AlarmLines(e)[i], '\r')
  {
    OptionalLinesLackCr(e);
    forall i | 0 <= i < |EventAttendeeLines(e)| ensures Lacks(EventAttendeeLines(e)[i], '\r') {
      PropertyLacksCr("ATTENDEE:MAILTO:", e.attendees.value[i]);
    }
    AlarmLinesLackCr(e);
  }

  /** With CR-free attendees, id and dates, no content line has a CR. */
  lemma IcsLinesLackCr(e: CalendarEventData, uid: string, dtstart: string, dtend: string)
    requires Lacks(uid, '\r') && Lacks(dtstart, '\r') && Lacks(dtend, '\r')
    requires HasAttendees(e) ==> forall i :: 0 <= i < |e.attendees.value| ==> Lacks(e.attendees.value[i], '\r')
    ensures var lines := IcsLines(e, uid, dtstart, dtend);
            forall i :: 0 <= i < |lines| ==> Lacks(lines[i], '\r')
  {
    var ev, opt, att, al := EventLines(e, uid, dtstart, dtend), OptionalLines(e), EventAttendeeLines(e), AlarmLines(e);
    EventLinesLackCr(e, uid, dtstart, dtend);
    OtherLinesLackCr(e);
    HeaderLacksCr();
    LinesLackCrConcat(ev, opt);
    LinesLackCrConcat(ev + opt, att);
    LinesLackCrConcat(ev + opt + att, al);
    LinesLackCrConcat(ev + opt + att + al, IcsFooter);
  }

  predicate LinesLackCr(lines: seq<string>)
  {
    forall i :: 0 <= i < |lines| ==> Lacks(lines[i], '\r')
  }

  lemma LinesLackCrConcat(a: seq<string>, b: seq<string>)
    requires LinesLackCr(a) && LinesLackCr(b)
    ensures LinesLackCr(a + b)
  {
    forall i | 0 <= i < |a + b| ensures Lacks((a + b)[i], '\r') {
      if i < |a| {
        assert (a + b)[i] == a[i];
      } else {
        assert (a + b)[i] == b[i - |a|];
      }
    }
  }

  /** With CR-free attendees and id, splitting the file on CRLF gives back its content lines. */
  lemma IcsContentSplits(e: CalendarEventData, uid: string, start: UtcTime, end: UtcTime)
    requires Lacks(uid, '\r')
    requires HasAttendees(e) ==> forall i :: 0 <= i < |e.attendees.value| ==> Lacks(e.attendees.value[i], '\r')
    ensures var lines := IcsLines(e, uid, FormatDate(start), FormatDate(end));
            SplitOn(Join(lines, Crlf), Crlf) == lines
  {
    var dtstart, dtend := FormatDate(start), FormatDate(end);
    FormatDateForm(start);
    FormatDateForm(end);
    DateFormLacksCr(dtstart);
    DateFormLacksCr(dtend);
    IcsLinesLackCr(e, uid, dtstart, dtend);
    SplitOnJoin(IcsLines(e, uid, dtstart, dtend), Crlf);
  }

  // ---------------------------------------------------------------------
  // Download name

  predicate IsAsciiAlnum(c: char)
  {
    ('a' <= c <= 'z') || ('A' <= c <= 'Z') || ('0' <= c <= '9')
  }

  /** `title.replace(/[^a-zA-Z0-9]/g, '_')`. */
  function SanitizeTitle(title: string): (r: string)
    ensures |r| == |title|
    ensures forall i :: 0 <= i < |title| ==> r[i] == if IsAsciiAlnum(title[i]) then title[i] else '_'
  {
    if title == [] then "" else [if IsAsciiAlnum(title[0]) then title[0] else '_'] + SanitizeTitle(title[1..])
  }

  /** The name of the downloaded `.ics` file. */
  function IcsFilename(title: string): (r: string)
  {
    SanitizeTitle(title) + ".ics"
  }

  /** The file name keeps the title's length and letters and digits, and uses only `_` otherwise. */
  lemma IcsFilenameShape(title: string)
    ensures var r := IcsFilename(title);
            |r| == |title| + 4 && r[|title|..] == ".ics"
            && (forall i :: 0 <= i < |title| ==> IsAsciiAlnum(r[i]) || r[i] == '_')
            && (forall i :: 0 <= i < |title| && IsAsciiAlnum(title[i]) ==> r[i] == title[i])
  {
  }
}
