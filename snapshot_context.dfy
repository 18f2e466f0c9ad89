// The `get_snapshot_context` tool: a timeline timestamp of a fixed shape is
// looked up as the nearest stored snapshot within five minutes, and the
// snapshot's fields are handed back. The snapshots table is a sequence of
// rows; the conversion of the local timestamp to an instant and the
// database's failures are parameters.
module SnapshotContext {
  import opened Common
  import opened ToolTypes

  const Name := "get_snapshot_context"
  /** The search window: five minutes, in seconds. */
  const WindowSec := 5 * 60
  const NoSession := "Error: No active session available."

  const Definition := Tool(Name,
    "Get the full context and details of a snapshot by providing a timestamp from the timeline. This allows you to dig deeper into what was happening at a specific point in time.",
    Parameters(["timestamp"], ["timestamp"]),
    SnapshotContextTool)

  /**
   * A row of the snapshots table. `createdAt` is the stored text and
   * `createdSec` what `strftime('%s', created_at)` reads from it; `changes`
   * and `facts` are JSON text, `None` when null.
   */
  datatype Snapshot = Snapshot(id: int, sessionId: string, caption: JsValue, fullDescription: JsValue,
                               changes: Option<string>, facts: Option<string>, screenshotPath: JsValue,
                               createdAt: string, createdSec: int)

  /** The tool's answer object, before `JSON.stringify`; `changes` and `facts` are the JSON text parsed. */
  datatype Context = Context(caption: JsValue, fullDescription: JsValue, changes: string, facts: string,
                             screenshotPath: JsValue, timestamp: string)

  /** A text answer, or the snapshot found and the context built from it. */
  datatype Answer = Message(text: string) | Found(row: Snapshot, context: Context)

  // ---------------------------------------------------------------------
  // The timestamp guard: /^\d{4}-\d{2}-\d{2} \d{2}:\d{2}:\d{2}$/

  /** What the pattern demands at position `k`. */
  predicate ShapeAt(c: char, k: int)
  {
    if k == 4 || k == 7 then c == '-'
    else if k == 10 then c == ' '
    else if k == 13 || k == 16 then c == ':'
    else IsDigit(c)
  }

  /** Only the digit counts and the separators are checked, not the ranges of the fields. */
  predicate TimestampShape(s: string)
  {
    |s| == 19 && forall k :: 0 <= k < |s| ==> ShapeAt(s[k], k)
  }

  function InvalidTimestamp(timestamp: string): string
  {
    "Error: Invalid timestamp format \"" + timestamp + "\". Please use the format shown in the timeline."
  }

  function NoSnapshotInWindow(timestamp: string): string
  {
    "Error: No snapshot found within 5 minutes of timestamp \"" + timestamp + "\". This timeline entry may not have an associated snapshot."
  }

  function ClosestElsewhere(timestamp: string, createdAt: string): string
  {
    "Error: No snapshot found within 5 minutes of timestamp \"" + timestamp + "\". Closest snapshot: " + createdAt
  }

  // ---------------------------------------------------------------------
  // Selection: `ORDER BY ABS(...) LIMIT 1`

  function Distance(row: Snapshot, targetSec: int): (d: nat)
    ensures d == row.createdSec - targetSec || d == targetSec - row.createdSec
  {
    if row.createdSec >= targetSec then row.createdSec - targetSec else targetSec - row.createdSec
  }

  /**
   * The eligible row nearest the target; among rows equally near, the first
   * in table order.
   */
  function Closest(rows: seq<Snapshot>, targetSec: int, eligible: Snapshot -> bool): (r: Option<Snapshot>)
    ensures r.None? <==> forall x :: x in rows ==> !eligible(x)
    ensures r.Some? ==> r.value in rows && eligible(r.value)
    ensures r.Some? ==> forall x :: x in rows && eligible(x) ==> Distance(r.value, targetSec) <= Distance(x, targetSec)
  {
    if rows == [] then None
    else
      var rest := Closest(rows[1..], targetSec, eligible);
      assert forall x :: x in rows <==> x == rows[0] || x in rows[1..];
      if eligible(rows[0]) && (rest.None? || Distance(rows[0], targetSec) <= Distance(rest.value, targetSec))
      then Some(rows[0])
      else rest
  }

  /** A rearranged table yields a row just as near: the choice among ties is all that order decides. */
  lemma ClosestDistanceIgnoresOrder(a: seq<Snapshot>, b: seq<Snapshot>, targetSec: int, eligible: Snapshot -> bool)
    requires forall x :: x in a <==> x in b
    ensures Closest(a, targetSec, eligible).Some? <==> Closest(b, targetSec, eligible).Some?
    ensures Closest(a, targetSec, eligible).Some? ==>
      Distance(Closest(a, targetSec, eligible).value, targetSec) == Distance(Closest(b, targetSec, eligible).value, targetSec)
  {
  }

  /** `row.changes || '[]'`: null and empty text read as the empty list. */
  function JsonOrEmpty(text: Option<string>): (r: string)
    ensures Present(text) ==> r == text.value
    ensures !Present(text) ==> r == "[]"
  {
    OrElse(text, "[]")
  }

  /** The answer object: the row's six fields under their JavaScript names. */
  function ContextOf(row: Snapshot): (c: Context)
    ensures c.caption == row.caption && c.fullDescription == row.fullDescription
    ensures c.changes == JsonOrEmpty(row.changes) && c.facts == JsonOrEmpty(row.facts)
    ensures c.screenshotPath == row.screenshotPath && c.timestamp == row.createdAt
  {
    Context(row.caption, row.fullDescription, JsonOrEmpty(row.changes), JsonOrEmpty(row.facts),
            row.screenshotPath, row.createdAt)
  }

  predicate InWindow(row: Snapshot, targetSec: int)
  {
    Distance(row, targetSec) <= WindowSec
  }

  /** What the lookup can meet in the environment. */
  datatype Environment = Environment(
    rows: seq<Snapshot>,
    /** The instant the local timestamp names, in seconds, as SQLite reads its ISO form. */
    targetSec: int,
    /** The message of a failed window query. */
    queryError: Option<string>,
    /** Whether the fall-back query for the nearest snapshot failed. */
    fallbackFails: bool)

  /**
   * `execute`: the session, then the timestamp's shape, then the window
   * query over every session's snapshots; with nothing in the window, the
   * nearest snapshot anywhere is named when there is one.
   */
  function Execute(timestamp: JsValue, sessionId: JsValue, env: Environment): (a: Answer)
    ensures !Truthy(sessionId) ==> a == Message(NoSession)
    ensures Truthy(sessionId) && !TimestampShape(JsString(timestamp)) ==>
      a == Message(InvalidTimestamp(JsString(timestamp)))
    ensures Truthy(sessionId) && TimestampShape(JsString(timestamp)) && env.queryError.Some? ==>
      a == Message("Error: Failed to retrieve snapshot: " + env.queryError.value)
    ensures a.Found? ==> (
      && a.row in env.rows && InWindow(a.row, env.targetSec) && a.context == ContextOf(a.row)
      && forall x :: x in env.rows && InWindow(x, env.targetSec) ==>
           Distance(a.row, env.targetSec) <= Distance(x, env.targetSec))
    ensures a.Found? <==> (Truthy(sessionId) && TimestampShape(JsString(timestamp)) && env.queryError.None?
                           && exists x :: x in env.rows && InWindow(x, env.targetSec))
    ensures Truthy(sessionId) && TimestampShape(JsString(timestamp)) && env.queryError.None? && !a.Found? ==> (
      if !env.fallbackFails && env.rows != [] then
        exists x :: x in env.rows && a == Message(ClosestElsewhere(JsString(timestamp), x.createdAt))
          && forall y :: y in env.rows ==> Distance(x, env.targetSec) <= Distance(y, env.targetSec)
      else a == Message(NoSnapshotInWindow(JsString(timestamp))))
  {
    var ts := JsString(timestamp);
    if !Truthy(sessionId) then Message(NoSession)
    else if !TimestampShape(ts) then Message(InvalidTimestamp(ts))
    else if env.queryError.Some? then Message("Error: Failed to retrieve snapshot: " + env.queryError.value)
    else
      var eligible := (x: Snapshot) => InWindow(x, env.targetSec);
      match Closest(env.rows, env.targetSec, eligible)
      case Some(row) => Found(row, ContextOf(row))
      case None =>
        var anywhere := Closest(env.rows, env.targetSec, (x: Snapshot) => true);
        if !env.fallbackFails && anywhere.Some? then
          assert env.rows[0] in env.rows;
          Message(ClosestElsewhere(ts, anywhere.value.createdAt))
        else Message(NoSnapshotInWindow(ts))
  }
}
