// The session-scoped variant of `get_snapshot_context`: the timestamp is
// parsed as a date, and the window is bounded by the ISO renderings of the
// target minus and plus five minutes. Date parsing and ISO rendering are
// parameters.
module SnapshotContextAdd {
  import opened Common
  import opened SnapshotContext

  /** The window's half-width: five minutes, in milliseconds. */
  const WindowMs := 5 * 60 * 1000

  /**
   * The parsed target: its instant in milliseconds, and what
   * `toISOString()` renders for it minus and plus the window.
   */
  datatype Target = Target(ms: int, minIso: string, maxIso: string)

  /** The target's instant in whole seconds, as `strftime('%s', …)` reads its ISO form. */
  function TargetSec(t: Target): int
  {
    t.ms / 1000
  }

  /** SQLite's text comparison: code points in order, a proper prefix first. */
  predicate TextLe(a: string, b: string)
  {
    a == [] || (b != [] && (a[0] < b[0] || (a[0] == b[0] && TextLe(a[1..], b[1..]))))
  }

  /** A common prefix does not decide a text comparison. */
  lemma {:induction false} TextLeCommonPrefix(p: string, a: string, b: string)
    ensures TextLe(p + a, p + b) <==> TextLe(a, b)
  {
    if p == [] {
      assert p + a == a && p + b == b;
    } else {
      assert (p + a)[0] == p[0] == (p + b)[0];
      assert (p + a)[1..] == p[1..] + a;
      assert (p + b)[1..] == p[1..] + b;
      TextLeCommonPrefix(p[1..], a, b);
    }
  }

  /** The window filter as written: the session, then text bounds on `created_at`. */
  predicate InRangeAsWritten(row: Snapshot, session: string, t: Target)
  {
    row.sessionId == session && TextLe(t.minIso, row.createdAt) && TextLe(row.createdAt, t.maxIso)
  }

  /** The window the code means: the session, and at most five minutes between the instants. */
  predicate InRange(row: Snapshot, session: string, t: Target)
  {
    row.sessionId == session
      && -WindowMs <= row.createdSec * 1000 - t.ms <= WindowMs
  }

  /** How a lookup selects rows. */
  datatype Selection = AsWritten | Corrected

  predicate Eligible(sel: Selection, row: Snapshot, session: string, t: Target)
  {
    if sel.AsWritten? then InRangeAsWritten(row, session, t) else InRange(row, session, t)
  }

  /**
   * `execute`: the session, then a parseable timestamp, then the nearest
   * snapshot of that session within the window; with `sel` the window test
   * as written or as meant.
   */
  function ExecuteWith(sel: Selection, timestamp: JsValue, sessionId: JsValue, target: Option<Target>,
                       rows: seq<Snapshot>, queryError: Option<string>): (a: Answer)
    ensures !Truthy(sessionId) ==> a == Message(NoSession)
    ensures Truthy(sessionId) && target.None? ==> a == Message(InvalidTimestamp(JsString(timestamp)))
    ensures Truthy(sessionId) && target.Some? && queryError.Some? ==>
      a == Message("Error: Failed to retrieve snapshot: " + queryError.value)
    ensures a.Found? ==> (
      && target.Some? && a.row in rows && a.row.sessionId == JsString(sessionId)
      && Eligible(sel, a.row, JsString(sessionId), target.value) && a.context == ContextOf(a.row)
      && forall x :: x in rows && Eligible(sel, x, JsString(sessionId), target.value) ==>
           Distance(a.row, TargetSec(target.value)) <= Distance(x, TargetSec(target.value)))
    ensures a.Found? <==> (Truthy(sessionId) && target.Some? && queryError.None?
                           && exists x :: x in rows && Eligible(sel, x, JsString(sessionId), target.value))
    ensures Truthy(sessionId) && target.Some? && queryError.None? && !a.Found? ==>
      a == Message(NoSnapshotInWindow(JsString(timestamp)))
  {
    if !Truthy(sessionId) then Message(NoSession)
    else if target.None? then Message(InvalidTimestamp(JsString(timestamp)))
    else if queryError.Some? then Message("Error: Failed to retrieve snapshot: " + queryError.value)
    else
      var session, t := JsString(sessionId), target.value;
      match Closest(rows, TargetSec(t), (x: Snapshot) => Eligible(sel, x, session, t))
      case Some(row) => Found(row, ContextOf(row))
      case None => Message(NoSnapshotInWindow(JsString(timestamp)))
  }

  /** The lookup the rest of the model uses: the window by instants. */
  function Execute(timestamp: JsValue, sessionId: JsValue, target: Option<Target>,
                   rows: seq<Snapshot>, queryError: Option<string>): (a: Answer)
    ensures a.Found? ==> (
      && target.Some? && a.row in rows && InRange(a.row, JsString(sessionId), target.value)
      && a.context == ContextOf(a.row)
      && forall x :: x in rows && InRange(x, JsString(sessionId), target.value) ==>
           Distance(a.row, TargetSec(target.value)) <= Distance(x, TargetSec(target.value)))
    ensures a.Found? <==> (Truthy(sessionId) && target.Some? && queryError.None?
                           && exists x :: x in rows && InRange(x, JsString(sessionId), target.value))
  {
    ExecuteWith(Corrected, timestamp, sessionId, target, rows, queryError)
  }

  /** Both ends of the window are included. */
  lemma WindowInclusive(row: Snapshot, t: Target)
    requires row.createdSec * 1000 == t.ms - WindowMs || row.createdSec * 1000 == t.ms + WindowMs
    ensures InRange(row, row.sessionId, t)
  {
  }

  // ---------------------------------------------------------------------
  // The text bounds against stored timestamps

  /** A snapshot stored at 2025-10-19 14:35:22 UTC, the way `CURRENT_TIMESTAMP` writes it. */
  const StoredAt := Snapshot(1, "s1", JStr("cap"), JStr("desc"), None, None, JStr("/tmp/a.png"),
                             "2025-10-19 14:35:22", 1760884522)

  /** The target 2025-10-19T14:35:22.000Z and its bounds as `toISOString()` renders them. */
  const SameInstant := Target(1760884522000, "2025-10-19T14:30:22.000Z", "2025-10-19T14:40:22.000Z")

  /**
   * The stored text has a space where the ISO bound has `T`, and the space
   * sorts first: a snapshot taken at the very instant asked for falls below
   * the lower bound.
   */
  lemma SameDayBelowLowerBound()
    ensures !TextLe(SameInstant.minIso, StoredAt.createdAt)
    ensures InRange(StoredAt, "s1", SameInstant)
  {
    var day := "2025-10-19";
    assert SameInstant.minIso == day + "T14:30:22.000Z";
    assert StoredAt.createdAt == day + " 14:35:22";
    TextLeCommonPrefix(day, "T14:30:22.000Z", " 14:35:22");
  }

  /** As written, the lookup answers that there is no snapshot; as meant, it finds the one stored then. */
  lemma SameInstantMissed()
    ensures ExecuteWith(AsWritten, JStr("2025-10-19T14:35:22Z"), JStr("s1"), Some(SameInstant), [StoredAt], None)
            == Message(NoSnapshotInWindow("2025-10-19T14:35:22Z"))
    ensures Execute(JStr("2025-10-19T14:35:22Z"), JStr("s1"), Some(SameInstant), [StoredAt], None)
            == Found(StoredAt, ContextOf(StoredAt))
  {
    SameDayBelowLowerBound();
    var ts, session, rows := JStr("2025-10-19T14:35:22Z"), JStr("s1"), [StoredAt];
    assert JsString(session) == "s1" && Truthy(session);
    assert forall x :: x in rows ==> x == StoredAt;
    assert !Eligible(AsWritten, StoredAt, "s1", SameInstant);
    var missed := ExecuteWith(AsWritten, ts, session, Some(SameInstant), rows, None);
    assert !missed.Found?;
    var found := Execute(ts, session, Some(SameInstant), rows, None);
    assert StoredAt in rows && InRange(StoredAt, "s1", SameInstant);
    assert found.Found? && found.row == StoredAt;
  }
}
