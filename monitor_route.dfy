// The monitor routes: the screenshot script's arguments and output, the
// snapshot stored for a capture, the task-creation guard, and the
// directory check in front of `GET /screenshot/:filename`. The capture
// script, the summariser, the timeline generator and the database are
// parameters; paths are POSIX paths given as segments.
module MonitorRoute {
  import opened Common

  const DefaultSession := "default"
  const ScreenshotsDirName := "screenshots"
  const CaptureFailed := "Failed to capture screenshot"

  // ---------------------------------------------------------------------
  // Capturing

  /**
   * A `width` or `height` query value as the script receives it: present,
   * non-empty, and `parseInt`-ed to a number other than `NaN` and 0.
   */
  function QueryDimension(q: Option<string>): (r: Option<int>)
    ensures r.Some? <==> Present(q) && ParseInt(q.value).Some? && ParseInt(q.value).value != 0
    ensures r.Some? ==> r == ParseInt(q.value)
  {
    if !Present(q) then None
    else match ParseInt(q.value)
      case None => None
      case Some(n) => if n != 0 then Some(n) else None
  }

  /** The argument one dimension contributes: its number, or nothing. */
  function DimensionArg(q: Option<string>): (args: seq<string>)
    ensures |args| <= 1
    ensures args != [] <==> QueryDimension(q).Some?
  {
    match QueryDimension(q)
    case None => []
    case Some(n) => [IntToString(n)]
  }

  /** The script's arguments, pushed in order: width first, then height. */
  method ScreenshotArgs(width: Option<string>, height: Option<string>) returns (args: seq<string>)
    ensures args == DimensionArg(width) + DimensionArg(height)
  {
    args := [];
    var w := QueryDimension(width);
    var h := QueryDimension(height);
    if w.Some? {
      args := args + [IntToString(w.value)];
    }
    if h.Some? {
      args := args + [IntToString(h.value)];
    }
  }

  /** Each argument reads back, through `parseInt`, as the dimension it came from. */
  lemma ArgsReadBack(width: Option<string>, height: Option<string>)
    ensures var args := DimensionArg(width) + DimensionArg(height);
      && |args| == (if QueryDimension(width).Some? then 1 else 0) + (if QueryDimension(height).Some? then 1 else 0)
      && (QueryDimension(width).Some? ==> ParseInt(args[0]) == QueryDimension(width))
      && (QueryDimension(height).Some? ==> ParseInt(args[|args| - 1]) == QueryDimension(height))
  {
    if QueryDimension(width).Some? {
      ParseIntOfIntToString(QueryDimension(width).value);
    }
    if QueryDimension(height).Some? {
      ParseIntOfIntToString(QueryDimension(height).value);
    }
  }

  /** All chunks of a stream, in order. */
  function Concat(chunks: seq<string>): string
  {
    if chunks == [] then "" else Concat(chunks[..|chunks| - 1]) + chunks[|chunks| - 1]
  }

  lemma {:induction false} ConcatAppend(a: seq<string>, b: seq<string>)
    ensures Concat(a + b) == Concat(a) + Concat(b)
    decreases |b|
  {
    if b == [] {
      assert a + b == a;
    } else {
      var b' := b[..|b| - 1];
      assert (a + b)[..|a + b| - 1] == a + b';
      ConcatAppend(a, b');
    }
  }

  /** The stream's text does not depend on how it was cut into chunks. */
  lemma ChunkingIrrelevant(a: seq<string>, b: seq<string>)
    requires Concat(a) == Concat(b)
    ensures forall c: seq<string> :: Concat(a + c) == Concat(b + c)
  {
    forall c: seq<string> ensures Concat(a + c) == Concat(b + c) {
      ConcatAppend(a, c);
      ConcatAppend(b, c);
    }
  }

  /** `output += data.toString()` for each chunk of the script's stdout. */
  method CollectOutput(chunks: seq<string>) returns (output: string)
    ensures output == Concat(chunks)
  {
    output := "";
    var i := 0;
    while i < |chunks|
      invariant 0 <= i <= |chunks|
      invariant output == Concat(chunks[..i])
    {
      assert chunks[..i + 1][..i] == chunks[..i];
      output := output + chunks[i];
      i := i + 1;
    }
    assert chunks[..i] == chunks;
  }

  /**
   * The close handler's first decision: exit code 0 goes on with the
   * trimmed output path; anything else, including no code at all, is a 500
   * with the script's stderr or a default message.
   */
  function CaptureResult(code: Option<int>, stdout: string, stderr: string): (r: HttpResult<string>)
    ensures r.Ok? <==> code == Some(0)
    ensures r.Ok? ==> r.value == Trim(stdout)
    ensures r.Fail? ==> r.status == 500 && r.error == (if stderr != "" then stderr else CaptureFailed)
  {
    if code == Some(0) then Ok(Trim(stdout))
    else Fail(500, if stderr != "" then stderr else CaptureFailed)
  }

  /** `req.query.sessionId || 'default'`. */
  function SessionIdOf(q: Option<string>): (s: string)
    ensures s != ""
    ensures Present(q) ==> s == q.value
  {
    OrElse(q, DefaultSession)
  }

  // ---------------------------------------------------------------------
  // The stored snapshot

  /** `s` with every trailing `/` removed. */
  function StripTrailingSlashes(s: string): (r: string)
    ensures r == [] || r[|r| - 1] != '/'
    ensures |r| <= |s| && r == s[..|r|]
  {
    if s != [] && s[|s| - 1] == '/' then StripTrailingSlashes(s[..|s| - 1]) else s
  }

  /** The characters after the last `/`. */
  function LastSegment(s: string): (r: string)
    ensures Lacks(r, '/')
    ensures |r| <= |s| && r == s[|s| - |r|..]
  {
    if s == [] || s[|s| - 1] == '/' then ""
    else LastSegment(s[..|s| - 1]) + [s[|s| - 1]]
  }

  /** `path.basename` for a POSIX path: the last segment once trailing slashes are gone. */
  function Basename(p: string): (r: string)
    ensures Lacks(r, '/')
  {
    LastSegment(StripTrailingSlashes(p))
  }

  lemma {:induction false} LastSegmentAfterSlash(dir: string, name: string)
    requires Lacks(name, '/')
    ensures LastSegment(dir + "/" + name) == name
    decreases |name|
  {
    var s := dir + "/" + name;
    if name == [] {
      assert s[|s| - 1] == '/';
    } else {
      var name' := name[..|name| - 1];
      assert s[..|s| - 1] == dir + "/" + name';
      assert Lacks(name', '/');
      LastSegmentAfterSlash(dir, name');
      assert name == name' + [name[|name| - 1]];
    }
  }

  /** The stored name of a file in a directory is the file's own name. */
  lemma BasenameOfFileInDirectory(dir: string, name: string)
    requires name != [] && Lacks(name, '/')
    ensures Basename(dir + "/" + name) == name
  {
    var s := dir + "/" + name;
    assert s[|s| - 1] == name[|name| - 1] != '/';
    LastSegmentAfterSlash(dir, name);
  }

  /** A name without a slash is its own basename. */
  lemma {:induction false} BasenameOfPlainName(name: string)
    requires Lacks(name, '/')
    ensures Basename(name) == name
    decreases |name|
  {
    if name != [] {
      var name' := name[..|name| - 1];
      assert Lacks(name', '/');
      BasenameOfPlainName(name');
      assert name == name' + [name[|name| - 1]];
    }
  }

  /** The summariser's description of a screenshot. */
  datatype Summary = Summary(caption: string, fullDescription: string, changes: seq<string>, facts: seq<string>)

  /** The previous snapshot of the session, as read back from the database. */
  datatype PreviousSnapshot = PreviousSnapshot(caption: string, changes: seq<string>)

  /** The row `addSnapshot` writes. */
  datatype SnapshotRow = SnapshotRow(filename: string, caption: string, fullDescription: string,
                                     changes: seq<string>, facts: seq<string>, sessionId: string)

  /** The context handed to the summariser: the previous caption and changes, when there is one. */
  function SummaryContext(previous: Option<PreviousSnapshot>): (c: Option<Summary>)
    ensures c.Some? <==> previous.Some?
    ensures c.Some? ==> c.value == Summary(previous.value.caption, "", previous.value.changes, [])
  {
    match previous
    case None => None
    case Some(p) => Some(Summary(p.caption, "", p.changes, []))
  }

  /**
   * The snapshot stored for a capture: the basename of the output path, the
   * summary with its changes emptied when the session has no earlier
   * snapshot, and the session.
   */
  function SnapshotFor(filePath: string, session: Option<string>, previous: Option<PreviousSnapshot>, summary: Summary): (row: SnapshotRow)
    ensures row.filename == Basename(filePath) && Lacks(row.filename, '/')
    ensures row.sessionId == SessionIdOf(session)
    ensures previous.None? ==> row.changes == []
    ensures previous.Some? ==> row.changes == summary.changes
    ensures row.caption == summary.caption && row.fullDescription == summary.fullDescription && row.facts == summary.facts
  {
    var changes := if previous.None? then [] else summary.changes;
    SnapshotRow(Basename(filePath), summary.caption, summary.fullDescription, changes, summary.facts, SessionIdOf(session))
  }

  /** The first snapshot of a session records no changes, whatever the summariser said. */
  lemma FirstSnapshotHasNoChanges(filePath: string, session: Option<string>, summary: Summary)
    ensures SnapshotFor(filePath, session, None, summary).changes == []
    ensures SummaryContext(None).None?
  {
  }

  // ---------------------------------------------------------------------
  // Task creation

  /** What the task check may return; `None` is `undefined`. */
  datatype TaskCheckResult = TaskCheckResult(shouldCreate: JsValue, taskType: JsValue, taskData: JsValue)

  /** `taskCheckResult?.shouldCreate && taskCheckResult?.taskType`. */
  predicate CreatesTask(r: Option<TaskCheckResult>)
  {
    r.Some? && Truthy(r.value.shouldCreate) && Truthy(r.value.taskType)
  }

  /** The data stored with a created task: `taskData || {}`. */
  function TaskDataOf(r: TaskCheckResult): (d: JsValue)
    ensures Truthy(d)
    ensures Truthy(r.taskData) ==> d == r.taskData
  {
    if Truthy(r.taskData) then r.taskData else JObject
  }

  /**
   * The task the capture creates, if any: only when both `shouldCreate` and
   * `taskType` are truthy. A check that returns nothing creates nothing.
   */
  function TaskToCreate(r: Option<TaskCheckResult>): (t: Option<(JsValue, JsValue)>)
    ensures t.Some? <==> CreatesTask(r)
    ensures t.Some? ==> t.value == (r.value.taskType, TaskDataOf(r.value))
    ensures r.None? ==> t.None?
  {
    if CreatesTask(r) then Some((r.value.taskType, TaskDataOf(r.value))) else None
  }

  // ---------------------------------------------------------------------
  // Processing a capture

  /** How an awaited call settled: its value, or the message of the error it threw. */
  datatype Step<T> = Resolved(value: T) | Rejected(message: string)

  /**
   * How each awaited call of the close handler settles, in the order they
   * are awaited: the previous snapshot, the summary, the snapshot write,
   * the session timeline, the two calls run together by `Promise.all`
   * (the timeline entry and the task check), and the timeline write.
   */
  datatype CaptureSteps = CaptureSteps(
    previous: Step<Option<PreviousSnapshot>>, summary: Step<Summary>, addSnapshot: Step<()>,
    timeline: Step<()>, entry: Step<string>, taskCheck: Step<Option<TaskCheckResult>>, addEntry: Step<()>)

  /** The row `addTimelineEntry` writes. */
  datatype TimelineRow = TimelineRow(sessionId: string, entry: string, caption: string, timestamp: string)

  /** The close handler's answer once the capture succeeded. */
  datatype CaptureResponse =
    | Processed(screenshot: string, summary: Summary, timelineUpdated: bool)
    | ProcessFailed(status: int, error: string, details: string)

  /** What processing a capture answers and what it writes, and the task it asks to create. */
  datatype Processing = Processing(response: CaptureResponse, snapshot: Option<SnapshotRow>,
                                   timelineRow: Option<TimelineRow>, task: Option<(JsValue, JsValue)>)

  const ProcessingFailed := "Failed to process screenshot"

  /** The message of a rejected step, if it rejected. */
  function RejectionOf<T>(step: Step<T>): seq<string>
  {
    if step.Rejected? then [step.message] else []
  }

  /**
   * The messages of the rejected steps in the order they are awaited; the
   * timeline entry counts before the task check.
   */
  function Rejections(o: CaptureSteps): seq<string>
  {
    RejectionOf(o.previous) + RejectionOf(o.summary) + RejectionOf(o.addSnapshot) + RejectionOf(o.timeline)
    + RejectionOf(o.entry) + RejectionOf(o.taskCheck) + RejectionOf(o.addEntry)
  }

  /** The summary sent back: the summariser's, with its changes emptied when there was no previous snapshot. */
  function ShownSummary(previous: Option<PreviousSnapshot>, summary: Summary): Summary
  {
    if previous.None? then summary.(changes := []) else summary
  }

  /**
   * The close handler after exit code 0, over how its awaited calls settle:
   * the first rejection ends it in its `catch` with a 500 carrying the
   * error's message, and the steps after it do not run. A failed task
   * creation is caught on its own and changes nothing.
   */
  function ProcessCapture(filePath: string, session: Option<string>, timestamp: string, o: CaptureSteps): (r: Processing)
    ensures r.response.ProcessFailed? <==> Rejections(o) != []
    ensures r.response.ProcessFailed? ==> r.response == ProcessFailed(500, ProcessingFailed, Rejections(o)[0])
    ensures r.response.Processed? ==>
              r.response == Processed(filePath, ShownSummary(o.previous.value, o.summary.value), true)
              && r.snapshot == Some(SnapshotFor(filePath, session, o.previous.value, o.summary.value))
              && r.timelineRow == Some(TimelineRow(SessionIdOf(session), o.entry.value, o.summary.value.caption, timestamp))
              && r.task == TaskToCreate(o.taskCheck.value)
    ensures r.timelineRow.Some? <==> r.response.Processed?
    ensures r.task.Some? ==> r.response.Processed?
    ensures r.snapshot.Some? <==> o.previous.Resolved? && o.summary.Resolved? && o.addSnapshot.Resolved?
  {
    var failed := (m: string) => ProcessFailed(500, ProcessingFailed, m);
    match o.previous
    case Rejected(m) => Processing(failed(m), None, None, None)
    case Resolved(previous) =>
      match o.summary
      case Rejected(m) => Processing(failed(m), None, None, None)
      case Resolved(summary) =>
        var row := SnapshotFor(filePath, session, previous, summary);
        match o.addSnapshot
        case Rejected(m) => Processing(failed(m), None, None, None)
        case Resolved(_) =>
          if o.timeline.Rejected? then Processing(failed(o.timeline.message), Some(row), None, None)
          else if o.entry.Rejected? then Processing(failed(o.entry.message), Some(row), None, None)
          else if o.taskCheck.Rejected? then Processing(failed(o.taskCheck.message), Some(row), None, None)
          else if o.addEntry.Rejected? then Processing(failed(o.addEntry.message), Some(row), None, None)
          else
            var entry := TimelineRow(SessionIdOf(session), o.entry.value, summary.caption, timestamp);
            Processing(Processed(filePath, ShownSummary(previous, summary), true), Some(row), Some(entry),
                       TaskToCreate(o.taskCheck.value))
  }

  /**
   * A processed capture answers with the summary it stored: the same
   * caption, description, changes and facts as the snapshot row.
   */
  lemma AnsweredSummaryIsStored(filePath: string, session: Option<string>, timestamp: string, o: CaptureSteps)
    requires ProcessCapture(filePath, session, timestamp, o).response.Processed?
    ensures var r := ProcessCapture(filePath, session, timestamp, o);
            var s := r.response.summary;
            r.snapshot.Some?
            && s == Summary(r.snapshot.value.caption, r.snapshot.value.fullDescription,
                            r.snapshot.value.changes, r.snapshot.value.facts)
  {
  }

  // ---------------------------------------------------------------------
  // Serving a screenshot

  /** A segment of a resolved path: not empty, not `.` or `..`, no slash. */
  predicate CleanSegment(x: string)
  {
    x != "" && x != "." && x != ".." && Lacks(x, '/')
  }

  predicate CleanPath(p: seq<string>)
  {
    forall i :: 0 <= i < |p| ==> CleanSegment(p[i])
  }

  predicate IsPrefix(d: seq<string>, r: seq<string>)
  {
    |d| <= |r| && r[..|d|] == d
  }

  /**
   * `path.resolve` on an absolute path already resolved to `stack`,
   * followed by `segs`: empty and `.` segments vanish, `..` drops the last
   * segment (and stays at the root).
   */
  function Normalize(stack: seq<string>, segs: seq<string>): (r: seq<string>)
    requires CleanPath(stack)
    requires forall i :: 0 <= i < |segs| ==> Lacks(segs[i], '/')
    ensures CleanPath(r)
    decreases |segs|
  {
    if segs == [] then stack
    else
      var s := segs[0];
      if s == "" || s == "." then Normalize(stack, segs[1..])
      else if s == ".." then Normalize(if stack == [] then [] else stack[..|stack| - 1], segs[1..])
      else Normalize(stack + [s], segs[1..])
  }

  /** The text of a path of segments: `/a/b`, or `/` for the root. */
  function Render(p: seq<string>): string
  {
    if p == [] then "" else "/" + p[0] + Render(p[1..])
  }

  function PathString(p: seq<string>): string
  {
    if p == [] then "/" else Render(p)
  }

  /** The screenshots directory under the project root. */
  function ScreenshotsDir(root: seq<string>): (d: seq<string>)
    requires CleanPath(root)
    ensures CleanPath(d) && d != []
  {
    assert CleanSegment(ScreenshotsDirName) by {
      assert ScreenshotsDirName[0] == 's';
      assert |ScreenshotsDirName| == 11;
    }
    root + [ScreenshotsDirName]
  }

  /** `path.resolve(path.join(root, 'screenshots', filename))`. */
  function ResolveScreenshot(root: seq<string>, filename: string): (r: seq<string>)
    requires CleanPath(root)
    ensures CleanPath(r)
  {
    SplitOnPartsLack(filename, '/');
    Normalize(ScreenshotsDir(root), SplitOn(filename, "/"))
  }

  /** The corrected containment test on path strings: the directory itself, or below it. */
  predicate Inside(resolved: string, dir: string)
  {
    resolved == dir || StartsWith(resolved, dir + "/")
  }

  datatype ServeOutcome = Forbidden | NotFound | Sent(path: string)

  /** The handler as written: a plain string-prefix test against the directory, then existence. */
  function ServeScreenshotAsWritten(root: seq<string>, filename: string, existing: set<string>): (o: ServeOutcome)
    requires CleanPath(root)
    ensures var resolved := PathString(ResolveScreenshot(root, filename));
      && (o.Forbidden? <==> !StartsWith(resolved, PathString(ScreenshotsDir(root))))
      && (o.NotFound? <==> StartsWith(resolved, PathString(ScreenshotsDir(root))) && resolved !in existing)
      && (o.Sent? ==> o.path == resolved && resolved in existing)
  {
    var resolved := PathString(ResolveScreenshot(root, filename));
    if !StartsWith(resolved, PathString(ScreenshotsDir(root))) then Forbidden
    else if resolved !in existing then NotFound
    else Sent(resolved)
  }

  /**
   * The handler with the containment test corrected: it refuses exactly the
   * paths that do not lie in the screenshots directory.
   */
  function ServeScreenshot(root: seq<string>, filename: string, existing: set<string>): (o: ServeOutcome)
    requires CleanPath(root)
    ensures var resolved := ResolveScreenshot(root, filename);
      && (o.Forbidden? <==> !IsPrefix(ScreenshotsDir(root), resolved))
      && (o.NotFound? <==> IsPrefix(ScreenshotsDir(root), resolved) && PathString(resolved) !in existing)
      && (o.Sent? ==> o.path == PathString(resolved) && o.path in existing)
  {
    var resolved := ResolveScreenshot(root, filename);
    InsideIffPrefix(ScreenshotsDir(root), resolved);
    if !Inside(PathString(resolved), PathString(ScreenshotsDir(root))) then Forbidden
    else if PathString(resolved) !in existing then NotFound
    else Sent(PathString(resolved))
  }

  lemma {:induction false} RenderAppend(a: seq<string>, b: seq<string>)
    ensures Render(a + b) == Render(a) + Render(b)
    decreases |a|
  {
    if a == [] {
      assert a + b == b;
    } else {
      assert (a + b)[1..] == a[1..] + b;
      RenderAppend(a[1..], b);
    }
  }

  lemma RenderStartsWithSlash(p: seq<string>)
    requires p != []
    ensures |Render(p)| >= 1 + |p[0]| && Render(p)[0] == '/'
  {
  }

  /** `s == t || s.startsWith(t + '/')` is `(s + '/').startsWith(t + '/')`. */
  lemma InsideBySlash(s: string, t: string)
    ensures Inside(s, t) <==> StartsWith(s + "/", t + "/")
  {
    if StartsWith(s + "/", t + "/") {
      if |t| + 1 <= |s| {
        assert (s + "/")[..|t| + 1] == s[..|t| + 1];
      } else {
        assert s == (s + "/")[..|s|] == (t + "/")[..|t|] == t;
      }
    }
    if StartsWith(s, t + "/") {
      assert (s + "/")[..|t| + 1] == s[..|t| + 1];
    }
  }

  /** Where two slash-free segments differ in length, the shorter one meets a slash the longer one lacks. */
  lemma MismatchUnlessSameLength(x: string, v: string, y: string, w: string)
    requires Lacks(x, '/') && Lacks(y, '/')
    requires v != [] && v[0] == '/' && w != [] && w[0] == '/'
    ensures |x| != |y| ==> !StartsWith(y + w, x + v)
  {
    if |x| < |y| && |x + v| <= |y + w| {
      assert (y + w)[..|x + v|][|x|] == y[|x|] != '/';
      assert (x + v)[|x|] == v[0];
    }
    if |y| < |x| && |x + v| <= |y + w| {
      assert (y + w)[..|x + v|][|y|] == w[0];
      assert (x + v)[|y|] == x[|y|] != '/';
    }
  }

  /** Two segments followed by slash-led rests: one prefixes the other only segment by segment. */
  lemma SegmentPrefix(x: string, v: string, y: string, w: string)
    requires Lacks(x, '/') && Lacks(y, '/')
    requires v != [] && v[0] == '/' && w != [] && w[0] == '/'
    ensures StartsWith(y + w, x + v) <==> x == y && StartsWith(w, v)
  {
    if StartsWith(y + w, x + v) {
      MismatchUnlessSameLength(x, v, y, w);
      assert x == (x + v)[..|x|] == (y + w)[..|y|] == y;
      assert w[..|v|] == (y + w)[|y|..|y| + |v|] == (x + v)[|x|..] == v;
    }
    if x == y && StartsWith(w, v) {
      assert (y + w)[..|x + v|] == y + w[..|v|];
    }
  }

  lemma {:induction false} RenderSlashPrefix(d: seq<string>, r: seq<string>)
    requires CleanPath(d) && CleanPath(r)
    ensures StartsWith(Render(r) + "/", Render(d) + "/") <==> IsPrefix(d, r)
    decreases |d|
  {
    if d == [] {
      if r != [] { RenderStartsWithSlash(r); }
      assert (Render(r) + "/")[0] == '/';
      assert (Render(r) + "/")[..1] == "/";
    } else if r == [] {
      RenderStartsWithSlash(d);
    } else {
      var v, w := Render(d[1..]) + "/", Render(r[1..]) + "/";
      if d[1..] != [] { RenderStartsWithSlash(d[1..]); }
      if r[1..] != [] { RenderStartsWithSlash(r[1..]); }
      assert v[0] == '/' && w[0] == '/';
      assert Render(d) + "/" == "/" + (d[0] + v);
      assert Render(r) + "/" == "/" + (r[0] + w);
      SegmentPrefix(d[0], v, r[0], w);
      SlashCancels(r[0] + w, d[0] + v);
      assert CleanPath(d[1..]) && CleanPath(r[1..]);
      RenderSlashPrefix(d[1..], r[1..]);
      IsPrefixByHead(d, r);
    }
  }

  /** A common leading slash does not change whether one string starts with another. */
  lemma SlashCancels(a: string, b: string)
    ensures StartsWith("/" + a, "/" + b) <==> StartsWith(a, b)
  {
    var sa, sb := "/" + a, "/" + b;
    if StartsWith(sa, sb) {
      assert sa[..|b| + 1] == sb;
      assert a[..|b|] == sa[..|b| + 1][1..];
      assert sb[1..] == b;
    }
    if StartsWith(a, b) {
      assert sa[..|b| + 1] == "/" + a[..|b|];
    }
  }

  /** A non-empty path prefixes another exactly when the first segments agree and the rests do. */
  lemma IsPrefixByHead(d: seq<string>, r: seq<string>)
    requires d != [] && r != []
    ensures IsPrefix(d, r) <==> d[0] == r[0] && IsPrefix(d[1..], r[1..])
  {
    if IsPrefix(d, r) {
      assert r[0] == r[..|d|][0] == d[0];
      assert r[1..][..|d| - 1] == r[..|d|][1..];
    }
    if d[0] == r[0] && IsPrefix(d[1..], r[1..]) {
      assert r[..|d|] == [r[0]] + r[1..][..|d| - 1];
    }
  }

  /** The corrected test passes exactly for the paths in the directory, segment by segment. */
  lemma InsideIffPrefix(d: seq<string>, r: seq<string>)
    requires CleanPath(d) && CleanPath(r) && d != []
    ensures Inside(PathString(r), PathString(d)) <==> IsPrefix(d, r)
  {
    InsideBySlash(PathString(r), PathString(d));
    if r == [] {
      RenderStartsWithSlash(d);
      assert |PathString(d) + "/"| > 1;
    } else {
      RenderSlashPrefix(d, r);
    }
  }

  /** The written test admits everything the corrected one does. */
  lemma AsWrittenAdmitsInside(root: seq<string>, filename: string, existing: set<string>)
    requires CleanPath(root)
    requires !ServeScreenshot(root, filename, existing).Forbidden?
    ensures ServeScreenshotAsWritten(root, filename, existing) == ServeScreenshot(root, filename, existing)
  {
    var d, r := ScreenshotsDir(root), ResolveScreenshot(root, filename);
    InsideIffPrefix(d, r);
    assert Inside(PathString(r), PathString(d));
    if PathString(r) != PathString(d) {
      assert PathString(r)[..|PathString(d)|] == PathString(r)[..|PathString(d) + "/"|][..|PathString(d)|];
    }
  }

  /** A plain file name resolves to that file in the directory, and neither handler refuses it. */
  lemma PlainNameInside(root: seq<string>, filename: string, existing: set<string>)
    requires CleanPath(root) && CleanSegment(filename)
    ensures ResolveScreenshot(root, filename) == ScreenshotsDir(root) + [filename]
    ensures !ServeScreenshot(root, filename, existing).Forbidden?
    ensures !ServeScreenshotAsWritten(root, filename, existing).Forbidden?
  {
    SplitOnWithout(filename, "/");
    var d := ScreenshotsDir(root);
    assert ResolveScreenshot(root, filename) == Normalize(d, [filename]);
    assert Normalize(d + [filename], []) == d + [filename];
    assert (d + [filename])[..|d|] == d;
    AsWrittenAdmitsInside(root, filename, existing);
  }

  /** `..` climbs out of the directory and is refused by both handlers. */
  lemma ParentRefused(root: seq<string>, existing: set<string>)
    requires CleanPath(root)
    ensures ResolveScreenshot(root, "..") == root
    ensures ServeScreenshot(root, "..", existing) == Forbidden
    ensures ServeScreenshotAsWritten(root, "..", existing) == Forbidden
  {
    assert Lacks("..", '/');
    SplitOnWithout("..", "/");
    var d := ScreenshotsDir(root);
    assert d[..|d| - 1] == root;
    assert ResolveScreenshot(root, "..") == Normalize(root, []);
    RenderAppend(root, [ScreenshotsDirName]);
    assert |PathString(root)| < |PathString(d)|;
  }

  lemma SiblingResolves()
    ensures CleanPath(["srv"])
    ensures ResolveScreenshot(["srv"], Join(["..", "screenshots_evil", "x"], "/")) == ["srv", "screenshots_evil", "x"]
  {
    var parts := ["..", "screenshots_evil", "x"];
    var outside := ["srv", "screenshots_evil", "x"];
    assert Lacks("..", '/') && Lacks("screenshots_evil", '/') && Lacks("x", '/');
    assert CleanSegment("srv") by { assert "srv"[0] == 's' && |"srv"| == 3; }
    assert CleanSegment("screenshots_evil") by { assert |"screenshots_evil"| == 16; }
    assert CleanSegment("x") by { assert |"x"| == 1; }
    SplitOnJoin(parts, "/");
    var d := ScreenshotsDir(["srv"]);
    assert Normalize(d, parts) == Normalize(["srv"], parts[1..]);
    assert Normalize(["srv"], parts[1..]) == Normalize(["srv", "screenshots_evil"], parts[2..]);
    assert Normalize(["srv", "screenshots_evil"], parts[2..]) == Normalize(outside, []);
  }

  lemma SiblingSharesPrefix()
    ensures CleanPath(["srv"])
    ensures !IsPrefix(ScreenshotsDir(["srv"]), ["srv", "screenshots_evil", "x"])
    ensures StartsWith(PathString(["srv", "screenshots_evil", "x"]), PathString(ScreenshotsDir(["srv"])))
  {
    assert CleanSegment("srv") by { assert "srv"[0] == 's' && |"srv"| == 3; }
    var outside := ["srv", "screenshots_evil", "x"];
    var d := ScreenshotsDir(["srv"]);
    assert d == ["srv", "screenshots"];
    assert outside[..|d|][1] != d[1];
    assert "screenshots_evil" == "screenshots" + "_evil";
    assert PathString(outside) == PathString(d) + ("_evil" + "/x") by {
      assert Render(outside) == "/" + "srv" + ("/" + "screenshots_evil" + ("/" + "x" + ""));
      assert Render(d) == "/" + "srv" + Render(["screenshots"]);
      assert Render(["screenshots"]) == "/" + "screenshots" + "";
    }
    var p := PathString(d);
    assert (p + ("_evil" + "/x"))[..|p|] == p;
  }

  /**
   * The written test lets `../screenshots_evil/x` through: the sibling
   * directory's path starts with the screenshots directory's path. The
   * corrected test refuses it.
   */
  lemma SiblingDirectoryServed()
    ensures var root, name := ["srv"], Join(["..", "screenshots_evil", "x"], "/");
      var outside := ["srv", "screenshots_evil", "x"];
      && CleanPath(root)
      && ResolveScreenshot(root, name) == outside
      && !IsPrefix(ScreenshotsDir(root), outside)
      && ServeScreenshotAsWritten(root, name, {PathString(outside)}) == Sent(PathString(outside))
      && ServeScreenshot(root, name, {PathString(outside)}) == Forbidden
  {
    SiblingResolves();
    SiblingSharesPrefix();
  }
}
