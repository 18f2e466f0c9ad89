// The timeline monitor of the three web front ends: the list of snapshots
// reloaded every two seconds, the horizontal position of each snapshot on
// the time axis, the selected snapshot and its previous/next buttons, and
// which load errors are kept quiet. Snapshot times are milliseconds as
// `new Date(created_at).getTime()` gives them; percentages are exact
// (real numbers).
module Timeline {
  import opened Common

  datatype Snapshot = Snapshot(createdAt: int, caption: string, screenshotPath: string)

  // ---------------------------------------------------------------------
  // Positions on the time axis

  function Times(snapshots: seq<Snapshot>): (ts: seq<int>)
    ensures |ts| == |snapshots| && forall i :: 0 <= i < |ts| ==> ts[i] == snapshots[i].createdAt
  {
    if snapshots == [] then [] else [snapshots[0].createdAt] + Times(snapshots[1..])
  }

  /** The place of `t` between `lo` and `hi`, as a percentage. */
  function AxisPosition(lo: int, hi: int, t: int): (p: real)
    requires lo < hi
    ensures t == lo ==> p == 0.0
    ensures t == hi ==> p == 100.0
    ensures lo <= t <= hi ==> 0.0 <= p <= 100.0
  {
    var d := (hi - lo) as real;
    RatioWithinOneIfBetween((t - lo) as real, d);
    ((t - lo) as real / d) * 100.0
  }

  lemma RatioWithinOneIfBetween(x: real, d: real)
    requires d > 0.0
    ensures 0.0 <= x <= d ==> 0.0 <= x / d <= 1.0
    ensures x == d ==> x / d == 1.0
  {
    var q := x / d;
    assert q * d == x;
  }

  /**
   * `getTimePosition`: 0 with no snapshots, the middle (50) with one
   * snapshot or when all share one time, and otherwise the time's place
   * between the earliest and the latest as a percentage.
   */
  function TimePosition(ts: seq<int>, t: int): (p: real)
    ensures |ts| == 0 ==> p == 0.0
    ensures |ts| == 1 ==> p == 50.0
    ensures |ts| >= 2 && MinOf(ts) == MaxOf(ts) ==> p == 50.0
    ensures |ts| >= 2 && MinOf(ts) != MaxOf(ts) ==> p == AxisPosition(MinOf(ts), MaxOf(ts), t)
  {
    if |ts| == 0 then 0.0
    else if |ts| == 1 then 50.0
    else
      var lo, hi := MinOf(ts), MaxOf(ts);
      if hi - lo == 0 then 50.0
      else AxisPosition(lo, hi, t)
  }

  /** Every snapshot's own time lies on the axis: its position is within [0, 100]. */
  lemma TimePositionInRange(ts: seq<int>, k: nat)
    requires k < |ts|
    ensures 0.0 <= TimePosition(ts, ts[k]) <= 100.0
  {
  }

  /** With a spread of times, the earliest snapshot sits at 0 and the latest at 100. */
  lemma TimePositionEnds(ts: seq<int>)
    requires |ts| >= 2 && MinOf(ts) != MaxOf(ts)
    ensures TimePosition(ts, MinOf(ts)) == 0.0 && TimePosition(ts, MaxOf(ts)) == 100.0
  {
  }

  /** Later snapshots never sit to the left of earlier ones. */
  lemma TimePositionMonotone(ts: seq<int>, t: int, u: int)
    requires t <= u
    ensures TimePosition(ts, t) <= TimePosition(ts, u)
  {
    if |ts| >= 2 && MinOf(ts) != MaxOf(ts) {
      var lo, hi := MinOf(ts), MaxOf(ts);
      DivideMonotone((t - lo) as real, (u - lo) as real, (hi - lo) as real);
    }
  }

  lemma DivideMonotone(x: real, y: real, d: real)
    requires d > 0.0 && x <= y
    ensures x / d <= y / d
  {
    var qx, qy := x / d, y / d;
    assert qx * d == x && qy * d == y;
    assert (qy - qx) * d == y - x;
  }

  // ---------------------------------------------------------------------
  // The screenshot's file name

  /** `path.split("/").pop() || path`: the last segment, or the whole path when that is empty. */
  function ScreenshotFilename(path: string): (name: string)
    ensures name == path || (name != "" && Lacks(name, '/'))
  {
    var parts := SplitOn(path, "/");
    SplitOnPartsLack(path, '/');
    var last := parts[|parts| - 1];
    if last != "" then last else path
  }

  /** The last part of splitting `a/b` on `/`, when `b` has no slash, is `b`. */
  lemma {:induction false} SplitLastAfterSlash(a: string, b: string)
    requires Lacks(b, '/')
    ensures var parts := SplitOn(a + "/" + b, "/"); |parts| >= 2 && parts[|parts| - 1] == b
    decreases |a|
  {
    var s := a + "/" + b;
    if a == [] {
      assert s == "/" + b && s[..1] == "/" && s[1..] == b;
      SplitOnWithout(b, "/");
    } else {
      assert s[1..] == a[1..] + "/" + b;
      SplitLastAfterSlash(a[1..], b);
      if StartsWith(s, "/") {
        assert s[|"/"|..] == s[1..];
      }
    }
  }

  /** A file inside a directory is shown by its own name. */
  lemma FilenameOfFileInDirectory(dir: string, name: string)
    requires name != "" && Lacks(name, '/')
    ensures ScreenshotFilename(dir + "/" + name) == name
  {
    SplitLastAfterSlash(dir, name);
  }

  /** A name without a slash is its own file name. */
  lemma FilenameOfPlainName(name: string)
    requires Lacks(name, '/')
    ensures ScreenshotFilename(name) == name
  {
    SplitOnWithout(name, "/");
  }

  /** A path ending in a slash has an empty last segment, so the whole path is kept. */
  lemma FilenameOfDirectoryPath(dir: string)
    ensures ScreenshotFilename(dir + "/") == dir + "/"
  {
    assert Lacks("", '/');
    SplitLastAfterSlash(dir, "");
    assert dir + "/" + "" == dir + "/";
  }

  // ---------------------------------------------------------------------
  // Selection and navigation

  /** `selectedIndex !== null ? snapshots[selectedIndex] : null`; an index past the end reads `undefined`. */
  function Selected(snapshots: seq<Snapshot>, index: Option<int>): (s: Option<Snapshot>)
    ensures index.None? ==> s.None?
    ensures index.Some? && 0 <= index.value < |snapshots| ==> s == Some(snapshots[index.value])
  {
    if index.Some? && 0 <= index.value < |snapshots| then Some(snapshots[index.value]) else None
  }

  /** For an index within the list, a snapshot is shown exactly when an index is selected. */
  lemma SelectedIffIndex(snapshots: seq<Snapshot>, index: Option<int>)
    requires index.Some? ==> 0 <= index.value < |snapshots|
    ensures Selected(snapshots, index).None? <==> index.None?
  {
  }

  /** The previous button: `prev === 0 ? n - 1 : (prev || 0) - 1`. */
  function PrevIndex(prev: Option<int>, n: nat): (r: int)
    ensures prev.Some? && 0 <= prev.value < n ==> 0 <= r < n
    ensures prev == Some(0) ==> r == n - 1
  {
    if prev == Some(0) then n - 1
    else (if prev.Some? then prev.value else 0) - 1
  }

  /** JavaScript's `%`: the remainder takes the dividend's sign. */
  function JsRemainder(a: int, n: int): (r: int)
    requires n > 0
    ensures a >= 0 ==> r == a % n
    ensures -n < r < n
  {
    if a >= 0 then a % n else -((-a) % n)
  }

  /** The next button: `((prev ?? -1) + 1) % n`. */
  function NextIndex(prev: Option<int>, n: nat): (r: int)
    requires n > 0
    ensures prev.None? ==> r == 0
    ensures prev.Some? && 0 <= prev.value < n ==> 0 <= r < n
    ensures prev.Some? && 0 <= prev.value < n - 1 ==> r == prev.value + 1
    ensures prev == Some(n - 1) ==> r == 0
  {
    JsRemainder((if prev.Some? then prev.value else -1) + 1, n)
  }

  /** The two buttons undo each other on every index of a non-empty list. */
  lemma PrevNextInverse(i: int, n: nat)
    requires 0 <= i < n
    ensures NextIndex(Some(PrevIndex(Some(i), n)), n) == i
    ensures PrevIndex(Some(NextIndex(Some(i), n)), n) == i
  {
  }

  /** `k` presses of the next button from index `i`, for `k` up to `n`, wrap around once. */
  lemma {:induction false} NextWraps(i: int, n: nat, k: nat)
    requires 0 <= i < n && k <= n
    ensures Iterate(i, n, k) == if i + k < n then i + k else i + k - n
  {
    if k > 0 {
      NextWraps(i, n, k - 1);
    }
  }

  /** `n` presses of the next button come back to where they started. */
  lemma NextCycles(i: int, n: nat)
    requires 0 <= i < n
    ensures Iterate(i, n, n) == i
  {
    NextWraps(i, n, n);
  }

  /** `k` presses of the next button. */
  function Iterate(i: int, n: nat, k: nat): (r: int)
    requires 0 <= i < n
    ensures 0 <= r < n
  {
    if k == 0 then i else NextIndex(Some(Iterate(i, n, k - 1)), n)
  }

  /** The vertical offset of the point at `index`: even points at 10px, odd points at 60px. */
  function PointTop(index: nat): (top: int)
    ensures top == 10 || top == 60
    ensures top == 10 <==> index % 2 == 0
  {
    if index % 2 == 0 then 10 else 60
  }

  /** Neighbouring points never share a row. */
  lemma PointsAlternate(index: nat)
    ensures PointTop(index) != PointTop(index + 1)
  {
  }

  // ---------------------------------------------------------------------
  // Loading and the component's state

  /** A failed load: the error's `message` and `code`, either of which may be missing. */
  datatype LoadError = LoadError(message: Option<string>, code: Option<string>)

  datatype LoadOutcome = Loaded(data: seq<Snapshot>) | LoadFailed(error: LoadError)

  /**
   * Which errors are treated as the backend restarting: the two Next.js
   * front ends look for "Network" in the message, the Vite front end for
   * the network error codes.
   */
  datatype ErrorPolicy = MessageMentionsNetwork | NetworkErrorCode

  predicate Suppressed(policy: ErrorPolicy, e: LoadError)
  {
    match policy
    case MessageMentionsNetwork => e.message.Some? && Contains(e.message.value, "Network")
    case NetworkErrorCode => e.code == Some("ERR_NETWORK") || e.code == Some("ECONNREFUSED")
  }

  datatype View = LoadingView | ErrorView(message: string) | TimelineView(snapshots: seq<Snapshot>, selected: Option<Snapshot>)

  class TimelineMonitor {
    const policy: ErrorPolicy
    var snapshots: seq<Snapshot>
    var selectedIndex: Option<int>
    var loading: bool
    /** The recorded error; `None` is `null` (or an error without a message). */
    var error: Option<string>

    constructor (policy: ErrorPolicy)
      ensures this.policy == policy
      ensures snapshots == [] && selectedIndex.None? && loading && error.None?
    {
      this.policy := policy;
      snapshots := [];
      selectedIndex := None;
      loading := true;
      error := None;
    }

    /**
     * `loadTimeline`: new data replaces the list and clears the error; a
     * failure keeps the list, and records its message unless the policy
     * suppresses it. Loading is over either way.
     */
    method LoadTimeline(outcome: LoadOutcome)
      modifies this`snapshots, this`error, this`loading
      ensures !loading
      ensures outcome.Loaded? ==> snapshots == outcome.data && error.None?
      ensures outcome.LoadFailed? ==> snapshots == old(snapshots)
      ensures outcome.LoadFailed? && Suppressed(policy, outcome.error) ==> error == old(error)
      ensures outcome.LoadFailed? && !Suppressed(policy, outcome.error) ==> error == outcome.error.message
    {
      match outcome {
        case Loaded(data) =>
          snapshots := data;
          error := None;
        case LoadFailed(e) =>
          if !Suppressed(policy, e) {
            error := e.message;
          }
      }
      loading := false;
    }

    /** Clicking the point of snapshot `index`. */
    method Select(index: nat)
      requires index < |snapshots|
      modifies this`selectedIndex
      ensures selectedIndex == Some(index) && Selected(snapshots, selectedIndex) == Some(snapshots[index])
    {
      selectedIndex := Some(index);
    }

    /** The previous button, shown only in the detail view of a selected snapshot. */
    method Previous()
      requires Selected(snapshots, selectedIndex).Some?
      modifies this`selectedIndex
      ensures selectedIndex == Some(PrevIndex(old(selectedIndex), |snapshots|))
      ensures Selected(snapshots, selectedIndex).Some?
    {
      selectedIndex := Some(PrevIndex(selectedIndex, |snapshots|));
    }

    /** The next button, shown only in the detail view of a selected snapshot. */
    method Next()
      requires Selected(snapshots, selectedIndex).Some?
      modifies this`selectedIndex
      ensures selectedIndex == Some(NextIndex(old(selectedIndex), |snapshots|))
      ensures Selected(snapshots, selectedIndex).Some?
    {
      selectedIndex := Some(NextIndex(selectedIndex, |snapshots|));
    }

    /**
     * What the component shows: the spinner while the first load is
     * pending, the error while there is nothing to show, and otherwise the
     * timeline with the selected snapshot's details, if any.
     */
    function Render(): (v: View)
      reads this
      ensures |snapshots| > 0 ==> v.TimelineView?
      ensures v.LoadingView? <==> loading && |snapshots| == 0
      ensures v.ErrorView? <==> !loading && Present(error) && |snapshots| == 0
      ensures v.ErrorView? ==> v.message == error.value
      ensures v.TimelineView? ==> v.snapshots == snapshots && v.selected == Selected(snapshots, selectedIndex)
    {
      if loading && |snapshots| == 0 then LoadingView
      else if Present(error) && |snapshots| == 0 then ErrorView(error.value)
      else TimelineView(snapshots, Selected(snapshots, selectedIndex))
    }
  }

  /** The Vite front end stays quiet on refused connections and reports anything else. */
  lemma CodePolicyExamples(message: Option<string>)
    ensures Suppressed(NetworkErrorCode, LoadError(message, Some("ECONNREFUSED")))
    ensures !Suppressed(NetworkErrorCode, LoadError(message, Some("ETIMEDOUT")))
  {
    assert "ETIMEDOUT"[1] != "ERR_NETWORK"[1] && "ETIMEDOUT"[1] != "ECONNREFUSED"[1];
  }

  /** `Network Error`, the message of a failed request, is suppressed by the message policy. */
  lemma MessagePolicyExample(code: Option<string>)
    ensures Suppressed(MessageMentionsNetwork, LoadError(Some("Network Error"), code))
  {
    var m := "Network Error";
    assert m[0..7] == "Network";
    assert OccursAt(m, "Network", 0);
  }
}
