// The screenshot streaming service: a flag, the handle of the next
// scheduled capture, and the captures it stores. Timers firing and
// captures finishing are events the caller delivers; the capture script,
// the summariser and the database are their parameters.
module Streaming {
  import opened Common

  /** The streaming period in milliseconds. */
  const PeriodMs := 15000

  /**
   * The delay before the next capture: the rest of the period after a stored
   * capture, never negative, or a full period after a failure.
   */
  function NextDelay(stored: bool, elapsed: nat): (d: nat)
    ensures d <= PeriodMs
    ensures stored ==> elapsed + d == if elapsed >= PeriodMs then elapsed else PeriodMs
    ensures !stored ==> d == PeriodMs
  {
    if !stored then PeriodMs
    else if PeriodMs - elapsed > 0 then PeriodMs - elapsed else 0
  }

  /** A scheduled `setTimeout`: its handle and its delay. */
  datatype Timer = Timer(id: nat, delay: nat)

  predicate DistinctIds(timers: seq<Timer>)
  {
    forall i, j :: 0 <= i < j < |timers| ==> timers[i].id != timers[j].id
  }

  /** `clearTimeout(id)`: the pending timers without the one with that handle. */
  function Cancel(timers: seq<Timer>, id: nat): (r: seq<Timer>)
    ensures forall t :: t in r <==> t in timers && t.id != id
    ensures |r| <= |timers|
  {
    if timers == [] then []
    else (if timers[0].id == id then [] else [timers[0]]) + Cancel(timers[1..], id)
  }

  /**
   * How one capture ended: the script's exit code, its trimmed output path
   * (`MonitorRoute.CaptureResult`), whether the summary and row were
   * written, and the milliseconds it took.
   */
  datatype CaptureEnd = CaptureEnd(code: Option<int>, path: string, storedOk: bool, elapsed: nat)

  /** A capture stores a snapshot when the script exits with 0 and the summary and row are written. */
  predicate Stored(e: CaptureEnd)
  {
    e.code == Some(0) && e.storedOk
  }

  class StreamingService {
    var streaming: bool
    /** The handle `streamingTimeout` holds; `None` is `null`. */
    var streamingTimeout: Option<nat>
    /** Timers scheduled and neither fired nor cleared. */
    var pending: seq<Timer>
    var nextTimerId: nat
    /** Captures started and not yet finished. */
    var inFlight: nat
    /** The paths stored by `addSnapshot`, in order. */
    var stored: seq<string>

    predicate Valid()
      reads this
    {
      && (forall i :: 0 <= i < |pending| ==> pending[i].id < nextTimerId)
      && DistinctIds(pending)
      && (streamingTimeout.Some? ==> streamingTimeout.value < nextTimerId)
    }

    constructor ()
      ensures !streaming && streamingTimeout.None? && pending == [] && inFlight == 0 && stored == []
      ensures Valid()
    {
      streaming, streamingTimeout, pending, nextTimerId, inFlight, stored := false, None, [], 0, 0, [];
    }

    /** `isStreamingActive()`. */
    function IsActive(): (b: bool)
      reads this
      ensures b == streaming
    {
      streaming
    }

    /** `startStreaming()`: nothing while already streaming; otherwise set the flag and capture at once. */
    method Start()
      modifies this
      ensures old(streaming) ==> streaming && inFlight == old(inFlight)
      ensures !old(streaming) ==> streaming && inFlight == old(inFlight) + 1
      ensures streamingTimeout == old(streamingTimeout) && pending == old(pending)
      ensures nextTimerId == old(nextTimerId) && stored == old(stored)
      ensures old(Valid()) ==> Valid()
    {
      if streaming {
        return;
      }
      streaming := true;
      inFlight := inFlight + 1;
    }

    /** `stopStreaming()`: clear the flag and the timer the handle names. */
    method Stop()
      modifies this
      ensures !streaming && streamingTimeout.None?
      ensures old(streamingTimeout).Some? ==> pending == Cancel(old(pending), old(streamingTimeout).value)
      ensures old(streamingTimeout).None? ==> pending == old(pending)
      ensures inFlight == old(inFlight) && nextTimerId == old(nextTimerId) && stored == old(stored)
      ensures old(Valid()) ==> Valid()
    {
      streaming := false;
      if streamingTimeout.Some? {
        CancelKeepsOrder(pending, streamingTimeout.value);
        pending := Cancel(pending, streamingTimeout.value);
        streamingTimeout := None;
      }
    }

    /** A pending timer fires and starts a capture; the handle is left as it was. */
    method OnTimerFired(k: nat)
      requires k < |pending|
      modifies this
      ensures pending == old(pending[..k] + pending[k + 1..])
      ensures inFlight == old(inFlight) + 1
      ensures streaming == old(streaming) && streamingTimeout == old(streamingTimeout)
      ensures nextTimerId == old(nextTimerId) && stored == old(stored)
      ensures old(Valid()) ==> Valid()
    {
      ghost var before := pending;
      pending := pending[..k] + pending[k + 1..];
      assert forall i :: 0 <= i < |pending| ==> pending[i] == (if i < k then before[i] else before[i + 1]);
      inFlight := inFlight + 1;
    }

    /**
     * A capture finishes: a stored capture records its trimmed path; then,
     * only while streaming, the next capture is scheduled and its handle
     * replaces the old one.
     */
    method OnCaptureDone(e: CaptureEnd)
      requires inFlight > 0
      modifies this
      ensures inFlight == old(inFlight) - 1
      ensures Stored(e) ==> stored == old(stored) + [e.path]
      ensures !Stored(e) ==> stored == old(stored)
      ensures old(streaming) ==> (pending == old(pending) + [Timer(old(nextTimerId), NextDelay(Stored(e), e.elapsed))]
        && streamingTimeout == Some(old(nextTimerId)) && nextTimerId == old(nextTimerId) + 1)
      ensures !old(streaming) ==> (pending == old(pending) && streamingTimeout == old(streamingTimeout)
        && nextTimerId == old(nextTimerId))
      ensures streaming == old(streaming)
      ensures old(Valid()) ==> Valid()
    {
      inFlight := inFlight - 1;
      if Stored(e) {
        Record(e.path);
      }
      if streaming {
        Schedule(NextDelay(Stored(e), e.elapsed));
      }
    }

    /** `addSnapshot(filePath, …)`. */
    method Record(path: string)
      modifies this
      ensures stored == old(stored) + [path]
      ensures streaming == old(streaming) && streamingTimeout == old(streamingTimeout) && pending == old(pending)
      ensures nextTimerId == old(nextTimerId) && inFlight == old(inFlight)
    {
      stored := stored + [path];
    }

    /** `streamingTimeout = setTimeout(captureAndSaveScreenshot, delay)`. */
    method Schedule(delay: nat)
      modifies this
      ensures pending == old(pending) + [Timer(old(nextTimerId), delay)]
      ensures streamingTimeout == Some(old(nextTimerId)) && nextTimerId == old(nextTimerId) + 1
      ensures streaming == old(streaming) && inFlight == old(inFlight) && stored == old(stored)
      ensures old(Valid()) ==> Valid()
    {
      ghost var before := pending;
      pending := pending + [Timer(nextTimerId, delay)];
      if old(Valid()) {
        forall i, j | 0 <= i < j < |pending| ensures pending[i].id != pending[j].id {
          if j == |before| {
            assert pending[i] == before[i];
          } else {
            assert pending[i] == before[i] && pending[j] == before[j];
          }
        }
      }
      streamingTimeout := Some(nextTimerId);
      nextTimerId := nextTimerId + 1;
    }
  }

  /** Clearing a timer keeps the remaining handles distinct. */
  lemma {:induction false} CancelKeepsOrder(timers: seq<Timer>, id: nat)
    ensures DistinctIds(timers) ==> DistinctIds(Cancel(timers, id))
  {
    if timers != [] && DistinctIds(timers) {
      var tail := timers[1..];
      DistinctTail(timers);
      CancelKeepsOrder(tail, id);
      var rest := Cancel(tail, id);
      if timers[0].id != id {
        assert Cancel(timers, id) == [timers[0]] + rest;
        forall t | t in rest ensures t.id != timers[0].id {
          var k :| 0 <= k < |tail| && tail[k] == t;
          assert timers[k + 1] == t;
        }
        DistinctCons(timers[0], rest);
      } else {
        assert Cancel(timers, id) == rest;
      }
    }
  }

  lemma DistinctTail(timers: seq<Timer>)
    requires timers != [] && DistinctIds(timers)
    ensures DistinctIds(timers[1..])
  {
    var tail := timers[1..];
    forall i, j | 0 <= i < j < |tail| ensures tail[i].id != tail[j].id {
      assert tail[i] == timers[i + 1] && tail[j] == timers[j + 1];
    }
  }

  lemma DistinctCons(t: Timer, rest: seq<Timer>)
    requires DistinctIds(rest) && forall u :: u in rest ==> u.id != t.id
    ensures DistinctIds([t] + rest)
  {
    var r := [t] + rest;
    forall i, j | 0 <= i < j < |r| ensures r[i].id != r[j].id {
      if i == 0 {
        assert r[j] == rest[j - 1] && rest[j - 1] in rest;
      } else {
        assert r[i] == rest[i - 1] && r[j] == rest[j - 1];
      }
    }
  }

  /** With the one pending timer named by the handle, stopping leaves nothing scheduled. */
  lemma StopClearsSingleLoop(pending: seq<Timer>, handle: nat)
    requires |pending| <= 1 && (pending != [] ==> pending[0].id == handle)
    ensures Cancel(pending, handle) == []
  {
    if pending != [] {
      assert Cancel(pending[1..], handle) == [];
    }
  }

  /** `GET /streaming?on=…`: start exactly when `on` is `'true'`, otherwise stop. */
  method StreamingRequest(svc: StreamingService, on: Option<string>) returns (status: string, isActive: bool)
    modifies svc
    ensures isActive <==> on == Some("true")
    ensures status == if on == Some("true") then "streaming started" else "streaming stopped"
    ensures svc.stored == old(svc.stored)
    ensures old(svc.Valid()) ==> svc.Valid()
  {
    if on == Some("true") {
      svc.Start();
      status := "streaming started";
    } else {
      svc.Stop();
      status := "streaming stopped";
    }
    isActive := svc.IsActive();
  }

  /**
   * Stopping and restarting while a capture is still running leaves two
   * captures in flight; each reschedules itself when it ends, so two loops run.
   */
  method RestartDuringCapture() returns (inFlight: nat, scheduled: nat)
    ensures inFlight == 2
    ensures scheduled == 2
  {
    var svc := new StreamingService();
    svc.Start();
    svc.Stop();
    svc.Start();
    inFlight := svc.inFlight;
    var done := CaptureEnd(Some(0), "/tmp/a.png", true, 100);
    svc.OnCaptureDone(done);
    svc.OnCaptureDone(done);
    scheduled := |svc.pending|;
  }
}
