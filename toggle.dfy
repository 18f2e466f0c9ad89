// The popup's screenshot-monitoring switch: it asks the backend to start or
// stop streaming and flips its own state only when the backend answers ok.
// The page elements are flags saying whether each exists and fields holding
// what they show; the two 2-second restore timeouts of `showError` are
// pending events.
module Toggle {
  import opened Common

  /** The storage key the switch persists under. */
  const StorageKey := "screenshotMonitoringEnabled"
  const StreamingEndpoint := "http://localhost:3000/api/monitor/streaming"
  /** How long the error display lasts, in milliseconds. */
  const ErrorDisplayMs := 2000

  /** `String(b)`. */
  function BoolString(b: bool): (s: string)
    ensures s == "true" || s == "false"
    ensures s == "true" <==> b
  {
    if b then "true" else "false"
  }

  /** The status text for a state. */
  function StatusLabel(enabled: bool): (s: string)
    ensures s == "ON" || s == "OFF"
    ensures s == "ON" <==> enabled
  {
    if enabled then "ON" else "OFF"
  }

  /** The request `toggle` sends for the state it asks for: `...?on=<newState>`. */
  function StreamingRequest(newState: bool): (u: Url)
    ensures u.base == StreamingEndpoint && Lookup(u.params, "on") == Some(BoolString(newState))
    ensures |u.params| == 1
  {
    Url(StreamingEndpoint, [("on", BoolString(newState))])
  }

  class ScreenshotToggle {
    var enabled: bool
    /** Whether `#screenshotToggle` and `#toggleStatus` exist. */
    const hasToggle: bool
    const hasStatus: bool
    /** The switch's `active` and `disabled` classes, its pulse animation and its error border. */
    var active: bool
    var disabled: bool
    var pulsing: bool
    var errorBorder: bool
    /** The status element's text, opacity and colour. */
    var statusText: string
    var statusOpacity: string
    var statusColor: string
    /** `chrome.storage.local`'s value under `StorageKey`. */
    var stored: Option<bool>
    /** The requests sent to the backend, in order. */
    var requests: seq<Url>
    /** Pending status restores, each with the text it puts back. */
    var restores: seq<string>
    /** Pending border resets. */
    var borderResets: nat

    constructor (toggleExists: bool, statusExists: bool, initialStatus: string, storage: Option<bool>)
      ensures !enabled && hasToggle == toggleExists && hasStatus == statusExists
      ensures statusText == initialStatus && stored == storage && !active && !disabled
      ensures requests == [] && restores == [] && borderResets == 0
    {
      enabled := false;
      hasToggle := toggleExists;
      hasStatus := statusExists;
      active, disabled, pulsing, errorBorder := false, false, false, false;
      statusText := initialStatus;
      statusOpacity := "";
      statusColor := "";
      stored := storage;
      requests := [];
      restores := [];
      borderResets := 0;
    }

    /** `loadState`: the stored value, or false; a failing read leaves the state alone. */
    method LoadState(readFails: bool)
      modifies this
      ensures enabled == if readFails then old(enabled) else stored == Some(true)
      ensures active == old(active) && disabled == old(disabled) && pulsing == old(pulsing)
      ensures errorBorder == old(errorBorder) && statusText == old(statusText)
      ensures statusOpacity == old(statusOpacity) && statusColor == old(statusColor)
      ensures stored == old(stored) && requests == old(requests)
      ensures restores == old(restores) && borderResets == old(borderResets)
    {
      if !readFails {
        enabled := stored.Some? && stored.value;
      }
    }

    /** `saveState`: persist the state; a failing write is only logged. */
    method SaveState(writeFails: bool)
      modifies this
      ensures stored == if writeFails then old(stored) else Some(enabled)
      ensures enabled == old(enabled) && active == old(active) && disabled == old(disabled)
      ensures pulsing == old(pulsing) && errorBorder == old(errorBorder) && statusText == old(statusText)
      ensures statusOpacity == old(statusOpacity) && statusColor == old(statusColor)
      ensures requests == old(requests) && restores == old(restores) && borderResets == old(borderResets)
    {
      if !writeFails {
        stored := Some(enabled);
      }
    }

    /** `updateUI`: `active` and `ON` exactly when enabled, but only when both elements exist. */
    method UpdateUI()
      modifies this
      ensures hasToggle && hasStatus ==> active == enabled && statusText == StatusLabel(enabled)
      ensures !(hasToggle && hasStatus) ==> active == old(active) && statusText == old(statusText)
      ensures enabled == old(enabled) && disabled == old(disabled) && pulsing == old(pulsing)
      ensures errorBorder == old(errorBorder) && statusOpacity == old(statusOpacity) && statusColor == old(statusColor)
      ensures stored == old(stored) && requests == old(requests)
      ensures restores == old(restores) && borderResets == old(borderResets)
    {
      if hasToggle && hasStatus {
        active := enabled;
        statusText := StatusLabel(enabled);
      }
    }

    /** `init`: load, then show. */
    method Init(readFails: bool)
      modifies this
      ensures enabled == if readFails then old(enabled) else stored == Some(true)
      ensures hasToggle && hasStatus ==> statusText == StatusLabel(enabled)
      ensures stored == old(stored) && requests == old(requests)
    {
      LoadState(readFails);
      UpdateUI();
    }

    /**
     * `setDisabled`: the switch's class and pulse follow the flag; the
     * status shows `...` at half opacity when disabling, and re-enabling
     * leaves the status as it is.
     */
    method SetDisabled(flag: bool)
      modifies this
      ensures hasToggle ==> disabled == flag && pulsing == flag
      ensures !hasToggle ==> disabled == old(disabled) && pulsing == old(pulsing)
      ensures hasStatus && flag ==> statusText == "..." && statusOpacity == "0.5"
      ensures !(hasStatus && flag) ==> statusText == old(statusText) && statusOpacity == old(statusOpacity)
      ensures enabled == old(enabled) && active == old(active) && errorBorder == old(errorBorder)
      ensures statusColor == old(statusColor) && stored == old(stored) && requests == old(requests)
      ensures restores == old(restores) && borderResets == old(borderResets)
    {
      if hasToggle {
        disabled := flag;
        pulsing := flag;
      }
      if hasStatus && flag {
        statusText := "...";
        statusOpacity := "0.5";
      }
    }

    /**
     * The error display that restores `restoreText` once its timeout fires:
     * `ERR` in red, and a red border on the switch.
     */
    method ShowErrorRestoring(restoreText: string)
      modifies this
      ensures hasStatus ==> statusText == "ERR" && statusOpacity == "0.8" && statusColor == "#ff6b6b"
                            && restores == old(restores) + [restoreText]
      ensures !hasStatus ==> statusText == old(statusText) && statusOpacity == old(statusOpacity)
                             && statusColor == old(statusColor) && restores == old(restores)
      ensures hasToggle ==> errorBorder && borderResets == old(borderResets) + 1
      ensures !hasToggle ==> errorBorder == old(errorBorder) && borderResets == old(borderResets)
      ensures enabled == old(enabled) && active == old(active) && disabled == old(disabled)
      ensures pulsing == old(pulsing) && stored == old(stored) && requests == old(requests)
    {
      if hasStatus {
        statusText := "ERR";
        statusOpacity := "0.8";
        statusColor := "#ff6b6b";
        restores := restores + [restoreText];
      }
      if hasToggle {
        errorBorder := true;
        borderResets := borderResets + 1;
      }
    }

    /** `showError`: the text shown before the error is the one put back. */
    method ShowError()
      modifies this
      ensures hasStatus ==> statusText == "ERR" && restores == old(restores) + [old(statusText)]
      ensures !hasStatus ==> statusText == old(statusText) && restores == old(restores)
      ensures hasToggle ==> errorBorder && borderResets == old(borderResets) + 1
      ensures enabled == old(enabled) && active == old(active) && disabled == old(disabled)
      ensures pulsing == old(pulsing) && stored == old(stored) && requests == old(requests)
    {
      ShowErrorRestoring(statusText);
    }

    /** A status restore timeout fires. */
    method OnStatusRestore()
      requires restores != []
      modifies this
      ensures statusText == old(restores[0]) && statusOpacity == "" && statusColor == ""
      ensures restores == old(restores[1..])
      ensures enabled == old(enabled) && active == old(active) && disabled == old(disabled)
      ensures pulsing == old(pulsing) && errorBorder == old(errorBorder)
      ensures stored == old(stored) && requests == old(requests) && borderResets == old(borderResets)
    {
      statusText := restores[0];
      statusOpacity := "";
      statusColor := "";
      restores := restores[1..];
    }

    /** A border reset timeout fires. */
    method OnBorderReset()
      requires borderResets > 0
      modifies this
      ensures !errorBorder && borderResets == old(borderResets) - 1
      ensures enabled == old(enabled) && active == old(active) && disabled == old(disabled)
      ensures pulsing == old(pulsing) && statusText == old(statusText)
      ensures statusOpacity == old(statusOpacity) && statusColor == old(statusColor)
      ensures stored == old(stored) && requests == old(requests) && restores == old(restores)
    {
      errorBorder := false;
      borderResets := borderResets - 1;
    }

    /**
     * The part of `toggle` before the error display: disable the switch,
     * request the flipped state, and on an ok answer adopt, persist and
     * show it. `answer` is `response.ok`, or `None` when the request or its
     * JSON body threw.
     */
    method Attempt(answer: Option<bool>, writeFails: bool) returns (ok: bool)
      modifies this
      ensures ok <==> answer == Some(true)
      ensures requests == old(requests) + [StreamingRequest(!old(enabled))]
      ensures enabled == if ok then !old(enabled) else old(enabled)
      ensures stored == if ok && !writeFails then Some(enabled) else old(stored)
      ensures ok && hasToggle && hasStatus ==> statusText == StatusLabel(enabled) && active == enabled
      ensures !ok && hasStatus ==> statusText == "..."
      ensures !ok ==> active == old(active)
      ensures !hasStatus ==> statusText == old(statusText)
      ensures hasToggle ==> disabled && pulsing
      ensures errorBorder == old(errorBorder) && statusColor == old(statusColor)
      ensures restores == old(restores) && borderResets == old(borderResets)
    {
      var newState := !enabled;
      SetDisabled(true);
      requests := requests + [StreamingRequest(newState)];
      ok := answer == Some(true);
      if ok {
        enabled := newState;
        SaveState(writeFails);
        UpdateUI();
      }
    }

    /**
     * `toggle`: the state flips and is persisted exactly when the backend
     * answers ok; otherwise the error shows. The switch is re-enabled
     * either way. After a failure the status restore puts back the `...`
     * that disabling wrote, not the state's label.
     */
    method Toggle(answer: Option<bool>, writeFails: bool)
      modifies this
      ensures requests == old(requests) + [StreamingRequest(!old(enabled))]
      ensures enabled == if answer == Some(true) then !old(enabled) else old(enabled)
      ensures stored == if answer == Some(true) && !writeFails then Some(enabled) else old(stored)
      ensures answer == Some(true) && hasToggle && hasStatus ==> statusText == StatusLabel(enabled) && active == enabled
      ensures answer != Some(true) ==> active == old(active)
      ensures answer != Some(true) && hasStatus ==> statusText == "ERR" && restores == old(restores) + ["..."]
      ensures answer != Some(true) && hasToggle ==> errorBorder && borderResets == old(borderResets) + 1
      ensures answer == Some(true) ==> restores == old(restores) && borderResets == old(borderResets)
      ensures hasToggle ==> !disabled && !pulsing
    {
      var ok := Attempt(answer, writeFails);
      if !ok {
        ShowError();
      }
      SetDisabled(false);
    }

    /** `toggle` with the error display restoring the state's own label. */
    method ToggleRestoringLabel(answer: Option<bool>, writeFails: bool)
      modifies this
      ensures requests == old(requests) + [StreamingRequest(!old(enabled))]
      ensures enabled == if answer == Some(true) then !old(enabled) else old(enabled)
      ensures stored == if answer == Some(true) && !writeFails then Some(enabled) else old(stored)
      ensures answer == Some(true) && hasToggle && hasStatus ==> statusText == StatusLabel(enabled) && active == enabled
      ensures answer != Some(true) && hasStatus ==> statusText == "ERR"
                                                    && restores == old(restores) + [StatusLabel(enabled)]
      ensures answer == Some(true) ==> restores == old(restores)
      ensures hasToggle ==> !disabled && !pulsing
    {
      var ok := Attempt(answer, writeFails);
      if !ok {
        ShowErrorRestoring(StatusLabel(enabled));
      }
      SetDisabled(false);
    }
  }

  /**
   * A switch that starts off and whose request comes back not ok: once the
   * error display times out, the status reads `...`, though the state is
   * still off.
   */
  method FailedToggleShows() returns (shown: string, enabled: bool)
    ensures shown == "..." && !enabled
  {
    var t := new ScreenshotToggle(true, true, "OFF", None);
    t.Toggle(Some(false), false);
    t.OnStatusRestore();
    shown, enabled := t.statusText, t.enabled;
  }

  /** The same failure with the corrected display: the status reads the state's label again. */
  method FailedToggleRestoringLabelShows() returns (shown: string, enabled: bool)
    ensures shown == StatusLabel(enabled) && shown == "OFF"
  {
    var t := new ScreenshotToggle(true, true, "OFF", None);
    t.ToggleRestoringLabel(Some(false), false);
    t.OnStatusRestore();
    shown, enabled := t.statusText, t.enabled;
  }

  /** After any failed toggle and its restore, the corrected display agrees with the state. */
  method FailedToggleAgrees(t: ScreenshotToggle, answer: Option<bool>)
    requires t.hasStatus && answer != Some(true) && t.restores == []
    modifies t
    ensures t.statusText == StatusLabel(t.enabled) && t.enabled == old(t.enabled)
  {
    t.ToggleRestoringLabel(answer, false);
    t.OnStatusRestore();
  }
}
