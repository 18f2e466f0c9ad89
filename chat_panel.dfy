// The chat screen of the Next.js front end. It differs from the Vite
// screen in three ways that matter: message ids are kept as strings (the
// number's decimal form), nothing is sent or recorded without a session,
// and failures are shown as toasts instead of an error line.
module ChatPanel {
  import opened Common
  import ChatClient

  /** A shown message: the stored message with its id as a string. */
  datatype ChatMessage = ChatMessage(id: string, role: string, content: string, createdAt: string)

  /** `{ ...m, id: m.id.toString() }`. */
  function Normalize(m: ChatClient.Message): (c: ChatMessage)
    ensures c.id == IntToString(m.id) && c.role == m.role && c.content == m.content && c.createdAt == m.createdAt
  {
    ChatMessage(IntToString(m.id), m.role, m.content, m.createdAt)
  }

  function NormalizeAll(ms: seq<ChatClient.Message>): (cs: seq<ChatMessage>)
    ensures |cs| == |ms| && forall i :: 0 <= i < |ms| ==> cs[i] == Normalize(ms[i])
  {
    seq(|ms|, i requires 0 <= i < |ms| => Normalize(ms[i]))
  }

  function ShownIds(prev: seq<ChatMessage>): set<string>
  {
    set m | m in prev :: m.id
  }

  /** `!existingIds.has(String(m.id))`. */
  predicate UnseenByString(prev: seq<ChatMessage>, m: ChatClient.Message)
  {
    IntToString(m.id) !in ShownIds(prev)
  }

  /**
   * The polling callback: the shown messages, followed by the incoming
   * ones whose id, as a string, is not among the shown ids, each with its
   * id turned into a string.
   */
  function Merge(prev: seq<ChatMessage>, incoming: seq<ChatClient.Message>): (r: seq<ChatMessage>)
    ensures prev <= r
  {
    prev + NormalizeAll(Filter(incoming, m => UnseenByString(prev, m)))
  }

  /** Every shown id is the decimal form of a number: loading and merging both normalise. */
  ghost predicate Normalised(shown: seq<ChatMessage>)
  {
    forall i :: 0 <= i < |shown| ==> exists n: int :: shown[i].id == IntToString(n)
  }

  /** Merging normalised messages yields normalised messages. */
  lemma MergeKeepsNormalised(prev: seq<ChatMessage>, incoming: seq<ChatClient.Message>)
    ensures Normalised(prev) ==> Normalised(Merge(prev, incoming))
  {
    var r := Merge(prev, incoming);
    var added := Filter(incoming, m => UnseenByString(prev, m));
    if Normalised(prev) {
      forall i | 0 <= i < |r|
        ensures exists n: int :: r[i].id == IntToString(n)
      {
        if i >= |prev| {
          var m := added[i - |prev|];
          assert r[i] == Normalize(m);
          assert r[i].id == IntToString(m.id);
        } else {
          assert r[i] == prev[i];
        }
      }
    }
  }

  /** Comparing decimal strings decides the same as comparing the numbers. */
  lemma SeenByStringIffSeenById(prev: seq<ChatClient.Message>, m: ChatClient.Message)
    ensures UnseenByString(NormalizeAll(prev), m) <==> ChatClient.Unseen(prev, m)
  {
    var shown := NormalizeAll(prev);
    if IntToString(m.id) in ShownIds(shown) {
      var c :| c in shown && c.id == IntToString(m.id);
      var i :| 0 <= i < |shown| && shown[i] == c;
      IntToStringInjective(prev[i].id, m.id);
      assert prev[i] in prev;
    }
    if m.id in ChatClient.Ids(prev) {
      var p :| p in prev && p.id == m.id;
      var i :| 0 <= i < |prev| && prev[i] == p;
      assert shown[i] in shown;
    }
  }

  /**
   * The string-keyed merge over normalised messages is the numeric merge
   * of the Vite screen, normalised: both screens show the same messages.
   */
  lemma MergeMatchesNumericMerge(prev: seq<ChatClient.Message>, incoming: seq<ChatClient.Message>)
    ensures Merge(NormalizeAll(prev), incoming) == NormalizeAll(ChatClient.Merge(prev, incoming))
  {
    var shown := NormalizeAll(prev);
    var p := m => UnseenByString(shown, m);
    var q := m => ChatClient.Unseen(prev, m);
    forall i | 0 <= i < |incoming|
      ensures p(incoming[i]) == q(incoming[i])
    {
      SeenByStringIffSeenById(prev, incoming[i]);
    }
    FilterAgrees(incoming, p, q);
    NormalizeAllConcat(prev, Filter(incoming, q));
  }

  lemma NormalizeAllConcat(a: seq<ChatClient.Message>, b: seq<ChatClient.Message>)
    ensures NormalizeAll(a + b) == NormalizeAll(a) + NormalizeAll(b)
  {
    var l, r := NormalizeAll(a + b), NormalizeAll(a) + NormalizeAll(b);
    assert |l| == |r|;
    forall i | 0 <= i < |l| ensures l[i] == r[i] {
      if i < |a| {
        assert (a + b)[i] == a[i];
      } else {
        assert (a + b)[i] == b[i - |a|];
      }
    }
  }

  /** What the voice button does: nothing without a session, otherwise as on the Vite screen. */
  function VoiceButtonAction(sessionId: Option<string>, isRecording: bool, isSpeaking: bool): (a: Option<ChatClient.VoiceAction>)
    ensures !Present(sessionId) <==> a.None?
    ensures a.Some? ==> a.value == ChatClient.VoiceButtonAction(isRecording, isSpeaking)
  {
    if !Present(sessionId) then None else Some(ChatClient.VoiceButtonAction(isRecording, isSpeaking))
  }

  /** A destructive toast. */
  datatype Toast = Toast(title: string, description: string)

  const LoadFailedToast := Toast("Error", "Failed to load messages")
  const SendFailedToast := Toast("Error", "Failed to send message")
  const RecordFailedToast := Toast("Error", "Failed to record audio")

  class ChatPanelScreen {
    /** The session from the session context: its id (if any) and whether it is still being created. */
    const sessionId: Option<string>
    const sessionLoading: bool
    var messages: seq<ChatMessage>
    var input: string
    var isLoading: bool
    var isVoiceMode: bool
    var isInitialLoad: bool
    /** Every toast shown so far, oldest first. */
    var toasts: seq<Toast>

    constructor (sessionId: Option<string>, sessionLoading: bool)
      ensures this.sessionId == sessionId && this.sessionLoading == sessionLoading
      ensures messages == [] && input == "" && !isLoading && !isVoiceMode && isInitialLoad && toasts == []
    {
      this.sessionId := sessionId;
      this.sessionLoading := sessionLoading;
      messages := [];
      input := "";
      isLoading := false;
      isVoiceMode := false;
      isInitialLoad := true;
      toasts := [];
    }

    /**
     * The loading effect: it does not run without a ready session; once it
     * has the history, the normalised list replaces the shown one and
     * polling starts after the largest id.
     */
    method LoadMessages(loaded: Option<seq<ChatClient.Message>>) returns (cursor: Option<int>)
      modifies this`messages, this`toasts, this`isInitialLoad
      ensures !Present(sessionId) || sessionLoading ==>
                cursor.None? && messages == old(messages) && toasts == old(toasts) && isInitialLoad == old(isInitialLoad)
      ensures Present(sessionId) && !sessionLoading ==> !isInitialLoad
      ensures Present(sessionId) && !sessionLoading && loaded.Some? ==>
                messages == NormalizeAll(loaded.value) && Normalised(messages)
                && cursor == Some(ChatClient.InitialCursor(loaded.value)) && toasts == old(toasts)
      ensures Present(sessionId) && !sessionLoading && loaded.None? ==>
                messages == old(messages) && cursor.None? && toasts == old(toasts) + [LoadFailedToast]
    {
      if !Present(sessionId) || sessionLoading {
        return None;
      }
      if loaded.Some? {
        messages := NormalizeAll(loaded.value);
        cursor := Some(ChatClient.InitialCursor(loaded.value));
      } else {
        toasts := toasts + [LoadFailedToast];
        cursor := None;
      }
      isInitialLoad := false;
    }

    /** A batch from the poller. */
    method ReceiveMessages(incoming: seq<ChatClient.Message>)
      modifies this`messages
      ensures messages == Merge(old(messages), incoming)
      ensures old(Normalised(messages)) ==> Normalised(messages)
    {
      MergeKeepsNormalised(messages, incoming);
      messages := Merge(messages, incoming);
    }

    /**
     * `handleSend` up to its request: blank input, a send in progress or a
     * missing session does nothing; otherwise the trimmed text is sent,
     * the input is cleared and loading starts.
     */
    method BeginSend() returns (userMessage: Option<string>)
      modifies this`input, this`isLoading
      ensures Trim(old(input)) == "" || old(isLoading) || !Present(sessionId) ==>
                userMessage.None? && input == old(input) && isLoading == old(isLoading)
      ensures Trim(old(input)) != "" && !old(isLoading) && Present(sessionId) ==>
                userMessage == Some(Trim(old(input))) && input == "" && isLoading
    {
      if Trim(input) == "" || isLoading || !Present(sessionId) {
        return None;
      }
      userMessage := Some(Trim(input));
      input := "";
      isLoading := true;
    }

    /** `handleSend` after its request: a failure restores the text and shows a toast; loading ends. */
    method FinishSend(userMessage: string, ok: bool)
      modifies this`input, this`isLoading, this`toasts
      ensures !isLoading
      ensures ok ==> input == old(input) && toasts == old(toasts)
      ensures !ok ==> input == userMessage && toasts == old(toasts) + [SendFailedToast]
    {
      if !ok {
        input := userMessage;
        toasts := toasts + [SendFailedToast];
      }
      isLoading := false;
    }

    /** `handleVoiceToggle`: a refused microphone permission leaves the mode as it was. */
    method HandleVoiceToggle(enabled: bool, hasPermission: bool, granted: bool)
      modifies this`isVoiceMode
      ensures enabled && !hasPermission && !granted ==> isVoiceMode == old(isVoiceMode)
      ensures !(enabled && !hasPermission && !granted) ==> isVoiceMode == enabled
    {
      if enabled && !hasPermission && !granted {
        return;
      }
      isVoiceMode := enabled;
    }

    /** The stop-and-send branch once recording has stopped. */
    method RecordingStopped(hasAudio: bool) returns (send: bool)
      modifies this`isLoading, this`toasts
      ensures send == hasAudio
      ensures !hasAudio ==> toasts == old(toasts) + [RecordFailedToast] && isLoading == old(isLoading)
      ensures hasAudio ==> toasts == old(toasts) && isLoading
    {
      if !hasAudio {
        toasts := toasts + [RecordFailedToast];
        return false;
      }
      isLoading := true;
      send := true;
    }

    /**
     * The stop-and-send branch once the reply has come back: the decoded
     * audio is handed to `playAudio` and loading goes on until playback
     * settles; a failed reply shows a toast and ends loading.
     */
    method VoiceReplyReceived(reply: Option<string>, failureMessage: Option<string>) returns (audio: Option<array<int>>)
      modifies this`isLoading, this`toasts
      ensures reply.Some? ==> audio.Some? && toasts == old(toasts) && isLoading == old(isLoading)
      ensures reply.Some? ==> audio.value.Length == |reply.value|
                              && forall i :: 0 <= i < |reply.value| ==> audio.value[i] == (reply.value[i] as int) % 256
      ensures reply.None? ==> audio.None? && !isLoading
      ensures reply.None? ==> toasts == old(toasts) + [Toast("Error", OrElse(failureMessage, ChatClient.VoiceFailedMessage))]
    {
      if reply.Some? {
        var bytes := ChatClient.DecodeAudio(reply.value);
        audio := Some(bytes);
      } else {
        toasts := toasts + [Toast("Error", OrElse(failureMessage, ChatClient.VoiceFailedMessage))];
        audio := None;
        isLoading := false;
      }
    }

    /**
     * The stop-and-send branch once `playAudio` has settled: a failed
     * playback shows an error toast with the failure's message; loading
     * ends either way.
     */
    method PlaybackSettled(p: ChatClient.Playback)
      modifies this`isLoading, this`toasts
      ensures !isLoading
      ensures p == ChatClient.Played ==> toasts == old(toasts)
      ensures p != ChatClient.Played ==> toasts == old(toasts) + [Toast("Error", ChatClient.PlaybackFailure(p).value)]
    {
      if p != ChatClient.Played {
        toasts := toasts + [Toast("Error", ChatClient.PlaybackFailure(p).value)];
      }
      isLoading := false;
    }
  }
}
