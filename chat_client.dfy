// The chat screen of the Vite front end: the message list kept in step
// with the server by polling, the text input and its send button, the
// voice-mode switch and the voice button, and the decoding of the spoken
// reply into bytes. Requests, the microphone and audio playback are
// outcomes passed in; each asynchronous handler is split at its `await`
// into the method that runs before it and the one that runs after.
module ChatClient {
  import opened Common

  /** A stored chat message as the API returns it; ids are numbers. */
  datatype Message = Message(id: int, role: string, content: string, createdAt: string)

  function Ids(ms: seq<Message>): set<int>
  {
    set m | m in ms :: m.id
  }

  function IdList(ms: seq<Message>): (ids: seq<int>)
    ensures |ids| == |ms| && forall i :: 0 <= i < |ms| ==> ids[i] == ms[i].id
  {
    if ms == [] then [] else [ms[0].id] + IdList(ms[1..])
  }

  /**
   * The id polling starts after: the largest id loaded, or 0 when the
   * conversation is empty.
   */
  function InitialCursor(ms: seq<Message>): (c: int)
    ensures ms == [] ==> c == 0
    ensures ms != [] ==> c in Ids(ms) && forall m :: m in ms ==> m.id <= c
  {
    if ms == [] then 0
    else
      var ids := IdList(ms);
      var c := MaxOf(ids);
      assert forall m :: m in ms ==> m.id <= c by {
        forall m | m in ms ensures m.id <= c {
          var i :| 0 <= i < |ms| && ms[i] == m;
          assert ids[i] == m.id;
        }
      }
      var k :| 0 <= k < |ids| && ids[k] == c;
      assert ms[k] in ms;
      c
  }

  /** Whether an incoming message is not yet in the list. */
  predicate Unseen(prev: seq<Message>, m: Message)
  {
    m.id !in Ids(prev)
  }

  /**
   * The polling callback: the messages already shown, followed by the
   * incoming ones whose id is not among them, in arrival order.
   */
  function Merge(prev: seq<Message>, incoming: seq<Message>): (r: seq<Message>)
    ensures prev <= r
  {
    prev + Filter(incoming, m => Unseen(prev, m))
  }

  /** What the merge appends is exactly the incoming messages with a new id. */
  lemma MergeAppendsUnseen(prev: seq<Message>, incoming: seq<Message>, m: Message)
    ensures m in Merge(prev, incoming)[|prev|..] <==> m in incoming && m.id !in Ids(prev)
  {
    assert Merge(prev, incoming)[|prev|..] == Filter(incoming, m => Unseen(prev, m));
    FilterMembers(incoming, m => Unseen(prev, m), m);
  }

  /** A message already shown is never shown again, whatever arrives. */
  lemma MergeKeepsShownIds(prev: seq<Message>, incoming: seq<Message>)
    ensures Ids(Merge(prev, incoming)) == Ids(prev) + Ids(Filter(incoming, m => Unseen(prev, m)))
    ensures forall i :: |prev| <= i < |Merge(prev, incoming)| ==> Merge(prev, incoming)[i].id !in Ids(prev)
  {
    var added := Filter(incoming, m => Unseen(prev, m));
    forall i | |prev| <= i < |Merge(prev, incoming)|
      ensures Merge(prev, incoming)[i].id !in Ids(prev)
    {
      var m := Merge(prev, incoming)[i];
      assert m == added[i - |prev|];
      FilterMembers(incoming, m => Unseen(prev, m), m);
    }
  }

  /** Delivering the same batch twice adds nothing the second time. */
  lemma MergeIdempotent(prev: seq<Message>, incoming: seq<Message>)
    ensures Merge(Merge(prev, incoming), incoming) == Merge(prev, incoming)
  {
    var once := Merge(prev, incoming);
    forall i | 0 <= i < |incoming|
      ensures !Unseen(once, incoming[i])
    {
      var m := incoming[i];
      if m.id !in Ids(prev) {
        MergeAppendsUnseen(prev, incoming, m);
        assert m in once;
      } else {
        var p :| p in prev && p.id == m.id;
        assert p in once;
      }
    }
    FilterNone(incoming, m => Unseen(once, m));
  }

  /** Two copies of one new message in a single batch are both appended. */
  lemma MergeKeepsDuplicatesWithinBatch(m: Message)
    ensures Merge([], [m, m]) == [m, m]
  {
    var p := (x: Message) => Unseen([], x);
    assert p(m);
    assert [m, m][1..] == [m];
    assert Filter([m], p) == [m] by {
      assert [m][1..] == [];
    }
    assert Filter([m, m], p) == [m] + Filter([m], p);
  }

  /**
   * `Uint8Array(n)` filled by `audioArray[i] = audioBytes.charCodeAt(i)`:
   * each slot stores the character code modulo 256.
   */
  method DecodeAudio(audioBytes: string) returns (audioArray: array<int>)
    ensures audioArray.Length == |audioBytes|
    ensures forall i :: 0 <= i < |audioBytes| ==> audioArray[i] == (audioBytes[i] as int) % 256
  {
    audioArray := new int[|audioBytes|](_ => 0);
    var i := 0;
    while i < |audioBytes|
      invariant 0 <= i <= |audioBytes|
      invariant forall j :: 0 <= j < i ==> audioArray[j] == (audioBytes[j] as int) % 256
    {
      audioArray[i] := (audioBytes[i] as int) % 256;
      i := i + 1;
    }
  }

  /** A decoded base64 string has only codes below 256: then every byte is the character's code. */
  lemma DecodedBytesAreCharCodes(audioBytes: string, audioArray: seq<int>)
    requires forall i :: 0 <= i < |audioBytes| ==> audioBytes[i] as int < 256
    requires |audioArray| == |audioBytes|
    requires forall i :: 0 <= i < |audioBytes| ==> audioArray[i] == (audioBytes[i] as int) % 256
    ensures forall i :: 0 <= i < |audioBytes| ==> audioArray[i] == audioBytes[i] as int
  {
  }

  /** What the voice button does in each state of the voice hook. */
  datatype VoiceAction = StopAndSend | StopAudio | StartRecording

  /** Recording is stopped and sent, speech is interrupted, and otherwise recording starts. */
  function VoiceButtonAction(isRecording: bool, isSpeaking: bool): (a: VoiceAction)
    ensures a == StopAndSend <==> isRecording
    ensures a == StopAudio <==> !isRecording && isSpeaking
    ensures a == StartRecording <==> !isRecording && !isSpeaking
  {
    if isRecording then StopAndSend else if isSpeaking then StopAudio else StartRecording
  }

  const LoadFailedMessage := "Failed to load messages"
  const SendFailedMessage := "Failed to send message"
  const RecordFailedMessage := "Failed to record audio"
  const VoiceFailedMessage := "Failed to process voice message"

  /**
   * How `playAudio` settles: the audio played to its end, the audio
   * element reported an error, or `play()` rejected with its own error.
   */
  datatype Playback = Played | ElementError | PlayRejected(message: string)

  /** The error `playAudio` rejects with when the audio element fails. */
  const PlaybackErrorMessage := "Audio playback error"

  /**
   * The message the voice handler's `catch` reports for a playback outcome,
   * `err.message || 'Failed to process voice message'`; nothing when the
   * audio played.
   */
  function PlaybackFailure(p: Playback): (m: Option<string>)
    ensures m.None? <==> p == Played
    ensures p == ElementError ==> m == Some(PlaybackErrorMessage)
    ensures p.PlayRejected? ==> m == Some(if p.message != "" then p.message else VoiceFailedMessage)
    ensures m.Some? ==> m.value != ""
  {
    match p
    case Played => None
    case ElementError => Some(PlaybackErrorMessage)
    case PlayRejected(message) => Some(OrElse(Some(message), VoiceFailedMessage))
  }

  /** The component's state. */
  class ChatScreen {
    var messages: seq<Message>
    var inputValue: string
    var isLoading: bool
    var error: Option<string>
    var isInitialLoad: bool
    var isVoiceMode: bool

    constructor ()
      ensures messages == [] && inputValue == "" && !isLoading && error.None? && isInitialLoad && !isVoiceMode
    {
      messages := [];
      inputValue := "";
      isLoading := false;
      error := None;
      isInitialLoad := true;
      isVoiceMode := false;
    }

    /**
     * `loadMessages` once the history has arrived (or failed): the loaded
     * list replaces the shown one and polling starts after its largest id.
     */
    method LoadMessages(loaded: Option<seq<Message>>) returns (cursor: Option<int>)
      modifies this`messages, this`error, this`isInitialLoad
      ensures !isInitialLoad
      ensures loaded.Some? ==> messages == loaded.value && error.None? && cursor == Some(InitialCursor(loaded.value))
      ensures loaded.None? ==> messages == old(messages) && error == Some(LoadFailedMessage) && cursor.None?
    {
      if loaded.Some? {
        messages := loaded.value;
        error := None;
        cursor := Some(InitialCursor(loaded.value));
      } else {
        error := Some(LoadFailedMessage);
        cursor := None;
      }
      isInitialLoad := false;
    }

    /** A batch from the poller. */
    method ReceiveMessages(incoming: seq<Message>)
      modifies this`messages
      ensures messages == Merge(old(messages), incoming)
    {
      messages := Merge(messages, incoming);
    }

    /**
     * `handleSend` up to its request: blank input or a send in progress
     * does nothing; otherwise the trimmed text is the message to send, the
     * input is cleared and loading starts.
     */
    method BeginSend() returns (userMessage: Option<string>)
      modifies this`inputValue, this`isLoading, this`error
      ensures Trim(old(inputValue)) == "" || old(isLoading) ==>
                userMessage.None? && inputValue == old(inputValue) && isLoading == old(isLoading) && error == old(error)
      ensures Trim(old(inputValue)) != "" && !old(isLoading) ==>
                userMessage == Some(Trim(old(inputValue))) && inputValue == "" && isLoading && error.None?
    {
      if Trim(inputValue) == "" || isLoading {
        return None;
      }
      userMessage := Some(Trim(inputValue));
      inputValue := "";
      isLoading := true;
      error := None;
    }

    /** `handleSend` after its request: a failure restores the text and reports it; loading ends either way. */
    method FinishSend(userMessage: string, ok: bool)
      modifies this`inputValue, this`isLoading, this`error
      ensures !isLoading
      ensures ok ==> inputValue == old(inputValue) && error == old(error)
      ensures !ok ==> inputValue == userMessage && error == Some(SendFailedMessage)
    {
      if !ok {
        error := Some(SendFailedMessage);
        inputValue := userMessage;
      }
      isLoading := false;
    }

    /**
     * `handleVoiceToggle`: switching voice on without microphone permission
     * asks for it (`granted` is the answer); a refusal changes nothing.
     */
    method HandleVoiceToggle(enabled: bool, hasPermission: bool, granted: bool)
      modifies this`isVoiceMode, this`error
      ensures enabled && !hasPermission && !granted ==> isVoiceMode == old(isVoiceMode) && error == old(error)
      ensures !(enabled && !hasPermission && !granted) ==> isVoiceMode == enabled && error.None?
    {
      if enabled && !hasPermission && !granted {
        return;
      }
      isVoiceMode := enabled;
      error := None;
    }

    /**
     * The stop-and-send branch once recording has stopped: without audio
     * it reports the failure; with audio, loading starts and the recording
     * is sent.
     */
    method RecordingStopped(hasAudio: bool) returns (send: bool)
      modifies this`isLoading, this`error
      ensures send == hasAudio
      ensures !hasAudio ==> error == Some(RecordFailedMessage) && isLoading == old(isLoading)
      ensures hasAudio ==> error.None? && isLoading
    {
      if !hasAudio {
        error := Some(RecordFailedMessage);
        return false;
      }
      isLoading := true;
      error := None;
      send := true;
    }

    /**
     * The stop-and-send branch once the reply has come back: the decoded
     * reply audio becomes bytes handed to `playAudio`, and loading goes on
     * until playback settles; a failed reply reports its message (or a
     * default) and ends loading.
     */
    method VoiceReplyReceived(reply: Option<string>, failureMessage: Option<string>) returns (audio: Option<array<int>>)
      modifies this`isLoading, this`error
      ensures reply.Some? ==> audio.Some? && error == old(error) && isLoading == old(isLoading)
      ensures reply.Some? ==> audio.value.Length == |reply.value|
                              && forall i :: 0 <= i < |reply.value| ==> audio.value[i] == (reply.value[i] as int) % 256
      ensures reply.None? ==> audio.None? && !isLoading && error == Some(OrElse(failureMessage, VoiceFailedMessage))
    {
      if reply.Some? {
        var bytes := DecodeAudio(reply.value);
        audio := Some(bytes);
      } else {
        error := Some(OrElse(failureMessage, VoiceFailedMessage));
        audio := None;
        isLoading := false;
      }
    }

    /**
     * The stop-and-send branch once `playAudio` has settled: a failed
     * playback is reported as the error; loading ends either way.
     */
    method PlaybackSettled(p: Playback)
      modifies this`isLoading, this`error
      ensures !isLoading
      ensures p == Played ==> error == old(error)
      ensures p != Played ==> error == PlaybackFailure(p)
    {
      if p != Played {
        error := PlaybackFailure(p);
      }
      isLoading := false;
    }
  }
}
