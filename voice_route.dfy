// The voice routes: the audio upload filter and size limit, the guard
// chains of the status, voices, transcribe, speak and session-message
// handlers, and the way the session handler extends the conversation and
// saves the exchange. Speech services, the assistant and the session store
// are parameters.
module VoiceRoute {
  import opened Common

  /** The upload size limit: 10 MiB. */
  const MaxUploadBytes := 10 * 1024 * 1024

  const Unavailable := "Voice services not available."
  const NoAudio := "No audio file provided"
  const TextRequired := "Text is required"
  const TextEmpty := "Text cannot be empty"
  const SessionNotFound := "Session not found"
  /** The user text saved when transcription fails. */
  const AudioPlaceholder := "[Audio message]"

  datatype AudioFile = AudioFile(mimetype: string, size: nat)

  /** The upload filter: audio types only. */
  predicate AcceptsType(mimetype: string)
  {
    StartsWith(mimetype, "audio/")
  }

  /** Whether an upload reaches the handler: an audio type within the size limit. */
  function Upload(file: AudioFile): (r: Option<AudioFile>)
    ensures r.Some? <==> AcceptsType(file.mimetype) && file.size <= MaxUploadBytes
    ensures r.Some? ==> r.value == file
  {
    if AcceptsType(file.mimetype) && file.size <= MaxUploadBytes then Some(file) else None
  }

  const AvailableStatus := "Voice services are available (Google Cloud TTS)"
  const UnconfiguredStatus := "Voice services not configured. Set GOOGLE_APPLICATION_CREDENTIALS environment variable."

  /** The status route's message: the two messages are told apart by availability alone. */
  function StatusMessage(available: bool): (s: string)
    ensures available <==> s == AvailableStatus
    ensures !available <==> s == UnconfiguredStatus
  {
    assert |AvailableStatus| < |UnconfiguredStatus|;
    if available then AvailableStatus else UnconfiguredStatus
  }

  /** `error.message || fallback`. */
  function ErrorText(message: string, fallback: string): (s: string)
    ensures message != "" ==> s == message
    ensures message == "" ==> s == fallback
  {
    if message != "" then message else fallback
  }

  /** `GET /voices`: refused while the service is unavailable. */
  function VoicesCheck(available: bool): (r: HttpResult<()>)
    ensures r.Ok? <==> available
    ensures !available ==> r == Fail(503, Unavailable)
  {
    if !available then Fail(503, Unavailable) else Ok(())
  }

  /** `POST /transcribe`: only the presence of the file is checked. */
  function TranscribeCheck(file: Option<AudioFile>): (r: HttpResult<AudioFile>)
    ensures file.None? <==> r == Fail(400, NoAudio)
    ensures file.Some? ==> r == Ok(file.value)
  {
    if file.None? then Fail(400, NoAudio) else Ok(file.value)
  }

  /**
   * `POST /speak`: availability, then a non-empty string, then a text that
   * is not only whitespace; the text goes to speech untrimmed.
   */
  function SpeakCheck(available: bool, text: JsValue): (r: HttpResult<string>)
    ensures !available ==> r == Fail(503, Unavailable)
    ensures available && !(text.JStr? && text.s != "") ==> r == Fail(400, TextRequired)
    ensures available && text.JStr? && text.s != "" && AllWhitespace(text.s) ==> r == Fail(400, TextEmpty)
    ensures r.Ok? <==> available && text.JStr? && !AllWhitespace(text.s)
    ensures r.Ok? ==> r.value == text.s
  {
    if !available then Fail(503, Unavailable)
    else if !Truthy(text) || !text.JStr? then Fail(400, TextRequired)
    else if |Trim(text.s)| == 0 then (TrimEmptyIffBlank(text.s); Fail(400, TextEmpty))
    else (TrimEmptyIffBlank(text.s); Ok(text.s))
  }

  /** `POST /session/:sessionId/message`: availability, then the file, then the session. */
  function SessionMessageCheck(available: bool, file: Option<AudioFile>, sessionExists: bool): (r: HttpResult<AudioFile>)
    ensures !available ==> r == Fail(503, Unavailable)
    ensures available && file.None? ==> r == Fail(400, NoAudio)
    ensures available && file.Some? && !sessionExists ==> r == Fail(404, SessionNotFound)
    ensures r.Ok? <==> available && file.Some? && sessionExists
    ensures r.Ok? ==> r.value == file.value
  {
    if !available then Fail(503, Unavailable)
    else if file.None? then Fail(400, NoAudio)
    else if !sessionExists then Fail(404, SessionNotFound)
    else Ok(file.value)
  }

  /** What the assistant is given: earlier turns as text, the new one as audio. */
  datatype VoiceTurn = TextTurn(role: string, content: string) | AudioTurn(mimetype: string)

  datatype SessionMessage = SessionMessage(role: string, content: string)

  /**
   * The assistant's input: the session history as text turns, then the
   * audio message pushed after it.
   */
  method ConversationFor(history: seq<SessionMessage>, file: AudioFile) returns (turns: seq<VoiceTurn>)
    ensures |turns| == |history| + 1
    ensures forall i :: 0 <= i < |history| ==> turns[i] == TextTurn(history[i].role, history[i].content)
    ensures turns[|history|] == AudioTurn(file.mimetype)
  {
    turns := seq(|history|, i requires 0 <= i < |history| => TextTurn(history[i].role, history[i].content));
    turns := turns + [AudioTurn(file.mimetype)];
  }

  /** The user text saved for the exchange: the transcription, or the placeholder when it failed. */
  function UserText(transcription: Option<string>): (s: string)
    ensures transcription.Some? ==> s == transcription.value
    ensures transcription.None? ==> s == AudioPlaceholder
  {
    if transcription.Some? then transcription.value else AudioPlaceholder
  }

  /** The messages of one session as the store keeps them. */
  class SessionLog {
    var messages: seq<SessionMessage>

    constructor (initial: seq<SessionMessage>)
      ensures messages == initial
    {
      messages := initial;
    }

    method Save(role: string, content: string)
      modifies this
      ensures messages == old(messages) + [SessionMessage(role, content)]
    {
      messages := messages + [SessionMessage(role, content)];
    }

    /**
     * Steps 5 and 6 of the session handler: the user message, with the
     * transcription or its fallback, is saved before the assistant's.
     */
    method SaveExchange(transcription: Option<string>, aiResponse: string)
      modifies this
      ensures messages == old(messages) + [SessionMessage("user", UserText(transcription)),
                                           SessionMessage("assistant", aiResponse)]
    {
      Save("user", UserText(transcription));
      Save("assistant", aiResponse);
    }
  }

  /** A type the prefix test refuses although it is audio by name: the filter is case-sensitive. */
  lemma FilterIsCaseSensitive()
    ensures AcceptsType("audio/webm")
    ensures !AcceptsType("Audio/webm")
    ensures !AcceptsType("video/webm")
  {
    assert "audio/webm"[..6] == "audio/";
    assert "Audio/webm"[..6][0] != "audio/"[0];
    assert "video/webm"[..6][0] != "audio/"[0];
  }

  /** The limit admits exactly 10 485 760 bytes; one more is refused. */
  lemma UploadLimitExact(mimetype: string)
    requires AcceptsType(mimetype)
    ensures Upload(AudioFile(mimetype, 10485760)).Some?
    ensures Upload(AudioFile(mimetype, 10485761)).None?
  {
  }
}
