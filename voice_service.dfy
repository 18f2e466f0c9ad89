// The local speech service: a flag saying whether the Python environment
// was found, the temporary directory the audio files pass through, and the
// protocol by which a Python script's exit status and standard output
// become a result. The process, the file system's answers, `Date.now()`
// and `JSON.parse` are parameters.
module VoiceService {
  import opened Common

  const HomebrewBin := "/opt/homebrew/bin"

  /** What `transcribeAudio` and `textToSpeech` throw when the service is unavailable. */
  const UnavailableMessage := "Speech service not available. Please run setup.sh in speech_service directory."
  /** What `getAvailableVoices` throws when the service is unavailable. */
  const VoicesUnavailableMessage := "Speech service not available."

  const DefaultMimeType := "audio/webm"
  const DefaultTtsRate := "150"
  const DefaultTtsVolume := "1.0"
  const DefaultTtsVoiceIndex := "0"

  /** The extensions the MIME type is searched for, in the order they are tried. */
  const KnownExtensions := ["webm", "ogg", "mp3", "wav", "mp4"]

  /** How a promise settles. */
  datatype Settled<T> = Resolved(value: T) | Rejected(message: string)

  /**
   * How the script process ends: it closes with an exit code (`None` when
   * a signal killed it) and the text of its two streams, or it cannot be
   * started at all.
   */
  datatype ProcessEnd = Closed(code: Option<int>, stdout: string, stderr: string) | SpawnFailed(error: string)

  /** The parsed JSON a speech script prints. */
  datatype Reply = Reply(success: JsValue, error: JsValue, text: JsValue)

  /**
   * `getExtensionFromMimeType`: the first known extension the MIME type
   * contains, trying them in order, and `webm` when it contains none.
   */
  function ExtensionFromMimeType(mimeType: string): (ext: string)
    ensures ext in KnownExtensions
    ensures (exists i :: 0 <= i < |KnownExtensions| && ext == KnownExtensions[i] && Contains(mimeType, KnownExtensions[i])
               && forall j :: 0 <= j < i ==> !Contains(mimeType, KnownExtensions[j]))
            || (ext == "webm" && forall j :: 0 <= j < |KnownExtensions| ==> !Contains(mimeType, KnownExtensions[j]))
  {
    if Contains(mimeType, "webm") then "webm"
    else if Contains(mimeType, "ogg") then "ogg"
    else if Contains(mimeType, "mp3") then "mp3"
    else if Contains(mimeType, "wav") then "wav"
    else if Contains(mimeType, "mp4") then "mp4"
    else "webm"
  }

  /** A string that lacks one of a pattern's characters does not contain the pattern. */
  lemma LacksCharNotContains(s: string, p: string, k: nat)
    requires k < |p| && Lacks(s, p[k])
    ensures !Contains(s, p)
  {
    var i := IndexOf(s, p);
    if i.Some? {
      assert false;
    }
  }

  /** A string that contains a pattern holds every two adjacent characters of it side by side. */
  lemma ContainsHasPair(s: string, p: string, k: nat)
    requires k + 1 < |p| && Contains(s, p)
    ensures exists i :: 0 <= i < |s| - 1 && s[i] == p[k] && s[i + 1] == p[k + 1]
  {
    var j := IndexOf(s, p).value;
    assert s[j..j + |p|][k] == s[j + k];
    assert s[j..j + |p|][k + 1] == s[j + k + 1];
  }

  /** A string in which two adjacent characters of a pattern never stand together does not contain it. */
  lemma LacksPairNotContains(s: string, p: string, k: nat)
    requires k + 1 < |p|
    requires forall i :: 0 <= i < |s| - 1 ==> !(s[i] == p[k] && s[i + 1] == p[k + 1])
    ensures !Contains(s, p)
  {
    if Contains(s, p) {
      ContainsHasPair(s, p, k);
    }
  }

  /** `audio/ogg` is recognised as `ogg`. */
  lemma OggExtension()
    ensures ExtensionFromMimeType("audio/ogg") == "ogg"
  {
    OggNamesOgg("audio/ogg");
  }

  /** `audio/ogg` lacks `webm` and contains `ogg`. */
  lemma OggNamesOgg(ogg: string)
    requires ogg == "audio/ogg"
    ensures !Contains(ogg, "webm") && Contains(ogg, "ogg")
  {
    assert ogg == ['a', 'u', 'd', 'i', 'o', '/', 'o', 'g', 'g'];
    assert Lacks(ogg, 'w');
    LacksCharNotContains(ogg, "webm", 0);
    var tail := ogg[6..];
    assert |tail| == 3 && tail[0] == 'o' && tail[1] == 'g' && tail[2] == 'g';
    assert tail == "ogg";
    assert ogg[6..6 + |"ogg"|] == tail;
    assert OccursAt(ogg, "ogg", 6);
  }

  /** `audio/mpeg` contains none of the known extensions. */
  lemma MpegNamesNoExtension(mpeg: string)
    requires mpeg == "audio/mpeg"
    ensures !Contains(mpeg, "webm") && !Contains(mpeg, "ogg") && !Contains(mpeg, "mp3")
    ensures !Contains(mpeg, "wav") && !Contains(mpeg, "mp4")
  {
    assert mpeg == ['a', 'u', 'd', 'i', 'o', '/', 'm', 'p', 'e', 'g'];
    assert Lacks(mpeg, 'w') && Lacks(mpeg, '3') && Lacks(mpeg, '4');
    LacksCharNotContains(mpeg, "webm", 0);
    LacksCharNotContains(mpeg, "mp3", 2);
    LacksCharNotContains(mpeg, "wav", 0);
    LacksCharNotContains(mpeg, "mp4", 2);
    assert forall i :: 0 <= i < |mpeg| - 1 ==> !(mpeg[i] == 'o' && mpeg[i + 1] == 'g');
    LacksPairNotContains(mpeg, "ogg", 0);
  }

  /** So `audio/mpeg` falls back to `webm`. */
  lemma MpegFallsBackToWebm()
    ensures ExtensionFromMimeType("audio/mpeg") == "webm"
  {
    MpegNamesNoExtension("audio/mpeg");
  }

  /**
   * The `PATH` the script runs with: the caller's `PATH` when it already
   * mentions the Homebrew directory, and otherwise that directory put in
   * front of it (an unset `PATH` counts as empty).
   */
  function PathWithHomebrew(path: Option<string>): (r: string)
    ensures Contains(r, HomebrewBin)
    ensures path.Some? && Contains(path.value, HomebrewBin) ==> r == path.value
    ensures !(path.Some? && Contains(path.value, HomebrewBin)) ==>
              StartsWith(r, HomebrewBin + ":") && r[|HomebrewBin| + 1..] == OrElse(path, "")
  {
    if path.Some? && Contains(path.value, HomebrewBin) then path.value
    else
      var r := HomebrewBin + ":" + OrElse(path, "");
      OccursAfter("", HomebrewBin, ":" + OrElse(path, ""));
      assert "" + HomebrewBin + (":" + OrElse(path, "")) == r;
      assert r[..|HomebrewBin| + 1] == HomebrewBin + ":";
      r
  }

  /** Adding the directory is done at most once: a second pass changes nothing. */
  lemma PathWithHomebrewIdempotent(path: Option<string>)
    ensures PathWithHomebrew(Some(PathWithHomebrew(path))) == PathWithHomebrew(path)
  {
  }

  /**
   * `executePythonScript`: a failed start or a non-zero (or missing) exit
   * code rejects with the stream text, output that is not JSON rejects,
   * and otherwise the promise resolves to the parsed output.
   */
  function ScriptResult<T>(end: ProcessEnd, parse: string -> Option<T>): (r: Settled<T>)
    ensures r.Resolved? <==> end.Closed? && end.code == Some(0) && parse(end.stdout).Some?
    ensures r.Resolved? ==> r.value == parse(end.stdout).value
    ensures end.SpawnFailed? ==> r == Rejected("Failed to start Python process: " + end.error)
    ensures end.Closed? && end.code != Some(0) ==> StartsWith(r.message, "Python script failed with code ")
    ensures end.Closed? && end.code == Some(0) && r.Rejected? ==>
              r.message == "Failed to parse Python output: " + end.stdout
  {
    match end
    case SpawnFailed(e) => Rejected("Failed to start Python process: " + e)
    case Closed(code, stdout, stderr) =>
      if code != Some(0) then
        var shown := if code.Some? then IntToString(code.value) else "null";
        Rejected("Python script failed with code " + shown + ": " + stderr)
      else
        match parse(stdout)
        case None => Rejected("Failed to parse Python output: " + stdout)
        case Some(v) => Resolved(v)
  }

  /** The failure message of a reply whose `success` is falsy: its `error`, or the fallback. */
  function ReplyError(reply: Reply, fallback: string): (m: string)
    ensures !Truthy(reply.error) ==> m == fallback
    ensures reply.error.JStr? && reply.error.s != "" ==> m == reply.error.s
  {
    if Truthy(reply.error) then JsString(reply.error) else fallback
  }

  /** The TTS settings read from the environment, `None` when unset. */
  datatype TtsEnvironment = TtsEnvironment(rate: Option<string>, volume: Option<string>, voiceIndex: Option<string>)

  /** The arguments `tts.py` gets: text, output path, rate, volume and voice, with `||` defaults. */
  function TtsArguments(text: string, outputPath: string, env: TtsEnvironment): (args: seq<string>)
    ensures |args| == 5 && args[0] == text && args[1] == outputPath
    ensures !Present(env.rate) ==> args[2] == DefaultTtsRate
    ensures !Present(env.volume) ==> args[3] == DefaultTtsVolume
    ensures !Present(env.voiceIndex) ==> args[4] == DefaultTtsVoiceIndex
    ensures Present(env.rate) ==> args[2] == env.rate.value
    ensures Present(env.volume) ==> args[3] == env.volume.value
    ensures Present(env.voiceIndex) ==> args[4] == env.voiceIndex.value
  {
    [text, outputPath, OrElse(env.rate, DefaultTtsRate), OrElse(env.volume, DefaultTtsVolume),
     OrElse(env.voiceIndex, DefaultTtsVoiceIndex)]
  }

  /** The temporary file a recording is written to. */
  function AudioFileName(now: int, mimeType: Option<string>): (name: string)
    ensures StartsWith(name, "audio_")
  {
    var ext := ExtensionFromMimeType(if mimeType.Some? then mimeType.value else DefaultMimeType);
    assert ("audio_" + IntToString(now) + "." + ext)[..6] == "audio_";
    "audio_" + IntToString(now) + "." + ext
  }

  /** The temporary file speech is synthesised into. */
  function SpeechFileName(now: int): (name: string)
    ensures StartsWith(name, "tts_")
  {
    assert ("tts_" + IntToString(now) + ".wav")[..4] == "tts_";
    "tts_" + IntToString(now) + ".wav"
  }

  class SpeechService {
    /** `serviceAvailable`. */
    var available: bool
    /** The names of the files in the temporary directory. */
    var tempFiles: set<string>

    constructor (files: set<string>)
      ensures !available && tempFiles == files
    {
      available := false;
      tempFiles := files;
    }

    /**
     * `checkServiceAvailability`: available when the virtual environment
     * exists and the temporary directory exists or can be made. A missing
     * environment returns without touching the flag; a failed `mkdir`
     * clears it.
     */
    method CheckServiceAvailability(venvExists: bool, tempDirExists: bool, mkdirOk: bool) returns (ok: bool)
      modifies this`available
      ensures ok == (venvExists && (tempDirExists || mkdirOk))
      ensures venvExists ==> available == ok
      ensures !venvExists ==> available == old(available)
    {
      if !venvExists {
        return false;
      }
      if !tempDirExists && !mkdirOk {
        available := false;
        return false;
      }
      available := true;
      ok := true;
    }

    /** `isVoiceServiceAvailable`. */
    method IsVoiceServiceAvailable() returns (b: bool)
      ensures b == available
    {
      b := available;
    }

    /**
     * `transcribeAudio`: throws before touching any file when the service
     * is unavailable. Otherwise the recording is written to a temporary
     * file, `stt.py` transcribes it, and the file is unlinked whatever the
     * script's outcome; a failed unlink is only logged and leaves the
     * file behind. Every other failure is rethrown with the prefix
     * `Failed to transcribe audio: `.
     */
    method TranscribeAudio(mimeType: Option<string>, now: int, writeOk: bool, end: ProcessEnd,
                           parse: string -> Option<Reply>, unlinkOk: bool)
        returns (r: Settled<JsValue>)
      modifies this`tempFiles
      ensures !available ==> r == Rejected(UnavailableMessage) && tempFiles == old(tempFiles)
      ensures available && r.Rejected? ==> StartsWith(r.message, "Failed to transcribe audio: ")
      ensures available ==>
                (r.Resolved? <==> writeOk && ScriptResult(end, parse).Resolved? && Truthy(ScriptResult(end, parse).value.success))
      ensures r.Resolved? ==> r.value == ScriptResult(end, parse).value.text
      ensures var name := AudioFileName(now, mimeType);
              tempFiles == if !available || !writeOk then old(tempFiles)
                           else if unlinkOk then old(tempFiles) - {name}
                           else old(tempFiles) + {name}
    {
      if !available {
        return Rejected(UnavailableMessage);
      }
      var name := AudioFileName(now, mimeType);
      var failure := "could not write " + name;
      if writeOk {
        tempFiles := tempFiles + {name};
        var result := ScriptResult(end, parse);
        if result.Rejected? {
          failure := result.message;
        } else if !Truthy(result.value.success) {
          failure := ReplyError(result.value, "STT failed");
        } else {
          r := Resolved(result.value.text);
        }
        // finally: unlink the recording
        if unlinkOk {
          tempFiles := tempFiles - {name};
        }
        if result.Resolved? && Truthy(result.value.success) {
          return;
        }
      }
      var message := "Failed to transcribe audio: " + failure;
      assert message[..|"Failed to transcribe audio: "|] == "Failed to transcribe audio: ";
      r := Rejected(message);
    }

    /**
     * `textToSpeech`: throws before running anything when the service is
     * unavailable. Otherwise `tts.py` writes the speech to a temporary
     * file; on a successful reply the file is read and then unlinked. The
     * unlink sits inside the success path, so a file the script leaves
     * behind on a failed reply stays. `audio` is the file's content when
     * it exists after the script. Failures are rethrown with the prefix
     * `Failed to generate speech: `.
     */
    method TextToSpeech(text: string, now: int, env: TtsEnvironment, end: ProcessEnd,
                        parse: string -> Option<Reply>, audio: Option<seq<int>>, unlinkOk: bool)
        returns (r: Settled<seq<int>>, args: Option<seq<string>>)
      modifies this`tempFiles
      ensures !available ==> r == Rejected(UnavailableMessage) && args.None? && tempFiles == old(tempFiles)
      ensures available ==> args == Some(TtsArguments(text, SpeechFileName(now), env))
      ensures available && r.Rejected? ==> StartsWith(r.message, "Failed to generate speech: ")
      ensures var ok := ScriptResult(end, parse).Resolved? && Truthy(ScriptResult(end, parse).value.success);
              && (available ==> (r.Resolved? <==> ok && audio.Some?))
              && (r.Resolved? ==> r.value == audio.value)
              && tempFiles == if !available then old(tempFiles)
                              else (old(tempFiles) - {SpeechFileName(now)})
                                   + (if audio.Some? && !(ok && unlinkOk) then {SpeechFileName(now)} else {})
    {
      if !available {
        return Rejected(UnavailableMessage), None;
      }
      var name := SpeechFileName(now);
      args := Some(TtsArguments(text, name, env));
      // The directory as the script leaves it.
      tempFiles := (tempFiles - {name}) + (if audio.Some? then {name} else {});
      var result := ScriptResult(end, parse);
      var failure := "ENOENT: no such file or directory, open '" + name + "'";
      if result.Rejected? {
        failure := result.message;
      } else if !Truthy(result.value.success) {
        failure := ReplyError(result.value, "TTS failed");
      } else {
        if audio.Some? {
          r := Resolved(audio.value);
        }
        // finally: unlink the speech file
        if unlinkOk {
          tempFiles := tempFiles - {name};
        }
        if audio.Some? {
          return;
        }
      }
      var message := "Failed to generate speech: " + failure;
      assert message[..|"Failed to generate speech: "|] == "Failed to generate speech: ";
      r := Rejected(message);
    }

    /**
     * `getAvailableVoices`: the parsed output of `list_voices.py`, with no
     * `success` check; a rejected script is rethrown with the prefix
     * `Failed to list voices: `.
     */
    method GetAvailableVoices<T>(end: ProcessEnd, parse: string -> Option<T>) returns (r: Settled<T>)
      ensures !available ==> r == Rejected(VoicesUnavailableMessage)
      ensures available ==> (r.Resolved? <==> ScriptResult(end, parse).Resolved?)
      ensures available && r.Resolved? ==> r.value == ScriptResult(end, parse).value
      ensures available && r.Rejected? ==>
                r.message == "Failed to list voices: " + ScriptResult(end, parse).message
    {
      if !available {
        return Rejected(VoicesUnavailableMessage);
      }
      var result := ScriptResult(end, parse);
      if result.Rejected? {
        r := Rejected("Failed to list voices: " + result.message);
      } else {
        r := result;
      }
    }
  }
}
