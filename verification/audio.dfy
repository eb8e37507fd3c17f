/** The audio wrapper: picks a voice and reads the synthesized audio out of whatever shape of
    response the speech SDK returns, and opens live-transcription connections. */
module Audio {
  import opened Outcomes
  import opened Voices
  import opened Deepgram

  /** The speech request for `text` in `targetLang`: the table's voice and MP3 encoding. */
  function SpeakRequestFor(text: string, targetLang: string): (req: SpeakRequest)
    ensures req.text == text && req.encoding == "mp3"
    ensures req.model == VoiceFor(targetLang)
  {
    SpeakRequest(text, VoiceFor(targetLang), "mp3")
  }

  /** What a call to a `read` attribute gives: its bytes, or nothing when it raised. */
  function ReadResult(call: Outcome<Bytes>): Option<Bytes>
  {
    if call.Ok? then Some(call.value) else None
  }

  /** Whether the response has a `stream` attribute which itself has `read`. */
  predicate HasReadableStream(resp: SpeakResponse)
  {
    resp.stream.Some? && resp.stream.value.read.Some?
  }

  /** The audio in a response: `read()` if it has one, else `stream.read()` if that exists,
      else `content` if present, else none. */
  function ReadAudio(resp: SpeakResponse): (r: Option<Bytes>)
    ensures resp.read.Some? ==> r == ReadResult(resp.read.value)
    ensures resp.read.None? && HasReadableStream(resp) ==> r == ReadResult(resp.stream.value.read.value)
    ensures resp.read.None? && !HasReadableStream(resp) ==> r == resp.content
    ensures r.Some? ==> resp.read == Some(Ok(r.value))
                        || (HasReadableStream(resp) && resp.stream.value.read.value == Ok(r.value))
                        || resp.content == Some(r.value)
  {
    if resp.read.Some? then ReadResult(resp.read.value)
    else if HasReadableStream(resp) then ReadResult(resp.stream.value.read.value)
    else if resp.content.Some? then Some(resp.content.value)
    else None
  }

  /** A response without any of the three attributes yields no audio. */
  lemma UnknownShapeHasNoAudio(resp: SpeakResponse)
    requires resp.read.None? && !HasReadableStream(resp) && resp.content.None?
    ensures ReadAudio(resp) == None
  {
  }

  /** `synthesize_speech(text, target_lang)`: `engine` is the SDK's `speak.v("1").stream`
      call. Raising, in the call or in reading its response, and an unknown response shape
      all give `None`; nothing raises out of it. */
  function SynthesizeSpeech(engine: SpeakRequest -> Outcome<SpeakResponse>, text: string, targetLang: string): (r: Option<Bytes>)
    ensures engine(SpeakRequestFor(text, targetLang)).Fail? ==> r == None
    ensures engine(SpeakRequestFor(text, targetLang)).Ok? ==> r == ReadAudio(engine(SpeakRequestFor(text, targetLang)).value)
  {
    match engine(SpeakRequestFor(text, targetLang))
    case Fail => None
    case Ok(resp) => ReadAudio(resp)
  }

  /** Every target code outside the voice table is spoken with the default voice, and
      Portuguese shares the English voice. */
  lemma SynthesisVoiceFallback(text: string, targetLang: string)
    ensures targetLang !in {"es", "fr", "de"} ==> SpeakRequestFor(text, targetLang).model == DefaultVoice
    ensures SpeakRequestFor(text, "pt") == SpeakRequestFor(text, "en")
  {
  }

  /** The connection `listen` handed out, if any: what opening one may change. */
  function Handed(listen: Outcome<LiveConnection>): set<LiveConnection>
  {
    if listen.Ok? then {listen.value} else {}
  }

  /** `create_live_transcription_connection(source_lang, on_message, on_error)`. `listen` is
      what `listen.live.v("1")` did (a connection, or a raise) and `started` what `start`
      did. The transcript handler is always registered, the error handler only when one is
      given; a `start` answering False gives `None`; anything raised is raised again
      (`Fail`). */
  method CreateLiveTranscriptionConnection(sourceLang: string, onMessage: Callback, onError: Option<Callback>,
                                           listen: Outcome<LiveConnection>, started: Outcome<bool>)
    returns (r: Outcome<Option<LiveConnection>>)
    modifies Handed(listen)
    ensures listen.Fail? ==> r == Fail
    ensures listen.Ok? ==>
              var conn := listen.value;
              && conn.calls == old(conn.calls) + [OnCall(Registration(TranscriptEvent, onMessage))]
                               + (if onError.Some? then [OnCall(Registration(ErrorEvent, onError.value))] else [])
                               + [StartCall(LiveOptionsFor(sourceLang))]
              && r == (match started
                       case Fail => Fail
                       case Ok(accepted) => if accepted then Ok(Some(conn)) else Ok(None))
  {
    if listen.Fail? {
      return Fail;
    }
    var connection := listen.value;
    connection.On(TranscriptEvent, onMessage);
    if onError.Some? {
      connection.On(ErrorEvent, onError.value);
    }
    var options := LiveOptionsFor(sourceLang);
    var answer := connection.Start(options, started);
    match answer
    case Fail =>
      r := Fail;
    case Ok(accepted) =>
      if !accepted {
        r := Ok(None);
      } else {
        r := Ok(Some(connection));
      }
  }
}
