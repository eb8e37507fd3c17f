# Realtime room translator: session and engine wrappers in Dafny

This project models the decision logic of a realtime speech relay. Participants join a
room over a websocket, each saying which language they speak (`source`) and which they
want to hear (`target`). A participant's audio goes to a live speech-to-text connection.
Each final transcript is published to the room's channel-layer group. Every session in
the room then handles that `chat_message` event. The speaker's own session echoes the
text back untranslated. Every other session translates the text into its target language
with a chat-completion engine, synthesizes it with a voice chosen for that language, and
sends a JSON text frame followed by an audio frame.

The foreign services are never called. The live transcription service, the speech
service and the chat-completion service appear as answers passed in as parameters:
`Outcome<T> = Ok(value) | Fail`, where `Fail` means the call raised. The translation
and speech engines are functions from the request to such an outcome, so the model
records and states exactly which request each engine was asked.

Modules, one per source concept:

- `Outcomes`: the outcome, option and byte types.
- `Text`: Python's `str.strip()`, used by the transcript filter.
- `Query`: `parse_qs(query).get(name, [default])[0]` over the query string's pieces.
- `Voices`: the language-to-voice table. It appears twice in the source, identically, in
  `translator/consumers.py` and `translator/audio_service.py`. It is defined once here.
- `Translation`: `TranslationService.translate`: the language-name table, the system
  instruction, the two-message request and the fall-back to the input text.
- `Deepgram`: the speech SDK surface. It has the live options, the speech request and
  the response shapes. It also has a `LiveConnection` class that records, in order, each call made
  on it (`on`, `start`, `send`, `finish`).
- `Audio`: `AudioService.synthesize_speech` (voice choice, response-shape dispatch, `None`
  on any error) and `create_live_transcription_connection` (handler registration, start
  result, re-raise).
- `Consumers`: the `TranslatorConsumer` session as a class. Its fields are the
  attributes `connect` sets. It also keeps four histories: group membership changes,
  published events, engine requests and the outbox of frames sent on the socket.
  `chat_message` is specified by the pure function `ChatMessageReaction`, and the lemmas
  about it state the echo, ordering and degradation properties.

Some of what the code does may surprise a reader. The model follows the code:

- A listener whose audio comes back empty, or cannot be read, gets nothing at all. It
  does not get the text frame without audio.
- `translate` returns the engine's content as it is, even when that is empty. It falls
  back to the input only when the call raises.
- `disconnect` never closes the translation service's HTTP client.
- No handler is gated on a session state. `chat_message`, `receive` and the transcript
  handler act the same after the socket was closed for a failed start.
- The session's own reading of a speech response differs from `AudioService`'s.
  `consumers.py` calls `stream.read()` whenever a `stream` attribute exists. It touches
  `content` without checking that it exists, and a missing attribute raises, which the
  handler swallows. `ConsumerReadAudio` states where the two readings agree and where
  they differ.

## Model

| member | source | states |
|---|---|---|
| `Text.StripLeft` | translator/consumers.py:64 | what is removed from the front is whitespace; what remains is a suffix of the input that does not start with whitespace |
| `Text.StripRight` | translator/consumers.py:64 | what is removed from the back is whitespace; what remains is a prefix of the input that does not end with whitespace |
| `Text.StripNonEmptyIff` | translator/consumers.py:64 | `len(sentence.strip()) > 0` holds exactly when the sentence holds a non-whitespace character |
| `Text.StripIsSlice` | translator/consumers.py:64 | the stripped sentence is a slice of the sentence with only whitespace outside it |
| `Query.GetAbsent` | translator/consumers.py:33-34 | a language parameter that is missing, or given only with blank values, takes its default ("es" for source, "en" for target) |
| `Query.GetFirst` | translator/consumers.py:33-34 | when a parameter is supplied, its first non-blank value is used and later ones are ignored |
| `Query.GetIsSuppliedOrDefault` | translator/consumers.py:31-34 | the language read is always the default or a value the query supplied for that name |
| `Voices.VoiceFor` | translator/consumers.py:152 | "es", "fr" and "de" get their own voices; every other code, "en", "pt" and unknown codes alike, gets "aura-asteria-en" |
| `Voices.VoiceDeterminesLanguage` | translator/consumers.py:18-24 | each non-default voice belongs to exactly one language |
| `Audio.SpeakRequestFor` | translator/audio_service.py:99-104 | the speech request carries the text unchanged, the table's voice for the target code, and encoding "mp3" |
| `Audio.SynthesisVoiceFallback` | translator/audio_service.py:29-35 | codes outside the table, and every code but "es", "fr" and "de", use the default voice; "pt" is spoken exactly like "en" |
| `Audio.ReadAudio` | translator/audio_service.py:115-123 | `read()` is preferred, then `stream.read()` when the stream has `read`, then `content`; a raising `read` or an unknown shape gives `None`; any audio returned came from one of those attributes |
| `Audio.UnknownShapeHasNoAudio` | translator/audio_service.py:121-123 | a response without `read`, a readable `stream` or `content` gives `None` |
| `Audio.SynthesizeSpeech` | translator/audio_service.py:106-127 | a raising speech call gives `None`; otherwise the result is the response's audio as `ReadAudio` reads it; nothing escapes as an error |
| `Audio.CreateLiveTranscriptionConnection` | translator/audio_service.py:63-86 | the connection's call history grows by exactly: the transcript handler's registration, the error handler's only when given, then one `start` with nova-2 options for the source language; `start` answering False gives `None`, True gives the connection, and any raise is raised again |
| `Deepgram.LiveOptionsFor` | translator/consumers.py:74-79 | the live options carry the source language, model "nova-2", smart formatting and 350 ms endpointing |
| `Deepgram.LiveConnection.constructor` | translator/consumers.py:58 | a connection handed out by `listen.live.v("1")` has an empty call history |
| `Deepgram.LiveConnection.On` | translator/consumers.py:72 | registering a handler appends exactly that registration to the call history |
| `Deepgram.LiveConnection.Start` | translator/consumers.py:81 | `start` appends one start call with the options given and returns the service's answer |
| `Deepgram.LiveConnection.Send` | translator/consumers.py:100 | `send` appends one send call carrying exactly the bytes given |
| `Deepgram.LiveConnection.Finish` | translator/consumers.py:95 | `finish` appends one finish call, whatever it answers |
| `Translation.TargetName` | translator/translation_service.py:11-18 | the six listed codes get their names; a code yields "English" exactly when it is not one of "es", "fr", "de", "pt", "ja" |
| `Translation.SystemPrompt` | translator/translation_service.py:32-37 | the instruction is the fixed head, the language name, then the fixed tail |
| `Translation.SystemPromptInjective` | translator/translation_service.py:32-37 | two instructions are equal exactly when their language names are equal |
| `Translation.RequestFor` | translator/translation_service.py:40-48 | exactly two messages, the system instruction for the target's name then the user text; model llama-3.3-70b-versatile, temperature 0.3, at most 1024 tokens |
| `Translation.RequestDependsOnlyOnTargetName` | translator/translation_service.py:28-48 | two requests for one text are equal exactly when the target codes resolve to the same name; the source language takes no part |
| `Translation.Translate` | translator/translation_service.py:28-52 | a raising engine gives back the input text unchanged; otherwise the engine's content is returned as it is, with no fall-back for an empty answer |
| `Translation.TranslateDependsOnlyOnTargetName` | translator/translation_service.py:28-49 | the source language never affects the translation, and target codes with the same name send the engine the same request and so get the same answer from it |
| `Translation.FailingEngineKeepsText` | translator/translation_service.py:50-52 | an engine that always raises leaves every text as it was |
| `Consumers.RoomGroupName` | translator/consumers.py:39 | the group name is "room_", the room name, then "_global"; neither language appears in it |
| `Consumers.RoomGroupNameInjective` | translator/consumers.py:36-39 | two sessions share a group exactly when their room names are equal |
| `Consumers.ShouldBroadcastIff` | translator/consumers.py:64 | a transcript result is relayed exactly when it is final and holds a non-whitespace character |
| `Consumers.ConsumerReadAudio` | translator/consumers.py:167-169 | a `read` attribute is used as it answers; a `stream` without `read` always fails, even when `content` exists; with neither, audio is found exactly when `content` exists; whenever the session finds audio, the audio wrapper finds the same bytes; where only the wrapper finds audio, the response has a `stream` without `read` and the audio is its `content` |
| `Consumers.AppendWellFormed` | translator/consumers.py:172-181 | appending one handler's frames keeps every audio frame right after a text frame and every text frame of type "transcription" |
| `Consumers.ChatMessageReaction` | translator/consumers.py:122-184 | no engine request is made exactly when the event is the session's own, and then exactly one echo frame is sent; otherwise translation is asked first, from the event's language into the session's target, then speech with the target's voice, and the frames are nothing or the translated text frame then an audio frame |
| `Consumers.ListenerDeliversOnlyWithAudio` | translator/consumers.py:172-184 | a listener receives frames exactly when the speech client exists, the speech call and the audio read did not raise and the audio is non-empty; the audio frame carries those bytes; raises are swallowed |
| `Consumers.ListenerFallsBackToOriginal` | translator/consumers.py:145-152 | when translation raises, the original text is spoken in the target's voice and shown as the translation |
| `Consumers.OwnBroadcastIsEchoed` | translator/consumers.py:105-136 | the event a session publishes, when delivered back to it, yields one text frame with the spoken text, empty translation and the speaker's language, and no engine request |
| `Consumers.HolaReachesBothSessions` | translator/consumers.py:122-181 | an "es" speaker's "Hola" is echoed plainly to the speaker, and reaches a French listener as the French text frame then the audio from the French voice |
| `Consumers.TranslatorConsumer.constructor` | translator/consumers.py:26 | a new session has joined nothing, sent nothing and published nothing |
| `Consumers.TranslatorConsumer.Connect` | translator/consumers.py:27-87 | the room and languages come from the route and query, with defaults "es" and "en"; the session joins "room_<room>_global" and accepts the socket; the transcript handler is registered and then `start` is called with the source language, and nothing else is done to the connection; when the speech client could not be created, the connection offered is not touched at all; the socket is closed unless the client, the connection and `start` all succeeded |
| `Consumers.TranslatorConsumer.ReadParameters` | translator/consumers.py:29-39 | the room name, the two languages with their defaults, and the group name derived from the room alone |
| `Consumers.TranslatorConsumer.OpenTranscription` | translator/consumers.py:54-87 | the connection is kept when the client was created, even if `start` then fails; the only handler registered is the transcript handler, before `start`; without a client no connection is touched; a False or raising `start` closes the socket |
| `Consumers.TranslatorConsumer.OnMessage` | translator/consumers.py:60-70 | the handler runs only once registered on a live connection; a final, non-blank result is published once, unstripped; partial or blank results publish nothing |
| `Consumers.TranslatorConsumer.BroadcastOriginalToRoom` | translator/consumers.py:105-117 | one event to the session's own group: type "chat_message", the text, the speaker's source language and the speaker's channel |
| `Consumers.TranslatorConsumer.Receive` | translator/consumers.py:98-100 | non-empty binary data reaches the live connection unchanged; text frames and empty data do nothing; with no live connection the forward raises |
| `Consumers.TranslatorConsumer.Disconnect` | translator/consumers.py:89-96 | the session always leaves its group, and `finish` is called once only when a live connection exists, whatever it raises |
| `Consumers.TranslatorConsumer.ChatMessage` | translator/consumers.py:122-184 | the outbox and the engine requests grow by exactly what `ChatMessageReaction` states, and the outbox stays well formed |
| `Consumers.TranslatorConsumer.RespondAsListener` | translator/consumers.py:138-184 | the listener branch: translation request, then speech request when the client exists, then the text frame and audio frame only for non-empty audio |

## Left out

- The foreign services are not modelled. These are the live speech-to-text service, the
  text-to-speech service and the chat-completion service, with their HTTP and websocket
  traffic. Their answers are parameters.
- Cross-thread hand-off is not modelled. `run_coroutine_threadsafe` and `asyncio.to_thread`
  are collapsed: the transcript handler runs as one step (`OnMessage`) on the session. The
  check that `app_loop` is set is kept, and it always holds after `connect`.
- Consumers.TranslatorConsumer.ChatMessage: each call is one atomic step. This relies on
  the consumer framework dispatching one message at a time, awaiting each handler before
  taking the next. The framework's dispatch is not part of this model, and the outbox
  ordering proved here holds only under it.
- Channel-layer delivery (the Redis fan-out) is not modelled. Group membership changes
  and sends are recorded in `groupOps` and `published`. Delivering an event to a session
  means calling its `ChatMessage`.
- Socket `accept` and `close` are modelled only as the flags `accepted` and `closed`.
- JSON serialization is left out: frames are records. The contents of audio bytes are
  not interpreted.
- `parse_qs` splitting on `&` and `=`, plus percent-decoding, are not modelled. The query
  string is given as its decoded name/value pieces. Dropping blank values is modelled.
- The `room_name` pattern in `translator/routing.py` is not part of this model. The room
  name is taken as given.
- The environment-variable reads in `translator/constants.py` are not part of this model.
  Neither is the unused instruction template there.
- The constructors of `TranslationService` and `AudioService` are not modelled. They
  create the HTTP and SDK clients, with the keepalive client option.
  `TranslationService.close` is not modelled either, because the session never calls it.
- Logging and `print` output are left out.
- What the live connection does with audio, with `send` after `finish`, or with a
  connection that never started is not modelled. The connection only records the calls.
- The translation and speech engines are modelled as functions of their request. The
  chat-completion engine samples at temperature 0.3, so the real service may answer two
  equal requests differently. `Translation.TranslateDependsOnlyOnTargetName` holds for the
  model; for the service it means the engine is sent the same request.
- Decoding the raw query string (`consumers.py:30`) is not modelled. The query reaches
  `Connect` already decoded. Bytes that are not UTF-8 would make `connect` raise before
  joining the group or accepting the socket, and the model has no such path.
- A chat-completion answer whose `content` is `None` (`translation_service.py:49`) is not
  modelled. The engine answers a string or raises, so `translate` never returns `None`
  here.
