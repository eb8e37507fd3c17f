/** One participant's websocket session: joins the room's group, relays its own finalized
    transcripts to the room, and answers every room message with frames on its own socket. */
module Consumers {
  import opened Outcomes
  import opened Text
  import Query
  import opened Voices
  import opened Translation
  import opened Deepgram
  import Audio

  /** A frame sent down the participant's socket: the JSON text frame or an audio frame. */
  datatype Frame =
    | TextFrame(kind: string, text: string, translation: string, lang: string)
    | BinaryFrame(data: Bytes)

  /** The event published to the room group for one finalized transcript. */
  datatype ChatEvent = ChatEvent(kind: string, originalText: string, sourceLang: string, senderChannelName: string)

  /** A membership change requested from the channel layer. */
  datatype GroupOp = GroupAdd(group: string, channel: string) | GroupDiscard(group: string, channel: string)

  /** One `group_send`: the group and the event. */
  datatype Published = Published(group: string, event: ChatEvent)

  /** A request made to the translation engine or to the speech engine. */
  datatype EngineRequest = TranslationCall(chat: ChatRequest) | SynthesisCall(speak: SpeakRequest)

  /** What handling one room message does: the engine requests, in order, and the frames sent. */
  datatype Reaction = Reaction(requests: seq<EngineRequest>, frames: seq<Frame>)

  /** The transcript handler a session registers on its live connection. */
  const OnMessageHandler: Callback := Callback("on_message")

  /** The group every session of a room joins, whatever languages it speaks or hears. */
  function RoomGroupName(room: string): (g: string)
    ensures |g| == |room| + 12
    ensures g[..5] == "room_" && g[5..5 + |room|] == room && g[5 + |room|..] == "_global"
  {
    "room_" + room + "_global"
  }

  /** Sessions share a group exactly when they are in the same room. */
  lemma RoomGroupNameInjective(a: string, b: string)
    ensures RoomGroupName(a) == RoomGroupName(b) <==> a == b
  {
  }

  /** The transcript filter: only final results with text left after stripping are relayed. */
  predicate ShouldBroadcast(isFinal: bool, sentence: string)
  {
    isFinal && |Strip(sentence)| > 0
  }

  /** A result is relayed exactly when it is final and holds a character that is not
      whitespace; partial and blank results never are. */
  lemma ShouldBroadcastIff(isFinal: bool, sentence: string)
    ensures ShouldBroadcast(isFinal, sentence) <==> isFinal && exists i :: 0 <= i < |sentence| && !IsSpace(sentence[i])
  {
  }

  /** The event a session publishes for `text`. */
  function BroadcastEvent(text: string, sourceLang: string, channel: string): ChatEvent
  {
    ChatEvent("chat_message", text, sourceLang, channel)
  }

  /** The frame a session shows its own speaker: no translation, the speaker's language. */
  function EchoFrame(event: ChatEvent): Frame
  {
    TextFrame("transcription", event.originalText, "", event.sourceLang)
  }

  /** The audio of a speech response as the session reads it: `read()` if present, else
      `stream.read()` if there is a `stream`, else `content`. A missing attribute raises
      (`Fail`), as does a raising `read`. It agrees with the audio wrapper whenever it finds
      audio, and fails where the wrapper finds some only for a `stream` without `read`. */
  function ConsumerReadAudio(resp: SpeakResponse): (r: Outcome<Bytes>)
    ensures resp.read.Some? ==> r == resp.read.value
    ensures resp.read.None? && resp.stream.Some? && resp.stream.value.read.None? ==> r.Fail?
    ensures resp.read.None? && resp.stream.None? ==> (r.Ok? <==> resp.content.Some?)
    ensures r.Ok? ==> Audio.ReadAudio(resp) == Some(r.value)
    ensures r.Fail? && Audio.ReadAudio(resp).Some? ==>
              && resp.read.None? && resp.stream.Some? && resp.stream.value.read.None?
              && resp.content == Audio.ReadAudio(resp)
  {
    if resp.read.Some? then resp.read.value
    else if resp.stream.Some? then
      (if resp.stream.value.read.Some? then resp.stream.value.read.value else Fail)
    else if resp.content.Some? then Ok(resp.content.value)
    else Fail
  }

  /** Frames as they may appear on a socket: every text frame is a "transcription" and every
      audio frame is non-empty and comes right after a text frame. */
  predicate WellFormedOutbox(frames: seq<Frame>)
  {
    && (forall i :: 0 <= i < |frames| && frames[i].TextFrame? ==> frames[i].kind == "transcription")
    && (forall i :: 0 <= i < |frames| && frames[i].BinaryFrame? ==>
          0 < i && frames[i - 1].TextFrame? && |frames[i].data| > 0)
  }

  /** Appending well-formed frames that start with a text frame keeps a socket well formed. */
  lemma AppendWellFormed(a: seq<Frame>, b: seq<Frame>)
    requires WellFormedOutbox(a) && WellFormedOutbox(b)
    requires |b| > 0 ==> b[0].TextFrame?
    ensures WellFormedOutbox(a + b)
  {
  }

  /** `chat_message(event)` for a listener, i.e. a session that did not publish `event`.
      `llm` and `tts` are the two engines; `hasClient` says whether the session holds a
      speech client. */
  function ListenerReaction(event: ChatEvent, targetLang: string, hasClient: bool,
                            llm: ChatRequest -> Outcome<string>,
                            tts: SpeakRequest -> Outcome<SpeakResponse>): Reaction
  {
    var translated := Translate(llm, event.originalText, event.sourceLang, targetLang);
    var chat := TranslationCall(RequestFor(event.originalText, targetLang));
    if !hasClient then Reaction([chat], [])
    else
      var speak := Audio.SpeakRequestFor(translated, targetLang);
      var audio := if tts(speak).Ok? then ConsumerReadAudio(tts(speak).value) else Fail;
      if audio.Ok? && |audio.value| > 0 then
        Reaction([chat, SynthesisCall(speak)],
                 [TextFrame("transcription", event.originalText, translated, event.sourceLang), BinaryFrame(audio.value)])
      else Reaction([chat, SynthesisCall(speak)], [])
  }

  /** `chat_message(event)` for the session on `channel`: its own event is echoed with one
      text frame and no engine call; anyone else's is translated from the event's language
      into `targetLang`, spoken with the voice for `targetLang`, and delivered as a text frame
      then an audio frame, or not at all. */
  function ChatMessageReaction(channel: string, targetLang: string, hasClient: bool, event: ChatEvent,
                               llm: ChatRequest -> Outcome<string>,
                               tts: SpeakRequest -> Outcome<SpeakResponse>): (r: Reaction)
    ensures r.requests == [] <==> event.senderChannelName == channel
    ensures event.senderChannelName == channel ==> r.frames == [EchoFrame(event)]
    ensures event.senderChannelName != channel ==>
              var translated := Translate(llm, event.originalText, event.sourceLang, targetLang);
              && r.requests[0] == TranslationCall(RequestFor(event.originalText, targetLang))
              && (hasClient ==> r.requests == [r.requests[0], SynthesisCall(SpeakRequest(translated, VoiceFor(targetLang), "mp3"))])
              && (!hasClient ==> |r.requests| == 1)
              && (r.frames == [] || (|r.frames| == 2 && r.frames[0] == TextFrame("transcription", event.originalText, translated, event.sourceLang)))
    ensures WellFormedOutbox(r.frames)
    ensures |r.frames| > 0 ==> r.frames[0].TextFrame?
  {
    if event.senderChannelName == channel then Reaction([], [EchoFrame(event)])
    else ListenerReaction(event, targetLang, hasClient, llm, tts)
  }

  /** A listener's update is delivered exactly when there is a speech client, the speech call
      returned and its audio could be read and is non-empty; the audio frame carries it. */
  lemma ListenerDeliversOnlyWithAudio(channel: string, targetLang: string, hasClient: bool, event: ChatEvent,
                                      llm: ChatRequest -> Outcome<string>,
                                      tts: SpeakRequest -> Outcome<SpeakResponse>)
    requires event.senderChannelName != channel
    ensures var r := ChatMessageReaction(channel, targetLang, hasClient, event, llm, tts);
            var speak := Audio.SpeakRequestFor(Translate(llm, event.originalText, event.sourceLang, targetLang), targetLang);
            r.frames != [] <==>
              && hasClient && tts(speak).Ok? && ConsumerReadAudio(tts(speak).value).Ok?
              && |ConsumerReadAudio(tts(speak).value).value| > 0
    ensures var r := ChatMessageReaction(channel, targetLang, hasClient, event, llm, tts);
            var speak := Audio.SpeakRequestFor(Translate(llm, event.originalText, event.sourceLang, targetLang), targetLang);
            r.frames != [] ==> r.frames[1] == BinaryFrame(ConsumerReadAudio(tts(speak).value).value)
  {
  }

  /** When the translation engine raises on everything, a listener still gets the original
      text as the translation and hears it spoken in its own language's voice. */
  lemma ListenerFallsBackToOriginal(channel: string, targetLang: string, event: ChatEvent,
                                    llm: ChatRequest -> Outcome<string>,
                                    tts: SpeakRequest -> Outcome<SpeakResponse>)
    requires event.senderChannelName != channel
    requires forall req :: llm(req) == Fail
    ensures var r := ChatMessageReaction(channel, targetLang, true, event, llm, tts);
            && r.requests[1] == SynthesisCall(SpeakRequest(event.originalText, VoiceFor(targetLang), "mp3"))
            && (r.frames != [] ==> r.frames[0].translation == event.originalText)
  {
  }

  /** A session's own broadcast, delivered back to it, is shown as it was spoken: one frame,
      empty translation, the speaker's language, and no engine is asked anything. */
  lemma OwnBroadcastIsEchoed(channel: string, sourceLang: string, targetLang: string, hasClient: bool, text: string,
                             llm: ChatRequest -> Outcome<string>,
                             tts: SpeakRequest -> Outcome<SpeakResponse>)
    ensures ChatMessageReaction(channel, targetLang, hasClient, BroadcastEvent(text, sourceLang, channel), llm, tts)
            == Reaction([], [TextFrame("transcription", text, "", sourceLang)])
  {
  }

  /** Two sessions on channels "chan-a" (hears English) and "chan-b" (hears French) get the
      event for "Hola" that "chan-a" published in Spanish: "chan-a" sees a plain echo and
      asks nothing; "chan-b" asks for French, is spoken to with the French voice, and gets
      the translation then the audio. */
  lemma HolaReachesBothSessions(llm: ChatRequest -> Outcome<string>,
                                tts: SpeakRequest -> Outcome<SpeakResponse>, audio: Bytes)
    requires llm(RequestFor("Hola", "fr")) == Ok("Bonjour")
    requires tts(SpeakRequest("Bonjour", "aura-2-agathe-fr", "mp3")) == Ok(SpeakResponse(Some(Ok(audio)), None, None))
    requires |audio| > 0
    ensures var event := BroadcastEvent("Hola", "es", "chan-a");
            && ChatMessageReaction("chan-a", "en", true, event, llm, tts)
               == Reaction([], [TextFrame("transcription", "Hola", "", "es")])
            && ChatMessageReaction("chan-b", "fr", true, event, llm, tts).frames
               == [TextFrame("transcription", "Hola", "Bonjour", "es"), BinaryFrame(audio)]
            && ChatMessageReaction("chan-b", "fr", true, event, llm, tts).requests[1]
               == SynthesisCall(SpeakRequest("Bonjour", "aura-2-agathe-fr", "mp3"))
  {
  }

  /** One participant's websocket session (`TranslatorConsumer`). `connected` says `connect`
      has run; `hasLoop`, `hasClient` and `dgConnection` stand for the attributes `app_loop`,
      `deepgram` and `dg_connection` being set. `groupOps`, `published`, `requests` and
      `outbox` are the histories of membership changes, group sends, engine requests and
      frames sent on the socket. */
  class TranslatorConsumer {
    const channelName: string
    var connected: bool
    var roomName: string
    var sourceLang: string
    var targetLang: string
    var roomGroupName: string
    var hasLoop: bool
    var hasClient: bool
    var dgConnection: LiveConnection?
    var accepted: bool
    var closed: bool
    var groupOps: seq<GroupOp>
    var published: seq<Published>
    var requests: seq<EngineRequest>
    var outbox: seq<Frame>

    ghost predicate Valid()
      reads this
    {
      && WellFormedOutbox(outbox)
      && (!connected ==> && groupOps == [] && published == [] && requests == [] && outbox == []
                         && dgConnection == null && !hasClient && !hasLoop && !accepted && !closed)
      && (connected ==> && roomGroupName == RoomGroupName(roomName) && hasLoop
                        && |groupOps| > 0 && groupOps[0] == GroupAdd(roomGroupName, channelName))
      && (dgConnection != null ==> hasClient)
      && (forall p :: p in published ==>
            p == Published(roomGroupName, BroadcastEvent(p.event.originalText, sourceLang, channelName)))
    }

    /** A session on channel `channel`, before `connect`. */
    constructor (channel: string)
      ensures Valid() && channelName == channel && !connected && !accepted && !closed
    {
      channelName := channel;
      connected, accepted, closed := false, false, false;
      roomName, sourceLang, targetLang, roomGroupName := "", "", "", "";
      hasLoop, hasClient, dgConnection := false, false, null;
      groupOps, published, requests, outbox := [], [], [], [];
    }

    /** `connect()`: `room` is the route's room name and `query` the query string's pieces.
        `clientOk` says the speech client was created, `listen` what `listen.live.v("1")` did
        and `started` what `start` did. The session joins its room's group and accepts the
        socket in every case; it closes the socket unless the live connection started. */
    method Connect(room: string, query: seq<Query.QueryPair>, clientOk: bool,
                   listen: Outcome<LiveConnection>, started: Outcome<bool>)
      requires Valid() && !connected
      modifies this, if clientOk then Audio.Handed(listen) else {}
      ensures Valid() && connected
      ensures roomName == room && roomGroupName == RoomGroupName(room)
      ensures sourceLang == Query.Get(query, "source", "es") && targetLang == Query.Get(query, "target", "en")
      ensures groupOps == [GroupAdd(RoomGroupName(room), channelName)]
      ensures accepted && hasClient == clientOk
      ensures dgConnection == (if clientOk && listen.Ok? then listen.value else null)
      ensures clientOk && listen.Ok? ==>
                listen.value.calls == old(listen.value.calls)
                                      + [OnCall(Registration(TranscriptEvent, OnMessageHandler)),
                                         StartCall(LiveOptionsFor(sourceLang))]
      ensures closed <==> !(clientOk && listen.Ok? && started == Ok(true))
      ensures published == [] && requests == [] && outbox == []
    {
      ReadParameters(room, query);
      groupOps := [GroupAdd(roomGroupName, channelName)];
      accepted, hasLoop, connected := true, true, true;
      OpenTranscription(clientOk, listen, started);
      assert outbox == [] && published == [] && requests == [];
    }

    /** The first step of `connect`: the room from the route, the two languages from the
        query string ("es" and "en" when not supplied) and the room's group name. */
    method ReadParameters(room: string, query: seq<Query.QueryPair>)
      modifies this`roomName, this`sourceLang, this`targetLang, this`roomGroupName
      ensures roomName == room && roomGroupName == RoomGroupName(room)
      ensures sourceLang == Query.Get(query, "source", "es") && targetLang == Query.Get(query, "target", "en")
    {
      roomName := room;
      sourceLang := Query.Get(query, "source", "es");
      targetLang := Query.Get(query, "target", "en");
      roomGroupName := RoomGroupName(room);
    }

    /** The guarded part of `connect`: create the speech client and the live connection,
        register the transcript handler and start it; any failure closes the socket. */
    method OpenTranscription(clientOk: bool, listen: Outcome<LiveConnection>, started: Outcome<bool>)
      requires !hasClient && dgConnection == null && !closed
      modifies this`hasClient, this`dgConnection, this`closed, if clientOk then Audio.Handed(listen) else {}
      ensures hasClient == clientOk
      ensures dgConnection == (if clientOk && listen.Ok? then listen.value else null)
      ensures clientOk && listen.Ok? ==>
                listen.value.calls == old(listen.value.calls)
                                      + [OnCall(Registration(TranscriptEvent, OnMessageHandler)),
                                         StartCall(LiveOptionsFor(sourceLang))]
      ensures closed <==> !(clientOk && listen.Ok? && started == Ok(true))
    {
      if !clientOk {
        closed := true;
        return;
      }
      hasClient := true;
      if listen.Fail? {
        closed := true;
        return;
      }
      var conn := listen.value;
      dgConnection := conn;
      conn.On(TranscriptEvent, OnMessageHandler);
      var answer := conn.Start(LiveOptionsFor(sourceLang), started);
      if answer != Ok(true) {
        closed := true;
      }
    }

    /** The transcript handler, registered only on a created live connection and run on the
        session's own loop: a final, non-blank result is published to the room unstripped;
        anything else is dropped. */
    method OnMessage(isFinal: bool, sentence: string)
      requires Valid() && connected && dgConnection != null
      modifies this`published
      ensures Valid()
      ensures published == old(published)
                           + if ShouldBroadcast(isFinal, sentence)
                             then [Published(roomGroupName, BroadcastEvent(sentence, sourceLang, channelName))]
                             else []
    {
      if isFinal && |Strip(sentence)| > 0 {
        if hasLoop {
          BroadcastOriginalToRoom(sentence);
        }
      }
    }

    /** `broadcast_original_to_room(text)`: one `chat_message` event to the room's group
        carrying the text, the speaker's language and the speaker's channel. */
    method BroadcastOriginalToRoom(text: string)
      requires Valid() && connected
      modifies this`published
      ensures Valid()
      ensures published == old(published) + [Published(roomGroupName, ChatEvent("chat_message", text, sourceLang, channelName))]
    {
      published := published + [Published(roomGroupName, BroadcastEvent(text, sourceLang, channelName))];
    }

    /** `receive(text_data, bytes_data)`: non-empty binary data goes to the live connection
        as it is; text frames and empty data are ignored. Without a live connection the
        forwarding raises (`Fail`). */
    method Receive(textData: Option<string>, bytesData: Option<Bytes>) returns (r: Outcome<()>)
      requires Valid() && connected
      modifies dgConnection
      ensures var forwards := bytesData.Some? && |bytesData.value| > 0;
              && (r.Fail? <==> forwards && dgConnection == null)
              && (dgConnection != null ==>
                    dgConnection.calls == old(dgConnection.calls) + (if forwards then [SendCall(bytesData.value)] else []))
    {
      r := Ok(());
      if bytesData.Some? && |bytesData.value| > 0 {
        if dgConnection == null {
          r := Fail;
        } else {
          dgConnection.Send(bytesData.value);
        }
      }
    }

    /** `disconnect(close_code)`: leaves the room's group, and finishes the live connection
        if there is one, swallowing anything `finish` raises. `finishing` is what `finish`
        does. */
    method Disconnect(finishing: Outcome<()>)
      requires Valid() && connected
      modifies this`groupOps, dgConnection
      ensures Valid()
      ensures groupOps == old(groupOps) + [GroupDiscard(roomGroupName, channelName)]
      ensures dgConnection != null ==> dgConnection.calls == old(dgConnection.calls) + [FinishCall]
    {
      groupOps := groupOps + [GroupDiscard(roomGroupName, channelName)];
      if dgConnection != null {
        var _ := dgConnection.Finish(finishing);
      }
    }

    /** `chat_message(event)`, with `llm` and `tts` the translation and speech engines. */
    method ChatMessage(event: ChatEvent, llm: ChatRequest -> Outcome<string>,
                       tts: SpeakRequest -> Outcome<SpeakResponse>)
      requires Valid() && connected
      modifies this`outbox, this`requests
      ensures Valid()
      ensures var r := ChatMessageReaction(channelName, targetLang, hasClient, event, llm, tts);
              outbox == old(outbox) + r.frames && requests == old(requests) + r.requests
    {
      AppendWellFormed(outbox, ChatMessageReaction(channelName, targetLang, hasClient, event, llm, tts).frames);
      if event.senderChannelName == channelName {
        outbox := outbox + [TextFrame("transcription", event.originalText, "", event.sourceLang)];
      } else {
        RespondAsListener(event, llm, tts);
      }
    }

    /** The listener branch of `chat_message`: translate, synthesize, then send the text
        frame and the audio frame; any raise on the way is swallowed and sends nothing. */
    method RespondAsListener(event: ChatEvent, llm: ChatRequest -> Outcome<string>,
                             tts: SpeakRequest -> Outcome<SpeakResponse>)
      modifies this`outbox, this`requests
      ensures var r := ListenerReaction(event, targetLang, hasClient, llm, tts);
              outbox == old(outbox) + r.frames && requests == old(requests) + r.requests
    {
      var translated := Translate(llm, event.originalText, event.sourceLang, targetLang);
      var chat := TranslationCall(RequestFor(event.originalText, targetLang));
      requests := requests + [chat];
      if !hasClient {
        // `self.deepgram` is missing: the raise is caught and nothing is sent
        return;
      }
      var speak := SpeakRequest(translated, VoiceFor(targetLang), "mp3");
      assert speak == Audio.SpeakRequestFor(translated, targetLang);
      requests := requests + [SynthesisCall(speak)];
      var response := tts(speak);
      if response.Fail? {
        return;
      }
      var audio := ConsumerReadAudio(response.value);
      if audio.Fail? {
        return;
      }
      if |audio.value| > 0 {
        outbox := outbox + [TextFrame("transcription", event.originalText, translated, event.sourceLang)];
        outbox := outbox + [BinaryFrame(audio.value)];
      }
    }
  }
}

