/** The surface of the speech SDK that the relay uses, as values and as a connection object
    that records what was done to it. What the remote service does is not modelled: every
    answer it gives is a parameter. */
module Deepgram {
  import opened Outcomes

  /** The streaming configuration given to `start`. */
  datatype LiveOptions = LiveOptions(model: string, language: string, smartFormat: bool, endpointing: nat)

  /** `LiveOptions(model="nova-2", language=lang, smart_format=True, endpointing=350)`. */
  function LiveOptionsFor(lang: string): (o: LiveOptions)
    ensures o.language == lang
    ensures o.model == "nova-2" && o.smartFormat && o.endpointing == 350
  {
    LiveOptions("nova-2", lang, true, 350)
  }

  /** The two live-transcription events a handler can be registered for. */
  datatype LiveEvent = TranscriptEvent | ErrorEvent

  /** The identity of a Python callable handed to `on`. */
  datatype Callback = Callback(name: string)

  datatype Registration = Registration(event: LiveEvent, callback: Callback)

  /** One call made on a live connection: `on(event, callback)`, `start(options)`,
      `send(data)` or `finish()`. */
  datatype LiveCall = OnCall(registration: Registration) | StartCall(options: LiveOptions)
                    | SendCall(data: Bytes) | FinishCall

  /** A live-transcription connection. `calls` is the history of the calls made on it, in
      the order they were made. */
  class LiveConnection {
    var calls: seq<LiveCall>

    /** A connection as `listen.live.v("1")` hands it out: nothing done to it yet. */
    constructor ()
      ensures calls == []
    {
      calls := [];
    }

    /** `on(event, callback)`. */
    method On(event: LiveEvent, callback: Callback)
      modifies this
      ensures calls == old(calls) + [OnCall(Registration(event, callback))]
    {
      calls := calls + [OnCall(Registration(event, callback))];
    }

    /** `start(options)`; `answer` is what the service made of it: `Ok(accepted)` or a raise. */
    method Start(options: LiveOptions, answer: Outcome<bool>) returns (r: Outcome<bool>)
      modifies this
      ensures r == answer
      ensures calls == old(calls) + [StartCall(options)]
    {
      calls := calls + [StartCall(options)];
      r := answer;
    }

    /** `send(data)`. */
    method Send(data: Bytes)
      modifies this
      ensures calls == old(calls) + [SendCall(data)]
    {
      calls := calls + [SendCall(data)];
    }

    /** `finish()`; `answer` says whether it raised. */
    method Finish(answer: Outcome<()>) returns (r: Outcome<()>)
      modifies this
      ensures r == answer
      ensures calls == old(calls) + [FinishCall]
    {
      calls := calls + [FinishCall];
      r := answer;
    }
  }

  /** A text-to-speech call: the `{"text": ...}` payload and the `SpeakOptions`. */
  datatype SpeakRequest = SpeakRequest(text: string, model: string, encoding: string)

  /** The `stream` attribute of a response; `read` is absent, or the outcome of calling it. */
  datatype StreamAttr = StreamAttr(read: Option<Outcome<Bytes>>)

  /** The shape of a text-to-speech response: which of the attributes `read`, `stream` and
      `content` it has, and for `read` what calling it gives. */
  datatype SpeakResponse = SpeakResponse(read: Option<Outcome<Bytes>>, stream: Option<StreamAttr>, content: Option<Bytes>)
}
