/** `setupWebSocketHandler` of the audio service: a second, self-contained
    media-stream session whose closure variables become the fields of the
    class `MediaStreamSession`. Unlike `WebSocketHandler` it has no speech
    manager: every final recogniser result is answered at once, with no
    debounce and no barge-in.

    As in `WsHandler`, the value `MediaSession` holds everything the
    session and its transformer hold, each listener is a step function on
    it, and each method of the class is tied to its step function. */
module MediaStream {
  import opened Wrappers
  import opened JsText
  import opened G711
  import opened Protocol
  import opened Transformer

  datatype MediaSession = MediaSession(
    /** The services were created and the listeners installed. */
    installed: bool,
    streamSid: Option<string>,
    isStreamStarted: bool,
    /** The PCM chunks the transformer has pushed to the recogniser. */
    frames: seq<seq<Byte>>,
    /** `audioTransformer.end()` was called. */
    transformerEnded: bool,
    /** `socket.close()` has not been called. */
    socketOpen: bool,
    /** Messages sent on the socket, in order. */
    outbox: seq<Outbound>,
    /** A recognition stream is running and its results are being read. */
    recognizerOpen: bool,
    /** Transcripts passed to `generateResponse` (always without a session id). */
    replyRequests: seq<string>,
    /** Texts handed to `synthesize`, in order. */
    synthRequests: seq<string>)

  /** The session after setup: when creating a service throws, the socket is
      closed and no listener is installed. */
  function Setup(servicesOk: bool): (s: MediaSession)
    ensures s.socketOpen == servicesOk && s.installed == servicesOk
  {
    MediaSession(servicesOk, None, false, [], false, servicesOk, [], false, [], [])
  }

  /** `cleanupResources`: ends the transformer, closes the socket and
      forgets the stream. */
  function CleanupStep(s: MediaSession): (r: MediaSession)
    ensures r.transformerEnded && !r.socketOpen && r.streamSid.None? && !r.isStreamStarted
    ensures r.(transformerEnded := s.transformerEnded, socketOpen := s.socketOpen,
               streamSid := s.streamSid, isStreamStarted := s.isStreamStarted) == s
  {
    s.(transformerEnded := true, socketOpen := false, streamSid := None, isStreamStarted := false)
  }

  /** The `message` listener. Text that is not JSON is logged and dropped.
      `start` without a `start` object throws before anything changes;
      otherwise the stream id is recorded, the stream marked started and a
      recognition stream started over the transformer. Media is considered
      only with a truthy payload and is dropped before the stream starts;
      the transformer refuses it once ended. */
  function MessageStep(s: MediaSession, data: Parsed, recognizerStarts: bool): (r: MediaSession)
    ensures r.installed == s.installed
    ensures r.outbox == s.outbox && r.replyRequests == s.replyRequests && r.synthRequests == s.synthRequests
    ensures s.frames <= r.frames
    ensures s.transformerEnded ==> r.transformerEnded && r.frames == s.frames
    ensures !s.socketOpen ==> !r.socketOpen
  {
    if !s.installed || data.Malformed? then s
    else
      var msg := data.msg;
      if msg.event == "start" then
        if msg.start.None? then s
        else s.(streamSid := msg.start.value.streamSid, isStreamStarted := true,
                recognizerOpen := s.recognizerOpen || recognizerStarts)
      else if msg.event == "media" && HasPayload(msg) then
        if !s.isStreamStarted || s.transformerEnded then s
        else s.(frames := s.frames + FrameOutput(data))
      else if msg.event == "stop" then CleanupStep(s)
      else s
  }

  /** The `close` and `error` listeners. */
  function CloseStep(s: MediaSession): (r: MediaSession)
    ensures !s.installed ==> r == s
    ensures s.installed ==> r.transformerEnded && !r.socketOpen && r.streamSid.None? && !r.isStreamStarted
    ensures r.(transformerEnded := s.transformerEnded, socketOpen := s.socketOpen,
               streamSid := s.streamSid, isStreamStarted := s.isStreamStarted) == s
  {
    if !s.installed then s else CleanupStep(s)
  }

  /** `socket.send`: a send after `close()` is dropped. */
  function SendStep(s: MediaSession, m: Outbound): (r: MediaSession)
    ensures r.outbox == s.outbox + (if s.socketOpen then [m] else [])
    ensures r.(outbox := s.outbox) == s
  {
    if s.socketOpen then s.(outbox := s.outbox + [m]) else s
  }

  /** A recogniser event together with what the generator and the
      synthesiser settle to if the event asks them. */
  datatype Turn = Turn(event: RecognizerEvent, reply: ReplyOutcome, synth: SynthOutcome)

  /** The session after a recogniser event, and whether reading goes on. */
  datatype Reading = Reading(session: MediaSession, keepReading: bool)

  /** One turn of the `for await` loop over the recogniser's results.
      Events without a first result are skipped; a result without
      alternatives throws and ends the loop, partial or final. A partial
      result is only logged. A final one is passed to the generator as it
      is; a rejected reply ends the loop; a truthy reply with a truthy
      stream id is synthesised, and truthy audio is sent as one media
      message for the current stream; a failed synthesis is logged and the
      loop goes on. */
  function EventStep(s: MediaSession, t: Turn): (r: Reading)
    ensures !r.keepReading ==> !r.session.recognizerOpen
    ensures r.session.(recognizerOpen := s.recognizerOpen, replyRequests := s.replyRequests,
                       synthRequests := s.synthRequests, outbox := s.outbox) == s
    ensures s.replyRequests <= r.session.replyRequests && s.synthRequests <= r.session.synthRequests
    ensures s.outbox <= r.session.outbox && (!s.socketOpen ==> r.session.outbox == s.outbox)
  {
    if !s.recognizerOpen then Reading(s, false)
    else if t.event.results == [] then Reading(s, true)
    else
      var result := t.event.results[0];
      if result.alternatives == [] then Reading(s.(recognizerOpen := false), false)
      else if result.isPartial then Reading(s, true)
      else
        var asked := s.(replyRequests := s.replyRequests + [result.alternatives[0]]);
        match t.reply
        case ReplyFailed => Reading(asked.(recognizerOpen := false), false)
        case Replied(response) =>
          if response != "" && Truthy(asked.streamSid) then
            var synthesising := asked.(synthRequests := asked.synthRequests + [response]);
            match t.synth
            case SynthFailed => Reading(synthesising, true)
            case Synthesized(audio) =>
              Reading(if audio != "" then SendStep(synthesising, MediaOut(synthesising.streamSid, audio)) else synthesising, true)
          else Reading(asked, true)
  }

  /** The loop over the recogniser's results, until it ends. It touches
      neither the stream nor the transformer nor the socket; requests and
      sent messages only grow, and nothing is sent on a closed socket. */
  function ReadStream(s: MediaSession, turns: seq<Turn>): (r: MediaSession)
    ensures r.(recognizerOpen := s.recognizerOpen, replyRequests := s.replyRequests,
               synthRequests := s.synthRequests, outbox := s.outbox) == s
    ensures s.replyRequests <= r.replyRequests && s.synthRequests <= r.synthRequests
    ensures s.outbox <= r.outbox && (!s.socketOpen ==> r.outbox == s.outbox)
    decreases |turns|
  {
    if turns == [] then s
    else
      var step := EventStep(s, turns[0]);
      if step.keepReading then ReadStream(step.session, turns[1..]) else step.session
  }

  // ---------------------------------------------------------------------
  // Properties

  /** When setup fails nothing any listener does has an effect. */
  lemma FailedSetupIsInert(data: Parsed, recognizerStarts: bool, t: Turn)
    ensures MessageStep(Setup(false), data, recognizerStarts) == Setup(false)
    ensures CloseStep(Setup(false)) == Setup(false)
    ensures EventStep(Setup(false), t).session == Setup(false)
  {
  }

  /** `start` with a `start` object records the stream id, marks the stream
      started and opens a recognition stream when one starts; without the
      object the handler throws and nothing changes. */
  lemma StartRecordsStream(s: MediaSession, msg: Message, recognizerStarts: bool)
    requires s.installed && msg.event == "start"
    ensures var r := MessageStep(s, Json(msg), recognizerStarts);
      && (msg.start.Some? ==>
            && r.streamSid == msg.start.value.streamSid && r.isStreamStarted
            && r.recognizerOpen == (s.recognizerOpen || recognizerStarts)
            && r.(streamSid := s.streamSid, isStreamStarted := s.isStreamStarted,
                  recognizerOpen := s.recognizerOpen) == s)
      && (msg.start.None? ==> r == s)
  {
  }

  /** `stop` runs `cleanupResources`, like `close` and `error`. */
  lemma StopCleansUp(s: MediaSession, msg: Message, recognizerStarts: bool)
    requires s.installed && msg.event == "stop"
    ensures MessageStep(s, Json(msg), recognizerStarts) == CleanupStep(s)
    ensures MessageStep(s, Json(msg), recognizerStarts) == CloseStep(s)
  {
  }

  /** Media reaches the transformer only while the stream is started and
      the transformer has not ended, and only with a payload. */
  lemma MediaGated(s: MediaSession, msg: Message, recognizerStarts: bool)
    requires s.installed && msg.event == "media"
    ensures var r := MessageStep(s, Json(msg), recognizerStarts);
      && (HasPayload(msg) && s.isStreamStarted && !s.transformerEnded ==>
            r == s.(frames := s.frames + FrameOutput(Json(msg))))
      && (!HasPayload(msg) || !s.isStreamStarted || s.transformerEnded ==> r == s)
  {
  }

  /** `stop` ends the transformer for good: no frame is pushed after it,
      even when a later `start` marks the stream started again. */
  lemma {:induction false} NoFramesAfterStop(s: MediaSession, msgs: seq<Parsed>, starts: seq<bool>)
    requires s.transformerEnded && |starts| == |msgs|
    ensures Messages(s, msgs, starts).frames == s.frames
    ensures Messages(s, msgs, starts).transformerEnded
    decreases |msgs|
  {
    if msgs != [] {
      NoFramesAfterStop(MessageStep(s, msgs[0], starts[0]), msgs[1..], starts[1..]);
    }
  }

  /** Messages received one after another. Messages never send anything
      nor reach the generator; a closed socket stays closed. */
  function Messages(s: MediaSession, msgs: seq<Parsed>, starts: seq<bool>): (r: MediaSession)
    requires |starts| == |msgs|
    ensures r.installed == s.installed
    ensures r.outbox == s.outbox && r.replyRequests == s.replyRequests && r.synthRequests == s.synthRequests
    ensures s.frames <= r.frames
    ensures !s.socketOpen ==> !r.socketOpen
    decreases |msgs|
  {
    if msgs == [] then s else Messages(MessageStep(s, msgs[0], starts[0]), msgs[1..], starts[1..])
  }

  /** Once the socket is closed it stays closed and nothing more is sent,
      whatever messages and recogniser results follow. */
  lemma ClosedStaysClosed(s: MediaSession, data: Parsed, recognizerStarts: bool, t: Turn)
    requires !s.socketOpen
    ensures !MessageStep(s, data, recognizerStarts).socketOpen
    ensures !CloseStep(s).socketOpen
    ensures !EventStep(s, t).session.socketOpen
    ensures EventStep(s, t).session.outbox == s.outbox
  {
  }

  /** Text that is not JSON, and a message whose event is none of `start`,
      `media` and `stop`, leave the session unchanged. */
  lemma UnknownMessageIgnored(s: MediaSession, data: Parsed, recognizerStarts: bool)
    requires data.Malformed? || data.msg.event !in {"start", "media", "stop"}
    ensures MessageStep(s, data, recognizerStarts) == s
  {
  }

  /** Partial results never reach the generator and change nothing. */
  lemma PartialsNotAnswered(s: MediaSession, t: Turn)
    requires s.recognizerOpen && t.event.results != []
    requires t.event.results[0].isPartial && t.event.results[0].alternatives != []
    ensures EventStep(s, t) == Reading(s, true)
  {
  }

  /** Every final result is answered, without trimming and without
      debounce; the reply is voiced only for a truthy stream id, with the
      stream id current at that moment. */
  lemma FinalAnswered(s: MediaSession, t: Turn, response: string, audio: string)
    requires s.recognizerOpen && t.event.results != [] && t.event.results[0].alternatives != []
    requires !t.event.results[0].isPartial
    requires t.reply == Replied(response) && t.synth == Synthesized(audio)
    ensures var r := EventStep(s, t);
      && r.keepReading
      && r.session.replyRequests == s.replyRequests + [t.event.results[0].alternatives[0]]
      && r.session.synthRequests == s.synthRequests + (if response != "" && Truthy(s.streamSid) then [response] else [])
      && r.session.outbox ==
           s.outbox + (if response != "" && Truthy(s.streamSid) && audio != "" && s.socketOpen
                       then [MediaOut(s.streamSid, audio)] else [])
  {
  }

  /** A rejected reply ends the recognition loop; a failed synthesis does not. */
  lemma ReplyFailureEndsLoop(s: MediaSession, t: Turn)
    requires s.recognizerOpen && t.event.results != [] && t.event.results[0].alternatives != []
    requires !t.event.results[0].isPartial
    ensures t.reply.ReplyFailed? ==> !EventStep(s, t).keepReading
    ensures t.reply.Replied? && t.synth.SynthFailed? ==>
      EventStep(s, t).keepReading && EventStep(s, t).session.outbox == s.outbox
  {
  }

  /** `cleanupResources` can run any number of times. */
  lemma CleanupIdempotent(s: MediaSession)
    ensures CloseStep(CloseStep(s)) == CloseStep(s)
  {
  }

  // ---------------------------------------------------------------------
  // The class

  class MediaStreamSession {
    const audioTransformer: AudioTransformer
    const installed: bool
    var streamSid: Option<string>
    var isStreamStarted: bool
    var socketOpen: bool
    var outbox: seq<Outbound>
    var recognizerOpen: bool
    var replyRequests: seq<string>
    var synthRequests: seq<string>

    function State(): MediaSession
      reads this, audioTransformer
    {
      MediaSession(installed, streamSid, isStreamStarted, audioTransformer.readable, audioTransformer.ended,
                   socketOpen, outbox, recognizerOpen, replyRequests, synthRequests)
    }

    /** The transformer is only ever written JSON, so it is never destroyed. */
    ghost predicate Valid()
      reads this, audioTransformer
    {
      !audioTransformer.destroyed
    }

    constructor(servicesOk: bool)
      ensures Valid() && State() == Setup(servicesOk) && fresh(audioTransformer)
    {
      audioTransformer := new AudioTransformer();
      installed := servicesOk;
      streamSid := None;
      isStreamStarted := false;
      socketOpen := servicesOk;
      outbox := [];
      recognizerOpen := false;
      replyRequests := [];
      synthRequests := [];
    }

    method CleanupResources()
      requires Valid()
      modifies this, audioTransformer
      ensures Valid()
      ensures State() == CleanupStep(old(State()))
    {
      audioTransformer.End();
      socketOpen := false;
      streamSid := None;
      isStreamStarted := false;
    }

    method OnMessage(data: Parsed, recognizerStarts: bool)
      requires Valid()
      modifies this, audioTransformer
      ensures Valid()
      ensures State() == MessageStep(old(State()), data, recognizerStarts)
    {
      if !installed || data.Malformed? {
        return;
      }
      var msg := data.msg;
      if msg.event == "start" {
        if msg.start.None? {
          return;
        }
        streamSid := msg.start.value.streamSid;
        isStreamStarted := true;
        var audioStream := audioTransformer.CreateReadableStream();
        if recognizerStarts {
          recognizerOpen := true;
        }
      } else if msg.event == "media" && HasPayload(msg) {
        if !isStreamStarted {
          return;
        }
        var accepted := audioTransformer.Write(data);
      } else if msg.event == "stop" {
        CleanupResources();
      }
    }

    method OnClose()
      requires Valid()
      modifies this, audioTransformer
      ensures Valid()
      ensures State() == CloseStep(old(State()))
    {
      if installed {
        CleanupResources();
      }
    }

    method Send(m: Outbound)
      modifies this`outbox
      ensures State() == SendStep(old(State()), m)
    {
      if socketOpen {
        outbox := outbox + [m];
      }
    }

    method OnRecognizerEvent(t: Turn) returns (keepReading: bool)
      modifies this`recognizerOpen, this`replyRequests, this`synthRequests, this`outbox
      ensures Reading(State(), keepReading) == EventStep(old(State()), t)
    {
      if !recognizerOpen {
        return false;
      }
      if t.event.results == [] {
        return true;
      }
      var result := t.event.results[0];
      if result.alternatives == [] {
        recognizerOpen := false;
        return false;
      }
      if result.isPartial {
        return true;
      }
      var transcript := result.alternatives[0];
      replyRequests := replyRequests + [transcript];
      if t.reply.ReplyFailed? {
        recognizerOpen := false;
        return false;
      }
      var response := t.reply.text;
      keepReading := true;
      if response != "" && Truthy(streamSid) {
        synthRequests := synthRequests + [response];
        if t.synth.Synthesized? && t.synth.audio != "" {
          Send(MediaOut(streamSid, t.synth.audio));
        }
      }
    }

    /** The `for await` loop of the recognition stream. */
    method ReadTranscriptionStream(turns: seq<Turn>)
      modifies this`recognizerOpen, this`replyRequests, this`synthRequests, this`outbox
      ensures State() == ReadStream(old(State()), turns)
    {
      var i := 0;
      var keepReading := true;
      while i < |turns| && keepReading
        invariant 0 <= i <= |turns|
        invariant keepReading ==> ReadStream(old(State()), turns) == ReadStream(State(), turns[i..])
        invariant !keepReading ==> ReadStream(old(State()), turns) == State()
      {
        keepReading := OnRecognizerEvent(turns[i]);
        i := i + 1;
      }
    }
  }
}
