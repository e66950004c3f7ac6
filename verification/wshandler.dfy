/** `WebSocketHandler`: one media-stream connection wired to a speech
    manager, an audio transformer, a recogniser, a reply generator and a
    synthesiser.

    Every listener of the source runs here as one atomic step; what a step
    needs from a collaborator (whether the recogniser started, the reply,
    the synthesised audio, the clock) is a parameter. The value `Session`
    is everything the handler, its speech manager and its transformer
    hold; each step is a function on it, and each method of the class is
    tied to its step function. */
module WsHandler {
  import opened Wrappers
  import opened JsText
  import opened G711
  import opened Protocol
  import opened Transformer
  import opened Speech

  datatype Session = Session(
    /** The speech manager's state. */
    turn: TurnState,
    /** The PCM chunks the transformer has pushed to the recogniser. */
    frames: seq<seq<Byte>>,
    /** Messages sent on the socket, in order. */
    outbox: seq<Outbound>,
    socketOpen: bool,
    /** A recognition stream is running and its results are being read. */
    recognizerOpen: bool,
    /** Calls made to `generateResponse`, in order. */
    replyRequests: seq<ReplyRequest>,
    /** Texts handed to `synthesize`, in order. */
    synthRequests: seq<string>,
    /** `services.cleanup` exists. */
    hasServicesCleanup: bool,
    /** How often `services.cleanup` has run. */
    servicesCleanups: nat)

  predicate ValidSession(s: Session)
  {
    ValidState(s.turn)
  }

  function Opened(hasServicesCleanup: bool, now: int): (s: Session)
    ensures ValidSession(s)
  {
    Session(InitialState(now), [], [], true, false, [], [], hasServicesCleanup, 0)
  }

  /** `socket.send`: a send on a closed socket is dropped. */
  function Send(s: Session, m: Outbound): (r: Session)
    ensures r.outbox == s.outbox + (if s.socketOpen then [m] else [])
    ensures r.(outbox := s.outbox) == s
  {
    if s.socketOpen then s.(outbox := s.outbox + [m]) else s
  }

  /** The `ttsStopped` listener: a stop signal carrying the current stream
      id. No listener is registered for `ttsStarted`. */
  function React(s: Session, emitted: seq<SpeechEvent>): (r: Session)
    ensures r.outbox == s.outbox + (if TtsStopped in emitted && s.socketOpen then [StopTtsOut(s.turn.streamSid)] else [])
    ensures r.(outbox := s.outbox) == s
  {
    if TtsStopped in emitted then Send(s, StopTtsOut(s.turn.streamSid)) else s
  }

  /** The message a socket datum carries, or `None` when it is of an
      unsupported type or is not JSON (the error is logged and dropped). */
  function Decoded(raw: RawData): (m: Option<Message>)
    ensures m.None? <==> raw.UnsupportedData? || raw.parsed.Malformed?
  {
    match raw
    case UnsupportedData => None
    case _ => if raw.parsed.Malformed? then None else Some(raw.parsed.msg)
  }

  /** `handleStart`: a message without `start` throws before anything
      changes; otherwise the stream id is recorded and a recognition stream
      is started over the transformer, and it opens when the recogniser
      starts. */
  function StartStep(s: Session, msg: Message, recognizerStarts: bool): (r: Session)
    ensures ValidSession(s) ==> ValidSession(r)
  {
    if msg.start.None? then s
    else s.(turn := SetStreamSidStep(s.turn, msg.start.value.streamSid),
            recognizerOpen := s.recognizerOpen || recognizerStarts)
  }

  /** `handleMedia`: dropped before the stream starts, otherwise written to
      the transformer. */
  function MediaStep(s: Session, msg: Message): (r: Session)
    ensures !s.turn.isStreamStarted ==> r == s
    ensures s.turn.isStreamStarted ==> r.frames == s.frames + FrameOutput(Json(msg))
    ensures r.(frames := s.frames) == s
  {
    if !s.turn.isStreamStarted then s else s.(frames := s.frames + FrameOutput(Json(msg)))
  }

  /** `cleanup`. */
  function CleanupSession(s: Session): (r: Session)
    ensures ValidSession(r)
    ensures r.turn == CleanupStep(s.turn)
    ensures r.servicesCleanups == s.servicesCleanups + (if s.hasServicesCleanup then 1 else 0)
    ensures r.(turn := s.turn, servicesCleanups := s.servicesCleanups) == s
  {
    s.(turn := CleanupStep(s.turn),
       servicesCleanups := s.servicesCleanups + (if s.hasServicesCleanup then 1 else 0))
  }

  /** `handleMessage`: dispatch on `event`; unknown events are logged. */
  function MessageStep(s: Session, msg: Message, recognizerStarts: bool): (r: Session)
    ensures ValidSession(s) ==> ValidSession(r)
  {
    if msg.event == "start" then StartStep(s, msg, recognizerStarts)
    else if msg.event == "media" then MediaStep(s, msg)
    else if msg.event == "stop" then CleanupSession(s)
    else s
  }

  /** The socket's `message` listener. */
  function ReceiveStep(s: Session, raw: RawData, recognizerStarts: bool): (r: Session)
    ensures ValidSession(s) ==> ValidSession(r)
  {
    match Decoded(raw)
    case None => s
    case Some(msg) => MessageStep(s, msg, recognizerStarts)
  }

  /** The session after a recogniser event, and whether reading goes on. */
  datatype Reading = Reading(session: Session, keepReading: bool)

  /** One turn of the `for await` loop over the recogniser's results. An
      event without a first result is skipped; a first result without
      alternatives makes reading its transcript throw, which ends the loop;
      otherwise the first alternative goes to `handleTranscript`, partial
      or final. */
  function EventStep(s: Session, ev: RecognizerEvent, now: int): (r: Reading)
    ensures ValidSession(s) ==> ValidSession(r.session)
    ensures !r.keepReading ==> !r.session.recognizerOpen
    ensures !s.recognizerOpen ==> r == Reading(s, false)
    ensures s.recognizerOpen && ev.results == [] ==> r == Reading(s, true)
    ensures s.recognizerOpen && ev.results != [] && ev.results[0].alternatives == [] ==>
      r == Reading(s.(recognizerOpen := false), false)
    ensures s.recognizerOpen && ev.results != [] && ev.results[0].alternatives != [] ==>
      var step := TranscriptStep(s.turn, ev.results[0].alternatives[0], ev.results[0].isPartial, now);
      && r.keepReading && r.session.turn == step.next
      && r.session.outbox ==
           s.outbox + (if TtsStopped in step.emitted && s.socketOpen then [StopTtsOut(step.next.streamSid)] else [])
      && r.session.(turn := s.turn, outbox := s.outbox) == s
  {
    if !s.recognizerOpen then Reading(s, false)
    else if ev.results == [] then Reading(s, true)
    else
      var result := ev.results[0];
      if result.alternatives == [] then Reading(s.(recognizerOpen := false), false)
      else
        var step := TranscriptStep(s.turn, result.alternatives[0], result.isPartial, now);
        Reading(React(s.(turn := step.next), step.emitted), true)
  }

  /** A recogniser event and the time it arrives. */
  datatype TimedEvent = TimedEvent(at: int, event: RecognizerEvent)

  /** `handleTranscriptionStream`: the events read in order until the loop
      ends. */
  function ReadStream(s: Session, events: seq<TimedEvent>): (r: Session)
    ensures ValidSession(s) ==> ValidSession(r)
    decreases |events|
  {
    if events == [] then s
    else
      var step := EventStep(s, events[0].event, events[0].at);
      if step.keepReading then ReadStream(step.session, events[1..]) else step.session
  }

  /** `handleTranscriptProcessing`: ask for a reply for the utterance under
      the current stream id; a failed request is logged. A non-empty reply
      is voiced only when the agent is not already speaking: speech starts,
      the reply is synthesised, non-empty audio is sent as one media
      message, and speech stops, which sends the stop signal. When synthesis
      fails the error is logged and speech is never stopped. */
  function ResponseStep(s: Session, transcript: string, reply: ReplyOutcome, synth: SynthOutcome, now: int): (r: Session)
    ensures ValidSession(s) ==> ValidSession(r)
  {
    var asked := s.(replyRequests := s.replyRequests + [ReplyRequest(transcript, s.turn.streamSid)]);
    match reply
    case ReplyFailed => asked
    case Replied(text) =>
      if text == "" || asked.turn.isSpeaking then asked
      else
        var speaking := asked.(turn := StartTtsStep(asked.turn, now).next, synthRequests := asked.synthRequests + [text]);
        match synth
        case SynthFailed => speaking
        case Synthesized(audio) =>
          var sent := if audio != "" then Send(speaking, MediaOut(speaking.turn.streamSid, audio)) else speaking;
          var stop := StopTtsStep(sent.turn);
          React(sent.(turn := stop.next), stop.emitted)
  }

  /** The clock reaches `now`: when the debounce timer fires with an
      utterance, the `processingTranscript` listener runs on it. */
  function TimerStep(s: Session, now: int, reply: ReplyOutcome, synth: SynthOutcome): (r: Session)
    ensures ValidSession(s) ==> ValidSession(r)
  {
    var tick := TickStep(s.turn, now);
    var ticked := s.(turn := tick.next);
    if tick.emitted != [] && tick.emitted[0].ProcessingTranscript? then
      ResponseStep(ticked, tick.emitted[0].text, reply, synth, now)
    else ticked
  }

  /** The socket's `close` listener. */
  function CloseStep(s: Session): (r: Session)
    ensures ValidSession(r)
  {
    CleanupSession(s.(socketOpen := false))
  }

  // ---------------------------------------------------------------------
  // Properties

  /** Data of an unsupported type and text that is not JSON change nothing. */
  lemma UndecodableIgnored(s: Session, raw: RawData, recognizerStarts: bool)
    requires raw.UnsupportedData? || raw.parsed.Malformed?
    ensures ReceiveStep(s, raw, recognizerStarts) == s
  {
  }

  /** Media before `start` (or after `stop`) is dropped and changes
      nothing; media while streaming reaches the transformer, which pushes
      one decoded chunk exactly when the payload is present and not silent. */
  lemma MediaGatedByStream(s: Session, msg: Message, recognizerStarts: bool)
    requires msg.event == "media"
    ensures var r := MessageStep(s, msg, recognizerStarts);
      && (!s.turn.isStreamStarted ==> r == s)
      && (s.turn.isStreamStarted ==>
            r == s.(frames := s.frames + FrameOutput(Json(msg)))
            && (|r.frames| == |s.frames| + 1 <==> HasPayload(msg) && !IsSilent(msg.media.value.payload.value)))
  {
  }

  /** After `stop` the stream is no longer started, so later media is
      dropped, until the next `start`. */
  lemma StopThenMediaDropped(s: Session, stop: Message, media: Message, recognizerStarts: bool)
    requires stop.event == "stop" && media.event == "media"
    ensures var stopped := MessageStep(s, stop, recognizerStarts);
      && !stopped.turn.isStreamStarted && stopped.turn.streamSid == None
      && MessageStep(stopped, media, recognizerStarts) == stopped
  {
  }

  /** `stop` is exactly the session cleanup. */
  lemma StopIsCleanup(s: Session, msg: Message, recognizerStarts: bool)
    requires msg.event == "stop"
    ensures MessageStep(s, msg, recognizerStarts) == CleanupSession(s)
  {
  }

  /** An event other than `start`, `media` and `stop` is only logged: the
      session is unchanged. */
  lemma UnknownEventIgnored(s: Session, msg: Message, recognizerStarts: bool)
    requires msg.event !in {"start", "media", "stop"}
    ensures MessageStep(s, msg, recognizerStarts) == s
  {
  }

  /** `start` records the stream id whether or not the recogniser starts,
      and only a `start` with a `start` object does anything. */
  lemma StartRecordsStream(s: Session, msg: Message, recognizerStarts: bool)
    requires msg.event == "start"
    ensures var r := MessageStep(s, msg, recognizerStarts);
      && (msg.start.None? ==> r == s)
      && (msg.start.Some? ==>
            r.turn.isStreamStarted && r.turn.streamSid == msg.start.value.streamSid
            && r.recognizerOpen == (s.recognizerOpen || recognizerStarts)
            && r.frames == s.frames && r.outbox == s.outbox)
  {
  }

  /** Barge-in: a non-blank final transcript while the agent speaks stops
      speech and sends one stop signal for the current stream; any other
      recogniser event sends nothing. */
  lemma BargeInSendsStop(s: Session, ev: RecognizerEvent, now: int)
    requires s.recognizerOpen && ev.results != [] && ev.results[0].alternatives != []
    ensures var r := EventStep(s, ev, now);
      var result := ev.results[0];
      var barge := s.turn.isSpeaking && !result.isPartial && !AllWhitespace(result.alternatives[0]);
      && r.keepReading
      && r.session.outbox == s.outbox + (if barge && s.socketOpen then [StopTtsOut(s.turn.streamSid)] else [])
      && (barge ==> !r.session.turn.isSpeaking)
  {
    var result := ev.results[0];
    if result.isPartial {
      PartialOnlyRestartsTimer(s.turn, result.alternatives[0], now);
    } else if AllWhitespace(result.alternatives[0]) {
      BlankFinalIgnored(s.turn, result.alternatives[0], now);
    } else {
      FinalFragmentAppends(s.turn, result.alternatives[0], now);
    }
  }

  /** A voiced reply: with a non-empty reply, the agent not speaking and
      synthesis yielding non-empty audio, the audio and then the stop
      signal go out for the current stream and speech is over again. */
  lemma ReplyVoiced(s: Session, transcript: string, text: string, audio: string, now: int)
    requires s.socketOpen && !s.turn.isSpeaking && text != "" && audio != ""
    ensures var r := ResponseStep(s, transcript, Replied(text), Synthesized(audio), now);
      && r.outbox == s.outbox + [MediaOut(s.turn.streamSid, audio), StopTtsOut(s.turn.streamSid)]
      && r.replyRequests == s.replyRequests + [ReplyRequest(transcript, s.turn.streamSid)]
      && r.synthRequests == s.synthRequests + [text]
      && !r.turn.isSpeaking
  {
  }

  /** A reply is never voiced over speech already playing, nor when it is
      empty or failed: only the request is recorded. */
  lemma ReplyHeldBack(s: Session, transcript: string, reply: ReplyOutcome, synth: SynthOutcome, now: int)
    requires s.turn.isSpeaking || reply.ReplyFailed? || reply.text == ""
    ensures ResponseStep(s, transcript, reply, synth, now) ==
      s.(replyRequests := s.replyRequests + [ReplyRequest(transcript, s.turn.streamSid)])
  {
  }

  /** When synthesis fails after speech started, the agent stays marked as
      speaking and nothing is sent; only a barge-in or a cleanup clears it,
      and until then every later reply is held back. */
  lemma FailedSynthesisKeepsSpeaking(s: Session, transcript: string, text: string, now: int)
    requires !s.turn.isSpeaking && text != ""
    ensures var r := ResponseStep(s, transcript, Replied(text), SynthFailed, now);
      r.turn.isSpeaking && r.outbox == s.outbox
  {
  }

  /** Nothing reaches a closed socket: neither a recogniser event nor a
      reply nor the timer sends anything. */
  lemma ClosedSocketIsSilent(s: Session, ev: RecognizerEvent, now: int, transcript: string, reply: ReplyOutcome, synth: SynthOutcome)
    requires !s.socketOpen
    ensures EventStep(s, ev, now).session.outbox == s.outbox
    ensures ResponseStep(s, transcript, reply, synth, now).outbox == s.outbox
    ensures TimerStep(s, now, reply, synth).outbox == s.outbox
  {
  }

  /** `cleanup` can run any number of times: the speech state after a
      second `close` is the one after the first, and the stream is over. */
  lemma CloseAfterClose(s: Session)
    ensures CloseStep(CloseStep(s)).turn == CloseStep(s).turn
    ensures !CloseStep(s).socketOpen && !CloseStep(s).turn.isStreamStarted
  {
  }

  /** The loop reads events in order and stops at the first event whose
      first result has no alternatives; nothing after it is read. */
  lemma {:induction false} ReadStreamStopsAtBadEvent(s: Session, events: seq<TimedEvent>, k: int)
    requires 0 <= k < |events|
    requires forall i :: 0 <= i < k ==> events[i].event.results == [] || events[i].event.results[0].alternatives != []
    requires events[k].event.results != [] && events[k].event.results[0].alternatives == []
    ensures ReadStream(s, events) == ReadStream(s, events[..k + 1])
    ensures !ReadStream(s, events).recognizerOpen
    decreases k
  {
    if k == 0 {
      assert events[..1][0] == events[0];
    } else {
      var step := EventStep(s, events[0].event, events[0].at);
      if step.keepReading {
        assert events[1..][..k] == events[..k + 1][1..];
        ReadStreamStopsAtBadEvent(step.session, events[1..], k - 1);
      } else {
        assert events[..k + 1][0] == events[0];
      }
    }
  }

  // ---------------------------------------------------------------------
  // The class

  class WebSocketHandler {
    const speechManager: SpeechManager
    const audioTransformer: AudioTransformer
    const hasServicesCleanup: bool
    var outbox: seq<Outbound>
    var socketOpen: bool
    var recognizerOpen: bool
    var replyRequests: seq<ReplyRequest>
    var synthRequests: seq<string>
    var servicesCleanups: nat

    function State(): Session
      reads this, speechManager, audioTransformer
    {
      Session(speechManager.State(), audioTransformer.readable, outbox, socketOpen, recognizerOpen,
              replyRequests, synthRequests, hasServicesCleanup, servicesCleanups)
    }

    /** The speech state is valid, and the transformer is still accepting
        writes: the handler never ends it and only writes it JSON. */
    ghost predicate Valid()
      reads this, speechManager, audioTransformer
    {
      speechManager.Valid() && !audioTransformer.ended && !audioTransformer.destroyed
    }

    constructor(now: int, hasServicesCleanup: bool)
      ensures Valid() && State() == Opened(hasServicesCleanup, now)
      ensures fresh(speechManager) && fresh(audioTransformer)
    {
      speechManager := new SpeechManager(now);
      audioTransformer := new AudioTransformer();
      this.hasServicesCleanup := hasServicesCleanup;
      outbox := [];
      socketOpen := true;
      recognizerOpen := false;
      replyRequests := [];
      synthRequests := [];
      servicesCleanups := 0;
    }

    method SendAudioResponse(audio: string)
      modifies this`outbox
      ensures State() == Send(old(State()), MediaOut(speechManager.streamSid, audio))
    {
      if socketOpen {
        outbox := outbox + [MediaOut(speechManager.streamSid, audio)];
      }
    }

    method SendStopTts()
      modifies this`outbox
      ensures State() == Send(old(State()), StopTtsOut(speechManager.streamSid))
    {
      if socketOpen {
        outbox := outbox + [StopTtsOut(speechManager.streamSid)];
      }
    }

    /** Delivers what the speech manager emitted to its listeners here. */
    method Deliver(emitted: seq<SpeechEvent>)
      modifies this`outbox
      ensures State() == React(old(State()), emitted)
    {
      if TtsStopped in emitted {
        SendStopTts();
      }
    }

    method HandleStart(msg: Message, recognizerStarts: bool)
      requires Valid()
      modifies this`recognizerOpen, speechManager
      ensures Valid()
      ensures State() == StartStep(old(State()), msg, recognizerStarts)
    {
      if msg.start.None? {
        return;
      }
      speechManager.SetStreamSid(msg.start.value.streamSid);
      var audioStream := audioTransformer.CreateReadableStream();
      if recognizerStarts {
        recognizerOpen := true;
      }
    }

    method HandleMedia(msg: Message)
      requires Valid()
      modifies audioTransformer
      ensures Valid()
      ensures State() == MediaStep(old(State()), msg)
    {
      if !speechManager.IsStreaming() {
        return;
      }
      var accepted := audioTransformer.Write(Json(msg));
    }

    method Cleanup()
      requires Valid()
      modifies this`servicesCleanups, speechManager
      ensures Valid()
      ensures State() == CleanupSession(old(State()))
    {
      speechManager.Cleanup();
      if hasServicesCleanup {
        servicesCleanups := servicesCleanups + 1;
      }
    }

    method HandleMessage(msg: Message, recognizerStarts: bool)
      requires Valid()
      modifies this, speechManager, audioTransformer
      ensures Valid()
      ensures State() == MessageStep(old(State()), msg, recognizerStarts)
    {
      if msg.event == "start" {
        HandleStart(msg, recognizerStarts);
      } else if msg.event == "media" {
        HandleMedia(msg);
      } else if msg.event == "stop" {
        Cleanup();
      }
    }

    method OnMessage(raw: RawData, recognizerStarts: bool)
      requires Valid()
      modifies this, speechManager, audioTransformer
      ensures Valid()
      ensures State() == ReceiveStep(old(State()), raw, recognizerStarts)
    {
      var decoded := Decoded(raw);
      if decoded.Some? {
        HandleMessage(decoded.value, recognizerStarts);
      }
    }

    method OnRecognizerEvent(ev: RecognizerEvent, now: int) returns (keepReading: bool)
      requires Valid()
      modifies this, speechManager
      ensures Valid()
      ensures Reading(State(), keepReading) == EventStep(old(State()), ev, now)
    {
      if !recognizerOpen {
        return false;
      }
      if ev.results == [] {
        return true;
      }
      var result := ev.results[0];
      if result.alternatives == [] {
        recognizerOpen := false;
        return false;
      }
      var emitted := speechManager.HandleTranscript(result.alternatives[0], result.isPartial, now);
      Deliver(emitted);
      keepReading := true;
    }

    method HandleTranscriptionStream(events: seq<TimedEvent>)
      requires Valid()
      modifies this, speechManager
      ensures Valid()
      ensures State() == ReadStream(old(State()), events)
    {
      var i := 0;
      var keepReading := true;
      while i < |events| && keepReading
        invariant 0 <= i <= |events|
        invariant Valid()
        invariant keepReading ==> ReadStream(old(State()), events) == ReadStream(State(), events[i..])
        invariant !keepReading ==> ReadStream(old(State()), events) == State()
      {
        keepReading := OnRecognizerEvent(events[i].event, events[i].at);
        i := i + 1;
      }
    }

    method HandleTranscriptProcessing(transcript: string, reply: ReplyOutcome, synth: SynthOutcome, now: int)
      requires Valid()
      modifies this, speechManager
      ensures Valid()
      ensures State() == ResponseStep(old(State()), transcript, reply, synth, now)
    {
      replyRequests := replyRequests + [ReplyRequest(transcript, speechManager.streamSid)];
      if reply.ReplyFailed? {
        return;
      }
      var response := reply.text;
      if response != "" && !speechManager.IsSpeaking() {
        speechManager.StartTts(now);
        synthRequests := synthRequests + [response];
        if synth.SynthFailed? {
          return;
        }
        var audioResponse := synth.audio;
        if audioResponse != "" {
          SendAudioResponse(audioResponse);
        }
        var emitted := speechManager.StopTts();
        Deliver(emitted);
      }
    }

    method OnTimer(now: int, reply: ReplyOutcome, synth: SynthOutcome)
      requires Valid()
      modifies this, speechManager
      ensures Valid()
      ensures State() == TimerStep(old(State()), now, reply, synth)
    {
      var emitted := speechManager.Tick(now);
      if emitted != [] && emitted[0].ProcessingTranscript? {
        HandleTranscriptProcessing(emitted[0].text, reply, synth, now);
      }
    }

    method HandleClose()
      requires Valid()
      modifies this, speechManager
      ensures Valid()
      ensures State() == CloseStep(old(State()))
    {
      socketOpen := false;
      Cleanup();
    }

    method HandleError()
      requires Valid()
      modifies this, speechManager
      ensures Valid()
      ensures State() == CleanupSession(old(State()))
    {
      Cleanup();
    }
  }
}
