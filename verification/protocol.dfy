/** The media-stream protocol as the two session handlers see it, and the
    results of the collaborators they call. JSON parsing, UTF-8 decoding and
    base64 decoding happen outside the model: an inbound datum carries what
    parsing it yields, and a media payload carries its decoded bytes. */
module Protocol {
  import opened Wrappers
  import opened G711

  /** `msg.start`; `streamSid` may be missing. */
  datatype StartInfo = StartInfo(streamSid: Option<string>)

  /** `msg.media`; `payload` is `None` when the payload string is missing or
      empty (falsy) and otherwise holds the bytes its base64 text decodes to. */
  datatype MediaInfo = MediaInfo(payload: Option<seq<Byte>>)

  /** A parsed JSON message. A value that is not an object, or has no
      `event`, is a message whose event matches none of the known names. */
  datatype Message = Message(event: string, start: Option<StartInfo>, media: Option<MediaInfo>)

  /** The outcome of `JSON.parse`. */
  datatype Parsed = Malformed | Json(msg: Message)

  /** What the socket hands to the message listener. */
  datatype RawData =
    | BufferData(parsed: Parsed)
    | StringData(parsed: Parsed)
    | Uint8ArrayData(parsed: Parsed)
    | UnsupportedData

  /** `msg.media?.payload` is truthy. */
  predicate HasPayload(m: Message)
  {
    m.media.Some? && m.media.value.payload.Some?
  }

  /** Messages written to the socket, in send order. */
  datatype Outbound =
    | MediaOut(streamSid: Option<string>, payload: string)   // {event:'media', streamSid, media:{payload}}
    | StopTtsOut(streamSid: Option<string>)                  // {event:'stop_tts', streamSid}

  /** `Results[0]` of a recogniser event: its `IsPartial` flag and the
      transcripts of its alternatives. */
  datatype RecognitionResult = RecognitionResult(isPartial: bool, alternatives: seq<string>)

  /** One event of the recogniser's result stream; `results` is empty when
      the event has no `Transcript.Results[0]`. */
  datatype RecognizerEvent = RecognizerEvent(results: seq<RecognitionResult>)

  /** A call made to `generateResponse`: the transcript and the session id
      passed with it. */
  datatype ReplyRequest = ReplyRequest(transcript: string, sessionId: Option<string>)

  /** What `responseService.generateResponse` settled to. */
  datatype ReplyOutcome = Replied(text: string) | ReplyFailed

  /** What `ttsService.synthesize` settled to: a base64 payload, or a rejection. */
  datatype SynthOutcome = Synthesized(audio: string) | SynthFailed
}
