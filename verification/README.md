# Voice assistant media-stream core, modelled in Dafny

The server answers phone calls over a media-stream WebSocket. Inbound
messages are `start`, `media` (base64 µ-law audio) and `stop`.

- **Audio path.** An `AudioTransformer` decodes voiced frames to 16-bit PCM
  for a speech recogniser.
- **Turn taking.** A `SpeechManager` debounces the recogniser's partial and
  final transcripts into one utterance per pause. When its timer fires it
  emits `processingTranscript`.
- **Replies.** A `WebSocketHandler` asks a response generator for a reply to
  that utterance. It has the reply synthesised and sends the audio back.
  A final transcript that arrives while the agent speaks stops speech and
  sends `stop_tts` (barge-in).
- **Two handlers.** The `/media-stream` route runs `setupWebSocketHandler`
  from `src/services/audio/index.js` (`src/routes/call.js:3`, `60-63`). That
  handler answers every final transcript at once, and its state lives in
  closure variables. `WebSocketHandler` and `SpeechManager` are exported by
  `src/services/speech/index.js`, which no other file imports. Both handlers
  are modelled.
- **Services around the loop:**
  - a keyword-based and a Groq-backed response generator, and the factory
    that chooses between them;
  - a caching Polly synthesiser;
  - a DynamoDB transcript store;
  - the HTTP security hooks.

Each module follows one source file.

- **Classes.** Objects whose fields the code updates are classes:
  `SpeechManager`, `WebSocketHandler`, the closure state of
  `setupWebSocketHandler` as `MediaStreamSession`, `AudioTransformer`,
  `GroqResponseGenerator` and `PollyTtsService`.
- **State and step functions.** Each class exposes its whole state as a
  datatype value through `State()`. Every method `ensures` that its new state
  (and what it emitted or returned) equals a step function applied to the old
  state. The behaviour is then proved about the step functions, and about
  runs of them, as lemmas.
- **Pure code.** Keyword classification, the factory, cache keys, sort keys,
  the payload check and the error handler are plain functions with lemmas.
- **Collaborators.** Outside code (the recogniser, the Groq client, Polly,
  DynamoDB, the socket, `Math.random`, `Date.now`) supplies results. These
  enter the model as parameters: `ReplyOutcome`, `SynthOutcome`,
  `Completion`, `PollyReply`, `QueryOutcome`, `recognizerStarts`, `random`
  and `now`.
- **Timer.** The debounce timer of `SpeechManager` is a deadline
  (`timerDeadline`, `now + 3000`). The clock reaching it is the `Tick(now)`
  step.
- **`wrappers.dfy`** holds `Option` and `Result`.
- **`jstext.dfy`** holds the JavaScript string operations the code relies on:
  `trim`, ASCII `toLowerCase`, `includes`, truthiness, `String(n)` and
  `parseInt`.
- **`g711.dfy`** holds the µ-law expansion that `alawmulaw.mulaw.decode`
  performs, stated against ITU-T Recommendation G.711.

Turn taking, as the code does it:

- **Debounce wait.** It is 3000 ms (`smanager.js:16`).
- **Barge-in.** It fires on a non-blank final transcript while speaking
  (`smanager.js:51-53`). The handler then sends one `stop_tts` message
  and nothing else (`wshandler.js:49-51`, `141-147`).
- **Failed synthesis.** `stopTTS` is skipped when `synthesize` throws
  (`wshandler.js:119-128`), so the agent stays marked as speaking. Only a
  barge-in (`smanager.js:51-53`) or `cleanup` clears `isSpeaking`, and until
  then every reply is held back. `WsHandler.FailedSynthesisKeepsSpeaking`
  shows it.

## Model

| member | source | states |
|---|---|---|
| Speech.InitialState | src/services/speech/smanager.js:6-25 | the initial turn state (no stream, nothing accumulated, no timer, not speaking) satisfies the turn-state invariant |
| Speech.SpeechManager.constructor | src/services/speech/smanager.js:6-25 | the fresh manager is in the initial state with no events emitted |
| Speech.SetStreamSidStep | src/services/speech/smanager.js:31-35 | the stream is marked started with exactly the given id; the invariant is kept |
| Speech.SpeechManager.IsStreaming | src/services/speech/smanager.js:37-39 | answers whether the stream is started |
| Speech.SpeechManager.IsSpeaking | src/services/speech/smanager.js:41-43 | answers whether the agent is speaking |
| Speech.SpeechManager.SetStreamSid | src/services/speech/smanager.js:31-35 | the new state is `SetStreamSidStep` of the old one |
| Speech.ResetTimerStep | src/services/speech/smanager.js:73-84 | the only pending timer is due `WaitTime` (3000 ms) from now and nothing else changes |
| Speech.SpeechManager.ResetTranscriptTimer | src/services/speech/smanager.js:73-84 | the new state is `ResetTimerStep` of the old one |
| Speech.Accumulate | src/services/speech/smanager.js:60-64 | the result is the old text, then one space when the old text is non-empty, then the fragment, and nothing more |
| Speech.AccumulateStep | src/services/speech/smanager.js:59-71 | the text grows by `Accumulate`, the time stamp is now and the timer is due 3000 ms from now; nothing else changes, and a trimmed non-empty fragment keeps the invariant |
| Speech.SpeechManager.AccumulateTranscript | src/services/speech/smanager.js:59-71 | the new state is `AccumulateStep` of the old one, and the invariant is kept for a trimmed non-empty fragment |
| Speech.AccumulateTrimmed | src/services/speech/smanager.js:59-64 | appending a trimmed non-empty fragment with one space yields non-empty text that stays trimmed |
| Speech.JoinStep | src/services/speech/smanager.js:59-64 | accumulating one more fragment is the same as joining the longer list of fragments with single spaces |
| Speech.JoinEmpty | src/services/speech/smanager.js:60-64 | joined fragments are empty exactly when there are none |
| Speech.JoinTrimmed | src/services/speech/smanager.js:59-64 | joined trimmed non-empty fragments are themselves trimmed |
| Speech.TranscriptStep | src/services/speech/smanager.js:45-57 | handling a transcript keeps the invariant, and emits `ttsStopped` exactly for a non-blank final while speaking |
| Speech.SpeechManager.HandleTranscript | src/services/speech/smanager.js:45-57 | the new state and the emitted events are `TranscriptStep` of the old state; the event log grows by exactly what was emitted |
| Speech.PartialOnlyRestartsTimer | src/services/speech/smanager.js:46 | a partial fragment emits nothing and only moves the timer to now + 3000 |
| Speech.BlankFinalIgnored | src/services/speech/smanager.js:48-49 | a final fragment that trims to nothing leaves the state unchanged and emits nothing |
| Speech.FinalFragmentAppends | src/services/speech/smanager.js:48-71 | a non-blank final fragment is trimmed and appended after one space, stops speech with exactly one `ttsStopped` when speaking, stamps the time and restarts the timer |
| Speech.ProcessStep | src/services/speech/smanager.js:86-102 | processing keeps the invariant |
| Speech.SpeechManager.ProcessAccumulatedTranscript | src/services/speech/smanager.js:86-102 | the new state and the emitted events are `ProcessStep` of the old state; the log grows by what was emitted |
| Speech.TickStep | src/services/speech/smanager.js:79-83 | the timer callback keeps the invariant |
| Speech.SpeechManager.Tick | src/services/speech/smanager.js:79-83 | the new state and the emitted events are `TickStep` of the old state |
| Speech.FireEmitsUtterance | src/services/speech/smanager.js:86-97 | a due timer with text emits exactly one `processingTranscript` carrying that text and clears the text, the timer and the time stamp |
| Speech.FireWithNothingIsQuiet | src/services/speech/smanager.js:87-88 | a timer firing with nothing accumulated emits nothing and changes nothing but the timer |
| Speech.StartTtsStep | src/services/speech/smanager.js:104-109 | starting speech sets speaking, stamps the response time, emits exactly `ttsStarted` and keeps every other field (text, timer, stream id, transcript time) |
| Speech.SpeechManager.StartTts | src/services/speech/smanager.js:104-109 | the new state is `StartTtsStep` of the old one and the log gains `ttsStarted` |
| Speech.StopTtsStep | src/services/speech/smanager.js:111-117 | after stopping the agent is not speaking; `ttsStopped` is emitted exactly when it was speaking; nothing else changes |
| Speech.SpeechManager.StopTts | src/services/speech/smanager.js:111-117 | the new state and the emitted events are `StopTtsStep` of the old state |
| Speech.StopTtsIdempotent | src/services/speech/smanager.js:111-117 | a second stop changes nothing and emits nothing |
| Speech.CleanupStep | src/services/speech/smanager.js:119-128 | cleanup cancels the timer, empties the text, ends speaking, stops the stream and forgets its id; the time stamps are kept and the invariant holds |
| Speech.SpeechManager.Cleanup | src/services/speech/smanager.js:119-128 | the new state is `CleanupStep` of the old one |
| Speech.CleanupIdempotent | src/services/speech/smanager.js:119-128 | cleanup is idempotent and leaves the stream stopped with no id |
| Speech.StreamingChangesOnlyAtStartAndCleanup | src/services/speech/smanager.js:31-39 | transcripts, timer firings and speech start/stop never change whether the stream is started |
| Speech.Run | src/services/speech/smanager.js:45-71 | `handleTranscript` called on each fragment in turn keeps the invariant |
| Speech.RunAccumulates | src/services/speech/smanager.js:45-71 | over any run of fragments the invariant holds and the accumulated text is the non-blank finals, trimmed, joined by single spaces |
| Speech.RunTimer | src/services/speech/smanager.js:45-84 | after a run the timer is due 3000 ms after the last fragment that restarted it |
| Speech.RunBargeIn | src/services/speech/smanager.js:51-117 | a run stops speech exactly when the agent was speaking and a non-blank final arrived, emitting exactly one `ttsStopped` |
| Speech.BurstYieldsOneUtterance | src/services/speech/smanager.js:45-102 | when the clock reaches each fragment before it is handled and no fragment comes 3000 ms or more after the last restart, nothing is emitted during the burst; before 3000 ms after the last restart a tick changes nothing; from then on it emits exactly one utterance holding all the non-blank finals and empties the text |
| Speech.Listen | src/services/speech/smanager.js:45-84 | fragments handled as they arrive, the clock firing a due timer before each, keep the invariant |
| Speech.ListenAccumulates | src/services/speech/smanager.js:45-84 | during such a burst the text is the non-blank finals joined by spaces, no utterance is emitted, and once there is text the timer is due 3000 ms after the last restart |
| Speech.LastRestartOfFinal | src/services/speech/smanager.js:45-71 | a run containing a non-blank final has restarted the timer |
| Speech.FinalTexts | src/services/speech/smanager.js:48-49 | the fragments a run appends are trimmed and non-empty |
| WsHandler.Opened | src/services/speech/wshandler.js:5-10 | a new connection's session satisfies the session invariant |
| WsHandler.WebSocketHandler.constructor | src/services/speech/wshandler.js:5-10 | the handler starts in the `Opened` session with fresh manager and transformer |
| WsHandler.Send | src/services/speech/wshandler.js:132-147 | a send appends the message to the outbox only while the socket is open and changes nothing else |
| WsHandler.React | src/services/speech/wshandler.js:49-51 | exactly one stop signal for the current stream is sent when `ttsStopped` was emitted and the socket is open; nothing else changes |
| WsHandler.WebSocketHandler.SendAudioResponse | src/services/speech/wshandler.js:132-139 | sends one media message with the current stream id and the audio as payload |
| WsHandler.WebSocketHandler.SendStopTts | src/services/speech/wshandler.js:141-147 | sends one `stop_tts` message with the current stream id |
| WsHandler.WebSocketHandler.Deliver | src/services/speech/wshandler.js:49-51 | the `ttsStopped` listener sends a stop signal; nothing listens for `ttsStarted` |
| WsHandler.Decoded | src/services/speech/wshandler.js:17-31 | a datum yields no message exactly when its type is unsupported or its text is not JSON |
| WsHandler.UndecodableIgnored | src/services/speech/wshandler.js:17-40 | unsupported or malformed data changes nothing |
| WsHandler.StartStep | src/services/speech/wshandler.js:78-86 | `start` keeps the session invariant |
| WsHandler.WebSocketHandler.HandleStart | src/services/speech/wshandler.js:78-86 | the new state is `StartStep` of the old one |
| WsHandler.MediaStep | src/services/speech/wshandler.js:149-155 | media before `start` changes nothing; while streaming the transformer's output for it is appended to the frames and nothing else changes |
| WsHandler.StartRecordsStream | src/services/speech/wshandler.js:78-86 | `start` records the stream id and starts streaming whether or not the recogniser starts, and a `start` without its object does nothing |
| WsHandler.WebSocketHandler.HandleMedia | src/services/speech/wshandler.js:149-155 | the new state is `MediaStep` of the old one |
| WsHandler.MediaGatedByStream | src/services/speech/wshandler.js:149-155 | media before `start` changes nothing; while streaming it reaches the transformer, which pushes one chunk exactly when the payload is present and not silent |
| WsHandler.StopThenMediaDropped | src/services/speech/wshandler.js:149-160 | after `stop` the stream is stopped and later media is dropped |
| WsHandler.CleanupSession | src/services/speech/wshandler.js:172-175 | the turn state becomes `CleanupStep` of the old one and `services.cleanup` runs once exactly when it exists; nothing else changes |
| WsHandler.WebSocketHandler.Cleanup | src/services/speech/wshandler.js:172-175 | the new state is `CleanupSession` of the old one |
| WsHandler.MessageStep | src/services/speech/wshandler.js:54-76 | dispatching a message keeps the session invariant; `StopIsCleanup` and `UnknownEventIgnored` give the `stop` and default branches |
| WsHandler.StopIsCleanup | src/services/speech/wshandler.js:157-160 | `stop` (dispatched at lines 63-65) runs `cleanup`: the session becomes exactly `CleanupSession` of it |
| WsHandler.UnknownEventIgnored | src/services/speech/wshandler.js:66-67 | an event other than `start`, `media` and `stop` leaves the session unchanged |
| WsHandler.WebSocketHandler.HandleMessage | src/services/speech/wshandler.js:54-76 | the new state is `MessageStep` of the old one |
| WsHandler.ReceiveStep | src/services/speech/wshandler.js:17-40 | the message listener keeps the session invariant |
| WsHandler.WebSocketHandler.OnMessage | src/services/speech/wshandler.js:17-40 | the new state is `ReceiveStep` of the old one |
| WsHandler.EventStep | src/services/speech/wshandler.js:90-99 | a closed stream stops reading; an event without results changes nothing and reading goes on; a result without alternatives closes the stream; otherwise its first alternative and partial flag go to `TranscriptStep`, whose new turn state is kept and whose `ttsStopped` sends one stop signal, and reading goes on |
| WsHandler.WebSocketHandler.OnRecognizerEvent | src/services/speech/wshandler.js:90-99 | the new state and whether reading goes on are `EventStep` of the old state |
| WsHandler.BargeInSendsStop | src/services/speech/wshandler.js:90-99 | a non-blank final while speaking stops speech and sends exactly one stop signal; any other event sends nothing |
| WsHandler.ReadStream | src/services/speech/wshandler.js:88-105 | reading a stream of events keeps the session invariant |
| WsHandler.WebSocketHandler.HandleTranscriptionStream | src/services/speech/wshandler.js:88-105 | the loop leaves the state `ReadStream` gives for the events |
| WsHandler.ReadStreamStopsAtBadEvent | src/services/speech/wshandler.js:88-105 | the loop ignores every event after the first result without alternatives, and the stream is closed |
| WsHandler.ResponseStep | src/services/speech/wshandler.js:107-130 | handling an utterance keeps the session invariant |
| WsHandler.WebSocketHandler.HandleTranscriptProcessing | src/services/speech/wshandler.js:107-130 | the new state is `ResponseStep` of the old one |
| WsHandler.ReplyVoiced | src/services/speech/wshandler.js:107-125 | a non-empty reply while silent sends the audio and then the stop signal for the current stream, records both requests and ends speaking |
| WsHandler.ReplyHeldBack | src/services/speech/wshandler.js:116 | while speaking, or with an empty or failed reply, only the reply request is recorded |
| WsHandler.FailedSynthesisKeepsSpeaking | src/services/speech/wshandler.js:118-128 | a synthesis failure after speech started leaves the agent speaking and sends nothing |
| WsHandler.TimerStep | src/services/speech/wshandler.js:45-47 | a timer firing, with the reply it triggers, keeps the session invariant |
| WsHandler.WebSocketHandler.OnTimer | src/services/speech/wshandler.js:45-47 | the new state is `TimerStep` of the old one |
| WsHandler.CloseStep | src/services/speech/wshandler.js:162-165 | closing leaves a valid session |
| WsHandler.WebSocketHandler.HandleClose | src/services/speech/wshandler.js:162-165 | the new state is `CloseStep` of the old one |
| WsHandler.WebSocketHandler.HandleError | src/services/speech/wshandler.js:167-170 | an error runs cleanup: the new state is `CleanupSession` of the old one |
| WsHandler.ClosedSocketIsSilent | src/services/speech/wshandler.js:132-147 | nothing reaches a closed socket from recogniser events, replies or timers |
| WsHandler.CloseAfterClose | src/services/speech/wshandler.js:162-175 | a second close leaves the turn state as the first did; the socket is closed and streaming stopped |
| MediaStream.Setup | src/services/audio/index.js:11-35 | the socket stays open and listeners are installed exactly when the services are created |
| MediaStream.MediaStreamSession.constructor | src/services/audio/index.js:11-35 | the session starts as `Setup` says, with a fresh transformer |
| MediaStream.FailedSetupIsInert | src/services/audio/index.js:31-35 | after a failed setup no message, close or recogniser event has any effect |
| MediaStream.MessageStep | src/services/audio/index.js:38-144 | a message never sends, asks for a reply, or uninstalls the listeners; frames only grow, and not at all once the transformer has ended; a closed socket stays closed |
| MediaStream.UnknownMessageIgnored | src/services/audio/index.js:38-143 | text that is not JSON, and an event other than `start`, `media` and `stop`, leave the session unchanged |
| MediaStream.StartRecordsStream | src/services/audio/index.js:42-49 | `start` with its object records the stream id, marks the stream started and opens recognition when it starts, changing nothing else; without the object nothing changes |
| MediaStream.StopCleansUp | src/services/audio/index.js:137-140 | `stop` runs `cleanupResources`, the same as `close` and `error` |
| MediaStream.Messages | src/services/audio/index.js:38-144 | messages in sequence never send or ask for a reply, keep the listeners installed, only add frames and keep a closed socket closed |
| MediaStream.MediaStreamSession.OnMessage | src/services/audio/index.js:38-144 | the new state is `MessageStep` of the old one |
| MediaStream.MediaGated | src/services/audio/index.js:130-135 | media with a payload reaches the transformer only while the stream is started and the transformer not ended; otherwise nothing changes |
| MediaStream.NoFramesAfterStop | src/services/audio/index.js:137-162 | once the transformer has ended no later message pushes a frame |
| MediaStream.MediaStreamSession.CleanupResources | src/services/audio/index.js:158-172 | the new state is `CleanupStep` of the old one |
| MediaStream.CleanupStep | src/services/audio/index.js:158-172 | the transformer is ended, the socket closed, the stream id forgotten and the stream stopped; nothing else changes |
| MediaStream.CloseStep | src/services/audio/index.js:147-156 | `close` and `error` run `cleanupResources` when the listeners are installed, and otherwise change nothing |
| MediaStream.MediaStreamSession.OnClose | src/services/audio/index.js:147-156 | the new state is `CloseStep` of the old one |
| MediaStream.CleanupIdempotent | src/services/audio/index.js:158-172 | closing twice leaves the same session as closing once |
| MediaStream.ClosedStaysClosed | src/services/audio/index.js:163-166 | once closed, the socket stays closed and nothing more is sent |
| MediaStream.SendStep | src/services/audio/index.js:81-87 | a send appends the message to the outbox only while the socket is open |
| MediaStream.MediaStreamSession.Send | src/services/audio/index.js:81-87 | the new state is `SendStep` of the old one |
| MediaStream.EventStep | src/services/audio/index.js:54-124 | reading stops only with the recognition stream closed; only the requests, the outbox and the stream flag change, the first three only by growing, and nothing is sent on a closed socket |
| MediaStream.MediaStreamSession.OnRecognizerEvent | src/services/audio/index.js:54-124 | the new state and whether reading goes on are `EventStep` of the old state |
| MediaStream.MediaStreamSession.ReadTranscriptionStream | src/services/audio/index.js:52-128 | the loop leaves the state `ReadStream` gives for the events |
| MediaStream.ReadStream | src/services/audio/index.js:52-128 | the loop leaves stream, transformer and socket alone; requests and sent messages only grow, and nothing is sent on a closed socket |
| MediaStream.PartialsNotAnswered | src/services/audio/index.js:57-60 | a partial result changes nothing |
| MediaStream.FinalAnswered | src/services/audio/index.js:62-88 | every final result is answered untrimmed; synthesis is requested exactly when the reply and the stream id are truthy; the audio goes out exactly when the reply, the stream id and the audio are non-empty and the socket is open |
| MediaStream.ReplyFailureEndsLoop | src/services/audio/index.js:69-127 | a rejected reply ends the recognition loop; a failed synthesis is logged and reading goes on |
| Transformer.IsSilent | src/services/audio/transformer.js:39-42 | a buffer is silent exactly when every byte equals the first |
| Transformer.ProcessAudioChunk | src/services/audio/transformer.js:44-47 | the output has two bytes per input byte, and each little-endian pair is the decoded µ-law sample |
| Transformer.Int16RoundTrip | src/services/audio/transformer.js:46 | the two bytes written for a 16-bit sample read back as that sample |
| Transformer.FrameOutput | src/services/audio/transformer.js:17-37 | a message yields at most one chunk, exactly when it is media with a payload that is not silent, and that chunk is twice the payload's length |
| Transformer.AudioTransformer.constructor | src/services/audio/transformer.js:8-11 | a new transformer has pushed nothing and is neither ended nor destroyed |
| Transformer.AudioTransformer.CreateReadableStream | src/services/audio/transformer.js:13-15 | the readable stream is the transformer itself |
| Transformer.AudioTransformer.Transform | src/services/audio/transformer.js:17-37 | parsed chunks push `FrameOutput`; a parse failure reports an error and destroys the stream |
| Transformer.AudioTransformer.Write | src/services/audio/transformer.js:17-37 | a write is accepted exactly while the stream is neither ended nor destroyed, and then transforms the chunk |
| Transformer.AudioTransformer.End | src/services/audio/index.js:160-162 | after `end` the stream is ended |
| Transformer.VoicedFrameDecodes | src/services/audio/transformer.js:17-47 | each sample of a voiced frame's chunk is the G.711 value of its code word scaled by four |
| G711.DecodeMatchesG711 | src/services/audio/transformer.js:44-47 | the decoder used is the G.711 µ-law expansion scaled by four |
| G711.DecodeSampleRange | src/services/audio/transformer.js:44-47 | every decoded sample lies in -32124..32124 and so fits 16 bits |
| G711.DecodeOddSymmetric | src/services/audio/transformer.js:44-47 | code words differing only in the sign bit decode to opposite values |
| G711.DecodeMonotonePositive | src/services/audio/transformer.js:44-47 | in the positive half a larger code word decodes to a smaller value |
| BasicGenerator.Responses | src/services/response/basic-generator.js:8-35 | every stored category has at least one reply |
| BasicGenerator.PickIndex | src/services/response/basic-generator.js:74 | the random index is in range |
| BasicGenerator.GetRandomResponse | src/services/response/basic-generator.js:68-75 | the reply belongs to a stored category; a key inherited from `Object.prototype` yields `undefined`; any other category yields the first acknowledgment |
| BasicGenerator.Classify | src/services/response/basic-generator.js:40-61 | the first matching rule decides: greeting exactly with a greeting word; clarification exactly with a question word and no greeting word (so "bye?" is clarification); closing exactly with a closing word and neither of the others; acknowledgment exactly when no keyword is present |
| BasicGenerator.ChosenCategoryIsOwn | src/services/response/basic-generator.js:42-75 | the categories the rules choose are never inherited keys, so a reply is always a string |
| BasicGenerator.GenerateResponse | src/services/response/basic-generator.js:38-66 | the reply is a non-empty member of the category the keyword rules choose |
| BasicGenerator.GetConversationHistory | src/services/response/basic-generator.js:77-79 | the history is always empty |
| BasicGenerator.NeverConfirms | src/services/response/basic-generator.js:20-61 | no confirmation reply is ever given |
| BasicGenerator.CaseInsensitive | src/services/response/basic-generator.js:40 | the rules ignore case |
| BasicGenerator.ThisIsGreeting | src/services/response/basic-generator.js:42-46 | any transcript containing "this" is greeted, since it contains "hi" |
| BasicGenerator.GoodbyeImpliesBye | src/services/response/basic-generator.js:55-56 | the "goodbye" test is subsumed by the "bye" test |
| BasicGenerator.NoKeywordAcknowledged | src/services/response/basic-generator.js:61 | a transcript with no keyword is acknowledged |
| BasicGenerator.UnknownCategoryFallsBack | src/services/response/basic-generator.js:69-73 | a category without stored replies yields "I understand what you're saying.", or `undefined` when it names an inherited property |
| GeneratorFactory.CreateGenerator | src/services/response/factory.js:7-23 | the Groq generator is chosen exactly when the type is "groq" in any case and an API key is present |
| GeneratorFactory.DefaultIsBasic | src/services/response/factory.js:8 | a missing or empty type means the basic generator |
| GeneratorFactory.TypeCaseInsensitive | src/services/response/factory.js:10 | the type is matched regardless of case |
| GroqGenerator.LastN | src/services/response/groq-generator.js:74 | `slice(-n)` is the last n elements, or all of them |
| GroqGenerator.Context | src/services/response/groq-generator.js:72-75 | the context is the most recent five exchanges, or all of them when fewer |
| GroqGenerator.ContextMessages | src/services/response/groq-generator.js:38-41 | each exchange becomes a user message then an assistant message, in order |
| GroqGenerator.BuildMessages | src/services/response/groq-generator.js:33-46 | a request holds the system prompt, the context pairs, then the transcript as the user's message |
| GroqGenerator.RequestShape | src/services/response/groq-generator.js:27-46 | a request holds between 2 and 12 messages, starting with the system prompt and ending with the transcript |
| GroqGenerator.Stored | src/services/response/groq-generator.js:77-90 | storing appends the exchange and keeps the last ten |
| GroqGenerator.StoreAll | src/services/response/groq-generator.js:77-90 | a history within ten entries stays within ten, and ends with the last exchange stored |
| GroqGenerator.HistoryOf | src/services/response/groq-generator.js:73 | a session's history, or the empty one for an unknown session |
| GroqGenerator.HistoryIsLastTen | src/services/response/groq-generator.js:77-90 | after any sequence of exchanges the history is exactly the last ten |
| GroqGenerator.LastNOfAppend | src/services/response/groq-generator.js:85-87 | trimming before or after appending gives the same last n |
| GroqGenerator.GroqResponseGenerator.constructor | src/services/response/groq-generator.js:7-23 | a new generator has no history and keeps the configured model, temperature and token limit |
| GroqGenerator.GroqResponseGenerator.GetConversationHistory | src/services/response/groq-generator.js:72-75 | the context is the session's last five exchanges, or empty for an unknown session |
| GroqGenerator.GroqResponseGenerator.StoreExchange | src/services/response/groq-generator.js:77-90 | only the session's history changes, to `Stored` of the old one |
| GroqGenerator.GroqResponseGenerator.ClearHistory | src/services/response/groq-generator.js:92-94 | only the session's entry is removed |
| GroqGenerator.GroqResponseGenerator.GenerateResponse | src/services/response/groq-generator.js:25-65 | the request is built from the configuration and the session's context; the reply is `ResponseFor`; the exchange is stored exactly when a session id is given and the call succeeded |
| GroqGenerator.ResponseAsWritten | src/services/response/groq-generator.js:52-70 | as written, a reply exists exactly when the completion succeeded with non-empty content |
| GroqGenerator.ResponseFor | src/services/response/groq-generator.js:52-70 | the reply is never empty: the completion's content when non-empty, otherwise the basic generator's reply |
| GroqGenerator.FallbackRejectsAsWritten | src/services/response/groq-generator.js:52-70 | as written, missing content, empty content and a failed call all reject, where the intended fallback gives a reply |
| GroqGenerator.AsWrittenAgreesWhenItResolves | src/services/response/groq-generator.js:52-59 | whenever the written code resolves, the intended reply is the same |
| PollyTts.RequestFor | src/services/tts/polly.js:24-31 | the neural, PCM, SSML request names the voice, carries the sample rate in decimal and wraps the text in `<speak>` |
| PollyTts.SynthesizeStep | src/services/tts/polly.js:18-49 | a cache hit answers without a request; a miss requests the speech and then answers the audio and caches it under the key, fails with "Invalid Polly response" when the buffer is missing, or rethrows Polly's error, caching nothing on failure; no entry is lost or altered |
| PollyTts.PollyTtsService.constructor | src/services/tts/polly.js:5-16 | a new service has an empty cache |
| PollyTts.PollyTtsService.Synthesize | src/services/tts/polly.js:18-49 | result, request and new cache are `SynthesizeStep` of the old cache |
| PollyTts.CacheKeyInjective | src/services/tts/polly.js:19 | for one voice the cache key determines the text |
| PollyTts.CacheKeyAcrossVoices | src/services/tts/polly.js:19 | across voices keys collide when the voice id contains ':' |
| PollyTts.SecondCallHits | src/services/tts/polly.js:18-44 | after a success the same text is answered from the cache whatever Polly would say |
| Transcripts.ItemFor | src/services/dynamodb/index.js:26-37 | the item copies the data, its sort key is the time in decimal, '#', then the actor, and its timestamp is that instant |
| Transcripts.SortKey | src/services/dynamodb/index.js:32 | the key is the time stamp, '#', then the actor; a time stamp without '#' is what splitting at '#' gives back |
| Transcripts.SaveTranscript | src/services/dynamodb/index.js:24-51 | the put command carries the table and the item, and a failure of the call is passed on |
| Transcripts.SplitHead | src/services/dynamodb/index.js:66-67 | `split('#')[0]` is the longest prefix without '#' |
| Transcripts.HasTimePrefix | src/services/dynamodb/index.js:66-68 | holds exactly when every character before the first '#' is a digit |
| Transcripts.Time | src/services/dynamodb/index.js:66-68 | a numeric prefix stands for its decimal value; any other prefix is taken as 0 |
| Transcripts.SortKeyPrefixIsTime | src/services/dynamodb/index.js:26-68 | splitting a saved sort key recovers the time it was saved |
| Transcripts.SavedItemsOrderByTime | src/services/dynamodb/index.js:24-69 | a record saved later sorts no earlier |
| Transcripts.SortBy | src/services/dynamodb/index.js:65-69 | the array ends sorted by the key and is a permutation of its old contents |
| Transcripts.SortByTime | src/services/dynamodb/index.js:65-69 | the array ends sorted by the time prefix and is a permutation of its old contents |
| Transcripts.GetCallTranscripts | src/services/dynamodb/index.js:53-75 | the query selects the call; a failure or missing items is an error; otherwise the result is a permutation of the items, sorted by time when all prefixes are numeric |
| Security.ContentLength | src/middleware/security.js:30 | a missing or empty header counts as length 0 |
| Security.CheckPayload | src/middleware/security.js:29-39 | the hook throws "Payload too large" exactly when the parsed length exceeds 5 MiB |
| Security.LimitIsInclusive | src/middleware/security.js:31 | a decimal length is accepted exactly when it is at most 5 MiB |
| Security.MissingHeaderAccepted | src/middleware/security.js:30 | a missing or empty header is accepted |
| Security.HandleError | src/middleware/security.js:42-56 | the status is the error's non-zero status code or 500; a 500 hides the message; the stack is sent exactly in development |
| Security.OversizeIsInternalError | src/middleware/security.js:37-47 | an oversized payload reaches the client as a 500 "Internal Server Error" |
| Security.ClientErrorShowsMessage | src/middleware/security.js:45-47 | an error with a status other than 500 shows its own message |
| Security.WithSecurityHeaders | src/middleware/security.js:22-26 | the three security headers are set to their fixed values and every other header is kept (names compared as written, not lower-cased) |

## Left out

- **Outside the core.** Logging, `console` output, real timers,
  `Date.now` and `Math.random` are replaced by the `now` and `random`
  parameters. The socket, the recogniser, the Groq client, Polly and DynamoDB
  are represented only by their results, passed in as parameters.
- **Interleaving.** Each listener runs as one atomic step. Interleavings of
  listeners at an `await` (for example a transcript arriving while
  `synthesize` is pending) are not modelled.
- **Decoding.** JSON parsing, UTF-8 decoding and base64 decoding happen
  outside the model. A socket datum carries its parsed message, or
  `Malformed`, and a media payload carries its decoded bytes.
- **Second `start`.** A second `start` on a live connection starts a second
  recognition stream in the code. The model keeps one `recognizerOpen` flag,
  so two streams reading at once are not represented.
- **Unmodelled fields.** `turnCounter`, `minResponseInterval` and the
  `getTimestamp` strings are never read by the core.
- **µ-law encoding and Polly audio.** The µ-law encoding of Polly's PCM and
  the base64 text of the audio are left out. A successful Polly answer is
  given as its finished encoded text.
- **Node.js internals.** Buffer pooling of `Buffer.from(...).buffer` and odd
  byte counts in `Int16Array` are not modelled.
- **Write errors.** A write after `end()` raises an error event in Node.js.
  The model only reports that the write was refused.
- `JsText.ToLower`: lower-cases ASCII letters only, where JavaScript uses the
  full Unicode case mapping.
- **Temperature.** The Groq temperature is kept as a configuration value and
  not otherwise interpreted.
- **Time stamps.** Exchange time stamps and the saved item's ISO-8601
  `timestamp` text are represented by an opaque string and by an `Instant`
  holding the epoch milliseconds. Their rendering as text is not modelled.
- `Transcripts.SortByTime`: states sortedness and permutation but not
  stability. Items whose sort-key prefix is not a number compare as `NaN`
  in JavaScript, so `sort` gives them no defined order. The model
  gives them key 0, and `GetCallTranscripts` promises sortedness only when
  every prefix is numeric.
- **`catch` of the basic `generateResponse`.** It only triggers for a
  non-string transcript. The model's transcripts are strings, so its
  apology reply is never produced.
- **Missing `Transcript` field.** An alternative without a `Transcript`
  field passes `undefined` on, where the model always has a string. A result
  without alternatives is modelled: it ends the loop.
- **Rate limiting and non-numeric statuses.** The rate-limit plugin
  (`security.js:8-19`) is configuration of a library. Invalid or non-numeric
  status codes in the error handler are not modelled.
- **Other source files.** `src/services/transcribe`, `src/services/storage`,
  the routes and `src/server.js` are not part of this model.

## Findings

| source | as written | input that shows it | evidently intended | confidence | as-written member | corrected member |
|---|---|---|---|---|---|---|
| src/services/response/groq-generator.js:52-70 | `getFallbackResponse` constructs `BasicResponseGenerator`, which the file never imports, so it throws a `ReferenceError`; the `catch` calls it again, so `generateResponse` rejects whenever the fallback is needed | a completion with no content or empty content (`Completed(None)`, `Completed(Some(""))`), or a failed completion call | fall back to the basic generator's reply (awaited, so the stored exchange holds text) and resolve with it | not executed | GroqGenerator.ResponseAsWritten (exhibited by GroqGenerator.FallbackRejectsAsWritten) | GroqGenerator.ResponseFor |
