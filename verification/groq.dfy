/** `GroqResponseGenerator`: replies come from a chat-completion service,
    primed with a fixed system prompt and the last exchanges of the same
    session; the generator keeps a bounded history per session. The
    completion service's answer is a parameter, and so is the clock. */
module GroqGenerator {
  import opened Wrappers
  import opened JsText
  import BasicGenerator

  const SystemPrompt: string := "You are an empathetic and professional First Notice of Loss (FNOL) agent for car insurance claims \n        efficiently gathering essential information about their accident. \n        Collect the following information:\n      - Full name\n      - Policy number\n      - Car details\n      - Accident details\n      - Location\n      Ask one question at a time and be supportive."

  /** History kept per session. */
  const MaxStoredExchanges: nat := 10
  /** Exchanges sent along with a request. */
  const ContextExchanges: nat := 5

  datatype Exchange = Exchange(user: string, assistant: string, timestamp: string)

  datatype Role = System | User | Assistant

  datatype ChatMessage = ChatMessage(role: Role, content: string)

  /** The body of `chat.completions.create`. */
  datatype ChatRequest = ChatRequest(model: string, messages: seq<ChatMessage>, temperature: real, maxTokens: int, topP: int)

  /** What the completion call settled to: a rejection, or
      `choices[0]?.message?.content` (`None` when any part is missing). */
  datatype Completion = CompletionFailed | Completed(content: Option<string>)

  /** `s.slice(-n)` for `n > 0`: the last `n` elements, or all of them. */
  function LastN<T>(s: seq<T>, n: nat): (r: seq<T>)
    ensures |r| == if |s| <= n then |s| else n
    ensures r == s[|s| - |r|..]
  {
    if |s| <= n then s else s[|s| - n..]
  }

  /** `getConversationHistory` on a stored history. */
  function Context(history: seq<Exchange>): (ctx: seq<Exchange>)
    ensures |ctx| <= ContextExchanges && |ctx| <= |history|
    ensures ctx == history[|history| - |ctx|..]
    ensures |history| >= ContextExchanges ==> |ctx| == ContextExchanges
    ensures |history| < ContextExchanges ==> ctx == history
  {
    LastN(history, ContextExchanges)
  }

  /** Each exchange becomes a user message followed by an assistant message. */
  function ContextMessages(ctx: seq<Exchange>): (ms: seq<ChatMessage>)
    ensures |ms| == 2 * |ctx|
    ensures forall i :: 0 <= i < |ctx| ==>
      ms[2 * i] == ChatMessage(User, ctx[i].user) && ms[2 * i + 1] == ChatMessage(Assistant, ctx[i].assistant)
  {
    if ctx == [] then []
    else
      var rest := ContextMessages(ctx[1..]);
      var ms := [ChatMessage(User, ctx[0].user), ChatMessage(Assistant, ctx[0].assistant)] + rest;
      assert forall i :: 0 <= i < |ctx| ==>
        ms[2 * i] == ChatMessage(User, ctx[i].user) && ms[2 * i + 1] == ChatMessage(Assistant, ctx[i].assistant) by {
        forall i | 1 <= i < |ctx|
          ensures ms[2 * i] == ChatMessage(User, ctx[i].user) && ms[2 * i + 1] == ChatMessage(Assistant, ctx[i].assistant)
        {
          assert ctx[1..][i - 1] == ctx[i];
          assert ms[2 * i] == rest[2 * (i - 1)];
          assert ms[2 * i + 1] == rest[2 * (i - 1) + 1];
        }
      }
      ms
  }

  /** The messages of a request: the system prompt, the context, then the
      transcript as the user's turn. */
  function BuildMessages(ctx: seq<Exchange>, transcript: string): (ms: seq<ChatMessage>)
    ensures |ms| == 2 * |ctx| + 2
    ensures ms[0] == ChatMessage(System, SystemPrompt)
    ensures ms[|ms| - 1] == ChatMessage(User, transcript)
    ensures forall i :: 0 <= i < |ctx| ==>
      ms[2 * i + 1] == ChatMessage(User, ctx[i].user) && ms[2 * i + 2] == ChatMessage(Assistant, ctx[i].assistant)
  {
    [ChatMessage(System, SystemPrompt)] + ContextMessages(ctx) + [ChatMessage(User, transcript)]
  }

  /** `storeExchange` on one history: append, then drop the oldest when
      there are more than ten. */
  function Stored(history: seq<Exchange>, e: Exchange): (h: seq<Exchange>)
    ensures |h| > 0 && h[|h| - 1] == e
    ensures |history| <= MaxStoredExchanges ==> h == LastN(history + [e], MaxStoredExchanges)
  {
    var pushed := history + [e];
    if |pushed| > MaxStoredExchanges then pushed[1..] else pushed
  }

  /** Exchanges stored one after another: a history within the bound stays
      within it, and ends with the last exchange stored. */
  function StoreAll(history: seq<Exchange>, es: seq<Exchange>): (h: seq<Exchange>)
    ensures |history| <= MaxStoredExchanges ==> |h| <= MaxStoredExchanges
    ensures es != [] ==> |h| > 0 && h[|h| - 1] == es[|es| - 1]
  {
    if es == [] then history else Stored(StoreAll(history, es[..|es| - 1]), es[|es| - 1])
  }

  /** `map.get(key) || []`. */
  function HistoryOf(m: map<string, seq<Exchange>>, sessionId: string): (h: seq<Exchange>)
    ensures sessionId in m ==> h == m[sessionId]
    ensures sessionId !in m ==> h == []
  {
    if sessionId in m then m[sessionId] else []
  }

  /** The reply as written: `getFallbackResponse` names
      `BasicResponseGenerator`, which the module never imports, so every
      call to it throws; the `catch` calls it again and the rejection
      escapes. `None` stands for the rejected promise. */
  function ResponseAsWritten(completion: Completion): (r: Option<string>)
    ensures r.Some? <==> completion.Completed? && Truthy(completion.content)
    ensures r.Some? ==> r.value == completion.content.value
  {
    if completion.Completed? && Truthy(completion.content) then Some(completion.content.value) else None
  }

  /** The reply as intended: the completion's content when it is non-empty,
      otherwise the basic generator's reply to the transcript. */
  function ResponseFor(transcript: string, completion: Completion, random: real): (r: string)
    requires 0.0 <= random < 1.0
    ensures r != ""
    ensures completion.Completed? && Truthy(completion.content) ==> r == completion.content.value
    ensures !(completion.Completed? && Truthy(completion.content)) ==>
      r in BasicGenerator.Responses(BasicGenerator.CategoryKey(BasicGenerator.Classify(transcript))).value
  {
    if completion.Completed? && Truthy(completion.content) then completion.content.value
    else BasicGenerator.GenerateResponse(transcript, random)
  }

  // ---------------------------------------------------------------------
  // Properties

  lemma LastNOfAppend<T>(s: seq<T>, e: T, n: nat)
    requires n > 0
    ensures LastN(LastN(s, n) + [e], n) == LastN(s + [e], n)
  {
    var l := LastN(s, n);
    var a := LastN(l + [e], n);
    var b := LastN(s + [e], n);
    assert |a| == |b|;
    forall i | 0 <= i < |a| ensures a[i] == b[i] {
      if i == |a| - 1 {
      } else {
        assert a[i] == l[|l| + 1 - |a| + i];
      }
    }
  }

  /** However many exchanges a session has had, its history holds the last
      ten of them, oldest first. */
  lemma {:induction false} HistoryIsLastTen(es: seq<Exchange>)
    ensures StoreAll([], es) == LastN(es, MaxStoredExchanges)
  {
    if es != [] {
      var init := es[..|es| - 1];
      HistoryIsLastTen(init);
      LastNOfAppend(init, es[|es| - 1], MaxStoredExchanges);
      assert init + [es[|es| - 1]] == es;
    }
  }

  /** A request carries the system prompt, then at most the five most
      recent exchanges of the session as user/assistant pairs, then the
      transcript. */
  lemma RequestShape(history: seq<Exchange>, transcript: string)
    ensures var ms := BuildMessages(Context(history), transcript);
      && 2 <= |ms| <= 2 * ContextExchanges + 2
      && ms[0].role == System && ms[|ms| - 1] == ChatMessage(User, transcript)
  {
  }

  /** The finding, on concrete inputs: a completion without content, and a
      failed completion, make the written generator reject, where the
      intended one answers with the basic generator's reply. */
  lemma FallbackRejectsAsWritten(transcript: string, random: real)
    requires 0.0 <= random < 1.0
    ensures ResponseAsWritten(Completed(None)) == None
    ensures ResponseAsWritten(Completed(Some(""))) == None
    ensures ResponseAsWritten(CompletionFailed) == None
    ensures ResponseFor(transcript, Completed(None), random) == BasicGenerator.GenerateResponse(transcript, random)
    ensures ResponseFor(transcript, CompletionFailed, random) != ""
  {
  }

  /** Where the written generator resolves, the intended one agrees. */
  lemma AsWrittenAgreesWhenItResolves(transcript: string, completion: Completion, random: real)
    requires 0.0 <= random < 1.0
    requires ResponseAsWritten(completion).Some?
    ensures ResponseFor(transcript, completion, random) == ResponseAsWritten(completion).value
  {
  }

  // ---------------------------------------------------------------------
  // The class

  class GroqResponseGenerator {
    const model: string
    const temperature: real
    const maxTokens: int
    var conversationHistory: map<string, seq<Exchange>>

    /** No session holds more than ten exchanges. */
    ghost predicate Valid()
      reads this
    {
      forall k :: k in conversationHistory ==> |conversationHistory[k]| <= MaxStoredExchanges
    }

    constructor(model: string, temperature: real, maxTokens: int)
      ensures Valid() && conversationHistory == map[]
      ensures this.model == model && this.temperature == temperature && this.maxTokens == maxTokens
    {
      this.model := model;
      this.temperature := temperature;
      this.maxTokens := maxTokens;
      conversationHistory := map[];
    }

    /** At most the five most recent exchanges of the session, oldest first;
        none for a session never seen or cleared. */
    function GetConversationHistory(sessionId: string): (ctx: seq<Exchange>)
      reads this
      ensures |ctx| <= ContextExchanges
      ensures sessionId !in conversationHistory ==> ctx == []
      ensures sessionId in conversationHistory ==>
        var h := conversationHistory[sessionId];
        |ctx| == (if |h| < ContextExchanges then |h| else ContextExchanges) && ctx == h[|h| - |ctx|..]
    {
      Context(HistoryOf(conversationHistory, sessionId))
    }

    method StoreExchange(sessionId: string, userInput: string, assistantResponse: string, timestamp: string)
      requires Valid()
      modifies this`conversationHistory
      ensures Valid()
      ensures conversationHistory ==
        old(conversationHistory)[sessionId := Stored(HistoryOf(old(conversationHistory), sessionId),
                                                     Exchange(userInput, assistantResponse, timestamp))]
    {
      var history := HistoryOf(conversationHistory, sessionId);
      history := history + [Exchange(userInput, assistantResponse, timestamp)];
      if |history| > MaxStoredExchanges {
        history := history[1..];
      }
      conversationHistory := conversationHistory[sessionId := history];
    }

    method ClearHistory(sessionId: string)
      requires Valid()
      modifies this`conversationHistory
      ensures Valid()
      ensures conversationHistory == old(conversationHistory) - {sessionId}
    {
      conversationHistory := conversationHistory - {sessionId};
    }

    /** `generateResponse`, with the fallback as intended. Only a truthy
        session id brings context and memory; a failed completion is
        answered by the fallback and not remembered. */
    method GenerateResponse(transcript: string, sessionId: Option<string>, completion: Completion, random: real, timestamp: string)
      returns (response: string, request: ChatRequest)
      requires Valid() && 0.0 <= random < 1.0
      modifies this`conversationHistory
      ensures Valid()
      ensures response == ResponseFor(transcript, completion, random)
      ensures request.model == model && request.temperature == temperature
      ensures request.maxTokens == maxTokens && request.topP == 1
      ensures request.messages == BuildMessages(
        if Truthy(sessionId) then Context(HistoryOf(old(conversationHistory), sessionId.value)) else [], transcript)
      ensures conversationHistory ==
        if Truthy(sessionId) && completion.Completed?
        then old(conversationHistory)[sessionId.value := Stored(HistoryOf(old(conversationHistory), sessionId.value),
                                                                Exchange(transcript, response, timestamp))]
        else old(conversationHistory)
    {
      var context := if Truthy(sessionId) then GetConversationHistory(sessionId.value) else [];
      request := ChatRequest(model, BuildMessages(context, transcript), temperature, maxTokens, 1);
      if completion.CompletionFailed? {
        response := BasicGenerator.GenerateResponse(transcript, random);
        return;
      }
      if Truthy(completion.content) {
        response := completion.content.value;
      } else {
        response := BasicGenerator.GenerateResponse(transcript, random);
      }
      if Truthy(sessionId) {
        StoreExchange(sessionId.value, transcript, response, timestamp);
      }
    }
  }
}
