/** `BasicResponseGenerator`: keyword rules over the lower-cased transcript
    choose a category, and `Math.random` (a parameter in `[0, 1)`) picks one
    of the category's canned replies. */
module BasicGenerator {
  import opened Wrappers
  import opened JsText

  /** The categories the rules choose among. */
  datatype Category = Greeting | Clarification | Closing | Acknowledgment

  /** The key under which a category's replies are stored. */
  function CategoryKey(c: Category): string
  {
    match c
    case Greeting => "greeting"
    case Clarification => "clarification"
    case Closing => "closing"
    case Acknowledgment => "acknowledgment"
  }

  const GreetingReplies: seq<string> := [
    "Hello! How can I help you today?",
    "Hi there! What can I do for you?",
    "Welcome! How may I assist you?"]

  const AcknowledgmentReplies: seq<string> := [
    "I understand what you're saying.",
    "Got it, I follow you.",
    "I hear you clearly.",
    "I understand your point."]

  /** Stored, but no rule ever chooses it. */
  const ConfirmationReplies: seq<string> := [
    "Sure, I can help with that.",
    "Let me assist you with that.",
    "I'll help you with this."]

  const ClarificationReplies: seq<string> := [
    "Could you please elaborate?",
    "Would you mind explaining more?",
    "Can you provide more details?"]

  const ClosingReplies: seq<string> := [
    "Thank you for talking with me.",
    "Is there anything else you need?",
    "Let me know if you need more help."]

  /** What the `catch` of `generateResponse` returns. */
  const ApologyReply: string := "I'm sorry, I didn't quite catch that. Could you please repeat?"

  /** `this.responses[category]`. */
  function Responses(category: string): (r: Option<seq<string>>)
    ensures r.Some? ==> |r.value| > 0
  {
    if category == "greeting" then Some(GreetingReplies)
    else if category == "acknowledgment" then Some(AcknowledgmentReplies)
    else if category == "confirmation" then Some(ConfirmationReplies)
    else if category == "clarification" then Some(ClarificationReplies)
    else if category == "closing" then Some(ClosingReplies)
    else None
  }

  /** The properties every object literal inherits from `Object.prototype`.
      Looking one of them up in `this.responses` yields a function or an
      object, which is truthy but has no numbered elements. */
  const InheritedKeys: set<string> := {
    "constructor", "__proto__", "__defineGetter__", "__defineSetter__",
    "__lookupGetter__", "__lookupSetter__", "hasOwnProperty", "isPrototypeOf",
    "propertyIsEnumerable", "toLocaleString", "toString", "valueOf"}

  /** `Math.floor(random * length)` for `0 <= random < 1`. */
  function PickIndex(length: nat, random: real): (i: int)
    requires length > 0 && 0.0 <= random < 1.0
    ensures 0 <= i < length
  {
    var x := random * length as real;
    ScaledBelow(random, length as real);
    assert x.Floor as real <= x < x.Floor as real + 1.0;
    assert x.Floor as real < length as real;
    x.Floor
  }

  lemma ScaledBelow(random: real, length: real)
    requires 0.0 <= random < 1.0 && length > 0.0
    ensures 0.0 <= random * length < length
  {
    assert (1.0 - random) * length > 0.0;
  }

  /** `getRandomResponse`: a reply of the category, or the first
      acknowledgment when the category has no replies. For an inherited
      property the lookup is truthy but indexing it yields `undefined`,
      which is `None` here. */
  function GetRandomResponse(category: string, random: real): (r: Option<string>)
    requires 0.0 <= random < 1.0
    ensures Responses(category).Some? ==> r.Some? && r.value in Responses(category).value
    ensures category in InheritedKeys ==> r.None?
    ensures Responses(category).None? && category !in InheritedKeys ==> r == Some(AcknowledgmentReplies[0])
  {
    if category in InheritedKeys then None
    else
      match Responses(category)
      case None => Some(AcknowledgmentReplies[0])
      case Some(replies) => Some(replies[PickIndex(|replies|, random)])
  }

  /** The keyword rules, tried in order on the lower-cased transcript. A
      greeting word always wins; a question word beats a closing word, so
      "bye?" asks for clarification; a closing word beats the
      acknowledgment ("goodbye" counts through the "bye" it contains); the
      acknowledgment is chosen exactly when no keyword is present. */
  function Classify(transcript: string): (c: Category)
    ensures var lower := ToLower(transcript);
      var greets := Includes(lower, "hello") || Includes(lower, "hi") || Includes(lower, "hey");
      var asks := Includes(lower, "?") || Includes(lower, "what") || Includes(lower, "how") || Includes(lower, "why");
      var closes := Includes(lower, "bye") || Includes(lower, "thank");
      && (c == Greeting <==> greets)
      && (c == Clarification <==> !greets && asks)
      && (c == Closing <==> !greets && !asks && closes)
      && (c == Acknowledgment <==>
            && !Includes(lower, "hello") && !Includes(lower, "hi") && !Includes(lower, "hey")
            && !Includes(lower, "?") && !Includes(lower, "what") && !Includes(lower, "how") && !Includes(lower, "why")
            && !Includes(lower, "bye") && !Includes(lower, "goodbye") && !Includes(lower, "thank"))
  {
    var lower := ToLower(transcript);
    assert Includes(lower, "goodbye") ==> Includes(lower, "bye") by {
      if Includes(lower, "goodbye") { GoodbyeImpliesBye(lower); }
    }
    if Includes(lower, "hello") || Includes(lower, "hi") || Includes(lower, "hey") then Greeting
    else if Includes(lower, "?") || Includes(lower, "what") || Includes(lower, "how") || Includes(lower, "why") then Clarification
    else if Includes(lower, "bye") || Includes(lower, "goodbye") || Includes(lower, "thank") then Closing
    else Acknowledgment
  }

  /** `generateResponse`: a reply of the category the rules choose. */
  function GenerateResponse(transcript: string, random: real): (r: string)
    requires 0.0 <= random < 1.0
    ensures r in Responses(CategoryKey(Classify(transcript))).value
    ensures r != ""
  {
    GetRandomResponse(CategoryKey(Classify(transcript)), random).value
  }

  /** `getConversationHistory`: the basic generator keeps none. */
  function GetConversationHistory(): (h: seq<string>)
    ensures h == []
  {
    []
  }

  // ---------------------------------------------------------------------
  // Properties

  /** Every category the rules choose has replies, and none of them is a
      confirmation: the confirmation replies are never given. */
  lemma NeverConfirms(transcript: string, random: real)
    requires 0.0 <= random < 1.0
    ensures GenerateResponse(transcript, random) !in ConfirmationReplies
  {
  }

  /** The rules ignore case. */
  lemma {:induction false} CaseInsensitive(transcript: string)
    ensures Classify(ToLower(transcript)) == Classify(transcript)
  {
    ToLowerIdempotent(transcript);
  }

  /** The substring rules also fire inside words: any transcript containing
      "this" (in any case) contains "hi" and is taken for a greeting, and
      the rules before a category take precedence over it, so a question
      such as "Why is this?" is greeted. */
  lemma {:induction false} ThisIsGreeting(transcript: string)
    requires Includes(ToLower(transcript), "this")
    ensures Classify(transcript) == Greeting
  {
    IncludesSlice(ToLower(transcript), "this", 1, 3);
    assert "this"[1..3] == "hi";
  }

  /** The "goodbye" test never decides anything: "bye" is tested first. */
  lemma {:induction false} GoodbyeImpliesBye(s: string)
    requires Includes(s, "goodbye")
    ensures Includes(s, "bye")
  {
    IncludesSlice(s, "goodbye", 4, 7);
    assert "goodbye"[4..7] == "bye";
  }

  /** A transcript with none of the keywords is acknowledged; "goodbye"
      need not be excluded, since it contains "bye". */
  lemma NoKeywordAcknowledged(transcript: string, random: real)
    requires 0.0 <= random < 1.0
    requires var lower := ToLower(transcript);
      && !Includes(lower, "hello") && !Includes(lower, "hi") && !Includes(lower, "hey")
      && !Includes(lower, "?") && !Includes(lower, "what") && !Includes(lower, "how") && !Includes(lower, "why")
      && !Includes(lower, "bye") && !Includes(lower, "thank")
    ensures GenerateResponse(transcript, random) in AcknowledgmentReplies
  {
    if Includes(ToLower(transcript), "goodbye") {
      GoodbyeImpliesBye(ToLower(transcript));
    }
    assert Classify(transcript) == Acknowledgment;
    assert Responses(CategoryKey(Acknowledgment)) == Some(AcknowledgmentReplies);
  }

  /** An unknown category falls back to the first acknowledgment, unless
      it names a property every object inherits, which yields `undefined`. */
  lemma UnknownCategoryFallsBack(category: string, random: real)
    requires 0.0 <= random < 1.0
    requires category !in ["greeting", "acknowledgment", "confirmation", "clarification", "closing"]
    ensures category !in InheritedKeys ==> GetRandomResponse(category, random) == Some("I understand what you're saying.")
    ensures category in InheritedKeys ==> GetRandomResponse(category, random) == None
  {
  }

  /** The categories the rules choose are never inherited properties, so
      `generateResponse` never yields `undefined`. */
  lemma ChosenCategoryIsOwn(transcript: string, random: real)
    requires 0.0 <= random < 1.0
    ensures CategoryKey(Classify(transcript)) !in InheritedKeys
    ensures GetRandomResponse(CategoryKey(Classify(transcript)), random) == Some(GenerateResponse(transcript, random))
  {
  }
}
