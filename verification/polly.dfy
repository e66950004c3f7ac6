/** `PollyTTSService.synthesize`: a memo cache keyed by voice and text in
    front of Amazon Polly. What Polly answers is a parameter; the µ-law
    encoding and base64 text of the audio it returns are taken as given. */
module PollyTts {
  import opened Wrappers
  import opened JsText

  /** The parameters of `synthesizeSpeech`. */
  datatype PollyRequest = PollyRequest(
    engine: string, outputFormat: string, sampleRate: string,
    text: string, textType: string, voiceId: string)

  /** What the Polly call settled to: a rejection, a response without
      `AudioStream.buffer`, or audio, given as the base64 text of its µ-law
      encoding. */
  datatype PollyReply = PollyFailed(message: string) | MissingAudio | Audio(encoded: string)

  /** The outcome of one `synthesize` call: its result, the request sent to
      Polly if one was, and the cache afterwards. */
  datatype Synthesis = Synthesis(result: Result<string>, request: Option<PollyRequest>, cache: map<string, string>)

  function CacheKey(voiceId: string, text: string): string
  {
    voiceId + ":" + text
  }

  function Ssml(text: string): string
  {
    "<speak>" + text + "</speak>"
  }

  function RequestFor(voiceId: string, sampleRate: nat, text: string): (p: PollyRequest)
    ensures p.engine == "neural" && p.outputFormat == "pcm" && p.textType == "ssml" && p.voiceId == voiceId
    ensures AllDigits(p.sampleRate) && DecimalValue(p.sampleRate) == sampleRate
    ensures |p.text| == |text| + 15 && p.text[7..|p.text| - 8] == text
  {
    DecimalRoundTrip(sampleRate);
    PollyRequest("neural", "pcm", NatToDecimal(sampleRate), Ssml(text), "ssml", voiceId)
  }

  /** `synthesize` on a cache: a hit answers from the cache without asking
      Polly; a miss asks Polly, caches the audio it returns and answers with
      it; a response without audio is "Invalid Polly response"; every
      failure is rethrown and caches nothing. */
  function SynthesizeStep(cache: map<string, string>, voiceId: string, sampleRate: nat, text: string, reply: PollyReply): (s: Synthesis)
    ensures CacheKey(voiceId, text) in cache ==> s == Synthesis(Ok(cache[CacheKey(voiceId, text)]), None, cache)
    ensures CacheKey(voiceId, text) !in cache ==> s.request == Some(RequestFor(voiceId, sampleRate, text))
    ensures s.result.Ok? ==> CacheKey(voiceId, text) in s.cache && s.cache[CacheKey(voiceId, text)] == s.result.value
    ensures s.result.Err? ==> s.cache == cache
    ensures forall k :: k in cache ==> k in s.cache && s.cache[k] == cache[k]
    ensures CacheKey(voiceId, text) !in cache ==>
      match reply
      case Audio(encoded) => s.result == Ok(encoded) && s.cache == cache[CacheKey(voiceId, text) := encoded]
      case MissingAudio => s.result == Err("Invalid Polly response") && s.cache == cache
      case PollyFailed(message) => s.result == Err(message) && s.cache == cache
  {
    var key := CacheKey(voiceId, text);
    if key in cache then Synthesis(Ok(cache[key]), None, cache)
    else
      var request := Some(RequestFor(voiceId, sampleRate, text));
      match reply
      case PollyFailed(message) => Synthesis(Err(message), request, cache)
      case MissingAudio => Synthesis(Err("Invalid Polly response"), request, cache)
      case Audio(encoded) => Synthesis(Ok(encoded), request, cache[key := encoded])
  }

  // ---------------------------------------------------------------------
  // Properties

  /** For one voice the cache key determines the text. */
  lemma CacheKeyInjective(voiceId: string, t1: string, t2: string)
    requires CacheKey(voiceId, t1) == CacheKey(voiceId, t2)
    ensures t1 == t2
  {
    var n := |voiceId| + 1;
    assert t1 == CacheKey(voiceId, t1)[n..];
    assert t2 == CacheKey(voiceId, t2)[n..];
  }

  /** Across voices it does not: a voice id containing ':' can collide with
      another voice and text. */
  lemma CacheKeyAcrossVoices()
    ensures CacheKey("a", "b:c") == CacheKey("a:b", "c")
  {
  }

  /** The call id plays no part: the same text with any Polly answer is a
      hit once the first call succeeded, and answers the same audio. */
  lemma SecondCallHits(cache: map<string, string>, voiceId: string, sampleRate: nat, text: string, first: PollyReply, second: PollyReply)
    requires SynthesizeStep(cache, voiceId, sampleRate, text, first).result.Ok?
    ensures var s1 := SynthesizeStep(cache, voiceId, sampleRate, text, first);
      SynthesizeStep(s1.cache, voiceId, sampleRate, text, second) == Synthesis(s1.result, None, s1.cache)
  {
  }

  // ---------------------------------------------------------------------
  // The class

  class PollyTtsService {
    const voiceId: string
    const sampleRate: nat
    var cache: map<string, string>

    constructor(voiceId: string, sampleRate: nat)
      ensures this.voiceId == voiceId && this.sampleRate == sampleRate && cache == map[]
    {
      this.voiceId := voiceId;
      this.sampleRate := sampleRate;
      cache := map[];
    }

    /** `callId` is accepted and ignored. */
    method Synthesize(text: string, callId: Option<string>, reply: PollyReply) returns (result: Result<string>, request: Option<PollyRequest>)
      modifies this`cache
      ensures Synthesis(result, request, cache) == SynthesizeStep(old(cache), voiceId, sampleRate, text, reply)
    {
      var cacheKey := CacheKey(voiceId, text);
      if cacheKey in cache {
        return Ok(cache[cacheKey]), None;
      }
      request := Some(RequestFor(voiceId, sampleRate, text));
      match reply
      case PollyFailed(message) =>
        result := Err(message);
      case MissingAudio =>
        result := Err("Invalid Polly response");
      case Audio(audioData) =>
        cache := cache[cacheKey := audioData];
        result := Ok(audioData);
    }
  }
}
