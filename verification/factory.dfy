/** `ResponseGeneratorFactory.createGenerator`: the configured response
    type, case-insensitively, chooses the generator; Groq needs an API key. */
module GeneratorFactory {
  import opened Wrappers
  import opened JsText

  datatype GeneratorKind = BasicKind | GroqKind

  /** `config.response.type || 'basic'`, lower-cased, chooses the
      generator; "groq" without a truthy `config.groq.apiKey`, and any type
      other than "basic" and "groq", fall back to the basic generator. */
  function CreateGenerator(responseType: Option<string>, groqApiKey: Option<string>): (g: GeneratorKind)
    ensures g == GroqKind <==> Truthy(responseType) && ToLower(responseType.value) == "groq" && Truthy(groqApiKey)
  {
    var kind := if Truthy(responseType) then responseType.value else "basic";
    match ToLower(kind)
    case "basic" => BasicKind
    case "groq" => if Truthy(groqApiKey) then GroqKind else BasicKind
    case _ => BasicKind
  }

  /** A missing or empty type means the basic generator, whatever the key. */
  lemma DefaultIsBasic(responseType: Option<string>, groqApiKey: Option<string>)
    requires !Truthy(responseType)
    ensures CreateGenerator(responseType, groqApiKey) == BasicKind
  {
  }

  /** The type is matched without regard to case. */
  lemma {:induction false} TypeCaseInsensitive(t: string, groqApiKey: Option<string>)
    ensures CreateGenerator(Some(ToLower(t)), groqApiKey) == CreateGenerator(Some(t), groqApiKey)
  {
    ToLowerIdempotent(t);
  }
}
