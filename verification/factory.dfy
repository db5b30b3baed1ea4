/**
  `ProviderFactory.create`: from a provider name, given as an enum member
  or as text, to the adapter it builds. The name enum has no Ollama member,
  so the Ollama adapter is never built here.
 */
module Factory {
  import opened Wrappers
  import opened Text
  import opened Errors
  import opened ValueObjects
  import Ollama

  /** The `provider_name` argument: an enum member, or a string still to be parsed. */
  datatype ProviderRef = Named(name: ProviderName) | Text(text: string)

  /** The adapters an application can hold, with what each constructor keeps. */
  datatype Adapter =
    | GeminiAdapter(apiKey: string)
    | OpenAIAdapter(apiKey: string)
    | OllamaAdapter(config: Ollama.Config)

  /**
    `create(provider_name, api_key)`. A string goes through
    `ProviderName.from_string`; its ValueError becomes
    `InvalidProviderError(provider_name)` with no list of alternatives.
    The members Gemini and OpenAI then select their adapters, which keep the
    key as given. The Ollama branch and the final `else` of the source cannot
    be reached, because every member is matched before them.
   */
  function Create(ref: ProviderRef, apiKey: string): (r: Result<Adapter, Raised>)
    ensures r.Success? ==> !r.value.OllamaAdapter? && r.value.apiKey == apiKey
    ensures ref.Named? ==> r.Success?
    ensures ref.Text? ==> (r.Success? <==> Strip(Lower(ref.text)) in ProviderValues)
    ensures ref.Text? && r.Failure? ==> r.error == CaptionError(InvalidProvider(ref.text, []))
    ensures r.Success? ==> (r.value.GeminiAdapter? <==> SelectedName(ref) == Some(Gemini))
  {
    var name :- match ref
      case Named(n) => Success(n)
      case Text(s) =>
        match ProviderNameFromString(s)
        case Success(n) => Success(n)
        case Failure(_) => Failure(CaptionError(NewInvalidProvider(s, None)));
    match name
    case Gemini => Success(GeminiAdapter(apiKey))
    case OpenAI => Success(OpenAIAdapter(apiKey))
  }

  /** The enum member a reference denotes, if any. */
  function SelectedName(ref: ProviderRef): Option<ProviderName> {
    match ref
    case Named(n) => Some(n)
    case Text(s) => if ProviderNameFromString(s).Success? then Some(ProviderNameFromString(s).value) else None
  }

  /** The adapter kind each member selects. */
  function AdapterFor(p: ProviderName, apiKey: string): Adapter {
    match p
    case Gemini => GeminiAdapter(apiKey)
    case OpenAI => OpenAIAdapter(apiKey)
  }

  /**
    A provider's value, in any letter case and with surrounding whitespace,
    selects that provider's adapter, holding the key unchanged.
   */
  lemma CreateFromPadded(p: ProviderName, before: string, name: string, after: string, apiKey: string)
    requires AllSpace(before) && AllSpace(after)
    requires Lower(name) == p.Value()
    ensures Create(Text(before + name + after), apiKey) == Success(AdapterFor(p, apiKey))
  {
    ProviderNameFromPadded(p, before, name, after);
  }

  /**
    "ollama", in any letter case and with any surrounding whitespace, is
    rejected with an `InvalidProviderError` naming the text as given.
   */
  lemma OllamaRejected(before: string, name: string, after: string, apiKey: string)
    requires AllSpace(before) && AllSpace(after)
    requires Lower(name) == "ollama"
    ensures Create(Text(before + name + after), apiKey)
      == Failure(CaptionError(InvalidProvider(before + name + after, [])))
  {
    assert Trimmed(Lower(name));
    LowerPadded(before, name, after);
  }
}
