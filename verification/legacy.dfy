/**
  The first-generation provider module, kept beside the layered one: its
  providers trim the context themselves, return the parsed JSON without
  building an entity, let every exception through unwrapped, and its
  factory lower-cases the name without trimming it. Its `_extract_json` is
  the same text as the new adapters' and is `Extraction.FenceExtract`.
 */
module Legacy {
  import opened Wrappers
  import opened Text
  import opened JsonValues
  import opened Errors
  import opened Entities
  import opened Extraction
  import opened ValueObjects
  import opened Adapters
  import Gemini
  import OpenAI
  import Factory

  /** The model the legacy Gemini provider configures. */
  const GeminiModel: string := "gemini-1.5-flash"

  /**
    The legacy prompt: the context, trimmed, is appended only when it is
    present and not blank.
   */
  function LegacyPrompt(systemPrompt: string, context: Option<string>): (p: string)
    ensures systemPrompt <= p
    ensures |p| > |systemPrompt| <==> context.Some? && !AllSpace(context.value)
    ensures context.Some? && !AllSpace(context.value) ==>
      p[|systemPrompt|..] == ContextLabel + Strip(context.value)
  {
    if context.Some? && context.value != "" && !AllSpace(context.value) then
      systemPrompt + ContextLabel + Strip(context.value)
    else systemPrompt
  }

  /**
    Trimming moved from the provider into `ImageContext`: for every context
    the value object accepts, the legacy prompt equals the new prompt built
    from the normalised context.
   */
  lemma LegacyPromptMatchesNew(systemPrompt: string, context: Option<string>)
    requires NewImageContext(context).Success?
    ensures LegacyPrompt(systemPrompt, context)
      == BuildPrompt(systemPrompt, NewImageContext(context).value.value)
  {
    if context.Some? {
      StripBlank(context.value);
    }
  }

  /** The two classes the legacy factory can build, with the key each receives. */
  datatype LegacyProvider = LegacyGemini(apiKey: string) | LegacyOpenAI(apiKey: string)

  /** The names the legacy factory knows, in its dictionary's order. */
  const LegacyNames: seq<string> := ["gemini", "openai"]

  /**
    `AIProviderFactory.create_provider`: looks the lower-cased name up
    (no trimming); an unknown name raises a ValueError that lists the
    known ones.
   */
  function CreateProvider(providerName: string, apiKey: string): (r: Result<LegacyProvider, Raised>)
    ensures r.Success? <==> Lower(providerName) in LegacyNames
    ensures r.Success? ==> r.value.apiKey == apiKey
    ensures r.Success? ==> (r.value.LegacyGemini? <==> Lower(providerName) == "gemini")
    ensures r.Failure? ==> r.error == ValueError(
      "Unsupported provider: " + providerName + ". Supported providers: " + Join(LegacyNames, ", "))
  {
    var key := Lower(providerName);
    if key == "gemini" then Success(LegacyGemini(apiKey))
    else if key == "openai" then Success(LegacyOpenAI(apiKey))
    else Failure(ValueError("Unsupported provider: " + providerName + ". Supported providers: " + Join(LegacyNames, ", ")))
  }

  /** The legacy error lists the same names, in the same order, as the new one. */
  lemma LegacyListing()
    ensures Join(LegacyNames, ", ") == "gemini, openai" == ProviderListing
  {
    assert LegacyNames[1..] == ["openai"];
  }

  /**
    The two factories disagree on padded names: leading whitespace before
    "gemini" (in any case) is refused by the legacy factory and accepted by
    the new one.
   */
  lemma PaddedNameContrast(before: string, name: string, apiKey: string)
    requires AllSpace(before) && |before| > 0
    requires Lower(name) == "gemini"
    ensures CreateProvider(before + name, apiKey).Failure?
    ensures Factory.Create(Factory.Text(before + name), apiKey) == Success(Factory.GeminiAdapter(apiKey))
  {
    LowerConcat(before, name);
    assert |Lower(before + name)| > |"gemini"|;
    assert before + name + "" == before + name;
    Factory.CreateFromPadded(Gemini, before, name, "", apiKey);
  }

  /**
    The shared tail of both legacy providers: fence extraction and
    `json.loads`, whose decoding error propagates as it is; the parsed value
    is returned without any check.
   */
  function ParseUnvalidated(responseText: string, loads: string -> Result<Json, string>): (r: Result<Json, Raised>)
    ensures r.Success? <==> loads(FenceExtract(responseText)).Success?
    ensures r.Success? ==> r.value == loads(FenceExtract(responseText)).value
    ensures r.Failure? ==> r.error == JsonDecodeError(loads(FenceExtract(responseText)).error)
  {
    match loads(FenceExtract(responseText))
    case Success(data) => Success(data)
    case Failure(msg) => Failure(JsonDecodeError(msg))
  }

  /**
    The new pipeline is the legacy one followed by `from_dict`: whenever the
    new adapters' parse stage yields an entity, the legacy stage yields the
    dictionary it was built from, and a dictionary the legacy stage returns
    that `from_dict` accepts is what the new stage returns.
   */
  lemma NewParseRefinesLegacy(responseText: string, loads: string -> Result<Json, string>)
    ensures ParseFenced(responseText, loads).Success? ==>
      && ParseUnvalidated(responseText, loads).Success?
      && FromDict(ParseUnvalidated(responseText, loads).value) == ParseFenced(responseText, loads)
    ensures (ParseUnvalidated(responseText, loads).Success?
             && FromDict(ParseUnvalidated(responseText, loads).value).Success?) ==>
      ParseFenced(responseText, loads) == FromDict(ParseUnvalidated(responseText, loads).value)
  {
  }

  /** The legacy stage hands back data the entity rules reject. */
  lemma LegacyReturnsUnvalidated(responseText: string, loads: string -> Result<Json, string>, data: Json)
    requires loads(FenceExtract(responseText)) == Success(data)
    requires FromDict(data).Failure?
    ensures ParseUnvalidated(responseText, loads) == Success(data)
    ensures ParseFenced(responseText, loads).Failure?
  {
  }

  /** The legacy Gemini request: the older model, the legacy prompt, the same image part. */
  function GeminiRequest(rt: Runtime, image: seq<Byte>, mimeType: string, context: Option<string>): (q: Gemini.Request)
    ensures q.model == GeminiModel
    ensures q.image == Gemini.ImagePart(mimeType, rt.encode(image))
    ensures q.prompt == LegacyPrompt(rt.systemPrompt, context)
  {
    Gemini.Request(GeminiModel, LegacyPrompt(rt.systemPrompt, context), Gemini.ImagePart(mimeType, rt.encode(image)))
  }

  /**
    The legacy Gemini `generate_caption`: a failed call propagates as the
    library's own exception, and a reply is parsed but not validated.
   */
  function GenerateGemini(rt: Runtime, send: Gemini.Request -> Result<string, string>,
                          image: seq<Byte>, mimeType: string, context: Option<string>): (r: Result<Json, Raised>)
    ensures r.Failure? ==> !r.error.CaptionError?
    ensures var reply := send(GeminiRequest(rt, image, mimeType, context));
      && (reply.Failure? ==> r == Failure(LibraryError(reply.error)))
      && (reply.Success? ==> r == ParseUnvalidated(Strip(reply.value), rt.loads))
      && (reply.Success? ==> (r.Success? <==> rt.loads(FenceExtract(Strip(reply.value))).Success?))
  {
    match send(GeminiRequest(rt, image, mimeType, context))
    case Failure(msg) => Failure(LibraryError(msg))
    case Success(text) => ParseUnvalidated(Strip(text), rt.loads)
  }

  /** The legacy OpenAI request: same model and token limit as the new adapter, with the legacy prompt. */
  function OpenAIRequest(rt: Runtime, image: seq<Byte>, mimeType: string, context: Option<string>): (q: OpenAI.Request)
    ensures q.model == OpenAI.ModelName && q.maxTokens == OpenAI.MaxTokens
    ensures q.messages == [OpenAI.Message("user", [
      OpenAI.TextPart(LegacyPrompt(rt.systemPrompt, context)),
      OpenAI.ImageUrlPart(OpenAI.DataUrl(mimeType, rt.encode(image)))])]
  {
    OpenAI.Request(OpenAI.ModelName,
      [OpenAI.Message("user", [
        OpenAI.TextPart(LegacyPrompt(rt.systemPrompt, context)),
        OpenAI.ImageUrlPart(OpenAI.DataUrl(mimeType, rt.encode(image)))])],
      OpenAI.MaxTokens)
  }

  /**
    The legacy OpenAI `generate_caption`: a failed call propagates as the
    library's exception, a `None` content as the AttributeError of
    `None.strip()`, and a reply is parsed but not validated.
   */
  function GenerateOpenAI(rt: Runtime, send: OpenAI.Request -> Result<Option<string>, string>,
                          image: seq<Byte>, mimeType: string, context: Option<string>): (r: Result<Json, Raised>)
    ensures r.Failure? ==> !r.error.CaptionError?
    ensures var reply := send(OpenAIRequest(rt, image, mimeType, context));
      && (reply.Failure? ==> r == Failure(LibraryError(reply.error)))
      && (reply.Success? && reply.value.None? ==> r == Failure(AttributeError(OpenAI.NoContent)))
      && (reply.Success? && reply.value.Some? ==>
            && r == ParseUnvalidated(Strip(reply.value.value), rt.loads)
            && (r.Success? <==> rt.loads(FenceExtract(Strip(reply.value.value))).Success?))
  {
    match send(OpenAIRequest(rt, image, mimeType, context))
    case Failure(msg) => Failure(LibraryError(msg))
    case Success(None) => Failure(AttributeError(OpenAI.NoContent))
    case Success(Some(text)) => ParseUnvalidated(Strip(text), rt.loads)
  }
}
