/**
  The Ollama adapter: a base URL normalised at construction, one POST to
  `/api/generate` in non-streaming JSON mode, then a two-tier parse (the
  reply as it stands, else the brace slice of it) and entity construction.
 */
module Ollama {
  import opened Wrappers
  import opened Text
  import opened JsonValues
  import opened Errors
  import opened Entities
  import opened Extraction
  import opened Adapters

  const DefaultModel: string := "llava"
  const GeneratePath: string := "/api/generate"

  /** The provider name the adapter's errors carry. */
  const ProviderLabel: string := "ollama"

  /** A constructed adapter: its base URL and model. */
  datatype Config = Config(baseUrl: string, model: string)

  /** `OllamaProvider(base_url, model="llava")`: every trailing `/` is removed from the URL. */
  function NewOllama(baseUrl: string, model: Option<string>): (c: Config)
    ensures c.baseUrl <= baseUrl
    ensures forall i :: |c.baseUrl| <= i < |baseUrl| ==> baseUrl[i] == '/'
    ensures |c.baseUrl| == 0 || c.baseUrl[|c.baseUrl| - 1] != '/'
    ensures c.model == model.GetOr(DefaultModel)
  {
    Config(TrimEndChar(baseUrl, '/'), model.GetOr(DefaultModel))
  }

  /** The URL the request is posted to. */
  function Endpoint(c: Config): string {
    c.baseUrl + GeneratePath
  }

  /** Removing trailing slashes twice is the same as once. */
  lemma NewOllamaIdempotent(baseUrl: string, model: Option<string>)
    ensures var c := NewOllama(baseUrl, model);
      NewOllama(c.baseUrl, Some(c.model)) == c
  {
  }

  /**
    Trailing slashes do not change where requests go: a URL and the same
    URL followed by any number of `/` give one endpoint.
   */
  lemma {:induction false} EndpointIgnoresSlashes(baseUrl: string, slashes: string, model: Option<string>)
    requires forall i :: 0 <= i < |slashes| ==> slashes[i] == '/'
    ensures Endpoint(NewOllama(baseUrl + slashes, model)) == Endpoint(NewOllama(baseUrl, model))
    decreases |slashes|
  {
    if |slashes| > 0 {
      var shorter := slashes[..|slashes| - 1];
      var s := baseUrl + slashes;
      assert s[|s| - 1] == '/';
      assert s[..|s| - 1] == baseUrl + shorter;
      assert TrimEndChar(s, '/') == TrimEndChar(baseUrl + shorter, '/');
      EndpointIgnoresSlashes(baseUrl, shorter, model);
    } else {
      assert baseUrl + slashes == baseUrl;
    }
  }

  /** The JSON body of the request. */
  datatype Payload = Payload(model: string, prompt: string, images: seq<string>, stream: bool, format: string)

  /**
    The request for one image: the adapter's model, the prompt with the
    context appended when truthy, the base64 image as the only element of
    `images`, no streaming, JSON format.
   */
  function MakePayload(c: Config, rt: Runtime, image: seq<Byte>, context: Option<string>): (p: Payload)
    ensures p.model == c.model
    ensures p.images == [rt.encode(image)]
    ensures !p.stream && p.format == "json"
    ensures p.prompt == BuildPrompt(rt.systemPrompt, context)
    ensures PromptContext(rt.systemPrompt, p.prompt) == (if Truthy(context) then context else None)
  {
    PromptRoundTrip(rt.systemPrompt, context);
    Payload(c.model, BuildPrompt(rt.systemPrompt, context), [rt.encode(image)], false, "json")
  }

  /**
    `result.get("response", "")` on the decoded HTTP body: the value under
    "response", "" when the key is missing, and the AttributeError message
    when the body is not a dictionary.
   */
  function ResponseField(body: Json): (r: Result<Json, string>)
    ensures r.Success? <==> body.JObject?
    ensures !body.JObject? ==> r == Failure("'" + TypeName(body) + "' object has no attribute 'get'")
    ensures body.JObject? && "response" !in Keys(body.fields) ==> r == Success(JString(""))
    ensures body.JObject? && "response" in Keys(body.fields) ==>
      r.Success? && ("response", r.value) in body.fields
  {
    match body
    case JObject(fs) => Success(Get(fs, "response").GetOr(JString("")))
    case _ => Failure("'" + TypeName(body) + "' object has no attribute 'get'")
  }

  /** The TypeError `json.loads` raises when handed something that is not text. */
  function NotText(value: Json): string {
    "the JSON object must be str, bytes or bytearray, not " + TypeName(value)
  }

  /**
    The two-tier parse of the reply text: `json.loads(text)`, and only on a
    decoding error `json.loads` of the brace slice. A second failure becomes
    `InvalidCaptionDataError` carrying the reply text.
   */
  function ParseTwoTier(text: string, loads: string -> Result<Json, string>): (r: Result<Json, Raised>)
    ensures loads(text).Success? ==> r == Success(loads(text).value)
    ensures loads(text).Failure? ==>
      && (r.Success? <==> loads(BraceExtract(text)).Success?)
      && (r.Success? ==> r.value == loads(BraceExtract(text)).value)
      && (r.Failure? ==> r.error == CaptionError(InvalidCaptionData(
            "Failed to parse JSON from Ollama response: " + loads(BraceExtract(text)).error, Some(text))))
  {
    match loads(text)
    case Success(data) => Success(data)
    case Failure(_) =>
      match loads(BraceExtract(text))
      case Success(data) => Success(data)
      case Failure(msg) =>
        Failure(CaptionError(InvalidCaptionData("Failed to parse JSON from Ollama response: " + msg, Some(text))))
  }

  /**
    `generate_caption`. `send` is the HTTP exchange: the decoded body of a
    2xx reply, or the message of whatever exception posting, checking the
    status or decoding raised. Those exceptions, and reading "response"
    from a body that is not a dictionary, become
    `AIProviderUnavailableError("ollama", str(e))`. A "response" that is not
    a string makes `json.loads` raise a TypeError that nothing catches. An
    entity failure carries `str()` of the parsed value. The MIME type is not
    sent.
   */
  function Generate(
    c: Config, rt: Runtime, send: (string, Payload) -> Result<Json, string>,
    image: seq<Byte>, mimeType: string, context: Option<string>): (r: Result<CaptionEntity, Raised>)
    ensures var reply := send(Endpoint(c), MakePayload(c, rt, image, context));
      && ((r.Failure? && r.error.CaptionError? && r.error.error.ProviderUnavailable?)
            <==> reply.Failure? || !reply.value.JObject?)
      && (reply.Failure? ==> r == Failure(CaptionError(ProviderUnavailable(ProviderLabel, reply.error))))
      && (reply.Success? && !reply.value.JObject? ==>
            r == Failure(CaptionError(ProviderUnavailable(ProviderLabel, ResponseField(reply.value).error))))
    ensures r.Success? ==> Valid(r.value)
    ensures var reply := send(Endpoint(c), MakePayload(c, rt, image, context));
      reply.Success? && ResponseField(reply.value).Success? ==>
        var field := ResponseField(reply.value).value;
        && (!field.JString? ==> r == Failure(TypeError(NotText(field))))
        && (field.JString? && ParseTwoTier(field.str, rt.loads).Failure? ==>
              r == Failure(ParseTwoTier(field.str, rt.loads).error))
        && (field.JString? && ParseTwoTier(field.str, rt.loads).Success? ==>
              var data := ParseTwoTier(field.str, rt.loads).value;
              && (r.Success? <==> FromDict(data).Success?)
              && (r.Success? ==> r == FromDict(data))
              && (FromDict(data).Failure? ==> r == Failure(ClassifyEntityError(FromDict(data).error, Show(data))))
              && (r.Failure? ==> ParseFailure(r.error))
              && (r.Failure? && r.error.CaptionError? ==> r.error.error.rawData == Some(Show(data))))
  {
    match send(Endpoint(c), MakePayload(c, rt, image, context))
    case Failure(reason) => Failure(CaptionError(ProviderUnavailable(ProviderLabel, reason)))
    case Success(body) =>
      match ResponseField(body)
      case Failure(reason) => Failure(CaptionError(ProviderUnavailable(ProviderLabel, reason)))
      case Success(field) =>
        if !field.JString? then Failure(TypeError(NotText(field)))
        else
          var data :- ParseTwoTier(field.str, rt.loads);
          match FromDict(data)
          case Success(e) => Success(e)
          case Failure(err) => Failure(ClassifyEntityError(err, Show(data)))
  }

  /**
    A model that wraps the dictionary form of a valid entity in chatter (a
    prefix without `{`, a suffix without `}`) still yields the entity, via
    the brace slice, when the whole reply does not parse.
   */
  lemma GenerateThroughChatter(
    c: Config, rt: Runtime, send: (string, Payload) -> Result<Json, string>,
    image: seq<Byte>, mimeType: string, context: Option<string>,
    prefix: string, inner: string, suffix: string, e: CaptionEntity)
    requires Valid(e)
    requires '{' !in prefix && '}' !in suffix
    requires Trimmed(prefix + "{" + inner + "}" + suffix)
    requires send(Endpoint(c), MakePayload(c, rt, image, context)).Success?
    requires ResponseField(send(Endpoint(c), MakePayload(c, rt, image, context)).value)
      == Success(JString(prefix + "{" + inner + "}" + suffix))
    requires rt.loads(prefix + "{" + inner + "}" + suffix).Failure?
    requires rt.loads("{" + inner + "}") == Success(ToDict(e))
    ensures Generate(c, rt, send, image, mimeType, context) == Success(e)
  {
    BraceExtractChatter(prefix, inner, suffix);
    FromDictToDict(e);
  }

  /** A reply text that is exactly the dictionary form of a valid entity yields the entity. */
  lemma GenerateDirect(
    c: Config, rt: Runtime, send: (string, Payload) -> Result<Json, string>,
    image: seq<Byte>, mimeType: string, context: Option<string>,
    text: string, e: CaptionEntity)
    requires Valid(e)
    requires send(Endpoint(c), MakePayload(c, rt, image, context)).Success?
    requires ResponseField(send(Endpoint(c), MakePayload(c, rt, image, context)).value) == Success(JString(text))
    requires rt.loads(text) == Success(ToDict(e))
    ensures Generate(c, rt, send, image, mimeType, context) == Success(e)
  {
    FromDictToDict(e);
  }
}
