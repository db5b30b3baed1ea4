/**
  The Gemini adapter's `generate_caption`: prompt and image part, one
  call to the model, then fence extraction, parsing and entity
  construction. The call itself is the `send` parameter.
 */
module Gemini {
  import opened Wrappers
  import opened Text
  import opened JsonValues
  import opened Errors
  import opened Entities
  import opened Extraction
  import opened Adapters

  /** The model the constructor configures. */
  const ModelName: string := "gemini-2.0-flash"

  /** The provider name the adapter's errors carry. */
  const ProviderLabel: string := "gemini"

  /** The `image_part` dictionary: the MIME type as given and the base64 text. */
  datatype ImagePart = ImagePart(mimeType: string, data: string)

  /** What `generate_content` receives: the configured model, the prompt and the image part. */
  datatype Request = Request(model: string, prompt: string, image: ImagePart)

  /**
    The request for one image: the system prompt with the context appended
    when it is truthy, and the image base64-encoded under its MIME type.
   */
  function MakeRequest(rt: Runtime, image: seq<Byte>, mimeType: string, context: Option<string>): (q: Request)
    ensures q.model == ModelName
    ensures q.image == ImagePart(mimeType, rt.encode(image))
    ensures q.prompt == BuildPrompt(rt.systemPrompt, context)
    ensures PromptContext(rt.systemPrompt, q.prompt) == (if Truthy(context) then context else None)
  {
    PromptRoundTrip(rt.systemPrompt, context);
    Request(ModelName, BuildPrompt(rt.systemPrompt, context), ImagePart(mimeType, rt.encode(image)))
  }

  /**
    `generate_caption`. `send` is the model call: `response.text`, or the
    message of whatever exception the call or the read raised. Any such
    exception becomes `AIProviderUnavailableError("gemini", str(e))`; the
    stripped text then goes through `ParseFenced`.
   */
  function Generate(
    rt: Runtime, send: Request -> Result<string, string>,
    image: seq<Byte>, mimeType: string, context: Option<string>): (r: Result<CaptionEntity, Raised>)
    ensures var reply := send(MakeRequest(rt, image, mimeType, context));
      && ((r.Failure? && r.error.CaptionError? && r.error.error.ProviderUnavailable?) <==> reply.Failure?)
      && (reply.Failure? ==> r == Failure(CaptionError(ProviderUnavailable(ProviderLabel, reply.error))))
    ensures r.Success? ==> Valid(r.value)
    ensures var reply := send(MakeRequest(rt, image, mimeType, context));
      reply.Success? ==>
        var text := Strip(reply.value);
        && r == ParseFenced(text, rt.loads)
        && (rt.loads(FenceExtract(text)).Failure? ==>
              r == Failure(CaptionError(InvalidCaptionData(
                "Failed to parse JSON: " + rt.loads(FenceExtract(text)).error, Some(text)))))
        && (rt.loads(FenceExtract(text)).Success? ==>
              && (r.Success? <==> FromDict(rt.loads(FenceExtract(text)).value).Success?)
              && (r.Failure? ==> ParseFailure(r.error))
              && (r.Failure? && r.error.CaptionError? ==>
                    r.error.error.rawData == Some(FenceExtract(text))))
  {
    match send(MakeRequest(rt, image, mimeType, context))
    case Failure(reason) => Failure(CaptionError(ProviderUnavailable(ProviderLabel, reason)))
    case Success(text) => ParseFenced(Strip(text), rt.loads)
  }

  /**
    When the model answers with the dictionary form of a valid entity inside
    a "```json" fence, the adapter returns that entity.
   */
  lemma GenerateRoundTrip(
    rt: Runtime, send: Request -> Result<string, string>,
    image: seq<Byte>, mimeType: string, context: Option<string>,
    e: CaptionEntity, body: string)
    requires Valid(e) && '`' !in body
    requires send(MakeRequest(rt, image, mimeType, context)) == Success(JsonFence + body + Fence)
    requires rt.loads(Strip(body)) == Success(ToDict(e))
    ensures Generate(rt, send, image, mimeType, context) == Success(e)
  {
    var t := JsonFence + body + Fence;
    assert Trimmed(t);
    StripTrimmed(t);
    ParseFencedRoundTrip(e, body, rt.loads);
  }
}
