/**
  The OpenAI adapter's `generate_caption`: one chat-completion request
  carrying the prompt and the image as a base64 data URL, then the same
  fence extraction, parsing and entity construction as Gemini.
 */
module OpenAI {
  import opened Wrappers
  import opened Text
  import opened JsonValues
  import opened Errors
  import opened Entities
  import opened Extraction
  import opened Adapters

  const ModelName: string := "gpt-4o-mini"
  const MaxTokens: nat := 1000

  /** The provider name the adapter's errors carry. */
  const ProviderLabel: string := "openai"

  /** The data URL of an encoded image: `f"data:{mime_type};base64,{b64}"`. */
  function DataUrl(mimeType: string, b64: string): string {
    "data:" + mimeType + ";base64," + b64
  }

  /**
    Reads a data URL back: the MIME type ends at the first `;`, which must
    start ";base64,", and the payload is everything after it.
   */
  function ParseDataUrl(url: string): Option<(string, string)> {
    if !StartsWith(url, "data:") then None
    else
      var i := Find(url, [';'], 0);
      if i < 5 || !OccursAt(url, ";base64,", i) then None
      else Some((url[5..i], url[i + 8..]))
  }

  /** A MIME type without `;` and any payload are read back from their data URL. */
  lemma DataUrlRoundTrip(mimeType: string, b64: string)
    requires ';' !in mimeType
    ensures ParseDataUrl(DataUrl(mimeType, b64)) == Some((mimeType, b64))
  {
    var url := DataUrl(mimeType, b64);
    var p := 5 + |mimeType|;
    assert url[..5] == "data:";
    assert url[p..p + 8] == ";base64,";
    forall k | 0 <= k < p
      ensures url[k] != ';'
    {
      if k >= 5 {
        assert url[k] == mimeType[k - 5];
      }
    }
    FindPastOthers(url, [';'], 0, p);
    assert url[5..p] == mimeType;
    assert url[p + 8..] == b64;
  }

  lemma DataUrlReadable(mimeType: string, b64: string)
    ensures ';' !in mimeType ==> ParseDataUrl(DataUrl(mimeType, b64)) == Some((mimeType, b64))
  {
    if ';' !in mimeType {
      DataUrlRoundTrip(mimeType, b64);
    }
  }

  /** Whatever is read from a URL rebuilds it, and its MIME type has no `;`. */
  lemma ParseDataUrlSound(url: string)
    requires ParseDataUrl(url).Some?
    ensures var (m, b) := ParseDataUrl(url).value;
      url == DataUrl(m, b) && ';' !in m
  {
    var i := Find(url, [';'], 0);
    FindChar(url, ';');
    var m := url[5..i];
    assert url == url[..5] + m + url[i..i + 8] + url[i + 8..];
    assert forall k :: 0 <= k < |m| ==> m[k] == url[..i][5 + k];
  }

  /** One part of a user message's content. */
  datatype ContentPart = TextPart(text: string) | ImageUrlPart(url: string)

  datatype Message = Message(role: string, content: seq<ContentPart>)

  /** The arguments of `chat.completions.create`. */
  datatype Request = Request(model: string, messages: seq<Message>, maxTokens: nat)

  /**
    The request for one image: a single user message holding the prompt
    (context appended when truthy) and the image as a data URL.
   */
  function MakeRequest(rt: Runtime, image: seq<Byte>, mimeType: string, context: Option<string>): (q: Request)
    ensures q.model == ModelName && q.maxTokens == MaxTokens
    ensures |q.messages| == 1 && q.messages[0].role == "user"
    ensures |q.messages[0].content| == 2
    ensures q.messages[0].content[0] == TextPart(BuildPrompt(rt.systemPrompt, context))
    ensures PromptContext(rt.systemPrompt, q.messages[0].content[0].text)
      == (if Truthy(context) then context else None)
    ensures q.messages[0].content[1] == ImageUrlPart(DataUrl(mimeType, rt.encode(image)))
    ensures ';' !in mimeType ==>
      ParseDataUrl(q.messages[0].content[1].url) == Some((mimeType, rt.encode(image)))
  {
    PromptRoundTrip(rt.systemPrompt, context);
    DataUrlReadable(mimeType, rt.encode(image));
    var prompt := BuildPrompt(rt.systemPrompt, context);
    Request(ModelName,
      [Message("user", [TextPart(prompt), ImageUrlPart(DataUrl(mimeType, rt.encode(image)))])],
      MaxTokens)
  }

  /** The exception `None.strip()` raises, for a reply without text content. */
  const NoContent: string := "'NoneType' object has no attribute 'strip'"

  /**
    `generate_caption`. `send` is the API call: the first choice's message
    content (which may be `None`), or the message of whatever exception the
    call raised. An exception, including the one from stripping a `None`
    content, becomes `AIProviderUnavailableError("openai", str(e))`; the
    stripped text then goes through `ParseFenced`.
   */
  function Generate(
    rt: Runtime, send: Request -> Result<Option<string>, string>,
    image: seq<Byte>, mimeType: string, context: Option<string>): (r: Result<CaptionEntity, Raised>)
    ensures var reply := send(MakeRequest(rt, image, mimeType, context));
      && ((r.Failure? && r.error.CaptionError? && r.error.error.ProviderUnavailable?)
            <==> reply.Failure? || reply.value.None?)
      && (reply.Failure? ==> r == Failure(CaptionError(ProviderUnavailable(ProviderLabel, reply.error))))
      && (reply.Success? && reply.value.None? ==>
            r == Failure(CaptionError(ProviderUnavailable(ProviderLabel, NoContent))))
    ensures r.Success? ==> Valid(r.value)
    ensures var reply := send(MakeRequest(rt, image, mimeType, context));
      reply.Success? && reply.value.Some? ==>
        var text := Strip(reply.value.value);
        && r == ParseFenced(text, rt.loads)
        && (rt.loads(FenceExtract(text)).Failure? ==>
              r == Failure(CaptionError(InvalidCaptionData(
                "Failed to parse JSON: " + rt.loads(FenceExtract(text)).error, Some(text)))))
        && (rt.loads(FenceExtract(text)).Success? ==>
              && (r.Success? <==> FromDict(rt.loads(FenceExtract(text)).value).Success?)
              && (r.Failure? ==> ParseFailure(r.error))
              && (r.Failure? && r.error.CaptionError? ==>
                    r.error.error.rawData == Some(FenceExtract(text))))
  {
    match send(MakeRequest(rt, image, mimeType, context))
    case Failure(reason) => Failure(CaptionError(ProviderUnavailable(ProviderLabel, reason)))
    case Success(None) => Failure(CaptionError(ProviderUnavailable(ProviderLabel, NoContent)))
    case Success(Some(text)) => ParseFenced(Strip(text), rt.loads)
  }

  /**
    When the model answers with the dictionary form of a valid entity inside
    a "```json" fence, the adapter returns that entity.
   */
  lemma GenerateRoundTrip(
    rt: Runtime, send: Request -> Result<Option<string>, string>,
    image: seq<Byte>, mimeType: string, context: Option<string>,
    e: CaptionEntity, body: string)
    requires Valid(e) && '`' !in body
    requires send(MakeRequest(rt, image, mimeType, context)) == Success(Some(JsonFence + body + Fence))
    requires rt.loads(Strip(body)) == Success(ToDict(e))
    ensures Generate(rt, send, image, mimeType, context) == Success(e)
  {
    var t := JsonFence + body + Fence;
    assert Trimmed(t);
    StripTrimmed(t);
    ParseFencedRoundTrip(e, body, rt.loads);
  }
}
