/**
  What the three provider adapters share: the library calls they make
  (kept abstract), the prompt they send, and the way a reply text becomes
  an entity or a domain error.
 */
module Adapters {
  import opened Wrappers
  import opened Text
  import opened JsonValues
  import opened Errors
  import opened Entities
  import opened Extraction

  /**
    The library functions the adapters call, as parameters: the prompt text
    the provider class carries, `base64.b64encode(...).decode('utf-8')`, and
    `json.loads`, which yields a value or the message of its
    `JSONDecodeError`.
   */
  datatype Runtime = Runtime(
    systemPrompt: string,
    encode: seq<Byte> -> string,
    loads: string -> Result<Json, string>)

  /** The line that introduces the caller's context in the prompt. */
  const ContextLabel: string := "\n\nContext/Tone: "

  /**
    `user_prompt = SYSTEM_PROMPT`, extended by the label and the context
    when the context is truthy.
   */
  function BuildPrompt(systemPrompt: string, context: Option<string>): (p: string)
    ensures systemPrompt <= p
    ensures |p| > |systemPrompt| <==> Truthy(context)
    ensures Truthy(context) ==> p[|systemPrompt|..] == ContextLabel + context.value
  {
    if Truthy(context) then systemPrompt + ContextLabel + context.value else systemPrompt
  }

  /** Reads the context back out of a prompt: the text after the label, if anything follows the system prompt. */
  function PromptContext(systemPrompt: string, p: string): Option<string> {
    if |p| > |systemPrompt| + |ContextLabel|
    then Some(p[|systemPrompt| + |ContextLabel|..])
    else None
  }

  /**
    The prompt determines the context: a truthy context is recovered
    exactly, and an absent or empty one reads back as absent.
   */
  lemma PromptRoundTrip(systemPrompt: string, context: Option<string>)
    ensures PromptContext(systemPrompt, BuildPrompt(systemPrompt, context))
      == (if Truthy(context) then context else None)
  {
    if Truthy(context) {
      var p := BuildPrompt(systemPrompt, context);
      assert p[|systemPrompt| + |ContextLabel|..] == context.value;
    }
  }

  /**
    `except (KeyError, ValueError) as e` around `from_dict`: those become
    `InvalidCaptionDataError("Invalid caption data format: {e}", raw_data=raw)`;
    any other exception leaves unchanged.
   */
  function ClassifyEntityError(err: Raised, raw: string): (r: Raised)
    ensures err.KeyError? || err.IsValueError() ==>
      r == CaptionError(InvalidCaptionData("Invalid caption data format: " + err.Str(), Some(raw)))
    ensures !(err.KeyError? || err.IsValueError()) ==> r == err
  {
    if err.KeyError? || err.IsValueError() then
      CaptionError(InvalidCaptionData("Invalid caption data format: " + err.Str(), Some(raw)))
    else err
  }

  /** The failures an adapter's parsing stage can report: a domain data error, or a type error `from_dict` lets through. */
  predicate ParseFailure(err: Raised) {
    || (err.CaptionError? && err.error.InvalidCaptionData?)
    || err.TypeError?
    || err.AttributeError?
  }

  /**
    The second half of the Gemini and OpenAI pipelines, from the stripped
    reply text on: fence extraction and `json.loads`, whose decoding error
    becomes `InvalidCaptionDataError` carrying the reply text, then
    `from_dict`, whose KeyError or ValueError becomes
    `InvalidCaptionDataError` carrying the extracted JSON text.
   */
  function ParseFenced(responseText: string, loads: string -> Result<Json, string>): (r: Result<CaptionEntity, Raised>)
    ensures r.Success? ==> Valid(r.value)
    ensures r.Failure? ==> ParseFailure(r.error)
    ensures loads(FenceExtract(responseText)).Failure? ==>
      r == Failure(CaptionError(InvalidCaptionData(
        "Failed to parse JSON: " + loads(FenceExtract(responseText)).error, Some(responseText))))
    ensures loads(FenceExtract(responseText)).Success? ==>
      var data := loads(FenceExtract(responseText)).value;
      && (r.Success? <==> FromDict(data).Success?)
      && (r.Success? ==> r == FromDict(data))
      && (FromDict(data).Failure? ==>
            r == Failure(ClassifyEntityError(FromDict(data).error, FenceExtract(responseText))))
      && (r.Failure? && r.error.CaptionError? ==>
            r.error.error.rawData == Some(FenceExtract(responseText)))
  {
    var jsonText := FenceExtract(responseText);
    match loads(jsonText)
    case Failure(msg) =>
      Failure(CaptionError(InvalidCaptionData("Failed to parse JSON: " + msg, Some(responseText))))
    case Success(data) =>
      match FromDict(data)
      case Success(e) => Success(e)
      case Failure(err) => Failure(ClassifyEntityError(err, jsonText))
  }

  /**
    A reply that wraps the dictionary form of a valid entity in a
    "```json" fence parses back to that entity.
   */
  lemma ParseFencedRoundTrip(e: CaptionEntity, body: string, loads: string -> Result<Json, string>)
    requires Valid(e) && '`' !in body
    requires loads(Strip(body)) == Success(ToDict(e))
    ensures ParseFenced(JsonFence + body + Fence, loads) == Success(e)
  {
    FenceExtractWrapped(body);
    FromDictToDict(e);
  }

  /** A reply that already is the bare JSON text, with no fence, is parsed as it stands. */
  lemma ParseFencedBare(e: CaptionEntity, text: string, loads: string -> Result<Json, string>)
    requires Valid(e) && Trimmed(text) && !StartsWith(text, Fence)
    requires loads(text) == Success(ToDict(e))
    ensures ParseFenced(text, loads) == Success(e)
  {
    StripTrimmed(text);
    FromDictToDict(e);
  }
}
