/**
  `GenerateCaptionUseCase.execute`: validate the inputs through the value
  objects, refuse an empty image, call the injected provider, revalidate its
  entity. Logger calls are recorded as a list of events.
 */
module UseCase {
  import opened Wrappers
  import opened Text
  import opened Errors
  import opened Entities
  import opened ValueObjects

  /** One logger call, with the message's structured fields. */
  datatype LogEvent =
      /** info "Starting caption generation" */
    | Started(provider: string, hasContext: bool, imageSize: nat)
      /** warning "Input validation failed: {e}" */
    | ValidationFailed(message: string)
      /** debug "Inputs validated" */
    | Validated(mimeType: string, hasContext: bool, provider: string)
      /** error "Caption generation failed: {e}" */
    | GenerationFailed(message: string, provider: string)
      /** info "Caption generated successfully" */
    | Succeeded(provider: string, hashtagCount: nat)

  /** The arguments the provider port is called with. */
  datatype ProviderCall = ProviderCall(image: seq<Byte>, mimeType: string, context: Option<string>)

  /** The injected provider port: the entity, or the exception it raised. */
  type Provider = (seq<Byte>, string, Option<string>) -> Result<CaptionEntity, Raised>

  /** The result of one execution: what it returned or raised, what it logged, and whether the provider was called. */
  datatype Execution = Execution(outcome: Result<CaptionEntity, Raised>, log: seq<LogEvent>, call: Option<ProviderCall>)

  /** The three value objects, built in the order MIME type, context, provider name. */
  function Inputs(mimeTypeStr: string, contextStr: Option<string>, providerNameStr: string)
    : (r: Result<(MimeType, ImageContext, ProviderName), Raised>)
    ensures r.Success? <==>
      NewMimeType(mimeTypeStr).Success? && NewImageContext(contextStr).Success?
      && ProviderNameFromString(providerNameStr).Success?
    ensures r.Success? ==> r.value == (NewMimeType(mimeTypeStr).value,
      NewImageContext(contextStr).value, ProviderNameFromString(providerNameStr).value)
    ensures r.Failure? ==> r.error.ValueError?
  {
    var mime :- NewMimeType(mimeTypeStr);
    var context :- NewImageContext(contextStr);
    var name :- ProviderNameFromString(providerNameStr);
    Success((mime, context, name))
  }

  /**
    The provider call and what follows it: the exception is logged and
    re-raised unchanged; a returned entity is revalidated, and only a valid
    one is logged as a success and returned.
   */
  function CallProvider(provider: Provider, call: ProviderCall, providerValue: string)
    : (r: (Result<CaptionEntity, Raised>, seq<LogEvent>))
    ensures provider(call.image, call.mimeType, call.context).Failure? ==>
      && r.0 == provider(call.image, call.mimeType, call.context)
      && r.1 == [GenerationFailed("Caption generation failed: " + r.0.error.Str(), providerValue)]
    ensures r.0.Success? ==>
      && Valid(r.0.value)
      && r.0 == provider(call.image, call.mimeType, call.context)
      && r.1 == [Succeeded(providerValue, |r.0.value.hashtags|)]
    ensures provider(call.image, call.mimeType, call.context).Success? && r.0.Failure? ==>
      r.1 == [] && r.0.error.ValueError?
  {
    match provider(call.image, call.mimeType, call.context)
    case Failure(err) =>
      (Failure(err), [GenerationFailed("Caption generation failed: " + err.Str(), providerValue)])
    case Success(entity) =>
      match Validate(entity)
      case Fail(err) => (Failure(err), [])
      case Pass => (Success(entity), [Succeeded(providerValue, |entity.hashtags|)])
  }

  /**
    `execute(image_data, mime_type_str, context_str, provider_name_str)`.
    The provider is called only when every input is valid and the image is
    not empty, with the MIME string and the normalised context; its
    exception is re-raised unchanged, and its entity is revalidated.
   */
  function Execute(provider: Provider, image: seq<Byte>, mimeTypeStr: string,
                   contextStr: Option<string>, providerNameStr: string): (x: Execution)
    ensures |x.log| >= 1 && x.log[0] == Started(providerNameStr, contextStr.Some?, |image|)
    ensures x.call.Some? <==> Inputs(mimeTypeStr, contextStr, providerNameStr).Success? && |image| > 0
    ensures x.call.Some? ==>
      && x.call.value.image == image
      && x.call.value.mimeType == mimeTypeStr
      && (x.call.value.context.None? <==> contextStr.None? || AllSpace(contextStr.value))
      && (x.call.value.context.Some? ==> x.call.value.context.value == Strip(contextStr.value))
    ensures x.call.Some? && provider(x.call.value.image, x.call.value.mimeType, x.call.value.context).Failure? ==>
      x.outcome == provider(x.call.value.image, x.call.value.mimeType, x.call.value.context)
    ensures x.outcome.Success? ==>
      && Valid(x.outcome.value)
      && x.call.Some?
      && x.outcome == provider(x.call.value.image, x.call.value.mimeType, x.call.value.context)
      && x.log[|x.log| - 1] == Succeeded(Strip(Lower(providerNameStr)), |x.outcome.value.hashtags|)
  {
    var start := [Started(providerNameStr, contextStr.Some?, |image|)];
    var inputs := Inputs(mimeTypeStr, contextStr, providerNameStr);
    if inputs.Failure? then
      Execution(Failure(inputs.error), start + [ValidationFailed("Input validation failed: " + inputs.error.Str())], None)
    else if |image| == 0 then
      Execution(Failure(CaptionError(InvalidImage("Image data is empty"))), start, None)
    else
      var (mime, context, name) := inputs.value;
      var call := ProviderCall(image, mime.value, context.value);
      var (outcome, events) := CallProvider(provider, call, name.Value());
      Execution(outcome, start + [Validated(mime.value, context.HasContext(), name.Value())] + events, Some(call))
  }

  /**
    The first failing check decides the error: the MIME type, then the
    context, then the provider name, each raising its own ValueError, and
    only then the empty image. A bad MIME type with an empty image therefore
    raises the MIME type's ValueError.
   */
  lemma FirstFailureWins(provider: Provider, image: seq<Byte>, mimeTypeStr: string,
                         contextStr: Option<string>, providerNameStr: string)
    ensures var x := Execute(provider, image, mimeTypeStr, contextStr, providerNameStr);
      && (NewMimeType(mimeTypeStr).Failure? ==>
            x.outcome == Failure(NewMimeType(mimeTypeStr).error))
      && (NewMimeType(mimeTypeStr).Success? && NewImageContext(contextStr).Failure? ==>
            x.outcome == Failure(NewImageContext(contextStr).error))
      && (NewMimeType(mimeTypeStr).Success? && NewImageContext(contextStr).Success?
          && ProviderNameFromString(providerNameStr).Failure? ==>
            x.outcome == Failure(ProviderNameFromString(providerNameStr).error))
      && (Inputs(mimeTypeStr, contextStr, providerNameStr).Success? && |image| == 0 ==>
            x.outcome == Failure(CaptionError(InvalidImage("Image data is empty"))))
  {
  }

  /**
    The provider name is only validated and logged: any two accepted names
    lead to the same call of the same provider and the same outcome.
   */
  lemma ProviderNameOnlyValidated(provider: Provider, image: seq<Byte>, mimeTypeStr: string,
                                  contextStr: Option<string>, name1: string, name2: string)
    requires ProviderNameFromString(name1).Success? && ProviderNameFromString(name2).Success?
    ensures var x1 := Execute(provider, image, mimeTypeStr, contextStr, name1);
      var x2 := Execute(provider, image, mimeTypeStr, contextStr, name2);
      x1.outcome == x2.outcome && x1.call == x2.call
  {
  }

  /** An entity from the provider that breaks a business rule is not returned: its validation error is raised. */
  lemma InvalidEntityRejected(provider: Provider, image: seq<Byte>, mimeTypeStr: string,
                              contextStr: Option<string>, providerNameStr: string, e: CaptionEntity)
    requires Inputs(mimeTypeStr, contextStr, providerNameStr).Success? && |image| > 0
    requires provider(image, mimeTypeStr, NewImageContext(contextStr).value.value) == Success(e)
    requires !Valid(e)
    ensures var x := Execute(provider, image, mimeTypeStr, contextStr, providerNameStr);
      x.outcome == Failure(Validate(e).error) && x.outcome.error.ValueError?
  {
  }
}
