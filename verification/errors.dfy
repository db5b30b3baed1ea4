/**
  The domain error hierarchy (`CaptionGenerationError` and its four
  subclasses) and the other Python exceptions that the core raises or lets
  pass through.
 */
module Errors {
  import opened Wrappers
  import opened Text

  /**
    A `CaptionGenerationError`. Each constructor is one subclass and keeps
    the attributes that subclass stores.
   */
  datatype CaptionGenerationError =
    | InvalidProvider(provider: string, availableProviders: seq<string>)
    | InvalidImage(reason: string)
    | ProviderUnavailable(provider: string, reason: string)
    | InvalidCaptionData(reason: string, rawData: Option<string>)
  {
    /** The message handed to `Exception.__init__`, i.e. `str(error)`. */
    function Message(): string {
      match this
      case InvalidProvider(p, available) =>
        "Provider '" + p + "' is invalid or unavailable"
        + (if |available| > 0 then ". Available: " + Join(available, ", ") else "")
      case InvalidImage(reason) => "Invalid image: " + reason
      case ProviderUnavailable(p, reason) => "AI provider '" + p + "' unavailable: " + reason
      case InvalidCaptionData(reason, _) => "Invalid caption data: " + reason
    }
  }

  /**
    `InvalidProviderError(provider, available_providers)`: an absent list is
    stored as the empty list.
   */
  function NewInvalidProvider(provider: string, available: Option<seq<string>>): (e: CaptionGenerationError)
    ensures e.InvalidProvider? && e.provider == provider
    ensures e.availableProviders == available.GetOr([])
  {
    InvalidProvider(provider, if available.Some? then available.value else [])
  }

  /**
    The message of `InvalidProviderError` lists the available providers
    after "Available: " when there are any, and otherwise ends right after
    "is invalid or unavailable".
   */
  lemma InvalidProviderMessage(provider: string, available: Option<seq<string>>)
    ensures var base := "Provider '" + provider + "' is invalid or unavailable";
      var m := NewInvalidProvider(provider, available).Message();
      && (available.None? || available.value == [] ==> m == base)
      && (available.Some? && available.value != [] ==>
            m == base + ". Available: " + Join(available.value, ", "))
  {
  }

  /**
    Each message keeps what the error was built from: after the class's fixed
    prefix comes the reason (and, for an unavailable provider, the
    provider's name first).
   */
  lemma MessageKeepsReason(e: CaptionGenerationError)
    ensures e.InvalidImage? ==> e.Message() == "Invalid image: " + e.reason
    ensures e.InvalidImage? ==> e.Message()[15..] == e.reason
    ensures e.InvalidCaptionData? ==> e.Message()[22..] == e.reason
    ensures e.ProviderUnavailable? ==>
      e.Message()[..13 + |e.provider|] == "AI provider '" + e.provider
      && e.Message()[13 + |e.provider| + 15..] == e.reason
  {
    if e.ProviderUnavailable? {
      var m := e.Message();
      assert m == "AI provider '" + e.provider + "' unavailable: " + e.reason;
    }
  }

  /** The exception that leaves an operation, by Python class. */
  datatype Raised =
    | CaptionError(error: CaptionGenerationError)
    | ValueError(message: string)
    | KeyError(key: string)
    | TypeError(message: string)
    | AttributeError(message: string)
    | JsonDecodeError(message: string)
    | NotImplementedError(message: string)
      /** An exception of a client library that the code does not catch. */
    | LibraryError(message: string)
  {
    /** Python's `str(exception)`; a `KeyError` shows its key quoted. */
    function Str(): string {
      match this
      case CaptionError(e) => e.Message()
      case ValueError(m) => m
      case KeyError(k) => "'" + k + "'"
      case TypeError(m) => m
      case AttributeError(m) => m
      case JsonDecodeError(m) => m
      case NotImplementedError(m) => m
      case LibraryError(m) => m
    }

    /** The exception is a `ValueError` (a JSON decoding error is one too). */
    predicate IsValueError() {
      ValueError? || JsonDecodeError?
    }
  }
}
