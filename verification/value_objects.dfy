/**
  The self-validating value objects: the provider name, the MIME type of the
  upload and the optional context/tone text.
 */
module ValueObjects {
  import opened Wrappers
  import opened Text
  import opened Errors

  /** The members of the `ProviderName` enum. There is no Ollama member. */
  datatype ProviderName = Gemini | OpenAI {
    /** The enum member's string value. */
    function Value(): string {
      match this
      case Gemini => "gemini"
      case OpenAI => "openai"
    }
  }

  /** The enum's values, in definition order. */
  const ProviderValues: seq<string> := [Gemini.Value(), OpenAI.Value()]

  /**
    `ProviderName.from_string`: lower-cases, then strips, then looks up the
    enum member with that value.
   */
  function ProviderNameFromString(value: string): (r: Result<ProviderName, Raised>)
    ensures r.Success? <==> Strip(Lower(value)) in ProviderValues
    ensures r.Success? ==> r.value.Value() == Strip(Lower(value))
    ensures r.Failure? ==>
      r.error == ValueError("Invalid provider: '" + value + "'. Must be one of: " + ProviderListing)
  {
    var key := Strip(Lower(value));
    if key == Gemini.Value() then Success(Gemini)
    else if key == OpenAI.Value() then Success(OpenAI)
    else Failure(ValueError("Invalid provider: '" + value + "'. Must be one of: " + ProviderListing))
  }

  /** `", ".join(p.value for p in ProviderName)`. */
  const ProviderListing: string := "gemini, openai"

  lemma ProviderListingIsJoin()
    ensures ProviderListing == Join(ProviderValues, ", ")
  {
    assert ProviderValues[1..] == ["openai"];
  }

  /** Lower-casing distributes over concatenation. */
  lemma LowerConcat(a: string, b: string)
    ensures Lower(a + b) == Lower(a) + Lower(b)
  {
  }

  /** Whitespace is unchanged by lower-casing. */
  lemma LowerSpace(a: string)
    requires AllSpace(a)
    ensures Lower(a) == a
  {
    assert forall i :: 0 <= i < |a| ==> !('A' <= a[i] <= 'Z');
  }

  /**
    Any spelling of a provider's value, in any letter case and with any
    surrounding whitespace, parses to that provider.
   */
  lemma ProviderNameFromPadded(p: ProviderName, before: string, name: string, after: string)
    requires AllSpace(before) && AllSpace(after)
    requires Lower(name) == p.Value()
    ensures ProviderNameFromString(before + name + after) == Success(p)
  {
    LowerPadded(before, name, after);
  }

  /** Lower-casing then trimming a padded name gives the lower-cased name, when that has no whitespace at its ends. */
  lemma LowerPadded(before: string, name: string, after: string)
    requires AllSpace(before) && AllSpace(after) && Trimmed(Lower(name))
    ensures Strip(Lower(before + name + after)) == Lower(name)
  {
    LowerConcat(before + name, after);
    LowerConcat(before, name);
    LowerSpace(before);
    LowerSpace(after);
    StripCharacterised(before, Lower(name), after);
  }

  /** The five MIME types an upload may declare. */
  const SupportedTypes: set<string> :=
    {"image/jpeg", "image/jpg", "image/png", "image/webp", "image/gif"}

  /** `sorted(SUPPORTED_TYPES)`, as the error message lists them. */
  const SortedSupportedTypes: seq<string> :=
    ["image/gif", "image/jpeg", "image/jpg", "image/png", "image/webp"]

  /** Python's `<` on strings: code-point lexicographic order. */
  predicate StringLess(a: string, b: string) {
    if |a| == 0 then |b| > 0
    else if |b| == 0 then false
    else if a[0] != b[0] then a[0] < b[0]
    else StringLess(a[1..], b[1..])
  }

  /** The listing in the error message is the allow-list, each entry once, in ascending order. */
  lemma SortedSupportedTypesIsSorted()
    ensures forall t :: t in SortedSupportedTypes <==> t in SupportedTypes
    ensures forall i :: 0 < i < |SortedSupportedTypes| ==>
      StringLess(SortedSupportedTypes[i - 1], SortedSupportedTypes[i])
  {
  }

  /** A validated MIME type; equality is equality of the wrapped strings. */
  datatype MimeType = MimeType(value: string)

  /**
    `MimeType(value)`: accepts exactly the five listed strings, compared
    as given (no case folding, no trimming), and keeps the string unchanged.
   */
  function NewMimeType(value: string): (r: Result<MimeType, Raised>)
    ensures r.Success? <==> value in SupportedTypes
    ensures r.Success? ==> r.value.value == value
    ensures r.Failure? ==> r.error == ValueError(
      "Unsupported MIME type: '" + value + "'. Supported types: " + SupportedListing)
  {
    if value in SupportedTypes then Success(MimeType(value))
    else Failure(ValueError("Unsupported MIME type: '" + value + "'. Supported types: " + SupportedListing))
  }

  /**
    `", ".join(sorted(SUPPORTED_TYPES))`, that is
    "image/gif, image/jpeg, image/jpg, image/png, image/webp".
   */
  const SupportedListing: string := Join(SortedSupportedTypes, ", ")

  /** Longest context accepted, counted after trimming. */
  const MaxContextLength: nat := 500

  /** The optional context/tone text. */
  datatype ImageContext = ImageContext(value: Option<string>) {

    /** `has_context()`. */
    predicate HasContext() {
      value.Some?
    }

    /** `str(context)`: the text, or "" when there is none (`self._value or ""`). */
    function Str(): string {
      if value.Some? && value.value != "" then value.value else ""
    }
  }

  /** What every constructed context satisfies: absent, or non-empty, trimmed and at most 500 characters. */
  predicate ContextInvariant(c: ImageContext) {
    c.value.Some? ==> c.value.value != "" && Trimmed(c.value.value) && |c.value.value| <= MaxContextLength
  }

  /**
    `ImageContext(value)`: trims, maps a blank text to "no context", and
    rejects a trimmed text longer than 500 characters.
   */
  function NewImageContext(value: Option<string>): (r: Result<ImageContext, Raised>)
    ensures r.Success? <==> value.None? || |Strip(value.value)| <= MaxContextLength
    ensures r.Failure? ==> r.error == ValueError("Context too long (maximum 500 characters)")
    ensures r.Success? ==> ContextInvariant(r.value)
    ensures r.Success? ==> (r.value.HasContext() <==> value.Some? && !AllSpace(value.value))
    ensures r.Success? && r.value.HasContext() ==> r.value.value.value == Strip(value.value)
  {
    if value.None? then Success(ImageContext(None))
    else
      var text := Strip(value.value);
      if |text| == 0 then Success(ImageContext(None))
      else if |text| > MaxContextLength then Failure(ValueError("Context too long (maximum 500 characters)"))
      else Success(ImageContext(Some(text)))
  }

  /** Re-constructing a context from its stored value gives the same context. */
  lemma ImageContextStable(c: ImageContext)
    requires ContextInvariant(c)
    ensures NewImageContext(c.value) == Success(c)
  {
    if c.value.Some? {
      StripTrimmed(c.value.value);
    }
  }

  /** For a constructed context, `str()` is empty exactly when there is no context. */
  lemma ImageContextStrEmpty(c: ImageContext)
    requires ContextInvariant(c)
    ensures c.Str() == "" <==> !c.HasContext()
    ensures c.HasContext() ==> c.Str() == c.value.value
  {
  }
}
