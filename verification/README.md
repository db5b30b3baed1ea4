# CaptionGenerator core, modelled in Dafny

CaptionGenerator takes an uploaded image, its declared MIME type, an
optional context/tone text and a provider name. It asks a vision model
(Gemini, OpenAI or a local Ollama) for a short caption, a long description,
hashtags and a call to action. The result is either a validated
`CaptionEntity` or a typed failure.

This project models the domain and provider layer of that backend as pure
Dafny functions over immutable datatypes:

- the value objects (provider name, MIME type, image context);
- the self-validating caption entity and its dictionary form;
- the domain error hierarchy;
- the two JSON extractors: the markdown-fence stripper and the brace slicer;
- the three provider adapters as pipelines: prompt, transport, extraction, parsing, entity, error classification;
- the provider factory;
- the caption-generation use case, with its log events;
- the pure parts of the settings and of the upload validator;
- the legacy provider module.

Each module follows one source file:

| file | module | models |
|---|---|---|
| `wrappers.dfy` | `Wrappers` | `Option`, `Result`, `Outcome` in place of `None` and exceptions |
| `text.dfy` | `Text` | `str.strip`, `lower`, `find`, `rfind`, `split`, `join`, `rstrip` |
| `json.dfy` | `JsonValues` | values `json.loads` yields; truthiness, `type().__name__`, `dict` lookup, `str()` |
| `errors.dfy` | `Errors` | `CaptionGenerationError` and its four subclasses; the Python exception classes |
| `value_objects.dfy` | `ValueObjects` | `ProviderName`, `MimeType`, `ImageContext` |
| `entities.dfy` | `Entities` | `CaptionEntity`: `validate`, `__post_init__`, `to_dict`, `from_dict` |
| `extraction.dfy` | `Extraction` | the fence stripper (shared text of three files) and the brace slicer |
| `adapters.dfy` | `Adapters` | prompt building and reply parsing shared by the adapters |
| `gemini.dfy`, `openai.dfy`, `ollama.dfy` | `Gemini`, `OpenAI`, `Ollama` | each adapter's `generate_caption` |
| `factory.dfy` | `Factory` | `ProviderFactory.create` |
| `usecase.dfy` | `UseCase` | `GenerateCaptionUseCase.execute` |
| `config.dfy` | `Config` | `Settings` validators and properties |
| `security.dfy` | `Security` | `FileValidator.validate`, `AuthMiddleware` |
| `legacy.dfy` | `Legacy` | `backend/ai_providers.py` |

## External calls become parameters

- **Transport.** A provider's network call is a function parameter `send` that returns what the code reads, or the message of the exception it raised:
  - Gemini: `response.text`;
  - OpenAI: the first choice's content, possibly `None`;
  - Ollama: the decoded HTTP body.
- **Library calls.** `json.loads`, `base64.b64encode(...).decode()` and the system prompt text are fields of `Adapters.Runtime`. `json.loads` gives a value or its `JSONDecodeError` message.
- **The use case's provider.** The provider the use case calls is a function parameter.
- **Logging.** Logger calls are returned as a list of `UseCase.LogEvent`.

## Notes on the code

- **The "```json" branch of the fence stripper splits twice.** It splits on "```json", then splits the second piece on "```".
  - When the first closing fence is followed by another "```json", the result keeps two backticks. For `"```json" + a + "`````json" + b` it is `a + "``"` (`Extraction.FenceTaggedLongerClosing`).
  - When the closing fence is not followed by a backtick, the result is the trimmed text up to the first closing "```" (`Extraction.FenceExtractTagged`).
- **Ollama cannot be selected by name.** `ProviderName` has only `GEMINI` and `OPENAI`:
  - the text "ollama" is rejected by `from_string` (`Factory.OllamaRejected`);
  - the Ollama and final `else` branches of `ProviderFactory.create` cannot be reached;
  - `Factory.Create` never yields `OllamaAdapter`.

## Model

| member | source | states |
|---|---|---|
| ValueObjects.ProviderNameFromString | backend/app/domain/value_objects.py:27-34 | accepts exactly the inputs whose lower-cased, trimmed form is "gemini" or "openai", returning the member with that value; otherwise ValueError naming the input and listing "gemini, openai" |
| ValueObjects.ProviderNameFromPadded | backend/app/domain/value_objects.py:27-29 | any letter case of a provider's value, with any surrounding whitespace, parses to that provider |
| ValueObjects.ProviderListingIsJoin | backend/app/domain/value_objects.py:31 | the listing in the error is the enum values joined with ", " |
| ValueObjects.NewMimeType | backend/app/domain/value_objects.py:44-67 | succeeds iff the string is one of the five types, compared as given; keeps the string unchanged; otherwise ValueError with the sorted list |
| ValueObjects.SortedSupportedTypesIsSorted | backend/app/domain/value_objects.py:63 | the listed types are the supported set, in strictly increasing order |
| ValueObjects.NewImageContext | backend/app/domain/value_objects.py:103-111 | absent or blank input gives no context; otherwise the trimmed text, rejected with ValueError iff longer than 500 characters; a constructed context is trimmed, non-empty and at most 500 long |
| ValueObjects.ImageContextStable | backend/app/domain/value_objects.py:103-111 | re-constructing a context from its stored value gives it back |
| ValueObjects.ImageContextStrEmpty | backend/app/domain/value_objects.py:118-123 | `str()` is "" exactly when `has_context()` is false, and is the stored text otherwise |
| Entities.TextField | backend/app/domain/entities.py:32-39 | a text field passes iff it is a non-blank string; falsy or blank values give the field's ValueError, other truthy values an AttributeError |
| Entities.TagItems | backend/app/domain/entities.py:41-48 | what `len` counts and `for` visits: a list's items; a string's characters, each as a one-character string; a dict's keys, in order; other values raise TypeError |
| Entities.CheckTag | backend/app/domain/entities.py:48-52 | a tag passes iff it is a string with no `#` that is not blank; a bad string tag reports `#` before emptiness |
| Entities.CheckTags | backend/app/domain/entities.py:48-52 | all tags pass iff each is a valid string tag, and then returns them in order |
| Entities.CheckTagsFirstFailure | backend/app/domain/entities.py:48-52 | the loop reports the error of the first failing tag |
| Entities.TagField | backend/app/domain/entities.py:41-52 | accepted hashtags number 1 to 10, each valid, and are the items given |
| Entities.Construct | backend/app/domain/entities.py:21-23 | construction validates, so every constructed entity satisfies all rules, and its fields are the given strings |
| Entities.ConstructOfEntity | backend/app/domain/entities.py:21-52 | constructing from an entity's own fields succeeds exactly when the entity is valid, and gives it back |
| Entities.Validate | backend/app/domain/entities.py:25-52 | passes iff every business rule holds; failures are ValueErrors |
| Entities.ValidationOrder | backend/app/domain/entities.py:32-45 | the reported error is the first failing check: short, long, cta, no tags, too many tags |
| Entities.ValidationReportsFirstBadTag | backend/app/domain/entities.py:48-52 | with the counts right, the error is that of the first bad tag |
| Entities.ToDict | backend/app/domain/entities.py:54-61 | the dictionary has exactly the four keys, in order |
| Entities.Field | backend/app/domain/entities.py:75-78 | `data[key]` is the value stored under the key; it fails with KeyError of the key iff the key is missing |
| Entities.FromDict | backend/app/domain/entities.py:63-79 | a dictionary holding the four keys, in any order and among any others, gives exactly what constructing from those four values gives; a success is valid, and its fields are the dictionary's values under the four keys, the hashtags being what iterating that value visits; a non-dictionary raises TypeError; failures are only KeyError, ValueError, TypeError or AttributeError |
| Entities.FromDictOfFields | backend/app/domain/entities.py:63-79 | any dictionary whose four keys hold an entity's fields, whatever else it holds, gives that entity when it is valid and otherwise the ValueError `validate()` raises for it |
| Entities.FromDictToDict | backend/app/domain/entities.py:54-79 | `from_dict(to_dict(e)) == e` for every valid entity |
| Entities.FromDictMissingKey | backend/app/domain/entities.py:74-79 | the first missing key, in read order, is the KeyError raised |
| Errors.NewInvalidProvider | backend/app/domain/errors.py:14-16 | keeps the provider; an absent list is stored as [] |
| Errors.InvalidProviderMessage | backend/app/domain/errors.py:18-24 | the message lists "Available: …" only for a non-empty list |
| Errors.MessageKeepsReason | backend/app/domain/errors.py:30-50 | each message is its fixed prefix followed by the provider and reason it was built from |
| Extraction.FenceExtract | backend/app/infrastructure/providers/gemini_provider.py:92-102 | the result is trimmed; in both fence branches it contains no "```"; without a leading fence it is the trimmed input |
| Extraction.FenceExtractIdempotent | backend/app/infrastructure/providers/openai_provider.py:104-114 | applying the stripper to its own output changes nothing |
| Extraction.FenceExtractPlain | backend/app/infrastructure/providers/gemini_provider.py:99-100 | a "```" opening yields the trimmed text up to the next "```" or the end |
| Extraction.FenceExtractTagged | backend/app/infrastructure/providers/gemini_provider.py:97-98 | a "```json" opening yields the trimmed text up to the first closing "```", when that fence is not followed by a backtick |
| Extraction.FenceTaggedLongerClosing | backend/app/infrastructure/providers/gemini_provider.py:97-98 | a closing fence followed by another "```json" makes the double split keep two backticks, so it differs from a single search |
| Extraction.FenceExtractWrapped | backend/ai_providers.py:62-63 | a "```json" fence closed by "```" around backtick-free text yields that text, trimmed |
| Extraction.BraceExtract | backend/app/infrastructure/providers/ollama_provider.py:99-107 | the result is never longer than the trimmed input |
| Extraction.BraceExtractSpec | backend/app/infrastructure/providers/ollama_provider.py:101-107 | with both braces present, the slice from the first `{` to the last `}`, empty when the last `}` comes first; otherwise the trimmed text |
| Extraction.BraceExtractDelimited | backend/app/infrastructure/providers/ollama_provider.py:105-106 | when a `{` precedes the last `}`, the result starts with `{` and ends with `}` |
| Extraction.BraceExtractIdempotent | backend/app/infrastructure/providers/ollama_provider.py:99-107 | applying the slicer to its own output changes nothing |
| Extraction.BraceExtractChatter | backend/app/infrastructure/providers/ollama_provider.py:101-106 | chatter without braces around one object is cut away, leaving the object |
| Adapters.BuildPrompt | backend/app/infrastructure/providers/gemini_provider.py:52-54 | the prompt extends the system prompt, and is longer iff the context is truthy, by the label and the context |
| Adapters.PromptRoundTrip | backend/app/infrastructure/providers/openai_provider.py:51-53 | a truthy context is recovered from the prompt, and a falsy one reads back as absent |
| Adapters.ClassifyEntityError | backend/app/infrastructure/providers/gemini_provider.py:81-87 | KeyError and ValueError become InvalidCaptionDataError "Invalid caption data format: …" with the given raw data; others pass unchanged |
| Adapters.ParseFenced | backend/app/infrastructure/providers/gemini_provider.py:70-87 | a decoding error gives InvalidCaptionDataError carrying the reply text; a success is `from_dict` of the decoded value; a `from_dict` KeyError or ValueError becomes InvalidCaptionDataError carrying the extracted JSON, and other errors pass unchanged |
| Adapters.ParseFencedRoundTrip | backend/app/infrastructure/providers/openai_provider.py:83-101 | a fenced reply holding a valid entity's dictionary parses to that entity |
| Adapters.ParseFencedBare | backend/app/infrastructure/providers/gemini_provider.py:70-89 | a bare reply holding a valid entity's dictionary parses to that entity |
| Gemini.MakeRequest | backend/app/infrastructure/providers/gemini_provider.py:52-61 | model "gemini-2.0-flash", image part of the MIME type and the encoded bytes, the built prompt, from which the truthy context is recovered |
| Gemini.Generate | backend/app/infrastructure/providers/gemini_provider.py:44-89 | ProviderUnavailable("gemini", reason) iff the call failed; otherwise the result is the parse of the stripped reply, so decoding and `from_dict` errors are classified as in `ParseFenced`; a success is valid |
| Gemini.GenerateRoundTrip | backend/app/infrastructure/providers/gemini_provider.py:63-89 | a fenced reply holding a valid entity's dictionary yields that entity |
| OpenAI.DataUrlRoundTrip | backend/app/infrastructure/providers/openai_provider.py:56-57 | the data URL of a MIME type without `;` is read back into that type and payload |
| OpenAI.ParseDataUrlSound | backend/app/infrastructure/providers/openai_provider.py:57 | whatever is read from a data URL rebuilds it |
| OpenAI.MakeRequest | backend/app/infrastructure/providers/openai_provider.py:51-76 | model "gpt-4o-mini", 1000 tokens, one user message holding the built prompt and the data URL of the given MIME type and encoded image, whatever the MIME string, from which both are read back |
| OpenAI.Generate | backend/app/infrastructure/providers/openai_provider.py:43-101 | ProviderUnavailable("openai", …) iff the call failed or the content was None; otherwise the result is the parse of the stripped reply, classified as in `ParseFenced`; a success is valid |
| OpenAI.GenerateRoundTrip | backend/app/infrastructure/providers/openai_provider.py:78-101 | a fenced reply holding a valid entity's dictionary yields that entity |
| Ollama.NewOllama | backend/app/infrastructure/providers/ollama_provider.py:23-32 | the base URL loses exactly its trailing `/` characters; the model defaults to "llava" |
| Ollama.NewOllamaIdempotent | backend/app/infrastructure/providers/ollama_provider.py:31 | normalising a normalised configuration changes nothing |
| Ollama.EndpointIgnoresSlashes | backend/app/infrastructure/providers/ollama_provider.py:59-65 | a base URL with any number of extra trailing `/` posts to the same endpoint |
| Ollama.MakePayload | backend/app/infrastructure/providers/ollama_provider.py:42-56 | the payload holds the adapter's model, the built prompt, a one-element image list, no streaming and JSON format |
| Ollama.ResponseField | backend/app/infrastructure/providers/ollama_provider.py:67-68 | reading "response" succeeds iff the body is a dictionary, giving "" for a missing key; any other body fails with "'<type>' object has no attribute 'get'" |
| Ollama.ParseTwoTier | backend/app/infrastructure/providers/ollama_provider.py:73-85 | the text is parsed as it stands when it can be, else its brace slice; a second failure gives InvalidCaptionDataError with the reply text |
| Ollama.Generate | backend/app/infrastructure/providers/ollama_provider.py:34-96 | ProviderUnavailable("ollama", …) iff the exchange failed or the body is not a dictionary, with the exchange's message or the `.get` AttributeError text as the reason; a non-string response raises TypeError; a success is `from_dict` of the parsed value; a `from_dict` KeyError or ValueError becomes InvalidCaptionDataError carrying `str()` of that value |
| Ollama.GenerateThroughChatter | backend/app/infrastructure/providers/ollama_provider.py:76-80 | an object wrapped in chatter still yields the entity through the fallback |
| Ollama.GenerateDirect | backend/app/infrastructure/providers/ollama_provider.py:73-75 | a reply that is the entity's dictionary yields the entity directly |
| Factory.Create | backend/app/infrastructure/providers/factory.py:17-48 | never builds the Ollama adapter; a text succeeds iff it parses as a provider name, else InvalidProviderError(text, []); the key is passed through |
| Factory.CreateFromPadded | backend/app/infrastructure/providers/factory.py:39-42 | a padded, any-case provider name gives that provider's adapter with the key unchanged |
| Factory.OllamaRejected | backend/app/infrastructure/providers/factory.py:32-36 | "ollama" in any case and padding is rejected with InvalidProviderError |
| UseCase.Inputs | backend/app/application/usecases/generate_caption.py:67-73 | the three value objects succeed together or the first ValueError is returned |
| UseCase.CallProvider | backend/app/application/usecases/generate_caption.py:88-111 | provider errors pass unchanged and are logged as a failed generation with "Caption generation failed: " plus the message and the provider; an entity is returned only if valid, logged with its hashtag count |
| UseCase.Execute | backend/app/application/usecases/generate_caption.py:59-111 | logs the start first; calls the provider iff the inputs are valid and the image non-empty, with the MIME string and the normalised context; a success is valid and logged last |
| UseCase.FirstFailureWins | backend/app/application/usecases/generate_caption.py:67-77 | errors come in the order MIME type, context, provider name, empty image |
| UseCase.ProviderNameOnlyValidated | backend/app/application/usecases/generate_caption.py:67-99 | any two accepted provider names give the same call and outcome |
| UseCase.InvalidEntityRejected | backend/app/application/usecases/generate_caption.py:101-102 | an invalid entity from the provider raises its validation error |
| Config.ValidateProvider | backend/app/core/config.py:52-58 | accepts iff the lower-cased, untrimmed value is gemini, openai or ollama, returning it lower-cased |
| Config.ValidateProviderIdempotent | backend/app/core/config.py:56-58 | a validated value validates to itself |
| Config.CorsOriginsList | backend/app/core/config.py:70-73 | one trimmed, comma-free origin per comma-separated piece, empty pieces kept |
| Config.CorsOriginsRoundTrip | backend/app/core/config.py:70-73 | trimmed origins joined with "," are read back as the same list |
| Config.AvailableProviders | backend/app/core/config.py:75-87 | each provider is listed iff its key or URL is non-empty, in the order gemini, openai, ollama, hence without repeats |
| Config.GetProviderKey | backend/app/core/config.py:89-98 | case-insensitive: the Gemini key, the OpenAI key, the base URL for ollama, nothing for any other name |
| Config.AvailableMeansKeyed | backend/app/core/config.py:75-98 | a provider is available iff its key lookup gives a non-empty value |
| Config.ValidateProviders | backend/app/core/config.py:100-106 | raises iff all three credentials are empty |
| Config.ValidateProvidersMatchesAvailable | backend/app/core/config.py:75-106 | validation passes iff some provider is available |
| Config.MaxFileSizeBytes | backend/app/core/config.py:108-111 | the byte limit is a whole number of MiB, equal to the setting |
| Security.ValidateUpload | backend/app/core/security.py:52-78 | passes iff the type is allowed and 0 < size <= limit; 413 iff the type is allowed and the size exceeds the limit; a bad type gives 400 naming the sorted allowed list |
| Security.UploadCheckOrder | backend/app/core/security.py:66-78 | oversize is reported before emptiness; an empty allowed file gives 400 "File is empty" |
| Security.AllowedTypesAreMimeTypes | backend/app/core/security.py:33-39 | the allowed set equals the domain's MIME types |
| Security.ValidatorFor | backend/app/core/security.py:32 | the limit is the configured megabytes in bytes |
| Security.DefaultLimit | backend/app/core/security.py:67-72 | under the defaults exactly 10 MiB passes, and one byte more gets 413 |
| Security.ValidateToken | backend/app/core/security.py:116-120 | an empty result iff auth is disabled, else NotImplementedError |
| Security.ValidateApiKey | backend/app/core/security.py:135-139 | an empty result iff auth is disabled, else NotImplementedError |
| Legacy.LegacyPrompt | backend/ai_providers.py:92-94 | the trimmed context is appended iff it is present and not blank |
| Legacy.LegacyPromptMatchesNew | backend/ai_providers.py:137-139 | for any context `ImageContext` accepts, the legacy prompt equals the new prompt of the normalised context |
| Legacy.CreateProvider | backend/ai_providers.py:176-202 | succeeds iff the lower-cased, untrimmed name is gemini or openai, keeping the key; else ValueError listing them |
| Legacy.LegacyListing | backend/ai_providers.py:199 | the legacy list reads "gemini, openai", the same as the new one |
| Legacy.PaddedNameContrast | backend/ai_providers.py:195 | a whitespace-prefixed "gemini" is refused by the legacy factory and accepted by the new one |
| Legacy.ParseUnvalidated | backend/ai_providers.py:110-113 | the parsed JSON is returned unchecked; a decoding error propagates as JSONDecodeError |
| Legacy.NewParseRefinesLegacy | backend/ai_providers.py:166-169 | the new parse stage is the legacy one followed by `from_dict` |
| Legacy.LegacyReturnsUnvalidated | backend/ai_providers.py:110-113 | data `from_dict` rejects is still returned by the legacy stage |
| Legacy.GeminiRequest | backend/ai_providers.py:92-106 | model "gemini-1.5-flash", the legacy prompt, the image part |
| Legacy.GenerateGemini | backend/ai_providers.py:83-113 | a failed call propagates as the library's exception, never a domain error; a reply gives the JSON decoded from its extracted text unchecked, or JSONDecodeError |
| Legacy.OpenAIRequest | backend/ai_providers.py:137-161 | same model, token limit and message shape as the new adapter, with the legacy prompt |
| Legacy.GenerateOpenAI | backend/ai_providers.py:128-169 | a failed call propagates unwrapped; a None content raises AttributeError; a reply gives the JSON decoded from its extracted text unchecked, or JSONDecodeError |

## Left out

- **Network and async.** The HTTP calls (`genai`, `AsyncOpenAI`, `httpx`), `async`/`await`, the 300-second timeout and the rate limiter are left out. They become the `send` parameter and its result.
- **Library internals.** `json.loads`, base64 encoding and the system prompt text are opaque parameters. The parser and the encoder are not modelled.
- **Gemini and OpenAI clients.** `genai.configure` and `AsyncOpenAI(api_key=…)` have no observable effect in the model. The factory's adapters only record the key.
- **OpenAI response reading.** Exceptions from `response.choices[0]` are part of the failure `send` returns. This covers no choices and a missing message.
- **The HTTP layer.** Routing, dependency injection, response schemas and the mapping of errors to status codes are left out. This includes the "key not configured" guard of the dependencies module.
- **Logging.** The logging module and its JSON formatters are left out. The use case's logger calls are kept only as `LogEvent`s.
- **Settings loading.** Environment loading, `lru_cache` and pydantic's wrapping of validator errors into `ValidationError` are left out. `Settings` is a plain record. `log_level` and `rate_limit_per_minute` are omitted because no modelled operation reads them.
- **Prompts and ports.** The prompt definitions are opaque strings. The port interfaces have no behaviour.
- **Duplicate Ollama class.** The first, empty `OllamaProvider` header in the Ollama module is dead code, replaced by the second definition.
- **Size message numbers.** The 413 detail formats megabytes as floating point. `Security.ValidateUpload` keeps the file size and the limit rather than the formatted text.
- Text.Lower: lower-cases ASCII letters only. Python's `lower()` also maps other letters, and two of them reach ASCII: U+212A KELVIN SIGN becomes "k", and U+0130 becomes "i" followed by a combining dot. Neither changes which names are recognised. No accepted name (gemini, openai, ollama) contains "k", and the combining dot left after U+0130 keeps the string from matching.
- JsonValues.Repr: escapes quotes, backslashes and `\n`, `\r`, `\t` only. Other control characters are not rendered in Python's `\x..` form.
- Entities.FromDict: the entity stores its hashtags as the list of strings that iterating `data["hashtags"]` visits. Python's dataclass keeps the value as given: a string or dict `hashtags` stays a string or dict, and `to_dict` returns it unchanged. In the model, the characters or keys become a list, and `ToDict` writes that list. Validation is the same either way.
- **Duplicate JSON keys.** A dictionary from `json.loads` is assumed to hold each key once, as Python's `dict` does.
- **Library TypeError wording.** Some TypeError and AttributeError messages for wrongly typed JSON values follow CPython's wording for the common cases only. Their class is exact.
- **Environment flags.** `is_production` and `is_development` are plain equality tests on the two-valued `environment` field. `Config.IsProduction` and `Config.IsDevelopment` state nothing beyond that test.
- **MIME type equality.** `MimeType.__eq__` and `__hash__` compare the stored string, which is datatype equality on `ValueObjects.MimeType`. The comparison with objects of other classes has no counterpart in the typed model.
