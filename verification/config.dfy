/**
  The pure parts of the application settings: the default-provider
  validator and the derived properties (environment flags, CORS origins,
  configured providers and their keys, the upload size limit).
 */
module Config {
  import opened Wrappers
  import opened Text
  import opened Errors
  import opened JsonValues

  /** The two values the `environment` setting admits. */
  datatype Environment = Development | Production

  /** The settings record, as loaded. */
  datatype Settings = Settings(
    geminiApiKey: Option<string>,
    openaiApiKey: Option<string>,
    ollamaBaseUrl: string,
    defaultAiProvider: string,
    environment: Environment,
    maxFileSizeMb: int,
    enableAuth: bool,
    corsOrigins: string)

  /** The defaults of the fields the model keeps. */
  const Defaults: Settings := Settings(None, None, "http://localhost:11434", "gemini",
                                       Development, 10, false, "http://localhost:5173")

  /** The names `default_ai_provider` may take, once lower-cased. */
  const KnownProviders: seq<string> := ["gemini", "openai", "ollama"]

  /**
    The `default_ai_provider` validator: lower-cases (without trimming) and
    accepts only the three known names.
   */
  function ValidateProvider(v: string): (r: Result<string, Raised>)
    ensures r.Success? <==> Lower(v) in KnownProviders
    ensures r.Success? ==> r.value == Lower(v) && r.value in KnownProviders
    ensures r.Failure? ==> r.error == ValueError("default_ai_provider must be 'gemini', 'openai' or 'ollama'")
  {
    if Lower(v) in KnownProviders then Success(Lower(v))
    else Failure(ValueError("default_ai_provider must be 'gemini', 'openai' or 'ollama'"))
  }

  /** A validated name validates to itself. */
  lemma ValidateProviderIdempotent(v: string)
    requires ValidateProvider(v).Success?
    ensures ValidateProvider(ValidateProvider(v).value) == ValidateProvider(v)
  {
    LowerIdempotent(v);
  }

  /** Lower-casing twice is lower-casing once. */
  lemma LowerIdempotent(v: string)
    ensures Lower(Lower(v)) == Lower(v)
  {
  }

  function IsProduction(s: Settings): bool {
    s.environment == Production
  }

  function IsDevelopment(s: Settings): bool {
    s.environment == Development
  }

  /** `cors_origins.split(",")` with every piece trimmed; empty pieces stay. */
  function CorsOriginsList(s: Settings): (r: seq<string>)
    ensures |r| == |SplitChar(s.corsOrigins, ',')|
    ensures forall i :: 0 <= i < |r| ==> Trimmed(r[i]) && ',' !in r[i]
    ensures forall i :: 0 <= i < |r| ==> r[i] == Strip(SplitChar(s.corsOrigins, ',')[i])
  {
    var parts := SplitChar(s.corsOrigins, ',');
    seq(|parts|, i requires 0 <= i < |parts| => StripAvoidsChar(parts[i], ','); Strip(parts[i]))
  }

  /** Trimming keeps a character out. */
  lemma StripAvoidsChar(s: string, c: char)
    requires c !in s
    ensures c !in Strip(s)
  {
    StripSlice(s);
  }

  /**
    A list of origins written out with `,` between them, each trimmed and
    free of commas, is read back as that list.
   */
  lemma CorsOriginsRoundTrip(s: Settings, origins: seq<string>)
    requires |origins| >= 1
    requires forall i :: 0 <= i < |origins| ==> Trimmed(origins[i]) && ',' !in origins[i]
    requires s.corsOrigins == Join(origins, ",")
    ensures CorsOriginsList(s) == origins
  {
    SplitCharOfJoin(origins, ',');
    forall i | 0 <= i < |origins|
      ensures CorsOriginsList(s)[i] == origins[i]
    {
      StripTrimmed(origins[i]);
    }
  }

  /** A known name's position in `KnownProviders`, the order in which they are checked. */
  function Rank(p: string): nat {
    if p == "gemini" then 0 else if p == "openai" then 1 else 2
  }

  /**
    The configured providers, in the order gemini, openai, ollama; each is
    listed when its key, or for Ollama its base URL, is non-empty.
   */
  function AvailableProviders(s: Settings): (r: seq<string>)
    ensures forall p :: p in r ==> p in KnownProviders
    ensures "gemini" in r <==> Truthy(s.geminiApiKey)
    ensures "openai" in r <==> Truthy(s.openaiApiKey)
    ensures "ollama" in r <==> s.ollamaBaseUrl != ""
    ensures forall i, j :: 0 <= i < j < |r| ==> Rank(r[i]) < Rank(r[j])
  {
    (if Truthy(s.geminiApiKey) then ["gemini"] else [])
    + (if Truthy(s.openaiApiKey) then ["openai"] else [])
    + (if s.ollamaBaseUrl != "" then ["ollama"] else [])
  }

  /**
    `get_provider_key(provider)`: case-insensitive; the key of Gemini or
    OpenAI, the base URL for Ollama, nothing for any other name.
   */
  function GetProviderKey(s: Settings, provider: string): (r: Option<string>)
    ensures Lower(provider) !in KnownProviders ==> r.None?
    ensures Lower(provider) == "gemini" ==> r == s.geminiApiKey
    ensures Lower(provider) == "openai" ==> r == s.openaiApiKey
    ensures Lower(provider) == "ollama" ==> r == Some(s.ollamaBaseUrl)
  {
    var p := Lower(provider);
    if p == "gemini" then s.geminiApiKey
    else if p == "openai" then s.openaiApiKey
    else if p == "ollama" then Some(s.ollamaBaseUrl)
    else None
  }

  /** A provider is listed as available exactly when its key lookup yields a non-empty value. */
  lemma AvailableMeansKeyed(s: Settings, p: string)
    requires p in KnownProviders
    ensures p in AvailableProviders(s) <==> Truthy(GetProviderKey(s, p))
  {
    LowerKnown(p);
  }

  /** The known names are already lower-case. */
  lemma LowerKnown(p: string)
    requires p in KnownProviders
    ensures Lower(p) == p
  {
  }

  const NoProviderConfigured: string :=
    "At least one AI provider must be configured (GEMINI_API_KEY, OPENAI_API_KEY, or OLLAMA_BASE_URL)"

  /** `validate_providers()`: raises when no provider key or URL is set. */
  function ValidateProviders(s: Settings): (r: Outcome<Raised>)
    ensures r.Fail? <==> !Truthy(s.geminiApiKey) && !Truthy(s.openaiApiKey) && s.ollamaBaseUrl == ""
    ensures r.Fail? ==> r.error == ValueError(NoProviderConfigured)
  {
    if !Truthy(s.geminiApiKey) && !Truthy(s.openaiApiKey) && s.ollamaBaseUrl == "" then
      Fail(ValueError(NoProviderConfigured))
    else Pass
  }

  /** Validation passes exactly when some provider is available. */
  lemma ValidateProvidersMatchesAvailable(s: Settings)
    ensures ValidateProviders(s).Pass? <==> |AvailableProviders(s)| > 0
  {
  }

  const BytesPerMb: int := 1024 * 1024

  /** `max_file_size_mb * 1024 * 1024`, on unbounded integers. */
  function MaxFileSizeBytes(s: Settings): (r: int)
    ensures r / BytesPerMb == s.maxFileSizeMb && r % BytesPerMb == 0
  {
    s.maxFileSizeMb * 1024 * 1024
  }
}
