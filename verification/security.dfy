/**
  The upload validator's decision and the authentication scaffold's
  behaviour. Reading the file is left to the caller: the validator is given
  the declared content type and the number of bytes read.
 */
module Security {
  import opened Wrappers
  import opened Text
  import opened Errors
  import opened ValueObjects
  import Config

  /** The content types an upload may declare. */
  const AllowedTypes: set<string> :=
    {"image/jpeg", "image/jpg", "image/png", "image/webp", "image/gif"}

  /**
    The `detail` of a rejection. The size message formats floating-point
    megabytes, so the model keeps the two numbers it is made from.
   */
  datatype Detail = Message(text: string) | TooLarge(fileSize: nat, maxSize: int)

  /** An `HTTPException(status_code, detail)`. */
  datatype HttpError = HttpError(status: int, detail: Detail)

  /** The declared type as the message shows it: the string, or `None` when the upload has none. */
  function ShowType(contentType: Option<string>): string {
    if contentType.Some? then contentType.value else "None"
  }

  /**
    `FileValidator.validate`: the declared type first (400 when not
    allowed), then size above the limit (413), then an empty file (400).
    A file of exactly the limit is accepted.
   */
  function ValidateUpload(maxSize: int, contentType: Option<string>, fileSize: nat): (r: Outcome<HttpError>)
    ensures r.Pass? <==> contentType.Some? && contentType.value in AllowedTypes && 0 < fileSize <= maxSize
    ensures r.Fail? && r.error.status == 413 <==>
      contentType.Some? && contentType.value in AllowedTypes && fileSize > maxSize
    ensures r.Fail? ==> r.error.status == 400 || r.error.status == 413
    ensures contentType.None? || contentType.value !in AllowedTypes ==>
      r == Fail(HttpError(400, Message(
        "Invalid file type: " + ShowType(contentType) + ". Allowed: " + SupportedListing)))
  {
    if contentType.None? || contentType.value !in AllowedTypes then
      Fail(HttpError(400, Message("Invalid file type: " + ShowType(contentType) + ". Allowed: " + SupportedListing)))
    else if fileSize > maxSize then
      Fail(HttpError(413, TooLarge(fileSize, maxSize)))
    else if fileSize == 0 then
      Fail(HttpError(400, Message("File is empty")))
    else Pass
  }

  /**
    The checks run in order and the first failure wins: a bad type hides the
    size, and an oversized file is reported as too large even when the
    limit is negative and the file empty.
   */
  lemma UploadCheckOrder(maxSize: int, contentType: Option<string>, fileSize: nat)
    ensures contentType.Some? && contentType.value in AllowedTypes && fileSize > maxSize ==>
      ValidateUpload(maxSize, contentType, fileSize) == Fail(HttpError(413, TooLarge(fileSize, maxSize)))
    ensures contentType.Some? && contentType.value in AllowedTypes && fileSize == 0 && maxSize >= 0 ==>
      ValidateUpload(maxSize, contentType, fileSize) == Fail(HttpError(400, Message("File is empty")))
  {
  }

  /** The validator allows exactly the MIME types the domain accepts, and names them in the same sorted list. */
  lemma AllowedTypesAreMimeTypes()
    ensures AllowedTypes == SupportedTypes
    ensures forall t :: t in AllowedTypes <==> t in SortedSupportedTypes
  {
    SortedSupportedTypesIsSorted();
  }

  /** The validator a settings record configures: the limit is the size setting in bytes. */
  function ValidatorFor(s: Config.Settings, contentType: Option<string>, fileSize: nat): (r: Outcome<HttpError>)
    ensures r.Pass? <==>
      contentType.Some? && contentType.value in AllowedTypes && 0 < fileSize <= s.maxFileSizeMb * 1024 * 1024
  {
    ValidateUpload(Config.MaxFileSizeBytes(s), contentType, fileSize)
  }

  /** Under the default settings an allowed image of exactly 10 MiB passes, and one byte more is too large. */
  lemma DefaultLimit(contentType: string)
    requires contentType in AllowedTypes
    ensures ValidatorFor(Config.Defaults, Some(contentType), 10 * 1024 * 1024).Pass?
    ensures ValidatorFor(Config.Defaults, Some(contentType), 10 * 1024 * 1024 + 1).Fail?
    ensures ValidatorFor(Config.Defaults, Some(contentType), 10 * 1024 * 1024 + 1).error.status == 413
  {
  }

  /** The user information a token or key resolves to. */
  type UserInfo = map<string, string>

  /** `validate_token`: an empty result while authentication is off, NotImplementedError when on. */
  function ValidateToken(enabled: bool, token: string): (r: Result<UserInfo, Raised>)
    ensures r.Success? <==> !enabled
    ensures r.Success? ==> r.value == map[]
    ensures r.Failure? ==> r.error == NotImplementedError("JWT validation not yet implemented")
  {
    if !enabled then Success(map[])
    else Failure(NotImplementedError("JWT validation not yet implemented"))
  }

  /** `validate_api_key`: an empty result while authentication is off, NotImplementedError when on. */
  function ValidateApiKey(enabled: bool, apiKey: string): (r: Result<UserInfo, Raised>)
    ensures r.Success? <==> !enabled
    ensures r.Success? ==> r.value == map[]
    ensures r.Failure? ==> r.error == NotImplementedError("API key validation not yet implemented")
  {
    if !enabled then Success(map[])
    else Failure(NotImplementedError("API key validation not yet implemented"))
  }
}
