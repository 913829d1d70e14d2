/** The avatar upload checks of server/src/middleware/upload.middleware.ts. */
module UploadFilter {
  import opened Wrappers
  import opened ApiErrors

  const ALLOWED_TYPES: seq<string> := ["image/jpeg", "image/png", "image/gif", "image/webp"]

  /** `5 * 1024 * 1024` bytes. */
  const MAX_SIZE: int := 5 * 1024 * 1024

  /** The file fields the filter reads. */
  datatype UploadedFile = UploadedFile(mimetype: string, size: int)

  /**
   * `fileFilter`: the type is checked first, then the size; a file passes when it has an allowed
   * type and is at most 5 MiB.
   */
  function FileFilter(file: UploadedFile): (r: Option<ApiError>)
    ensures r.None? <==> file.mimetype in ALLOWED_TYPES && file.size <= MAX_SIZE
    ensures file.mimetype !in ALLOWED_TYPES ==> r == Some(NewApiError(400, "Only image files are allowed"))
    ensures file.mimetype in ALLOWED_TYPES && file.size > MAX_SIZE ==>
              r == Some(NewApiError(400, "File size must be less than 5MB"))
  {
    if file.mimetype !in ALLOWED_TYPES then Some(NewApiError(400, "Only image files are allowed"))
    else if file.size > MAX_SIZE then Some(NewApiError(400, "File size must be less than 5MB"))
    else None
  }

  /** Exactly 5 MiB passes, one byte more does not; an oversized file of the wrong type is refused for its type. */
  lemma SizeBoundary(mimetype: string)
    ensures mimetype in ALLOWED_TYPES ==> FileFilter(UploadedFile(mimetype, 5242880)).None?
    ensures mimetype in ALLOWED_TYPES ==> FileFilter(UploadedFile(mimetype, 5242881)) == Some(NewApiError(400, "File size must be less than 5MB"))
    ensures mimetype !in ALLOWED_TYPES ==> FileFilter(UploadedFile(mimetype, 5242881)) == Some(NewApiError(400, "Only image files are allowed"))
  {
  }

  /** What reaches `handleUploadError`: nothing (a falsy value), a multer error with its code, or any other error. */
  datatype UploadError = NoError | MulterError(code: string) | OtherError(err: Thrown)

  /**
   * `handleUploadError`: the two known multer codes become 400 errors, other errors are passed on
   * unchanged, and anything else (an unknown multer code included) calls `next()` with nothing.
   */
  function HandleUploadError(err: UploadError): (forwarded: Option<Thrown>)
    ensures err == MulterError("LIMIT_FILE_SIZE") ==> forwarded == Some(Api(NewApiError(400, "File too large")))
    ensures err == MulterError("LIMIT_UNEXPECTED_FILE") ==> forwarded == Some(Api(NewApiError(400, "Too many files uploaded")))
    ensures err.OtherError? ==> forwarded == Some(err.err)
    ensures forwarded.None? <==> err.NoError? || (err.MulterError? && err.code != "LIMIT_FILE_SIZE" && err.code != "LIMIT_UNEXPECTED_FILE")
  {
    match err
    case NoError => None
    case MulterError(code) =>
      if code == "LIMIT_FILE_SIZE" then Some(Api(NewApiError(400, "File too large")))
      else if code == "LIMIT_UNEXPECTED_FILE" then Some(Api(NewApiError(400, "Too many files uploaded")))
      else None
    case OtherError(e) => Some(e)
  }
}
