/**
 The upload middleware: multer configured with a MIME filter, a size limit and
 a Cloudinary storage engine, used through `fileUpload.single('image')`.
 The storage engine's upload itself is an outcome supplied from outside.
 */
module FileUpload {

  import opened Options
  import opened Http

  /** `limits.fileSize`: 5 MiB. */
  const MaxFileSize: nat := 5 * 1024 * 1024

  const AcceptedMimeTypes: seq<string> := ["image/png", "image/jpeg", "image/jpg"]
  const InvalidMimeMessage := "Invalid mime type!"

  /** The fixed storage parameters. */
  const StorageFolder := "uploads/images"
  const StorageFormat := "png"

  /** The only form field `single` accepts a file under. */
  const ImageField := "image"

  /** multer's own errors, with their codes. */
  const UnexpectedFieldMessage := "Unexpected field"
  const LimitUnexpectedFile := "LIMIT_UNEXPECTED_FILE"
  const FileTooLargeErrorMessage := "File too large"

  /** A file part of a multipart request, as multer sees it. */
  datatype IncomingFile = IncomingFile(field: string, mimetype: string, size: nat)

  /** The pair `fileFilter` hands to its callback: `cb(error, isValid)`. */
  datatype FilterDecision = FilterDecision(error: Option<HttpError>, accept: bool)

  /** Where the storage engine puts a file: folder, generated public id, format. */
  datatype StoredAsset = StoredAsset(folder: string, publicId: string, format: string)

  /** The storage engine's upload: the URL it gives back, or the error it raises. */
  datatype StorageOutcome = Stored(url: string) | StorageFailed(error: HttpError)

  /** What `single('image')` leaves behind: no file (`req.file` undefined),
      the stored file's path, or an error passed to `next`. */
  datatype UploadResult = NoFile | Accepted(path: string) | Rejected(error: HttpError)

  function FileFilter(mimetype: string): (r: FilterDecision)
    // accepted exactly for the three image types
    ensures r.accept <==> mimetype == "image/png" || mimetype == "image/jpeg" || mimetype == "image/jpg"
    // a rejection carries an error without a code, an acceptance none
    ensures r.accept <==> r.error.None?
    ensures !r.accept ==> r.error == Some(HttpError(InvalidMimeMessage, NoCode))
  {
    var isValid := mimetype in AcceptedMimeTypes;
    FilterDecision(if isValid then None else Some(HttpError(InvalidMimeMessage, NoCode)), isValid)
  }

  /** The storage parameters applied to every stored file; the public id is a fresh uuid. */
  function StorageParams(uuid: string): (a: StoredAsset)
    ensures a.folder == "uploads/images" && a.format == "png" && a.publicId == uuid
  {
    StoredAsset(StorageFolder, uuid, StorageFormat)
  }

  /** Distinct uuids name distinct assets, so no upload overwrites another. */
  lemma StorageParamsInjective(u1: string, u2: string)
    ensures StorageParams(u1) == StorageParams(u2) <==> u1 == u2
  {
  }

  /** A file multer hands to the storage engine: it came under `image` and
      passed the filter. The size limit is only met while it streams. */
  predicate ReachesStorage(file: Option<IncomingFile>) {
    file.Some? && file.value.field == ImageField && FileFilter(file.value.mimetype).accept
  }

  /** `fileUpload.single('image')`: multer checks the field name first, then
      the filter, then the size limit while the file is streamed to storage.
      `store` is the storage engine: what uploading an asset with the given
      parameters gives back; `uuid` is the id `uuidv4()` draws. */
  function SingleImage(file: Option<IncomingFile>, uuid: string, store: StoredAsset -> StorageOutcome): (r: UploadResult)
    // `req.file` is undefined exactly when the request carries no file
    ensures r.NoFile? <==> file.None?
    // a file under another field is refused first
    ensures file.Some? && file.value.field != ImageField ==>
              r == Rejected(HttpError(UnexpectedFieldMessage, Symbolic(LimitUnexpectedFile)))
    // a file is accepted exactly when it is under `image`, of an accepted type,
    // within the limit, and stored under this request's parameters
    ensures r.Accepted? <==>
              && ReachesStorage(file)
              && file.value.size <= MaxFileSize
              && store(StorageParams(uuid)).Stored?
    ensures r.Accepted? ==> store(StorageParams(uuid)) == Stored(r.path)
    // a failing storage engine's error is passed on as it is
    ensures ReachesStorage(file) && file.value.size <= MaxFileSize && store(StorageParams(uuid)).StorageFailed? ==>
              r == Rejected(store(StorageParams(uuid)).error)
    ensures ReachesStorage(file) && file.value.size > MaxFileSize ==>
              r == Rejected(HttpError(FileTooLargeErrorMessage, Symbolic(LimitFileSize)))
    ensures file.Some? && file.value.field == ImageField && !FileFilter(file.value.mimetype).accept ==>
              r == Rejected(HttpError(InvalidMimeMessage, NoCode))
  {
    match file
    case None => NoFile
    case Some(f) =>
      if f.field != ImageField then
        Rejected(HttpError(UnexpectedFieldMessage, Symbolic(LimitUnexpectedFile)))
      else
        var decision := FileFilter(f.mimetype);
        if decision.error.Some? then Rejected(decision.error.value)
        else if f.size > MaxFileSize then Rejected(HttpError(FileTooLargeErrorMessage, Symbolic(LimitFileSize)))
        else match store(StorageParams(uuid))
          case Stored(url) => Accepted(url)
          case StorageFailed(e) => Rejected(e)
  }

  /** The limit is exactly 5 * 1024 * 1024 bytes: a file of that size passes, one byte more does not. */
  lemma SizeLimitBoundary(mimetype: string, uuid: string, store: StoredAsset -> StorageOutcome)
    requires FileFilter(mimetype).accept && store(StorageParams(uuid)).Stored?
    ensures SingleImage(Some(IncomingFile(ImageField, mimetype, 5242880)), uuid, store)
         == Accepted(store(StorageParams(uuid)).url)
    ensures SingleImage(Some(IncomingFile(ImageField, mimetype, 5242881)), uuid, store).Rejected?
  {
  }

  /** An oversized image reaches the client as 413 "File size too large!". */
  lemma OversizedImageAnswers413<B>(f: IncomingFile, uuid: string, store: StoredAsset -> StorageOutcome)
    requires f.field == ImageField && FileFilter(f.mimetype).accept && f.size > MaxFileSize
    ensures Deliver<B>(Passed(SingleImage(Some(f), uuid, store).error)) == ErrorBody(Numeric(413), FileTooLargeMessage)
  {
  }

  /** A file of another type reaches the client as 500 "Invalid mime type!". */
  lemma WrongTypeAnswers500<B>(f: IncomingFile, uuid: string, store: StoredAsset -> StorageOutcome)
    requires f.field == ImageField && !FileFilter(f.mimetype).accept
    ensures Deliver<B>(Passed(SingleImage(Some(f), uuid, store).error)) == ErrorBody(Numeric(500), InvalidMimeMessage)
  {
  }
}
