/**
 * The upload endpoint: checks the session, the body against the upload
 * schema, the MIME type and the size, in that order, then asks object
 * storage for a signed upload URL. The session, the parsed body, the
 * MAX_FILE_SIZE setting, the clock, the bucket URL and the presigner are
 * parameters; `signingOk` says whether presigning threw.
 */
module ApiUpload {
  import opened Wrappers
  import Js
  import Validations
  import ObjectStorage

  datatype User = User(id: Option<string>)

  datatype Body = Unparseable(message: string) | Json(form: Validations.FileUploadForm)

  datatype Response =
    | Unauthorized
    | InvalidInput(details: seq<Validations.Issue>)
    | TypeNotAllowed
    | TooLarge
    | Granted(uploadUrl: string, key: string, fileUrl: string)
    | Failed

  function Status(r: Response): (res: int) {
    match r
    case Unauthorized => 401
    case InvalidInput(_) => 400
    case TypeNotAllowed => 400
    case TooLarge => 400
    case Granted(_, _, _) => 200
    case Failed => 500
  }

  const TypeMessage := "File type not allowed. Supported types: JPG, JPEG, PNG, GIF, WEBP, SVG, MP4, MOV, AVI, WEBM, MKV"
  const SizeMessage := "File size exceeds maximum allowed size (100MB)"

  /** The error text of a refused request. */
  function ErrorText(r: Response): (res: Option<string>) {
    match r
    case Unauthorized => Some("Unauthorized")
    case InvalidInput(_) => Some("Invalid input")
    case TypeNotAllowed => Some(TypeMessage)
    case TooLarge => Some(SizeMessage)
    case Granted(_, _, _) => None
    case Failed => Some("Failed to generate upload URL")
  }

  /** POST /api/upload */
  function Post(session: Option<User>, body: Body, maxFileSize: Option<string>,
                now: nat, bucketUrl: Option<string>, sign: (string, string) -> string, signingOk: bool): (r: Response)
    ensures session.None? <==> r == Unauthorized
    ensures r.Granted? <==> (session.Some? && body.Json? && Validations.ValidFileUpload(body.form)
      && ObjectStorage.IsFileTypeAllowed(body.form.fileType)
      && ObjectStorage.IsFileSizeAllowed(body.form.fileSize, maxFileSize) && signingOk)
    ensures r.InvalidInput? ==> body.Json? && r.details == Validations.FileUploadIssues(body.form)
    ensures r.TypeNotAllowed? ==> body.Json? && Validations.ValidFileUpload(body.form)
    ensures r.TooLarge? ==> body.Json? && ObjectStorage.IsFileTypeAllowed(body.form.fileType)
  {
    if session.None? then Unauthorized
    else
      match body
      case Unparseable(_) => Failed
      case Json(form) =>
        var issues := Validations.FileUploadIssues(form);
        if issues != [] then InvalidInput(issues)
        else if !ObjectStorage.IsFileTypeAllowed(form.fileType) then TypeNotAllowed
        else if !ObjectStorage.IsFileSizeAllowed(form.fileSize, maxFileSize) then TooLarge
        else if !signingOk then Failed
        else
          var vendorId := Js.Or(session.value.id, "default-vendor");
          var t := ObjectStorage.GenerateUploadUrl(form.fileName, form.fileType, vendorId, now, bucketUrl, sign);
          Granted(t.uploadUrl, t.key, t.fileUrl)
  }

  /** A granted upload carries exactly what URL generation returned, for the caller's vendor folder. */
  lemma GrantedCarriesTarget(user: User, form: Validations.FileUploadForm, maxFileSize: Option<string>,
                             now: nat, bucketUrl: Option<string>, sign: (string, string) -> string)
    requires Post(Some(user), Json(form), maxFileSize, now, bucketUrl, sign, true).Granted?
    ensures var r := Post(Some(user), Json(form), maxFileSize, now, bucketUrl, sign, true);
      var t := ObjectStorage.GenerateUploadUrl(form.fileName, form.fileType, Js.Or(user.id, "default-vendor"), now, bucketUrl, sign);
      r.uploadUrl == t.uploadUrl && r.key == t.key && r.fileUrl == t.fileUrl
  {
  }

  /** The checks run in order: with several problems, the earliest one decides the answer. */
  lemma FirstFailureDecides(user: User, form: Validations.FileUploadForm, maxFileSize: Option<string>,
                            now: nat, bucketUrl: Option<string>, sign: (string, string) -> string, signingOk: bool)
    ensures !Validations.ValidFileUpload(form) ==>
      Post(Some(user), Json(form), maxFileSize, now, bucketUrl, sign, signingOk).InvalidInput?
    ensures Validations.ValidFileUpload(form) && !ObjectStorage.IsFileTypeAllowed(form.fileType) ==>
      Post(Some(user), Json(form), maxFileSize, now, bucketUrl, sign, signingOk) == TypeNotAllowed
    ensures (Validations.ValidFileUpload(form) && ObjectStorage.IsFileTypeAllowed(form.fileType)
      && !ObjectStorage.IsFileSizeAllowed(form.fileSize, maxFileSize)) ==>
      Post(Some(user), Json(form), maxFileSize, now, bucketUrl, sign, signingOk) == TooLarge
  {
  }

  /** A PDF is refused as a type, however small, even though the upload widget offers it. */
  lemma PdfRefused(user: User, name: string, size: real, maxFileSize: Option<string>,
                   now: nat, bucketUrl: Option<string>, sign: (string, string) -> string)
    requires |name| > 0 && size > 0.0
    ensures Post(Some(user), Json(Validations.FileUploadForm(name, "application/pdf", size)),
                 maxFileSize, now, bucketUrl, sign, true) == TypeNotAllowed
  {
    ObjectStorage.DocumentsRejected();
  }
}
