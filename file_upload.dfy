/**
 * The drag-and-drop upload widget: six pieces of state updated by its
 * handlers. The two requests of an upload (asking the server for a signed
 * URL, then putting the file there) are parameters that say how each went;
 * `onUploadComplete` is recorded as the list of calls it received.
 */
module FileUpload {
  import opened Wrappers
  import Js
  import ObjectStorage

  datatype File = File(name: string, fileType: string, size: nat)

  /** The body of a refused request for an upload URL. */
  datatype ErrorBody = UnparseableError(message: string) | ErrorJson(error: Option<string>)
  /** The body of a granted request for an upload URL. */
  datatype GrantBody = UnparseableGrant(message: string) | Grant(uploadUrl: string, key: string, fileUrl: string)

  /** How `fetch('/api/upload')` went. */
  datatype UrlRequest = UrlThrew(message: string) | UrlRefused(refusal: ErrorBody) | UrlGranted(grant: GrantBody)

  /** How the PUT of the file to the signed URL went. */
  datatype PutRequest = PutThrew(message: string) | PutAnswered(ok: bool)

  const DefaultMaxSize: nat := 104857600
  const DefaultAccept := ".pdf,.zip,.psd,.ai,.sketch,.fig,.mp3,.wav,.mp4,.mov"

  /** The message an upload fails with, or None when it succeeds; the PUT only happens after a grant. */
  function UploadFailure(request: UrlRequest, put: PutRequest): (r: Option<string>)
    ensures r.None? <==> request.UrlGranted? && request.grant.Grant? && put == PutAnswered(true)
    ensures request.UrlRefused? && request.refusal.ErrorJson?
      ==> r == Some(Js.Or(request.refusal.error, "Failed to get upload URL"))
    ensures request.UrlGranted? && request.grant.Grant? && put == PutAnswered(false)
      ==> r == Some("Failed to upload file to S3")
  {
    match request
    case UrlThrew(m) => Some(m)
    case UrlRefused(UnparseableError(m)) => Some(m)
    case UrlRefused(ErrorJson(e)) => Some(Js.Or(e, "Failed to get upload URL"))
    case UrlGranted(UnparseableGrant(m)) => Some(m)
    case UrlGranted(Grant(_, _, _)) =>
      match put
      case PutThrew(m) => Some(m)
      case PutAnswered(ok) => if ok then None else Some("Failed to upload file to S3")
  }

  class Widget {
    var file: Option<File>
    var uploading: bool
    var progress: int
    var error: Option<string>
    var success: bool
    var dragActive: bool
    const maxSize: nat
    /** The label of the size limit, `formatFileSize(maxSize)`. */
    const maxSizeText: string
    /** Every `onUploadComplete(key, fileUrl)` call so far. */
    var completions: seq<(string, string)>

    /**
     * Between handlers: progress is 0 or 100, no upload is in flight, a held
     * file is within the limit, and success is only reported for a held file.
     */
    predicate Valid()
      reads this
    {
      && (progress == 0 || progress == 100)
      && !uploading
      && (file.Some? ==> file.value.size <= maxSize)
      && (success ==> file.Some?)
    }

    constructor (maxSize: nat, formatNonZero: real -> string)
      ensures Valid()
      ensures this.maxSize == maxSize
      ensures maxSizeText == ObjectStorage.FormatFileSize(maxSize as real, formatNonZero)
      ensures file.None? && !uploading && progress == 0 && error.None? && !success && !dragActive
      ensures completions == []
    {
      this.maxSize := maxSize;
      maxSizeText := ObjectStorage.FormatFileSize(maxSize as real, formatNonZero);
      file := None;
      uploading := false;
      progress := 0;
      error := None;
      success := false;
      dragActive := false;
      completions := [];
    }

    /** `handleDrag`: enter and over light the drop zone, leave darkens it, anything else is ignored. */
    method HandleDrag(eventType: string)
      requires Valid()
      modifies this
      ensures Valid()
      ensures eventType == "dragenter" || eventType == "dragover" ==> dragActive
      ensures eventType == "dragleave" ==> !dragActive
      ensures eventType != "dragenter" && eventType != "dragover" && eventType != "dragleave"
        ==> dragActive == old(dragActive)
      ensures file == old(file) && progress == old(progress) && error == old(error)
      ensures success == old(success) && completions == old(completions)
    {
      if eventType == "dragenter" || eventType == "dragover" {
        dragActive := true;
      } else if eventType == "dragleave" {
        dragActive := false;
      }
    }

    /** `handleFileSelect`: clears the messages, then takes the file unless it is over the limit. */
    method HandleFileSelect(selected: File)
      requires Valid()
      modifies this
      ensures Valid()
      ensures !success
      ensures selected.size > maxSize ==> file == old(file) && error == Some("File size exceeds " + maxSizeText)
      ensures selected.size <= maxSize ==> file == Some(selected) && error.None?
      ensures progress == old(progress) && dragActive == old(dragActive) && completions == old(completions)
    {
      error := None;
      success := false;
      if selected.size > maxSize {
        error := Some("File size exceeds " + maxSizeText);
        return;
      }
      file := Some(selected);
    }

    /** `handleDrop`: the drop zone goes dark and only the first dropped file, if any, is selected. */
    method HandleDrop(dropped: seq<File>)
      requires Valid()
      modifies this
      ensures Valid()
      ensures !dragActive
      ensures |dropped| == 0 ==> file == old(file) && error == old(error) && success == old(success)
      ensures |dropped| > 0 && dropped[0].size <= maxSize ==> file == Some(dropped[0]) && error.None? && !success
      ensures |dropped| > 0 && dropped[0].size > maxSize ==> file == old(file) && error.Some? && !success
      ensures progress == old(progress) && completions == old(completions)
    {
      dragActive := false;
      if |dropped| > 0 {
        HandleFileSelect(dropped[0]);
      }
    }

    /**
     * `handleUpload`: without a file nothing happens; otherwise it ends with
     * full progress, success and one completion call, or with the error and
     * progress back at 0, and in either case no longer uploading.
     */
    method HandleUpload(request: UrlRequest, put: PutRequest)
      requires Valid()
      modifies this
      ensures Valid()
      ensures old(file).None? ==> unchanged(this)
      ensures file == old(file) && dragActive == old(dragActive)
      ensures old(file).Some? && UploadFailure(request, put).None? ==>
        progress == 100 && success && error.None?
        && completions == old(completions) + [(request.grant.key, request.grant.fileUrl)]
      ensures old(file).Some? && UploadFailure(request, put).Some? ==>
        progress == 0 && success == old(success) && error == UploadFailure(request, put)
        && completions == old(completions)
    {
      if file.None? {
        return;
      }
      uploading := true;
      progress := 0;
      error := None;
      var failure := UploadFailure(request, put);
      if failure.None? {
        progress := 100;
        success := true;
        completions := completions + [(request.grant.key, request.grant.fileUrl)];
      } else {
        error := failure;
        progress := 0;
      }
      uploading := false;
    }

    /** `handleRemove`: back to no file and no messages; the drop-zone highlight is kept. */
    method HandleRemove()
      requires Valid()
      modifies this
      ensures Valid()
      ensures file.None? && progress == 0 && error.None? && !success
      ensures dragActive == old(dragActive) && completions == old(completions)
    {
      file := None;
      progress := 0;
      error := None;
      success := false;
    }
  }

  /** A file exactly at the limit is accepted; one byte more is refused. */
  method LimitIsInclusive(formatNonZero: real -> string) returns (atLimit: Option<File>, overLimit: Option<File>)
    ensures atLimit == Some(File("a.mp4", "video/mp4", DefaultMaxSize))
    ensures overLimit.None?
  {
    var w := new Widget(DefaultMaxSize, formatNonZero);
    w.HandleFileSelect(File("a.mp4", "video/mp4", DefaultMaxSize));
    atLimit := w.file;
    w.HandleRemove();
    w.HandleFileSelect(File("b.mp4", "video/mp4", DefaultMaxSize + 1));
    overLimit := w.file;
  }

  // ------------------------------------------------------------ the `accept` list against the server's allow-list

  /** The extensions the file picker offers by default, with the MIME type browsers report for each. */
  const AdvertisedTypes: seq<(string, string)> := [
    (".pdf", "application/pdf"), (".zip", "application/zip"),
    (".psd", "image/vnd.adobe.photoshop"), (".ai", "application/postscript"),
    (".sketch", "application/octet-stream"), (".fig", "application/octet-stream"),
    (".mp3", "audio/mpeg"), (".wav", "audio/wav"),
    (".mp4", "video/mp4"), (".mov", "video/quicktime")]

  /** Of the ten extensions the picker offers, the upload route accepts only the two videos. */
  lemma AdvertisedButRefused()
    ensures forall i :: 0 <= i < 8 ==> !ObjectStorage.IsFileTypeAllowed(AdvertisedTypes[i].1)
    ensures ObjectStorage.IsFileTypeAllowed(AdvertisedTypes[8].1) && ObjectStorage.IsFileTypeAllowed(AdvertisedTypes[9].1)
  {
    forall i | 0 <= i < 8 ensures !ObjectStorage.IsFileTypeAllowed(AdvertisedTypes[i].1) {
      var t := AdvertisedTypes[i].1;
      assert t[0] == 'a' || t[..6] == "image/";
      forall j | 0 <= j < |ObjectStorage.AllowedTypes| ensures ObjectStorage.AllowedTypes[j] != t {
        if t[0] != 'a' {
          assert |ObjectStorage.AllowedTypes[j]| != |t| || ObjectStorage.AllowedTypes[j] != t;
        }
      }
    }
  }
}
