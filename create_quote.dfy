/**
 * The quote composer: the ordered file checks, the upload outcome and the
 * guarded submission, as transitions of the form state (`text`, `mediaUrl`, `error`).
 */
module CreateQuote {
  import opened Outcomes
  import Storage
  import Api

  const MaxFileSize: int := 5 * 1024 * 1024
  const AllowedTypes: seq<string> := ["image/jpeg", "image/png", "image/gif"]
  const MaxWidth: int := 1920
  const MaxHeight: int := 1080

  const TooLarge: string := "File is too large. Maximum file size is 5MB."
  const InvalidType: string := "Invalid file type. Only JPEG, PNG, and GIF are allowed."
  const TooWide: string := "Image dimensions should not exceed 1920x1080 pixels."
  const NoMediaUrl: string := "Failed to get media URL"
  const UploadFailed: string := "File upload failed"
  const NoImageYet: string := "Please upload an image first"
  const CreationFailed: string := "Quote creation failed"

  /** The checks made before the image is decoded: size, then type. */
  function FileCheck(size: nat, mimeType: string): (r: Option<string>)
    ensures r == None <==> size <= 5242880 && mimeType in {"image/jpeg", "image/png", "image/gif"}
    ensures r.Some? ==> r.value == (if size > MaxFileSize then TooLarge else InvalidType)
  {
    if size > MaxFileSize then Some(TooLarge)
    else if mimeType !in AllowedTypes then Some(InvalidType)
    else None
  }

  /** The check made once the image has decoded. */
  function DimensionCheck(width: nat, height: nat): (r: Option<string>)
    ensures r == None <==> width <= 1920 && height <= 1080
    ensures r.Some? ==> r.value == TooWide
  {
    if width > MaxWidth || height > MaxHeight then Some(TooWide) else None
  }

  /** The whole chain: the first failing check reports its message. */
  function Validate(size: nat, mimeType: string, width: nat, height: nat): (r: Option<string>)
    ensures r == None <==> size <= 5242880 && mimeType in {"image/jpeg", "image/png", "image/gif"} && width <= 1920 && height <= 1080
    ensures size > MaxFileSize ==> r == Some(TooLarge)
    ensures size <= MaxFileSize && mimeType !in AllowedTypes ==> r == Some(InvalidType)
    ensures size <= MaxFileSize && mimeType in AllowedTypes && (width > MaxWidth || height > MaxHeight) ==> r == Some(TooWide)
  {
    match FileCheck(size, mimeType)
    case Some(message) => Some(message)
    case None => DimensionCheck(width, height)
  }

  /** The boundaries: exactly 5 MiB and exactly 1920x1080 pass, one more fails. */
  lemma Boundaries(mimeType: string)
    requires mimeType in AllowedTypes
    ensures Validate(5 * 1024 * 1024, mimeType, 1920, 1080) == None
    ensures Validate(5 * 1024 * 1024 + 1, mimeType, 1920, 1080) == Some(TooLarge)
    ensures Validate(5 * 1024 * 1024, mimeType, 1921, 1080) == Some(TooWide)
    ensures Validate(5 * 1024 * 1024, mimeType, 1920, 1081) == Some(TooWide)
    ensures Validate(5 * 1024 * 1024, "image/webp", 1920, 1080) == Some(InvalidType)
  {
  }

  /** A 6 MiB PNG at 4000x3000 reports the size, which is checked first. */
  lemma SizeReportedFirst()
    ensures Validate(6 * 1024 * 1024, "image/png", 4000, 3000) == Some(TooLarge)
  {
  }

  /** A decoded image's size in pixels. */
  datatype Decoded = Decoded(width: nat, height: nat)

  /** One entry of the upload response: its `url`, absent or present. */
  datatype MediaEntry = MediaEntry(url: Option<string>)

  /**
   * The upload response body: `null`/`undefined` (indexing it throws), or a
   * value whose element 0 is a media entry or absent.
   */
  datatype UploadBody = NullishBody | Entries(first: Option<MediaEntry>)

  /** How `uploadMedia` ended, as the handler sees it. */
  datatype UploadVerdict = Uploaded(url: string) | MissingUrl | Failed

  /** `response.data[0]?.url`, its truthiness test, and the `catch`. */
  function UploadVerdictOf(response: Settled<UploadBody>): (v: UploadVerdict)
    ensures v.Uploaded? ==> v.url != ""
    ensures v.Failed? <==> response.Rejected? || response.value.NullishBody?
    ensures v.Uploaded? <==> response.Resolved? && response.value.Entries? && response.value.first.Some?
                             && response.value.first.value.url.Some? && response.value.first.value.url.value != ""
    ensures v.Uploaded? ==> v.url == response.value.first.value.url.value
  {
    match response
    case Rejected => Failed
    case Resolved(NullishBody) => Failed
    case Resolved(Entries(None)) => MissingUrl
    case Resolved(Entries(Some(MediaEntry(url)))) =>
      if url.Some? && Truthy(url.value) then Uploaded(url.value) else MissingUrl
  }

  datatype Form = Form(text: string, mediaUrl: string, error: string)

  /** The form after a file selection, and the upload request sent, if any. */
  datatype Selection = Selection(form: Form, upload: Option<Api.Request>)

  /**
   * `handleFileUpload`, with the browser's decoding of the image (`None`: it
   * never loads) and the upload's outcome given as inputs.
   */
  function SelectFile(f: Form, file: Option<Api.MediaFile>, decoded: Option<Decoded>, response: Settled<UploadBody>): (r: Selection)
    ensures file.None? ==> r == Selection(f, None)
    ensures r.form.text == f.text
    ensures file.Some? ==> r.form.error in {"", TooLarge, InvalidType, TooWide, NoMediaUrl, UploadFailed}
    ensures file.Some? && FileCheck(file.value.size, file.value.mimeType).Some? ==>
              r == Selection(f.(error := FileCheck(file.value.size, file.value.mimeType).value), None)
    ensures file.Some? && FileCheck(file.value.size, file.value.mimeType).None? && decoded.None? ==>
              r == Selection(f.(error := ""), None)
    ensures r.upload.Some? <==> file.Some? && decoded.Some? &&
                                Validate(file.value.size, file.value.mimeType, decoded.value.width, decoded.value.height) == None
    ensures r.upload.Some? ==> r.upload.value == Api.UploadMedia(file.value)
    ensures r.form.mediaUrl != f.mediaUrl ==> r.upload.Some? && UploadVerdictOf(response) == Uploaded(r.form.mediaUrl)
    ensures r.upload.Some? && UploadVerdictOf(response).Uploaded? ==> r.form.mediaUrl == UploadVerdictOf(response).url
    ensures r.form.mediaUrl != f.mediaUrl ==>
              response.Resolved? && response.value.Entries? && response.value.first.Some? &&
              response.value.first.value.url == Some(r.form.mediaUrl)
  {
    match file
    case None => Selection(f, None)
    case Some(picked) =>
      var cleared := f.(error := "");
      match FileCheck(picked.size, picked.mimeType)
      case Some(message) => Selection(cleared.(error := message), None)
      case None =>
        match decoded
        case None => Selection(cleared, None)
        case Some(image) =>
          match DimensionCheck(image.width, image.height)
          case Some(message) => Selection(cleared.(error := message), None)
          case None =>
            var upload := Some(Api.UploadMedia(picked));
            match UploadVerdictOf(response)
            case Uploaded(url) => Selection(cleared.(mediaUrl := url), upload)
            case MissingUrl => Selection(cleared.(error := NoMediaUrl), upload)
            case Failed => Selection(cleared.(error := UploadFailed), upload)
  }

  /**
   * A file too large or of a wrong type is rejected before any decoding, so
   * whether or not the image would load; nothing is uploaded and `mediaUrl` is kept.
   */
  lemma RejectedBeforeDecoding(f: Form, file: Api.MediaFile, decoded: Option<Decoded>, response: Settled<UploadBody>)
    requires file.size > MaxFileSize || file.mimeType !in AllowedTypes
    ensures SelectFile(f, Some(file), decoded, response) ==
              Selection(f.(error := if file.size > MaxFileSize then TooLarge else InvalidType), None)
    ensures file.size <= MaxFileSize ==> SelectFile(f, Some(file), decoded, response).form.error == InvalidType
  {
  }

  /** A decoded file that fails a check reports the chain's first failure and keeps the previous `mediaUrl`. */
  lemma RejectedFileKeepsMedia(f: Form, file: Api.MediaFile, image: Decoded, response: Settled<UploadBody>)
    requires Validate(file.size, file.mimeType, image.width, image.height).Some?
    ensures SelectFile(f, Some(file), Some(image), response) ==
              Selection(f.(error := Validate(file.size, file.mimeType, image.width, image.height).value), None)
  {
  }

  /** A file that passes every check is uploaded; the error was cleared, and is set again only by a failed upload. */
  lemma AcceptedFileUploads(f: Form, file: Api.MediaFile, image: Decoded, response: Settled<UploadBody>)
    requires Validate(file.size, file.mimeType, image.width, image.height).None?
    ensures var r := SelectFile(f, Some(file), Some(image), response);
      && r.upload == Some(Api.UploadMedia(file))
      && (UploadVerdictOf(response).Uploaded? ==> r.form == Form(f.text, UploadVerdictOf(response).url, ""))
      && (UploadVerdictOf(response).MissingUrl? ==> r.form == Form(f.text, f.mediaUrl, NoMediaUrl))
      && (UploadVerdictOf(response).Failed? ==> r.form == Form(f.text, f.mediaUrl, UploadFailed))
  {
  }

  /** The form after a submission, the create request sent, if any, and where the page navigates. */
  datatype Submission = Submission(form: Form, request: Option<Api.Request>, navigateTo: Option<string>)

  /** `handleCreateQuote`, with the outcome of `createQuote` as an input. */
  function Submit(f: Form, session: map<string, string>, response: Settled<()>): (r: Submission)
    ensures f.mediaUrl == "" ==> r == Submission(f.(error := NoImageYet), None, None)
    ensures r.request.Some? <==> f.mediaUrl != ""
    ensures r.request.Some? ==> r.request.value == Api.CreateQuote(session, f.text, f.mediaUrl)
    ensures r.form.text == f.text && r.form.mediaUrl == f.mediaUrl
    ensures r.navigateTo.Some? <==> f.mediaUrl != "" && response.Resolved?
    ensures r.navigateTo.Some? ==> r.navigateTo.value == "/quotes" && r.form == f
    ensures f.mediaUrl != "" && response.Rejected? ==> r.form == f.(error := CreationFailed)
  {
    if !Truthy(f.mediaUrl) then Submission(f.(error := NoImageYet), None, None)
    else
      var request := Some(Api.CreateQuote(session, f.text, f.mediaUrl));
      match response
      case Resolved(_) => Submission(f, request, Some("/quotes"))
      case Rejected => Submission(f.(error := CreationFailed), request, None)
  }

  /** After a successful upload, a submission sends that upload's URL with the current text. */
  lemma UploadThenSubmit(f: Form, file: Api.MediaFile, image: Decoded, upload: Settled<UploadBody>,
                         session: map<string, string>, response: Settled<()>)
    requires Validate(file.size, file.mimeType, image.width, image.height).None?
    requires UploadVerdictOf(upload).Uploaded?
    ensures var s := SelectFile(f, Some(file), Some(image), upload).form;
      Submit(s, session, response).request == Some(Api.CreateQuote(session, f.text, UploadVerdictOf(upload).url))
  {
  }

  /**
   * The url the upload service returns in `data[0].url` is the one the form
   * stores and the one a following submission sends.
   */
  lemma ReturnedUrlIsStoredAndSubmitted(f: Form, file: Api.MediaFile, image: Decoded, u: string,
                                        session: map<string, string>, response: Settled<()>)
    requires Validate(file.size, file.mimeType, image.width, image.height).None?
    requires u != ""
    ensures var s := SelectFile(f, Some(file), Some(image), Resolved(Entries(Some(MediaEntry(Some(u)))))).form;
      && s == Form(f.text, u, "")
      && Submit(s, session, response).request == Some(Api.CreateQuote(session, f.text, u))
  {
  }

  /** The composer page. */
  class CreateQuotePage {
    var text: string
    var mediaUrl: string
    var error: string

    function State(): Form
      reads this
    {
      Form(text, mediaUrl, error)
    }

    constructor ()
      ensures State() == Form("", "", "")
    {
      text := "";
      mediaUrl := "";
      error := "";
    }

    method SetText(value: string)
      modifies this
      ensures State() == old(State()).(text := value)
    {
      text := value;
    }

    method HandleFileUpload(file: Option<Api.MediaFile>, decoded: Option<Decoded>, response: Settled<UploadBody>)
      returns (upload: Option<Api.Request>)
      modifies this
      ensures State() == SelectFile(old(State()), file, decoded, response).form
      ensures upload == SelectFile(old(State()), file, decoded, response).upload
    {
      upload := None;
      if file.None? {
        return;
      }
      var picked := file.value;
      error := "";
      if picked.size > MaxFileSize {
        error := TooLarge;
        return;
      }
      if picked.mimeType !in AllowedTypes {
        error := InvalidType;
        return;
      }
      if decoded.None? {
        return;
      }
      var image := decoded.value;
      if image.width > MaxWidth || image.height > MaxHeight {
        error := TooWide;
        return;
      }
      upload := Some(Api.UploadMedia(picked));
      match UploadVerdictOf(response) {
        case Uploaded(url) => mediaUrl := url;
        case MissingUrl => error := NoMediaUrl;
        case Failed => error := UploadFailed;
      }
    }

    method HandleCreateQuote(store: Storage.SessionStore, response: Settled<()>)
      returns (request: Option<Api.Request>, navigateTo: Option<string>)
      modifies this
      ensures State() == Submit(old(State()), store.items, response).form
      ensures request == Submit(old(State()), store.items, response).request
      ensures navigateTo == Submit(old(State()), store.items, response).navigateTo
    {
      request, navigateTo := None, None;
      if mediaUrl == "" {
        error := NoImageYet;
        return;
      }
      request := Some(Api.CreateQuote(store.items, text, mediaUrl));
      match response {
        case Resolved(_) => navigateTo := Some("/quotes");
        case Rejected => error := CreationFailed;
      }
    }
  }
}
