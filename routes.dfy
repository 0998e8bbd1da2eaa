/**
 * The `/upload` route of app/main.py: request checks, the call into the
 * uploader with the sanitised filename, and the mapping of the uploader's
 * `(success, dict)` reply to a JSON body and an HTTP status code.
 *
 * `werkzeug.secure_filename` and the uploader are parameters: the route is
 * modelled for every sanitiser and every uploader behaviour, and
 * `HandleUpload` plugs in the uploader model of module `Uploader`.
 */
module Routes {
  import opened Wrappers
  import opened Json
  import opened Text
  import opened Uploader
  import Config

  /** A part of `request.files`: the client's filename and the file stream. */
  datatype FilePart = FilePart(filename: string, stream: Stream)

  /** The multipart request, by field name. */
  datatype Request = Request(files: map<string, FilePart>)

  /** What awaiting `uploader.upload_file` produced: its reply, or an exception escaping it. */
  datatype Invocation = Returned(reply: Reply<Uploaded>) | Raised

  /** A `jsonify` body with its status code. */
  datatype Response = Response(code: int, body: map<string, string>)

  /** The response, and the stream and filename the uploader was called with (`None` when it was not called). */
  datatype Handled = Handled(response: Response, uploaderInput: Option<(Stream, string)>)

  const NO_FILE_PART: string := "لم يتم اختيار ملف"
  const EMPTY_FILENAME: string := "الرجاء اختيار ملف للرفع"
  const UPLOAD_SUCCEEDED: string := "تم رفع الملف بنجاح"
  const UPLOAD_UNKNOWN_ERROR: string := "خطأ غير معروف أثناء الرفع"
  const ROUTE_UNEXPECTED_ERROR: string := "حدث خطأ غير متوقع أثناء معالجة الرفع"

  /** `jsonify({"status": "error", "message": message}), code`. */
  function ErrorResponse(message: string, code: int): (r: Response)
    ensures r.body.Keys == {"status", "message"}
    ensures r.code == code && r.body["status"] == "error" && r.body["message"] == message
  {
    Response(code, map["status" := "error", "message" := message])
  }

  /** The status of a failed upload: 500 when the message mentions "API" or "Network" (case-sensitively), else 400. */
  function FailureStatus(message: string): (code: int)
    ensures code == 500 || code == 400
    ensures code == 500 <==> Contains(message, "API") || Contains(message, "Network")
  {
    if Contains(message, "API") || Contains(message, "Network") then 500 else 400
  }

  /** The response for what the uploader call produced. */
  function Respond(outcome: Invocation): (r: Response)
    ensures outcome.Raised? ==> r == ErrorResponse(ROUTE_UNEXPECTED_ERROR, 500)
    ensures outcome.Returned? && outcome.reply.Ok? ==>
      && r.code == 200 && r.body.Keys == {"status", "message", "download_link"}
      && r.body["status"] == "success" && r.body["message"] == UPLOAD_SUCCEEDED
      && r.body["download_link"] == outcome.reply.value.downloadLink
    ensures outcome.Returned? && outcome.reply.Err? ==>
      r == ErrorResponse(outcome.reply.error, FailureStatus(outcome.reply.error))
  {
    match outcome
    case Raised => ErrorResponse(ROUTE_UNEXPECTED_ERROR, 500)
    case Returned(Ok(up)) =>
      Response(200, map["status" := "success", "message" := UPLOAD_SUCCEEDED, "download_link" := up.downloadLink])
    case Returned(Err(message)) => ErrorResponse(message, FailureStatus(message))
  }

  /** `upload_file_route`, for the sanitiser `secure` and the uploader `upload`. */
  function UploadFileRoute(req: Request, secure: string -> string, upload: (Stream, string) -> Invocation): (h: Handled)
    ensures "file" !in req.files ==> h == Handled(ErrorResponse(NO_FILE_PART, 400), None)
    ensures "file" in req.files && req.files["file"].filename == "" ==>
      h == Handled(ErrorResponse(EMPTY_FILENAME, 400), None)
    ensures "file" in req.files && req.files["file"].filename != "" ==>
      var part := req.files["file"];
      && h.uploaderInput == Some((part.stream, secure(part.filename)))
      && h.response == Respond(upload(part.stream, secure(part.filename)))
  {
    if "file" !in req.files then Handled(ErrorResponse(NO_FILE_PART, 400), None)
    else
      var part := req.files["file"];
      // a werkzeug FileStorage is falsy exactly when its filename is empty
      if part.filename == "" then Handled(ErrorResponse(EMPTY_FILENAME, 400), None)
      else
        var filename := secure(part.filename);
        Handled(Respond(upload(part.stream, filename)), Some((part.stream, filename)))
  }

  /** The route wired to the uploader model: one `upload_file` run with the outcomes `env`. */
  function HandleUpload(req: Request, secure: string -> string, u: FileUploader, env: Env): (h: Handled) {
    UploadFileRoute(req, secure, (data, name) => Returned(UploadFile(u, data, name, env).reply))
  }

  /** A transfer failure is a 500 exactly when the exception text mentions "API" or "Network". */
  lemma UploadNetworkErrorStatus(reason: string)
    ensures FailureStatus("Upload network error: " + reason) == 500 <==>
      Contains(reason, "API") || Contains(reason, "Network")
  {
    ContainsAfterFreePrefix("Upload network error: ", reason, "API");
    ContainsAfterFreePrefix("Upload network error: ", reason, "Network");
  }

  /** "API" needs a capital P and "Network" a capital N: a message with neither letter gets a 400. */
  lemma MarkerFreeStatus(message: string)
    requires 'P' !in message && 'N' !in message
    ensures FailureStatus(message) == 400
  {
    AbsentWhenCharMissing(message, "API", 1);
    AbsentWhenCharMissing(message, "Network", 0);
  }

  /** The validation failure is answered 400. */
  lemma FileTypeStatus()
    ensures FailureStatus(FILE_TYPE_NOT_ALLOWED) == 400
  {
    MarkerFreeStatus(FILE_TYPE_NOT_ALLOWED);
  }

  /** A missing API key is answered 500. */
  lemma ApiKeyStatus()
    ensures FailureStatus(API_KEY_MISSING) == 500
  {
    assert StartsWith(API_KEY_MISSING, "API");
  }

  /** A timed-out negotiation is answered 400: "Request timed out" holds no marker. */
  lemma TimeoutStatus()
    ensures FailureStatus(REQUEST_TIMED_OUT) == 400
  {
    MarkerFreeStatus(REQUEST_TIMED_OUT);
  }

  /** An unexpected negotiation failure is answered 400. */
  lemma UnexpectedStatus()
    ensures FailureStatus(UNEXPECTED_ERROR) == 400
  {
    MarkerFreeStatus(UNEXPECTED_ERROR);
  }

  /** An unexpected response shape is answered 500: the message contains "API". */
  lemma FormatStatus()
    ensures FailureStatus(UNEXPECTED_FORMAT) == 500
  {
    assert OccursAt(UNEXPECTED_FORMAT, "API", 11);
    ContainsIffOccurs(UNEXPECTED_FORMAT, "API");
  }

  /** An unexpected transfer failure is answered 400. */
  lemma UnexpectedUploadStatus()
    ensures FailureStatus(UNEXPECTED_UPLOAD_ERROR) == 400
  {
    MarkerFreeStatus(UNEXPECTED_UPLOAD_ERROR);
  }

  /** A failed dispatch is answered 400. */
  lemma ExecutorStatus()
    ensures FailureStatus(EXECUTOR_FAILED) == 400
  {
    MarkerFreeStatus(EXECUTOR_FAILED);
  }

  /** Messages that open with "Network" or "API" get a 500, whatever follows. */
  lemma PrefixedMessageStatus(prefix: string, rest: string)
    requires prefix == "Network error: " || prefix == "API Error: " || prefix == "API Upload Error: "
    ensures FailureStatus(prefix + rest) == 500
  {
  }

  /** The status of every failure of the validation and negotiation stages. */
  lemma NegotiationStageStatus(u: FileUploader, data: Stream, name: string, env: Env)
    requires !ValidateFile(name) || GetUploadServer(u, env.fetch).reply.Err?
    ensures var code := FailureStatus(UploadFile(u, data, name, env).reply.error);
      && UploadFile(u, data, name, env).reply.Err?
      && (!ValidateFile(name) ==> code == 400)
      && (ValidateFile(name) && u.apiKey == "" ==> code == 500)
      && (ValidateFile(name) && u.apiKey != "" ==>
            && (env.fetch.ClientFailure? ==> code == 500)
            && (env.fetch == TimedOut ==> code == 400)
            && (env.fetch == FetchCrashed ==> code == 400)
            && (env.fetch.Fetched? && !env.fetch.payload.JObj? ==> code == 400)
            && (env.fetch.Fetched? && env.fetch.payload.JObj? ==> code == 500))
  {
    FileTypeStatus();
    ApiKeyStatus();
    TimeoutStatus();
    UnexpectedStatus();
    if ValidateFile(name) && u.apiKey != "" {
      NegotiationErrors(u, env.fetch);
      match env.fetch {
        case ClientFailure(reason) =>
          PrefixedMessageStatus("Network error: ", reason);
        case Fetched(info) =>
          if info.JObj? {
            PrefixedMessageStatus("API Error: ", GetText(info.fields, "msg", UNKNOWN_API_ERROR));
          }
        case _ =>
      }
    }
  }

  /** The outcome of every run that reaches the transfer stage: 200 with the link, or the failure's status. */
  lemma TransferStageStatus(u: FileUploader, data: Stream, name: string, env: Env)
    requires ValidateFile(name) && GetUploadServer(u, env.fetch).reply.Ok?
    ensures var r := UploadFile(u, data, name, env).reply;
      var code := if r.Ok? then 200 else FailureStatus(r.error);
      && (env.dispatch == DispatchFailed ==> code == 400)
      && (env.dispatch.Ran? ==> match env.dispatch.post
            case RequestFailure(reason) => code == 500 <==> Contains(reason, "API") || Contains(reason, "Network")
            case PostCrashed => code == 400
            case Posted(p) =>
              && (Stored(p) ==> code == 200)
              && (!(p.JArr? && p.items != []) ==> code == 500)
              && (p.JArr? && p.items != [] && !p.items[0].JObj? ==> code == 400)
              && (p.JArr? && p.items != [] && p.items[0].JObj? && !Stored(p) ==> code == 500))
  {
    FormatStatus();
    UnexpectedUploadStatus();
    ExecutorStatus();
    match env.dispatch {
      case DispatchFailed =>
      case Ran(post) =>
        TransferErrors(u.downloadUrlBase, post);
        match post {
          case RequestFailure(reason) => UploadNetworkErrorStatus(reason);
          case PostCrashed =>
          case Posted(p) =>
            if p.JArr? && p.items != [] && p.items[0].JObj? && !Stored(p) {
              PrefixedMessageStatus("API Upload Error: ", GetText(p.items[0].fields, "error", UPLOAD_REJECTED_DEFAULT));
            }
        }
    }
  }

  /** A request without a usable file part is answered 400 and the uploader is not called. */
  lemma RejectedRequestSkipsUploader(req: Request, secure: string -> string, u: FileUploader, env: Env)
    requires "file" !in req.files || req.files["file"].filename == ""
    ensures HandleUpload(req, secure, u, env).response.code == 400
    ensures HandleUpload(req, secure, u, env).uploaderInput == None
  {
  }

  /**
   * End to end: the uploader sees the sanitised name, and a successful run
   * answers 200 with the download link `base/code` the provider's code gives.
   */
  lemma SanitisedNameReachesUploader(req: Request, secure: string -> string, u: FileUploader, env: Env)
    requires "file" in req.files && req.files["file"].filename != ""
    ensures var part := req.files["file"];
      var h := HandleUpload(req, secure, u, env);
      var r := UploadFile(u, part.stream, secure(part.filename), env).reply;
      && h.uploaderInput == Some((part.stream, secure(part.filename)))
      && (r.Ok? ==> h.response.code == 200 && h.response.body["download_link"] == r.value.downloadLink
                    && StartsWith(h.response.body["download_link"], u.downloadUrlBase + "/"))
      && (r.Err? ==> h.response.body["message"] == r.error)
  {
  }

  /** Under the default settings every request whose sanitised name validates is answered 500 "API Key not configured". */
  lemma DefaultSettingsAnswer500(req: Request, secure: string -> string, env: Env)
    ensures "file" in req.files && req.files["file"].filename != "" && ValidateFile(secure(req.files["file"].filename)) ==>
      HandleUpload(req, secure, FromSettings(Config.DEFAULT_API_KEY), env).response == ErrorResponse(API_KEY_MISSING, 500)
  {
    ApiKeyStatus();
    if "file" in req.files && req.files["file"].filename != "" {
      var part := req.files["file"];
      DefaultSettingsRefuseUpload(part.stream, secure(part.filename), env);
    }
  }
}
