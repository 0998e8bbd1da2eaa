/**
 * The upload pipeline of `FileUploader` (app/modules/uploader.py):
 * filename validation, negotiation of an upload server, the blocking
 * transfer and the orchestration that sequences them.
 *
 * Every network call is replaced by an abstract outcome value that names
 * the `except` branch it lands in (or the decoded JSON it produced), and
 * every function records the calls it would issue in `Step.calls`, so
 * that "no request is made" and "the transfer is never invoked" can be
 * stated about the model.
 */
module Uploader {
  import opened Json
  import opened Text
  import Config

  /** The bytes of the uploaded file stream. */
  type Stream = seq<bv8>

  /** The `(success, dict)` pair every operation returns; a failure dict is `{"error": message}`. */
  datatype Reply<T> = Ok(value: T) | Err(error: string)

  /** Success dict of the negotiation: `{"upload_url": ..., "sess_id": ...}`; an absent `sess_id` is `None`. */
  datatype Lease = Lease(uploadUrl: Json, sessId: Json)

  /** Success dict of the transfer: `{"file_code": ..., "download_link": ...}`. */
  datatype Uploaded = Uploaded(fileCode: Json, downloadLink: string)

  /** An outbound request the pipeline issues. */
  datatype Call =
    | HttpGet(url: string, timeout: nat)
    | HttpPost(target: Json, form: map<string, Json>, files: map<string, (string, Stream)>, timeout: nat)

  /** A reply together with the requests issued, in order, to produce it. */
  datatype Step<T> = Step(reply: Reply<T>, calls: seq<Call>)

  /** What the negotiation request ended in. */
  datatype FetchOutcome =
    | ClientFailure(reason: string)  // aiohttp.ClientError, including raise_for_status; reason is str(e)
    | TimedOut                       // asyncio.TimeoutError not raised as a ClientError; aiohttp's
                                     // ServerTimeoutError is a ClientError and is a ClientFailure
    | FetchCrashed                   // any other exception escaping the request or JSON decoding
    | Fetched(payload: Json)         // the decoded response body

  /** What the transfer request ended in. */
  datatype PostOutcome =
    | RequestFailure(reason: string) // requests.exceptions.RequestException; reason is str(e)
    | PostCrashed                    // any other exception escaping the request or JSON decoding
    | Posted(payload: Json)          // the decoded response body

  /** What `loop.run_in_executor` produced for the transfer task. */
  datatype DispatchOutcome =
    | Ran(post: PostOutcome)         // the transfer ran; its request ended in `post`
    | DispatchFailed                 // the dispatch itself raised

  /** The outcomes of the two network calls of one pipeline run. */
  datatype Env = Env(fetch: FetchOutcome, dispatch: DispatchOutcome)

  /** The instance fields set once by `FileUploader.__init__`. */
  datatype FileUploader = FileUploader(apiKey: string, apiUrl: string, downloadUrlBase: string)

  const NEGOTIATE_TIMEOUT: nat := 30
  const UPLOAD_TIMEOUT: nat := 300

  const FILE_TYPE_NOT_ALLOWED: string := "نوع الملف غير مسموح به"
  const API_KEY_MISSING: string := "API Key not configured"
  const UNKNOWN_API_ERROR: string := "Unknown error from DDownload API"
  const REQUEST_TIMED_OUT: string := "Request timed out"
  const UNEXPECTED_ERROR: string := "An unexpected error occurred"
  const UPLOAD_REJECTED_DEFAULT: string := "Upload failed according to API status"
  const UNEXPECTED_FORMAT: string := "Unexpected API response format"
  const UNEXPECTED_UPLOAD_ERROR: string := UNEXPECTED_ERROR + " during upload"
  const NO_UPLOAD_URL: string := "Could not retrieve upload URL"
  const EXECUTOR_FAILED: string := "Failed to execute upload task"

  /** The uploader the application creates from its settings. */
  function FromSettings(apiKey: string): (u: FileUploader)
    ensures u.apiKey == apiKey
    ensures u.apiUrl == Config.DDOWNLOAD_API_URL && u.downloadUrlBase == Config.DDOWNLOAD_DOWNLOAD_URL
  {
    FileUploader(apiKey, Config.DDOWNLOAD_API_URL, Config.DDOWNLOAD_DOWNLOAD_URL)
  }

  // ---------------------------------------------------------------------
  // Validator

  /** The extension `FileUploader._validate_file` judges: the lower-cased text after the last dot. */
  function Extension(filename: string): (ext: string)
    requires '.' in filename
  {
    Lower(RSplitDot(filename).1)
  }

  /** `FileUploader._validate_file`: a non-empty name with a dot whose extension is allowed. */
  function ValidateFile(filename: string): (accepted: bool)
    ensures filename == "" || '.' !in filename ==> !accepted
    ensures accepted ==> exists i :: 0 <= i < |filename| && filename[i] == '.'
  {
    if filename == "" || '.' !in filename then false
    else Extension(filename) in Config.ALLOWED_EXTENSIONS
  }

  /** The extension of the name `p.e` is the segment `e` after the last dot, whatever `p` holds. */
  lemma ExtensionIsLastSegment(p: string, e: string, name: string)
    requires '.' !in e && name == p + "." + e
    ensures Extension(name) == Lower(e)
    ensures ValidateFile(name) <==> Lower(e) in Config.ALLOWED_EXTENSIONS
  {
    assert name[|p|] == '.';
    var parts := RSplitDot(name);
    SplitAtLastDotUnique(parts.0, parts.1, p, e);
  }

  /** A name ending in a dot has an empty extension, which is never allowed. */
  lemma TrailingDotRejected(p: string)
    ensures !ValidateFile(p + ".")
  {
  }

  /** Names that agree once lower-cased have their last dot at the same place and the same extension. */
  lemma ExtensionDependsOnLower(s: string, t: string)
    requires Lower(s) == Lower(t)
    requires '.' in s
    ensures '.' in t && Extension(s) == Extension(t)
  {
    LowerKeepsDots(s);
    LowerKeepsDots(t);
    var i := LastIndexOf(s, '.');
    var j := LastIndexOf(t, '.');
    LowerCharDot(s[j]);
    LowerCharDot(t[i]);
    assert Lower(t)[i] == '.';
    if i < j {
      assert false;
    }
    if j < i {
      assert false;
    }
    assert Lower(s[i + 1..]) == Lower(s)[i + 1..];
    assert Lower(t[i + 1..]) == Lower(t)[i + 1..];
  }

  /** Names that agree once lower-cased get the same verdict (`a.PDF` and `a.pdf`). */
  lemma ValidateIgnoresCase(s: string, t: string)
    requires Lower(s) == Lower(t)
    ensures ValidateFile(s) == ValidateFile(t)
  {
    if '.' in s {
      ExtensionDependsOnLower(s, t);
    } else if '.' in t {
      ExtensionDependsOnLower(t, s);
    }
  }

  /** The verdict for a name is the verdict for its lower-cased form. */
  lemma ValidateLowered(s: string)
    ensures ValidateFile(Lower(s)) == ValidateFile(s)
  {
    LowerIdempotent(s);
    ValidateIgnoresCase(Lower(s), s);
  }

  // The literal facts the examples below rest on, one per lemma so that each stays small.

  lemma PdfAllowed()
    ensures Lower("pdf") in Config.ALLOWED_EXTENSIONS && Lower("PDF") in Config.ALLOWED_EXTENSIONS
  {
    assert Lower("pdf") == "pdf";
    assert Lower("PDF") == "pdf";
  }

  lemma ZipAllowed()
    ensures Lower("zip") in Config.ALLOWED_EXTENSIONS
  {
    assert Lower("zip") == "zip";
  }

  lemma ExeNotAllowed()
    ensures Lower("exe") !in Config.ALLOWED_EXTENSIONS
  {
    assert Lower("exe") == "exe";
  }

  /** Whatever precedes it, `.PDF` is accepted exactly like `.pdf` (`a.PDF`, `a.pdf`). */
  lemma CaseExample(p: string)
    ensures ValidateFile(p + ".PDF") && ValidateFile(p + ".pdf")
  {
    PdfAllowed();
    ExtensionIsLastSegment(p, "PDF", p + ".PDF");
    ExtensionIsLastSegment(p, "pdf", p + ".pdf");
  }

  /** Only the last segment counts: `x.tar.zip` is accepted and `x.zip.exe` is not. */
  lemma LastSegmentExample(p: string)
    ensures ValidateFile(p + ".tar.zip") && !ValidateFile(p + ".zip.exe")
  {
    ZipAllowed();
    ExeNotAllowed();
    ExtensionIsLastSegment(p + ".tar", "zip", p + ".tar.zip");
    ExtensionIsLastSegment(p + ".zip", "exe", p + ".zip.exe");
  }

  // ---------------------------------------------------------------------
  // Endpoint negotiation

  /** The request URL of `get_upload_server`. */
  function ServerUrl(u: FileUploader): string {
    u.apiUrl + "/upload/server?key=" + u.apiKey
  }

  /** The payload grants a server: a dict whose `status` is 200 and whose `result` is truthy. */
  predicate Granted(payload: Json) {
    payload.JObj? && Get(payload.fields, "status") == JInt(200) && Truthy(Get(payload.fields, "result"))
  }

  /** The result mapping of `get_upload_server` once a request was issued. */
  function ServerReply(fetch: FetchOutcome): (r: Reply<Lease>)
    ensures r.Ok? <==> fetch.Fetched? && Granted(fetch.payload)
    ensures r.Ok? ==> Truthy(r.value.uploadUrl)
    ensures r.Ok? ==> r.value == Lease(fetch.payload.fields["result"], Get(fetch.payload.fields, "sess_id"))
  {
    match fetch
    case ClientFailure(reason) => Err("Network error: " + reason)
    case TimedOut => Err(REQUEST_TIMED_OUT)
    case FetchCrashed => Err(UNEXPECTED_ERROR)
    case Fetched(info) =>
      match info
      case JObj(m) =>
        if Get(m, "status") == JInt(200) && Truthy(Get(m, "result")) then
          Ok(Lease(m["result"], Get(m, "sess_id")))
        else
          Err("API Error: " + GetText(m, "msg", UNKNOWN_API_ERROR))
      // `.get` on a decoded list, string, number or null raises AttributeError
      case _ => Err(UNEXPECTED_ERROR)
  }

  /** `FileUploader.get_upload_server`. */
  function GetUploadServer(u: FileUploader, fetch: FetchOutcome): (r: Step<Lease>)
    ensures u.apiKey == "" ==> r == Step(Err(API_KEY_MISSING), [])
    ensures u.apiKey != "" ==> r.calls == [HttpGet(ServerUrl(u), NEGOTIATE_TIMEOUT)]
    ensures u.apiKey != "" ==> r.reply == ServerReply(fetch)
    ensures r.reply.Ok? ==> u.apiKey != "" && Truthy(r.reply.value.uploadUrl)
  {
    if u.apiKey == "" then Step(Err(API_KEY_MISSING), [])
    else Step(ServerReply(fetch), [HttpGet(ServerUrl(u), NEGOTIATE_TIMEOUT)])
  }

  /** Every failure of the negotiation, with its exact message. */
  lemma NegotiationErrors(u: FileUploader, fetch: FetchOutcome)
    requires u.apiKey != ""
    ensures fetch.ClientFailure? ==> GetUploadServer(u, fetch).reply == Err("Network error: " + fetch.reason)
    ensures fetch == TimedOut ==> GetUploadServer(u, fetch).reply == Err(REQUEST_TIMED_OUT)
    ensures fetch == FetchCrashed ==> GetUploadServer(u, fetch).reply == Err(UNEXPECTED_ERROR)
    ensures fetch.Fetched? && !fetch.payload.JObj? ==> GetUploadServer(u, fetch).reply == Err(UNEXPECTED_ERROR)
    ensures fetch.Fetched? && fetch.payload.JObj? && !Granted(fetch.payload) ==>
      GetUploadServer(u, fetch).reply == Err("API Error: " + GetText(fetch.payload.fields, "msg", UNKNOWN_API_ERROR))
  {
  }

  // ---------------------------------------------------------------------
  // Transfer

  /** The form fields of the transfer: `utype=prem`, plus `sess_id` exactly when it is truthy. */
  function UploadForm(sessId: Json): (form: map<string, Json>)
    ensures "utype" in form && form["utype"] == JStr("prem")
    ensures "sess_id" in form <==> Truthy(sessId)
    ensures "sess_id" in form ==> form["sess_id"] == sessId
    ensures forall k :: k in form ==> k == "utype" || k == "sess_id"
  {
    if Truthy(sessId) then map["utype" := JStr("prem"), "sess_id" := sessId]
    else map["utype" := JStr("prem")]
  }

  /** The form dict as `upload_file_sync` builds it: created, then `sess_id` inserted when truthy. */
  method BuildForm(sessId: Json) returns (data: map<string, Json>)
    ensures data == UploadForm(sessId)
  {
    data := map["utype" := JStr("prem")];
    if Truthy(sessId) {
      data := data["sess_id" := sessId];
    }
  }

  /** The decoded transfer response reports a stored file: its first record is `OK` with a truthy `file_code`. */
  predicate Stored(payload: Json) {
    && payload.JArr? && payload.items != []
    && payload.items[0].JObj?
    && Get(payload.items[0].fields, "file_status") == JStr("OK")
    && Truthy(Get(payload.items[0].fields, "file_code"))
  }

  /** The response parsing of `upload_file_sync`. */
  function UploadReply(downloadUrlBase: string, post: PostOutcome): (r: Reply<Uploaded>)
    ensures r.Ok? <==> post.Posted? && Stored(post.payload)
    ensures r.Ok? ==> r.value.fileCode == post.payload.items[0].fields["file_code"] && Truthy(r.value.fileCode)
    ensures r.Ok? ==> r.value.downloadLink == downloadUrlBase + "/" + Display(r.value.fileCode)
  {
    match post
    case RequestFailure(reason) => Err("Upload network error: " + reason)
    case PostCrashed => Err(UNEXPECTED_UPLOAD_ERROR)
    case Posted(result) =>
      if result.JArr? && result.items != [] then
        match result.items[0]
        case JObj(first) =>
          if Get(first, "file_status") == JStr("OK") && Truthy(Get(first, "file_code")) then
            var code := first["file_code"];
            Ok(Uploaded(code, downloadUrlBase + "/" + Display(code)))
          else
            Err("API Upload Error: " + GetText(first, "error", UPLOAD_REJECTED_DEFAULT))
        // `.get` on a first element that is not a dict raises AttributeError
        case _ => Err(UNEXPECTED_UPLOAD_ERROR)
      else
        Err(UNEXPECTED_FORMAT)
  }

  /** `FileUploader.upload_file_sync`: one POST of the form and the file, then the parsed reply. */
  function UploadFileSync(u: FileUploader, data: Stream, filename: string, uploadUrl: Json, sessId: Json,
                          post: PostOutcome): (r: Step<Uploaded>)
    ensures r.reply == UploadReply(u.downloadUrlBase, post)
    ensures |r.calls| == 1 && r.calls[0].HttpPost? && r.calls[0].target == uploadUrl
    ensures r.calls[0].form == UploadForm(sessId) && r.calls[0].files == map["file" := (filename, data)]
  {
    Step(UploadReply(u.downloadUrlBase, post),
         [HttpPost(uploadUrl, UploadForm(sessId), map["file" := (filename, data)], UPLOAD_TIMEOUT)])
  }

  /** Every failure of the transfer, with its exact message. */
  lemma TransferErrors(base: string, post: PostOutcome)
    ensures post.RequestFailure? ==> UploadReply(base, post) == Err("Upload network error: " + post.reason)
    ensures post == PostCrashed ==> UploadReply(base, post) == Err(UNEXPECTED_UPLOAD_ERROR)
    ensures post.Posted? && !(post.payload.JArr? && post.payload.items != []) ==>
      UploadReply(base, post) == Err(UNEXPECTED_FORMAT)
    ensures post.Posted? && post.payload.JArr? && post.payload.items != [] && !post.payload.items[0].JObj? ==>
      UploadReply(base, post) == Err(UNEXPECTED_UPLOAD_ERROR)
    ensures post.Posted? && post.payload.JArr? && post.payload.items != [] && post.payload.items[0].JObj?
            && !Stored(post.payload) ==>
      UploadReply(base, post) ==
        Err("API Upload Error: " + GetText(post.payload.items[0].fields, "error", UPLOAD_REJECTED_DEFAULT))
  {
  }

  /** The file code can be read back from the download link: it is what follows `base + "/"`. */
  lemma DownloadLinkRoundTrip(base: string, post: PostOutcome)
    requires UploadReply(base, post).Ok?
    ensures var up := UploadReply(base, post).value;
      StartsWith(up.downloadLink, base + "/") && up.downloadLink[|base| + 1..] == Display(up.fileCode)
  {
  }

  /** A provider echoing a string code yields exactly `base/code`. */
  lemma EchoedCodeLink(base: string, code: string, rest: seq<Json>)
    requires code != ""
    ensures UploadReply(base, Posted(JArr([JObj(map["file_status" := JStr("OK"), "file_code" := JStr(code)])] + rest)))
         == Ok(Uploaded(JStr(code), base + "/" + code))
  {
  }

  // ---------------------------------------------------------------------
  // Orchestration

  /** `FileUploader.upload_file`: validate, negotiate, check the URL, transfer; the first failure ends the run. */
  function UploadFile(u: FileUploader, data: Stream, filename: string, env: Env): (r: Step<Uploaded>)
    ensures !ValidateFile(filename) ==> r == Step(Err(FILE_TYPE_NOT_ALLOWED), [])
    ensures ValidateFile(filename) && GetUploadServer(u, env.fetch).reply.Err? ==>
      r.reply.Err? && r.reply.error == GetUploadServer(u, env.fetch).reply.error && r.calls == GetUploadServer(u, env.fetch).calls
    ensures ValidateFile(filename) && GetUploadServer(u, env.fetch).reply.Ok? && env.dispatch == DispatchFailed ==>
      r == Step(Err(EXECUTOR_FAILED), GetUploadServer(u, env.fetch).calls)
    ensures ValidateFile(filename) && GetUploadServer(u, env.fetch).reply.Ok? && env.dispatch.Ran? ==>
      r.reply == UploadReply(u.downloadUrlBase, env.dispatch.post)
  {
    if !ValidateFile(filename) then Step(Err(FILE_TYPE_NOT_ALLOWED), [])
    else
      var server := GetUploadServer(u, env.fetch);
      match server.reply
      case Err(e) => Step(Err(e), server.calls)
      case Ok(lease) =>
        if !Truthy(lease.uploadUrl) then Step(Err(NO_UPLOAD_URL), server.calls)
        else
          match env.dispatch
          case DispatchFailed => Step(Err(EXECUTOR_FAILED), server.calls)
          case Ran(post) =>
            var transfer := UploadFileSync(u, data, filename, lease.uploadUrl, lease.sessId, post);
            Step(transfer.reply, server.calls + transfer.calls)
  }

  /**
   * The requests of one run: none, the negotiation alone, or the negotiation
   * followed by one transfer to the negotiated URL. Nothing is retried, and a
   * transfer only happens after a validated name and a granted lease.
   */
  lemma {:induction false} CallsOfUploadFile(u: FileUploader, data: Stream, filename: string, env: Env)
    ensures var r := UploadFile(u, data, filename, env);
      && |r.calls| <= 2
      && (r.calls != [] ==> ValidateFile(filename) && r.calls[0] == HttpGet(ServerUrl(u), NEGOTIATE_TIMEOUT))
      && (|r.calls| == 2 ==>
            && GetUploadServer(u, env.fetch).reply.Ok?
            && r.calls[1] == HttpPost(GetUploadServer(u, env.fetch).reply.value.uploadUrl,
                                  UploadForm(GetUploadServer(u, env.fetch).reply.value.sessId),
                                  map["file" := (filename, data)], UPLOAD_TIMEOUT))
  {
  }

  /** Every message an `upload_file` failure can carry comes from one of the listed sources. */
  predicate IsPipelineError(msg: string) {
    || msg == FILE_TYPE_NOT_ALLOWED || msg == API_KEY_MISSING || msg == REQUEST_TIMED_OUT
    || msg == UNEXPECTED_ERROR || msg == UNEXPECTED_FORMAT || msg == UNEXPECTED_UPLOAD_ERROR
    || msg == EXECUTOR_FAILED
    || StartsWith(msg, "Network error: ") || StartsWith(msg, "API Error: ")
    || StartsWith(msg, "Upload network error: ") || StartsWith(msg, "API Upload Error: ")
  }

  /** Every failure of the negotiation carries a listed message. */
  lemma NegotiationFailuresListed(u: FileUploader, fetch: FetchOutcome)
    ensures GetUploadServer(u, fetch).reply.Err? ==> IsPipelineError(GetUploadServer(u, fetch).reply.error)
  {
  }

  /** Every failure of the transfer carries a listed message. */
  lemma TransferFailuresListed(base: string, post: PostOutcome)
    ensures UploadReply(base, post).Err? ==> IsPipelineError(UploadReply(base, post).error)
  {
  }

  /** The failure messages of `upload_file`, and that "Could not retrieve upload URL" is never among them. */
  lemma {:induction false} UploadUrlCheckUnreachable(u: FileUploader, data: Stream, filename: string, env: Env)
    ensures UploadFile(u, data, filename, env).reply.Err? ==> IsPipelineError(UploadFile(u, data, filename, env).reply.error)
    ensures UploadFile(u, data, filename, env).reply != Err(NO_UPLOAD_URL)
  {
    var r := UploadFile(u, data, filename, env);
    NegotiationFailuresListed(u, env.fetch);
    if env.dispatch.Ran? {
      TransferFailuresListed(u.downloadUrlBase, env.dispatch.post);
    }
    if r.reply.Err? {
      assert IsPipelineError(r.reply.error);
      NoPipelineErrorIsNoUploadUrl(r.reply.error);
    }
  }

  /** No listed message begins with the `C` of "Could not retrieve upload URL". */
  lemma NoPipelineErrorIsNoUploadUrl(msg: string)
    requires IsPipelineError(msg)
    ensures msg != [] && msg[0] != 'C'
    ensures msg != NO_UPLOAD_URL
  {
    if StartsWith(msg, "Network error: ") {
      StartsWithHead(msg, "Network error: ");
    } else if StartsWith(msg, "API Error: ") {
      StartsWithHead(msg, "API Error: ");
    } else if StartsWith(msg, "Upload network error: ") {
      StartsWithHead(msg, "Upload network error: ");
    } else if StartsWith(msg, "API Upload Error: ") {
      StartsWithHead(msg, "API Upload Error: ");
    } else if msg == UNEXPECTED_UPLOAD_ERROR {
      assert msg[0] == UNEXPECTED_ERROR[0];
    }
    assert NO_UPLOAD_URL[0] == 'C';
  }

  /** A payload with status 200, a URL and a session grants exactly that lease after one request. */
  lemma GrantedLease(u: FileUploader, url: string, sess: Json)
    requires u.apiKey != "" && url != ""
    ensures var m := map["status" := JInt(200), "result" := JStr(url), "sess_id" := sess];
      GetUploadServer(u, Fetched(JObj(m))) == Step(Ok(Lease(JStr(url), sess)), [HttpGet(ServerUrl(u), NEGOTIATE_TIMEOUT)])
  {
  }

  /** A payload with status 200 and a URL but no `sess_id` grants a lease whose session is `None`. */
  lemma GrantedLeaseWithoutSession(u: FileUploader, url: string)
    requires u.apiKey != "" && url != ""
    ensures var m := map["status" := JInt(200), "result" := JStr(url)];
      GetUploadServer(u, Fetched(JObj(m))) == Step(Ok(Lease(JStr(url), JNull)), [HttpGet(ServerUrl(u), NEGOTIATE_TIMEOUT)])
  {
  }

  /**
   * A validated name, a server granting `url` with session `sess` and a provider storing the file
   * as `code`: the run returns `base/code` after exactly one negotiation and one transfer that
   * carries the session in its form.
   */
  lemma GrantedSessionRun(u: FileUploader, filename: string, data: Stream, url: string, sess: string, code: string)
    requires ValidateFile(filename) && u.apiKey != "" && url != "" && sess != "" && code != ""
    ensures var env := Env(Fetched(JObj(map["status" := JInt(200), "result" := JStr(url), "sess_id" := JStr(sess)])),
                           Ran(Posted(JArr([JObj(map["file_status" := JStr("OK"), "file_code" := JStr(code)])]))));
      UploadFile(u, data, filename, env) ==
        Step(Ok(Uploaded(JStr(code), u.downloadUrlBase + "/" + code)),
             [HttpGet(ServerUrl(u), NEGOTIATE_TIMEOUT),
              HttpPost(JStr(url), map["utype" := JStr("prem"), "sess_id" := JStr(sess)],
                       map["file" := (filename, data)], UPLOAD_TIMEOUT)])
  {
    GrantedLease(u, url, JStr(sess));
    var response := [JObj(map["file_status" := JStr("OK"), "file_code" := JStr(code)])];
    EchoedCodeLink(u.downloadUrlBase, code, []);
    assert response + [] == response;
    var transfer := UploadFileSync(u, data, filename, JStr(url), JStr(sess), Posted(JArr(response)));
    assert transfer.calls == [HttpPost(JStr(url), map["utype" := JStr("prem"), "sess_id" := JStr(sess)],
                                       map["file" := (filename, data)], UPLOAD_TIMEOUT)];
  }

  /** The end-to-end run of `report.pdf` (any `<name>.pdf`) with lease `http://upload.test/x`, session `S1` and code `Z9`. */
  lemma ReportPdfScenario(u: FileUploader, name: string, data: Stream)
    requires u.apiKey != ""
    ensures var env := Env(Fetched(JObj(map["status" := JInt(200), "result" := JStr("http://upload.test/x"),
                                            "sess_id" := JStr("S1")])),
                           Ran(Posted(JArr([JObj(map["file_status" := JStr("OK"), "file_code" := JStr("Z9")])]))));
      UploadFile(u, data, name + ".pdf", env).reply == Ok(Uploaded(JStr("Z9"), u.downloadUrlBase + "/" + "Z9"))
  {
    CaseExample(name);
    GrantedSessionRun(u, name + ".pdf", data, "http://upload.test/x", "S1", "Z9");
  }

  /** A lease without `sess_id` sends a form without it, and the run still succeeds on an `OK` response. */
  lemma SessionAbsentScenario(u: FileUploader, data: Stream, filename: string, url: string, code: string)
    requires ValidateFile(filename) && u.apiKey != "" && url != "" && code != ""
    ensures var env := Env(Fetched(JObj(map["status" := JInt(200), "result" := JStr(url)])),
                           Ran(Posted(JArr([JObj(map["file_status" := JStr("OK"), "file_code" := JStr(code)])]))));
      var r := UploadFile(u, data, filename, env);
      && r.reply == Ok(Uploaded(JStr(code), u.downloadUrlBase + "/" + code))
      && |r.calls| == 2 && r.calls[1].form == map["utype" := JStr("prem")]
  {
    GrantedLeaseWithoutSession(u, url);
    var response := [JObj(map["file_status" := JStr("OK"), "file_code" := JStr(code)])];
    EchoedCodeLink(u.downloadUrlBase, code, []);
    assert response + [] == response;
  }

  /** A name the validator rejects (`malware.exe`, any `<name>.exe`) ends the run with no request at all. */
  lemma MalwareScenario(u: FileUploader, name: string, data: Stream, env: Env)
    ensures UploadFile(u, data, name + ".exe", env) == Step(Err(FILE_TYPE_NOT_ALLOWED), [])
  {
    ExeNotAllowed();
    ExtensionIsLastSegment(name, "exe", name + ".exe");
  }

  /** With the default settings there is no API key: every validated upload fails before any request. */
  lemma DefaultSettingsRefuseUpload(data: Stream, filename: string, env: Env)
    ensures ValidateFile(filename) ==>
      UploadFile(FromSettings(Config.DEFAULT_API_KEY), data, filename, env) == Step(Err(API_KEY_MISSING), [])
  {
  }
}
