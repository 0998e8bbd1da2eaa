# Upload pipeline of file-upload-share, modelled in Dafny

The application accepts a file on `POST /upload` and relays it to the
DDownload file host. `FileUploader` first validates the filename by its
extension. It then asks the provider's API for an upload server (an upload
URL and an optional session id). Finally it posts the file to that server
on a worker thread and turns the provider's reply into a public download
link. The route wraps this and maps the uploader's `(success, dict)` reply
to a JSON body and an HTTP status code.

The model keeps every decision of that pipeline and replaces every network
call with an abstract outcome value:

- `Uploader.FetchOutcome`: the negotiation request raised `aiohttp.ClientError`, timed out, raised something else, or decoded a JSON body.
- `Uploader.PostOutcome`: the transfer raised `requests.RequestException`, raised something else, or decoded a JSON body.
- `Uploader.DispatchOutcome`: `run_in_executor` ran the transfer or raised.

Decoded bodies are `Json.Json` values. Python truthiness, `dict.get` and
`str()` are `Json.Truthy`, `Json.Get`/`Json.GetText` and `Json.Display`.
`Uploader.GetUploadServer`, `Uploader.UploadFileSync` and
`Uploader.UploadFile` return a `Step`: the reply plus the requests issued,
in order. This is how the model says that no request is made,
that the transfer is never invoked, and that nothing is retried.

Modules, one per source file or concern:

- `Wrappers`: `Option`.
- `Json`: decoded JSON and the Python operations on it.
- `Text`: ASCII `lower()`, `rsplit(".", 1)` and the substring test `sub in s`.
- `Config`: the constants of app/config.py that the core reads.
- `Uploader`: app/modules/uploader.py.
- `Routes`: `upload_file_route` of app/main.py.

The form dict of the transfer is built in place in the source. It is the
method `Uploader.BuildForm`, proved against the specification function
`Uploader.UploadForm`, which the functional model uses. Everything else is
branch-only code over values and is modelled as functions.

What the code does in the less obvious cases:

- The negotiation error uses the payload's `msg` whenever the key is present, even when it is null or empty (`dict.get` with a default). It is not "msg or the fallback".
- Negotiation succeeds only when `result` is truthy, not merely present.
- The route picks the status only by the case-sensitive substrings "API" and "Network". So "Request timed out" gets 400, "Unexpected API response format" gets 500, and "Upload network error: ..." gets 500 exactly when the exception text contains "API" or "Network" (`Routes.UploadNetworkErrorStatus`).
- The code returns a message and no error category, so the model carries only the message.

## Model

| member | source | states |
|---|---|---|
| `Uploader.FromSettings` | app/modules/uploader.py:16-20 | the uploader holds the configured key and the fixed API and download base URLs |
| `Text.RSplitDot` | app/modules/uploader.py:38 | a name with a dot is head + "." + tail with a dot-free tail, i.e. the split is at the last dot |
| `Text.SplitAtLastDotUnique` | app/modules/uploader.py:38 | a string splits around its last dot in exactly one way |
| `Text.LastIndexOf` | app/modules/uploader.py:38 | the index of the last occurrence, or -1 exactly when the character is absent |
| `Uploader.ValidateFile` | app/modules/uploader.py:33-35 | an empty name or a name without a dot is rejected, before any extension is looked at |
| `Uploader.ExtensionIsLastSegment` | app/modules/uploader.py:38-42 | for any prefix p and dot-free e, the extension of the name p.e is lower(e), and the name is accepted iff lower(e) is in the allow-set |
| `Uploader.TrailingDotRejected` | app/modules/uploader.py:38-42 | a name ending in "." has an empty extension and is rejected |
| `Uploader.ExtensionDependsOnLower` | app/modules/uploader.py:38 | names equal after lower-casing have their last dot at the same place and the same extension |
| `Uploader.ValidateIgnoresCase` | app/modules/uploader.py:38-42 | names equal after lower-casing get the same verdict |
| `Uploader.ValidateLowered` | app/modules/uploader.py:38-42 | a name and its lower-cased form get the same verdict |
| `Uploader.CaseExample` | app/modules/uploader.py:38-42 | `<p>.PDF` and `<p>.pdf` are both accepted |
| `Uploader.LastSegmentExample` | app/modules/uploader.py:38-42 | `<p>.tar.zip` is accepted on `zip`; `<p>.zip.exe` is rejected on `exe` |
| `Uploader.GetUploadServer` | app/modules/uploader.py:51-60 | an empty key fails with "API Key not configured" and issues no request; otherwise exactly one GET to `<api>/upload/server?key=<key>` with timeout 30 whose reply is the result mapping `ServerReply`; a success always has a truthy upload URL |
| `Uploader.ServerReply` | app/modules/uploader.py:61-85 | success iff the body is a dict with status 200 and a truthy result; the lease is (result, sess_id or None) with a truthy URL |
| `Uploader.NegotiationErrors` | app/modules/uploader.py:72-85 | transport error gives "Network error: " + text; a timeout gives "Request timed out"; another exception or a non-dict body gives "An unexpected error occurred"; a refusal gives "API Error: " + msg, or the fallback when msg is absent |
| `Uploader.GrantedLease` | app/modules/uploader.py:55-71 | a payload with status 200, a URL and a session grants exactly that lease after the one GET |
| `Uploader.GrantedLeaseWithoutSession` | app/modules/uploader.py:66-71 | a payload without sess_id grants a lease whose session is None |
| `Uploader.UploadForm` | app/modules/uploader.py:104-108 | the form always has utype=prem, has sess_id iff the session id is truthy, with that value, and no other field |
| `Uploader.BuildForm` | app/modules/uploader.py:104-108 | the dict built in place is exactly the specified form |
| `Uploader.UploadReply` | app/modules/uploader.py:119-136 | success iff the body is a non-empty list whose first element is a dict with file_status "OK" and a truthy file_code; the link is base + "/" + str(file_code) |
| `Uploader.UploadFileSync` | app/modules/uploader.py:104-143 | exactly one POST to the leased URL with the specified form and the file under field "file"; the reply is the parsed response |
| `Uploader.TransferErrors` | app/modules/uploader.py:130-143 | "Upload network error: " + text for a request error; "An unexpected error occurred during upload" for another exception or a non-dict first element; "Unexpected API response format" for a non-list or empty list; "API Upload Error: " + error, or the fallback, otherwise |
| `Uploader.DownloadLinkRoundTrip` | app/modules/uploader.py:122-129 | the download link starts with base + "/" and the rest of it is exactly the file code |
| `Uploader.EchoedCodeLink` | app/modules/uploader.py:120-129 | a provider echoing file code `abc123` yields exactly `<base>/abc123` |
| `Uploader.UploadFile` | app/modules/uploader.py:156-191 | a rejected name returns the Arabic message with no request; a negotiation failure is returned unchanged with only the negotiation request; a dispatch failure gives "Failed to execute upload task"; otherwise the transfer's reply is returned unchanged |
| `Uploader.CallsOfUploadFile` | app/modules/uploader.py:156-187 | a run issues at most two requests: the negotiation first, then at most one POST to the granted URL with its form; no step repeats |
| `Uploader.NegotiationFailuresListed` | app/modules/uploader.py:51-85 | every negotiation failure message is one of the listed constants or prefixed forms |
| `Uploader.TransferFailuresListed` | app/modules/uploader.py:119-143 | every transfer failure message is one of the listed constants or prefixed forms |
| `Uploader.NoPipelineErrorIsNoUploadUrl` | app/modules/uploader.py:170-172 | no listed message begins with "C", so none is "Could not retrieve upload URL" |
| `Uploader.UploadUrlCheckUnreachable` | app/modules/uploader.py:170-172 | every failure message is one of the listed kinds, and "Could not retrieve upload URL" never occurs because a granted lease always has a truthy URL |
| `Uploader.GrantedSessionRun` | app/modules/uploader.py:145-187 | validated name, granted lease with session, stored file: the result is `<base>/<code>` after one GET and one POST carrying the session |
| `Uploader.ReportPdfScenario` | app/modules/uploader.py:145-187 | `report.pdf` with lease `http://upload.test/x`, session S1 and code Z9 returns `<base>/Z9` |
| `Uploader.SessionAbsentScenario` | app/modules/uploader.py:104-129 | a lease without sess_id posts a form with only utype and still succeeds on an OK response |
| `Uploader.MalwareScenario` | app/modules/uploader.py:156-157 | `malware.exe` is rejected with the Arabic message and no request at all |
| `Uploader.DefaultSettingsRefuseUpload` | app/modules/uploader.py:51-53 | with the default settings (an empty key) every validated upload fails with "API Key not configured" and issues no request |
| `Text.ContainsIffOccurs` | app/main.py:90 | the recursive substring test holds iff the substring occurs at some index |
| `Text.ContainsAfterFreePrefix` | app/main.py:90 | when the first character of the needle is absent from a prefix, the needle occurs in prefix + rest iff it occurs in rest |
| `Text.AbsentWhenCharMissing` | app/main.py:90 | a needle with a character absent from the text does not occur in it |
| `Routes.ErrorResponse` | app/main.py:91-94 | an error body has exactly the fields status="error" and message |
| `Routes.FailureStatus` | app/main.py:90 | 500 iff the message contains "API" or "Network", case-sensitively; 400 otherwise |
| `Routes.Respond` | app/main.py:78-102 | success gives 200 with status "success", the Arabic success message and the download link; failure gives the message verbatim with FailureStatus; an escaping exception gives the generic Arabic message with 500 |
| `Routes.UploadFileRoute` | app/main.py:49-76 | no "file" part or an empty filename gives 400 without calling the uploader; otherwise the uploader gets the stream and secure_filename(original) |
| `Routes.RejectedRequestSkipsUploader` | app/main.py:50-65 | end to end, a request without a usable file part is a 400 and the uploader is never called |
| `Routes.SanitisedNameReachesUploader` | app/main.py:68-94 | end to end, the uploader sees the sanitised name; success answers 200 with the link under the download base; failure passes the message verbatim |
| `Routes.DefaultSettingsAnswer500` | app/main.py:76-94 | with the default settings every request whose sanitised name validates is answered 500 with "API Key not configured" |
| `Routes.UploadNetworkErrorStatus` | app/main.py:90 | a transfer request error is a 500 iff the exception text contains "API" or "Network" |
| `Routes.MarkerFreeStatus` | app/main.py:90 | a message without a capital P and a capital N always gets 400, since "API" needs the one and "Network" the other |
| `Routes.FileTypeStatus` | app/main.py:90 | the Arabic validation message gets 400 |
| `Routes.ApiKeyStatus` | app/main.py:90 | "API Key not configured" gets 500 |
| `Routes.TimeoutStatus` | app/main.py:90 | "Request timed out" gets 400 |
| `Routes.UnexpectedStatus` | app/main.py:90 | "An unexpected error occurred" gets 400 |
| `Routes.FormatStatus` | app/main.py:90 | "Unexpected API response format" gets 500 |
| `Routes.UnexpectedUploadStatus` | app/main.py:90 | "An unexpected error occurred during upload" gets 400 |
| `Routes.ExecutorStatus` | app/main.py:90 | "Failed to execute upload task" gets 400 |
| `Routes.PrefixedMessageStatus` | app/main.py:90 | every "Network error: ...", "API Error: ..." and "API Upload Error: ..." message gets 500 |
| `Routes.NegotiationStageStatus` | app/main.py:87-94 | end to end, rejection 400, missing key 500, transport error 500, timeout 400, other exception or non-dict body 400, API refusal 500 |
| `Routes.TransferStageStatus` | app/main.py:78-94 | end to end after a granted lease: dispatch failure 400; request error 500 iff its text has a marker; other exception 400; stored file 200; bad shape 500; non-dict first element 400; refusal 500 |

## Left out

- Networking: `aiohttp.ClientSession.get`, `requests.post`, `raise_for_status` and JSON decoding are abstract outcome values. The 30 s and 300 s timeouts appear only as constants in the recorded requests.
- Concurrency: the event loop and `loop.run_in_executor` are not modelled. `DispatchFailed` stands for a dispatch that raised before the transfer could be observed to run, so no POST is recorded for it.
- Logging: every `app_logger` call only observes and is dropped.
- `werkzeug.secure_filename` and the uploader are function parameters of `Routes.UploadFileRoute`. Module `Routes` is proved for every sanitiser, and `Routes.HandleUpload` plugs in the uploader model.
- Text.Lower: lower-cases ASCII letters only, because Python's full Unicode case mapping is out of scope.
- Json.Display: is exact for null, booleans, integers and strings, but renders a list as `[...]` and an object as `{...}` rather than Python's repr, because the model's objects are unordered maps.
- JSON numbers with a fraction are not modelled, so a status of `200.0` (which Python also equals to 200) cannot be expressed.
- Routes.Respond: the defaults of `result.get("download_link", "")` and `result.get("error", ...)` (constant `UPLOAD_UNKNOWN_ERROR`) are unreachable. Every uploader success carries a link and every failure carries a message, so the reply type has no dict without those keys.
- The route's substring test on a non-string error value cannot arise, because every failure message is a string.
- `request.files` is a map. A field repeated in the multipart body is not modelled.
- A werkzeug `FileStorage` (`file`) is falsy exactly when its filename is empty, so both checks at app/main.py:60 are the one test `filename == ""`.
- The `index` route, app/__init__.py, app/modules/logger.py, app/static/js/main.js and the settings loading of app/config.py are not part of this model. Only the URL constants, the default key and the allow-set of app/config.py are used.
