/** The API gateway client of app/utils/api.ts: a request helper that tries a
    fixed list of backend bases in order, the JSON wrapper around it, and the
    typed endpoint wrappers. The browser's `fetch` and `response.json()` are
    oracles: each attempt's outcome is handed to the model as an `Attempt`. */
module Api {
  import opened Wrappers
  import opened JsText

  const DefaultPrimaryUrl: string := "https://double-h-affairs-backend.onrender.com"
  const FallbackUrl: string := "https://double-h-affairs-backend-sidiq.onrender.com"

  /** The primary base: the build-time `VITE_API_URL` when it is set and
      non-empty, else the built-in default. */
  function PrimaryUrl(env: Option<string>): (u: string)
    ensures u != ""
    ensures env.Some? && env.value != "" ==> u == env.value
    ensures !(env.Some? && env.value != "") ==> u == DefaultPrimaryUrl
  {
    if env.Some? && env.value != "" then env.value else DefaultPrimaryUrl
  }

  /** The bases tried, in order: primary, fallback, primary again. */
  function Candidates(primary: string): seq<string> {
    [primary, FallbackUrl, primary]
  }

  /** A JSON value, as produced by `JSON.parse` or passed to `JSON.stringify`. */
  datatype Json =
    | JNull
    | JBool(b: bool)
    | JNum(n: int)
    | JStr(s: string)
    | JArr(items: seq<Json>)
    | JObj(fields: seq<(string, Json)>)

  /** The value of property `key` of a parsed object, if any. `JSON.parse`
      keeps the last of repeated keys, so the last binding wins. */
  function Lookup(fields: seq<(string, Json)>, key: string): (v: Option<Json>)
    ensures v.Some? <==> exists i :: 0 <= i < |fields| && fields[i].0 == key
    ensures v.Some? ==> exists i :: 0 <= i < |fields| && fields[i] == (key, v.value) &&
                          forall j :: i < j < |fields| ==> fields[j].0 != key
    decreases |fields|
  {
    if fields == [] then None
    else if fields[|fields| - 1].0 == key then Some(fields[|fields| - 1].1)
    else Lookup(fields[..|fields| - 1], key)
  }

  /** The part of `RequestInit` the client passes: an absent key is `None`. */
  datatype RequestOptions = RequestOptions(
    verb: Option<string>,
    headers: Option<map<string, string>>,
    body: Option<Json>)

  const NoOptions: RequestOptions := RequestOptions(None, None, None)
  const JsonHeaders: map<string, string> := map["Content-Type" := "application/json"]

  /** One call to `fetch`: where it goes and with what. */
  datatype Request = Request(
    url: string,
    verb: Option<string>,
    headers: map<string, string>,
    body: Option<Json>)

  /** A completed HTTP exchange. `body` is what `response.json()` yields, or
      `None` when the body is not valid JSON. */
  datatype Response = Response(status: nat, body: Option<Json>) {
    /** `Response.ok`: a status in the range 200-299. */
    predicate Ok() {
      200 <= status <= 299
    }
  }

  /** The error values that can be thrown. `Error` is a plain `Error`;
      `ApiError` is the client's own subclass carrying the HTTP status. */
  datatype Exc =
    | TypeError(message: string)
    | SyntaxError(message: string)
    | Error(message: string)
    | ApiError(message: string, status: nat)

  /** What one `fetch` did: resolved with a response, or rejected. `fetch`
      rejects with a `TypeError` (no abort signal is ever passed). */
  datatype Attempt = Replied(response: Response) | Threw(message: string)

  /** The loop stops at an attempt exactly when it resolved with an ok response. */
  predicate Accepted(a: Attempt) {
    a.Replied? && a.response.Ok()
  }

  /** The header object the client builds: `Content-Type: application/json`
      merged with the caller's headers, but then overwritten wholesale by the
      caller's `headers` property, because `...options` is spread after it. */
  function HeadersFor(options: RequestOptions): map<string, string> {
    var merged := JsonHeaders + options.headers.GetOr(map[]);
    if options.headers.Some? then options.headers.value else merged
  }

  /** The request issued against one base. */
  function RequestFor(base: string, endpoint: string, options: RequestOptions): (r: Request)
    ensures r.url == base + endpoint
    ensures r.verb == options.verb && r.body == options.body
    ensures options.headers.None? ==> r.headers == JsonHeaders
    ensures options.headers.Some? ==> r.headers == options.headers.value
  {
    Request(base + endpoint, options.verb, HeadersFor(options), options.body)
  }

  /** The request carries the JSON content type exactly when the caller gave no
      headers or gave that header itself: caller headers never merge with it. */
  lemma ContentTypeOnlyByDefault(base: string, endpoint: string, options: RequestOptions)
    ensures var h := RequestFor(base, endpoint, options).headers;
      ("Content-Type" in h && h["Content-Type"] == "application/json") <==>
      (options.headers.None? ||
       ("Content-Type" in options.headers.value && options.headers.value["Content-Type"] == "application/json"))
  {
  }

  /** Decimal digits of a natural number, as template literals print it:
      no leading zero except for zero itself. */
  function NatToString(n: nat): (s: string)
    ensures s != [] && forall i :: 0 <= i < |s| ==> '0' <= s[i] <= '9'
    ensures |s| == 1 || s[0] != '0'
  {
    var d := [('0' as int + n % 10) as char];
    if n < 10 then d else NatToString(n / 10) + d
  }

  /** The number a string of decimal digits denotes. */
  function DigitsValue(s: string): nat
    requires forall i :: 0 <= i < |s| ==> '0' <= s[i] <= '9'
  {
    if s == [] then 0
    else DigitsValue(s[..|s| - 1]) * 10 + (s[|s| - 1] as int - '0' as int)
  }

  /** The printed status reads back as the status itself. */
  lemma {:induction false} NatToStringRoundTrip(n: nat)
    ensures DigitsValue(NatToString(n)) == n
  {
    var s := NatToString(n);
    assert s[..|s| - 1] == if n < 10 then [] else NatToString(n / 10);
    if n >= 10 {
      NatToStringRoundTrip(n / 10);
    }
  }

  /** The error the loop records for a failed attempt against `base`. */
  function AttemptError(base: string, a: Attempt): (e: Exc)
    requires !Accepted(a)
    ensures a.Threw? ==> e == TypeError(a.message)
    ensures a.Replied? ==> e == Error("Failed at " + base + " with status " + NatToString(a.response.status))
  {
    match a
    case Threw(message) => TypeError(message)
    case Replied(response) =>
      Error("Failed at " + base + " with status " + NatToString(response.status))
  }

  /** The index of the first accepted attempt, if any. */
  function FirstAccepted(attempts: seq<Attempt>): (k: Option<nat>)
    ensures k.Some? ==> k.value < |attempts| && Accepted(attempts[k.value])
    ensures k.Some? ==> forall i :: 0 <= i < k.value ==> !Accepted(attempts[i])
    ensures k.None? ==> forall i :: 0 <= i < |attempts| ==> !Accepted(attempts[i])
  {
    if attempts == [] then None
    else if Accepted(attempts[0]) then Some(0)
    else match FirstAccepted(attempts[1..])
      case None => None
      case Some(j) => Some(j + 1)
  }

  /** `fetchWithRetry`. `attempts[i]` is what the i-th `fetch` would do. The
      bases are tried in order, each at most once; the first ok response is
      returned and nothing is sent after it; when none is ok, the error
      recorded for the last attempt is thrown. `sent` lists the requests made. */
  method FetchWithRetry(primary: string, endpoint: string, options: RequestOptions, attempts: seq<Attempt>)
    returns (result: Result<Response, Exc>, sent: seq<Request>)
    requires |attempts| == |Candidates(primary)|
    ensures 1 <= |sent| <= 3
    ensures forall i :: 0 <= i < |sent| ==> sent[i] == RequestFor(Candidates(primary)[i], endpoint, options)
    ensures result.Ok? ==> result.value.Ok()
    ensures match FirstAccepted(attempts)
      case Some(k) => |sent| == k + 1 && result == Ok(attempts[k].response)
      case None => |sent| == 3 && result == Err(AttemptError(Candidates(primary)[2], attempts[2]))
  {
    var urls := Candidates(primary);
    var lastError: Option<Exc> := None;
    sent := [];
    var i := 0;
    while i < |urls|
      invariant 0 <= i <= |urls|
      invariant |sent| == i
      invariant forall j :: 0 <= j < i ==> sent[j] == RequestFor(urls[j], endpoint, options)
      invariant forall j :: 0 <= j < i ==> !Accepted(attempts[j])
      invariant i == 0 <==> lastError.None?
      invariant i > 0 ==> lastError == Some(AttemptError(urls[i - 1], attempts[i - 1]))
    {
      var base := urls[i];
      var request := RequestFor(base, endpoint, options);
      sent := sent + [request];
      match attempts[i] {
        case Replied(response) =>
          if response.Ok() {
            result := Ok(response);
            return;
          }
        case Threw(_) =>
      }
      lastError := Some(AttemptError(base, attempts[i]));
      i := i + 1;
    }
    result := Err(lastError.GetOr(Error("All retries failed")));
  }

  /** The body is an object whose `error` property is a non-empty string. */
  predicate CarriesErrorText(data: Json) {
    data.JObj? && Lookup(data.fields, "error").Some? &&
    Lookup(data.fields, "error").value.JStr? && Lookup(data.fields, "error").value.s != ""
  }

  /** The message of an `ApiError`: the body's `error` property when truthy,
      else a generic text. Reading a property of JSON `null` throws. */
  function ErrorMessage(data: Json): (r: Result<string, Exc>)
    ensures r.Err? <==> data.JNull?
    ensures r.Ok? ==> r.value != ""
    ensures CarriesErrorText(data) ==> r == Ok(Lookup(data.fields, "error").value.s)
    ensures !data.JNull? && !CarriesErrorText(data) ==> r == Ok("API request failed")
  {
    match data
    case JNull => Err(TypeError("Cannot read properties of null (reading 'error')"))
    case JObj(fields) =>
      (match Lookup(fields, "error")
       case Some(JStr(s)) => if s != "" then Ok(s) else Ok("API request failed")
       case _ => Ok("API request failed"))
    case _ => Ok("API request failed")
  }

  /** What `apiRequest` makes of the response `fetchWithRetry` returned:
      parse the body, then raise `ApiError` if the status is not ok. */
  function Interpret(response: Response): (r: Result<Json, Exc>)
    ensures r.Ok? <==> response.Ok() && response.body.Some?
    ensures r.Ok? ==> r.value == response.body.value
    ensures r.Err? && r.error.ApiError? <==> !response.Ok() && response.body.Some? && response.body.value != JNull
    ensures r.Err? && r.error.ApiError? ==> r.error.status == response.status
    ensures r.Err? && r.error.ApiError? ==> ErrorMessage(response.body.value) == Ok(r.error.message)
  {
    match response.body
    case None => Err(SyntaxError("Unexpected token in JSON"))
    case Some(data) =>
      if !response.Ok() then
        match ErrorMessage(data)
        case Ok(message) => Err(ApiError(message, response.status))
        case Err(e) => Err(e)
      else Ok(data)
  }

  /** `apiRequest`. Because `FetchWithRetry` only ever returns ok responses,
      the `ApiError` branch of `Interpret` is never taken: every failure is
      the error thrown by the retry loop or the JSON parser. */
  method ApiRequest(primary: string, endpoint: string, options: RequestOptions, attempts: seq<Attempt>)
    returns (result: Result<Json, Exc>, sent: seq<Request>)
    requires |attempts| == |Candidates(primary)|
    ensures result.Err? ==> !result.error.ApiError?
    ensures result.Ok? <==> FirstAccepted(attempts).Some? && attempts[FirstAccepted(attempts).value].response.body.Some?
    ensures result.Ok? ==> result.value == attempts[FirstAccepted(attempts).value].response.body.value
    ensures FirstAccepted(attempts).None? ==> result == Err(AttemptError(Candidates(primary)[2], attempts[2]))
    ensures 1 <= |sent| <= 3 && forall i :: 0 <= i < |sent| ==> sent[i] == RequestFor(Candidates(primary)[i], endpoint, options)
  {
    var fetched;
    fetched, sent := FetchWithRetry(primary, endpoint, options, attempts);
    match fetched {
      case Err(e) =>
        result := Err(e);
      case Ok(response) =>
        result := Interpret(response);
    }
  }

  /** The text a page shows for a rejected call: the message of an `ApiError`,
      otherwise the page's own generic text. */
  function ErrorText(e: Exc, generic: string): string {
    if e.ApiError? then e.message else generic
  }

  /** An endpoint wrapper's call: the path and the options it passes. */
  datatype Call = Call(endpoint: string, options: RequestOptions)

  function Post(endpoint: string, body: Json): Call {
    Call(endpoint, RequestOptions(Some("POST"), None, Some(body)))
  }

  function GenerateQRCodes(count: int): Call {
    Post("/api/generate", JObj([("count", JNum(count))]))
  }

  function GetAllCodes(): Call {
    Call("/api/codes", NoOptions)
  }

  function GetCodeInfo(codeId: string): Call {
    Call("/api/code/" + codeId, NoOptions)
  }

  function GetStats(): Call {
    Call("/api/stats", NoOptions)
  }

  function GetAttendees(): Call {
    Call("/api/attendees", NoOptions)
  }

  function InitializeQR(codeId: string, name: string): Call {
    Post("/api/init", JObj([("code_id", JStr(codeId)), ("name", JStr(name))]))
  }

  function ScanQR(codeId: string): Call {
    Post("/api/scan", JObj([("code_id", JStr(codeId))]))
  }

  function HealthCheck(): Call {
    Call("/health", NoOptions)
  }

  /** Every wrapper sends the JSON content type (none passes headers), and the
      data-changing ones are POSTs whose body the server can read back. */
  lemma WrappersSendJson(base: string, codeId: string, name: string, count: int)
    ensures forall c :: c in {GenerateQRCodes(count), GetAllCodes(), GetCodeInfo(codeId), GetStats(),
                               GetAttendees(), InitializeQR(codeId, name), ScanQR(codeId), HealthCheck()}
                        ==> RequestFor(base, c.endpoint, c.options).headers == JsonHeaders
    ensures var r := RequestFor(base, ScanQR(codeId).endpoint, ScanQR(codeId).options);
      r.url == base + "/api/scan" && r.verb == Some("POST") &&
      r.body.Some? && r.body.value.JObj? && Lookup(r.body.value.fields, "code_id") == Some(JStr(codeId))
    ensures var r := RequestFor(base, InitializeQR(codeId, name).endpoint, InitializeQR(codeId, name).options);
      r.url == base + "/api/init" && r.verb == Some("POST") && r.body.Some? && r.body.value.JObj? &&
      Lookup(r.body.value.fields, "code_id") == Some(JStr(codeId)) && Lookup(r.body.value.fields, "name") == Some(JStr(name))
    ensures var r := RequestFor(base, GenerateQRCodes(count).endpoint, GenerateQRCodes(count).options);
      r.url == base + "/api/generate" && r.verb == Some("POST") &&
      r.body.Some? && r.body.value.JObj? && Lookup(r.body.value.fields, "count") == Some(JNum(count))
  {
  }

  /** The code lookup's URL string ends with the identifier as given, not
      percent-encoded, and the call sends no method (a GET). */
  lemma CodeInfoCarriesId(base: string, codeId: string)
    ensures var r := RequestFor(base, GetCodeInfo(codeId).endpoint, GetCodeInfo(codeId).options);
      r.verb.None? && r.body.None? &&
      |r.url| == |base| + 10 + |codeId| && r.url[..|base|] == base &&
      r.url[|base|..|base| + 10] == "/api/code/" && r.url[|base| + 10..] == codeId
  {
  }

  /** The record shapes the backend returns (TypeScript interfaces of api.ts). */
  datatype QRCode = QRCode(
    codeId: string,
    qrNumber: int,
    name: Nullable,
    scanCount: int,
    maxScans: int,
    createdAt: string,
    initializedAt: Option<string>)

  datatype ScanResult = ScanResult(
    status: string,            // "valid" or "invalid"
    name: Option<string>,
    scansLeft: Option<int>,
    qrNumber: Option<int>,
    reason: Option<string>)

  datatype Attendee = Attendee(
    name: string,
    qrNumber: int,
    initializedAt: string,
    scanCount: int,
    maxScans: int)
}
