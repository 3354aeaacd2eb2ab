/**
 * The decision rules of the network client (src/lib/api.ts): which backend a
 * build talks to, which headers a request carries, how a response becomes a
 * value or an error, how the history endpoint's payload is normalised, and the
 * query strings of three endpoints. The network itself is a parameter: a
 * request's response is given as an `HttpResponse`.
 */
module Api {
  import opened Wrappers
  import opened JsValues

  const ProductionApiUrl: string := "https://qwoo0wg80000ccg4gs8w0wc0.useguidr.com"
  const DevelopmentApiUrl: string := "http://localhost:3001"
  const ProductionDomain: string := "useguidr.com"

  predicate StartsWith(s: string, prefix: string) {
    |prefix| <= |s| && s[..|prefix|] == prefix
  }

  /** `s.includes(sub)` */
  predicate Contains(s: string, sub: string) {
    exists i :: 0 <= i <= |s| && StartsWith(s[i..], sub)
  }

  /** A string-valued setting is in force only when it is truthy (present and non-empty). */
  predicate IsSet(v: Option<string>) {
    v.Some? && v.value != ""
  }

  /**
   * `getApiBaseUrl`: `VITE_API_URL` when set, else the production backend when
   * the page is served from a `useguidr.com` host, else the local backend.
   * `hostname` is None outside a browser.
   */
  function ApiBaseUrl(viteApiUrl: Option<string>, hostname: Option<string>): (url: string)
    ensures IsSet(viteApiUrl) ==> url == viteApiUrl.value
    ensures !IsSet(viteApiUrl) ==>
              (url == ProductionApiUrl <==> hostname.Some? && Contains(hostname.value, ProductionDomain))
    ensures !IsSet(viteApiUrl) ==>
              (url == DevelopmentApiUrl <==> !(hostname.Some? && Contains(hostname.value, ProductionDomain)))
  {
    assert ProductionApiUrl[4] != DevelopmentApiUrl[4];
    if IsSet(viteApiUrl) then viteApiUrl.value
    else if hostname.Some? && Contains(hostname.value, ProductionDomain) then ProductionApiUrl
    else DevelopmentApiUrl
  }

  /** A front end served from a `useguidr.com` subdomain talks to the production backend. */
  lemma SubdomainSelectsProduction()
    ensures ApiBaseUrl(None, Some("app.useguidr.com")) == ProductionApiUrl
    ensures ApiBaseUrl(Some(""), Some("localhost")) == DevelopmentApiUrl
  {
    assert StartsWith("app.useguidr.com"[4..], ProductionDomain);
    assert !Contains("localhost", ProductionDomain);
  }

  // ---------------------------------------------------------------------------
  // Request headers

  /**
   * The headers of a request, by lower-case name (a `Headers` object compares
   * names case-insensitively, so `Content-Type` and `content-type` are one).
   */
  type HeaderMap = map<string, string>

  const ContentTypeHeader: string := "content-type"
  const AuthorizationHeader: string := "authorization"
  const JsonContentType: string := "application/json"

  /** `options.body` is truthy */
  predicate HasBody(body: Option<string>) {
    IsSet(body)
  }

  /** The endpoints that get the admin session token. */
  predicate IsAdminEndpoint(endpoint: string) {
    StartsWith(endpoint, "/admin") || StartsWith(endpoint, "/auth/admin")
  }

  /**
   * `shouldAttachAdminToken`: a stored admin token (None outside a browser or
   * when session storage has none), no caller-supplied `Authorization`, and an
   * admin endpoint.
   */
  predicate AttachesAdminToken(given: HeaderMap, adminToken: Option<string>, endpoint: string) {
    IsSet(adminToken) && AuthorizationHeader !in given && IsAdminEndpoint(endpoint)
  }

  /**
   * The headers a request is sent with. A caller-supplied header is never
   * replaced; `Content-Type: application/json` is added exactly when there is a
   * body and none was given; the admin bearer token is added exactly when
   * `AttachesAdminToken` holds; nothing else is added.
   */
  function PreparedHeaders(given: HeaderMap, body: Option<string>, adminToken: Option<string>, endpoint: string)
    : (h: HeaderMap)
    ensures forall k :: k in given ==> k in h && h[k] == given[k]
    ensures forall k :: k in h && k !in given ==> k == ContentTypeHeader || k == AuthorizationHeader
    ensures ContentTypeHeader !in given ==> (ContentTypeHeader in h <==> HasBody(body))
    ensures ContentTypeHeader !in given && HasBody(body) ==> h[ContentTypeHeader] == JsonContentType
    ensures AuthorizationHeader in h && AuthorizationHeader !in given <==> AttachesAdminToken(given, adminToken, endpoint)
    ensures AttachesAdminToken(given, adminToken, endpoint) ==> h[AuthorizationHeader] == "Bearer " + adminToken.value
  {
    var withType := if HasBody(body) && ContentTypeHeader !in given then given[ContentTypeHeader := JsonContentType] else given;
    if AttachesAdminToken(given, adminToken, endpoint) then withType[AuthorizationHeader := "Bearer " + adminToken.value]
    else withType
  }

  /** Building the `Headers` object of `request` one `set` at a time. */
  method PrepareHeaders(given: HeaderMap, body: Option<string>, adminToken: Option<string>, endpoint: string)
    returns (headers: HeaderMap)
    ensures headers == PreparedHeaders(given, body, adminToken, endpoint)
    ensures forall k :: k in given ==> k in headers && headers[k] == given[k]
  {
    headers := given;
    if HasBody(body) && ContentTypeHeader !in headers {
      headers := headers[ContentTypeHeader := JsonContentType];
    }
    var shouldAttach := IsSet(adminToken) && AuthorizationHeader !in headers && IsAdminEndpoint(endpoint);
    if shouldAttach {
      headers := headers[AuthorizationHeader := "Bearer " + adminToken.value];
    }
  }

  // ---------------------------------------------------------------------------
  // Responses

  /** What `fetch` produced: `body` is None when it is not valid JSON. */
  datatype HttpResponse = HttpResponse(ok: bool, status: nat, statusText: string, body: Option<JsVal>)

  /** The errors `request` can throw. */
  datatype ApiError =
      /** a non-OK response; `message` is the raw value chosen for `new Error(...)` */
    | HttpError(message: JsVal, response: JsVal)
      /** reading `data` of a `null` payload */
    | TypeError
      /** an OK response whose body is not JSON */
    | InvalidJson

  function DefaultErrorMessage(status: nat, statusText: string): string {
    "API Error: " + NatToString(status) + " " + statusText
  }

  /**
   * The message of a failed request: the error body's `message` if truthy,
   * else its `error` if truthy, else the status line. An unreadable body, or a
   * `null` one (reading its properties throws and is caught), gives the status
   * line. The message is never empty.
   */
  function ErrorMessageOf(status: nat, statusText: string, errorData: Option<JsVal>): (m: JsVal)
    ensures Truthy(m)
    ensures errorData.Some? && Truthy(Prop(errorData.value, "message")) ==> m == Prop(errorData.value, "message")
    ensures errorData.Some? && !Truthy(Prop(errorData.value, "message")) && Truthy(Prop(errorData.value, "error")) ==>
              m == Prop(errorData.value, "error")
    ensures m != Prop(errorData.GetOr(Undefined), "message") && m != Prop(errorData.GetOr(Undefined), "error") ==>
              m == Str(DefaultErrorMessage(status, statusText))
    ensures errorData.None? || errorData.value.Null? ==> m == Str(DefaultErrorMessage(status, statusText))
  {
    var data := errorData.GetOr(Undefined);
    if Truthy(Prop(data, "message")) then Prop(data, "message")
    else if Truthy(Prop(data, "error")) then Prop(data, "error")
    else Str(DefaultErrorMessage(status, statusText))
  }

  /** The `errorMessage` variable of `request`, reassigned as the body is inspected. */
  method ErrorMessage(status: nat, statusText: string, errorData: Option<JsVal>) returns (message: JsVal)
    ensures message == ErrorMessageOf(status, statusText, errorData)
    ensures Truthy(message)
  {
    message := Str(DefaultErrorMessage(status, statusText));
    if errorData.Some? {
      var data := errorData.value;
      if Truthy(Prop(data, "message")) {
        message := Prop(data, "message");
      } else if Truthy(Prop(data, "error")) {
        message := Prop(data, "error");
      }
    }
  }

  /** The thrown error: its `response.data.error` is the message itself. */
  function ThrownError(message: JsVal): (e: ApiError)
    ensures e.HttpError? && e.message == message
    ensures Prop(Prop(e.response, "data"), "error") == message
  {
    HttpError(message, Obj(map["data" := Obj(map["error" := message])]))
  }

  /**
   * Unwrapping the server's `{ data: ... }` envelope: `result.data` when it is
   * not `undefined` (so a `null` payload comes back as `null`), else `result`;
   * reading `data` of `null` throws.
   */
  function Unwrap(result: JsVal): (r: Result<JsVal, ApiError>)
    ensures r.Failure? <==> result.Null? || result.Undefined?
    ensures r.Failure? ==> r.error == TypeError
    ensures r.Success? ==> r.value == (if Prop(result, "data").Undefined? then result else Prop(result, "data"))
  {
    if result.Null? || result.Undefined? then Failure(TypeError)
    else if !Prop(result, "data").Undefined? then Success(Prop(result, "data"))
    else Success(result)
  }

  /** Unwrapping undoes the envelope, `null` included; a value without one passes through. */
  lemma UnwrapEnvelope(v: JsVal)
    ensures !v.Undefined? ==> Unwrap(Obj(map["data" := v])) == Success(v)
    ensures !v.Null? && !v.Undefined? && Prop(v, "data").Undefined? ==> Unwrap(v) == Success(v)
  {
  }

  /** What `request` resolves to or throws, given the response. */
  function ResponseOutcome(response: HttpResponse): (r: Result<JsVal, ApiError>)
    ensures !response.ok ==> r.Failure? && r.error.HttpError? && Truthy(r.error.message)
    ensures !response.ok ==> r == Failure(ThrownError(ErrorMessageOf(response.status, response.statusText, response.body)))
    ensures response.ok && response.body.None? ==> r == Failure(InvalidJson)
    ensures response.ok && response.body.Some? ==> r == Unwrap(response.body.value)
  {
    if !response.ok then
      Failure(ThrownError(ErrorMessageOf(response.status, response.statusText, response.body)))
    else if response.body.None? then Failure(InvalidJson)
    else Unwrap(response.body.value)
  }

  /** `ApiClient.request`: the URL and headers it sends and what it returns for the response. */
  method Request(baseUrl: string, endpoint: string, given: HeaderMap, body: Option<string>,
                 adminToken: Option<string>, response: HttpResponse)
    returns (url: string, headers: HeaderMap, outcome: Result<JsVal, ApiError>)
    ensures url == baseUrl + endpoint && StartsWith(url, baseUrl)
    ensures headers == PreparedHeaders(given, body, adminToken, endpoint)
    ensures outcome == ResponseOutcome(response)
  {
    url := baseUrl + endpoint;
    assert url[..|baseUrl|] == baseUrl;
    headers := PrepareHeaders(given, body, adminToken, endpoint);
    if !response.ok {
      var message := ErrorMessage(response.status, response.statusText, response.body);
      outcome := Failure(ThrownError(message));
    } else if response.body.None? {
      outcome := Failure(InvalidJson);
    } else {
      outcome := Unwrap(response.body.value);
    }
  }

  // ---------------------------------------------------------------------------
  // getUserHistory

  /** `{ history, success, error? }`; `error` stands for the caught error's message. */
  datatype HistoryResult = HistoryResult(history: seq<JsVal>, success: JsVal, error: Option<ApiError>)

  /** The headers `getUserHistory` passes: a bearer token only when one is given. */
  function HistoryHeaders(token: Option<string>): (h: HeaderMap)
    ensures AuthorizationHeader in h <==> IsSet(token)
    ensures IsSet(token) ==> h[AuthorizationHeader] == "Bearer " + token.value
    ensures h.Keys <= {AuthorizationHeader}
  {
    if IsSet(token) then map[AuthorizationHeader := "Bearer " + token.value] else map[]
  }

  const HistoryEndpoint: string := "/daily-events/history"

  /** The history request carries the user's token and never the admin one. */
  lemma HistoryRequestHeaders(token: Option<string>, adminToken: Option<string>)
    ensures PreparedHeaders(HistoryHeaders(token), None, adminToken, HistoryEndpoint) == HistoryHeaders(token)
  {
    assert !StartsWith(HistoryEndpoint, "/admin") by { assert HistoryEndpoint[1] != "/admin"[1]; }
    assert !StartsWith(HistoryEndpoint, "/auth/admin") by { assert HistoryEndpoint[1] != "/auth/admin"[1]; }
  }

  /**
   * `getUserHistory` after its request: a bare array, else a `history` array
   * (keeping the server's `success` unless nullish), else `data.history`, else
   * a `data` array, else `[]`; a thrown error becomes `[]` with `success: false`.
   */
  function UserHistory(outcome: Result<JsVal, ApiError>): (r: HistoryResult)
    ensures outcome.Failure? <==> r.error.Some?
    ensures outcome.Failure? ==> r == HistoryResult([], Bool(false), Some(outcome.error))
    ensures r.success == Bool(false) ==> outcome.Failure? || Prop(outcome.value, "success") == Bool(false)
    ensures outcome.Success? && outcome.value.Arr? ==>
              r == HistoryResult(outcome.value.items, Bool(true), None)
    ensures outcome.Success? && !outcome.value.Arr? && Prop(outcome.value, "history").Arr? ==>
              r == HistoryResult(Prop(outcome.value, "history").items, Nullish(Prop(outcome.value, "success"), Bool(true)), None)
    ensures outcome.Success? && !outcome.value.Arr? && !Prop(outcome.value, "history").Arr?
            && Prop(Prop(outcome.value, "data"), "history").Arr? ==>
              r == HistoryResult(Prop(Prop(outcome.value, "data"), "history").items, Bool(true), None)
    ensures outcome.Success? && !outcome.value.Arr? && !Prop(outcome.value, "history").Arr?
            && !Prop(Prop(outcome.value, "data"), "history").Arr? && Prop(outcome.value, "data").Arr? ==>
              r == HistoryResult(Prop(outcome.value, "data").items, Bool(true), None)
    ensures outcome.Success? && !outcome.value.Arr? && !Prop(outcome.value, "history").Arr?
            && !Prop(Prop(outcome.value, "data"), "history").Arr? && !Prop(outcome.value, "data").Arr? ==>
              r == HistoryResult([], Bool(true), None)
  {
    match outcome
    case Failure(e) => HistoryResult([], Bool(false), Some(e))
    case Success(v) =>
      if v.Arr? then HistoryResult(v.items, Bool(true), None)
      else if Prop(v, "history").Arr? then HistoryResult(Prop(v, "history").items, Nullish(Prop(v, "success"), Bool(true)), None)
      else if Prop(Prop(v, "data"), "history").Arr? then HistoryResult(Prop(Prop(v, "data"), "history").items, Bool(true), None)
      else if Prop(v, "data").Arr? then HistoryResult(Prop(v, "data").items, Bool(true), None)
      else HistoryResult([], Bool(true), None)
  }

  /** The four accepted payload shapes for the same list all give that list, successfully. */
  lemma HistoryShapesAgree(xs: seq<JsVal>)
    ensures UserHistory(Success(Arr(xs))) == HistoryResult(xs, Bool(true), None)
    ensures UserHistory(Success(Obj(map["history" := Arr(xs)]))) == HistoryResult(xs, Bool(true), None)
    ensures UserHistory(Success(Obj(map["data" := Obj(map["history" := Arr(xs)])]))) == HistoryResult(xs, Bool(true), None)
    ensures UserHistory(Success(Obj(map["data" := Arr(xs)]))) == HistoryResult(xs, Bool(true), None)
  {
  }

  /** A server envelope `{ data: [...] }` reaches the page as the bare list. */
  lemma HistoryThroughRequest(xs: seq<JsVal>)
    ensures UserHistory(ResponseOutcome(HttpResponse(true, 200, "OK", Some(Obj(map["data" := Arr(xs)])))))
            == HistoryResult(xs, Bool(true), None)
  {
  }

  // ---------------------------------------------------------------------------
  // Endpoint URLs

  const TransactionsPath: string := "/transactions"
  const TransactionsFilterPrefix: string := "/transactions?filter="
  const TopStakersPrefix: string := "/admin/top-stakers?limit="
  const AdminHistoryPrefix: string := "/admin/history?limit="

  /** `getUserTransactions`: a `filter` query only when a filter is given. */
  function TransactionsUrl(filter: Option<string>): (url: string)
    ensures StartsWith(url, TransactionsPath)
    ensures url == TransactionsPath <==> !IsSet(filter)
    ensures IsSet(filter) ==> StartsWith(url, TransactionsFilterPrefix) && url[|TransactionsFilterPrefix|..] == filter.value
  {
    if IsSet(filter) then
      var url := TransactionsFilterPrefix + filter.value;
      assert url[..|TransactionsPath|] == TransactionsPath;
      assert url[..|TransactionsFilterPrefix|] == TransactionsFilterPrefix;
      url
    else TransactionsPath
  }

  /** An admin path followed by a query value: still an admin endpoint, and the value reads back after the path. */
  lemma AdminQuery(path: string, value: string)
    requires StartsWith(path, "/admin")
    ensures StartsWith(path + value, path) && IsAdminEndpoint(path + value)
    ensures (path + value)[|path|..] == value
  {
    assert (path + value)[..|path|] == path;
    assert (path + value)[..6] == path[..6];
  }

  /** `getAdminTopStakers(limit = 10)`: the query reads back as the limit, 10 when none is passed. */
  function TopStakersUrl(limit: Option<nat>): (url: string)
    ensures StartsWith(url, TopStakersPrefix) && IsAdminEndpoint(url)
    ensures CanonicalDigits(url[|TopStakersPrefix|..]) && DigitsValue(url[|TopStakersPrefix|..]) == limit.GetOr(10)
  {
    var digits := NatToString(limit.GetOr(10));
    NatToStringRoundTrip(limit.GetOr(10));
    assert TopStakersPrefix[..6] == "/admin";
    AdminQuery(TopStakersPrefix, digits);
    TopStakersPrefix + digits
  }

  /** `getAdminHistory(limit = 50)`: the query reads back as the limit, 50 when none is passed. */
  function AdminHistoryUrl(limit: Option<nat>): (url: string)
    ensures StartsWith(url, AdminHistoryPrefix) && IsAdminEndpoint(url)
    ensures CanonicalDigits(url[|AdminHistoryPrefix|..]) && DigitsValue(url[|AdminHistoryPrefix|..]) == limit.GetOr(50)
  {
    var digits := NatToString(limit.GetOr(50));
    NatToStringRoundTrip(limit.GetOr(50));
    assert AdminHistoryPrefix[..6] == "/admin";
    AdminQuery(AdminHistoryPrefix, digits);
    AdminHistoryPrefix + digits
  }

  /** Different limits give different URLs. */
  lemma LimitUrlsInjective(a: Option<nat>, b: Option<nat>)
    requires a.GetOr(10) != b.GetOr(10)
    ensures TopStakersUrl(a) != TopStakersUrl(b)
  {
  }
}
