/**
 * The HTTP transport (`ApiClient`): bearer-header selection, the axios status
 * check, response unwrapping, error normalisation, the token and base-URL
 * fields, and the process-wide default client.
 *
 * An HTTP exchange is an input value (`Exchange`): the network, timers and
 * axios itself are not modelled, only what the client does with their result.
 */
module Client {
  import opened Wrappers
  import opened Text
  import opened JsValue

  const DefaultBaseURL: string := "http://127.0.0.1:8000/api/v1"
  const DefaultTimeout: int := 30000

  const RequestFailedText: string := "请求失败"
  const CancelledText: string := "请求已取消"
  const TimeoutText: string := "连接超时，请检查网络"
  const UnreachableText: string := "无法连接到服务器，请检查网络或服务器配置"
  const UnknownText: string := "未知错误"

  /** The code axios gives the rejection of a response whose status `validateStatus` refuses. */
  const BadResponseCode: string := "ERR_BAD_RESPONSE"

  /**
   * `ApiClientConfig`: the optional base URL and timeout, and whether a token
   * getter and an unauthorized callback were supplied (their behaviour is
   * outside the client: a getter's result is an input of each request).
   */
  datatype ClientConfig = ClientConfig(
    baseURL: Option<string>,
    timeout: Option<int>,
    hasTokenGetter: bool,
    hasUnauthorizedHandler: bool)

  /** The configuration `new ApiClient()` receives when called without one. */
  const NoConfig: ClientConfig := ClientConfig(None, None, false, false)

  datatype Verb = Get | Post | Put | Patch | Delete

  /** A request body: none, a JSON value, or form fields appended in order. */
  datatype Payload = NoBody | JsonBody(value: Value) | Form(fields: seq<(string, string)>)

  /** One call of `get`/`post`/`put`/`patch`/`delete`: verb, path, query parameters and body. */
  datatype Call = Call(verb: Verb, path: string, params: Value, body: Payload)

  /** What leaves the client: the base URL at the time, the call, and the Authorization header if any. */
  datatype Outgoing = Outgoing(baseURL: string, call: Call, authorization: Option<string>)

  datatype HttpResponse = HttpResponse(status: nat, body: Value)

  /** How the transport finished a request. */
  datatype Exchange =
    | Answered(response: HttpResponse)                  // the server sent a response
    | Cancelled                                         // axios cancellation
    | NoResponse(code: Option<string>, message: string) // axios error without a response (timeout, network)
    | Thrown(thrownMessage: Option<string>)             // any other thrown value; its message if it is an Error

  datatype AxiosError = AxiosError(code: Option<string>, message: string, response: Option<HttpResponse>)

  /** The value a rejected request carries into the response interceptor. */
  datatype Rejection = Cancel | Axios(error: AxiosError) | NonAxios(message: Option<string>)

  /** The single normalised error the client throws. */
  datatype ApiError =
    | PlainError(message: Value)                                  // `new Error(message)`
    | ApiException(message: Value, statusCode: nat, detail: Value) // the server-error class

  // ---------------------------------------------------------------------------
  // Request interception

  /**
   * The Authorization header: the token getter's result unless it is null (or
   * there is no getter), else the stored token; no header when that is absent
   * or empty.
   */
  function AuthorizationHeader(getterResult: Option<string>, stored: Option<string>): (h: Option<string>)
    ensures getterResult.Some? ==> (h.Some? <==> getterResult.value != "")
    ensures getterResult.Some? && getterResult.value != "" ==> h == Some("Bearer " + getterResult.value)
    ensures getterResult.None? ==> (h.Some? <==> stored.Some? && stored.value != "")
    ensures getterResult.None? && stored.Some? && stored.value != "" ==> h == Some("Bearer " + stored.value)
  {
    var token := if getterResult.Some? then getterResult else stored;
    if token.Some? && token.value != "" then Some("Bearer " + token.value) else None
  }

  // ---------------------------------------------------------------------------
  // Status check (axios `validateStatus`)

  predicate AcceptedStatus(status: nat) {
    status < 500
  }

  function StatusFailureMessage(status: nat): string {
    "Request failed with status code " + NatToString(status)
  }

  /**
   * What axios does with an exchange: a response whose status is accepted
   * resolves; every other outcome rejects. Only a refused (>= 500) status
   * produces a rejection that carries a response.
   */
  function Settle(x: Exchange): (r: Result<HttpResponse, Rejection>)
    ensures r.Ok? <==> x.Answered? && x.response.status < 500
    ensures r.Ok? ==> r.value == x.response
    ensures r.Err? && r.error.Axios? && r.error.error.response.Some? ==>
              x.Answered? && r.error.error.response.value == x.response && x.response.status >= 500
  {
    match x
    case Answered(resp) =>
      if AcceptedStatus(resp.status) then Ok(resp)
      else Err(Axios(AxiosError(Some(BadResponseCode), StatusFailureMessage(resp.status), Some(resp))))
    case Cancelled => Err(Cancel)
    case NoResponse(code, message) => Err(Axios(AxiosError(code, message, None)))
    case Thrown(message) => Err(NonAxios(message))
  }

  /** The condition of the response interceptor's 401 branch. */
  predicate IsUnauthorized(r: Rejection) {
    r.Axios? && r.error.response.Some? && r.error.response.value.status == 401
  }

  /** No exchange reaches the 401 branch: a 401 response is accepted by `validateStatus`. */
  lemma UnauthorizedBranchUnreachable(x: Exchange)
    ensures Settle(x).Err? ==> !IsUnauthorized(Settle(x).error)
    ensures x.Answered? && x.response.status == 401 ==> Settle(x) == Ok(x.response)
  {
  }

  // ---------------------------------------------------------------------------
  // Response unwrapping (`handleResponse`)

  function HandleResponse(resp: HttpResponse): (r: Result<Value, ApiError>)
    ensures r.Ok? <==> resp.status == 200 && Truthy(resp.body)
  {
    if resp.status == 200 && Truthy(resp.body) then
      if IsObjectType(resp.body) && HasKey(resp.body, "data") then Ok(Member(resp.body, "data"))
      else Ok(resp.body)
    else
      Err(PlainError(Coalesce(Member(resp.body, "message"), Str(RequestFailedText))))
  }

  /** The `{ data: ... }` envelope a successful response may wrap its payload in. */
  function Envelope(payload: Value): Value {
    Obj(map["data" := payload])
  }

  /** A 200 response's envelope is removed and its payload returned as it was, whatever it is. */
  lemma {:induction false} EnvelopeRoundTrip(payload: Value)
    ensures HandleResponse(HttpResponse(200, Envelope(payload))) == Ok(payload)
  {
    assert HasKey(Envelope(payload), "data");
  }

  /** A truthy 200 body without a `data` key is returned unchanged. */
  lemma BareBodyUnchanged(body: Value)
    requires Truthy(body) && !HasKey(body, "data")
    ensures HandleResponse(HttpResponse(200, body)) == Ok(body)
  {
  }

  /**
   * Any other status the client accepts (201, 204, 401, 404, ...) and a falsy
   * 200 body throw a plain error: the body's `message`, else the generic text.
   */
  lemma AcceptedFailureIsPlain(resp: HttpResponse)
    requires resp.status != 200 || !Truthy(resp.body)
    ensures HandleResponse(resp).Err? && HandleResponse(resp).error.PlainError?
    ensures !Nullish(Member(resp.body, "message")) ==>
              HandleResponse(resp).error.message == Member(resp.body, "message")
    ensures Nullish(Member(resp.body, "message")) ==>
              HandleResponse(resp).error.message == Str(RequestFailedText)
  {
  }

  // ---------------------------------------------------------------------------
  // Server errors (`handleError`, the response branch)

  /**
   * The response branch exactly as written: it tests `typeof data === 'object'`,
   * which also holds for `null`, and then reads `data.message`; it reads
   * `data.detail` unguarded at the end. `None` stands for the TypeError those
   * reads throw on a `null` or `undefined` body.
   */
  function ServerErrorAsWritten(resp: HttpResponse): (r: Option<ApiError>)
    ensures r.None? <==> Nullish(resp.body)
    ensures r.Some? ==> r.value.ApiException? && r.value.statusCode == resp.status
  {
    var data := resp.body;
    if IsObjectType(data) && data.Null? then None
    else
      var message :=
        if IsObjectType(data) then
          var fallback := Coalesce(Coalesce(Member(data, "message"), Member(data, "detail")), Str(RequestFailedText));
          var detail := Member(data, "detail");
          if Truthy(detail) && IsObjectType(detail) && HasKey(detail, "msg") then Member(detail, "msg") else fallback
        else Str(RequestFailedText);
      if data.Undefined? then None
      else Some(ApiException(message, resp.status, Member(data, "detail")))
  }

  /** The response branch with `null` and `undefined` bodies read as bodies without fields. */
  function ServerError(resp: HttpResponse): (e: ApiError)
    ensures e.ApiException? && e.statusCode == resp.status && e.detail == Member(resp.body, "detail")
  {
    var data := resp.body;
    var message :=
      if IsObjectType(data) && !data.Null? then
        var fallback := Coalesce(Coalesce(Member(data, "message"), Member(data, "detail")), Str(RequestFailedText));
        var detail := Member(data, "detail");
        if Truthy(detail) && IsObjectType(detail) && HasKey(detail, "msg") then Member(detail, "msg") else fallback
      else Str(RequestFailedText);
    ApiException(message, resp.status, Member(data, "detail"))
  }

  /** On every body that is neither `null` nor `undefined` the correction changes nothing. */
  lemma ServerErrorCorrectionConservative(resp: HttpResponse)
    requires !Nullish(resp.body)
    ensures ServerErrorAsWritten(resp) == Some(ServerError(resp))
  {
  }

  /** A 500 response whose JSON body is `null` makes the handler throw instead of normalising. */
  lemma NullBodyCrashesHandler()
    ensures ServerErrorAsWritten(HttpResponse(500, Null)).None?
    ensures ServerError(HttpResponse(500, Null)) == ApiException(Str(RequestFailedText), 500, Undefined)
  {
  }

  /** The candidate messages of an error body, highest priority first. */
  function MessageCandidates(data: Value): seq<Value> {
    var detail := Member(data, "detail");
    var message := Member(data, "message");
    (if HasKey(detail, "msg") then [Member(detail, "msg")] else [])
    + (if !Nullish(message) then [message] else [])
    + (if !Nullish(detail) then [detail] else [])
  }

  function FirstOr(candidates: seq<Value>, default: Value): Value {
    if |candidates| == 0 then default else candidates[0]
  }

  /**
   * Message priority of a server error: `detail.msg` when `detail` is an object
   * with a `msg` key, then `message`, then `detail`, then the generic text.
   */
  lemma ServerMessagePriority(resp: HttpResponse)
    ensures ServerError(resp).message == FirstOr(MessageCandidates(resp.body), Str(RequestFailedText))
  {
  }

  /**
   * A server error (status 500 or above) whose body is `{ detail: { msg: "bad email" } }`
   * is thrown as an `ApiException` with the message "bad email".
   */
  lemma DetailMessageExample(status: nat)
    requires status >= 500
    ensures ServerError(HttpResponse(status, Obj(map["detail" := Obj(map["msg" := Str("bad email")])]))).message
            == Str("bad email")
    ensures Outcome(Answered(HttpResponse(status, Obj(map["detail" := Obj(map["msg" := Str("bad email")])]))))
            == Err(ApiException(Str("bad email"), status, Obj(map["msg" := Str("bad email")])))
  {
    var detail := Obj(map["msg" := Str("bad email")]);
    var body := Obj(map["detail" := detail]);
    assert Member(body, "detail") == detail;
    assert HasKey(detail, "msg");
    ServerStatusesClassified(Answered(HttpResponse(status, body)));
  }

  // ---------------------------------------------------------------------------
  // Error normalisation (`handleError`)

  function HandleError(r: Rejection): (e: ApiError)
    ensures r.Cancel? ==> e == PlainError(Str(CancelledText))
    ensures e.ApiException? ==> r.Axios? && r.error.response.Some? && e.statusCode == r.error.response.value.status
    ensures r.NonAxios? ==> e == PlainError(Str(r.message.GetOr(UnknownText)))
  {
    match r
    case Cancel => PlainError(Str(CancelledText))
    case Axios(e) =>
      if e.code == Some("ECONNABORTED") || Includes(e.message, "timeout") then PlainError(Str(TimeoutText))
      else if e.code == Some("ERR_NETWORK") then PlainError(Str(UnreachableText))
      else if e.response.Some? then ServerError(e.response.value)
      else PlainError(Str(e.message))
    case NonAxios(message) => PlainError(Str(message.GetOr(UnknownText)))
  }

  /**
   * `handleError` exactly as written, over `ServerErrorAsWritten`: `None` is
   * the TypeError it throws for a server response with a `null` or
   * `undefined` body.
   */
  function HandleErrorAsWritten(r: Rejection): (e: Option<ApiError>)
    ensures e.None? ==> r.Axios? && r.error.response.Some? && Nullish(r.error.response.value.body)
  {
    match r
    case Cancel => Some(PlainError(Str(CancelledText)))
    case Axios(e) =>
      if e.code == Some("ECONNABORTED") || Includes(e.message, "timeout") then Some(PlainError(Str(TimeoutText)))
      else if e.code == Some("ERR_NETWORK") then Some(PlainError(Str(UnreachableText)))
      else if e.response.Some? then ServerErrorAsWritten(e.response.value)
      else Some(PlainError(Str(e.message)))
    case NonAxios(message) => Some(PlainError(Str(message.GetOr(UnknownText))))
  }

  /** The error taxonomy, as a table of tests tried in order. */
  datatype ErrorKind = Cancellation | Timeout | Unreachable | ServerSide | Uncategorised

  datatype Test = IsCancel | IsTimeout | IsNetwork | HasResponse

  predicate Passes(t: Test, r: Rejection) {
    match t
    case IsCancel => r.Cancel?
    case IsTimeout => r.Axios? && (r.error.code == Some("ECONNABORTED") || Includes(r.error.message, "timeout"))
    case IsNetwork => r.Axios? && r.error.code == Some("ERR_NETWORK")
    case HasResponse => r.Axios? && r.error.response.Some?
  }

  const Taxonomy: seq<(Test, ErrorKind)> :=
    [(IsCancel, Cancellation), (IsTimeout, Timeout), (IsNetwork, Unreachable), (HasResponse, ServerSide)]

  function FirstMatch(rules: seq<(Test, ErrorKind)>, r: Rejection): ErrorKind {
    if |rules| == 0 then Uncategorised
    else if Passes(rules[0].0, r) then rules[0].1
    else FirstMatch(rules[1..], r)
  }

  function Classify(r: Rejection): ErrorKind {
    FirstMatch(Taxonomy, r)
  }

  lemma {:induction false} FirstMatchFromTable(rules: seq<(Test, ErrorKind)>, r: Rejection)
    ensures FirstMatch(rules, r) == Uncategorised ||
            exists i :: 0 <= i < |rules| && FirstMatch(rules, r) == rules[i].1
  {
    if |rules| > 0 && !Passes(rules[0].0, r) {
      FirstMatchFromTable(rules[1..], r);
      if FirstMatch(rules[1..], r) != Uncategorised {
        var i :| 0 <= i < |rules[1..]| && FirstMatch(rules[1..], r) == rules[1..][i].1;
        assert rules[1..][i] == rules[i + 1];
      }
    }
  }

  /** In a table with distinct kinds, a rule decides iff its test passes and no earlier test does. */
  lemma {:induction false} FirstMatchWins(rules: seq<(Test, ErrorKind)>, r: Rejection, k: nat)
    requires k < |rules|
    requires forall i, j :: 0 <= i < j < |rules| ==> rules[i].1 != rules[j].1
    requires forall i :: 0 <= i < |rules| ==> rules[i].1 != Uncategorised
    ensures FirstMatch(rules, r) == rules[k].1 <==>
              Passes(rules[k].0, r) && forall j :: 0 <= j < k ==> !Passes(rules[j].0, r)
  {
    if k == 0 {
      if !Passes(rules[0].0, r) {
        FirstMatchFromTable(rules[1..], r);
        if FirstMatch(rules[1..], r) != Uncategorised {
          var i :| 0 <= i < |rules[1..]| && FirstMatch(rules[1..], r) == rules[1..][i].1;
          assert rules[1..][i] == rules[i + 1];
        }
      }
    } else {
      if Passes(rules[0].0, r) {
        assert rules[0].1 != rules[k].1;
        assert !(forall j :: 0 <= j < k ==> !Passes(rules[j].0, r));
      } else {
        var rest := rules[1..];
        assert forall i :: 0 <= i < |rest| ==> rest[i] == rules[i + 1];
        FirstMatchWins(rest, r, k - 1);
        assert (forall j :: 0 <= j < k ==> !Passes(rules[j].0, r)) <==>
               (forall j :: 0 <= j < k - 1 ==> !Passes(rest[j].0, r));
      }
    }
  }

  /** Each kind is decided by its own test after every earlier test has failed. */
  lemma TaxonomyOrder(r: Rejection)
    ensures Classify(r) == Cancellation <==> r.Cancel?
    ensures Classify(r) == Timeout <==> !Passes(IsCancel, r) && Passes(IsTimeout, r)
    ensures Classify(r) == Unreachable <==>
              !Passes(IsCancel, r) && !Passes(IsTimeout, r) && Passes(IsNetwork, r)
    ensures Classify(r) == ServerSide <==>
              !Passes(IsCancel, r) && !Passes(IsTimeout, r) && !Passes(IsNetwork, r) && Passes(HasResponse, r)
  {
    FirstMatchWins(Taxonomy, r, 0);
    FirstMatchWins(Taxonomy, r, 1);
    FirstMatchWins(Taxonomy, r, 2);
    FirstMatchWins(Taxonomy, r, 3);
  }

  /** `handleError` renders each kind of the taxonomy with its own message. */
  lemma HandleErrorFollowsTaxonomy(r: Rejection)
    ensures Classify(r) == Cancellation ==> HandleError(r) == PlainError(Str(CancelledText))
    ensures Classify(r) == Timeout ==> HandleError(r) == PlainError(Str(TimeoutText))
    ensures Classify(r) == Unreachable ==> HandleError(r) == PlainError(Str(UnreachableText))
    ensures Classify(r) == ServerSide ==> r.Axios? && r.error.response.Some?
    ensures r.Axios? && r.error.response.Some? && Classify(r) == ServerSide ==>
              HandleError(r) == ServerError(r.error.response.value)
    ensures Classify(r) == Uncategorised ==>
              HandleError(r) == PlainError(Str(if r.Axios? then r.error.message else r.message.GetOr(UnknownText)))
    ensures HandleError(r).ApiException? <==> Classify(r) == ServerSide
    ensures HandleErrorAsWritten(r).None? <==>
              Classify(r) == ServerSide && Nullish(r.error.response.value.body)
    ensures HandleErrorAsWritten(r).Some? ==> HandleErrorAsWritten(r) == Some(HandleError(r))
  {
    TaxonomyOrder(r);
    if r.Axios? && r.error.response.Some? && !Nullish(r.error.response.value.body) {
      ServerErrorCorrectionConservative(r.error.response.value);
    }
  }

  // ---------------------------------------------------------------------------
  // The whole request: status check, then unwrapping or normalisation

  function Outcome(x: Exchange): (r: Result<Value, ApiError>)
    ensures r.Err? && r.error.ApiException? ==>
              x.Answered? && x.response.status >= 500 && r.error.statusCode == x.response.status
    ensures x.Cancelled? ==> r == Err(PlainError(Str(CancelledText)))
  {
    match Settle(x)
    case Ok(resp) => HandleResponse(resp)
    case Err(rejection) => Err(HandleError(rejection))
  }

  /** The whole request over the handler as written: `None` is the TypeError it throws. */
  function OutcomeAsWritten(x: Exchange): (r: Option<Result<Value, ApiError>>)
    ensures r.None? ==> x.Answered? && x.response.status >= 500
  {
    match Settle(x)
    case Ok(resp) => Some(HandleResponse(resp))
    case Err(rejection) =>
      match HandleErrorAsWritten(rejection)
      case None => None
      case Some(e) => Some(Err(e))
  }

  /** The refusal message of a status never mentions "timeout": it has no letter 'm'. */
  lemma StatusFailureNotTimeout(status: nat)
    ensures !Includes(StatusFailureMessage(status), "timeout")
  {
    var prefix := "Request failed with status code ";
    var s := StatusFailureMessage(status);
    assert forall k :: 0 <= k < |prefix| ==> prefix[k] != 'm';
    forall i | 0 <= i <= |s|
      ensures !OccursAt(s, "timeout", i)
    {
      if i + 7 <= |s| {
        assert s[i..i + 7][2] == s[i + 2];
        if i + 2 >= |prefix| {
          assert s[i + 2] == NatToString(status)[i + 2 - |prefix|];
        }
      }
    }
  }

  /** A result is returned only for a 200 response with a truthy body. */
  lemma OnlyTruthy200Succeeds(x: Exchange)
    ensures Outcome(x).Ok? <==> x.Answered? && x.response.status == 200 && Truthy(x.response.body)
  {
  }

  /** Every response of status 500 or more becomes a server error carrying that status. */
  lemma ServerStatusesClassified(x: Exchange)
    requires x.Answered? && x.response.status >= 500
    ensures Classify(Settle(x).error) == ServerSide
    ensures Outcome(x) == Err(ServerError(x.response))
    ensures Outcome(x).error.statusCode == x.response.status
    ensures OutcomeAsWritten(x) == if Nullish(x.response.body) then None else Some(Outcome(x))
  {
    StatusFailureNotTimeout(x.response.status);
    TaxonomyOrder(Settle(x).error);
    if !Nullish(x.response.body) {
      ServerErrorCorrectionConservative(x.response);
    }
  }

  /** The correction changes a request's result only where the handler as written throws. */
  lemma OutcomeCorrectionConservative(x: Exchange)
    ensures OutcomeAsWritten(x).None? <==>
              x.Answered? && x.response.status >= 500 && Nullish(x.response.body)
    ensures OutcomeAsWritten(x).Some? ==> OutcomeAsWritten(x) == Some(Outcome(x))
  {
    if Settle(x).Err? {
      HandleErrorFollowsTaxonomy(Settle(x).error);
      if x.Answered? && x.response.status >= 500 {
        ServerStatusesClassified(x);
      }
    }
  }

  /** Below 500 no status ever yields the status-carrying error, 401 included. */
  lemma AcceptedStatusesNeverApiException(x: Exchange)
    requires x.Answered? && x.response.status < 500
    ensures Outcome(x).Err? ==> Outcome(x).error.PlainError?
  {
  }

  // ---------------------------------------------------------------------------
  // The client object

  class ApiClient {
    var token: Option<string>
    var baseURL: string
    const timeout: int
    const config: ClientConfig

    constructor (config: ClientConfig)
      ensures this.config == config && token == None
      ensures baseURL == config.baseURL.GetOr(DefaultBaseURL)
      ensures timeout == config.timeout.GetOr(DefaultTimeout)
    {
      this.config := config;
      token := None;
      baseURL := config.baseURL.GetOr(DefaultBaseURL);
      timeout := config.timeout.GetOr(DefaultTimeout);
    }

    method SetToken(t: string)
      modifies this`token
      ensures token == Some(t)
    {
      token := Some(t);
    }

    method ClearToken()
      modifies this`token
      ensures token == None
    {
      token := None;
    }

    method GetToken() returns (t: Option<string>)
      ensures t == token
    {
      t := token;
    }

    method SetBaseURL(url: string)
      modifies this`baseURL
      ensures baseURL == url
    {
      baseURL := url;
    }

    method GetBaseURL() returns (url: string)
      ensures url == baseURL
    {
      url := baseURL;
    }

    /**
     * One request through both interceptors: the header is chosen, the
     * exchange settled, and the result unwrapped or the rejection normalised.
     * The 401 branch is kept as written; the postcondition records that it
     * never runs, so the token is never cleared by a request.
     */
    method Send(call: Call, getterResult: Option<string>, x: Exchange)
      returns (sent: Outgoing, result: Result<Value, ApiError>, unauthorizedFired: bool)
      modifies this`token
      ensures sent == Outgoing(baseURL, call,
                               AuthorizationHeader(if config.hasTokenGetter then getterResult else None, old(token)))
      ensures result == Outcome(x)
      ensures OutcomeAsWritten(x).Some? ==> OutcomeAsWritten(x) == Some(result)
      ensures token == old(token) && !unauthorizedFired
    {
      var getter := if config.hasTokenGetter then getterResult else None;
      sent := Outgoing(baseURL, call, AuthorizationHeader(getter, token));
      unauthorizedFired := false;
      match Settle(x)
      case Ok(resp) =>
        result := HandleResponse(resp);
      case Err(rejection) =>
        UnauthorizedBranchUnreachable(x);
        var error;
        error, unauthorizedFired := OnRejected(rejection);
        result := Err(error);
    }

    /**
     * The response interceptor's rejection handler: a 401 clears the token and
     * fires the unauthorized callback (if configured); every rejection is
     * normalised.
     */
    method OnRejected(rejection: Rejection) returns (error: ApiError, unauthorizedFired: bool)
      modifies this`token
      ensures error == HandleError(rejection)
      ensures token == (if IsUnauthorized(rejection) then None else old(token))
      ensures unauthorizedFired <==> IsUnauthorized(rejection) && config.hasUnauthorizedHandler
    {
      unauthorizedFired := false;
      if IsUnauthorized(rejection) {
        ClearToken();
        unauthorizedFired := config.hasUnauthorizedHandler;
      }
      error := HandleError(rejection);
    }
  }

  /** The module-level `defaultClient` slot and the two functions that fill it. */
  class ClientRegistry {
    var defaultClient: ApiClient?

    constructor ()
      ensures defaultClient == null
    {
      defaultClient := null;
    }

    /** The first call creates the client from its configuration; later calls ignore theirs. */
    method CreateApiClient(config: ClientConfig) returns (c: ApiClient)
      modifies this
      ensures old(defaultClient) != null ==> c == old(defaultClient)
      ensures old(defaultClient) == null ==>
                fresh(c) && c.config == config && c.token == None && c.baseURL == config.baseURL.GetOr(DefaultBaseURL)
      ensures defaultClient == c
    {
      if defaultClient == null {
        defaultClient := new ApiClient(config);
      }
      c := defaultClient;
    }

    /** Returns the default client, creating it without configuration if there is none. */
    method GetApiClient() returns (c: ApiClient)
      modifies this
      ensures old(defaultClient) != null ==> c == old(defaultClient)
      ensures old(defaultClient) == null ==>
                fresh(c) && c.config == NoConfig && c.token == None && c.baseURL == DefaultBaseURL
      ensures defaultClient == c
    {
      if defaultClient == null {
        defaultClient := new ApiClient(NoConfig);
      }
      c := defaultClient;
    }
  }
}
