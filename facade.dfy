/**
 * The API facade (`AuthApi`, `ResumeApi`, `TemplateApi` and the `api`
 * object): each operation is one client call with a fixed verb, a path that
 * embeds its id, and a payload shaped from its arguments.
 *
 * `Decode` reads a call back the way the backend routes it; the round trip
 * `Decode(Endpoint(op))` shows that every operation reaches a distinct route
 * with its arguments intact (empty optional form fields and defaulted page
 * arguments normalised).
 */
module Facade {
  import opened Wrappers
  import opened Text
  import opened JsValue
  import opened Types
  import opened Client
  import opened ApiPaths

  datatype Operation =
    // AuthApi
    | SendVerificationCode(email: string)
    | VerifyEmailCode(email: string, code: string)
    | Register(request: RegisterRequest)
    | Login(email: string, password: string)
    | GetCurrentUser
    | RefreshToken(refreshToken: string)
    | WechatLogin(code: string)
    | WechatBind(code: string)
    | WechatUnbind
    // ResumeApi
    | GetResumes(filter: Value)
    | GetResume(id: nat)
    | CreateResume(data: Value)
    | UpdateResume(id: nat, data: Value)
    | DeleteResume(id: nat)
    | CopyResume(id: nat)
    | AiGenerateResume(id: nat, data: Value)
    | AiOptimizeContent(data: Value)
    // TemplateApi
    | GetTemplates(filter: Value)
    | GetTemplate(id: nat)
    | GetCategories
    | FavoriteTemplate(id: nat)
    | UnfavoriteTemplate(id: nat)
    | GetFavoriteTemplates(page: Option<int>, pageSize: Option<int>)

  // ---------------------------------------------------------------------------
  // Form payloads

  /** The value of the first field named `key`, as the backend's form parser reads it. */
  function FormValue(form: seq<(string, string)>, key: string): Option<string> {
    if |form| == 0 then None
    else if form[0].0 == key then Some(form[0].1)
    else FormValue(form[1..], key)
  }

  /** An optional field that `if (data.x)` lets through: present and non-empty. */
  function Truthful(v: Option<string>): Option<string> {
    if v.Some? && v.value != "" then v else None
  }

  /** `login`'s form: the e-mail goes in the `username` field. */
  method BuildLoginForm(email: string, password: string) returns (form: seq<(string, string)>)
    ensures form == [("username", email), ("password", password)]
  {
    form := [];
    form := form + [("username", email)];
    form := form + [("password", password)];
  }

  function OptionalFormField(key: string, v: Option<string>): seq<(string, string)> {
    if Truthful(v).Some? then [(key, v.value)] else []
  }

  /** The fields `register` appends, in order. */
  function RegisterFields(r: RegisterRequest): (fields: seq<(string, string)>)
    ensures 2 <= |fields| <= 5 && fields[0] == ("email", r.email) && fields[1] == ("password", r.password)
    ensures forall i | 2 <= i < |fields| :: fields[i].1 != ""
  {
    [("email", r.email), ("password", r.password)]
    + OptionalFormField("phone", r.phone)
    + OptionalFormField("username", r.username)
    + OptionalFormField("verification_code", r.verificationCode)
  }

  /** `register`'s successive `formData.append` calls. */
  method BuildRegisterForm(r: RegisterRequest) returns (form: seq<(string, string)>)
    ensures form == RegisterFields(r)
  {
    form := [];
    form := form + [("email", r.email)];
    form := form + [("password", r.password)];
    if r.phone.Some? && r.phone.value != "" {
      form := form + [("phone", r.phone.value)];
    }
    if r.username.Some? && r.username.value != "" {
      form := form + [("username", r.username.value)];
    }
    if r.verificationCode.Some? && r.verificationCode.value != "" {
      form := form + [("verification_code", r.verificationCode.value)];
    }
  }

  lemma {:induction false} FormValueAppend(a: seq<(string, string)>, b: seq<(string, string)>, key: string)
    ensures FormValue(a + b, key) == if FormValue(a, key).Some? then FormValue(a, key) else FormValue(b, key)
  {
    if |a| > 0 {
      assert (a + b)[1..] == a[1..] + b;
      FormValueAppend(a[1..], b, key);
    } else {
      assert a + b == b;
    }
  }

  lemma {:induction false} FormValueAbsent(form: seq<(string, string)>, key: string)
    requires forall i | 0 <= i < |form| :: form[i].0 != key
    ensures FormValue(form, key) == None
  {
    if |form| > 0 {
      FormValueAbsent(form[1..], key);
    }
  }

  lemma FormPairLookup(k1: string, v1: string, k2: string, v2: string)
    requires k1 != k2
    ensures FormValue([(k1, v1), (k2, v2)], k1) == Some(v1)
    ensures FormValue([(k1, v1), (k2, v2)], k2) == Some(v2)
  {
    assert [(k1, v1), (k2, v2)][1..] == [(k2, v2)];
  }

  /**
   * Reading the register form back: e-mail and password always arrive; each
   * optional field arrives exactly when it was a non-empty string.
   */
  lemma RegisterFormReadBack(r: RegisterRequest)
    ensures FormValue(RegisterFields(r), "email") == Some(r.email)
    ensures FormValue(RegisterFields(r), "password") == Some(r.password)
    ensures FormValue(RegisterFields(r), "phone") == Truthful(r.phone)
    ensures FormValue(RegisterFields(r), "username") == Truthful(r.username)
    ensures FormValue(RegisterFields(r), "verification_code") == Truthful(r.verificationCode)
  {
    var base := [("email", r.email), ("password", r.password)];
    var p := OptionalFormField("phone", r.phone);
    var u := OptionalFormField("username", r.username);
    var v := OptionalFormField("verification_code", r.verificationCode);
    assert RegisterFields(r) == base + (p + (u + v));
    assert "email"[0] != "phone"[0] && "password"[1] != "phone"[1];
    assert "email"[0] != "username"[0] && "password"[0] != "username"[0];
    assert "email"[0] != "verification_code"[0] && "password"[0] != "verification_code"[0];
    assert "phone"[0] != "username"[0] && "phone"[0] != "verification_code"[0];
    assert "username"[0] != "verification_code"[0];
    FormValueAbsent(base, "phone");
    FormValueAbsent(base, "username");
    FormValueAbsent(base, "verification_code");
    FormValueAbsent(p, "username");
    FormValueAbsent(p, "verification_code");
    FormValueAbsent(u, "verification_code");
    FormValueAbsent(u, "phone");
    FormValueAbsent(v, "phone");
    FormValueAbsent(v, "username");
    FormValueAppend(u, v, "phone");
    assert FormValue(p, "phone") == Truthful(r.phone);
    assert FormValue(u, "username") == Truthful(r.username);
    assert FormValue(v, "verification_code") == Truthful(r.verificationCode);
    FormValueAppend(base, p + (u + v), "phone");
    FormValueAppend(p, u + v, "phone");
    FormValueAppend(base, p + (u + v), "username");
    FormValueAppend(p, u + v, "username");
    FormValueAppend(u, v, "username");
    FormValueAppend(base, p + (u + v), "verification_code");
    FormValueAppend(p, u + v, "verification_code");
    FormValueAppend(u, v, "verification_code");
  }

  // ---------------------------------------------------------------------------
  // Operations as client calls

  function Field(key: string, v: string): Value {
    Obj(map[key := Str(v)])
  }

  function PostJson(path: string, body: Value): Call {
    Call(Post, path, Undefined, JsonBody(body))
  }

  function Endpoint(op: Operation): (c: Call)
    ensures c.body.Form? <==> op.Register? || op.Login?
  {
    match op
    case SendVerificationCode(email) => PostJson(Route([Fixed(Email), Fixed(SendCode)]), Field("email", email))
    case VerifyEmailCode(email, code) =>
      PostJson(Route([Fixed(Email), Fixed(VerifyCode)]), Obj(map["email" := Str(email), "code" := Str(code)]))
    case Register(r) => Call(Post, Route([Fixed(Auth), Fixed(RegisterPath)]), Undefined, Form(RegisterFields(r)))
    case Login(email, password) =>
      Call(Post, Route([Fixed(Auth), Fixed(LoginPath)]), Undefined, Form([("username", email), ("password", password)]))
    case GetCurrentUser => Call(Get, Route([Fixed(Auth), Fixed(Me)]), Undefined, NoBody)
    case RefreshToken(t) => PostJson(Route([Fixed(Auth), Fixed(Refresh)]), Field("refresh_token", t))
    case WechatLogin(code) => PostJson(Route([Fixed(Auth), Fixed(Wechat), Fixed(LoginPath)]), Field("code", code))
    case WechatBind(code) => PostJson(Route([Fixed(Auth), Fixed(Wechat), Fixed(Bind)]), Field("code", code))
    case WechatUnbind => Call(Post, Route([Fixed(Auth), Fixed(Wechat), Fixed(Unbind)]), Undefined, NoBody)
    case GetResumes(filter) => Call(Get, Route([Fixed(Resumes)]), filter, NoBody)
    case GetResume(id) => Call(Get, Route([Fixed(Resumes), Id(id)]), Undefined, NoBody)
    case CreateResume(data) => PostJson(Route([Fixed(Resumes)]), data)
    case UpdateResume(id, data) => Call(Put, Route([Fixed(Resumes), Id(id)]), Undefined, JsonBody(data))
    case DeleteResume(id) => Call(Delete, Route([Fixed(Resumes), Id(id)]), Undefined, NoBody)
    case CopyResume(id) => Call(Post, Route([Fixed(Resumes), Id(id), Fixed(Copy)]), Undefined, NoBody)
    case AiGenerateResume(id, data) => PostJson(Route([Fixed(Resumes), Id(id), Fixed(Ai), Fixed(Generate)]), data)
    case AiOptimizeContent(data) => PostJson(Route([Fixed(Resumes), Fixed(Ai), Fixed(Optimize)]), data)
    case GetTemplates(filter) => Call(Get, Route([Fixed(Templates)]), filter, NoBody)
    case GetTemplate(id) => Call(Get, Route([Fixed(Templates), Id(id)]), Undefined, NoBody)
    case GetCategories => Call(Get, Route([Fixed(Templates), Fixed(Categories)]), Undefined, NoBody)
    case FavoriteTemplate(id) => Call(Post, Route([Fixed(Templates), Id(id), Fixed(Favorite)]), Undefined, NoBody)
    case UnfavoriteTemplate(id) => Call(Delete, Route([Fixed(Templates), Id(id), Fixed(Favorite)]), Undefined, NoBody)
    case GetFavoriteTemplates(page, pageSize) =>
      Call(Get, Route([Fixed(Templates), Fixed(Favorites), Fixed(List)]),
           Obj(map["page" := Num(page.GetOr(1)), "page_size" := Num(pageSize.GetOr(20))]), NoBody)
  }

  /** Only `updateResume` uses PUT, only the two deletions use DELETE, and no GET sends a body. */
  lemma EndpointVerbs(op: Operation)
    ensures Endpoint(op).verb == Put <==> op.UpdateResume?
    ensures Endpoint(op).verb == Delete <==> op.DeleteResume? || op.UnfavoriteTemplate?
    ensures Endpoint(op).verb == Get ==> Endpoint(op).body.NoBody?
  {
  }

  /** The operations declared `Promise<void>`: they await the call and drop its result. */
  predicate ReturnsVoid(op: Operation) {
    op.SendVerificationCode? || op.VerifyEmailCode? || op.WechatBind? || op.WechatUnbind?
    || op.DeleteResume? || op.FavoriteTemplate? || op.UnfavoriteTemplate?
  }

  /** What the facade method resolves or rejects with, given the client's result. */
  function Deliver(op: Operation, clientResult: Result<Value, ApiError>): (r: Result<Value, ApiError>)
    ensures clientResult.Err? ==> r == clientResult
    ensures !ReturnsVoid(op) ==> r == clientResult
    ensures ReturnsVoid(op) && clientResult.Ok? ==> r == Ok(Undefined)
  {
    if ReturnsVoid(op) && clientResult.Ok? then Ok(Undefined) else clientResult
  }

  /** One facade method: the call goes through the shared client and its result is delivered. */
  method Invoke(client: ApiClient, op: Operation, getterResult: Option<string>, x: Exchange)
    returns (sent: Outgoing, result: Result<Value, ApiError>)
    modifies client`token
    ensures sent.call == Endpoint(op) && sent.baseURL == client.baseURL
    ensures sent.authorization ==
              AuthorizationHeader(if client.config.hasTokenGetter then getterResult else None, old(client.token))
    ensures result == Deliver(op, Outcome(x))
    ensures client.token == old(client.token)
  {
    var clientResult, fired;
    sent, clientResult, fired := client.Send(Endpoint(op), getterResult, x);
    result := Deliver(op, clientResult);
  }

  /**
   * The `api` object: the three facades are constructed with `getApiClient()`
   * as their default client, so all three share one client; when nothing was
   * configured before, that client has no token getter and no token.
   */
  method DefaultApi(registry: ClientRegistry) returns (auth: ApiClient, resume: ApiClient, template: ApiClient)
    modifies registry
    ensures auth == resume == template == registry.defaultClient
    ensures old(registry.defaultClient) != null ==> auth == old(registry.defaultClient)
    ensures old(registry.defaultClient) == null ==>
              fresh(auth) && !auth.config.hasTokenGetter && auth.token == None && auth.baseURL == DefaultBaseURL
  {
    auth := registry.GetApiClient();
    resume := registry.GetApiClient();
    template := registry.GetApiClient();
  }

  /**
   * A call through the `api` object when no client was configured first: the
   * shared client has neither a token getter nor a stored token, so no
   * Authorization header is sent, whatever a getter would have returned.
   */
  method UnconfiguredApiCall(op: Operation, getterResult: Option<string>, x: Exchange)
    returns (sent: Outgoing, result: Result<Value, ApiError>)
    ensures sent.call == Endpoint(op) && sent.baseURL == DefaultBaseURL
    ensures sent.authorization == None
    ensures result == Deliver(op, Outcome(x))
  {
    var registry := new ClientRegistry();
    var auth, resume, template := DefaultApi(registry);
    sent, result := Invoke(auth, op, getterResult, x);
  }

  // ---------------------------------------------------------------------------
  // Export URLs

  datatype ExportKind = Pdf | Word | Html | Preview

  function KindName(k: ExportKind): string {
    match k
    case Pdf => "pdf"
    case Word => "word"
    case Html => "html"
    case Preview => "preview"
  }

  function KindOf(name: string): (k: Option<ExportKind>)
    ensures k.Some? ==> KindName(k.value) == name
  {
    if name == "pdf" then Some(Pdf)
    else if name == "word" then Some(Word)
    else if name == "html" then Some(Html)
    else if name == "preview" then Some(Preview)
    else None
  }

  /** `${baseUrl}/../export/${id}/<kind>`: built from the client's base URL, not a separate export base. */
  function ExportUrl(baseURL: string, id: nat, kind: ExportKind): (url: string)
    ensures |url| > |baseURL| && url[..|baseURL|] == baseURL
  {
    baseURL + Path(["..", "export", NatToString(id), KindName(kind)])
  }

  /** `getPdfExportUrl` and its three siblings, reading the client's current base URL. */
  method GetExportUrl(client: ApiClient, id: nat, kind: ExportKind) returns (url: string)
    ensures url == ExportUrl(client.baseURL, id, kind)
  {
    var baseUrl := client.GetBaseURL();
    url := baseUrl + Path(["..", "export", NatToString(id), KindName(kind)]);
  }

  /** Recovers the id and kind from an export URL built on `baseURL`. */
  function ParseExportUrl(baseURL: string, url: string): Option<(nat, ExportKind)> {
    if |url| < |baseURL| || url[..|baseURL|] != baseURL then None
    else
      var segs := Split(url[|baseURL|..], '/');
      if |segs| == 5 && segs[0] == "" && segs[1] == ".." && segs[2] == "export"
         && ParseDecimal(segs[3]).Some? && KindOf(segs[4]).Some?
      then Some((ParseDecimal(segs[3]).value, KindOf(segs[4]).value))
      else None
  }

  lemma KindRoundTrip(k: ExportKind)
    ensures KindOf(KindName(k)) == Some(k)
    ensures '/' !in KindName(k)
  {
  }

  lemma ExportUrlRoundTrip(baseURL: string, id: nat, kind: ExportKind)
    ensures ParseExportUrl(baseURL, ExportUrl(baseURL, id, kind)) == Some((id, kind))
  {
    var segments := ["..", "export", NatToString(id), KindName(kind)];
    var url := ExportUrl(baseURL, id, kind);
    assert url[..|baseURL|] == baseURL;
    assert url[|baseURL|..] == Path(segments);
    RenderedHasNoSlash(id);
    KindRoundTrip(kind);
    SplitPath(segments);
    ParseRendered(id);
    KindRoundTrip(kind);
  }

  /** The URL is the template `${baseUrl}/../export/${id}/<kind>` written out. */
  lemma ExportUrlSpelledOut(baseURL: string, id: nat, kind: ExportKind)
    ensures ExportUrl(baseURL, id, kind) == baseURL + "/" + ".." + "/" + "export" + "/" + NatToString(id) + "/" + KindName(kind)
  {
    PathOfFour("..", "export", NatToString(id), KindName(kind));
  }

  /** Different ids or kinds give different export URLs. */
  lemma ExportUrlInjective(baseURL: string, id1: nat, kind1: ExportKind, id2: nat, kind2: ExportKind)
    requires ExportUrl(baseURL, id1, kind1) == ExportUrl(baseURL, id2, kind2)
    ensures id1 == id2 && kind1 == kind2
  {
    ExportUrlRoundTrip(baseURL, id1, kind1);
    ExportUrlRoundTrip(baseURL, id2, kind2);
  }

  // ---------------------------------------------------------------------------
  // Reading calls back

  function StrField(v: Value, key: string): Option<string> {
    if HasKey(v, key) && v.fields[key].Str? then Some(v.fields[key].s) else None
  }

  function NumField(v: Value, key: string): Option<int> {
    if HasKey(v, key) && v.fields[key].Num? then Some(v.fields[key].n) else None
  }

  lemma FieldLookup(key: string, v: string, other: string)
    ensures StrField(Field(key, v), key) == Some(v)
    ensures |other| != |key| ==> StrField(Field(key, v), other) == None
  {
  }

  lemma TwoFieldLookup(k1: string, v1: string, k2: string, v2: string)
    requires |k1| != |k2|
    ensures StrField(Obj(map[k1 := Str(v1), k2 := Str(v2)]), k1) == Some(v1)
    ensures StrField(Obj(map[k1 := Str(v1), k2 := Str(v2)]), k2) == Some(v2)
  {
  }

  /** `<prefix>/<id>` followed by the words `rest`. */
  predicate IdRoute(ts: seq<Token>, prefix: Word, rest: seq<Token>) {
    |ts| == 2 + |rest| && ts[0] == Fixed(prefix) && ts[1].Id? && ts[2..] == rest
  }

  function DecodeGet(ts: seq<Token>, params: Value): Option<Operation> {
    if ts == [Fixed(Auth), Fixed(Me)] then Some(GetCurrentUser)
    else if ts == [Fixed(Resumes)] then Some(GetResumes(params))
    else if IdRoute(ts, Resumes, []) then Some(GetResume(ts[1].n))
    else if ts == [Fixed(Templates)] then Some(GetTemplates(params))
    else if ts == [Fixed(Templates), Fixed(Categories)] then Some(GetCategories)
    else if ts == [Fixed(Templates), Fixed(Favorites), Fixed(List)] then
      Some(GetFavoriteTemplates(NumField(params, "page"), NumField(params, "page_size")))
    else if IdRoute(ts, Templates, []) then Some(GetTemplate(ts[1].n))
    else None
  }

  function DecodeForm(ts: seq<Token>, form: seq<(string, string)>): Option<Operation> {
    if ts == [Fixed(Auth), Fixed(RegisterPath)] && FormValue(form, "email").Some? && FormValue(form, "password").Some? then
      Some(Register(RegisterRequest(FormValue(form, "email").value, FormValue(form, "password").value,
                                    FormValue(form, "phone"), FormValue(form, "username"),
                                    FormValue(form, "verification_code"))))
    else if ts == [Fixed(Auth), Fixed(LoginPath)] && FormValue(form, "username").Some? && FormValue(form, "password").Some? then
      Some(Login(FormValue(form, "username").value, FormValue(form, "password").value))
    else None
  }

  function DecodeJson(ts: seq<Token>, body: Value): Option<Operation> {
    if ts == [Fixed(Email), Fixed(SendCode)] && StrField(body, "email").Some? then
      Some(SendVerificationCode(StrField(body, "email").value))
    else if ts == [Fixed(Email), Fixed(VerifyCode)] && StrField(body, "email").Some? && StrField(body, "code").Some? then
      Some(VerifyEmailCode(StrField(body, "email").value, StrField(body, "code").value))
    else if ts == [Fixed(Auth), Fixed(Refresh)] && StrField(body, "refresh_token").Some? then
      Some(RefreshToken(StrField(body, "refresh_token").value))
    else if ts == [Fixed(Auth), Fixed(Wechat), Fixed(LoginPath)] && StrField(body, "code").Some? then
      Some(WechatLogin(StrField(body, "code").value))
    else if ts == [Fixed(Auth), Fixed(Wechat), Fixed(Bind)] && StrField(body, "code").Some? then
      Some(WechatBind(StrField(body, "code").value))
    else if ts == [Fixed(Resumes)] then Some(CreateResume(body))
    else if ts == [Fixed(Resumes), Fixed(Ai), Fixed(Optimize)] then Some(AiOptimizeContent(body))
    else if IdRoute(ts, Resumes, [Fixed(Ai), Fixed(Generate)]) then Some(AiGenerateResume(ts[1].n, body))
    else None
  }

  function DecodeBare(ts: seq<Token>): Option<Operation> {
    if ts == [Fixed(Auth), Fixed(Wechat), Fixed(Unbind)] then Some(WechatUnbind)
    else if IdRoute(ts, Resumes, [Fixed(Copy)]) then Some(CopyResume(ts[1].n))
    else if IdRoute(ts, Templates, [Fixed(Favorite)]) then Some(FavoriteTemplate(ts[1].n))
    else None
  }

  function DecodePost(ts: seq<Token>, body: Payload): Option<Operation> {
    match body
    case Form(fields) => DecodeForm(ts, fields)
    case JsonBody(v) => DecodeJson(ts, v)
    case NoBody => DecodeBare(ts)
  }

  function DecodeDelete(ts: seq<Token>): Option<Operation> {
    if IdRoute(ts, Resumes, []) then Some(DeleteResume(ts[1].n))
    else if IdRoute(ts, Templates, [Fixed(Favorite)]) then Some(UnfavoriteTemplate(ts[1].n))
    else None
  }

  /** Which operation a verb and the segments of an absolute path name. */
  function DecodeTokens(verb: Verb, ts: seq<Token>, params: Value, body: Payload): Option<Operation> {
    match verb
    case Get => DecodeGet(ts, params)
    case Post => DecodePost(ts, body)
    case Put =>
      if IdRoute(ts, Resumes, []) && body.JsonBody? then Some(UpdateResume(ts[1].n, body.value)) else None
    case Delete => DecodeDelete(ts)
    case Patch => None
  }

  /** The backend's view of a call: which operation it is, with which arguments. */
  function Decode(c: Call): Option<Operation> {
    var segs := Split(c.path, '/');
    if segs[0] == "" then DecodeTokens(c.verb, Tokens(segs[1..]), c.params, c.body) else None
  }

  /** A call on a route is decoded from the route's tokens. */
  lemma DecodeRoute(c: Call, ts: seq<Token>)
    requires NoFreeText(ts) && c.path == Route(ts)
    ensures Decode(c) == DecodeTokens(c.verb, ts, c.params, c.body)
  {
    RouteRoundTrip(ts);
  }

  /** An operation as the backend receives it: empty optional fields dropped, page defaults filled. */
  function Canonical(op: Operation): Operation {
    match op
    case Register(r) =>
      Register(r.(phone := Truthful(r.phone), username := Truthful(r.username),
                  verificationCode := Truthful(r.verificationCode)))
    case GetFavoriteTemplates(page, pageSize) => GetFavoriteTemplates(Some(page.GetOr(1)), Some(pageSize.GetOr(20)))
    case _ => op
  }

  lemma RoundTripSendVerificationCode(email: string)
    ensures Decode(Endpoint(SendVerificationCode(email))) == Some(Canonical(SendVerificationCode(email)))
  {
    DecodeRoute(Endpoint(SendVerificationCode(email)), [Fixed(Email), Fixed(SendCode)]);
    FieldLookup("email", email, "");
  }

  lemma RoundTripVerifyEmailCode(email: string, code: string)
    ensures Decode(Endpoint(VerifyEmailCode(email, code))) == Some(Canonical(VerifyEmailCode(email, code)))
  {
    DecodeRoute(Endpoint(VerifyEmailCode(email, code)), [Fixed(Email), Fixed(VerifyCode)]);
    TwoFieldLookup("email", email, "code", code);
  }

  lemma RoundTripRegister(r: RegisterRequest)
    ensures Decode(Endpoint(Register(r))) == Some(Canonical(Register(r)))
  {
    DecodeRoute(Endpoint(Register(r)), [Fixed(Auth), Fixed(RegisterPath)]);
    RegisterFormReadBack(r);
  }

  lemma RoundTripLogin(email: string, password: string)
    ensures Decode(Endpoint(Login(email, password))) == Some(Canonical(Login(email, password)))
  {
    DecodeRoute(Endpoint(Login(email, password)), [Fixed(Auth), Fixed(LoginPath)]);
    assert "username"[0] != "password"[0];
    FormPairLookup("username", email, "password", password);
  }

  lemma RoundTripGetCurrentUser()
    ensures Decode(Endpoint(GetCurrentUser)) == Some(Canonical(GetCurrentUser))
  {
    DecodeRoute(Endpoint(GetCurrentUser), [Fixed(Auth), Fixed(Me)]);
  }

  lemma RoundTripRefreshToken(t: string)
    ensures Decode(Endpoint(RefreshToken(t))) == Some(Canonical(RefreshToken(t)))
  {
    DecodeRoute(Endpoint(RefreshToken(t)), [Fixed(Auth), Fixed(Refresh)]);
    FieldLookup("refresh_token", t, "email");
  }

  lemma RoundTripWechatLogin(code: string)
    ensures Decode(Endpoint(WechatLogin(code))) == Some(Canonical(WechatLogin(code)))
  {
    DecodeRoute(Endpoint(WechatLogin(code)), [Fixed(Auth), Fixed(Wechat), Fixed(LoginPath)]);
    FieldLookup("code", code, "email");
  }

  lemma RoundTripWechatBind(code: string)
    ensures Decode(Endpoint(WechatBind(code))) == Some(Canonical(WechatBind(code)))
  {
    DecodeRoute(Endpoint(WechatBind(code)), [Fixed(Auth), Fixed(Wechat), Fixed(Bind)]);
    FieldLookup("code", code, "email");
  }

  lemma RoundTripWechatUnbind()
    ensures Decode(Endpoint(WechatUnbind)) == Some(Canonical(WechatUnbind))
  {
    DecodeRoute(Endpoint(WechatUnbind), [Fixed(Auth), Fixed(Wechat), Fixed(Unbind)]);
  }

  lemma RoundTripGetResumes(filter: Value)
    ensures Decode(Endpoint(GetResumes(filter))) == Some(Canonical(GetResumes(filter)))
  {
    DecodeRoute(Endpoint(GetResumes(filter)), [Fixed(Resumes)]);
  }

  lemma RoundTripGetResume(id: nat)
    ensures Decode(Endpoint(GetResume(id))) == Some(Canonical(GetResume(id)))
  {
    DecodeRoute(Endpoint(GetResume(id)), [Fixed(Resumes), Id(id)]);
  }

  lemma RoundTripCreateResume(data: Value)
    ensures Decode(Endpoint(CreateResume(data))) == Some(Canonical(CreateResume(data)))
  {
    DecodeRoute(Endpoint(CreateResume(data)), [Fixed(Resumes)]);
    assert DecodeJson([Fixed(Resumes)], data) == Some(CreateResume(data));
  }

  lemma RoundTripUpdateResume(id: nat, data: Value)
    ensures Decode(Endpoint(UpdateResume(id, data))) == Some(Canonical(UpdateResume(id, data)))
  {
    DecodeRoute(Endpoint(UpdateResume(id, data)), [Fixed(Resumes), Id(id)]);
  }

  lemma RoundTripDeleteResume(id: nat)
    ensures Decode(Endpoint(DeleteResume(id))) == Some(Canonical(DeleteResume(id)))
  {
    DecodeRoute(Endpoint(DeleteResume(id)), [Fixed(Resumes), Id(id)]);
  }

  lemma RoundTripCopyResume(id: nat)
    ensures Decode(Endpoint(CopyResume(id))) == Some(Canonical(CopyResume(id)))
  {
    DecodeRoute(Endpoint(CopyResume(id)), [Fixed(Resumes), Id(id), Fixed(Copy)]);
  }

  lemma RoundTripAiGenerateResume(id: nat, data: Value)
    ensures Decode(Endpoint(AiGenerateResume(id, data))) == Some(Canonical(AiGenerateResume(id, data)))
  {
    DecodeRoute(Endpoint(AiGenerateResume(id, data)), [Fixed(Resumes), Id(id), Fixed(Ai), Fixed(Generate)]);
  }

  lemma RoundTripAiOptimizeContent(data: Value)
    ensures Decode(Endpoint(AiOptimizeContent(data))) == Some(Canonical(AiOptimizeContent(data)))
  {
    var ts := [Fixed(Resumes), Fixed(Ai), Fixed(Optimize)];
    DecodeRoute(Endpoint(AiOptimizeContent(data)), ts);
    OptimizeBodyDecodes(ts, data);
  }

  lemma OptimizeBodyDecodes(ts: seq<Token>, data: Value)
    requires ts == [Fixed(Resumes), Fixed(Ai), Fixed(Optimize)]
    ensures DecodeJson(ts, data) == Some(AiOptimizeContent(data))
  {
    assert ts[0] == Fixed(Resumes) && |ts| == 3;
  }

  lemma RoundTripGetTemplates(filter: Value)
    ensures Decode(Endpoint(GetTemplates(filter))) == Some(Canonical(GetTemplates(filter)))
  {
    DecodeRoute(Endpoint(GetTemplates(filter)), [Fixed(Templates)]);
  }

  lemma RoundTripGetTemplate(id: nat)
    ensures Decode(Endpoint(GetTemplate(id))) == Some(Canonical(GetTemplate(id)))
  {
    DecodeRoute(Endpoint(GetTemplate(id)), [Fixed(Templates), Id(id)]);
  }

  lemma RoundTripGetCategories()
    ensures Decode(Endpoint(GetCategories)) == Some(Canonical(GetCategories))
  {
    DecodeRoute(Endpoint(GetCategories), [Fixed(Templates), Fixed(Categories)]);
  }

  lemma RoundTripFavoriteTemplate(id: nat)
    ensures Decode(Endpoint(FavoriteTemplate(id))) == Some(Canonical(FavoriteTemplate(id)))
  {
    DecodeRoute(Endpoint(FavoriteTemplate(id)), [Fixed(Templates), Id(id), Fixed(Favorite)]);
  }

  lemma RoundTripUnfavoriteTemplate(id: nat)
    ensures Decode(Endpoint(UnfavoriteTemplate(id))) == Some(Canonical(UnfavoriteTemplate(id)))
  {
    DecodeRoute(Endpoint(UnfavoriteTemplate(id)), [Fixed(Templates), Id(id), Fixed(Favorite)]);
  }

  lemma RoundTripGetFavoriteTemplates(page: Option<int>, pageSize: Option<int>)
    ensures Decode(Endpoint(GetFavoriteTemplates(page, pageSize))) == Some(Canonical(GetFavoriteTemplates(page, pageSize)))
  {
    var ts := [Fixed(Templates), Fixed(Favorites), Fixed(List)];
    var params := Obj(map["page" := Num(page.GetOr(1)), "page_size" := Num(pageSize.GetOr(20))]);
    DecodeRoute(Endpoint(GetFavoriteTemplates(page, pageSize)), ts);
    PageParams(page.GetOr(1), pageSize.GetOr(20));
    assert DecodeGet(ts, params) == Some(GetFavoriteTemplates(Some(page.GetOr(1)), Some(pageSize.GetOr(20))));
  }

  lemma PageParams(page: int, pageSize: int)
    ensures NumField(Obj(map["page" := Num(page), "page_size" := Num(pageSize)]), "page") == Some(page)
    ensures NumField(Obj(map["page" := Num(page), "page_size" := Num(pageSize)]), "page_size") == Some(pageSize)
  {
    assert |"page"| != |"page_size"|;
  }

  /**
   * Every operation reaches the route the backend serves it on, with its
   * arguments recoverable: decoding the call gives back the operation, up to
   * the normalisation the facade itself applies.
   */
  lemma EndpointRoundTrip(op: Operation)
    ensures Decode(Endpoint(op)) == Some(Canonical(op))
  {
    match op
    case SendVerificationCode(email) => RoundTripSendVerificationCode(email);
    case VerifyEmailCode(email, code) => RoundTripVerifyEmailCode(email, code);
    case Register(r) => RoundTripRegister(r);
    case Login(email, password) => RoundTripLogin(email, password);
    case GetCurrentUser => RoundTripGetCurrentUser();
    case RefreshToken(t) => RoundTripRefreshToken(t);
    case WechatLogin(code) => RoundTripWechatLogin(code);
    case WechatBind(code) => RoundTripWechatBind(code);
    case WechatUnbind => RoundTripWechatUnbind();
    case GetResumes(filter) => RoundTripGetResumes(filter);
    case GetResume(id) => RoundTripGetResume(id);
    case CreateResume(data) => RoundTripCreateResume(data);
    case UpdateResume(id, data) => RoundTripUpdateResume(id, data);
    case DeleteResume(id) => RoundTripDeleteResume(id);
    case CopyResume(id) => RoundTripCopyResume(id);
    case AiGenerateResume(id, data) => RoundTripAiGenerateResume(id, data);
    case AiOptimizeContent(data) => RoundTripAiOptimizeContent(data);
    case GetTemplates(filter) => RoundTripGetTemplates(filter);
    case GetTemplate(id) => RoundTripGetTemplate(id);
    case GetCategories => RoundTripGetCategories();
    case FavoriteTemplate(id) => RoundTripFavoriteTemplate(id);
    case UnfavoriteTemplate(id) => RoundTripUnfavoriteTemplate(id);
    case GetFavoriteTemplates(page, pageSize) => RoundTripGetFavoriteTemplates(page, pageSize);
  }
}
