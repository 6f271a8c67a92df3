/** The document-indexing request: a builder of index, type, id and options,
    and the request it turns into — method and path template, query
    parameters, and body — before anything is sent. */
module IndexServices {
  import opened Wrappers
  import opened Json
  import opened Text

  /** Go's int64, the type of the document version. */
  newtype int64 = x: int | -0x8000_0000_0000_0000 <= x < 0x8000_0000_0000_0000

  /** Builder state. `refresh` and `version` distinguish "never set" from false and 0;
      `bodyJson` is None while no structured body is given. */
  datatype IndexService = IndexService(
    index: string,
    typ: string,
    id: string,
    routing: string,
    parent: string,
    opType: string,
    refresh: Option<bool>,
    version: Option<int64>,
    versionType: string,
    timestamp: string,
    ttl: string,
    timeout: string,
    bodyString: string,
    bodyJson: Option<Value>,
    pretty: bool,
    debug: bool)

  /** The service's reply to a successful indexing call. */
  datatype IndexResult = IndexResult(index: string, typ: string, id: string, version: int, created: bool)

  datatype HttpMethod = Put | Post

  /** The body sent with the request: a value to be JSON-encoded, or a raw string. */
  datatype Body = JsonBody(value: Value) | StringBody(text: string)

  /** The query parameters the request can carry; `Name` gives the text written on the wire. */
  datatype ParamKey =
    | PrettyParam | RoutingParam | ParentParam | OpTypeParam | RefreshParam
    | VersionParam | VersionTypeParam | TimestampParam | TtlParam | TimeoutParam
  {
    function Name(): string
    {
      match this
      case PrettyParam => "pretty"
      case RoutingParam => "routing"
      case ParentParam => "parent"
      case OpTypeParam => "op_type"
      case RefreshParam => "refresh"
      case VersionParam => "version"
      case VersionTypeParam => "version_type"
      case TimestampParam => "timestamp"
      case TtlParam => "ttl"
      case TimeoutParam => "timeout"
    }
  }

  /** Everything the request is made of before the path template is expanded. */
  datatype Plan = Plan(
    verb: HttpMethod,
    template: string,
    vars: map<string, string>,
    params: map<ParamKey, string>,
    body: Body)

  datatype Request = Request(verb: HttpMethod, url: string, body: Body)

  datatype Response = Response(status: int, body: string)

  datatype Error =
    | PathExpansionError(message: string)
    | TransportError(message: string)
    | HttpStatusError(status: int, body: string)
    | DecodeError(message: string)

  /** Path template when the caller names the document. */
  const DocumentTemplate := "/{index}/{type}/{id}"
  /** Path template when the service chooses the id. */
  const AutoIdTemplate := "/{index}/{type}/"

  function NewIndexService(): IndexService
  {
    IndexService("", "", "", "", "", "", None, None, "", "", "", "", "", None, false, false)
  }

  // ---------------------------------------------------------------- setters

  function Index(s: IndexService, name: string): (s': IndexService)
    ensures s'.index == name && s'.(index := s.index) == s
  {
    s.(index := name)
  }

  function Type(s: IndexService, typ: string): (s': IndexService)
    ensures s'.typ == typ && s'.(typ := s.typ) == s
  {
    s.(typ := typ)
  }

  function Id(s: IndexService, id: string): (s': IndexService)
    ensures s'.id == id && s'.(id := s.id) == s
  {
    s.(id := id)
  }

  function Routing(s: IndexService, routing: string): (s': IndexService)
    ensures s'.routing == routing && s'.(routing := s.routing) == s
  {
    s.(routing := routing)
  }

  function Parent(s: IndexService, parent: string): (s': IndexService)
    ensures s'.parent == parent && s'.(parent := s.parent) == s
  {
    s.(parent := parent)
  }

  /** "create" or "index"; the builder does not check which. */
  function OpType(s: IndexService, opType: string): (s': IndexService)
    ensures s'.opType == opType && s'.(opType := s.opType) == s
  {
    s.(opType := opType)
  }

  function Refresh(s: IndexService, refresh: bool): (s': IndexService)
    ensures s'.refresh == Some(refresh) && s'.(refresh := s.refresh) == s
  {
    s.(refresh := Some(refresh))
  }

  function Version(s: IndexService, version: int64): (s': IndexService)
    ensures s'.version == Some(version) && s'.(version := s.version) == s
  {
    s.(version := Some(version))
  }

  /** "internal", "external", "external_gt", "external_gte" or "force"; not checked. */
  function VersionType(s: IndexService, versionType: string): (s': IndexService)
    ensures s'.versionType == versionType && s'.(versionType := s.versionType) == s
  {
    s.(versionType := versionType)
  }

  function Timestamp(s: IndexService, timestamp: string): (s': IndexService)
    ensures s'.timestamp == timestamp && s'.(timestamp := s.timestamp) == s
  {
    s.(timestamp := timestamp)
  }

  function TTL(s: IndexService, ttl: string): (s': IndexService)
    ensures s'.ttl == ttl && s'.(ttl := s.ttl) == s
  {
    s.(ttl := ttl)
  }

  function Timeout(s: IndexService, timeout: string): (s': IndexService)
    ensures s'.timeout == timeout && s'.(timeout := s.timeout) == s
  {
    s.(timeout := timeout)
  }

  function BodyString(s: IndexService, body: string): (s': IndexService)
    ensures s'.bodyString == body && s'.(bodyString := s.bodyString) == s
  {
    s.(bodyString := body)
  }

  /** None stands for passing Go's nil, which leaves no structured body. */
  function BodyJson(s: IndexService, json: Option<Value>): (s': IndexService)
    ensures s'.bodyJson == json && s'.(bodyJson := s.bodyJson) == s
  {
    s.(bodyJson := json)
  }

  function Pretty(s: IndexService, pretty: bool): (s': IndexService)
    ensures s'.pretty == pretty && s'.(pretty := s.pretty) == s
  {
    s.(pretty := pretty)
  }

  function Debug(s: IndexService, debug: bool): (s': IndexService)
    ensures s'.debug == debug && s'.(debug := s.debug) == s
  {
    s.(debug := debug)
  }

  // ------------------------------------------------------- request assembly

  /** Every parameter the request can carry. */
  const AllParams: set<ParamKey> :=
    {PrettyParam, RoutingParam, ParentParam, OpTypeParam, RefreshParam,
     VersionParam, VersionTypeParam, TimestampParam, TtlParam, TimeoutParam}

  /** A text option, sent only when it is not empty. */
  function NonEmpty(text: string): Option<string>
  {
    if text == "" then None else Some(text)
  }

  /** What the builder sends for one parameter, if anything. */
  function ParamValue(s: IndexService, key: ParamKey): Option<string>
  {
    match key
    case PrettyParam => if s.pretty then Some("true") else None
    case RoutingParam => NonEmpty(s.routing)
    case ParentParam => NonEmpty(s.parent)
    case OpTypeParam => NonEmpty(s.opType)
    case RefreshParam => if s.refresh == Some(true) then Some("true") else None
    case VersionParam => if s.version.Some? then Some(DecimalString(s.version.value as int)) else None
    case VersionTypeParam => NonEmpty(s.versionType)
    case TimestampParam => NonEmpty(s.timestamp)
    case TtlParam => NonEmpty(s.ttl)
    case TimeoutParam => NonEmpty(s.timeout)
  }

  /** The query parameters: each one present exactly when its option is set,
      carrying the option's text, "true", or the version in decimal. */
  function Params(s: IndexService): (p: map<ParamKey, string>)
    ensures PrettyParam in p <==> s.pretty
    ensures PrettyParam in p ==> p[PrettyParam] == "true"
    ensures RoutingParam in p <==> s.routing != ""
    ensures RoutingParam in p ==> p[RoutingParam] == s.routing
    ensures ParentParam in p <==> s.parent != ""
    ensures ParentParam in p ==> p[ParentParam] == s.parent
    ensures OpTypeParam in p <==> s.opType != ""
    ensures OpTypeParam in p ==> p[OpTypeParam] == s.opType
    ensures RefreshParam in p <==> s.refresh == Some(true)
    ensures RefreshParam in p ==> p[RefreshParam] == "true"
    ensures VersionParam in p <==> s.version.Some?
    ensures VersionParam in p ==> p[VersionParam] == DecimalString(s.version.value as int)
    ensures VersionTypeParam in p <==> s.versionType != ""
    ensures VersionTypeParam in p ==> p[VersionTypeParam] == s.versionType
    ensures TimestampParam in p <==> s.timestamp != ""
    ensures TimestampParam in p ==> p[TimestampParam] == s.timestamp
    ensures TtlParam in p <==> s.ttl != ""
    ensures TtlParam in p ==> p[TtlParam] == s.ttl
    ensures TimeoutParam in p <==> s.timeout != ""
    ensures TimeoutParam in p ==> p[TimeoutParam] == s.timeout
  {
    map key | key in AllParams && ParamValue(s, key).Some? :: ParamValue(s, key).value
  }

  /** The structured body if one was given, else the raw string. */
  function SelectBody(s: IndexService): Body
  {
    match s.bodyJson
    case Some(v) => JsonBody(v)
    case None => StringBody(s.bodyString)
  }

  /** Method, path template, template variables, parameters and body of the request. */
  function MakePlan(s: IndexService): (p: Plan)
    ensures p.verb == Put <==> s.id != ""
    ensures p.verb == Put ==> p.template == DocumentTemplate
    ensures p.verb == Post ==> p.template == AutoIdTemplate
    ensures p.vars.Keys == {"index", "type", "id"}
    ensures p.vars["index"] == s.index && p.vars["type"] == s.typ && p.vars["id"] == s.id
    ensures p.params == Params(s) && p.body == SelectBody(s)
  {
    var vars := map["index" := s.index, "type" := s.typ, "id" := s.id];
    if s.id != "" then Plan(Put, DocumentTemplate, vars, Params(s), SelectBody(s))
    else Plan(Post, AutoIdTemplate, vars, Params(s), SelectBody(s))
  }

  /** The expanded path, followed by '?' and the encoded parameters when there are any.
      `encode` stands for the standard library's query encoding. */
  function Url(path: string, params: map<ParamKey, string>, encode: map<ParamKey, string> -> string): (u: string)
    ensures |params| == 0 ==> u == path
    ensures |params| > 0 ==> |u| > |path| && u[..|path|] == path && u[|path|] == '?'
    ensures |params| > 0 ==> u[|path| + 1..] == encode(params)
  {
    if |params| > 0 then path + "?" + encode(params) else path
  }

  /** The request as it is handed to the HTTP client. `expand` stands for the
      URI-template expander, which fails when a variable cannot be encoded. */
  function Prepare(s: IndexService,
                   expand: (string, map<string, string>) -> Result<string, string>,
                   encode: map<ParamKey, string> -> string): (r: Result<Request, Error>)
    ensures var p := MakePlan(s); var e := expand(p.template, p.vars);
      && (e.Failure? ==> r == Failure(PathExpansionError(e.error)))
      && (e.Success? ==> r.Success? && r.value.verb == p.verb && r.value.body == p.body
                         && r.value.url == Url(e.value, p.params, encode))
  {
    var p := MakePlan(s);
    match expand(p.template, p.vars)
    case Failure(message) => Failure(PathExpansionError(message))
    case Success(path) => Success(Request(p.verb, Url(path, p.params, encode), p.body))
  }

  /** Any status outside 200..299 is an error carrying the status and the raw body. */
  function CheckResponse(res: Response): (e: Option<Error>)
    ensures e.None? <==> 200 <= res.status <= 299
    ensures e.Some? ==> e.value == HttpStatusError(res.status, res.body)
  {
    if 200 <= res.status <= 299 then None else Some(HttpStatusError(res.status, res.body))
  }

  /** One indexing call: prepare, send, check the status, decode. The first
      failing step decides the error and no result is produced. `send` stands
      for building and sending the HTTP request, `decode` for the JSON decoder. */
  function Do(s: IndexService,
              expand: (string, map<string, string>) -> Result<string, string>,
              encode: map<ParamKey, string> -> string,
              send: Request -> Result<Response, Error>,
              decode: string -> Result<IndexResult, Error>): (r: Result<IndexResult, Error>)
    ensures Prepare(s, expand, encode).Failure? ==> r == Failure(Prepare(s, expand, encode).error)
    ensures Prepare(s, expand, encode).Success? && send(Prepare(s, expand, encode).value).Failure? ==>
              r == Failure(send(Prepare(s, expand, encode).value).error)
    ensures Prepare(s, expand, encode).Success? && send(Prepare(s, expand, encode).value).Success? ==>
              var res := send(Prepare(s, expand, encode).value).value;
              r == if 200 <= res.status <= 299 then decode(res.body) else Failure(HttpStatusError(res.status, res.body))
  {
    match Prepare(s, expand, encode)
    case Failure(e) => Failure(e)
    case Success(req) =>
      match send(req)
      case Failure(e) => Failure(e)
      case Success(res) =>
        match CheckResponse(res)
        case Some(e) => Failure(e)
        case None => decode(res.body)
  }

  // ------------------------------------------------------------- properties

  /** Distinct parameters are written under distinct names. */
  lemma ParamNamesDistinct(a: ParamKey, b: ParamKey)
    ensures a.Name() == b.Name() ==> a == b
  {
  }

  /** Naming a document selects PUT on ".../{id}"; leaving the id empty selects
      POST on a path that ends in '/', so the service assigns the id. */
  lemma IdChoosesMethodAndTemplate(s: IndexService, id: string)
    ensures id != "" ==> MakePlan(Id(s, id)).verb == Put
    ensures id != "" ==> MakePlan(Id(s, id)).template == AutoIdTemplate + "{id}"
    ensures MakePlan(Id(s, "")).verb == Post
    ensures MakePlan(Id(s, "")).template[|MakePlan(Id(s, "")).template| - 1] == '/'
  {
  }

  /** A builder with no option set, under which no parameter is sent. */
  predicate Quiet(s: IndexService)
  {
    && !s.pretty && s.routing == "" && s.parent == "" && s.opType == ""
    && s.refresh != Some(true) && s.version.None?
    && s.versionType == "" && s.timestamp == "" && s.ttl == "" && s.timeout == ""
  }

  lemma ParamsEmptyIffQuiet(s: IndexService)
    ensures Params(s) == map[] <==> Quiet(s)
  {
  }

  /** A '?' reaches the URL exactly when some parameter is sent (for a path without one). */
  lemma QueryMarkIffParams(path: string, params: map<ParamKey, string>, encode: map<ParamKey, string> -> string)
    requires '?' !in path
    ensures '?' in Url(path, params, encode) <==> |params| > 0
  {
  }

  /** Builders that agree on every parameter's value send the same parameters. */
  lemma ParamsFollowValues(a: IndexService, b: IndexService)
    requires forall key :: ParamValue(a, key) == ParamValue(b, key)
    ensures Params(a) == Params(b)
  {
  }

  /** A fresh builder sends no parameter and posts an empty raw body, letting the service pick the id. */
  lemma FreshServiceSendsNothing()
    ensures Params(NewIndexService()) == map[]
    ensures MakePlan(NewIndexService()).verb == Post
    ensures MakePlan(NewIndexService()).body == StringBody("")
  {
  }

  /** `Refresh(false)` sends exactly what never calling `Refresh` sends. */
  lemma RefreshFalseMatchesUnset(s: IndexService)
    ensures MakePlan(Refresh(s, false)) == MakePlan(s.(refresh := None))
    ensures Params(Refresh(NewIndexService(), false)) == Params(NewIndexService())
  {
    ParamsFollowValues(Refresh(s, false), s.(refresh := None));
    ParamsFollowValues(Refresh(NewIndexService(), false), NewIndexService());
  }

  /** `Version(0)` sends version=0, while never calling `Version` sends no version. */
  lemma VersionZeroIsSent(s: IndexService)
    ensures VersionParam in Params(Version(s, 0)) && Params(Version(s, 0))[VersionParam] == "0"
    ensures VersionParam !in Params(s.(version := None))
  {
  }

  /** The version parameter reads back as the version that was set. */
  lemma VersionReadsBack(s: IndexService, v: int64)
    ensures ParseDecimal(Params(Version(s, v))[VersionParam]) == Some(v as int)
  {
    DecimalRoundTrip(v as int);
  }

  /** A structured body wins over a raw one whichever was set last; with neither the body is "". */
  lemma JsonBodyTakesPrecedence(s: IndexService, v: Value, text: string)
    ensures SelectBody(BodyString(BodyJson(s, Some(v)), text)) == JsonBody(v)
    ensures SelectBody(BodyJson(BodyString(s, text), Some(v))) == JsonBody(v)
    ensures SelectBody(BodyJson(BodyString(s, text), None)) == StringBody(text)
    ensures SelectBody(NewIndexService()) == StringBody("")
  {
  }

  /** The debug flag changes nothing about the call's outcome. This holds by
      construction: the flag only gates the request and response dumps, which
      are not modelled, so `Do` never reads it. */
  lemma DebugIsInvisible(s: IndexService, d: bool,
                         expand: (string, map<string, string>) -> Result<string, string>,
                         encode: map<ParamKey, string> -> string,
                         send: Request -> Result<Response, Error>,
                         decode: string -> Result<IndexResult, Error>)
    ensures Do(Debug(s, d), expand, encode, send, decode) == Do(s, expand, encode, send, decode)
  {
    ParamsFollowValues(Debug(s, d), s);
    assert MakePlan(Debug(s, d)) == MakePlan(s);
  }

  /** index "blog", type "post", id "1" with a structured body becomes a PUT of
      that body to the expanded document path, with no query string. */
  lemma BlogPostScenario(v: Value,
                         expand: (string, map<string, string>) -> Result<string, string>,
                         encode: map<ParamKey, string> -> string)
    requires expand(DocumentTemplate, map["index" := "blog", "type" := "post", "id" := "1"]) == Success("/blog/post/1")
    ensures var s := BodyJson(Id(Type(Index(NewIndexService(), "blog"), "post"), "1"), Some(v));
      Prepare(s, expand, encode) == Success(Request(Put, "/blog/post/1", JsonBody(v)))
  {
  }
}
