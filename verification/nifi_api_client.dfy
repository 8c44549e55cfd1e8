/**
 * The NiFi REST client: how each call shapes its URL and JSON payload, the
 * revision handshake of enable and start, the token header set by
 * authentication, and the rule that an error status ends a call.
 *
 * The transport is a `Server`: a function from the requests sent so far
 * and the next request to its response. A `Session` keeps the headers sent
 * with every request and the log of requests sent, so every call is a pure
 * function from a session to the next session and its result.
 */
module NifiApiClient {
  import opened Optional
  import opened Text

  datatype Json =
    | JNull
    | JNum(n: int)
    | JStr(s: string)
    | JArr(items: seq<Json>)
    | JObj(fields: map<string, Json>)

  /** `j[key]` on a JSON object; `None` where Python raises `KeyError` or `TypeError`. */
  function Field(j: Json, key: string): Option<Json> {
    if j.JObj? && key in j.fields then Some(j.fields[key]) else None
  }

  /**
   * `j` is an object with exactly the keys `keys`: a payload literal
   * writes its keys and no others, so a reader that accepts a payload
   * fixes all of it.
   */
  predicate HasExactly(j: Json, keys: set<string>) {
    j.JObj? && j.fields.Keys == keys
  }

  /** A Python value that is a string or `None`, as `json=` serialises it. */
  function StrOrNull(o: Option<string>): Json {
    match o
    case Some(s) => JStr(s)
    case None => JNull
  }

  /** Reads a string or null back. */
  function ReadStrOrNull(j: Json): Option<Option<string>> {
    match j
    case JStr(s) => Some(Some(s))
    case JNull => Some(None)
    case _ => None
  }

  /** A properties dict whose values may be `None`. */
  type Properties = map<string, Option<string>>

  function PropertiesJson(props: Properties): Json {
    JObj(map k | k in props :: StrOrNull(props[k]))
  }

  /** Reads a JSON object of strings and nulls back as a properties dict. */
  function ReadProperties(j: Json): Option<Properties> {
    if j.JObj? && forall k | k in j.fields :: ReadStrOrNull(j.fields[k]).Some? then
      Some(map k | k in j.fields :: ReadStrOrNull(j.fields[k]).value)
    else
      None
  }

  lemma ReadPropertiesRoundTrip(props: Properties)
    ensures ReadProperties(PropertiesJson(props)) == Some(props)
  {
    var fields := PropertiesJson(props).fields;
    forall k | k in fields ensures ReadStrOrNull(fields[k]) == Some(props[k]) {
      match props[k]
      case Some(_) =>
      case None =>
    }
    var back := map k | k in fields :: ReadStrOrNull(fields[k]).value;
    assert back == props;
  }

  /** Only the JSON of `props` reads back as `props`. */
  lemma ReadPropertiesExact(j: Json, props: Properties)
    ensures ReadProperties(j) == Some(props) <==> j == PropertiesJson(props)
  {
    if ReadProperties(j) == Some(props) {
      forall k | k in j.fields ensures j.fields[k] == StrOrNull(props[k]) {
        match j.fields[k]
        case JStr(_) =>
        case JNull =>
      }
      assert j.fields == PropertiesJson(props).fields;
    }
    if j == PropertiesJson(props) {
      ReadPropertiesRoundTrip(props);
    }
  }

  /** A JSON array of strings, as `json=` serialises a list of `str`. */
  function StringsJson(xs: seq<string>): Json {
    JArr(seq(|xs|, i requires 0 <= i < |xs| => JStr(xs[i])))
  }

  function ReadStrings(j: Json): Option<seq<string>> {
    if j.JArr? && forall i | 0 <= i < |j.items| :: j.items[i].JStr? then
      Some(seq(|j.items|, i requires 0 <= i < |j.items| => j.items[i].s))
    else
      None
  }

  lemma ReadStringsRoundTrip(xs: seq<string>)
    ensures ReadStrings(StringsJson(xs)) == Some(xs)
  {
    var items := StringsJson(xs).items;
    var back := seq(|items|, i requires 0 <= i < |items| => items[i].s);
    assert back == xs;
  }

  lemma ReadStringsExact(j: Json, xs: seq<string>)
    ensures ReadStrings(j) == Some(xs) <==> j == StringsJson(xs)
  {
    if ReadStrings(j) == Some(xs) {
      assert j.items == StringsJson(xs).items;
    }
    if j == StringsJson(xs) {
      ReadStringsRoundTrip(xs);
    }
  }

  datatype Position = Position(x: int, y: int)

  /** The position used when the caller gives none. */
  const Origin := Position(0, 0)

  function PositionJson(p: Position): Json {
    JObj(map["x" := JNum(p.x), "y" := JNum(p.y)])
  }

  function ReadPosition(j: Json): Option<Position> {
    if !HasExactly(j, {"x", "y"}) then None else
    match (Field(j, "x"), Field(j, "y"))
    case (Some(JNum(x)), Some(JNum(y))) => Some(Position(x, y))
    case _ => None
  }

  lemma ReadPositionRoundTrip(p: Position)
    ensures ReadPosition(PositionJson(p)) == Some(p)
  {
  }

  lemma ReadPositionExact(j: Json, p: Position)
    ensures ReadPosition(j) == Some(p) <==> j == PositionJson(p)
  {
    if ReadPosition(j) == Some(p) {
      assert j.fields == PositionJson(p).fields;
    }
  }

  // ---------------------------------------------------------------------
  // Payloads: each is a revision and a component, and each component
  // kind has a reader that takes its JSON back apart.

  /** The revision every create sends: `{"version": 0}`. */
  const Revision0 := JObj(map["version" := JNum(0)])

  function Envelope(revision: Json, component: Json): Json {
    JObj(map["revision" := revision, "component" := component])
  }

  /** The revision and the component of a payload. */
  function ReadEnvelope(j: Json): Option<(Json, Json)> {
    if !HasExactly(j, {"revision", "component"}) then None else
    match (Field(j, "revision"), Field(j, "component"))
    case (Some(revision), Some(component)) => Some((revision, component))
    case _ => None
  }

  lemma ReadEnvelopeRoundTrip(revision: Json, component: Json)
    ensures ReadEnvelope(Envelope(revision, component)) == Some((revision, component))
  {
  }

  lemma ReadEnvelopeExact(j: Json, revision: Json, component: Json)
    ensures ReadEnvelope(j) == Some((revision, component)) <==> j == Envelope(revision, component)
  {
    if ReadEnvelope(j) == Some((revision, component)) {
      assert j.fields == Envelope(revision, component).fields;
    }
  }

  /** Reads a string-valued field. */
  function ReadStr(j: Json, key: string): Option<string> {
    match Field(j, key)
    case Some(JStr(s)) => Some(s)
    case _ => None
  }

  datatype GroupComponent = GroupComponent(name: string, position: Position)

  function GroupJson(g: GroupComponent): Json {
    JObj(map["name" := JStr(g.name), "position" := PositionJson(g.position)])
  }

  function ReadGroup(j: Json): Option<GroupComponent> {
    if !HasExactly(j, {"name", "position"}) then None else
    match (ReadStr(j, "name"), Field(j, "position"))
    case (Some(name), Some(position)) =>
      (match ReadPosition(position)
       case Some(p) => Some(GroupComponent(name, p))
       case None => None)
    case _ => None
  }

  lemma ReadGroupRoundTrip(g: GroupComponent)
    ensures ReadGroup(GroupJson(g)) == Some(g)
  {
    assert Field(GroupJson(g), "position") == Some(PositionJson(g.position));
    ReadPositionRoundTrip(g.position);
  }

  lemma ReadGroupExact(j: Json, g: GroupComponent)
    ensures ReadGroup(j) == Some(g) <==> j == GroupJson(g)
  {
    if ReadGroup(j) == Some(g) {
      ReadPositionExact(j.fields["position"], g.position);
      assert j.fields == GroupJson(g).fields;
    }
    if j == GroupJson(g) {
      ReadGroupRoundTrip(g);
    }
  }

  /**
   * A processor: its type, name, position and properties. The payload
   * also lists no auto-terminated relationships; the reader insists on it.
   */
  datatype ProcessorComponent = ProcessorComponent(
    processorType: string, name: string, position: Position, properties: Properties)

  function ProcessorConfigJson(properties: Properties): Json {
    JObj(map["properties" := PropertiesJson(properties), "autoTerminatedRelationships" := JArr([])])
  }

  function ProcessorJson(p: ProcessorComponent): Json {
    JObj(map["type" := JStr(p.processorType), "name" := JStr(p.name),
             "position" := PositionJson(p.position), "config" := ProcessorConfigJson(p.properties)])
  }

  function ReadProcessorConfig(j: Json): Option<Properties> {
    if !HasExactly(j, {"properties", "autoTerminatedRelationships"}) then None else
    match (Field(j, "properties"), Field(j, "autoTerminatedRelationships"))
    case (Some(properties), Some(JArr(items))) =>
      if items == [] then ReadProperties(properties) else None
    case _ => None
  }

  function ReadProcessor(j: Json): Option<ProcessorComponent> {
    if !HasExactly(j, {"type", "name", "position", "config"}) then None else
    match (ReadStr(j, "type"), ReadStr(j, "name"), Field(j, "position"), Field(j, "config"))
    case (Some(t), Some(name), Some(position), Some(config)) =>
      (match (ReadPosition(position), ReadProcessorConfig(config))
       case (Some(p), Some(props)) => Some(ProcessorComponent(t, name, p, props))
       case _ => None)
    case _ => None
  }

  lemma ReadProcessorConfigRoundTrip(properties: Properties)
    ensures ReadProcessorConfig(ProcessorConfigJson(properties)) == Some(properties)
  {
    var j := ProcessorConfigJson(properties);
    assert Field(j, "properties") == Some(PropertiesJson(properties));
    assert Field(j, "autoTerminatedRelationships") == Some(JArr([]));
    ReadPropertiesRoundTrip(properties);
  }

  lemma ReadProcessorRoundTrip(p: ProcessorComponent)
    ensures ReadProcessor(ProcessorJson(p)) == Some(p)
  {
    var j := ProcessorJson(p);
    assert ReadStr(j, "type") == Some(p.processorType);
    assert ReadStr(j, "name") == Some(p.name);
    assert Field(j, "position") == Some(PositionJson(p.position));
    assert Field(j, "config") == Some(ProcessorConfigJson(p.properties));
    ReadPositionRoundTrip(p.position);
    ReadProcessorConfigRoundTrip(p.properties);
  }

  lemma ReadProcessorConfigExact(j: Json, properties: Properties)
    ensures ReadProcessorConfig(j) == Some(properties) <==> j == ProcessorConfigJson(properties)
  {
    if ReadProcessorConfig(j) == Some(properties) {
      ReadPropertiesExact(j.fields["properties"], properties);
      assert j.fields == ProcessorConfigJson(properties).fields;
    }
    if j == ProcessorConfigJson(properties) {
      ReadProcessorConfigRoundTrip(properties);
    }
  }

  lemma ReadProcessorExact(j: Json, p: ProcessorComponent)
    ensures ReadProcessor(j) == Some(p) <==> j == ProcessorJson(p)
  {
    if ReadProcessor(j) == Some(p) {
      ReadPositionExact(j.fields["position"], p.position);
      ReadProcessorConfigExact(j.fields["config"], p.properties);
      assert j.fields == ProcessorJson(p).fields;
    }
    if j == ProcessorJson(p) {
      ReadProcessorRoundTrip(p);
    }
  }

  datatype ServiceComponent = ServiceComponent(serviceType: string, name: string, properties: Properties)

  function ServiceJson(c: ServiceComponent): Json {
    JObj(map["type" := JStr(c.serviceType), "name" := JStr(c.name),
             "properties" := PropertiesJson(c.properties)])
  }

  function ReadService(j: Json): Option<ServiceComponent> {
    if !HasExactly(j, {"type", "name", "properties"}) then None else
    match (ReadStr(j, "type"), ReadStr(j, "name"), Field(j, "properties"))
    case (Some(t), Some(name), Some(properties)) =>
      (match ReadProperties(properties)
       case Some(props) => Some(ServiceComponent(t, name, props))
       case None => None)
    case _ => None
  }

  lemma ReadServiceRoundTrip(c: ServiceComponent)
    ensures ReadService(ServiceJson(c)) == Some(c)
  {
    var j := ServiceJson(c);
    assert ReadStr(j, "type") == Some(c.serviceType);
    assert ReadStr(j, "name") == Some(c.name);
    assert Field(j, "properties") == Some(PropertiesJson(c.properties));
    ReadPropertiesRoundTrip(c.properties);
  }

  lemma ReadServiceExact(j: Json, c: ServiceComponent)
    ensures ReadService(j) == Some(c) <==> j == ServiceJson(c)
  {
    if ReadService(j) == Some(c) {
      ReadPropertiesExact(j.fields["properties"], c.properties);
      assert j.fields == ServiceJson(c).fields;
    }
    if j == ServiceJson(c) {
      ReadServiceRoundTrip(c);
    }
  }

  /** One end of a connection: a component id, its group, and its kind. */
  datatype Endpoint = Endpoint(id: string, groupId: string, kind: string)

  function EndpointJson(e: Endpoint): Json {
    JObj(map["id" := JStr(e.id), "groupId" := JStr(e.groupId), "type" := JStr(e.kind)])
  }

  function ReadEndpoint(j: Json): Option<Endpoint> {
    if !HasExactly(j, {"id", "groupId", "type"}) then None else
    match (ReadStr(j, "id"), ReadStr(j, "groupId"), ReadStr(j, "type"))
    case (Some(id), Some(groupId), Some(kind)) => Some(Endpoint(id, groupId, kind))
    case _ => None
  }

  lemma ReadEndpointRoundTrip(e: Endpoint)
    ensures ReadEndpoint(EndpointJson(e)) == Some(e)
  {
    var j := EndpointJson(e);
    assert ReadStr(j, "id") == Some(e.id);
    assert ReadStr(j, "groupId") == Some(e.groupId);
    assert ReadStr(j, "type") == Some(e.kind);
  }

  lemma ReadEndpointExact(j: Json, e: Endpoint)
    ensures ReadEndpoint(j) == Some(e) <==> j == EndpointJson(e)
  {
    if ReadEndpoint(j) == Some(e) {
      assert j.fields == EndpointJson(e).fields;
    }
    if j == EndpointJson(e) {
      ReadEndpointRoundTrip(e);
    }
  }

  /** A connection: its two ends, the relationships it carries, and its queue settings. */
  datatype ConnectionComponent = ConnectionComponent(
    source: Endpoint, destination: Endpoint, relationships: seq<string>,
    expiration: string, sizeThreshold: string, objectThreshold: string)

  function ConnectionJson(c: ConnectionComponent): Json {
    JObj(map["source" := EndpointJson(c.source), "destination" := EndpointJson(c.destination),
             "selectedRelationships" := StringsJson(c.relationships),
             "flowFileExpiration" := JStr(c.expiration),
             "backPressureDataSizeThreshold" := JStr(c.sizeThreshold),
             "backPressureObjectThreshold" := JStr(c.objectThreshold)])
  }

  function ReadEnds(j: Json): Option<(Endpoint, Endpoint)> {
    match (Field(j, "source"), Field(j, "destination"))
    case (Some(src), Some(dst)) =>
      (match (ReadEndpoint(src), ReadEndpoint(dst))
       case (Some(a), Some(b)) => Some((a, b))
       case _ => None)
    case _ => None
  }

  function ReadQueue(j: Json): Option<(string, string, string)> {
    match (ReadStr(j, "flowFileExpiration"), ReadStr(j, "backPressureDataSizeThreshold"),
           ReadStr(j, "backPressureObjectThreshold"))
    case (Some(e), Some(d), Some(n)) => Some((e, d, n))
    case _ => None
  }

  function ReadConnection(j: Json): Option<ConnectionComponent> {
    if !HasExactly(j, {"source", "destination", "selectedRelationships", "flowFileExpiration",
                       "backPressureDataSizeThreshold", "backPressureObjectThreshold"}) then None else
    match (ReadEnds(j), Field(j, "selectedRelationships"), ReadQueue(j))
    case (Some(ends), Some(rels), Some(queue)) =>
      (match ReadStrings(rels)
       case Some(xs) => Some(ConnectionComponent(ends.0, ends.1, xs, queue.0, queue.1, queue.2))
       case None => None)
    case _ => None
  }

  lemma ReadConnectionRoundTrip(c: ConnectionComponent)
    ensures ReadConnection(ConnectionJson(c)) == Some(c)
  {
    var j := ConnectionJson(c);
    assert HasExactly(j, {"source", "destination", "selectedRelationships", "flowFileExpiration",
                          "backPressureDataSizeThreshold", "backPressureObjectThreshold"});
    assert ReadEnds(j) == Some((c.source, c.destination)) by {
      assert Field(j, "source") == Some(EndpointJson(c.source));
      assert Field(j, "destination") == Some(EndpointJson(c.destination));
      ReadEndpointRoundTrip(c.source);
      ReadEndpointRoundTrip(c.destination);
    }
    assert ReadQueue(j) == Some((c.expiration, c.sizeThreshold, c.objectThreshold)) by {
      assert ReadStr(j, "flowFileExpiration") == Some(c.expiration);
      assert ReadStr(j, "backPressureDataSizeThreshold") == Some(c.sizeThreshold);
      assert ReadStr(j, "backPressureObjectThreshold") == Some(c.objectThreshold);
    }
    assert Field(j, "selectedRelationships") == Some(StringsJson(c.relationships));
    ReadStringsRoundTrip(c.relationships);
  }

  lemma ReadConnectionExact(j: Json, c: ConnectionComponent)
    ensures ReadConnection(j) == Some(c) <==> j == ConnectionJson(c)
  {
    if ReadConnection(j) == Some(c) {
      ReadEndpointExact(j.fields["source"], c.source);
      ReadEndpointExact(j.fields["destination"], c.destination);
      ReadStringsExact(j.fields["selectedRelationships"], c.relationships);
      assert j.fields == ConnectionJson(c).fields;
    }
    if j == ConnectionJson(c) {
      ReadConnectionRoundTrip(c);
    }
  }

  /** The component of an enable or start: which component, and its new state. */
  datatype StateComponent = StateComponent(id: string, state: string)

  function StateJson(c: StateComponent): Json {
    JObj(map["id" := JStr(c.id), "state" := JStr(c.state)])
  }

  function ReadState(j: Json): Option<StateComponent> {
    if !HasExactly(j, {"id", "state"}) then None else
    match (ReadStr(j, "id"), ReadStr(j, "state"))
    case (Some(id), Some(state)) => Some(StateComponent(id, state))
    case _ => None
  }

  lemma ReadStateRoundTrip(c: StateComponent)
    ensures ReadState(StateJson(c)) == Some(c)
  {
    var j := StateJson(c);
    assert ReadStr(j, "id") == Some(c.id);
    assert ReadStr(j, "state") == Some(c.state);
  }

  lemma ReadStateExact(j: Json, c: StateComponent)
    ensures ReadState(j) == Some(c) <==> j == StateJson(c)
  {
    if ReadState(j) == Some(c) {
      assert j.fields == StateJson(c).fields;
    }
    if j == StateJson(c) {
      ReadStateRoundTrip(c);
    }
  }

  // ---------------------------------------------------------------------
  // Requests, responses, sessions

  datatype Method = Get | Post | Put

  datatype Body =
    | NoBody
    | Form(fields: map<string, Option<string>>)
    | JsonBody(json: Json)

  datatype Request = Request(verb: Method, url: string, headers: map<string, string>, body: Body)

  datatype Response = Response(status: int, text: string, json: Json)

  /** The far end: its answer may depend on every request sent before. */
  type Server = (seq<Request>, Request) -> Response

  datatype Session = Session(
    baseUrl: string,
    username: Option<string>,
    password: Option<string>,
    headers: map<string, string>,
    log: seq<Request>)

  datatype ApiError =
    | HttpError(status: int)
    /** `current["revision"]` failed: the GET body is not an object holding a revision. */
    | RevisionUnavailable

  datatype Outcome = Outcome(session: Session, result: Result<Json, ApiError>)

  /** The statuses `raise_for_status` raises for. */
  predicate IsErrorStatus(status: int) {
    400 <= status < 600
  }

  /** Python truthiness of an optional string: present and non-empty. */
  predicate Truthy(o: Option<string>) {
    o.Some? && o.value != ""
  }

  /** Sends `req` with the session: it is logged and answered. */
  function Send(s: Session, server: Server, req: Request): (Session, Response) {
    (s.(log := s.log + [req]), server(s.log, req))
  }

  /** The client's base URL as `rstrip('/')` leaves it: no trailing slash. */
  function NormaliseBaseUrl(url: string): (r: string)
    ensures |r| <= |url|
    ensures r == [] || r[|r| - 1] != '/'
    ensures url == r + Slashes(|url| - |r|)
  {
    var r := TrimEndChar(url, '/');
    assert url == r + Slashes(|url| - |r|) by {
      SlashesAreSlashes(|url| - |r|);
    }
    r
  }

  /** `n` slashes. */
  function Slashes(n: nat): (r: string)
    ensures |r| == n
  {
    if n == 0 then [] else Slashes(n - 1) + ['/']
  }

  lemma {:induction false} SlashesAreSlashes(n: nat)
    ensures forall i | 0 <= i < n :: Slashes(n)[i] == '/'
    decreases n
  {
    if n > 0 {
      SlashesAreSlashes(n - 1);
      assert forall i | 0 <= i < n - 1 :: Slashes(n)[i] == Slashes(n - 1)[i];
    }
  }

  lemma {:induction false} SkipCharBackAppend(u: string, c: char, j: nat)
    requires j <= |u|
    ensures SkipCharBack(u + [c], c, j) == SkipCharBack(u, c, j)
    decreases j
  {
    if 0 < j {
      assert (u + [c])[j - 1] == u[j - 1];
      SkipCharBackAppend(u, c, j - 1);
    }
  }

  /** One more trailing slash makes no difference. */
  lemma TrailingSlashIgnored(url: string)
    ensures NormaliseBaseUrl(url + ['/']) == NormaliseBaseUrl(url)
  {
    var v := url + ['/'];
    var k := SkipCharBack(url, '/', |url|);
    assert SkipCharBack(v, '/', |v|) == SkipCharBack(v, '/', |url|);
    SkipCharBackAppend(url, '/', |url|);
    assert v[..k] == url[..k];
  }

  /** Any number of trailing slashes makes no difference to the client's base URL. */
  lemma {:induction false} TrailingSlashesIgnored(url: string, n: nat)
    ensures NormaliseBaseUrl(url + Slashes(n)) == NormaliseBaseUrl(url)
    decreases n
  {
    if n > 0 {
      TrailingSlashesIgnored(url, n - 1);
      assert url + Slashes(n) == (url + Slashes(n - 1)) + ['/'];
      TrailingSlashIgnored(url + Slashes(n - 1));
    } else {
      assert url + Slashes(n) == url;
    }
  }

  /** Normalising twice is normalising once. */
  lemma NormaliseIdempotent(url: string)
    ensures NormaliseBaseUrl(NormaliseBaseUrl(url)) == NormaliseBaseUrl(url)
  {
    var r := NormaliseBaseUrl(url);
    if r != [] {
      assert SkipCharBack(r, '/', |r|) == |r|;
    }
  }

  // ---------------------------------------------------------------------
  // Construction and authentication

  /** The token request `_authenticate` posts. */
  function TokenRequest(s: Session): Request {
    Request(Post, s.baseUrl + "/access/token", s.headers,
            Form(map["username" := s.username, "password" := s.password]))
  }

  /**
   * `_authenticate`: post the credentials; only a 201 answer sets the
   * `Authorization` header, to `Bearer` and the response text. Any other
   * status is ignored, and nothing is raised.
   */
  function Authenticate(s: Session, server: Server): (s': Session)
    ensures s'.log == s.log + [TokenRequest(s)]
    ensures s'.baseUrl == s.baseUrl && s'.username == s.username && s'.password == s.password
    ensures var resp := server(s.log, TokenRequest(s));
              && (resp.status == 201 ==> s'.headers == s.headers["Authorization" := "Bearer " + resp.text])
              && (resp.status != 201 ==> s'.headers == s.headers)
  {
    var (s1, resp) := Send(s, server, TokenRequest(s));
    if resp.status == 201 then
      s1.(headers := s1.headers["Authorization" := "Bearer " + resp.text])
    else
      s1
  }

  /**
   * `NiFiAPIClient(base_url, username, password)`: the base URL loses its
   * trailing slashes, and authentication runs only when both credentials
   * are non-empty.
   */
  function Connect(baseUrl: string, username: Option<string>, password: Option<string>,
                   server: Server): (s: Session)
    ensures s.baseUrl == NormaliseBaseUrl(baseUrl)
    ensures s.username == username && s.password == password
    ensures |s.log| <= 1
    ensures |s.log| == 1 <==> Truthy(username) && Truthy(password)
    ensures s.log == [] ==> s.headers == map[]
    ensures |s.log| == 1 ==>
              && s.log[0].verb == Post
              && s.log[0].url == s.baseUrl + "/access/token"
              && s.log[0].body == Form(map["username" := username, "password" := password])
    ensures "Authorization" in s.headers <==> |s.log| == 1 && server([], s.log[0]).status == 201
    ensures "Authorization" in s.headers ==> s.headers == map["Authorization" := "Bearer " + server([], s.log[0]).text]
    ensures "Authorization" !in s.headers ==> s.headers == map[]
    ensures |s.log| == 1 ==> s.log[0] == TokenRequest(Session(s.baseUrl, username, password, map[], []))
  {
    var s0 := Session(NormaliseBaseUrl(baseUrl), username, password, map[], []);
    if Truthy(username) && Truthy(password) then Authenticate(s0, server) else s0
  }

  // ---------------------------------------------------------------------
  // Calls

  /** `response.raise_for_status()` followed by `response.json()`. */
  function Checked(resp: Response): (r: Result<Json, ApiError>)
    ensures r.Err? <==> IsErrorStatus(resp.status)
    ensures r.Err? ==> r.error == HttpError(resp.status)
    ensures r.Ok? ==> r.value == resp.json
  {
    if IsErrorStatus(resp.status) then Err(HttpError(resp.status)) else Ok(resp.json)
  }

  /** One checked POST of a JSON payload. */
  function PostJson(s: Session, server: Server, url: string, payload: Json): (o: Outcome)
    ensures o.session == s.(log := s.log + [Request(Post, url, s.headers, JsonBody(payload))])
    ensures o.result == Checked(server(s.log, Request(Post, url, s.headers, JsonBody(payload))))
  {
    var (s1, resp) := Send(s, server, Request(Post, url, s.headers, JsonBody(payload)));
    Outcome(s1, Checked(resp))
  }

  /**
   * `o` is `s` after one checked POST to `url` with the session's headers,
   * whose payload holds `revision` and a component the caller reads with
   * its reader; the result is the error of the response's status, or its
   * body.
   */
  predicate PostedOnce(s: Session, server: Server, o: Outcome, url: string, revision: Json, component: Json) {
    && o.session == s.(log := o.session.log)
    && |o.session.log| == |s.log| + 1
    && o.session.log[..|s.log|] == s.log
    && var req := o.session.log[|s.log|];
       && req.verb == Post && req.url == url && req.headers == s.headers
       && req.body.JsonBody?
       && ReadEnvelope(req.body.json) == Some((revision, component))
       && o.result == Checked(server(s.log, req))
  }

  /** A POST whose payload reads back as `revision` and `component` sent exactly that payload. */
  lemma PostedOnceExact(s: Session, server: Server, o: Outcome, url: string, revision: Json, component: Json)
    requires PostedOnce(s, server, o, url, revision, component)
    ensures o.session.log == s.log + [Request(Post, url, s.headers, JsonBody(Envelope(revision, component)))]
  {
    var req := o.session.log[|s.log|];
    ReadEnvelopeExact(req.body.json, revision, component);
    assert o.session.log == o.session.log[..|s.log|] + [req];
  }

  /** `create_process_group`: a revision-0 group with its name, at the origin. */
  function CreateProcessGroup(s: Session, server: Server, parentId: string, name: string): (o: Outcome)
    ensures exists c :: PostedOnce(s, server, o, s.baseUrl + "/process-groups/" + parentId + "/process-groups", Revision0, c)
                        && ReadGroup(c) == Some(GroupComponent(name, Origin))
  {
    var url := s.baseUrl + "/process-groups/" + parentId + "/process-groups";
    var c := GroupJson(GroupComponent(name, Origin));
    ReadEnvelopeRoundTrip(Revision0, c);
    ReadGroupRoundTrip(GroupComponent(name, Origin));
    PostJson(s, server, url, Envelope(Revision0, c))
  }

  /**
   * `create_processor`: a revision-0 processor at the position given, or
   * at the origin when none is given.
   */
  function CreateProcessor(s: Session, server: Server, groupId: string, processorType: string,
                           name: string, properties: Properties, position: Option<Position>): (o: Outcome)
    ensures exists c :: PostedOnce(s, server, o, s.baseUrl + "/process-groups/" + groupId + "/processors", Revision0, c)
                        && ReadProcessor(c) == Some(ProcessorComponent(processorType, name, ValueOr(position, Origin), properties))
  {
    var url := s.baseUrl + "/process-groups/" + groupId + "/processors";
    var p := ProcessorComponent(processorType, name, ValueOr(position, Origin), properties);
    ReadEnvelopeRoundTrip(Revision0, ProcessorJson(p));
    ReadProcessorRoundTrip(p);
    PostJson(s, server, url, Envelope(Revision0, ProcessorJson(p)))
  }

  /** `create_controller_service`: a revision-0 service with its properties. */
  function CreateControllerService(s: Session, server: Server, groupId: string, serviceType: string,
                                   name: string, properties: Properties): (o: Outcome)
    ensures exists c :: PostedOnce(s, server, o, s.baseUrl + "/process-groups/" + groupId + "/controller-services", Revision0, c)
                        && ReadService(c) == Some(ServiceComponent(serviceType, name, properties))
  {
    var url := s.baseUrl + "/process-groups/" + groupId + "/controller-services";
    var c := ServiceComponent(serviceType, name, properties);
    ReadEnvelopeRoundTrip(Revision0, ServiceJson(c));
    ReadServiceRoundTrip(c);
    PostJson(s, server, url, Envelope(Revision0, ServiceJson(c)))
  }

  /** The kind both ends of every connection have. */
  const ProcessorKind := "PROCESSOR"

  /**
   * `create_connection`: both ends are processors of the connection's
   * group, the relationships are passed through, flow files never expire,
   * and back pressure starts at 1 GB or 10000 flow files.
   */
  function CreateConnection(s: Session, server: Server, groupId: string, sourceId: string,
                            destinationId: string, relationships: seq<string>): (o: Outcome)
    ensures exists c :: PostedOnce(s, server, o, s.baseUrl + "/process-groups/" + groupId + "/connections", Revision0, c)
                        && ReadConnection(c) == Some(ConnectionComponent(
                             Endpoint(sourceId, groupId, ProcessorKind), Endpoint(destinationId, groupId, ProcessorKind),
                             relationships, "0 sec", "1 GB", "10000"))
  {
    var url := s.baseUrl + "/process-groups/" + groupId + "/connections";
    var c := ConnectionComponent(Endpoint(sourceId, groupId, ProcessorKind), Endpoint(destinationId, groupId, ProcessorKind),
                                 relationships, "0 sec", "1 GB", "10000");
    ReadEnvelopeRoundTrip(Revision0, ConnectionJson(c));
    ReadConnectionRoundTrip(c);
    PostJson(s, server, url, Envelope(Revision0, ConnectionJson(c)))
  }

  /** The GET that starts the handshake of enable and start. */
  function ReadRequest(s: Session, url: string): Request {
    Request(Get, url, s.headers, NoBody)
  }

  /**
   * The handshake of `enable_controller_service` and `start_processor`, as
   * seen in its outcome `o`: a GET of the component, then a PUT of the new
   * state with exactly the revision the GET returned. A failed GET, or a GET
   * body without a revision, ends the call before the PUT; otherwise the
   * result is the PUT's checked answer. Only the log changes.
   */
  predicate Handshake(s: Session, server: Server, url: string, id: string, state: string, o: Outcome) {
    var got := server(s.log, ReadRequest(s, url));
    && o.session == s.(log := o.session.log)
    && |s.log| < |o.session.log| <= |s.log| + 2
    && o.session.log[..|s.log| + 1] == s.log + [ReadRequest(s, url)]
    && (IsErrorStatus(got.status) ==> o.result == Err(HttpError(got.status)))
    && (!IsErrorStatus(got.status) && Field(got.json, "revision").None? ==>
          o.result == Err(RevisionUnavailable))
    && (|o.session.log| == |s.log| + 2 <==>
          !IsErrorStatus(got.status) && Field(got.json, "revision").Some?)
    && (|o.session.log| == |s.log| + 2 ==>
          var put := o.session.log[|s.log| + 1];
          && put.verb == Put && put.url == url && put.headers == s.headers
          && put.body.JsonBody?
          && ReadEnvelope(put.body.json).Some?
          && ReadEnvelope(put.body.json).value.0 == Field(got.json, "revision").value
          && ReadState(ReadEnvelope(put.body.json).value.1) == Some(StateComponent(id, state))
          && o.result == Checked(server(s.log + [ReadRequest(s, url)], put)))
  }

  /**
   * The PUT of a handshake sent exactly the GET's revision and the new
   * state, and nothing else.
   */
  lemma HandshakePutExact(s: Session, server: Server, url: string, id: string, state: string, o: Outcome)
    requires Handshake(s, server, url, id, state, o)
    requires |o.session.log| == |s.log| + 2
    ensures o.session.log[|s.log| + 1].body ==
              JsonBody(Envelope(Field(server(s.log, ReadRequest(s, url)).json, "revision").value,
                                StateJson(StateComponent(id, state))))
  {
    var put := o.session.log[|s.log| + 1];
    var (revision, component) := ReadEnvelope(put.body.json).value;
    ReadEnvelopeExact(put.body.json, revision, component);
    ReadStateExact(component, StateComponent(id, state));
  }

  /** The handshake itself, shared by enable and start. */
  function ReadThenWrite(s: Session, server: Server, url: string, id: string, state: string): (o: Outcome)
    ensures Handshake(s, server, url, id, state, o)
  {
    var (s1, got) := Send(s, server, ReadRequest(s, url));
    if IsErrorStatus(got.status) then
      Outcome(s1, Err(HttpError(got.status)))
    else
      match Field(got.json, "revision")
      case None => Outcome(s1, Err(RevisionUnavailable))
      case Some(revision) =>
        var c := StateComponent(id, state);
        ReadEnvelopeRoundTrip(revision, StateJson(c));
        ReadStateRoundTrip(c);
        var (s2, put) := Send(s1, server, Request(Put, url, s1.headers, JsonBody(Envelope(revision, StateJson(c)))));
        Outcome(s2, Checked(put))
  }

  /** `enable_controller_service`: the handshake on the service, with state `ENABLED`. */
  function EnableControllerService(s: Session, server: Server, serviceId: string): (o: Outcome)
    ensures Handshake(s, server, s.baseUrl + "/controller-services/" + serviceId, serviceId, "ENABLED", o)
  {
    ReadThenWrite(s, server, s.baseUrl + "/controller-services/" + serviceId, serviceId, "ENABLED")
  }

  /** `start_processor`: the handshake on the processor, with state `RUNNING`. */
  function StartProcessor(s: Session, server: Server, processorId: string): (o: Outcome)
    ensures Handshake(s, server, s.baseUrl + "/processors/" + processorId, processorId, "RUNNING", o)
  {
    ReadThenWrite(s, server, s.baseUrl + "/processors/" + processorId, processorId, "RUNNING")
  }

  /** `get_process_group`: one checked GET. */
  function GetProcessGroup(s: Session, server: Server, groupId: string): (o: Outcome)
    ensures o.session == s.(log := s.log + [ReadRequest(s, s.baseUrl + "/process-groups/" + groupId)])
    ensures o.result == Checked(server(s.log, ReadRequest(s, s.baseUrl + "/process-groups/" + groupId)))
  {
    var (s1, resp) := Send(s, server, ReadRequest(s, s.baseUrl + "/process-groups/" + groupId));
    Outcome(s1, Checked(resp))
  }
}
