/**
 * The CDC flow builder: from a mapping file and its two datasource files,
 * the fixed sequence of NiFi client calls that creates a process group,
 * two connection pools, five processors and seven connections, and then
 * starts the processors.
 *
 * The client is abstract here: a `NifiClient` answers each call, given the
 * calls made before it, with the new component's id or the error it
 * raised. The builder records every call with its answer, so the run is a
 * trace of `Call`s whose shape the contracts describe.
 */
module CdcFlowBuilder {
  import opened Optional
  import opened Text
  import Config = ConfigParser
  import Client = NifiApiClient

  // ---------------------------------------------------------------------
  // Client calls and traces

  datatype Op =
    | CreateProcessGroup(parentId: string, name: string)
    | CreateControllerService(groupId: string, serviceType: string, name: string, settings: Settings)
    | EnableControllerService(serviceId: string)
    /** A processor of the role's type and name (`ProcessorType`, `ProcessorName`). */
    | CreateProcessor(groupId: string, role: Role, settings: Settings, position: Client.Position)
    | CreateConnection(groupId: string, sourceId: string, destinationId: string, relationships: seq<string>)
    | StartProcessor(processorId: string)

  /** The id of the component a call created, or the error the call raised; enable and start ignore the id. */
  type Reply = Result<string, Client.ApiError>

  datatype Call = Call(op: Op, reply: Reply)

  /** The NiFi side: the answer to a call, given every call made before it. */
  type NifiClient = (seq<Call>, Op) -> Reply

  /**
   * Every call of `calls` got the answer the client gives it after the
   * calls `before` and the calls of `calls` ahead of it.
   */
  predicate AnsweredAfter(client: NifiClient, before: seq<Call>, calls: seq<Call>) {
    forall i | 0 <= i < |calls| :: calls[i].reply == client(before + calls[..i], calls[i].op)
  }

  /** Every call of a run got the answer the client gives it after the calls before it. */
  predicate Answered(client: NifiClient, calls: seq<Call>) {
    AnsweredAfter(client, [], calls)
  }

  /** Two answered stretches of calls, one after the other, make one. */
  lemma AnsweredJoin(client: NifiClient, before: seq<Call>, a: seq<Call>, b: seq<Call>)
    requires AnsweredAfter(client, before, a) && AnsweredAfter(client, before + a, b)
    ensures AnsweredAfter(client, before, a + b)
  {
    forall i | 0 <= i < |a + b| ensures (a + b)[i].reply == client(before + (a + b)[..i], (a + b)[i].op) {
      if i < |a| {
        assert (a + b)[..i] == a[..i];
      } else {
        assert before + (a + b)[..i] == (before + a) + b[..i - |a|];
      }
    }
  }

  datatype Kind = ProcessGroup | ControllerService | Processor | Connection

  /** The component a call created, with its kind. */
  function Creates(c: Call): set<(Kind, string)> {
    if c.reply.Err? then {}
    else
      match c.op
      case CreateProcessGroup(_, _) => {(ProcessGroup, c.reply.value)}
      case CreateControllerService(_, _, _, _) => {(ControllerService, c.reply.value)}
      case CreateProcessor(_, _, _, _) => {(Processor, c.reply.value)}
      case CreateConnection(_, _, _, _) => {(Connection, c.reply.value)}
      case _ => {}
  }

  /** The components a call refers to by id, with the kind each must have. */
  function Refs(op: Op): set<(Kind, string)> {
    match op
    case CreateProcessGroup(_, _) => {}
    case CreateControllerService(g, _, _, _) => {(ProcessGroup, g)}
    case EnableControllerService(s) => {(ControllerService, s)}
    case CreateProcessor(g, _, _, _) => {(ProcessGroup, g)}
    case CreateConnection(g, a, b, _) => {(ProcessGroup, g), (Processor, a), (Processor, b)}
    case StartProcessor(p) => {(Processor, p)}
  }

  /** Every component created by `calls`. */
  function CreatedBy(calls: seq<Call>): set<(Kind, string)>
    decreases |calls|
  {
    if calls == [] then {} else CreatedBy(calls[..|calls| - 1]) + Creates(calls[|calls| - 1])
  }

  /** Every id a call refers to was created, with the right kind, by an earlier call. */
  predicate Provenance(calls: seq<Call>)
    decreases |calls|
  {
    calls == [] ||
    (Provenance(calls[..|calls| - 1]) && Refs(calls[|calls| - 1].op) <= CreatedBy(calls[..|calls| - 1]))
  }

  lemma {:induction false} CreatedByEarlier(calls: seq<Call>, x: (Kind, string))
    requires x in CreatedBy(calls)
    ensures exists j | 0 <= j < |calls| :: x in Creates(calls[j])
    decreases |calls|
  {
    var n := |calls| - 1;
    if x !in Creates(calls[n]) {
      CreatedByEarlier(calls[..n], x);
      var j :| 0 <= j < n && x in Creates(calls[..n][j]);
      assert calls[..n][j] == calls[j];
    }
  }

  /** `Provenance` read call by call: each reference points back to an earlier create. */
  lemma {:induction false} ProvenanceEach(calls: seq<Call>, i: nat, x: (Kind, string))
    requires Provenance(calls) && i < |calls| && x in Refs(calls[i].op)
    ensures exists j | 0 <= j < i :: x in Creates(calls[j])
    decreases |calls|
  {
    var n := |calls| - 1;
    if i < n {
      ProvenanceEach(calls[..n], i, x);
      var j :| 0 <= j < i && x in Creates(calls[..n][j]);
      assert calls[..n][j] == calls[j];
    } else {
      CreatedByEarlier(calls[..n], x);
      var j :| 0 <= j < n && x in Creates(calls[..n][j]);
      assert calls[..n][j] == calls[j];
    }
  }

  /** Every call succeeded. */
  predicate AllOk(calls: seq<Call>) {
    forall i | 0 <= i < |calls| :: calls[i].reply.Ok?
  }

  /** Every call succeeded except the last, which raised `e`. */
  predicate FailedLast(calls: seq<Call>, e: Client.ApiError) {
    |calls| > 0 && AllOk(calls[..|calls| - 1]) && calls[|calls| - 1].reply == Err(e)
  }

  /** Makes one client call, after the calls `before` and `out`, and records it in `out`. */
  method Issue(client: NifiClient, before: seq<Call>, out: seq<Call>, op: Op) returns (out': seq<Call>, reply: Reply)
    ensures reply == client(before + out, op)
    ensures out' == out + [Call(op, reply)]
    ensures AnsweredAfter(client, before, out) ==> AnsweredAfter(client, before, out')
  {
    reply := client(before + out, op);
    out' := out + [Call(op, reply)];
    assert out'[..|out|] == out;
    forall i | 0 <= i < |out| ensures out'[..i] == out[..i] {
    }
  }

  // ---------------------------------------------------------------------
  // Configuration

  datatype FlowError =
    | ConfigMissing(path: string)
    | RequestFailed(error: Client.ApiError)
    /** `processors[role]` raised `KeyError`. */
    | MissingProcessor(role: Role)

  /** The mapping and its two datasources, by the names the mapping gives. */
  datatype FlowConfig = FlowConfig(
    mapping: Config.Properties,
    sourceName: Option<string>,
    source: Config.Properties,
    targetName: Option<string>,
    target: Config.Properties)

  /**
   * The three `parse_*` calls that start `create_cdc_flow`: the mapping,
   * then the source and target datasources it names. A name the mapping
   * lacks is `None`, so its file is `None.properties`.
   */
  function LoadFlowConfig(files: Config.Files, basePath: string, mappingName: string): (r: Result<FlowConfig, Config.ConfigError>)
    ensures r.Ok? <==>
              && Config.ParseMapping(files, basePath, mappingName).Ok?
              && var m := Config.ParseMapping(files, basePath, mappingName).value;
                 && Config.ParseDatasource(files, basePath, Config.PyStr(Config.Get(m, "source.datasource"))).Ok?
                 && Config.ParseDatasource(files, basePath, Config.PyStr(Config.Get(m, "target.datasource"))).Ok?
    ensures r.Ok? ==>
              && r.value.mapping == Config.ParseMapping(files, basePath, mappingName).value
              && r.value.sourceName == Config.Get(r.value.mapping, "source.datasource")
              && r.value.targetName == Config.Get(r.value.mapping, "target.datasource")
              && r.value.source == Config.ParseDatasource(files, basePath, Config.PyStr(r.value.sourceName)).value
              && r.value.target == Config.ParseDatasource(files, basePath, Config.PyStr(r.value.targetName)).value
    ensures r.Err? ==> r.error.path !in files
    ensures var mp := Config.MappingPath(basePath, mappingName);
            mp !in files ==> r == Err(Config.FileNotFound(mp))
    ensures Config.ParseMapping(files, basePath, mappingName).Ok? ==>
              var m := Config.ParseMapping(files, basePath, mappingName).value;
              var sp := Config.DatasourcePath(basePath, Config.PyStr(Config.Get(m, "source.datasource")));
              var tp := Config.DatasourcePath(basePath, Config.PyStr(Config.Get(m, "target.datasource")));
              && (sp !in files ==> r == Err(Config.FileNotFound(sp)))
              && (sp in files && tp !in files ==> r == Err(Config.FileNotFound(tp)))
  {
    match Config.ParseMapping(files, basePath, mappingName)
    case Err(e) => Err(e)
    case Ok(mapping) =>
      var sourceName := Config.Get(mapping, "source.datasource");
      var targetName := Config.Get(mapping, "target.datasource");
      match Config.ParseDatasource(files, basePath, Config.PyStr(sourceName))
      case Err(e) => Err(e)
      case Ok(source) =>
        match Config.ParseDatasource(files, basePath, Config.PyStr(targetName))
        case Err(e) => Err(e)
        case Ok(target) => Ok(FlowConfig(mapping, sourceName, source, targetName, target))
  }

  /** The process group's name: the mapping's `mapping.name`, or `CDC Flow`. */
  function GroupName(mapping: Config.Properties): (name: string)
    ensures "mapping.name" in mapping ==> name == mapping["mapping.name"]
    ensures "mapping.name" !in mapping ==> name == "CDC Flow"
  {
    Config.GetOr(mapping, "mapping.name", "CDC Flow")
  }

  // ---------------------------------------------------------------------
  // Settings

  /** The component properties the builder sets, each known to NiFi by its `SettingKey`. */
  datatype Setting =
    | DatabaseConnectionUrl | DatabaseDriverClassName | DatabaseUser | Password | MaxTotalConnections
    | ConnectionPoolingService | SqlSelectQuery | MaxRowsPerFlowFile
    | StatementType | TableName | CatalogName | SchemaName
    | JdbcConnectionPool | BatchSizeSetting
    | LogLevel | AttributesToLog

  /** A component's properties; a `None` value is sent as null. */
  type Settings = map<Setting, Option<string>>

  /** The property name the client sends a setting under. */
  function SettingKey(s: Setting): string {
    match s
    case DatabaseConnectionUrl => "Database Connection URL"
    case DatabaseDriverClassName => "Database Driver Class Name"
    case DatabaseUser => "Database User"
    case Password => "Password"
    case MaxTotalConnections => "Max Total Connections"
    case ConnectionPoolingService => "Database Connection Pooling Service"
    case SqlSelectQuery => "SQL select query"
    case MaxRowsPerFlowFile => "Max Rows Per Flow File"
    case StatementType => "Statement Type"
    case TableName => "Table Name"
    case CatalogName => "Catalog Name"
    case SchemaName => "Schema Name"
    case JdbcConnectionPool => "JDBC Connection Pool"
    case BatchSizeSetting => "Batch Size"
    case LogLevel => "Log Level"
    case AttributesToLog => "Attributes to Log"
  }

  // ---------------------------------------------------------------------
  // Connection pools

  const DbcpServiceType := "org.apache.nifi.dbcp.DBCPConnectionPool"

  /** A datasource's pool is named after the datasource, as the f-string renders it. */
  function DbcpName(datasource: Option<string>): string {
    Config.PyStr(datasource) + "_DBCP"
  }

  /** The settings of a datasource's connection pool. */
  function DbcpSettings(db: Config.Properties): (settings: Settings)
    ensures settings.Keys == {DatabaseConnectionUrl, DatabaseDriverClassName, DatabaseUser, Password, MaxTotalConnections}
    ensures settings[DatabaseUser] == Config.Get(db, "db.username")
    ensures settings[Password] == Config.Get(db, "db.password")
    ensures "oracle.driver.class" !in db ==> settings[DatabaseDriverClassName] == Some("oracle.jdbc.OracleDriver")
    ensures "db.pool.size" !in db ==> settings[MaxTotalConnections] == Some("10")
  {
    map[DatabaseConnectionUrl := Some(Config.BuildJdbcUrl(db)),
        DatabaseDriverClassName := Some(Config.GetOr(db, "oracle.driver.class", "oracle.jdbc.OracleDriver")),
        DatabaseUser := Config.Get(db, "db.username"),
        Password := Config.Get(db, "db.password"),
        MaxTotalConnections := Some(Config.GetOr(db, "db.pool.size", "10"))]
  }

  function DbcpOp(groupId: string, datasource: Option<string>, db: Config.Properties): Op {
    CreateControllerService(groupId, DbcpServiceType, DbcpName(datasource), DbcpSettings(db))
  }

  /**
   * The pool's URL is the datasource's JDBC URL, its user and password are
   * the datasource's (null when absent), and the driver and pool size take
   * their defaults when the datasource does not set them.
   */
  lemma DbcpDefaults(db: Config.Properties)
    ensures DbcpSettings(db).Keys == {DatabaseConnectionUrl, DatabaseDriverClassName, DatabaseUser, Password,
                                      MaxTotalConnections}
    ensures DbcpSettings(db)[DatabaseConnectionUrl] == Some(Config.BuildJdbcUrl(db))
    ensures DbcpSettings(db)[DatabaseUser] == Config.Get(db, "db.username")
    ensures DbcpSettings(db)[Password] == Config.Get(db, "db.password")
    ensures "oracle.driver.class" !in db ==>
              DbcpSettings(db)[DatabaseDriverClassName] == Some("oracle.jdbc.OracleDriver")
    ensures "oracle.driver.class" in db ==>
              DbcpSettings(db)[DatabaseDriverClassName] == Some(db["oracle.driver.class"])
    ensures "db.pool.size" !in db ==> DbcpSettings(db)[MaxTotalConnections] == Some("10")
    ensures "db.pool.size" in db ==> DbcpSettings(db)[MaxTotalConnections] == Some(db["db.pool.size"])
  {
  }

  // ---------------------------------------------------------------------
  // Processors

  /**
   * The five processors of a flow, by the key the processors map files
   * each under: `extract`, `convert`, `convert_sql`, `load`, `log_error`.
   */
  datatype Role = Extract | Convert | ConvertSql | Load | LogError

  /** The roles in the order the processors are created. */
  const Roles: seq<Role> := [Extract, Convert, ConvertSql, Load, LogError]

  /** Each role occurs once in `Roles`. */
  lemma RolesDistinct()
    ensures forall i, j | 0 <= i < j < |Roles| :: Roles[i] != Roles[j]
    ensures forall role: Role :: role in Roles
  {
    forall role: Role ensures role in Roles {
      match role
      case Extract => assert Roles[0] == role;
      case Convert => assert Roles[1] == role;
      case ConvertSql => assert Roles[2] == role;
      case Load => assert Roles[3] == role;
      case LogError => assert Roles[4] == role;
    }
  }

  /** The NiFi processor type of each role. */
  function ProcessorType(role: Role): string {
    match role
    case Extract => "org.apache.nifi.processors.standard.ExecuteSQL"
    case Convert => "org.apache.nifi.processors.kite.ConvertAvroToJSON"
    case ConvertSql => "org.apache.nifi.processors.standard.ConvertJSONToSQL"
    case Load => "org.apache.nifi.processors.standard.PutSQL"
    case LogError => "org.apache.nifi.processors.standard.LogAttribute"
  }

  /** The name each role's processor is given. */
  function ProcessorName(role: Role): string {
    match role
    case Extract => "Extract CDC Data"
    case Convert => "Convert to JSON"
    case ConvertSql => "Convert to SQL"
    case Load => "Load to Target"
    case LogError => "Log Errors"
  }

  datatype ProcessorSpec = ProcessorSpec(role: Role, settings: Settings, position: Client.Position)

  function ProcessorOp(groupId: string, spec: ProcessorSpec): Op {
    CreateProcessor(groupId, spec.role, spec.settings, spec.position)
  }

  /** Rows per flow file of the extract and batch size of the load. */
  function BatchSize(mapping: Config.Properties): string {
    Config.GetOr(mapping, "cdc.batch.size", "1000")
  }

  /** `'value'`: a value between single quotes, as the query quotes its bounds. */
  function Quoted(value: string): string {
    "'" + value + "'"
  }

  /** A string holds both of the pieces it is assembled around. */
  lemma ContainsBoth(head: string, x: string, middle: string, y: string, tail: string)
    ensures Contains(head + x + middle + y + tail, x)
    ensures Contains(head + x + middle + y + tail, y)
  {
    ContainsSuffix(head, x);
    ContainsExtend(head + x, x, middle);
    ContainsExtend(head + x + middle, x, y);
    ContainsExtend(head + x + middle + y, x, tail);
    ContainsSuffix(head + x + middle, y);
    ContainsExtend(head + x + middle + y, y, tail);
  }

  /**
   * The extract's query, exactly as the source's triple-quoted f-string
   * lays it out (a newline and eight spaces before each line); an absent
   * setting renders as `None`.
   */
  function ExtractQuery(mapping: Config.Properties): (query: string)
    ensures Contains(query, "WHERE " + Config.PyStr(Config.Get(mapping, "cdc.column")) + " >= TO_TIMESTAMP("
                            + Quoted(Config.PyStr(Config.Get(mapping, "cdc.incremental.from"))))
    ensures Contains(query, "AND " + Config.PyStr(Config.Get(mapping, "cdc.column")) + " <= TO_TIMESTAMP("
                            + Quoted(Config.PyStr(Config.Get(mapping, "cdc.incremental.to"))))
  {
    var table := Config.PyStr(Config.Get(mapping, "source.table"));
    var column := Config.PyStr(Config.Get(mapping, "cdc.column"));
    var from := Config.PyStr(Config.Get(mapping, "cdc.incremental.from"));
    var to := Config.PyStr(Config.Get(mapping, "cdc.incremental.to"));
    var lower := "WHERE " + column + " >= TO_TIMESTAMP(" + Quoted(from);
    var upper := "AND " + column + " <= TO_TIMESTAMP(" + Quoted(to);
    var format := ", 'YYYY-MM-DD HH24:MI:SS')\n        ";
    var head := "\n        " + ("SELECT * FROM " + table) + " \n        ";
    ContainsBoth(head, lower, format, upper, format);
    head + lower + format + upper + format
  }

  /** The five processors of a flow, in creation order. */
  function ProcessorSpecs(mapping: Config.Properties, sourceDbcpId: string, targetDbcpId: string): (specs: seq<ProcessorSpec>)
    ensures |specs| == |Roles|
    ensures forall k | 0 <= k < |specs| :: specs[k].role == Roles[k]
  {
    [ProcessorSpec(Extract,
                   map[ConnectionPoolingService := Some(sourceDbcpId),
                       SqlSelectQuery := Some(ExtractQuery(mapping)),
                       MaxRowsPerFlowFile := Some(BatchSize(mapping))],
                   Client.Position(100, 100)),
     ProcessorSpec(Convert, map[], Client.Position(400, 100)),
     ProcessorSpec(ConvertSql,
                   map[StatementType := Some("INSERT"),
                       TableName := Config.Get(mapping, "target.table"),
                       CatalogName := Some(""),
                       SchemaName := Some("")],
                   Client.Position(700, 100)),
     ProcessorSpec(Load,
                   map[JdbcConnectionPool := Some(targetDbcpId),
                       BatchSizeSetting := Some(BatchSize(mapping))],
                   Client.Position(1000, 100)),
     ProcessorSpec(LogError,
                   map[LogLevel := Some("error"), AttributesToLog := Some(".*")],
                   Client.Position(700, 300))]
  }

  /**
   * The extract reads from the source pool and the load writes to the
   * target pool; both move `cdc.batch.size` rows at a time, 1000 when the
   * mapping does not say.
   */
  lemma PoolsAndBatchSize(mapping: Config.Properties, sourceDbcpId: string, targetDbcpId: string)
    ensures var specs := ProcessorSpecs(mapping, sourceDbcpId, targetDbcpId);
            && specs[0].settings[ConnectionPoolingService] == Some(sourceDbcpId)
            && specs[3].settings[JdbcConnectionPool] == Some(targetDbcpId)
            && specs[0].settings[MaxRowsPerFlowFile] == specs[3].settings[BatchSizeSetting]
            && specs[3].settings[BatchSizeSetting] == Some(BatchSize(mapping))
            && specs[0].settings[SqlSelectQuery] == Some(ExtractQuery(mapping))
            && specs[2].settings[TableName] == Config.Get(mapping, "target.table")
  {
  }

  lemma BatchSizeDefault(mapping: Config.Properties)
    ensures "cdc.batch.size" in mapping ==> BatchSize(mapping) == mapping["cdc.batch.size"]
    ensures "cdc.batch.size" !in mapping ==> BatchSize(mapping) == "1000"
  {
  }

  /** The query selects from the source table between the two incremental bounds, each quoted. */
  lemma ExtractQueryMentions(mapping: Config.Properties)
    ensures Contains(ExtractQuery(mapping), "SELECT * FROM " + Config.PyStr(Config.Get(mapping, "source.table")))
    ensures Contains(ExtractQuery(mapping), Quoted(Config.PyStr(Config.Get(mapping, "cdc.incremental.from"))))
    ensures Contains(ExtractQuery(mapping), Quoted(Config.PyStr(Config.Get(mapping, "cdc.incremental.to"))))
  {
    var table := Config.PyStr(Config.Get(mapping, "source.table"));
    var column := Config.PyStr(Config.Get(mapping, "cdc.column"));
    var from := Config.PyStr(Config.Get(mapping, "cdc.incremental.from"));
    var to := Config.PyStr(Config.Get(mapping, "cdc.incremental.to"));
    var lowerHead := "WHERE " + column + " >= TO_TIMESTAMP(";
    var upperHead := "AND " + column + " <= TO_TIMESTAMP(";
    var lower := lowerHead + Quoted(from);
    var upper := upperHead + Quoted(to);
    var format := ", 'YYYY-MM-DD HH24:MI:SS')\n        ";
    var head := "\n        " + ("SELECT * FROM " + table) + " \n        ";
    var query := head + lower + format + upper + format;
    assert ExtractQuery(mapping) == query;
    ContainsSuffix("\n        ", "SELECT * FROM " + table);
    ContainsExtend("\n        " + ("SELECT * FROM " + table), "SELECT * FROM " + table, " \n        ");
    ContainsExtend(head, "SELECT * FROM " + table, lower);
    ContainsExtend(head + lower, "SELECT * FROM " + table, format);
    ContainsExtend(head + lower + format, "SELECT * FROM " + table, upper);
    ContainsExtend(head + lower + format + upper, "SELECT * FROM " + table, format);
    ContainsSuffix(lowerHead, Quoted(from));
    ContainsSuffix(upperHead, Quoted(to));
    ContainsBoth(head, lower, format, upper, format);
    ContainsTransitive(query, lower, Quoted(from));
    ContainsTransitive(query, upper, Quoted(to));
  }

  // ---------------------------------------------------------------------
  // Connections

  /** A connection between two processors, by role, carrying one relationship. */
  datatype Edge = Edge(from: Role, to: Role, relationship: string)

  /** The success chain, from the extract to the load. */
  const SuccessEdges: seq<Edge> :=
    [Edge(Extract, Convert, "success"), Edge(Convert, ConvertSql, "success"), Edge(ConvertSql, Load, "success")]

  /** The failure edges to the log, from each processor whose failures are logged, in order. */
  const FailureEdges: seq<Edge> :=
    [Edge(Extract, LogError, "failure"), Edge(Convert, LogError, "failure"),
     Edge(ConvertSql, LogError, "failure"), Edge(Load, LogError, "failure")]

  /** The seven connections of a flow, in creation order. */
  const Edges: seq<Edge> := SuccessEdges + FailureEdges

  /** Success flows along the first four processors, in creation order. */
  lemma SuccessChain()
    ensures |SuccessEdges| == 3
    ensures forall k | 0 <= k < 3 :: SuccessEdges[k] == Edge(Roles[k], Roles[k + 1], "success")
  {
  }

  /** Each of the first four processors sends its failures to the log. */
  lemma FailureFan()
    ensures |FailureEdges| == 4
    ensures forall k | 0 <= k < 4 :: FailureEdges[k] == Edge(Roles[k], LogError, "failure")
  {
  }

  /**
   * Success flows along the processors in creation order from the extract
   * to the load, and each of those four sends its failures to the log;
   * nothing flows into the extract or out of the log.
   */
  lemma EdgeTopology()
    ensures |SuccessEdges| == 3 && |FailureEdges| == 4 && |Edges| == 7
    ensures forall k | 0 <= k < 3 :: SuccessEdges[k] == Edges[k] == Edge(Roles[k], Roles[k + 1], "success")
    ensures forall k | 0 <= k < 4 :: FailureEdges[k] == Edges[3 + k] == Edge(Roles[k], LogError, "failure")
    ensures forall e | e in Edges :: e.to != Extract && e.from != LogError
  {
  }

  /** The call creates the connection for edge `e`, between the processors of its roles. */
  predicate Links(c: Call, groupId: string, processors: map<Role, string>, e: Edge) {
    e.from in processors && e.to in processors && c.op == ConnectionOp(groupId, processors, e)
  }

  function ConnectionOp(groupId: string, processors: map<Role, string>, e: Edge): Op
    requires e.from in processors && e.to in processors
  {
    CreateConnection(groupId, processors[e.from], processors[e.to], [e.relationship])
  }

  /** `processors[role]`. */
  function Lookup(processors: map<Role, string>, role: Role): (r: Result<string, FlowError>)
    ensures r.Ok? <==> role in processors
    ensures r.Ok? ==> r.value == processors[role]
    ensures r.Err? ==> r.error == MissingProcessor(role)
  {
    if role in processors then Ok(processors[role]) else Err(MissingProcessor(role))
  }

  // ---------------------------------------------------------------------
  // Pieces of a complete run

  datatype Flow = Flow(group: string, processors: map<Role, string>, sourceDbcp: string, targetDbcp: string)

  /** The group, the two pools and their enables. */
  predicate SetUpPlan(calls: seq<Call>, rootGroupId: string, c: FlowConfig, f: Flow) {
    && |calls| == 5
    && calls[0] == Call(CreateProcessGroup(rootGroupId, GroupName(c.mapping)), Ok(f.group))
    && calls[1] == Call(DbcpOp(f.group, c.sourceName, c.source), Ok(f.sourceDbcp))
    && calls[2] == Call(DbcpOp(f.group, c.targetName, c.target), Ok(f.targetDbcp))
    && calls[3].op == EnableControllerService(f.sourceDbcp)
    && calls[4].op == EnableControllerService(f.targetDbcp)
  }

  /** One create per spec, in order, each answered with the id the map holds for its role. */
  predicate ProcessorsPlan(calls: seq<Call>, groupId: string, specs: seq<ProcessorSpec>, processors: map<Role, string>) {
    && |calls| == |specs|
    && forall k | 0 <= k < |specs| ::
         && specs[k].role in processors
         && calls[k] == Call(ProcessorOp(groupId, specs[k]), Ok(processors[specs[k].role]))
  }

  /** One connection per edge, in order, between the processors of the edge's roles. */
  predicate ConnectionsPlan(calls: seq<Call>, groupId: string, processors: map<Role, string>) {
    && |calls| == |Edges|
    && forall k | 0 <= k < |Edges| :: Links(calls[k], groupId, processors, Edges[k])
  }

  /** One start per role, in the order the processors were created. */
  predicate StartsPlan(calls: seq<Call>, processors: map<Role, string>) {
    && |calls| == |Roles|
    && forall k | 0 <= k < |Roles| :: Roles[k] in processors && calls[k].op == StartProcessor(processors[Roles[k]])
  }

  /** After calls that all succeeded, calls that fail at their last leave only that one failed. */
  lemma OkThenFailed(a: seq<Call>, b: seq<Call>, e: Client.ApiError)
    requires AllOk(a) && FailedLast(b, e)
    ensures FailedLast(a + b, e)
  {
  }

  // ---------------------------------------------------------------------
  // The builder's steps. Each step is given the calls made before it and
  // returns the calls it makes.

  /** `_create_cdc_process_group`: one group under the configured root. */
  method CreateCdcProcessGroup(client: NifiClient, before: seq<Call>, out: seq<Call>, env: Config.EnvConfig,
                               name: string)
    returns (out': seq<Call>, r: Result<string, FlowError>)
    ensures out' == out + [Call(CreateProcessGroup(env.rootGroupId, name),
                                client(before + out, CreateProcessGroup(env.rootGroupId, name)))]
    ensures r == (if out'[|out|].reply.Ok? then Ok(out'[|out|].reply.value)
                  else Err(RequestFailed(out'[|out|].reply.error)))
    ensures AnsweredAfter(client, before, out) ==> AnsweredAfter(client, before, out')
  {
    var reply;
    out', reply := Issue(client, before, out, CreateProcessGroup(env.rootGroupId, name));
    r := if reply.Ok? then Ok(reply.value) else Err(RequestFailed(reply.error));
  }

  /** `_create_dbcp_service`: one connection pool for a datasource, in the flow's group. */
  method CreateDbcpService(client: NifiClient, before: seq<Call>, out: seq<Call>, groupId: string,
                           datasource: Option<string>, db: Config.Properties)
    returns (out': seq<Call>, r: Result<string, FlowError>)
    ensures out' == out + [Call(DbcpOp(groupId, datasource, db), client(before + out, DbcpOp(groupId, datasource, db)))]
    ensures r == (if out'[|out|].reply.Ok? then Ok(out'[|out|].reply.value)
                  else Err(RequestFailed(out'[|out|].reply.error)))
    ensures AnsweredAfter(client, before, out) ==> AnsweredAfter(client, before, out')
  {
    var reply;
    out', reply := Issue(client, before, out, DbcpOp(groupId, datasource, db));
    r := if reply.Ok? then Ok(reply.value) else Err(RequestFailed(reply.error));
  }

  /** All five roles are keys of `processors`, so its keys are exactly the roles. */
  predicate HasRoles(processors: map<Role, string>) {
    forall k | 0 <= k < |Roles| :: Roles[k] in processors
  }

  /**
   * `_create_cdc_processors`: the processors of `specs` in order, each in
   * the flow's group; the map takes each one's id under its role. The first
   * failing create ends the step.
   */
  method CreateCdcProcessors(client: NifiClient, before: seq<Call>, groupId: string, specs: seq<ProcessorSpec>)
    returns (out: seq<Call>, r: Result<map<Role, string>, FlowError>)
    requires |specs| == |Roles| && forall k | 0 <= k < |specs| :: specs[k].role == Roles[k]
    ensures AnsweredAfter(client, before, out)
    ensures |out| <= |specs| && forall j | 0 <= j < |out| :: out[j].op == ProcessorOp(groupId, specs[j])
    ensures r.Ok? ==> AllOk(out) && HasRoles(r.value) && ProcessorsPlan(out, groupId, specs, r.value)
    ensures r.Err? ==> r.error.RequestFailed? && FailedLast(out, r.error.error)
  {
    var processors: map<Role, string> := map[];
    RolesDistinct();
    out := [];
    var k := 0;
    while k < |specs|
      invariant 0 <= k <= |specs|
      invariant |out| == k && AllOk(out) && AnsweredAfter(client, before, out)
      invariant forall j | 0 <= j < k ::
                  specs[j].role in processors
                  && out[j] == Call(ProcessorOp(groupId, specs[j]), Ok(processors[specs[j].role]))
    {
      var reply;
      out, reply := Issue(client, before, out, ProcessorOp(groupId, specs[k]));
      if reply.Err? {
        r := Err(RequestFailed(reply.error));
        return;
      }
      processors := processors[specs[k].role := reply.value];
      k := k + 1;
    }
    r := Ok(processors);
  }

  /** One connection between two processors, looked up by role: source first, then destination. */
  method Link(client: NifiClient, before: seq<Call>, out: seq<Call>, groupId: string,
                 processors: map<Role, string>, e: Edge)
    returns (out': seq<Call>, r: Result<(), FlowError>)
    ensures e.from !in processors ==> out' == out && r == Err(MissingProcessor(e.from))
    ensures e.from in processors && e.to !in processors ==> out' == out && r == Err(MissingProcessor(e.to))
    ensures e.from in processors && e.to in processors ==>
              && out' == out + [Call(ConnectionOp(groupId, processors, e),
                                     client(before + out, ConnectionOp(groupId, processors, e)))]
              && r == (if out'[|out|].reply.Ok? then Ok(()) else Err(RequestFailed(out'[|out|].reply.error)))
    ensures AnsweredAfter(client, before, out) ==> AnsweredAfter(client, before, out')
  {
    var a := Lookup(processors, e.from);
    if a.Err? {
      return out, Err(a.error);
    }
    var b := Lookup(processors, e.to);
    if b.Err? {
      return out, Err(b.error);
    }
    var reply;
    out', reply := Issue(client, before, out, CreateConnection(groupId, a.value, b.value, [e.relationship]));
    r := if reply.Ok? then Ok(()) else Err(RequestFailed(reply.error));
  }

  /** The role `_create_processor_connections` first finds missing: every role before it is present. */
  predicate FirstMissing(processors: map<Role, string>, role: Role) {
    exists k | 0 <= k < |Roles| :: && role == Roles[k] && role !in processors
                                   && forall j | 0 <= j < k :: Roles[j] in processors
  }

  /** The first four roles, the ones the success chain links, are keys of `processors`. */
  predicate HasChain(processors: map<Role, string>) {
    forall k | 0 <= k < 4 :: Roles[k] in processors
  }

  /** The success half of `_create_processor_connections`: a missing role or a failing create raises. */
  method ConnectSuccessChain(client: NifiClient, before: seq<Call>, groupId: string, processors: map<Role, string>)
    returns (out: seq<Call>, r: Result<(), FlowError>)
    ensures AnsweredAfter(client, before, out)
    ensures |out| <= |SuccessEdges| && forall j | 0 <= j < |out| :: Links(out[j], groupId, processors, SuccessEdges[j])
    ensures r.Ok? <==> HasChain(processors) && |out| == |SuccessEdges| && AllOk(out)
    ensures r.Err? ==> r.error.RequestFailed? || r.error.MissingProcessor?
    ensures r.Err? && r.error.RequestFailed? ==> FailedLast(out, r.error.error)
    ensures r.Err? && r.error.MissingProcessor? ==> AllOk(out) && FirstMissing(processors, r.error.role)
    ensures HasChain(processors) ==> r.Ok? || r.error.RequestFailed?
  {
    SuccessChain();
    out := [];
    var k := 0;
    while k < |SuccessEdges|
      invariant 0 <= k <= |SuccessEdges|
      invariant |out| == k && AllOk(out) && AnsweredAfter(client, before, out)
      invariant 0 < k ==> forall j | 0 <= j <= k :: Roles[j] in processors
      invariant forall j | 0 <= j < |out| :: Links(out[j], groupId, processors, SuccessEdges[j])
    {
      var step;
      out, step := Link(client, before, out, groupId, processors, SuccessEdges[k]);
      if step.Err? {
        if step.error.MissingProcessor? {
          if Roles[k] !in processors {
            assert FirstMissing(processors, Roles[k]);
          } else {
            assert FirstMissing(processors, Roles[k + 1]);
          }
        }
        r := step;
        return;
      }
      k := k + 1;
    }
    r := Ok(());
  }

  /**
   * The failure half of `_create_processor_connections`, reached once the
   * success chain is made: an edge to the log from each of the first four
   * roles (the loop's `if name in processors` then always holds). A missing
   * log processor raises before any call; so does a failing create.
   */
  method ConnectFailures(client: NifiClient, before: seq<Call>, groupId: string, processors: map<Role, string>)
    returns (out: seq<Call>, r: Result<(), FlowError>)
    requires HasChain(processors)
    ensures AnsweredAfter(client, before, out)
    ensures |out| <= |FailureEdges| && forall j | 0 <= j < |out| :: Links(out[j], groupId, processors, FailureEdges[j])
    ensures r.Ok? <==> LogError in processors && |out| == |FailureEdges| && AllOk(out)
    ensures r.Err? ==> r.error.RequestFailed? || r.error == MissingProcessor(LogError)
    ensures r.Err? && r.error.RequestFailed? ==> FailedLast(out, r.error.error)
    ensures r.Err? && r.error.MissingProcessor? <==> LogError !in processors
    ensures LogError !in processors ==> out == []
  {
    FailureFan();
    out := [];
    var i := 0;
    while i < |FailureEdges|
      invariant 0 <= i <= |FailureEdges|
      invariant |out| == i && AllOk(out) && AnsweredAfter(client, before, out)
      invariant 0 < i ==> LogError in processors
      invariant forall j | 0 <= j < |out| :: Links(out[j], groupId, processors, FailureEdges[j])
    {
      if FailureEdges[i].from in processors {
        var step;
        out, step := Link(client, before, out, groupId, processors, FailureEdges[i]);
        if step.Err? {
          r := step;
          return;
        }
      }
      i := i + 1;
    }
    r := Ok(());
  }

  /**
   * `_create_processor_connections`: the three success edges, then a
   * failure edge from each of the first four roles present to the log.
   * A role the map lacks raises `KeyError`, reported for the first such
   * role in creation order, and so does a failing create.
   */
  method CreateProcessorConnections(client: NifiClient, before: seq<Call>, groupId: string,
                                    processors: map<Role, string>)
    returns (out: seq<Call>, r: Result<(), FlowError>)
    ensures AnsweredAfter(client, before, out)
    ensures |out| <= |Edges| && forall j | 0 <= j < |out| :: Links(out[j], groupId, processors, Edges[j])
    ensures r.Ok? <==> HasRoles(processors) && AllOk(out) && ConnectionsPlan(out, groupId, processors)
    ensures r.Err? ==> r.error.RequestFailed? || r.error.MissingProcessor?
    ensures r.Err? && r.error.RequestFailed? ==> FailedLast(out, r.error.error)
    ensures r.Err? && r.error.MissingProcessor? ==> AllOk(out) && FirstMissing(processors, r.error.role)
    ensures HasRoles(processors) ==> r.Ok? || r.error.RequestFailed?
  {
    EdgeTopology();
    var chain;
    out, chain := ConnectSuccessChain(client, before, groupId, processors);
    if chain.Err? {
      return out, chain;
    }
    var failures;
    failures, r := ConnectFailures(client, before + out, groupId, processors);
    AnsweredJoin(client, before, out, failures);
    ChainThenFailures(out, failures, groupId, processors);
    if r.Err? && r.error.RequestFailed? {
      OkThenFailed(out, failures, r.error.error);
    }
    if r.Err? && r.error.MissingProcessor? {
      assert FirstMissing(processors, Roles[4]);
    }
    out := out + failures;
  }

  /** The success chain followed by the failure edges made so far: the edges of a flow, in order. */
  lemma ChainThenFailures(a: seq<Call>, b: seq<Call>, groupId: string, processors: map<Role, string>)
    requires |a| == |SuccessEdges| && forall j | 0 <= j < |a| :: Links(a[j], groupId, processors, SuccessEdges[j])
    requires |b| <= |FailureEdges| && forall j | 0 <= j < |b| :: Links(b[j], groupId, processors, FailureEdges[j])
    ensures forall j | 0 <= j < |a + b| :: Links((a + b)[j], groupId, processors, Edges[j])
  {
    EdgeTopology();
    forall j | 0 <= j < |a + b| ensures Links((a + b)[j], groupId, processors, Edges[j]) {
      if j >= 3 {
        assert (a + b)[j] == b[j - 3];
      }
    }
  }

  /** The start loop of `create_cdc_flow`: every processor, in the map's insertion order. */
  method StartProcessors(client: NifiClient, before: seq<Call>, processors: map<Role, string>)
    returns (out: seq<Call>, r: Result<(), FlowError>)
    requires HasRoles(processors)
    ensures AnsweredAfter(client, before, out)
    ensures |out| <= |Roles| && forall j | 0 <= j < |out| :: out[j].op == StartProcessor(processors[Roles[j]])
    ensures r.Ok? ==> AllOk(out) && StartsPlan(out, processors)
    ensures r.Err? ==> r.error.RequestFailed? && FailedLast(out, r.error.error)
  {
    out := [];
    var k := 0;
    while k < |Roles|
      invariant 0 <= k <= |Roles|
      invariant |out| == k && AllOk(out) && AnsweredAfter(client, before, out)
      invariant forall j | 0 <= j < |out| :: out[j].op == StartProcessor(processors[Roles[j]])
    {
      var reply;
      out, reply := Issue(client, before, out, StartProcessor(processors[Roles[k]]));
      if reply.Err? {
        r := Err(RequestFailed(reply.error));
        return;
      }
      k := k + 1;
    }
    r := Ok(());
  }

  // ---------------------------------------------------------------------
  // The whole run

  /**
   * The calls of a complete run that creates the processors of `specs`:
   * the group, the two pools, their enables, the five processors, the
   * seven connections and the five starts, all answered.
   */
  predicate FollowsPlanWith(calls: seq<Call>, rootGroupId: string, c: FlowConfig, f: Flow, specs: seq<ProcessorSpec>) {
    && |calls| == 22
    && AllOk(calls)
    && HasRoles(f.processors)
    && SetUpPlan(calls[..5], rootGroupId, c, f)
    && ProcessorsPlan(calls[5..10], f.group, specs, f.processors)
    && ConnectionsPlan(calls[10..17], f.group, f.processors)
    && StartsPlan(calls[17..], f.processors)
  }

  /** The calls of a complete run, built from the configuration and the ids the client returned. */
  predicate FollowsPlan(calls: seq<Call>, rootGroupId: string, c: FlowConfig, f: Flow) {
    FollowsPlanWith(calls, rootGroupId, c, f, ProcessorSpecs(c.mapping, f.sourceDbcp, f.targetDbcp))
  }

  // ---------------------------------------------------------------------
  // The plan, call by call. A run that stops early has still made the
  // plan's calls in order; each id a call carries is the one an earlier
  // call was answered with.

  /** The id call `i` was answered with, or "" when it has none. */
  function ReplyId(calls: seq<Call>, i: nat): string {
    if i < |calls| && calls[i].reply.Ok? then calls[i].reply.value else ""
  }

  /** The position of a role in creation order. */
  function RoleIndex(role: Role): (k: nat)
    ensures k < |Roles| && Roles[k] == role
  {
    match role
    case Extract => 0
    case Convert => 1
    case ConvertSql => 2
    case Load => 3
    case LogError => 4
  }

  /** The id the processor of `role` was created with, among processor creates `made`. */
  function ProcessorId(made: seq<Call>, role: Role): string {
    ReplyId(made, RoleIndex(role))
  }

  /** Call `i` of the set-up: the group, the two pools in its group, and their enables. */
  function SetUpOp(rootGroupId: string, c: FlowConfig, calls: seq<Call>, i: nat): Op
    requires i < 5
  {
    if i == 0 then CreateProcessGroup(rootGroupId, GroupName(c.mapping))
    else if i == 1 then DbcpOp(ReplyId(calls, 0), c.sourceName, c.source)
    else if i == 2 then DbcpOp(ReplyId(calls, 0), c.targetName, c.target)
    else if i == 3 then EnableControllerService(ReplyId(calls, 1))
    else EnableControllerService(ReplyId(calls, 2))
  }

  /**
   * Call `j` of the second part: the processors of `specs`, the connections
   * of the edges, then the starts, with processor ids from `out`'s creates.
   */
  function AssembleOp(groupId: string, specs: seq<ProcessorSpec>, out: seq<Call>, j: nat): Op
    requires |specs| == |Roles| && j < 17
  {
    if j < 5 then ProcessorOp(groupId, specs[j])
    else if j < 12 then
      var e := Edges[j - 5];
      CreateConnection(groupId, ProcessorId(out, e.from), ProcessorId(out, e.to), [e.relationship])
    else StartProcessor(ProcessorId(out, Roles[j - 12]))
  }

  /** Call `i` of a run that creates the processors of `specs`, given the answers in `calls`. */
  function PlannedOp(rootGroupId: string, c: FlowConfig, specs: seq<ProcessorSpec>, calls: seq<Call>, i: nat): Op
    requires |specs| == |Roles| && i < |calls| <= 22
  {
    if i < 5 then SetUpOp(rootGroupId, c, calls, i)
    else AssembleOp(ReplyId(calls, 0), specs, calls[5..], i - 5)
  }

  /** Every call of `calls` is the one the plan makes at its position, for processors `specs`. */
  predicate OnPlanWith(calls: seq<Call>, rootGroupId: string, c: FlowConfig, specs: seq<ProcessorSpec>)
    requires |specs| == |Roles|
  {
    |calls| <= 22 && forall i | 0 <= i < |calls| :: calls[i].op == PlannedOp(rootGroupId, c, specs, calls, i)
  }

  /**
   * Every call of `calls` is the one the plan makes at its position, the
   * processors being those for the pools the calls created.
   */
  predicate OnPlan(calls: seq<Call>, rootGroupId: string, c: FlowConfig) {
    OnPlanWith(calls, rootGroupId, c, ProcessorSpecs(c.mapping, ReplyId(calls, 1), ReplyId(calls, 2)))
  }

  /** The same for the set-up alone. */
  predicate SetUpOn(calls: seq<Call>, rootGroupId: string, c: FlowConfig) {
    |calls| <= 5 && forall i | 0 <= i < |calls| :: calls[i].op == SetUpOp(rootGroupId, c, calls, i)
  }

  /** The same for the second part alone. */
  predicate AssembleOn(out: seq<Call>, groupId: string, specs: seq<ProcessorSpec>)
    requires |specs| == |Roles|
  {
    |out| <= 17 && forall j | 0 <= j < |out| :: out[j].op == AssembleOp(groupId, specs, out, j)
  }

  /** A set-up call that follows the plan extends a set-up that follows it. */
  lemma SetUpOnExtend(calls: seq<Call>, calls': seq<Call>, rootGroupId: string, c: FlowConfig)
    requires SetUpOn(calls, rootGroupId, c) && |calls| < 5
    requires |calls'| == |calls| + 1 && calls'[..|calls|] == calls
    requires calls'[|calls|].op == SetUpOp(rootGroupId, c, calls, |calls|)
    ensures SetUpOn(calls', rootGroupId, c)
  {
    forall i | 0 <= i < |calls'| ensures calls'[i].op == SetUpOp(rootGroupId, c, calls', i) {
      if i < |calls| {
        assert calls'[i] == calls[i];
      }
      forall k | 0 <= k < i ensures ReplyId(calls', k) == ReplyId(calls, k) {
        assert calls'[k] == calls[k];
      }
      if i == 1 || i == 2 {
        assert ReplyId(calls', 0) == ReplyId(calls, 0);
      } else if i == 3 {
        assert ReplyId(calls', 1) == ReplyId(calls, 1);
      } else if i == 4 {
        assert ReplyId(calls', 2) == ReplyId(calls, 2);
      }
    }
  }

  /**
   * Processors created as planned carry, under each role, the id
   * `ProcessorId` reads, also once further calls follow them.
   */
  lemma ProcessorIds(made: seq<Call>, rest: seq<Call>, groupId: string, specs: seq<ProcessorSpec>,
                     processors: map<Role, string>)
    requires |specs| == |Roles| && forall k | 0 <= k < |specs| :: specs[k].role == Roles[k]
    requires ProcessorsPlan(made, groupId, specs, processors)
    ensures forall role: Role :: role in processors && processors[role] == ProcessorId(made + rest, role)
  {
    forall role: Role ensures role in processors && processors[role] == ProcessorId(made + rest, role) {
      var k := RoleIndex(role);
      assert specs[k].role == role;
      assert (made + rest)[k] == made[k] == Call(ProcessorOp(groupId, specs[k]), Ok(processors[role]));
    }
  }

  /** A connection made as planned is the planned call at its position. */
  lemma LinkIsPlanned(out: seq<Call>, groupId: string, specs: seq<ProcessorSpec>, processors: map<Role, string>,
                      j: nat)
    requires |specs| == |Roles| && 5 <= j < 12 && j < |out|
    requires forall role: Role :: role in processors && processors[role] == ProcessorId(out, role)
    requires Links(out[j], groupId, processors, Edges[j - 5])
    ensures out[j].op == AssembleOp(groupId, specs, out, j)
  {
    var e := Edges[j - 5];
    assert processors[e.from] == ProcessorId(out, e.from);
    assert processors[e.to] == ProcessorId(out, e.to);
  }

  /** A start made as planned is the planned call at its position. */
  lemma StartIsPlanned(out: seq<Call>, groupId: string, specs: seq<ProcessorSpec>, processors: map<Role, string>,
                       j: nat)
    requires |specs| == |Roles| && 12 <= j < 17 && j < |out|
    requires forall role: Role :: role in processors && processors[role] == ProcessorId(out, role)
    requires out[j].op == StartProcessor(processors[Roles[j - 12]])
    ensures out[j].op == AssembleOp(groupId, specs, out, j)
  {
    assert processors[Roles[j - 12]] == ProcessorId(out, Roles[j - 12]);
  }

  /**
   * The processors made, the connections made and the starts made, as
   * far as each got, follow the second part of the plan.
   */
  lemma AssembleOnJoin(made: seq<Call>, links: seq<Call>, starts: seq<Call>, groupId: string,
                       specs: seq<ProcessorSpec>, processors: map<Role, string>)
    requires |specs| == |Roles| && forall k | 0 <= k < |specs| :: specs[k].role == Roles[k]
    requires |made| <= 5 && forall j | 0 <= j < |made| :: made[j].op == ProcessorOp(groupId, specs[j])
    requires 0 < |links| + |starts| ==> ProcessorsPlan(made, groupId, specs, processors)
    requires |links| <= 7 && forall j | 0 <= j < |links| :: Links(links[j], groupId, processors, Edges[j])
    requires 0 < |starts| ==> |links| == 7
    requires |starts| <= 5
    requires forall j | 0 <= j < |starts| :: Roles[j] in processors && starts[j].op == StartProcessor(processors[Roles[j]])
    ensures AssembleOn(made + links + starts, groupId, specs)
  {
    var out := made + links + starts;
    if 0 < |links| + |starts| {
      ProcessorIds(made, links + starts, groupId, specs, processors);
      assert made + (links + starts) == out;
    }
    forall j | 0 <= j < |out| ensures out[j].op == AssembleOp(groupId, specs, out, j) {
      if j < |made| {
        assert out[j] == made[j];
      } else if j < |made| + |links| {
        assert out[j] == links[j - 5];
        LinkIsPlanned(out, groupId, specs, processors, j);
      } else {
        assert out[j] == starts[j - 12];
        StartIsPlanned(out, groupId, specs, processors, j);
      }
    }
  }

  /** A set-up that stopped early is a run that follows the plan. */
  lemma SetUpOnPlan(head: seq<Call>, rootGroupId: string, c: FlowConfig)
    requires SetUpOn(head, rootGroupId, c)
    ensures OnPlan(head, rootGroupId, c)
  {
  }

  /** The set-up followed by the second part, each as planned, is a run that follows the plan. */
  lemma OnPlanJoin(head: seq<Call>, out: seq<Call>, rootGroupId: string, c: FlowConfig, specs: seq<ProcessorSpec>)
    requires |specs| == |Roles|
    requires |head| == 5 && SetUpOn(head, rootGroupId, c)
    requires AssembleOn(out, ReplyId(head, 0), specs)
    ensures OnPlanWith(head + out, rootGroupId, c, specs)
    ensures forall k | 0 <= k < 5 :: ReplyId(head + out, k) == ReplyId(head, k)
  {
    var calls := head + out;
    assert calls[5..] == out;
    forall k | 0 <= k < 5 ensures ReplyId(calls, k) == ReplyId(head, k) {
      assert calls[k] == head[k];
    }
    forall i | 0 <= i < |calls| ensures calls[i].op == PlannedOp(rootGroupId, c, specs, calls, i) {
      if i < 5 {
        assert calls[i] == head[i];
      } else {
        assert calls[i] == out[i - 5];
      }
    }
  }

  /** The start of `create_cdc_flow`: the group, then a pool for each datasource in it. */
  method CreateGroupAndPools(client: NifiClient, env: Config.EnvConfig, c: FlowConfig)
    returns (calls: seq<Call>, r: Result<Flow, FlowError>)
    ensures Answered(client, calls)
    ensures SetUpOn(calls, env.rootGroupId, c)
    ensures r.Ok? ==> && |calls| == 3 && AllOk(calls) && r.value.processors == map[]
                      && calls[0] == Call(CreateProcessGroup(env.rootGroupId, GroupName(c.mapping)), Ok(r.value.group))
                      && calls[1] == Call(DbcpOp(r.value.group, c.sourceName, c.source), Ok(r.value.sourceDbcp))
                      && calls[2] == Call(DbcpOp(r.value.group, c.targetName, c.target), Ok(r.value.targetDbcp))
    ensures r.Err? ==> r.error.RequestFailed? && FailedLast(calls, r.error.error)
  {
    var group, source, target;
    calls, group := CreateCdcProcessGroup(client, [], [], env, GroupName(c.mapping));
    SetUpOnExtend([], calls, env.rootGroupId, c);
    if group.Err? {
      return calls, Err(group.error);
    }
    var g := group.value;
    var prev := calls;
    assert ReplyId(prev, 0) == g;
    calls, source := CreateDbcpService(client, [], calls, g, c.sourceName, c.source);
    SetUpOnExtend(prev, calls, env.rootGroupId, c);
    if source.Err? {
      return calls, Err(source.error);
    }
    prev := calls;
    assert ReplyId(prev, 0) == g;
    calls, target := CreateDbcpService(client, [], calls, g, c.targetName, c.target);
    SetUpOnExtend(prev, calls, env.rootGroupId, c);
    if target.Err? {
      return calls, Err(target.error);
    }
    r := Ok(Flow(g, map[], source.value, target.value));
  }

  /** The first part of `create_cdc_flow`: the group, the two pools, and their enables. */
  method SetUp(client: NifiClient, env: Config.EnvConfig, c: FlowConfig)
    returns (calls: seq<Call>, r: Result<Flow, FlowError>)
    ensures Answered(client, calls)
    ensures SetUpOn(calls, env.rootGroupId, c)
    ensures r.Ok? ==> AllOk(calls) && SetUpPlan(calls, env.rootGroupId, c, r.value) && r.value.processors == map[]
    ensures r.Err? ==> r.error.RequestFailed? && FailedLast(calls, r.error.error)
  {
    calls, r := CreateGroupAndPools(client, env, c);
    if r.Err? {
      return;
    }
    var f := r.value;
    var prev := calls;
    assert ReplyId(prev, 1) == f.sourceDbcp && ReplyId(prev, 2) == f.targetDbcp;
    var enabled;
    calls, enabled := Issue(client, [], calls, EnableControllerService(f.sourceDbcp));
    SetUpOnExtend(prev, calls, env.rootGroupId, c);
    if enabled.Err? {
      return calls, Err(RequestFailed(enabled.error));
    }
    prev := calls;
    assert ReplyId(prev, 2) == f.targetDbcp;
    calls, enabled := Issue(client, [], calls, EnableControllerService(f.targetDbcp));
    SetUpOnExtend(prev, calls, env.rootGroupId, c);
    if enabled.Err? {
      return calls, Err(RequestFailed(enabled.error));
    }
  }

  /** The second part of `create_cdc_flow`: processors, connections, starts. */
  method Assemble(client: NifiClient, before: seq<Call>, groupId: string, specs: seq<ProcessorSpec>)
    returns (out: seq<Call>, r: Result<map<Role, string>, FlowError>)
    requires |specs| == |Roles| && forall k | 0 <= k < |specs| :: specs[k].role == Roles[k]
    ensures AnsweredAfter(client, before, out)
    ensures AssembleOn(out, groupId, specs)
    ensures r.Ok? ==> && |out| == 17 && AllOk(out) && HasRoles(r.value)
                      && ProcessorsPlan(out[..5], groupId, specs, r.value)
                      && ConnectionsPlan(out[5..12], groupId, r.value)
                      && StartsPlan(out[12..], r.value)
    ensures r.Err? ==> r.error.RequestFailed? && FailedLast(out, r.error.error)
  {
    var processors;
    out, processors := CreateCdcProcessors(client, before, groupId, specs);
    if processors.Err? {
      AssembleOnJoin(out, [], [], groupId, specs, map[]);
      assert out + [] + [] == out;
      return out, Err(processors.error);
    }
    var p := processors.value;
    var connections, connected := CreateProcessorConnections(client, before + out, groupId, p);
    AnsweredJoin(client, before, out, connections);
    var made := out + connections;
    if connected.Err? {
      OkThenFailed(out, connections, connected.error.error);
      AssembleOnJoin(out, connections, [], groupId, specs, p);
      assert made + [] == made;
      return made, Err(connected.error);
    }
    var starts, started := StartProcessors(client, before + made, p);
    AnsweredJoin(client, before, made, starts);
    AssembleOnJoin(out, connections, starts, groupId, specs, p);
    if started.Err? {
      OkThenFailed(made, starts, started.error.error);
      return made + starts, Err(started.error);
    }
    StepsJoin(out, connections, starts, groupId, specs, p);
    out := made + starts;
    r := Ok(p);
  }

  /** The processors, the connections and the starts, one after the other. */
  lemma StepsJoin(made: seq<Call>, links: seq<Call>, starts: seq<Call>, groupId: string,
                  specs: seq<ProcessorSpec>, processors: map<Role, string>)
    requires |specs| == 5 && AllOk(made) && ProcessorsPlan(made, groupId, specs, processors)
    requires AllOk(links) && ConnectionsPlan(links, groupId, processors)
    requires AllOk(starts) && StartsPlan(starts, processors)
    ensures var out := made + links + starts;
            && |out| == 17 && AllOk(out)
            && ProcessorsPlan(out[..5], groupId, specs, processors)
            && ConnectionsPlan(out[5..12], groupId, processors)
            && StartsPlan(out[12..], processors)
  {
    var out := made + links + starts;
    assert |Edges| == 7;
    assert out[..5] == made && out[5..12] == links && out[12..] == starts;
  }

  /** Calls that all succeeded, followed by more that all succeeded. */
  lemma AllOkJoin(a: seq<Call>, b: seq<Call>)
    requires AllOk(a) && AllOk(b)
    ensures AllOk(a + b)
  {
  }

  /** The set-up calls followed by the calls of `Assemble` form a complete run. */
  lemma PlanJoin(head: seq<Call>, out: seq<Call>, rootGroupId: string, c: FlowConfig, f: Flow,
                 specs: seq<ProcessorSpec>)
    requires AllOk(head) && SetUpPlan(head, rootGroupId, c, f)
    requires |out| == 17 && AllOk(out) && HasRoles(f.processors)
    requires ProcessorsPlan(out[..5], f.group, specs, f.processors)
    requires ConnectionsPlan(out[5..12], f.group, f.processors)
    requires StartsPlan(out[12..], f.processors)
    ensures FollowsPlanWith(head + out, rootGroupId, c, f, specs)
  {
    AllOkJoin(head, out);
    var calls := head + out;
    assert calls[..5] == head && calls[5..10] == out[..5] && calls[10..17] == out[5..12] && calls[17..] == out[12..];
  }

  /** A completed set-up followed by the second part for the flow it set up follows the plan. */
  lemma SetUpThenAssembleOnPlan(head: seq<Call>, out: seq<Call>, rootGroupId: string, c: FlowConfig, f: Flow,
                                specs: seq<ProcessorSpec>)
    requires |specs| == |Roles|
    requires SetUpOn(head, rootGroupId, c) && SetUpPlan(head, rootGroupId, c, f)
    requires AssembleOn(out, f.group, specs)
    ensures OnPlanWith(head + out, rootGroupId, c, specs)
    ensures ReplyId(head + out, 1) == f.sourceDbcp && ReplyId(head + out, 2) == f.targetDbcp
  {
    assert ReplyId(head, 0) == f.group && ReplyId(head, 1) == f.sourceDbcp && ReplyId(head, 2) == f.targetDbcp;
    OnPlanJoin(head, out, rootGroupId, c, specs);
  }

  /**
   * The calls of `create_cdc_flow` once the configuration is loaded: the
   * plan's calls in order, until the first that raises.
   */
  method BuildFlow(client: NifiClient, env: Config.EnvConfig, c: FlowConfig)
    returns (calls: seq<Call>, r: Result<Flow, FlowError>)
    ensures Answered(client, calls)
    ensures OnPlan(calls, env.rootGroupId, c)
    ensures r.Ok? ==> FollowsPlan(calls, env.rootGroupId, c, r.value)
    ensures r.Err? ==> r.error.RequestFailed? && FailedLast(calls, r.error.error)
  {
    var head, start := SetUp(client, env, c);
    if start.Err? {
      SetUpOnPlan(head, env.rootGroupId, c);
      return head, start;
    }
    var f := start.value;
    calls, r := CompleteFlow(client, head, env.rootGroupId, c, f, ProcessorSpecs(c.mapping, f.sourceDbcp, f.targetDbcp));
  }

  /**
   * The rest of `create_cdc_flow` after a completed set-up `head`: the
   * processors of `specs`, their connections and their starts.
   */
  method CompleteFlow(client: NifiClient, head: seq<Call>, rootGroupId: string, c: FlowConfig, f: Flow,
                      specs: seq<ProcessorSpec>)
    returns (calls: seq<Call>, r: Result<Flow, FlowError>)
    requires |specs| == |Roles| && forall k | 0 <= k < |specs| :: specs[k].role == Roles[k]
    requires Answered(client, head) && AllOk(head)
    requires SetUpOn(head, rootGroupId, c) && SetUpPlan(head, rootGroupId, c, f)
    ensures Answered(client, calls)
    ensures OnPlanWith(calls, rootGroupId, c, specs)
    ensures ReplyId(calls, 1) == f.sourceDbcp && ReplyId(calls, 2) == f.targetDbcp
    ensures r.Ok? ==> r.value == f.(processors := r.value.processors)
                      && FollowsPlanWith(calls, rootGroupId, c, r.value, specs)
    ensures r.Err? ==> r.error.RequestFailed? && FailedLast(calls, r.error.error)
  {
    var out, processors := Assemble(client, head, f.group, specs);
    assert [] + head == head;
    AnsweredJoin(client, [], head, out);
    SetUpThenAssembleOnPlan(head, out, rootGroupId, c, f, specs);
    calls := head + out;
    if processors.Err? {
      OkThenFailed(head, out, processors.error.error);
      return calls, Err(processors.error);
    }
    r := Ok(f.(processors := processors.value));
    PlanJoin(head, out, rootGroupId, c, r.value, specs);
  }

  /**
   * `create_cdc_flow`: load the configuration, then make the calls of the
   * plan in order. A missing file stops the run before any call; the first
   * call that raises ends it, and no other call fails.
   */
  method CreateCdcFlow(client: NifiClient, files: Config.Files, basePath: string, env: Config.EnvConfig,
                       mappingName: string)
    returns (calls: seq<Call>, r: Result<Flow, FlowError>)
    ensures Answered(client, calls)
    ensures r.Ok? ==> LoadFlowConfig(files, basePath, mappingName).Ok?
                      && FollowsPlan(calls, env.rootGroupId, LoadFlowConfig(files, basePath, mappingName).value, r.value)
                      && Provenance(calls)
    ensures r.Err? && r.error.ConfigMissing? <==> LoadFlowConfig(files, basePath, mappingName).Err?
    ensures r.Err? && r.error.ConfigMissing? ==>
              calls == [] && r.error.path == LoadFlowConfig(files, basePath, mappingName).error.path
    ensures r.Err? && r.error.RequestFailed? ==> FailedLast(calls, r.error.error)
    ensures LoadFlowConfig(files, basePath, mappingName).Ok? ==>
              OnPlan(calls, env.rootGroupId, LoadFlowConfig(files, basePath, mappingName).value)
    ensures r.Err? ==> !r.error.MissingProcessor?
  {
    var loaded := LoadFlowConfig(files, basePath, mappingName);
    if loaded.Err? {
      return [], Err(ConfigMissing(loaded.error.path));
    }
    var c := loaded.value;
    calls, r := BuildFlow(client, env, c);
    if r.Ok? {
      PlanProvenance(calls, env.rootGroupId, c, r.value, ProcessorSpecs(c.mapping, r.value.sourceDbcp, r.value.targetDbcp));
    }
  }

  // ---------------------------------------------------------------------
  // Every id a complete run uses was created before it

  lemma {:induction false} CreatedByHas(calls: seq<Call>, j: nat)
    requires j < |calls|
    ensures Creates(calls[j]) <= CreatedBy(calls)
    decreases |calls|
  {
    var n := |calls| - 1;
    if j < n {
      CreatedByHas(calls[..n], j);
      assert calls[..n][j] == calls[j];
    }
  }

  /** What call `j` created is among what the calls before `i` created. */
  lemma CreatedBefore(calls: seq<Call>, j: nat, i: nat)
    requires j < i <= |calls|
    ensures Creates(calls[j]) <= CreatedBy(calls[..i])
  {
    CreatedByHas(calls[..i], j);
    assert calls[..i][j] == calls[j];
  }

  /** `Provenance` from its call-by-call reading. */
  lemma {:induction false} ProvenanceByEach(calls: seq<Call>)
    requires forall i | 0 <= i < |calls| :: Refs(calls[i].op) <= CreatedBy(calls[..i])
    ensures Provenance(calls)
    decreases |calls|
  {
    if calls != [] {
      var n := |calls| - 1;
      forall i | 0 <= i < n ensures Refs(calls[..n][i].op) <= CreatedBy(calls[..n][..i]) {
        assert calls[..n][i] == calls[i] && calls[..n][..i] == calls[..i];
      }
      ProvenanceByEach(calls[..n]);
    }
  }

  /**
   * In a complete run, whatever the processors' settings, every id a call
   * refers to was returned by an earlier create of the right kind: the
   * pools and processors live in the new group, the enables name the two
   * pools, and the connections and starts name the processors.
   */
  lemma PlanProvenance(calls: seq<Call>, rootGroupId: string, c: FlowConfig, f: Flow, specs: seq<ProcessorSpec>)
    requires |specs| == |Roles| && forall k | 0 <= k < |specs| :: specs[k].role == Roles[k]
    requires FollowsPlanWith(calls, rootGroupId, c, f, specs)
    ensures Provenance(calls)
  {
    var g, p := f.group, f.processors;
    var head := calls[..5];
    forall i | 0 <= i < 5 ensures Refs(calls[i].op) <= CreatedBy(calls[..i]) {
      SetUpRefs(head, rootGroupId, c, f, i);
      assert head[..i] == calls[..i] && head[i] == calls[i];
    }
    assert calls[0] == head[0];
    forall j | 5 <= j < 10
      ensures Refs(calls[j].op) == {(ProcessGroup, g)} && Creates(calls[j]) == {(Processor, p[Roles[j - 5]])}
    {
      assert calls[j] == calls[5..10][j - 5];
    }
    forall j | 10 <= j < 17 ensures Links(calls[j], g, p, Edges[j - 10]) {
      assert calls[j] == calls[10..17][j - 10];
    }
    forall j | 17 <= j < 22 ensures calls[j].op == StartProcessor(p[Roles[j - 17]]) {
      assert calls[j] == calls[17..][j - 17];
    }
    RunProvenance(calls, g, p);
  }

  /**
   * `Provenance` of a run whose first five calls refer only to what they
   * made themselves, calls 5 to 9 make the processors in the group of call
   * 0, calls 10 to 16 link them, and calls 17 to 21 start them.
   */
  lemma RunProvenance(calls: seq<Call>, groupId: string, processors: map<Role, string>)
    requires |calls| == 22 && HasRoles(processors)
    requires forall i | 0 <= i < 5 :: Refs(calls[i].op) <= CreatedBy(calls[..i])
    requires Creates(calls[0]) == {(ProcessGroup, groupId)}
    requires forall j | 5 <= j < 10 ::
               Refs(calls[j].op) == {(ProcessGroup, groupId)} && Creates(calls[j]) == {(Processor, processors[Roles[j - 5]])}
    requires forall j | 10 <= j < 17 :: Links(calls[j], groupId, processors, Edges[j - 10])
    requires forall j | 17 <= j < 22 :: calls[j].op == StartProcessor(processors[Roles[j - 17]])
    ensures Provenance(calls)
  {
    forall i | 0 <= i < |calls| ensures Refs(calls[i].op) <= CreatedBy(calls[..i]) {
      if 5 <= i < 10 {
        CreatedBefore(calls, 0, i);
      } else if 10 <= i < 17 {
        ConnectionRefs(calls, groupId, processors, i);
      } else if 17 <= i {
        assert (i - 12) - 5 == i - 17;
        CreatedBefore(calls, i - 12, i);
      }
    }
    ProvenanceByEach(calls);
  }

  /** The group is made first, each pool is made before its enable. */
  lemma SetUpRefs(head: seq<Call>, rootGroupId: string, c: FlowConfig, f: Flow, i: nat)
    requires SetUpPlan(head, rootGroupId, c, f) && i < 5
    ensures Refs(head[i].op) <= CreatedBy(head[..i])
  {
    if 1 <= i < 3 {
      CreatedBefore(head, 0, i);
    } else if 3 <= i {
      CreatedBefore(head, i - 2, i);
    }
  }

  /** A connection links processors made by the calls 5 to 9, in the group made by call 0. */
  lemma ConnectionRefs(calls: seq<Call>, groupId: string, processors: map<Role, string>, i: nat)
    requires 10 <= i < 17 <= |calls|
    requires Creates(calls[0]) == {(ProcessGroup, groupId)} && HasRoles(processors)
    requires forall j | 5 <= j < 10 :: Creates(calls[j]) == {(Processor, processors[Roles[j - 5]])}
    requires Links(calls[i], groupId, processors, Edges[i - 10])
    ensures Refs(calls[i].op) <= CreatedBy(calls[..i])
  {
    var k := i - 10;
    var a, b;
    if k < 3 {
      SuccessChain();
      assert Edges[k] == SuccessEdges[k];
      a, b := k, k + 1;
    } else {
      FailureFan();
      assert Edges[k] == FailureEdges[k - 3];
      a, b := k - 3, 4;
    }
    assert Refs(calls[i].op) == {(ProcessGroup, groupId), (Processor, processors[Roles[a]]), (Processor, processors[Roles[b]])};
    CreatedBefore(calls, 0, i);
    CreatedBefore(calls, 5 + a, i);
    CreatedBefore(calls, 5 + b, i);
    assert Creates(calls[5 + a]) == {(Processor, processors[Roles[a]])};
    assert Creates(calls[5 + b]) == {(Processor, processors[Roles[b]])};
  }
}
