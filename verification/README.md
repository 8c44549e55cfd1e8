# nificdc-core in Dafny

A model of the core of nificdc-core. The tool reads a CDC mapping and two
datasource property files, then drives the Apache NiFi REST API to build a
flow. The flow extracts changed rows from an Oracle source with `ExecuteSQL`,
converts them with `ConvertAvroToJSON` and `ConvertJSONToSQL`, and loads
them with `PutSQL`. Failures go to a `LogAttribute` processor.

The model has three modules, plus two of support:

- `ConfigParser` (`config_parser.dfy`): the `.properties` loader, the
  datasource and mapping file paths, the environment configuration and the
  Oracle thin JDBC URL.
- `NifiApiClient` (`nifi_api_client.dfy`): the HTTP client. It keeps a
  session (base URL, credentials, headers and the log of requests sent).
  The NiFi server is a function from the requests already sent and the new
  request to its response. JSON payloads are a `Json` datatype, and each
  payload has a reader that reads it back. A reader accepts an object
  only when it has exactly the keys the source's payload literal writes,
  so a contract stated through a reader fixes the whole payload.
- `CdcFlowBuilder` (`cdc_flow_builder.dfy`): the builder.
  - It talks to an abstract client, a function from the calls made so far
    and the new call to that call's reply: the new component's id, or the
    error raised.
  - Every step returns the calls it made, as a trace of `Call`s.
  - The contracts say which calls a run makes, in which order and with
    which settings. A run that fails has made the plan's calls in order,
    each built from the ids earlier calls returned, and only its last
    call failed.
  - A provenance lemma shows that every id a call refers to was created,
    with the right kind, by an earlier call.
- `Text` and `Optional`: the Python string operations the loader uses
  (`strip`, `rstrip`, `split('=', 1)`, `in`), and `Option`/`Result`.

Python semantics kept explicitly:

- `dict.get` without a default is `Option`, and an f-string renders `None`
  as `None`. So a mapping without `source.datasource` reads
  `datasources/None.properties` and names its pool `None_DBCP`.
- `raise_for_status` raises for statuses 400 to 599.
- `strip` removes exactly the characters `str.isspace` accepts.
- `rstrip('/')` removes every trailing slash.

Builder operations and client calls:

- The builder's `Op`s stand for the client calls of the same name.
- A processor's type and name come from its `Role`: `ProcessorType` and
  `ProcessorName` give the literals the source passes.
- A setting's property name comes from `SettingKey`. `Setting` and `Role`
  are enumerations standing for the string keys the source uses for its
  property dictionaries and its `processors` dictionary.

## Model

| member | source | states |
|---|---|---|
| ConfigParser.ParseLine | src/config_parser.py:21-24 | a line yields an entry exactly when, once stripped, it is non-empty, does not start with `#` and holds `=`; the key and value come out stripped and the key holds no `=` |
| ConfigParser.SplitAtFirst | src/config_parser.py:23 | `split('=', 1)` cuts at the first `=`: the text is the key, `=` and the value, and the key holds no `=` |
| ConfigParser.SplitAtFirstUnique | src/config_parser.py:23 | the cut is unique: text with no `=` before a chosen `=` splits there |
| ConfigParser.ParseLineRoundTrip | src/config_parser.py:20-24 | writing a stripped key without `=` or a leading `#` as `key=value` and loading it gives back that key and value |
| ConfigParser.ParseLineOfText | src/config_parser.py:20-24 | the same holds for the line as read from a file, with its newline |
| ConfigParser.ParseLineCut | src/config_parser.py:21-24 | an entry line's key and value are the stripped halves around its first `=` |
| ConfigParser.ParseLineSeesStripped | src/config_parser.py:21 | two lines that strip to the same text parse alike |
| ConfigParser.CommentLineSkipped | src/config_parser.py:22 | a `#` comment line yields nothing |
| ConfigParser.ParseProperties | src/config_parser.py:18-26 | every stored key and value is stripped and no key holds `=` |
| ConfigParser.StoredPairsComeFromLines | src/config_parser.py:20-24 | every stored pair was produced by some line of the file |
| ConfigParser.StoredKeysAreDefined | src/config_parser.py:20-24 | a key is stored exactly when some line defines it |
| ConfigParser.StoredKeysAreFileKeys | src/config_parser.py:18-26 | the same, for the loader's own line parser |
| ConfigParser.LastDefinitionWins | src/config_parser.py:24 | a key keeps the value of the last line that defines it |
| ConfigParser.LastFileDefinitionWins | src/config_parser.py:18-26 | the same, for the loader's own line parser |
| ConfigParser.SkippedLineAddsNothing | src/config_parser.py:22 | a line that does not parse can be removed without changing the result |
| ConfigParser.SkippedFileLineAddsNothing | src/config_parser.py:22 | the same for comment, blank and `=`-less lines of a file |
| ConfigParser.NoEntriesIffEmpty | src/config_parser.py:18-26 | the result is empty exactly when no line is an entry line |
| ConfigParser.FoldLinesPrefix | src/config_parser.py:20-24 | the loop processes lines in file order, one assignment per line |
| ConfigParser.CommentsAndBlankLinesSkipped | src/config_parser.py:18-26 | a file of blank lines, comments and two entries loads to exactly those two entries |
| ConfigParser.TwoEntriesAmongSkippedLines | src/config_parser.py:20-24 | two parsed lines among skipped ones give exactly their two pairs |
| ConfigParser.LoadProperties | src/config_parser.py:19-26 | a missing file is an error naming its path; otherwise the result is the file's properties |
| ConfigParser.ParseDatasource | src/config_parser.py:13-26 | reads `datasources/<name>.properties`; fails exactly when it is missing |
| ConfigParser.ParseMapping | src/config_parser.py:28-40 | reads `mappings/<name>.properties`; fails exactly when it is missing |
| ConfigParser.SameRulesForBothFileKinds | src/config_parser.py:28-40 | mappings and datasources are loaded by the same rules, from different paths |
| ConfigParser.GetEnvConfig | src/config_parser.py:42-50 | each setting is its environment variable when set, and otherwise its default: `""` for the credentials, `root` for the root group, `CDC-Flows` for the group name; the base URL is absent exactly when its variable is |
| ConfigParser.EnvDefaults | src/config_parser.py:44-50 | with no variables set the defaults are no URL, empty credentials, `root` and `CDC-Flows` |
| ConfigParser.EnvReadsOnlyNamedVariables | src/config_parser.py:44-50 | only the five named variables matter |
| ConfigParser.BuildJdbcUrl | src/config_parser.py:52-63 | the URL is non-empty exactly for `oracle`, the default type, and then starts `jdbc:oracle:thin:@` |
| ConfigParser.ParseOracleThinUrl | src/config_parser.py:60 | a URL it reads back starts with the thin prefix, host and port hold no `:`, and the URL is exactly the one rebuilt from the three fields it returned |
| ConfigParser.ParseOracleThinUrlRoundTrip | src/config_parser.py:60 | for a host and port without `:`, reading back `jdbc:oracle:thin:@host:port:service` gives the three fields |
| ConfigParser.OracleUrlRoundTrip | src/config_parser.py:54-60 | for a host and port without `:`, the built URL reads back to the datasource's host, port and service (`None` where missing) |
| Text.Strip | src/config_parser.py:21 | `strip()` leaves neither end whitespace and never grows the text |
| Text.StripDropsOnlySpace | src/config_parser.py:21 | `strip()` removes only whitespace margins: the text is the result between two all-whitespace parts |
| Text.StripTrimmed | src/config_parser.py:24 | stripping stripped text changes nothing |
| Text.StripTrailingSpace | src/config_parser.py:21 | trailing whitespace, such as the newline, is dropped |
| Text.FirstIndex | src/config_parser.py:23 | the first `=` is at the returned index and nowhere before it |
| Text.TrimEndChar | src/nifi_api_client.py:9 | `rstrip(c)` keeps a prefix, drops only `c`s, and leaves no trailing `c` |
| NifiApiClient.NormaliseBaseUrl | src/nifi_api_client.py:9 | the base URL is the given URL without its trailing slashes, and ends in no slash |
| NifiApiClient.TrailingSlashesIgnored | src/nifi_api_client.py:9 | any number of extra trailing slashes gives the same base URL |
| NifiApiClient.NormaliseIdempotent | src/nifi_api_client.py:9 | normalising twice is normalising once |
| NifiApiClient.Connect | src/nifi_api_client.py:8-15 | base URL normalised; one token request, carrying no headers, exactly when both credentials are non-empty; the `Authorization` header is set exactly when that request got 201, and otherwise the headers stay empty |
| NifiApiClient.Authenticate | src/nifi_api_client.py:17-26 | posts the credentials as a form; a 201 sets `Authorization: Bearer <text>`, any other status leaves the headers alone and raises nothing |
| NifiApiClient.Checked | src/nifi_api_client.py:43-45 | an error exactly for statuses 400 to 599, carrying the status; otherwise the body |
| NifiApiClient.PostJson | src/nifi_api_client.py:43-45 | one POST with the session's headers is logged, and its checked answer is the result |
| NifiApiClient.ReadEnvelopeRoundTrip | src/nifi_api_client.py:35-41 | a payload's revision and component read back from it |
| NifiApiClient.ReadPropertiesRoundTrip | src/nifi_api_client.py:62-64 | a property map, with null values, reads back from its JSON |
| NifiApiClient.ReadStringsRoundTrip | src/nifi_api_client.py:131 | a relationship list reads back from its JSON |
| NifiApiClient.ReadPositionRoundTrip | src/nifi_api_client.py:61 | a position reads back from its JSON |
| NifiApiClient.ReadGroupRoundTrip | src/nifi_api_client.py:37-40 | a process group component reads back from its JSON |
| NifiApiClient.ReadProcessorConfigRoundTrip | src/nifi_api_client.py:62-65 | a processor config reads back, with no auto-terminated relationships |
| NifiApiClient.ReadProcessorRoundTrip | src/nifi_api_client.py:58-66 | a processor component reads back from its JSON |
| NifiApiClient.ReadServiceRoundTrip | src/nifi_api_client.py:80-84 | a controller service component reads back from its JSON |
| NifiApiClient.ReadEndpointRoundTrip | src/nifi_api_client.py:121-125 | a connection end reads back from its JSON |
| NifiApiClient.ReadConnectionRoundTrip | src/nifi_api_client.py:120-135 | a connection component reads back from its JSON |
| NifiApiClient.ReadStateRoundTrip | src/nifi_api_client.py:103-106 | a state change reads back from its JSON |
| NifiApiClient.ReadPropertiesExact | src/nifi_api_client.py:62-64 | a JSON value reads as a property map exactly when it is that map's JSON |
| NifiApiClient.ReadStringsExact | src/nifi_api_client.py:131 | a JSON value reads as a relationship list exactly when it is that list's JSON |
| NifiApiClient.ReadPositionExact | src/nifi_api_client.py:39 | a JSON value reads as a position exactly when it is `{"x": x, "y": y}` and nothing more |
| NifiApiClient.ReadEnvelopeExact | src/nifi_api_client.py:35-41 | a payload reads as a revision and a component exactly when it has those two keys and no others |
| NifiApiClient.ReadGroupExact | src/nifi_api_client.py:37-40 | a group component reads back exactly when it is the name and position and nothing more |
| NifiApiClient.ReadProcessorConfigExact | src/nifi_api_client.py:62-65 | a processor config reads back exactly when it is the properties and the empty auto-terminate list |
| NifiApiClient.ReadProcessorExact | src/nifi_api_client.py:58-66 | a processor component reads back exactly when it is type, name, position and config and nothing more |
| NifiApiClient.ReadServiceExact | src/nifi_api_client.py:80-84 | a service component reads back exactly when it is type, name and properties and nothing more |
| NifiApiClient.ReadEndpointExact | src/nifi_api_client.py:121-130 | a connection end reads back exactly when it is id, group id and type and nothing more |
| NifiApiClient.ReadConnectionExact | src/nifi_api_client.py:120-135 | a connection component reads back exactly when it is the two ends, the relationships and the three queue settings and nothing more |
| NifiApiClient.ReadStateExact | src/nifi_api_client.py:103-106 | a state change reads back exactly when it is the id and the state and nothing more |
| NifiApiClient.PostedOnceExact | src/nifi_api_client.py:35-45 | a create's logged POST carries exactly the payload of revision and component its reader accepted |
| NifiApiClient.HandshakePutExact | src/nifi_api_client.py:101-108 | the PUT of enable or start carries exactly the GET's revision and the component's id and new state, and no other field |
| NifiApiClient.CreateProcessGroup | src/nifi_api_client.py:32-45 | one checked POST to `<base>/process-groups/<parent>/process-groups` whose payload is exactly revision 0 and the named group at the origin, with no other field |
| NifiApiClient.CreateProcessor | src/nifi_api_client.py:47-71 | one checked POST to the group's `processors` whose payload is exactly revision 0 and the processor's type, name, position and config, placed at the origin when no position is given, with no other field |
| NifiApiClient.CreateControllerService | src/nifi_api_client.py:73-89 | one checked POST to the group's `controller-services` whose payload is exactly revision 0 and the service's type, name and properties, with no other field |
| NifiApiClient.CreateConnection | src/nifi_api_client.py:113-140 | one checked POST to the group's `connections` whose payload is exactly revision 0, two processor ends in the group, the relationships, `0 sec`, `1 GB` and `10000`, with no other field |
| NifiApiClient.ReadThenWrite | src/nifi_api_client.py:91-111 | a GET, then a PUT whose payload is exactly the revision the GET returned and the component's id and new state; a failed GET, or a body without a revision, ends the call before the PUT |
| NifiApiClient.EnableControllerService | src/nifi_api_client.py:91-111 | a GET of `<base>/controller-services/<id>`, then a PUT there whose payload is exactly the revision the GET returned, the id and state `ENABLED`; a failed GET or a body without a revision means no PUT and that error; otherwise the result is the PUT's checked answer; only the log changes |
| NifiApiClient.StartProcessor | src/nifi_api_client.py:142-162 | a GET of `<base>/processors/<id>`, then a PUT there whose payload is exactly the revision the GET returned, the id and state `RUNNING`; a failed GET or a body without a revision means no PUT and that error; otherwise the result is the PUT's checked answer; only the log changes |
| NifiApiClient.GetProcessGroup | src/nifi_api_client.py:164-169 | one GET of `<base>/process-groups/<id>` is logged; its checked answer is the result |
| CdcFlowBuilder.Issue | src/cdc_flow_builder.py:66 | a call is answered by the client after the calls before it, and appended to the trace |
| CdcFlowBuilder.AnsweredJoin | src/cdc_flow_builder.py:18-55 | two answered stretches of calls, one after the other, form one answered stretch |
| CdcFlowBuilder.LoadFlowConfig | src/cdc_flow_builder.py:21-26 | loads the mapping, then the datasources it names (`None` when unnamed); succeeds exactly when the three files exist; an error names the first missing file, in the order mapping, source datasource, target datasource |
| CdcFlowBuilder.GroupName | src/cdc_flow_builder.py:29 | the group is named by the mapping's `mapping.name`, or `CDC Flow` when it has none |
| CdcFlowBuilder.DbcpDefaults | src/cdc_flow_builder.py:71-79 | the pool has exactly five settings: the datasource's JDBC URL, user and password (null when absent), and the driver and pool size with defaults `oracle.jdbc.OracleDriver` and `10` |
| CdcFlowBuilder.DbcpSettings | src/cdc_flow_builder.py:73-79 | the pool's properties are exactly URL, driver, user, password and pool size; user and password are the datasource's values or null; driver and pool size default to `oracle.jdbc.OracleDriver` and `10` |
| CdcFlowBuilder.RolesDistinct | src/cdc_flow_builder.py:107-156 | the five processors are created once each |
| CdcFlowBuilder.ProcessorSpecs | src/cdc_flow_builder.py:90-167 | five processors, one per role, in creation order |
| CdcFlowBuilder.PoolsAndBatchSize | src/cdc_flow_builder.py:107-153 | the extract reads through the source pool and the load writes through the target pool; both use the same batch size; the extract runs the query and the SQL converter targets `target.table` |
| CdcFlowBuilder.BatchSizeDefault | src/cdc_flow_builder.py:114 | the batch size is `cdc.batch.size`, or `1000` |
| CdcFlowBuilder.ExtractQueryMentions | src/cdc_flow_builder.py:101-105 | the query selects from the source table and holds both quoted incremental bounds |
| CdcFlowBuilder.ExtractQuery | src/cdc_flow_builder.py:96-105 | the query bounds the incremental column below by `TO_TIMESTAMP` of the quoted `from` value and above by that of the quoted `to` value (`None` when absent) |
| CdcFlowBuilder.SuccessChain | src/cdc_flow_builder.py:171-193 | the success edges chain the first four processors in creation order |
| CdcFlowBuilder.FailureFan | src/cdc_flow_builder.py:195-203 | each of the first four processors sends its failures to the log |
| CdcFlowBuilder.EdgeTopology | src/cdc_flow_builder.py:169-203 | seven connections: three success edges then four failure edges; nothing flows into the extract or out of the log |
| CdcFlowBuilder.Lookup | src/cdc_flow_builder.py:174 | `processors[role]` succeeds exactly when the role is present, otherwise raises for that role |
| CdcFlowBuilder.CreateCdcProcessGroup | src/cdc_flow_builder.py:63-67 | one group is created under the configured root group; a failure is the client's error |
| CdcFlowBuilder.CreateDbcpService | src/cdc_flow_builder.py:69-88 | one pool is created in the flow's group, named after the datasource, with its settings |
| CdcFlowBuilder.CreateCdcProcessors | src/cdc_flow_builder.py:90-167 | the processors are created in order, each in the group; on success the map holds every role under the id returned; on failure, every call before the last succeeded |
| CdcFlowBuilder.Link | src/cdc_flow_builder.py:171-176 | a missing source, then a missing destination, raises before any call; otherwise one connection between the two processors |
| CdcFlowBuilder.ConnectSuccessChain | src/cdc_flow_builder.py:171-193 | the three success connections in order; succeeds exactly when the four chained roles are present and every call succeeded; a missing role is reported as the first missing one |
| CdcFlowBuilder.ConnectFailures | src/cdc_flow_builder.py:195-203 | a failure connection from each chained processor to the log; succeeds exactly when the log is present and all four succeeded; no log processor raises before any call |
| CdcFlowBuilder.CreateProcessorConnections | src/cdc_flow_builder.py:169-203 | the seven connections in order; succeeds exactly when all five roles are present and every call succeeded; a `KeyError` names the first missing role in creation order |
| CdcFlowBuilder.ChainThenFailures | src/cdc_flow_builder.py:169-203 | the success connections followed by the failure connections are the flow's edges in order |
| CdcFlowBuilder.StartProcessors | src/cdc_flow_builder.py:53-54 | every processor is started, in creation order; the first failure ends the loop |
| CdcFlowBuilder.CreateGroupAndPools | src/cdc_flow_builder.py:29-34 | the group under the configured root, then the source and target pools in it, in that order; a failure stops at that call, the earlier ones having been made as planned |
| CdcFlowBuilder.SetUp | src/cdc_flow_builder.py:29-39 | the group, the source pool, the target pool, then enabling the two pools, in that order; a failure stops at that call, the earlier ones having been made as planned |
| CdcFlowBuilder.Assemble | src/cdc_flow_builder.py:42-54 | its calls are the processor creates, connections and starts of the plan, as far as it got, with the ids its own creates returned; either all 17 succeeded, or only the last failed |
| CdcFlowBuilder.StepsJoin | src/cdc_flow_builder.py:42-54 | the three stages, one after the other, fill positions 0-4, 5-11 and 12-16 |
| CdcFlowBuilder.PlanJoin | src/cdc_flow_builder.py:18-61 | the set-up followed by the assembled stages is a complete run of 22 calls, for any processor settings |
| CdcFlowBuilder.BuildFlow | src/cdc_flow_builder.py:28-61 | once configured, every call made is the plan's call at its position, built from the ids earlier calls returned; either all 22 succeed, or the run stops at the first that fails |
| CdcFlowBuilder.CompleteFlow | src/cdc_flow_builder.py:41-61 | after a completed set-up, the run goes on with the plan's calls for the given processors and completes or stops at the first failure |
| CdcFlowBuilder.CreateCdcFlow | src/cdc_flow_builder.py:18-61 | a missing file stops the run before any call; otherwise every call is the plan's call at its position, and the run completes or stops at the first failing call; a complete run has provenance; `KeyError` on a processor never escapes |
| CdcFlowBuilder.SetUpOnExtend | src/cdc_flow_builder.py:29-39 | a set-up call built from the ids the earlier set-up calls returned keeps the set-up on plan |
| CdcFlowBuilder.ProcessorIds | src/cdc_flow_builder.py:95-167 | the processors map holds, under each role, the id that role's create returned |
| CdcFlowBuilder.LinkIsPlanned | src/cdc_flow_builder.py:169-203 | a connection between the mapped processors is the planned connection call at its position |
| CdcFlowBuilder.StartIsPlanned | src/cdc_flow_builder.py:53-54 | a start of a mapped processor is the planned start call at its position |
| CdcFlowBuilder.AssembleOnJoin | src/cdc_flow_builder.py:42-54 | processors, connections and starts, each as far as it got, form the second part of the plan in order |
| CdcFlowBuilder.OnPlanJoin | src/cdc_flow_builder.py:28-61 | a planned set-up of five calls followed by a planned second part is a run on plan |
| CdcFlowBuilder.SetUpThenAssembleOnPlan | src/cdc_flow_builder.py:28-61 | the same, for the second part built on the group and pools the set-up created |
| CdcFlowBuilder.OkThenFailed | src/cdc_flow_builder.py:18-61 | successful calls followed by a stretch failing at its end fail only at the end |
| CdcFlowBuilder.CreatedByEarlier | src/cdc_flow_builder.py:18-61 | anything created by a trace was created by one of its calls |
| CdcFlowBuilder.CreatedBefore | src/cdc_flow_builder.py:18-61 | what a call created is known to every later call |
| CdcFlowBuilder.ProvenanceEach | src/cdc_flow_builder.py:18-61 | with provenance, every reference points back to an earlier create of that kind |
| CdcFlowBuilder.ProvenanceByEach | src/cdc_flow_builder.py:18-61 | provenance follows when each call's references were created before it |
| CdcFlowBuilder.PlanProvenance | src/cdc_flow_builder.py:30-54 | in a complete run, whatever the processor settings, every id used was created earlier with the right kind |
| CdcFlowBuilder.RunProvenance | src/cdc_flow_builder.py:42-54 | processors in the new group, connections between them and starts of them refer only to earlier creates |
| CdcFlowBuilder.SetUpRefs | src/cdc_flow_builder.py:29-39 | the pools live in the new group and the enables name the pools just made |
| CdcFlowBuilder.ConnectionRefs | src/cdc_flow_builder.py:169-203 | each connection names processors created before it, in the group created first |

## Left out

- File I/O: `open`, `pathlib` normalisation and `load_dotenv`. The file
  system is a map from path to lines, and paths are joined with `/`.
- Environment access: `os.getenv` reads a map of environment variables.
- `time.sleep(2)` and `_get_client_id`: they affect no call and no result.
- The network: no timeouts and no connection errors. A server answers
  every request.
- `requests` details: the session's default headers, and decoding of a
  non-JSON body. A response carries its decoded JSON.
- Positions are integers, not Python floats. Every position the builder
  passes is a whole number.
- The builder's client is abstract. A reply is the new component's id. A
  create reply without `component` or `id` would raise `KeyError` in the
  source; the model does not have that failure.
- The JSON payloads the builder sends are not modelled through its
  abstract client. The client module states them per call.
- Setting ids: `Refs` counts only component ids. Pool ids passed inside
  processor settings are not counted.
- ConfigParser.BuildJdbcUrl: its contract gives the thin prefix only. The
  exact `jdbc:oracle:thin:@host:port:service` layout is stated through the
  read-back lemmas, which hold only when host and port contain no `:`; an
  IPv6 literal host such as `::1` is not covered.
- CdcFlowBuilder.ConnectFailures: requires the four chained processors to
  be present. The source reaches the failure loop only after the success
  chain, so its `if name in processors` guard always holds there.
- CdcFlowBuilder.PlanProvenance: stated for complete runs only. A stopped
  run makes the plan's calls up to the failing one (`OnPlan`), but the
  provenance lemma does not cover it.
- The `create_cdc_flow.py` and `check_nifi_status.py` scripts: command-line
  wrappers around the builder and the client.
- The result dictionary of `create_cdc_flow` is modelled as `Flow`: the
  ids of the group, the processors and the two pools, not their full JSON.
