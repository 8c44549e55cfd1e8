/**
 * The configuration loader: `key=value` property files for datasources and
 * mappings, the environment settings, and the Oracle thin JDBC URL.
 *
 * A property file is given as the sequence of lines Python's file iteration
 * yields (each may still carry its line terminator); a directory tree is a
 * map from path to such a sequence, and a path missing from it is the file
 * that `open` cannot find.
 */
module ConfigParser {
  import opened Optional
  import opened Text

  type Properties = map<string, string>

  /** `d.get(k)`: the value, or `None` when the key is absent. */
  function Get(props: Properties, key: string): Option<string> {
    if key in props then Some(props[key]) else None
  }

  /** `d.get(k, default)`. */
  function GetOr(props: Properties, key: string, default: string): string {
    ValueOr(Get(props, key), default)
  }

  /** How an f-string renders an optional string: `None` prints as "None". */
  function PyStr(o: Option<string>): string {
    match o
    case Some(s) => s
    case None => "None"
  }

  // ---------------------------------------------------------------------
  // Property files

  datatype Entry = Entry(key: string, value: string)

  /**
   * The line filter of the loader: after stripping, the line must be
   * non-empty, must not start with `#`, and must contain `=`.
   */
  predicate IsEntryLine(line: string) {
    var t := Strip(line);
    |t| > 0 && t[0] != '#' && '=' in t
  }

  /**
   * `t.split(c, 1)` on a string holding `c`: the text before the first `c`
   * and everything after it.
   */
  function SplitAtFirst(t: string, c: char): (parts: (string, string))
    requires c in t
    ensures t == parts.0 + [c] + parts.1
    ensures c !in parts.0
  {
    var i := FirstIndex(t, c);
    assert t == t[..i] + [c] + t[i + 1..];
    (t[..i], t[i + 1..])
  }

  /** `split` cuts at the first `c`: no other cut has a `c`-free head. */
  lemma SplitAtFirstUnique(before: string, c: char, after: string)
    requires c !in before
    ensures SplitAtFirst(before + [c] + after, c) == (before, after)
  {
    var t := before + [c] + after;
    assert t[|before|] == c;
    var parts := SplitAtFirst(t, c);
    assert |parts.0| == |before|;
    assert parts.0 == t[..|before|] == before;
    assert parts.1 == t[|before| + 1..] == after;
  }

  /**
   * One line of a property file: the stripped line is cut at its FIRST `=`,
   * and both halves are stripped again.
   */
  function ParseLine(line: string): (r: Option<Entry>)
    ensures r.Some? <==> IsEntryLine(line)
    ensures r.Some? ==> IsTrimmed(r.value.key) && IsTrimmed(r.value.value)
    ensures r.Some? ==> '=' !in r.value.key
  {
    if IsEntryLine(line) then
      var parts := SplitAtFirst(Strip(line), '=');
      var key := Strip(parts.0);
      StripKeepsAbsent(parts.0, '=');
      Some(Entry(key, Strip(parts.1)))
    else
      None
  }

  /** `parse(line)` is an entry whose key is `key`. */
  predicate Defines(parse: string -> Option<Entry>, line: string, key: string) {
    parse(line).Some? && parse(line).value.key == key
  }

  /** One turn of the loader's loop: `properties[key] = value` when `line` parses. */
  function Step(props: Properties, parse: string -> Option<Entry>, line: string): Properties {
    match parse(line)
    case None => props
    case Some(e) => props[e.key := e.value]
  }

  /**
   * The loader's loop over a line parser: one `Step` per line, in file
   * order, so a later line overwrites an earlier one with the same key.
   */
  function FoldLines(lines: seq<string>, parse: string -> Option<Entry>): Properties
    decreases |lines|
  {
    if |lines| == 0 then map[]
    else Step(FoldLines(lines[..|lines| - 1], parse), parse, lines[|lines| - 1])
  }

  /** Every stored pair comes from some line. */
  lemma {:induction false} StoredPairsComeFromLines(parse: string -> Option<Entry>, lines: seq<string>)
    ensures forall k | k in FoldLines(lines, parse) ::
              exists i | 0 <= i < |lines| :: parse(lines[i]) == Some(Entry(k, FoldLines(lines, parse)[k]))
    decreases |lines|
  {
    if |lines| > 0 {
      var init := lines[..|lines| - 1];
      StoredPairsComeFromLines(parse, init);
      var props := FoldLines(lines, parse);
      forall k | k in props
        ensures exists i | 0 <= i < |lines| :: parse(lines[i]) == Some(Entry(k, props[k]))
      {
        var last := lines[|lines| - 1];
        if parse(last).Some? && parse(last).value.key == k {
          assert parse(lines[|lines| - 1]) == Some(Entry(k, props[k]));
        } else {
          var i :| 0 <= i < |init| && parse(init[i]) == Some(Entry(k, FoldLines(init, parse)[k]));
          assert lines[i] == init[i];
        }
      }
    }
  }

  /** The loader's loop with its own line rules. */
  function ParseProperties(lines: seq<string>): (props: Properties)
    ensures forall k | k in props :: IsTrimmed(k) && '=' !in k && IsTrimmed(props[k])
  {
    StoredPairsComeFromLines(ParseLine, lines);
    FoldLines(lines, ParseLine)
  }

  /** A line the parser skips adds nothing, wherever it stands. */
  lemma {:induction false} SkippedLineAddsNothing(parse: string -> Option<Entry>,
                                                  before: seq<string>, line: string, after: seq<string>)
    requires parse(line).None?
    ensures FoldLines(before + [line] + after, parse) == FoldLines(before + after, parse)
    decreases |after|
  {
    if |after| == 0 {
      assert before + [line] + after == before + [line];
      assert (before + [line])[..|before|] == before;
      assert before + after == before;
    } else {
      var init := after[..|after| - 1];
      SkippedLineAddsNothing(parse, before, line, init);
      var xs := before + [line] + after;
      var ys := before + after;
      assert xs[..|xs| - 1] == before + [line] + init;
      assert ys[..|ys| - 1] == before + init;
      assert xs[|xs| - 1] == ys[|ys| - 1];
      assert FoldLines(xs, parse) == Step(FoldLines(before + [line] + init, parse), parse, xs[|xs| - 1]);
      assert FoldLines(ys, parse) == Step(FoldLines(before + init, parse), parse, ys[|ys| - 1]);
    }
  }

  /** A blank line, a comment or a line without `=` adds no property. */
  lemma SkippedFileLineAddsNothing(before: seq<string>, line: string, after: seq<string>)
    requires !IsEntryLine(line)
    ensures ParseProperties(before + [line] + after) == ParseProperties(before + after)
  {
    SkippedLineAddsNothing(ParseLine, before, line, after);
  }

  /** A key is stored exactly when some line defines it. */
  lemma {:induction false} StoredKeysAreDefined(parse: string -> Option<Entry>, lines: seq<string>, key: string)
    ensures key in FoldLines(lines, parse) <==>
              exists i | 0 <= i < |lines| :: Defines(parse, lines[i], key)
    decreases |lines|
  {
    if |lines| > 0 {
      var init := lines[..|lines| - 1];
      StoredKeysAreDefined(parse, init, key);
      if exists i | 0 <= i < |init| :: Defines(parse, init[i], key) {
        var i :| 0 <= i < |init| && Defines(parse, init[i], key);
        assert lines[i] == init[i];
      }
      if exists i | 0 <= i < |lines| :: Defines(parse, lines[i], key) {
        var i :| 0 <= i < |lines| && Defines(parse, lines[i], key);
        if i < |init| {
          assert init[i] == lines[i];
        }
      }
    }
  }

  /** A property file defines exactly the keys of its entry lines. */
  lemma StoredKeysAreFileKeys(lines: seq<string>, key: string)
    ensures key in ParseProperties(lines) <==>
              exists i | 0 <= i < |lines| :: Defines(ParseLine, lines[i], key)
  {
    StoredKeysAreDefined(ParseLine, lines, key);
  }

  /** A file without a single entry line yields no properties, and conversely. */
  lemma NoEntriesIffEmpty(lines: seq<string>)
    ensures ParseProperties(lines) == map[] <==> forall i | 0 <= i < |lines| :: !IsEntryLine(lines[i])
  {
    if exists i | 0 <= i < |lines| :: IsEntryLine(lines[i]) {
      var i :| 0 <= i < |lines| && IsEntryLine(lines[i]);
      StoredKeysAreFileKeys(lines, ParseLine(lines[i]).value.key);
    } else if ParseProperties(lines) != map[] {
      var k :| k in ParseProperties(lines);
      StoredKeysAreFileKeys(lines, k);
    }
  }

  /** The value stored for a key is the one from its last defining line. */
  lemma {:induction false} LastDefinitionWins(parse: string -> Option<Entry>, lines: seq<string>, i: nat)
    requires i < |lines| && parse(lines[i]).Some?
    requires forall j | i < j < |lines| :: !Defines(parse, lines[j], parse(lines[i]).value.key)
    ensures parse(lines[i]).value.key in FoldLines(lines, parse)
    ensures FoldLines(lines, parse)[parse(lines[i]).value.key] == parse(lines[i]).value.value
    decreases |lines|
  {
    var init := lines[..|lines| - 1];
    if i < |lines| - 1 {
      assert init[i] == lines[i];
      forall j | i < j < |init|
        ensures !Defines(parse, init[j], parse(init[i]).value.key)
      {
        assert init[j] == lines[j];
      }
      LastDefinitionWins(parse, init, i);
    }
  }

  /** In a property file, a later `key=` line overrides every earlier one. */
  lemma LastFileDefinitionWins(lines: seq<string>, i: nat, key: string, value: string)
    requires i < |lines| && ParseLine(lines[i]) == Some(Entry(key, value))
    requires forall j | i < j < |lines| :: !Defines(ParseLine, lines[j], key)
    ensures key in ParseProperties(lines) && ParseProperties(lines)[key] == value
  {
    LastDefinitionWins(ParseLine, lines, i);
  }

  /** Two lines that strip to the same text parse alike. */
  lemma ParseLineSeesStripped(a: string, b: string)
    requires Strip(a) == Strip(b)
    ensures ParseLine(a) == ParseLine(b)
  {
  }

  /** An entry line's key and value are the stripped halves around its first `=`. */
  lemma ParseLineCut(line: string, before: string, after: string)
    requires IsEntryLine(line) && SplitAtFirst(Strip(line), '=') == (before, after)
    ensures ParseLine(line) == Some(Entry(Strip(before), Strip(after)))
  {
  }

  /** A line written as `key=value` with clean halves reads back as that entry. */
  lemma ParseLineRoundTrip(key: string, value: string)
    requires IsTrimmed(key) && IsTrimmed(value)
    requires '=' !in key
    requires key == [] || key[0] != '#'
    ensures ParseLine(key + ['='] + value) == Some(Entry(key, value))
  {
    var line := key + ['='] + value;
    assert Strip(line) == line by {
      assert IsTrimmed(line);
      StripTrimmed(line);
    }
    assert IsEntryLine(line) by {
      assert line[|key|] == '=';
      assert line[0] != '#';
    }
    assert SplitAtFirst(Strip(line), '=') == (key, value) by {
      SplitAtFirstUnique(key, '=', value);
    }
    ParseLineCut(line, key, value);
    StripTrimmed(key);
    StripTrimmed(value);
  }

  /** `key=value` followed by a newline reads back as that entry. */
  lemma ParseLineOfText(key: string, value: string)
    requires IsTrimmed(key) && IsTrimmed(value) && '=' !in key
    requires key == [] || key[0] != '#'
    ensures ParseLine(key + ['='] + value + ['\n']) == Some(Entry(key, value))
  {
    var line := key + ['='] + value;
    assert IsTrimmed(line);
    assert Strip(line + ['\n']) == Strip(line) by {
      StripTrailingSpace(line, ['\n']);
      StripTrimmed(line);
    }
    ParseLineSeesStripped(line + ['\n'], line);
    ParseLineRoundTrip(key, value);
  }

  /** The loop after `i + 1` lines is one more turn after `i` lines. */
  lemma FoldLinesPrefix(parse: string -> Option<Entry>, lines: seq<string>, i: nat)
    requires i < |lines|
    ensures FoldLines(lines[..i + 1], parse) == Step(FoldLines(lines[..i], parse), parse, lines[i])
  {
    assert lines[..i + 1][..i] == lines[..i];
  }

  /** A line whose stripped text starts with `#` is a comment. */
  lemma CommentLineSkipped(comment: string)
    ensures ParseLine(['#'] + comment + ['\n']) == None
  {
    StripKeepsFirst(['#'] + comment + ['\n']);
  }

  /**
   * The shape of the file the unit tests read: blank lines and comments
   * yield nothing, each `key=value` line yields its entry, and the later
   * line wins when the two keys coincide.
   */
  lemma CommentsAndBlankLinesSkipped(c1: string, k1: string, v1: string,
                                     c2: string, k2: string, v2: string)
    requires IsTrimmed(k1) && '=' !in k1 && (k1 == [] || k1[0] != '#') && IsTrimmed(v1)
    requires IsTrimmed(k2) && '=' !in k2 && (k2 == [] || k2[0] != '#') && IsTrimmed(v2)
    ensures ParseProperties([['\n'], ['#'] + c1 + ['\n'], k1 + ['='] + v1 + ['\n'], ['\n'],
                             ['#'] + c2 + ['\n'], k2 + ['='] + v2 + ['\n'], ['\n']])
            == map[k1 := v1, k2 := v2]
  {
    assert ParseLine(['\n']) == None by {
      assert SkipSpace(['\n'], 0) == 1;
    }
    CommentLineSkipped(c1);
    CommentLineSkipped(c2);
    ParseLineOfText(k1, v1);
    ParseLineOfText(k2, v2);
    TwoEntriesAmongSkippedLines(ParseLine, ['\n'], ['#'] + c1 + ['\n'], k1 + ['='] + v1 + ['\n'], ['\n'],
                                ['#'] + c2 + ['\n'], k2 + ['='] + v2 + ['\n'], ['\n']);
  }

  /**
   * Seven lines of which only the third and the sixth parse store exactly
   * those two entries, the sixth winning on a shared key.
   */
  lemma TwoEntriesAmongSkippedLines(parse: string -> Option<Entry>,
                                    l0: string, l1: string, l2: string, l3: string,
                                    l4: string, l5: string, l6: string)
    requires parse(l2).Some? && parse(l5).Some?
    requires parse(l0).None? && parse(l1).None? && parse(l3).None?
    requires parse(l4).None? && parse(l6).None?
    ensures FoldLines([l0, l1, l2, l3, l4, l5, l6], parse)
            == map[parse(l2).value.key := parse(l2).value.value, parse(l5).value.key := parse(l5).value.value]
  {
    var lines := [l0, l1, l2, l3, l4, l5, l6];
    var e1, e2 := parse(l2).value, parse(l5).value;
    assert FoldLines(lines[..2], parse) == map[] by {
      assert lines[..0] == [];
      FoldLinesPrefix(parse, lines, 0);
      FoldLinesPrefix(parse, lines, 1);
    }
    assert FoldLines(lines[..5], parse) == map[e1.key := e1.value] by {
      FoldLinesPrefix(parse, lines, 2);
      FoldLinesPrefix(parse, lines, 3);
      FoldLinesPrefix(parse, lines, 4);
    }
    assert FoldLines(lines[..7], parse) == map[e1.key := e1.value, e2.key := e2.value] by {
      FoldLinesPrefix(parse, lines, 5);
      FoldLinesPrefix(parse, lines, 6);
    }
    assert lines[..7] == lines;
  }

  // ---------------------------------------------------------------------
  // Files on disk

  datatype ConfigError = FileNotFound(path: string)

  /** Path to file contents, one entry per readable file. */
  type Files = map<string, seq<string>>

  function DatasourcePath(basePath: string, name: string): string {
    basePath + "/datasources/" + name + ".properties"
  }

  function MappingPath(basePath: string, name: string): string {
    basePath + "/mappings/" + name + ".properties"
  }

  /** `open(path)` followed by the loader's loop. */
  function LoadProperties(files: Files, path: string): (r: Result<Properties, ConfigError>)
    ensures r.Err? <==> path !in files
    ensures r.Err? ==> r.error == FileNotFound(path)
    ensures r.Ok? ==> r.value == ParseProperties(files[path])
  {
    if path in files then Ok(ParseProperties(files[path])) else Err(FileNotFound(path))
  }

  function ParseDatasource(files: Files, basePath: string, name: string): (r: Result<Properties, ConfigError>)
    ensures r.Err? <==> DatasourcePath(basePath, name) !in files
    ensures r.Err? ==> r.error == FileNotFound(DatasourcePath(basePath, name))
    ensures r.Ok? ==> r.value == ParseProperties(files[DatasourcePath(basePath, name)])
  {
    LoadProperties(files, DatasourcePath(basePath, name))
  }

  function ParseMapping(files: Files, basePath: string, name: string): (r: Result<Properties, ConfigError>)
    ensures r.Err? <==> MappingPath(basePath, name) !in files
    ensures r.Err? ==> r.error == FileNotFound(MappingPath(basePath, name))
    ensures r.Ok? ==> r.value == ParseProperties(files[MappingPath(basePath, name)])
  {
    LoadProperties(files, MappingPath(basePath, name))
  }

  /**
   * Datasource and mapping files follow the same line rules: equal contents
   * give equal results. Under one base path they never share a file.
   */
  lemma SameRulesForBothFileKinds(files: Files, basePath: string, ds: string, mapping: string)
    requires DatasourcePath(basePath, ds) in files && MappingPath(basePath, mapping) in files
    requires files[DatasourcePath(basePath, ds)] == files[MappingPath(basePath, mapping)]
    ensures ParseDatasource(files, basePath, ds) == ParseMapping(files, basePath, mapping)
    ensures DatasourcePath(basePath, ds) != MappingPath(basePath, mapping)
  {
    var n := |basePath| + 1;
    assert DatasourcePath(basePath, ds)[n] == 'd';
    assert MappingPath(basePath, mapping)[n] == 'm';
  }

  // ---------------------------------------------------------------------
  // Environment

  datatype EnvConfig = EnvConfig(
    baseUrl: Option<string>,
    username: string,
    password: string,
    rootGroupId: string,
    groupName: string)

  const BaseUrlVar := "NIFI_API_BASE_URL"
  const UsernameVar := "NIFI_API_USERNAME"
  const PasswordVar := "NIFI_API_PASSWORD"
  const RootGroupVar := "NIFI_ROOT_PROCESS_GROUP_ID"
  const GroupNameVar := "NIFI_CDC_PROCESS_GROUP_NAME"

  /** `os.getenv` over an explicit environment. */
  function GetEnvConfig(env: map<string, string>): (c: EnvConfig)
    ensures c.baseUrl.Some? <==> BaseUrlVar in env
    ensures c.baseUrl.Some? ==> c.baseUrl.value == env[BaseUrlVar]
    ensures UsernameVar in env ==> c.username == env[UsernameVar]
    ensures PasswordVar in env ==> c.password == env[PasswordVar]
    ensures RootGroupVar in env ==> c.rootGroupId == env[RootGroupVar]
    ensures GroupNameVar in env ==> c.groupName == env[GroupNameVar]
    ensures UsernameVar !in env ==> c.username == ""
    ensures PasswordVar !in env ==> c.password == ""
    ensures RootGroupVar !in env ==> c.rootGroupId == "root"
    ensures GroupNameVar !in env ==> c.groupName == "CDC-Flows"
  {
    EnvConfig(
      Get(env, BaseUrlVar),
      GetOr(env, UsernameVar, ""),
      GetOr(env, PasswordVar, ""),
      GetOr(env, RootGroupVar, "root"),
      GetOr(env, GroupNameVar, "CDC-Flows"))
  }

  /** With none of the variables set, every optional setting takes its default. */
  lemma EnvDefaults(env: map<string, string>)
    requires BaseUrlVar !in env && UsernameVar !in env && PasswordVar !in env
    requires RootGroupVar !in env && GroupNameVar !in env
    ensures GetEnvConfig(env) == EnvConfig(None, "", "", "root", "CDC-Flows")
  {
  }

  /** The settings depend on the five named variables and nothing else. */
  lemma EnvReadsOnlyNamedVariables(env1: map<string, string>, env2: map<string, string>)
    requires forall v | v in {BaseUrlVar, UsernameVar, PasswordVar, RootGroupVar, GroupNameVar} ::
               Get(env1, v) == Get(env2, v)
    ensures GetEnvConfig(env1) == GetEnvConfig(env2)
  {
    assert Get(env1, BaseUrlVar) == Get(env2, BaseUrlVar);
    assert Get(env1, UsernameVar) == Get(env2, UsernameVar);
    assert Get(env1, PasswordVar) == Get(env2, PasswordVar);
    assert Get(env1, RootGroupVar) == Get(env2, RootGroupVar);
    assert Get(env1, GroupNameVar) == Get(env2, GroupNameVar);
  }

  // ---------------------------------------------------------------------
  // JDBC URL

  const OracleThinPrefix := "jdbc:oracle:thin:@"

  /** The database type, `oracle` when the file does not say. */
  function DbType(props: Properties): string {
    GetOr(props, "db.type", "oracle")
  }

  /** The Oracle thin URL for a datasource, or "" for any other database type. */
  function BuildJdbcUrl(props: Properties): (url: string)
    ensures url != "" <==> DbType(props) == "oracle"
    ensures url != "" ==> StartsWith(url, OracleThinPrefix)
  {
    if DbType(props) == "oracle" then
      var f := OracleFields(props);
      OracleThinPrefix + (f.host + [':'] + f.port + [':'] + f.serviceName)
    else
      ""
  }

  datatype OracleTarget = OracleTarget(host: string, port: string, serviceName: string)

  /** The fields the URL is built from, as the f-string renders them. */
  function OracleFields(props: Properties): OracleTarget {
    OracleTarget(PyStr(Get(props, "db.host")), PyStr(Get(props, "db.port")),
                 PyStr(Get(props, "db.service.name")))
  }

  /** A URL that starts with a prefix is that prefix and the rest, cut twice at `:`. */
  lemma RebuildAfterPrefix(url: string, prefix: string, rest: string, host: string, tail: string,
                           port: string, service: string)
    requires StartsWith(url, prefix) && rest == url[|prefix|..]
    requires rest == host + [':'] + tail && tail == port + [':'] + service
    ensures url == prefix + (host + [':'] + port + [':'] + service)
  {
    assert url == prefix + rest;
    assert host + [':'] + tail == host + [':'] + port + [':'] + service;
  }

  /** Reads `jdbc:oracle:thin:@host:port:service` back into its three fields. */
  function ParseOracleThinUrl(url: string): (r: Option<OracleTarget>)
    ensures r.Some? ==> StartsWith(url, OracleThinPrefix)
    ensures r.Some? ==> ':' !in r.value.host && ':' !in r.value.port
    ensures r.Some? ==> url == OracleThinPrefix + (r.value.host + [':'] + r.value.port + [':'] + r.value.serviceName)
  {
    if StartsWith(url, OracleThinPrefix) then
      var rest := url[|OracleThinPrefix|..];
      if ':' in rest then
        var (host, tail) := SplitAtFirst(rest, ':');
        if ':' in tail then
          var (port, service) := SplitAtFirst(tail, ':');
          RebuildAfterPrefix(url, OracleThinPrefix, rest, host, tail, port, service);
          Some(OracleTarget(host, port, service))
        else None
      else None
    else None
  }

  /** Reading back a `:`-free host and port recovers all three fields. */
  lemma ParseOracleThinUrlRoundTrip(t: OracleTarget)
    requires ':' !in t.host && ':' !in t.port
    ensures ParseOracleThinUrl(OracleThinPrefix + (t.host + [':'] + t.port + [':'] + t.serviceName)) == Some(t)
  {
    var rest := t.host + [':'] + (t.port + [':'] + t.serviceName);
    var url := OracleThinPrefix + (t.host + [':'] + t.port + [':'] + t.serviceName);
    assert url[|OracleThinPrefix|..] == rest;
    assert StartsWith(url, OracleThinPrefix);
    assert rest[|t.host|] == ':';
    SplitAtFirstUnique(t.host, ':', t.port + [':'] + t.serviceName);
    var tail := t.port + [':'] + t.serviceName;
    assert tail[|t.port|] == ':';
    SplitAtFirstUnique(t.port, ':', t.serviceName);
  }

  /**
   * For an Oracle datasource whose host and port contain no `:`, the URL
   * reads back as its three fields.
   */
  lemma OracleUrlRoundTrip(props: Properties)
    requires DbType(props) == "oracle"
    requires ':' !in OracleFields(props).host && ':' !in OracleFields(props).port
    ensures ParseOracleThinUrl(BuildJdbcUrl(props)) == Some(OracleFields(props))
  {
    ParseOracleThinUrlRoundTrip(OracleFields(props));
  }
}
