/** From accepted sysbench options and connections to the runner's settings and its configuration file
    (backend/internal/driver/sysbench/{options,connection,driver}.go, loadConfig in runners/sysbench/main.go). */
module SysbenchConfig {
  import opened GoText
  import opened Driver
  import opened Environment
  import opened SysbenchConnection
  import Lines

  datatype Options = Options(duration: int, threads: int, tables: int, tableSize: int, initialize: bool)

  /** Options.Validate */
  predicate ValidOptions(o: Options) {
    InRange(o.duration) && InRange(o.threads) && InRange(o.tables) && InRange(o.tableSize)
  }

  predicate ValidHost(host: string) { !Blank(host) && ValidConnectionValue("mysql-host", host) && ',' !in host }

  predicate ValidUsername(username: string) { !Blank(username) && ValidConnectionValue("mysql-user", username) }

  /** A password may consist of spaces. */
  predicate ValidPassword(password: string) { password != "" && ValidConnectionValue("mysql-password", password) }

  predicate ValidDatabase(database: string) { ValidConnectionValue("mysql-db", database) }

  /** The default database of the instance: its own hint, or the path of its URI (path stands for the
      parsing of databaseFromURI up to its final checks, None for its errors). */
  function DefaultDatabase(details: Details, path: string -> Option<string>): Option<string> {
    if !OneLine(details.database) then None
    else
      var hint := TrimSpace(details.database);
      if hint != "" || Blank(details.uri) then Some(hint)
      else if !OneLine(details.uri) then None
      else
        var found := path(details.uri);
        if found.None? || !OneLine(found.value) then None else Some(TrimSpace(found.value))
  }

  function ResolveConnection(requested: string, details: Details, path: string -> Option<string>): Resolution {
    var database := TrimSpace(requested);
    if !OneLine(requested) || !ValidDatabase(database) then Rejected(InvalidDatabase)
    else if details.password == "" && !Blank(details.uri) then Rejected(UnsupportedConnection)
    else if !ValidHost(details.host) || !ValidUsername(details.username) || !ValidPassword(details.password) then
      Rejected(InvalidCredentials)
    else
      var port := Atoi(TrimSpace(details.port));
      if port.None? || port.value < 1 || port.value > 65535 || !OneLine(details.port) then Rejected(InvalidCredentials)
      else
        var named := if database == "" then DefaultDatabase(details, path) else Some(database);
        if named.None? || !ValidDatabase(named.value) then Rejected(InvalidCredentials)
        else if named.value == "" then Rejected(NoDatabase)
        else Resolved(Connection(details.host, port.value, named.value, details.username, details.password, details.uri))
  }

  // ---- the runner's environment ----

  function RunnerEnv(c: Connection, o: Options): Texts
    requires ValidOptions(o)
  {
    map["MYSQL_HOST" := c.host, "MYSQL_PORT" := Itoa(c.port), "MYSQL_DATABASE" := c.database, "MYSQL_USER" := c.username,
        "BENCH_DURATION" := Itoa(o.duration), "BENCH_THREADS" := Itoa(o.threads), "BENCH_TABLES" := Itoa(o.tables),
        "BENCH_TABLE_SIZE" := Itoa(o.tableSize), "BENCH_INITIALIZE" := FormatBool(o.initialize)]
  }

  const PASSWORD: string := "MYSQL_PASSWORD"
  const SECRET_ENV: Texts := map[PASSWORD := PASSWORD]

  function SecretData(c: Connection): Texts { map[PASSWORD := c.password] }

  datatype Config = Config(host: string, database: string, user: string, password: string,
                           port: nat, duration: nat, threads: nat, tables: nat, tableSize: nat, initialize: bool)

  const PORT := Field("MYSQL_PORT", 3306, 65535)
  const DURATION := Field("BENCH_DURATION", 60, MAX_SETTING)
  const THREADS := Field("BENCH_THREADS", 1, MAX_SETTING)
  const TABLES := Field("BENCH_TABLES", 1, MAX_SETTING)
  const TABLE_SIZE := Field("BENCH_TABLE_SIZE", 10000, MAX_SETTING)

  const NUL: char := '\U{0}'

  predicate AcceptableText(env: Texts, name: string) {
    var value := Lookup(env, name);
    value != "" && (name == PASSWORD || !Blank(value)) && NUL !in value
  }

  predicate Addressed(env: Texts) {
    && AcceptableText(env, "MYSQL_HOST") && AcceptableText(env, "MYSQL_DATABASE")
    && AcceptableText(env, "MYSQL_USER") && AcceptableText(env, PASSWORD)
  }

  predicate Numbered(env: Texts) {
    && Number(env, PORT).Some? && Number(env, DURATION).Some? && Number(env, THREADS).Some?
    && Number(env, TABLES).Some? && Number(env, TABLE_SIZE).Some?
  }

  /** What the runner requires of its environment. */
  predicate Acceptable(env: Texts) {
    Addressed(env) && ',' !in Lookup(env, "MYSQL_HOST") && Numbered(env) && Flag(Lookup(env, "BENCH_INITIALIZE")).Some?
  }

  function Settings(env: Texts): Config
    requires Acceptable(env)
  {
    Config(Lookup(env, "MYSQL_HOST"), Lookup(env, "MYSQL_DATABASE"), Lookup(env, "MYSQL_USER"), Lookup(env, PASSWORD),
           Number(env, PORT).value, Number(env, DURATION).value, Number(env, THREADS).value,
           Number(env, TABLES).value, Number(env, TABLE_SIZE).value, Flag(Lookup(env, "BENCH_INITIALIZE")).value)
  }

  method ReadTexts(env: Texts) returns (values: Option<seq<string>>)
    ensures values.Some? <==> Addressed(env)
    ensures values.Some? ==>
              values.value == [Lookup(env, "MYSQL_HOST"), Lookup(env, "MYSQL_DATABASE"), Lookup(env, "MYSQL_USER"), Lookup(env, PASSWORD)]
  {
    var names := ["MYSQL_HOST", "MYSQL_DATABASE", "MYSQL_USER", PASSWORD];
    values := ReadNamed(env, names);
    assert names[0] == "MYSQL_HOST" && names[1] == "MYSQL_DATABASE" && names[2] == "MYSQL_USER" && names[3] == PASSWORD;
  }

  /** The loop over the text settings. */
  method ReadNamed(env: Texts, names: seq<string>) returns (values: Option<seq<string>>)
    ensures values.Some? <==> forall i :: 0 <= i < |names| ==> AcceptableText(env, names[i])
    ensures values.Some? ==>
              |values.value| == |names| && forall i :: 0 <= i < |names| ==> values.value[i] == Lookup(env, names[i])
  {
    var read: seq<string> := [];
    for i := 0 to |names|
      invariant |read| == i
      invariant forall k :: 0 <= k < i ==> AcceptableText(env, names[k]) && read[k] == Lookup(env, names[k])
    {
      var value := Lookup(env, names[i]);
      if value == "" || (names[i] != PASSWORD && Blank(value)) || NUL in value {
        assert !AcceptableText(env, names[i]);
        return None;
      }
      read := read + [value];
    }
    return Some(read);
  }

  method ReadTable(env: Texts) returns (values: Option<seq<nat>>)
    ensures values.Some? <==> Numbered(env)
    ensures values.Some? ==>
              values.value == [Number(env, PORT).value, Number(env, DURATION).value, Number(env, THREADS).value,
                               Number(env, TABLES).value, Number(env, TABLE_SIZE).value]
  {
    var fields := [PORT, DURATION, THREADS, TABLES, TABLE_SIZE];
    values := ReadNumbers(env, fields);
    assert fields[0] == PORT && fields[1] == DURATION && fields[2] == THREADS && fields[3] == TABLES && fields[4] == TABLE_SIZE;
  }

  method LoadConfig(env: Texts) returns (config: Option<Config>)
    ensures config.Some? <==> Acceptable(env)
    ensures config.Some? ==> config.value == Settings(env)
  {
    var texts := ReadTexts(env);
    if texts.None? { return None; }
    var t := texts.value;
    if ',' in t[0] { return None; }
    var values := ReadTable(env);
    if values.None? { return None; }
    var v := values.value;
    var initialize := Flag(Lookup(env, "BENCH_INITIALIZE"));
    if initialize.None? { return None; }
    return Some(Config(t[0], t[1], t[2], t[3], v[0], v[1], v[2], v[3], v[4], initialize.value));
  }

  // ---- nothing is lost on the way ----

  lemma ResolvedIsUsable(requested: string, details: Details, path: string -> Option<string>)
    requires ResolveConnection(requested, details, path).Resolved?
    ensures Usable(ResolveConnection(requested, details, path).connection)
  {
    BlankIsEmpty();
    TrimSpaceIsIdempotent(requested);
    TrimSpaceIsIdempotent(details.database);
    if path(details.uri).Some? { TrimSpaceIsIdempotent(path(details.uri).value); }
  }

  /** What every resolved connection satisfies. */
  predicate Usable(c: Connection) {
    && ValidHost(c.host) && ValidUsername(c.username) && ValidPassword(c.password)
    && ValidDatabase(c.database) && !Blank(c.database) && 1 <= c.port <= 65535
  }

  ghost predicate Holds(env: Texts, c: Connection, o: Options)
    requires ValidOptions(o)
  {
    && Lookup(env, "MYSQL_HOST") == c.host && Lookup(env, "MYSQL_DATABASE") == c.database && Lookup(env, "MYSQL_USER") == c.username
    && Lookup(env, PORT.name) == Itoa(c.port) && Lookup(env, DURATION.name) == Itoa(o.duration)
    && Lookup(env, THREADS.name) == Itoa(o.threads) && Lookup(env, TABLES.name) == Itoa(o.tables)
    && Lookup(env, TABLE_SIZE.name) == Itoa(o.tableSize) && Lookup(env, "BENCH_INITIALIZE") == FormatBool(o.initialize)
    && Lookup(env, PASSWORD) == c.password
  }

  lemma NumbersArrive(env: Texts, c: Connection, o: Options)
    requires ValidOptions(o) && 1 <= c.port <= 65535 && Holds(env, c, o)
    ensures Number(env, PORT) == Some(c.port) && Number(env, DURATION) == Some(o.duration)
    ensures Number(env, THREADS) == Some(o.threads) && Number(env, TABLES) == Some(o.tables)
    ensures Number(env, TABLE_SIZE) == Some(o.tableSize)
  {
    NumberRoundTrip(env, PORT, c.port);
    NumberRoundTrip(env, DURATION, o.duration);
    NumberRoundTrip(env, THREADS, o.threads);
    NumberRoundTrip(env, TABLES, o.tables);
    NumberRoundTrip(env, TABLE_SIZE, o.tableSize);
  }

  lemma ValidHasNoNul(option: string, value: string)
    requires ValidConnectionValue(option, value)
    ensures NUL !in value
  {
  }

  lemma HeldIsAccepted(env: Texts, c: Connection, o: Options)
    requires ValidOptions(o) && Usable(c) && Holds(env, c, o)
    ensures Acceptable(env)
    ensures Settings(env) == Config(c.host, c.database, c.username, c.password, c.port, o.duration, o.threads, o.tables, o.tableSize, o.initialize)
  {
    NumbersArrive(env, c, o);
    BlankIsEmpty();
    ValidHasNoNul("mysql-host", c.host);
    ValidHasNoNul("mysql-db", c.database);
    ValidHasNoNul("mysql-user", c.username);
    ValidHasNoNul("mysql-password", c.password);
  }

  lemma Entries(c: Connection, o: Options)
    requires ValidOptions(o)
    ensures Holds(RunnerEnv(c, o)[PASSWORD := c.password], c, o)
    ensures PASSWORD !in RunnerEnv(c, o)
  {
  }

  lemma EntriesAreRead(env: Texts, c: Connection, o: Options)
    requires ValidOptions(o)
    requires forall name :: name in RunnerEnv(c, o) || name == PASSWORD ==>
               Lookup(env, name) == Lookup(RunnerEnv(c, o)[PASSWORD := c.password], name)
    ensures Holds(env, c, o)
  {
    Entries(c, o);
  }

  lemma SettingsArrive(c: Connection, o: Options, variables: seq<Variable>, image: Texts, rune: char -> string)
    requires ValidOptions(o) && Describes(variables, RunnerEnv(c, o), SECRET_ENV)
    ensures Holds(Started(variables, image, SecretData(c), rune), c, o)
  {
    var env := Started(variables, image, SecretData(c), rune);
    Entries(c, o);
    EnvironmentArrives(variables, RunnerEnv(c, o), SECRET_ENV, image, SecretData(c), rune);
    forall name | name in RunnerEnv(c, o) || name == PASSWORD
      ensures Lookup(env, name) == Lookup(RunnerEnv(c, o)[PASSWORD := c.password], name)
    {
      if name == PASSWORD { assert name in SECRET_ENV; }
    }
    EntriesAreRead(env, c, o);
  }

  /** A usable connection and accepted options reach an accepting runner unchanged, whatever the image sets,
      and that runner can write its configuration file. */
  lemma UsableSurvives(c: Connection, o: Options, variables: seq<Variable>, image: Texts, rune: char -> string)
    requires ValidOptions(o) && Usable(c) && Describes(variables, RunnerEnv(c, o), SECRET_ENV)
    ensures var env := Started(variables, image, SecretData(c), rune);
            && Acceptable(env)
            && Settings(env) == Config(c.host, c.database, c.username, c.password, c.port, o.duration, o.threads, o.tables, o.tableSize, o.initialize)
            && Writable(FileSettings(Settings(env)))
  {
    var env := Started(variables, image, SecretData(c), rune);
    SettingsArrive(c, o, variables, image, rune);
    HeldIsAccepted(env, c, o);
    UsableIsWritable(Settings(env), c);
  }

  /** The same for whatever connection the driver resolves. */
  lemma SettingsSurvive(requested: string, details: Details, path: string -> Option<string>, o: Options,
                        variables: seq<Variable>, image: Texts, rune: char -> string)
    requires ValidOptions(o) && ResolveConnection(requested, details, path).Resolved?
    requires Describes(variables, RunnerEnv(ResolveConnection(requested, details, path).connection, o), SECRET_ENV)
    ensures var c := ResolveConnection(requested, details, path).connection;
            var env := Started(variables, image, SecretData(c), rune);
            && Acceptable(env)
            && Settings(env) == Config(c.host, c.database, c.username, c.password, c.port, o.duration, o.threads, o.tables, o.tableSize, o.initialize)
            && Writable(FileSettings(Settings(env)))
  {
    ResolvedIsUsable(requested, details, path);
    UsableSurvives(ResolveConnection(requested, details, path).connection, o, variables, image, rune);
  }

  // ---- the configuration file ----

  function FileSettings(c: Config): (settings: seq<Setting>)
    ensures |settings| == 5
  {
    [Setting("mysql-host", c.host), Setting("mysql-port", Itoa(c.port)), Setting("mysql-db", c.database),
     Setting("mysql-user", c.user), Setting("mysql-password", c.password)]
  }

  lemma {:induction false} ShortDecimal(n: nat, digits: nat, limit: nat)
    requires digits >= 1 && n < limit && limit == Power10(digits)
    ensures |Itoa(n)| <= digits && AllDigits(Itoa(n))
    decreases digits
  {
    ItoaReads(n);
    if n >= 10 { ShortDecimal(n / 10, digits - 1, Power10(digits - 1)); }
  }

  function Power10(n: nat): nat { if n == 0 then 1 else 10 * Power10(n - 1) }

  lemma PortIsWritable(port: nat)
    requires port <= 65535
    ensures LineOf("mysql-port", Itoa(port)).Some?
  {
    ShortDecimal(port, 5, 100000);
    var text := Itoa(port);
    assert forall i :: 0 <= i < |text| ==> IsDigit(text[i]);
    assert OneLine(text) && '\'' !in text;
  }

  /** Every connection that the backend resolves can be written by the runner. */
  lemma UsableIsWritable(config: Config, c: Connection)
    requires Usable(c) && config.port == c.port && config.host == c.host && config.database == c.database
    requires config.user == c.username && config.password == c.password
    ensures Writable(FileSettings(config))
  {
    CheckMatchesWriter("mysql-host", c.host);
    CheckMatchesWriter("mysql-db", c.database);
    CheckMatchesWriter("mysql-user", c.username);
    CheckMatchesWriter("mysql-password", c.password);
    PortIsWritable(c.port);
  }

  /** The written file has five lines, and they give the connection back unchanged. */
  lemma ConnectionReadsBack(config: Config)
    requires Writable(FileSettings(config))
    ensures var settings := FileSettings(config);
            && |LinesOf(settings)| == 5 && Lines.CompleteLines(FileOf(settings)) == LinesOf(settings)
            && Lines.OpenLine(FileOf(settings)) == ""
            && forall i :: 0 <= i < 5 ==> ReadLine(LinesOf(settings)[i]) == Some(settings[i])
  {
    OptionNamesArePlain(config);
    FileReadsBack(FileSettings(config));
  }

  lemma OptionNamesArePlain(config: Config)
    ensures forall i :: 0 <= i < 5 ==> Plain(FileSettings(config)[i].option)
  {
  }
}
