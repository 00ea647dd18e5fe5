/** From accepted pgbench options and connections to the settings of the runner
    (backend/internal/driver/pgbench/{options,connection,driver}.go, loadConfig in runners/pgbench/main.go). */
module PgbenchConfig {
  import opened GoText
  import opened Driver
  import opened Environment

  datatype Options = Options(duration: int, clients: int, threads: int, scale: int, initialize: bool)

  /** Options.Validate */
  predicate ValidOptions(o: Options) {
    InRange(o.duration) && InRange(o.clients) && InRange(o.threads) && InRange(o.scale) && o.threads <= o.clients
  }

  const NUL: char := '\U{0}'

  function Lower(s: string): string {
    if s == "" then "" else [if 'A' <= s[0] <= 'Z' then s[0] - 'A' + 'a' else s[0]] + Lower(s[1..])
  }

  /** validDatabaseName: not a form that libpq reads as a connection string.  No character outside ASCII
      has a lower-case form among the letters of these schemes. */
  predicate ValidDatabaseName(database: string) {
    '=' !in database && NUL !in database && !("postgres://" <= Lower(database)) && !("postgresql://" <= Lower(database))
  }

  predicate ValidCredential(s: string) { !Blank(s) && NUL !in s }

  /** The default database of the instance: its own hint, or the path of its URI (path stands for the
      parsing of databaseFromURI up to its final trim, None for its errors). */
  function DefaultDatabase(details: Details, path: string -> Option<string>): Option<string> {
    var hint := TrimSpace(details.database);
    if hint == "" && !Blank(details.uri) then
      var found := path(details.uri);
      if found.None? then None else Some(TrimSpace(found.value))
    else Some(hint)
  }

  function ResolveConnection(requested: string, details: Details, path: string -> Option<string>): Resolution {
    var database := TrimSpace(requested);
    if !ValidDatabaseName(database) then Rejected(InvalidDatabase)
    else if Blank(details.password) && !Blank(details.uri) then Rejected(UnsupportedConnection)
    else if !ValidCredential(details.host) || !ValidCredential(details.username) || !ValidCredential(details.password) then
      Rejected(InvalidCredentials)
    else
      var port := Atoi(TrimSpace(details.port));
      if port.None? || port.value < 1 || port.value > 65535 then Rejected(InvalidCredentials)
      else
        var named := if database == "" then DefaultDatabase(details, path) else Some(database);
        if named.None? || !ValidDatabaseName(named.value) then Rejected(InvalidCredentials)
        else if named.value == "" then Rejected(NoDatabase)
        else Resolved(Connection(details.host, port.value, named.value, details.username, details.password, details.uri))
  }

  // ---- the runner's environment ----

  function RunnerEnv(c: Connection, o: Options): Texts
    requires ValidOptions(o)
  {
    map["PGHOST" := c.host, "PGPORT" := Itoa(c.port), "PGDATABASE" := c.database, "PGUSER" := c.username,
        "BENCH_DURATION" := Itoa(o.duration), "BENCH_CLIENTS" := Itoa(o.clients), "BENCH_THREADS" := Itoa(o.threads),
        "BENCH_SCALE" := Itoa(o.scale), "BENCH_INITIALIZE" := FormatBool(o.initialize)]
  }

  const PASSWORD: string := "PGPASSWORD"
  const SECRET_ENV: Texts := map[PASSWORD := PASSWORD]

  function SecretData(c: Connection): Texts { map[PASSWORD := c.password] }

  datatype Config = Config(port: nat, timeout: nat, duration: nat, clients: nat, threads: nat, scale: nat, initialize: bool)

  const PORT := Field("PGPORT", 5432, 65535)
  const TIMEOUT := Field("PGCONNECT_TIMEOUT", 10, MAX_SETTING)
  const DURATION := Field("BENCH_DURATION", 60, MAX_SETTING)
  const CLIENTS := Field("BENCH_CLIENTS", 1, MAX_SETTING)
  const THREADS := Field("BENCH_THREADS", 1, MAX_SETTING)
  const SCALE := Field("BENCH_SCALE", 1, MAX_SETTING)

  predicate Addressed(env: Texts) {
    Present(env, "PGHOST") && Present(env, "PGDATABASE") && Present(env, "PGUSER")
  }

  predicate Numbered(env: Texts) {
    && Number(env, PORT).Some? && Number(env, TIMEOUT).Some? && Number(env, DURATION).Some?
    && Number(env, CLIENTS).Some? && Number(env, THREADS).Some? && Number(env, SCALE).Some?
  }

  /** What the runner requires of its environment.  passFile tells whether PGPASSFILE names a usable file. */
  predicate Acceptable(env: Texts, passFile: bool) {
    && Addressed(env)
    && (Lookup(env, PASSWORD) != "" || (Lookup(env, "PGPASSFILE") != "" && passFile))
    && Numbered(env)
    && Flag(Lookup(env, "BENCH_INITIALIZE")).Some?
    && Number(env, THREADS).value <= Number(env, CLIENTS).value
  }

  function Settings(env: Texts, passFile: bool): Config
    requires Acceptable(env, passFile)
  {
    Config(Number(env, PORT).value, Number(env, TIMEOUT).value, Number(env, DURATION).value, Number(env, CLIENTS).value,
           Number(env, THREADS).value, Number(env, SCALE).value, Flag(Lookup(env, "BENCH_INITIALIZE")).value)
  }

  method ReadAddress(env: Texts) returns (ok: bool)
    ensures ok <==> Addressed(env)
  {
    var required := ["PGHOST", "PGDATABASE", "PGUSER"];
    ok := AllPresent(env, required);
    assert required[0] == "PGHOST" && required[1] == "PGDATABASE" && required[2] == "PGUSER";
  }

  method ReadTable(env: Texts) returns (values: Option<seq<nat>>)
    ensures values.Some? <==> Numbered(env)
    ensures values.Some? ==>
              values.value == [Number(env, PORT).value, Number(env, TIMEOUT).value, Number(env, DURATION).value,
                               Number(env, CLIENTS).value, Number(env, THREADS).value, Number(env, SCALE).value]
  {
    var fields := [PORT, TIMEOUT, DURATION, CLIENTS, THREADS, SCALE];
    values := ReadNumbers(env, fields);
    assert fields[0] == PORT && fields[1] == TIMEOUT && fields[2] == DURATION;
    assert fields[3] == CLIENTS && fields[4] == THREADS && fields[5] == SCALE;
  }

  method LoadConfig(env: Texts, passFile: bool) returns (config: Option<Config>)
    ensures config.Some? <==> Acceptable(env, passFile)
    ensures config.Some? ==> config.value == Settings(env, passFile)
  {
    var addressed := ReadAddress(env);
    if !addressed { return None; }
    if Lookup(env, PASSWORD) == "" && Lookup(env, "PGPASSFILE") == "" { return None; }
    if Lookup(env, PASSWORD) == "" && !passFile { return None; }
    var values := ReadTable(env);
    if values.None? { return None; }
    var v := values.value;
    var initialize := Flag(Lookup(env, "BENCH_INITIALIZE"));
    if initialize.None? { return None; }
    if v[4] > v[3] { return None; }
    return Some(Config(v[0], v[1], v[2], v[3], v[4], v[5], initialize.value));
  }

  // ---- nothing is lost on the way ----

  lemma ResolvedIsUsable(requested: string, details: Details, path: string -> Option<string>)
    requires ResolveConnection(requested, details, path).Resolved?
    ensures var c := ResolveConnection(requested, details, path).connection;
            && !Blank(c.host) && !Blank(c.username) && !Blank(c.password) && !Blank(c.database)
            && 1 <= c.port <= 65535
            && NUL !in c.host && NUL !in c.username && NUL !in c.password && NUL !in c.database
  {
    TrimSpaceIsIdempotent(requested);
    TrimSpaceIsIdempotent(details.database);
    if !Blank(details.uri) && path(details.uri).Some? { TrimSpaceIsIdempotent(path(details.uri).value); }
  }

  /** This environment holds these settings. */
  ghost predicate Holds(env: Texts, c: Connection, o: Options)
    requires ValidOptions(o)
  {
    && Lookup(env, "PGHOST") == c.host && Lookup(env, "PGDATABASE") == c.database && Lookup(env, "PGUSER") == c.username
    && Lookup(env, PORT.name) == Itoa(c.port) && Lookup(env, DURATION.name) == Itoa(o.duration)
    && Lookup(env, CLIENTS.name) == Itoa(o.clients) && Lookup(env, THREADS.name) == Itoa(o.threads)
    && Lookup(env, SCALE.name) == Itoa(o.scale) && Lookup(env, "BENCH_INITIALIZE") == FormatBool(o.initialize)
    && Lookup(env, PASSWORD) == c.password
  }

  lemma NumbersArrive(env: Texts, c: Connection, o: Options)
    requires ValidOptions(o) && 1 <= c.port <= 65535 && Holds(env, c, o)
    ensures Number(env, PORT) == Some(c.port) && Number(env, DURATION) == Some(o.duration)
    ensures Number(env, CLIENTS) == Some(o.clients) && Number(env, THREADS) == Some(o.threads)
    ensures Number(env, SCALE) == Some(o.scale)
  {
    NumberRoundTrip(env, PORT, c.port);
    NumberRoundTrip(env, DURATION, o.duration);
    NumberRoundTrip(env, CLIENTS, o.clients);
    NumberRoundTrip(env, THREADS, o.threads);
    NumberRoundTrip(env, SCALE, o.scale);
  }

  lemma HeldIsAccepted(env: Texts, c: Connection, o: Options, passFile: bool)
    requires ValidOptions(o) && 1 <= c.port <= 65535 && Holds(env, c, o) && Number(env, TIMEOUT).Some?
    requires !Blank(c.host) && !Blank(c.username) && !Blank(c.password) && !Blank(c.database)
    ensures Acceptable(env, passFile)
    ensures Settings(env, passFile) == Config(c.port, Number(env, TIMEOUT).value, o.duration, o.clients, o.threads, o.scale, o.initialize)
  {
    NumbersArrive(env, c, o);
    BlankIsEmpty();
  }

  lemma Entries(c: Connection, o: Options)
    requires ValidOptions(o)
    ensures Holds(RunnerEnv(c, o)[PASSWORD := c.password], c, o)
  {
  }

  lemma EntriesAreRead(env: Texts, c: Connection, o: Options)
    requires ValidOptions(o)
    requires forall name :: name in RunnerEnv(c, o) || name == PASSWORD ==>
               Lookup(env, name) == Lookup(RunnerEnv(c, o)[PASSWORD := c.password], name)
    ensures Holds(env, c, o)
  {
    Entries(c, o);
  }

  lemma NamesDiffer(c: Connection, o: Options)
    requires ValidOptions(o)
    ensures PASSWORD !in RunnerEnv(c, o) && TIMEOUT.name !in RunnerEnv(c, o) && TIMEOUT.name != PASSWORD
  {
  }

  /** The Job's variables and its Secret, put together, hold the settings. */
  lemma SettingsArrive(c: Connection, o: Options, variables: seq<Variable>, image: Texts, rune: char -> string)
    requires ValidOptions(o) && Describes(variables, RunnerEnv(c, o), SECRET_ENV)
    ensures Holds(Started(variables, image, SecretData(c), rune), c, o)
  {
    var env := Started(variables, image, SecretData(c), rune);
    NamesDiffer(c, o);
    EnvironmentArrives(variables, RunnerEnv(c, o), SECRET_ENV, image, SecretData(c), rune);
    forall name | name in RunnerEnv(c, o) || name == PASSWORD
      ensures Lookup(env, name) == Lookup(RunnerEnv(c, o)[PASSWORD := c.password], name)
    {
      if name == PASSWORD { assert name in SECRET_ENV; }
    }
    EntriesAreRead(env, c, o);
  }

  lemma TimeoutIsTheImages(c: Connection, o: Options, variables: seq<Variable>, image: Texts, rune: char -> string)
    requires ValidOptions(o) && Describes(variables, RunnerEnv(c, o), SECRET_ENV)
    ensures Number(Started(variables, image, SecretData(c), rune), TIMEOUT) == Number(image, TIMEOUT)
  {
    NamesDiffer(c, o);
    forall i | 0 <= i < |variables| ensures variables[i].name != TIMEOUT.name {
      assert variables[i].name in RunnerEnv(c, o) || variables[i].name in SECRET_ENV;
    }
    OthersAreTheImages(variables, TIMEOUT.name, image, SecretData(c), rune);
  }

  /** Whatever options and connection the driver accepts, the runner started with the resulting Job accepts
      them too, and works with the same settings; the image may set anything but an unusable connect timeout. */
  lemma SettingsSurvive(requested: string, details: Details, path: string -> Option<string>, o: Options,
                        variables: seq<Variable>, image: Texts, rune: char -> string, passFile: bool)
    requires ValidOptions(o) && ResolveConnection(requested, details, path).Resolved?
    requires Describes(variables, RunnerEnv(ResolveConnection(requested, details, path).connection, o), SECRET_ENV)
    requires Number(image, TIMEOUT).Some?
    ensures var c := ResolveConnection(requested, details, path).connection;
            var env := Started(variables, image, SecretData(c), rune);
            && Acceptable(env, passFile)
            && Settings(env, passFile) ==
               Config(c.port, Number(image, TIMEOUT).value, o.duration, o.clients, o.threads, o.scale, o.initialize)
            && Lookup(env, "PGHOST") == c.host && Lookup(env, "PGDATABASE") == c.database
            && Lookup(env, "PGUSER") == c.username && Lookup(env, PASSWORD) == c.password
  {
    var c := ResolveConnection(requested, details, path).connection;
    ResolvedIsUsable(requested, details, path);
    SettingsArrive(c, o, variables, image, rune);
    TimeoutIsTheImages(c, o, variables, image, rune);
    HeldIsAccepted(Started(variables, image, SecretData(c), rune), c, o, passFile);
  }
}
