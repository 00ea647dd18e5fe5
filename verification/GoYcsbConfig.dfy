/** From accepted go-ycsb options to the runner's workload settings
    (backend/internal/driver/goycsb/{options,driver}.go, loadConfig in runners/go-ycsb/main.go).
    Only the BENCH settings are followed; whether the connection string and the certificate are acceptable
    is a parameter. */
module GoYcsbConfig {
  import opened GoText
  import opened Environment

  datatype Options = Options(collection: string, recordCount: int, operationCount: int, threads: int, initialize: bool)

  const DATABASE: string := "ycsb"
  const NAMESPACE_LIMIT: nat := 235

  /** strings.ContainsFunc(s, unicode.IsControl): the control characters of ASCII, and U+0080 to U+009F, whose
      first byte 0xC2 is never part of another character. */
  predicate AnyControl(s: string) {
    exists i :: 0 <= i < |s| &&
      (s[i] < ' ' || s[i] == '\U{7F}' || (s[i] == '\U{C2}' && i + 1 < |s| && '\U{80}' <= s[i + 1] <= '\U{9F}'))
  }

  /** The collection rules, which driver and runner share. */
  predicate ValidCollection(s: string) {
    && !Blank(s) && !("system." <= s) && '$' !in s && !AnyControl(s)
    && !("." <= s) && !HasSuffix(s, ".") && !Contains(s, "..")
    && |DATABASE| + 1 + |s| <= NAMESPACE_LIMIT
  }

  /** Options.Validate */
  predicate ValidOptions(o: Options) {
    ValidCollection(o.collection) && InRange(o.recordCount) && InRange(o.operationCount) && InRange(o.threads) && o.threads <= o.operationCount
  }

  function RunnerEnv(o: Options): Texts
    requires ValidOptions(o)
  {
    map["BENCH_COLLECTION" := o.collection, "BENCH_RECORD_COUNT" := Itoa(o.recordCount),
        "BENCH_OPERATION_COUNT" := Itoa(o.operationCount), "BENCH_THREADS" := Itoa(o.threads),
        "BENCH_INITIALIZE" := FormatBool(o.initialize)]
  }

  const URI: string := "MONGODB_URI"
  const CA: string := "MONGODB_TLS_CA"

  /** The Secret's variables: the connection string, and the certificate if there is one. */
  function SecretEnv(withCA: bool): Texts { if withCA then map[URI := URI, CA := CA] else map[URI := URI] }

  datatype Config = Config(collection: string, recordCount: nat, operationCount: nat, threads: nat, initialize: bool)

  const RECORDS := Field("BENCH_RECORD_COUNT", 10000, MAX_SETTING)
  const OPERATIONS := Field("BENCH_OPERATION_COUNT", 20000, MAX_SETTING)
  const THREADS := Field("BENCH_THREADS", 1, MAX_SETTING)

  function Collection(env: Texts): string {
    var text := Lookup(env, "BENCH_COLLECTION");
    if text == "" then "usertable" else text
  }

  predicate Numbered(env: Texts) {
    Number(env, RECORDS).Some? && Number(env, OPERATIONS).Some? && Number(env, THREADS).Some?
  }

  predicate Acceptable(env: Texts, connection: bool) {
    && connection && ValidCollection(Collection(env)) && Numbered(env)
    && Number(env, THREADS).value <= Number(env, OPERATIONS).value
    && Flag(Lookup(env, "BENCH_INITIALIZE")).Some?
  }

  function Settings(env: Texts, connection: bool): Config
    requires Acceptable(env, connection)
  {
    Config(Collection(env), Number(env, RECORDS).value, Number(env, OPERATIONS).value, Number(env, THREADS).value,
           Flag(Lookup(env, "BENCH_INITIALIZE")).value)
  }

  method LoadConfig(env: Texts, connection: bool) returns (config: Option<Config>)
    ensures config.Some? <==> Acceptable(env, connection)
    ensures config.Some? ==> config.value == Settings(env, connection)
  {
    if !connection { return None; }
    var collection := Lookup(env, "BENCH_COLLECTION");
    if collection == "" { collection := "usertable"; }
    if !ValidCollection(collection) { return None; }
    var values := ReadTable(env);
    if values.None? { return None; }
    var v := values.value;
    if v[2] > v[1] { return None; }
    var initialize := Flag(Lookup(env, "BENCH_INITIALIZE"));
    if initialize.None? { return None; }
    return Some(Config(collection, v[0], v[1], v[2], initialize.value));
  }

  method ReadTable(env: Texts) returns (values: Option<seq<nat>>)
    ensures values.Some? <==> Numbered(env)
    ensures values.Some? ==>
              values.value == [Number(env, RECORDS).value, Number(env, OPERATIONS).value, Number(env, THREADS).value]
  {
    var fields := [RECORDS, OPERATIONS, THREADS];
    values := ReadNumbers(env, fields);
    assert fields[0] == RECORDS && fields[1] == OPERATIONS && fields[2] == THREADS;
  }

  ghost predicate Holds(env: Texts, o: Options)
    requires ValidOptions(o)
  {
    && Lookup(env, "BENCH_COLLECTION") == o.collection
    && Lookup(env, RECORDS.name) == Itoa(o.recordCount) && Lookup(env, OPERATIONS.name) == Itoa(o.operationCount)
    && Lookup(env, THREADS.name) == Itoa(o.threads) && Lookup(env, "BENCH_INITIALIZE") == FormatBool(o.initialize)
  }

  lemma Entries(o: Options, withCA: bool)
    requires ValidOptions(o)
    ensures Holds(RunnerEnv(o), o) && RunnerEnv(o).Keys !! SecretEnv(withCA).Keys
  {
  }

  lemma EntriesAreRead(env: Texts, o: Options)
    requires ValidOptions(o) && forall name :: name in RunnerEnv(o) ==> Lookup(env, name) == RunnerEnv(o)[name]
    ensures Holds(env, o)
  {
    Entries(o, true);
  }

  lemma HeldIsAccepted(env: Texts, o: Options)
    requires ValidOptions(o) && Holds(env, o)
    ensures Acceptable(env, true)
    ensures Settings(env, true) == Config(o.collection, o.recordCount, o.operationCount, o.threads, o.initialize)
  {
    BlankIsEmpty();
    NumberRoundTrip(env, RECORDS, o.recordCount);
    NumberRoundTrip(env, OPERATIONS, o.operationCount);
    NumberRoundTrip(env, THREADS, o.threads);
  }

  /** Accepted options reach the runner unchanged, whatever the Secret holds and the image sets. */
  lemma SettingsSurvive(o: Options, withCA: bool, variables: seq<Variable>, image: Texts, secret: Texts, rune: char -> string)
    requires ValidOptions(o) && Describes(variables, RunnerEnv(o), SecretEnv(withCA))
    ensures var env := Started(variables, image, secret, rune);
            && Acceptable(env, true)
            && Settings(env, true) == Config(o.collection, o.recordCount, o.operationCount, o.threads, o.initialize)
            && Lookup(env, URI) == Lookup(secret, URI) && (withCA ==> Lookup(env, CA) == Lookup(secret, CA))
  {
    var env := Started(variables, image, secret, rune);
    Entries(o, withCA);
    EnvironmentArrives(variables, RunnerEnv(o), SecretEnv(withCA), image, secret, rune);
    assert URI in SecretEnv(withCA) && (withCA ==> CA in SecretEnv(withCA));
    EntriesAreRead(env, o);
    HeldIsAccepted(env, o);
  }
}
