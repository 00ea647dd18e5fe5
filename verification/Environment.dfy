/** From a driver's settings to the variables that the runner reads
    (benchmarkEnvironment in backend/internal/coordinator/jobs.go, and what Kubernetes does with its
    result; the number rules of loadConfig in runners/pgbench/main.go, runners/sysbench/main.go and
    runners/go-ycsb/main.go). */
module Environment {
  import opened GoText
  import opened Sorting

  /** strings.ReplaceAll(s, "$", "$$") */
  function Escape(s: string): string {
    if s == "" then "" else (if s[0] == '$' then "$$" else [s[0]]) + Escape(s[1..])
  }

  function IndexOfCloser(s: string, from: nat): (i: nat)
    requires from <= |s|
    ensures from <= i <= |s| && (i < |s| ==> s[i] == ')')
    decreases |s| - from
  {
    if from == |s| || s[from] == ')' then from else IndexOfCloser(s, from + 1)
  }

  /** Kubernetes' expansion of references $(NAME); $$ stands for $, and anything else is left as it is.
      What follows a lone $ is passed through rune, whatever that does. */
  function Expand(s: string, known: map<string, string>, rune: char -> string): string
    decreases |s|
  {
    if s == "" then ""
    else if s[0] != '$' || |s| == 1 then [s[0]] + Expand(s[1..], known, rune)
    else if s[1] == '$' then "$" + Expand(s[2..], known, rune)
    else if s[1] != '(' then "$" + rune(s[1]) + Expand(s[2..], known, rune)
    else
      var i := IndexOfCloser(s, 2);
      if i == |s| then "$(" + Expand(s[2..], known, rune)
      else
        var name := s[2..i];
        (if name in known then known[name] else "$(" + name + ")") + Expand(s[i + 1..], known, rune)
  }

  /** Doubling every dollar sign makes a value literal, for every text and every environment. */
  lemma {:induction false} ExpandUndoesEscape(s: string, known: map<string, string>, rune: char -> string)
    ensures Expand(Escape(s), known, rune) == s
  {
    if s != "" {
      ExpandUndoesEscape(s[1..], known, rune);
      var e, rest := Escape(s), Escape(s[1..]);
      if s[0] == '$' {
        assert e[2..] == rest;
        assert Expand(e, known, rune) == "$" + Expand(rest, known, rune);
      } else {
        assert e[1..] == rest;
        assert Expand(e, known, rune) == [s[0]] + Expand(rest, known, rune);
      }
      assert s == [s[0]] + s[1..];
    }
  }

  // ---- the container's environment ----

  datatype Variable = Variable(name: string, value: string, secretKey: Option<string>)

  type Texts = map<string, string>

  function Lookup(m: Texts, name: string): string { if name in m then m[name] else "" }

  function VariableFor(name: string, env: Texts, secretEnv: Texts): Variable {
    Variable(name, Escape(Lookup(env, name)), if name in secretEnv then Some(secretEnv[name]) else None)
  }

  function Names(variables: seq<Variable>): seq<string> {
    seq(|variables|, i requires 0 <= i < |variables| => variables[i].name)
  }

  /** One variable for each name, in the order of the names. */
  ghost predicate Describes(variables: seq<Variable>, env: Texts, secretEnv: Texts) {
    && SortedBy(AtMost, Names(variables))
    && (env.Keys !! secretEnv.Keys ==> Distinct(Names(variables)))
    && (forall i :: 0 <= i < |variables| ==> variables[i] == VariableFor(variables[i].name, env, secretEnv))
    && (forall i :: 0 <= i < |variables| ==> variables[i].name in env || variables[i].name in secretEnv)
    && forall name :: name in env || name in secretEnv ==> name in Names(variables)
  }

  method KeysOf(m: Texts) returns (keys: seq<string>)
    ensures Distinct(keys) && forall k :: k in keys <==> k in m
  {
    keys := [];
    var todo := m.Keys;
    while todo != {}
      invariant todo <= m.Keys && Distinct(keys) && forall k :: k in keys <==> k in m && k !in todo
      decreases todo
    {
      var k :| k in todo;
      keys, todo := keys + [k], todo - {k};
    }
  }

  lemma DisjointIsDistinct(xs: seq<string>, ys: seq<string>)
    requires Distinct(xs) && Distinct(ys) && forall x :: x in xs ==> x !in ys
    ensures Distinct(xs + ys)
  {
    forall i, j | 0 <= i < j < |xs + ys| ensures (xs + ys)[i] != (xs + ys)[j] {
      if i < |xs| { assert xs[i] in xs; }
      if j >= |xs| { assert ys[j - |xs|] in ys; }
    }
  }

  /** The names of both kinds, sorted. */
  method SortedNames(env: Texts, secretEnv: Texts) returns (names: seq<string>)
    ensures SortedBy(AtMost, names) && forall name :: name in names <==> name in env || name in secretEnv
    ensures env.Keys !! secretEnv.Keys ==> Distinct(names)
  {
    var plain := KeysOf(env);
    var secret := KeysOf(secretEnv);
    names := SortBy(AtMost, plain + secret);
    AtMostSorts();
    SortByCorrect(AtMost, plain + secret);
    SameMultisetSameMembers(names, plain + secret);
    if env.Keys !! secretEnv.Keys {
      forall x | x in plain ensures x !in secret { assert x in env.Keys; }
      DisjointIsDistinct(plain, secret);
      SortKeepsDistinct(plain + secret);
    }
  }

  lemma VariablesDescribe(variables: seq<Variable>, names: seq<string>, env: Texts, secretEnv: Texts)
    requires |variables| == |names| && forall k :: 0 <= k < |names| ==> variables[k] == VariableFor(names[k], env, secretEnv)
    requires SortedBy(AtMost, names) && forall name :: name in names <==> name in env || name in secretEnv
    requires env.Keys !! secretEnv.Keys ==> Distinct(names)
    ensures Describes(variables, env, secretEnv)
  {
    assert Names(variables) == names;
    forall i | 0 <= i < |variables| ensures variables[i].name in env || variables[i].name in secretEnv {
      assert names[i] in names;
    }
  }

  method BenchmarkEnvironment(env: Texts, secretEnv: Texts) returns (variables: seq<Variable>)
    ensures Describes(variables, env, secretEnv)
  {
    var names := SortedNames(env, secretEnv);
    variables := VariablesFor(names, env, secretEnv);
    VariablesDescribe(variables, names, env, secretEnv);
  }

  method VariablesFor(names: seq<string>, env: Texts, secretEnv: Texts) returns (variables: seq<Variable>)
    ensures |variables| == |names| && forall k :: 0 <= k < |names| ==> variables[k] == VariableFor(names[k], env, secretEnv)
  {
    variables := [];
    for i := 0 to |names|
      invariant |variables| == i
      invariant forall k :: 0 <= k < i ==> variables[k] == VariableFor(names[k], env, secretEnv)
    {
      variables := variables + [VariableFor(names[i], env, secretEnv)];
    }
  }

  /** What one variable comes to: a value is expanded over what is known so far; without a value the
      Secret decides. */
  function ValueOf(v: Variable, known: Texts, secret: Texts, rune: char -> string): string {
    if v.value != "" then Expand(v.value, known, rune)
    else if v.secretKey.Some? then Lookup(secret, v.secretKey.value)
    else ""
  }

  /** The environment that the kubelet builds, on top of what the image sets. */
  function Started(variables: seq<Variable>, image: Texts, secret: Texts, rune: char -> string): Texts {
    if variables == [] then image
    else
      var last := variables[|variables| - 1];
      var known := Started(variables[..|variables| - 1], image, secret, rune);
      known[last.name := ValueOf(last, known, secret, rune)]
  }

  lemma ValueIsLiteral(name: string, env: Texts, secretEnv: Texts, known: Texts, secret: Texts, rune: char -> string)
    ensures var value := ValueOf(VariableFor(name, env, secretEnv), known, secret, rune);
            if Lookup(env, name) == "" && name in secretEnv then value == Lookup(secret, secretEnv[name])
            else value == Lookup(env, name)
  {
    ExpandUndoesEscape(Lookup(env, name), known, rune);
    if Lookup(env, name) != "" { assert Escape(Lookup(env, name)) != ""; }
  }

  /** What the runner should find under a name. */
  function Intended(name: string, env: Texts, secretEnv: Texts, secret: Texts): string {
    if Lookup(env, name) == "" && name in secretEnv then Lookup(secret, secretEnv[name]) else Lookup(env, name)
  }

  lemma NextArrives(known: Texts, name: string, env: Texts, secretEnv: Texts, secret: Texts, rune: char -> string, other: string)
    ensures var value := ValueOf(VariableFor(name, env, secretEnv), known, secret, rune);
            Lookup(known[name := value], other) == if other == name then Intended(name, env, secretEnv, secret) else Lookup(known, other)
  {
    ValueIsLiteral(name, env, secretEnv, known, secret, rune);
  }

  lemma {:induction false} PrefixArrives(variables: seq<Variable>, n: nat, i: nat, env: Texts, secretEnv: Texts,
                                         image: Texts, secret: Texts, rune: char -> string)
    requires i < n <= |variables| && Describes(variables, env, secretEnv)
    ensures Lookup(Started(variables[..n], image, secret, rune), variables[i].name) == Intended(variables[i].name, env, secretEnv, secret)
    decreases n
  {
    var known := Started(variables[..n - 1], image, secret, rune);
    var last := variables[n - 1];
    assert variables[..n][..n - 1] == variables[..n - 1];
    assert last == VariableFor(last.name, env, secretEnv);
    NextArrives(known, last.name, env, secretEnv, secret, rune, variables[i].name);
    if i < n - 1 { PrefixArrives(variables, n - 1, i, env, secretEnv, image, secret, rune); }
  }

  lemma NameArrives(variables: seq<Variable>, name: string, env: Texts, secretEnv: Texts, image: Texts, secret: Texts, rune: char -> string)
    requires Describes(variables, env, secretEnv) && (name in env || name in secretEnv)
    ensures Lookup(Started(variables, image, secret, rune), name) == Intended(name, env, secretEnv, secret)
  {
    assert variables[..|variables|] == variables;
    assert name in Names(variables);
    var i :| 0 <= i < |variables| && variables[i].name == name;
    PrefixArrives(variables, |variables|, i, env, secretEnv, image, secret, rune);
  }

  /** The runner sees every setting exactly as the driver gave it, and every secret as the Secret holds it,
      whatever dollar signs they contain and whatever else is set. */
  lemma EnvironmentArrives(variables: seq<Variable>, env: Texts, secretEnv: Texts, image: Texts, secret: Texts, rune: char -> string)
    requires Describes(variables, env, secretEnv) && env.Keys !! secretEnv.Keys
    ensures var runner := Started(variables, image, secret, rune);
            && (forall name :: name in env ==> Lookup(runner, name) == env[name])
            && (forall name :: name in secretEnv ==> Lookup(runner, name) == Lookup(secret, secretEnv[name]))
  {
    var runner := Started(variables, image, secret, rune);
    forall name | name in env ensures Lookup(runner, name) == env[name] {
      NameArrives(variables, name, env, secretEnv, image, secret, rune);
      assert name in env.Keys;
    }
    forall name | name in secretEnv ensures Lookup(runner, name) == Lookup(secret, secretEnv[name]) {
      NameArrives(variables, name, env, secretEnv, image, secret, rune);
      assert name in secretEnv.Keys;
    }
  }

  /** A variable that is not set for the container keeps what the image says. */
  lemma {:induction false} OthersAreTheImages(variables: seq<Variable>, name: string, image: Texts, secret: Texts, rune: char -> string)
    requires forall i :: 0 <= i < |variables| ==> variables[i].name != name
    ensures Lookup(Started(variables, image, secret, rune), name) == Lookup(image, name)
  {
    if variables != [] { OthersAreTheImages(variables[..|variables| - 1], name, image, secret, rune); }
  }

  // ---- numbers ----

  function Digit(n: nat): char
    requires n < 10
  {
    '0' + n as char
  }

  /** strconv.Itoa on what is not negative. */
  function Itoa(n: nat): (s: string)
    ensures s != ""
  {
    if n < 10 then [Digit(n)] else Itoa(n / 10) + [Digit(n % 10)]
  }

  lemma {:induction false} ItoaReads(n: nat)
    ensures AllDigits(Itoa(n)) && DecimalValue(Itoa(n)) == n
  {
    if n >= 10 {
      ItoaReads(n / 10);
      assert Itoa(n)[..|Itoa(n)| - 1] == Itoa(n / 10);
    } else {
      assert Itoa(n)[..0] == "";
    }
  }

  /** strconv.Atoi: an optional sign, digits, 64 bits. */
  function Atoi(s: string): Option<int> {
    var signed := s != "" && (s[0] == '-' || s[0] == '+');
    var digits := if signed then s[1..] else s;
    if digits == "" || !AllDigits(digits) then None
    else
      var n: int := if signed && s[0] == '-' then 0 - DecimalValue(digits) else DecimalValue(digits);
      if -0x8000_0000_0000_0000 <= n < 0x8000_0000_0000_0000 then Some(n) else None
  }

  const MAX_SETTING: nat := 2_147_483_647

  /** The range that every driver accepts for a number option. */
  predicate InRange(n: int) { 1 <= n <= MAX_SETTING }

  /** A row of the tables in loadConfig. */
  datatype Field = Field(name: string, fallback: nat, maximum: nat)

  /** The value of one number setting: the fallback when it is not set, None when it is not acceptable. */
  function Number(env: Texts, field: Field): Option<nat> {
    var text := Lookup(env, field.name);
    if text == "" then Some(field.fallback)
    else
      var n := ParseUint(text, TWO_31);
      if n.None? || n.value == 0 || n.value > field.maximum then None else n
  }

  /** Every accepted value comes back from its decimal form. */
  lemma NumberRoundTrip(env: Texts, field: Field, n: nat)
    requires 1 <= n <= field.maximum && field.maximum <= MAX_SETTING && Lookup(env, field.name) == Itoa(n)
    ensures Number(env, field) == Some(n)
  {
    ItoaReads(n);
  }

  /** The loop over the table: all values in order, or nothing as soon as one is not acceptable. */
  method ReadNumbers(env: Texts, fields: seq<Field>) returns (values: Option<seq<nat>>)
    ensures values.Some? <==> forall i :: 0 <= i < |fields| ==> Number(env, fields[i]).Some?
    ensures values.Some? ==>
              |values.value| == |fields| && forall i :: 0 <= i < |fields| ==> Number(env, fields[i]) == Some(values.value[i])
  {
    var read: seq<nat> := [];
    for k := 0 to |fields|
      invariant |read| == k && forall i :: 0 <= i < k ==> Number(env, fields[i]) == Some(read[i])
    {
      var text := Lookup(env, fields[k].name);
      if text == "" {
        read := read + [fields[k].fallback];
        continue;
      }
      var n := ParseUint(text, TWO_31);
      if n.None? || n.value == 0 || n.value > fields[k].maximum {
        assert Number(env, fields[k]).None?;
        return None;
      }
      read := read + [n.value];
    }
    return Some(read);
  }

  /** A variable that must not be blank. */
  predicate Present(env: Texts, name: string) { !Blank(Lookup(env, name)) }

  method AllPresent(env: Texts, names: seq<string>) returns (ok: bool)
    ensures ok <==> forall i :: 0 <= i < |names| ==> Present(env, names[i])
  {
    for i := 0 to |names|
      invariant forall k :: 0 <= k < i ==> Present(env, names[k])
    {
      if Blank(Lookup(env, names[i])) { return false; }
    }
    return true;
  }

  function FormatBool(b: bool): string { if b then "true" else "false" }

  /** BENCH_INITIALIZE: unset means false, None when it is neither word. */
  function Flag(text: string): Option<bool> {
    if text == "" || text == "false" then Some(false) else if text == "true" then Some(true) else None
  }
}
