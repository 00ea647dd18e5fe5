/** Connection values in the sysbench configuration file: the backend's check
    (validateConnectionValue in backend/internal/driver/sysbench/connection.go) and the runner's writer
    (connectionConfig in runners/sysbench/credentials.go). */
module SysbenchConnection {
  import opened GoText
  import opened Lines

  const LINE_LIMIT: nat := 254

  predicate Forbidden(c: char) { c == '\U{0}' || c == '\r' || c == '\n' }

  predicate OneLine(s: string) { forall i :: 0 <= i < |s| ==> !Forbidden(s[i]) }

  /** strings.ContainsFunc(s, unicode.IsSpace): the first byte of a white-space character is never part of
      another character. */
  predicate AnySpace(s: string) { exists i :: 0 <= i <= |s| && LeadingSpace(s[i..]) > 0 }

  /** A value with both kinds of quotes that sysbench could not read without quotes. */
  predicate NeedsQuotes(value: string) {
    ',' in value || AnySpace(value) || (value != "" && value[0] in "'\"#")
  }

  // ---- the backend's check ----

  predicate ValidConnectionValue(option: string, value: string) {
    if !OneLine(value) then false
    else
      var both := '\'' in value && '"' in value;
      if both && NeedsQuotes(value) then false
      else |option| + 1 + |value| + (if both then 0 else 2) + 1 <= LINE_LIMIT
  }

  // ---- the runner's writer ----

  function Quoted(value: string): Option<string> {
    if '\'' !in value then Some("'" + value + "'")
    else if '"' !in value then Some("\"" + value + "\"")
    else if NeedsQuotes(value) then None
    else Some(value)
  }

  /** One line with its newline, None when the writer refuses. */
  function LineOf(option: string, value: string): Option<string> {
    if !OneLine(value) || Quoted(value).None? then None
    else
      var line := option + "=" + Quoted(value).value + "\n";
      if |line| > LINE_LIMIT then None else Some(line)
  }

  datatype Setting = Setting(option: string, value: string)

  method ConnectionConfig(fields: seq<Setting>) returns (data: Option<string>)
    ensures data.Some? <==> Writable(fields)
    ensures data.Some? ==> data.value == FileOf(fields)
  {
    var text := "";
    for i := 0 to |fields|
      invariant Writable(fields[..i]) && text == FileOf(fields[..i])
    {
      assert fields[..i + 1][..i] == fields[..i];
      var value := fields[i].value;
      if !OneLine(value) { NotWritable(fields, i); return None; }
      var quoted;
      if '\'' !in value {
        quoted := "'" + value + "'";
      } else if '"' !in value {
        quoted := "\"" + value + "\"";
      } else if ',' in value || AnySpace(value) || value[0] in "'\"#" {
        NotWritable(fields, i);
        return None;
      } else {
        quoted := value;
      }
      var line := fields[i].option + "=" + quoted + "\n";
      if |line| > LINE_LIMIT { NotWritable(fields, i); return None; }
      text := text + line;
    }
    assert fields[..|fields|] == fields;
    return Some(text);
  }

  lemma NotWritable(fields: seq<Setting>, i: nat)
    requires i < |fields| && LineOf(fields[i].option, fields[i].value).None?
    ensures !Writable(fields)
  {
  }

  predicate Writable(fields: seq<Setting>) {
    forall i :: 0 <= i < |fields| ==> LineOf(fields[i].option, fields[i].value).Some?
  }

  function FileOf(fields: seq<Setting>): string
    requires Writable(fields)
  {
    if fields == [] then ""
    else
      var last := fields[|fields| - 1];
      FileOf(fields[..|fields| - 1]) + LineOf(last.option, last.value).value
  }

  /** The backend accepts a value exactly when the runner can write it. */
  lemma CheckMatchesWriter(option: string, value: string)
    ensures ValidConnectionValue(option, value) <==> LineOf(option, value).Some?
  {
  }

  // ---- reading the file back ----

  function IndexOf(s: string, c: char): (i: nat)
    ensures i <= |s| && c !in s[..i] && (i < |s| ==> s[i] == c)
  {
    if s == "" || s[0] == c then 0 else 1 + IndexOf(s[1..], c)
  }

  /** A reader without escapes: a quoted value ends at the next quote of its kind, which must end the
      line; a value that begins otherwise is taken as it is. */
  function ReadValue(rest: string): Option<string> {
    if rest != "" && rest[0] in "'\"" then
      var end := IndexOf(rest[1..], rest[0]);
      if 1 + end == |rest| - 1 then Some(rest[1..1 + end]) else None
    else Some(rest)
  }

  /** The option ends at the first '='. */
  function ReadLine(line: string): Option<Setting> {
    var eq := IndexOf(line, '=');
    if eq == |line| || ReadValue(line[eq + 1..]).None? then None
    else Some(Setting(line[..eq], ReadValue(line[eq + 1..]).value))
  }

  lemma {:induction false} IndexOfFirst(a: string, c: char, b: string)
    requires c !in a
    ensures IndexOf(a + [c] + b, c) == |a|
  {
    var s := a + [c] + b;
    if a != "" {
      IndexOfFirst(a[1..], c, b);
      assert s[1..] == a[1..] + [c] + b;
      assert s[0] == a[0] && a[0] in a;
    }
  }

  lemma EnclosedReadsBack(value: string, quote: char)
    requires quote in "'\"" && quote !in value
    ensures ReadValue([quote] + value + [quote]) == Some(value)
  {
    var rest := [quote] + value + [quote];
    IndexOfFirst(value, quote, "");
    assert rest[1..] == value + [quote] + "";
    assert rest[1..1 + |value|] == value;
  }

  lemma QuotedReadsBack(value: string)
    requires Quoted(value).Some?
    ensures ReadValue(Quoted(value).value) == Some(value)
  {
    if '\'' !in value {
      EnclosedReadsBack(value, '\'');
    } else if '"' !in value {
      EnclosedReadsBack(value, '"');
    }
  }

  /** A written line gives its option and its value back. */
  lemma LineReadsBack(option: string, value: string)
    requires '=' !in option && LineOf(option, value).Some?
    ensures var line := LineOf(option, value).value;
            ReadLine(line[..|line| - 1]) == Some(Setting(option, value))
  {
    var rest := Quoted(value).value;
    var line := option + "=" + rest;
    assert LineOf(option, value).value == line + "\n";
    IndexOfFirst(option, '=', rest);
    assert line[..|option|] == option && line[|option| + 1..] == rest;
    QuotedReadsBack(value);
  }

  function LinesOf(fields: seq<Setting>): seq<string>
    requires Writable(fields)
  {
    seq(|fields|, i requires 0 <= i < |fields| =>
      var line := LineOf(fields[i].option, fields[i].value).value;
      line[..|line| - 1])
  }

  lemma {:induction false} FileIsLines(fields: seq<Setting>)
    requires Writable(fields)
    ensures FileOf(fields) == JoinLines(LinesOf(fields))
  {
    if fields != [] {
      var front, last := fields[..|fields| - 1], fields[|fields| - 1];
      FileIsLines(front);
      var lines := LinesOf(fields);
      assert lines[..|lines| - 1] == LinesOf(front);
      var line := LineOf(last.option, last.value).value;
      assert line == line[..|line| - 1] + "\n";
    }
  }

  /** An option name that does not disturb the format. */
  predicate Plain(option: string) { OneLine(option) && '=' !in option }

  lemma LineHasNoBreak(option: string, value: string)
    requires OneLine(option) && LineOf(option, value).Some?
    ensures var line := LineOf(option, value).value; '\n' !in line[..|line| - 1]
  {
  }

  /** The file splits into one line for each setting, and each line gives its setting back unchanged. */
  lemma FileReadsBack(fields: seq<Setting>)
    requires Writable(fields) && forall i :: 0 <= i < |fields| ==> Plain(fields[i].option)
    ensures CompleteLines(FileOf(fields)) == LinesOf(fields) && OpenLine(FileOf(fields)) == ""
    ensures forall i :: 0 <= i < |fields| ==> ReadLine(LinesOf(fields)[i]) == Some(fields[i])
  {
    var lines := LinesOf(fields);
    FileIsLines(fields);
    forall line | line in lines ensures '\n' !in line {
      var i :| 0 <= i < |lines| && lines[i] == line;
      LineHasNoBreak(fields[i].option, fields[i].value);
    }
    SplitIsUnique(lines, "");
    assert JoinLines(lines) + "" == FileOf(fields);
    forall i | 0 <= i < |fields| ensures ReadLine(lines[i]) == Some(fields[i]) {
      LineReadsBack(fields[i].option, fields[i].value);
    }
  }
}
