/** What one go-ycsb phase must show in its output (runners/go-ycsb/output.go).

    Pure definitions: which lines are looked at, what a line says, and the verdict on two
    complete streams.  PhaseOutput.dfy proves that the streaming code computes this. */
module PhaseObservations {
  import opened GoText
  import opened Lines
  import opened Redaction

  const MAX_LINE: nat := 65536

  predicate Oversized(line: string) { |line| > MAX_LINE }

  // ---- regular expressions, as recognizers ----

  /** \s of Go's regexp package. */
  predicate PatternSpace(c: char) {
    c == ' ' || c == '\t' || c == '\n' || c == '\U{0C}' || c == '\r'
  }

  predicate OperationLetter(c: char) { 'A' <= c <= 'Z' || c == '_' }

  function LetterRun(s: string): (n: nat)
    ensures n <= |s|
  {
    if s != "" && OperationLetter(s[0]) then 1 + LetterRun(s[1..]) else 0
  }

  function SpaceRun(s: string): (n: nat)
    ensures n <= |s|
  {
    if s != "" && PatternSpace(s[0]) then 1 + SpaceRun(s[1..]) else 0
  }

  function DigitRun(s: string): (n: nat)
    ensures n <= |s| && AllDigits(s[..n])
  {
    if s != "" && IsDigit(s[0]) then
      var n := DigitRun(s[1..]);
      assert s[..n + 1] == [s[0]] + s[1..][..n];
      n + 1
    else 0
  }

  /** ^([A-Z_]+)\s+-  : the operation name that a summary line begins with. */
  function Operation(line: string): Option<string> {
    var n := LetterRun(line);
    var m := SpaceRun(line[n..]);
    if n > 0 && m > 0 && n + m < |line| && line[n + m] == '-' then Some(line[..n]) else None
  }

  /** Count:\s*([0-9]+)(?:,|$)  read at the start of s. */
  function CountHere(s: string): Option<string> {
    if "Count:" <= s then
      var value := s[6..];
      var digits := value[SpaceRun(value)..];
      var n := DigitRun(digits);
      if n > 0 && (n == |digits| || digits[n] == ',') then Some(digits[..n]) else None
    else None
  }

  /** ,\s*Count:\s*([0-9]+)(?:,|$)  at the leftmost place where it matches. */
  function CountAfterComma(s: string): Option<string> {
    if s == "" then None
    else if s[0] == ',' && CountHere(s[1..][SpaceRun(s[1..])..]).Some?
    then CountHere(s[1..][SpaceRun(s[1..])..])
    else CountAfterComma(s[1..])
  }

  /** The count of a summary line, if the line has one and it fits in 64 bits. */
  function CountOf(line: string): Option<nat> {
    var digits := if CountHere(line).Some? then CountHere(line) else CountAfterComma(line);
    if digits.None? then None else ParseUint(digits.value, TWO_64)
  }

  predicate FinishLine(line: string) { "Run finished, takes " <= line }

  predicate ErrorLine(line: string) {
    Operation(line).Some? && HasSuffix(Operation(line).value, "_ERROR")
  }

  predicate InsertLine(line: string) {
    Operation(line) == Some("INSERT")
  }

  lemma FinishLineIsNoSummary(line: string)
    ensures FinishLine(line) ==> Operation(line).None?
    ensures !(ErrorLine(line) && InsertLine(line))
  {
    if FinishLine(line) {
      assert line[0] == 'R' && line[1] == 'u';
      assert LetterRun(line[1..]) == 0;
      assert SpaceRun(line[1..]) == 0;
    }
    if InsertLine(line) {
      assert !HasSuffix("INSERT", "_ERROR") by { assert "INSERT"[0] != "_ERROR"[0]; }
    }
  }

  // ---- banners ----

  predicate BannerStart(trimmed: string) { "***" <= trimmed && Contains(trimmed, "properties") }

  predicate BannerEnd(trimmed: string) { trimmed != "" && forall i :: 0 <= i < |trimmed| ==> trimmed[i] == '*' }

  function Unreturned(line: string): string { TrimSuffix(line, "\r") }

  /** Is the reader inside a properties banner after these lines?  Oversized lines are not looked at. */
  predicate InBanner(lines: seq<string>) {
    lines != [] &&
    var last := lines[|lines| - 1];
    var before := InBanner(lines[..|lines| - 1]);
    if Oversized(last) then before
    else
      var trimmed := TrimSpace(Unreturned(last));
      BannerStart(trimmed) || (before && !BannerEnd(trimmed))
  }

  /** Does this line, coming after the given ones, belong to the log proper? */
  predicate Shown(before: seq<string>, line: string) {
    !Oversized(line) && !BannerStart(TrimSpace(Unreturned(line))) && !InBanner(before)
  }

  /** The lines outside banners, without oversized ones. */
  function ShownLines(lines: seq<string>): seq<string> {
    if lines == [] then []
    else
      var before, line := lines[..|lines| - 1], lines[|lines| - 1];
      if Shown(before, line) then ShownLines(before) + [Unreturned(line)] else ShownLines(before)
  }

  function Trimmed(lines: seq<string>): seq<string> {
    if lines == [] then [] else Trimmed(lines[..|lines| - 1]) + [TrimSpace(lines[|lines| - 1])]
  }

  /** What the verdict is based on: the trimmed lines outside banners. */
  function Observed(lines: seq<string>): seq<string> {
    Trimmed(ShownLines(lines))
  }

  predicate AnyOversized(lines: seq<string>) {
    exists i :: 0 <= i < |lines| && Oversized(lines[i])
  }

  // ---- sanitized forwarding ----

  predicate UriByte(c: char) { !PatternSpace(c) && c != '"' && c != '\'' }

  function UriRun(s: string): (n: nat)
    ensures n <= |s|
  {
    if s != "" && UriByte(s[0]) then 1 + UriRun(s[1..]) else 0
  }

  function UriPrefix(s: string): (n: nat)
    ensures n <= |s|
  {
    if "mongodb://" <= s then 10 else if "mongodb+srv://" <= s then 14 else 0
  }

  /** mongodb(?:\+srv)?://[^\s"']+  replaced throughout by [REDACTED URI]. */
  function HideUris(s: string): string
    decreases |s|
  {
    if s == "" then ""
    else
      var n := UriPrefix(s);
      var m := UriRun(s[n..]);
      if n > 0 && m > 0 then "[REDACTED URI]" + HideUris(s[n + m..])
      else [s[0]] + HideUris(s[1..])
  }

  function Sanitized(secrets: seq<string>, line: string): string {
    HideUris(Replace(secrets, line))
  }

  function Forwarded(secrets: seq<string>, shown: seq<string>): string {
    if shown == [] then ""
    else Forwarded(secrets, shown[..|shown| - 1]) + Sanitized(secrets, shown[|shown| - 1]) + "\n"
  }

  // ---- what the observed lines say, and how they are tallied one by one ----

  /** What one observed line is to the verdict. */
  datatype Kind = Finish | Error(errors: Option<nat>) | Insert(inserted: Option<nat>) | Other

  function KindOf(stdout: bool, line: string): Kind {
    if stdout && FinishLine(line) then Finish
    else if ErrorLine(line) then Error(CountOf(line))
    else if stdout && InsertLine(line) then Insert(CountOf(line))
    else Other
  }

  function Kinds(stdout: bool, observed: seq<string>): seq<Kind> {
    if observed == [] then []
    else Kinds(stdout, observed[..|observed| - 1]) + [KindOf(stdout, observed[|observed| - 1])]
  }

  /** What a stream says: the kinds of its lines outside banners. */
  function Said(stdout: bool, lines: seq<string>): seq<Kind> {
    Kinds(stdout, Observed(lines))
  }

  datatype Tally = Tally(failed: bool, invalid: bool, finished: bool, haveInsert: bool, insertCount: nat)

  function Count(load: bool, t: Tally, kind: Kind): Tally {
    match kind
    case Finish => t.(invalid := t.invalid || t.finished, finished := true)
    case Error(None) => t.(invalid := true)
    case Error(Some(n)) => t.(failed := t.failed || n > 0)
    case Insert(n) =>
      if !load || !t.finished then t
      else if n.None? then t.(invalid := true)
      else t.(invalid := t.invalid || t.haveInsert, haveInsert := true, insertCount := n.value)
    case Other => t
  }

  function TallyOf(load: bool, said: seq<Kind>): Tally {
    if said == [] then Tally(false, false, false, false, 0)
    else Count(load, TallyOf(load, said[..|said| - 1]), said[|said| - 1])
  }

  // ---- the verdict, declaratively ----

  /** Is there a finish line among the first k? */
  predicate FinishedBefore(v: seq<Kind>, k: nat) {
    exists f :: 0 <= f < k <= |v| && v[f].Finish?
  }

  /** An INSERT summary that counts: after the finish line. */
  predicate FinalInsert(v: seq<Kind>, k: nat) {
    k < |v| && v[k].Insert? && FinishedBefore(v, k)
  }

  ghost predicate HasFailedOperation(v: seq<Kind>) {
    exists i :: 0 <= i < |v| && v[i].Error? && v[i].errors.Some? && v[i].errors.value > 0
  }

  ghost predicate HasUnreadableError(v: seq<Kind>) {
    exists i :: 0 <= i < |v| && v[i] == Error(None)
  }

  ghost predicate HasTwoFinishes(v: seq<Kind>) {
    exists i, j :: 0 <= i < j < |v| && v[i].Finish? && v[j].Finish?
  }

  ghost predicate HasInsert(v: seq<Kind>) {
    exists i :: 0 <= i < |v| && FinalInsert(v, i)
  }

  ghost predicate HasUnreadableInsert(v: seq<Kind>) {
    exists i :: 0 <= i < |v| && FinalInsert(v, i) && v[i] == Insert(None)
  }

  ghost predicate HasTwoInserts(v: seq<Kind>) {
    exists i, j :: 0 <= i < j < |v| && FinalInsert(v, i) && FinalInsert(v, j)
  }

  ghost predicate Contradictory(load: bool, v: seq<Kind>) {
    || HasUnreadableError(v)
    || HasTwoFinishes(v)
    || (load && (HasUnreadableInsert(v) || HasTwoInserts(v)))
  }

  /** Exactly one finish line, and after it exactly one INSERT summary, with the expected count. */
  ghost predicate ConfirmsLoad(v: seq<Kind>, expected: nat) {
    exists f, k ::
      && 0 <= f < k < |v|
      && v[f].Finish? && v[k] == Insert(Some(expected))
      && (forall i :: 0 <= i < |v| && v[i].Finish? ==> i == f)
      && (forall i :: f < i < |v| && v[i].Insert? ==> i == k)
  }

  /** Every error line reports, readably, zero operations. */
  ghost predicate CleanErrors(v: seq<Kind>) {
    forall i :: 0 <= i < |v| && v[i].Error? ==> v[i].errors == Some(0)
  }

  datatype Verdict = Passed | ForwardingFailed | OperationsFailed | Unverifiable | LoadUnconfirmed

  /** The verdict on two complete streams. */
  ghost function VerdictOf(load: bool, expected: nat, out: string, err: string): Verdict {
    var o, e := Said(true, AllLines(out)), Said(false, AllLines(err));
    if HasFailedOperation(o) || HasFailedOperation(e) then OperationsFailed
    else if Contradictory(load, o) || Contradictory(load, e)
            || AnyOversized(AllLines(out)) || AnyOversized(AllLines(err)) then Unverifiable
    else if load && !ConfirmsLoad(o, expected) then LoadUnconfirmed
    else Passed
  }

  // ---- the tally says exactly that ----

  lemma FinalInsertAppend(v: seq<Kind>, kind: Kind)
    ensures forall i :: 0 <= i < |v| ==> FinalInsert(v + [kind], i) == FinalInsert(v, i)
    ensures FinalInsert(v + [kind], |v|) <==> kind.Insert? && FinishedBefore(v, |v|)
  {
    var w := v + [kind];
    forall k | 0 <= k <= |v| ensures FinishedBefore(w, k) == FinishedBefore(v, k) {
      if FinishedBefore(w, k) {
        var f :| 0 <= f < k <= |w| && w[f].Finish?;
        assert v[f].Finish?;
      }
      if FinishedBefore(v, k) {
        var f :| 0 <= f < k <= |v| && v[f].Finish?;
        assert w[f].Finish?;
      }
    }
  }

  lemma ExistsAppend(v: seq<Kind>, kind: Kind)
    ensures HasFailedOperation(v + [kind]) <==>
            HasFailedOperation(v) || (kind.Error? && kind.errors.Some? && kind.errors.value > 0)
    ensures HasUnreadableError(v + [kind]) <==> HasUnreadableError(v) || kind == Error(None)
    ensures HasTwoFinishes(v + [kind]) <==> HasTwoFinishes(v) || (FinishedBefore(v, |v|) && kind.Finish?)
    ensures FinishedBefore(v + [kind], |v| + 1) <==> FinishedBefore(v, |v|) || kind.Finish?
  {
    var w := v + [kind];
    assert w[|v|] == kind;
    assert forall i :: 0 <= i < |v| ==> w[i] == v[i];
  }

  lemma InsertsAppend(v: seq<Kind>, kind: Kind)
    ensures var now := kind.Insert? && FinishedBefore(v, |v|);
            && (HasInsert(v + [kind]) <==> HasInsert(v) || now)
            && (HasUnreadableInsert(v + [kind]) <==> HasUnreadableInsert(v) || (now && kind == Insert(None)))
            && (HasTwoInserts(v + [kind]) <==> HasTwoInserts(v) || (now && HasInsert(v)))
  {
    var w := v + [kind];
    FinalInsertAppend(v, kind);
    assert w[|v|] == kind;
    assert forall i :: 0 <= i < |v| ==> w[i] == v[i];
  }

  lemma {:induction false} TallyMeaning(load: bool, v: seq<Kind>)
    ensures var t := TallyOf(load, v);
            && (t.failed <==> HasFailedOperation(v))
            && (t.invalid <==> Contradictory(load, v))
            && (t.finished <==> FinishedBefore(v, |v|))
            && (t.haveInsert ==> load && HasInsert(v))
            && (load && HasInsert(v) ==> t.haveInsert || HasUnreadableInsert(v))
  {
    if v != [] {
      var front, kind := v[..|v| - 1], v[|v| - 1];
      assert v == front + [kind];
      TallyMeaning(load, front);
      ExistsAppend(front, kind);
      InsertsAppend(front, kind);
    }
  }

  /** The recorded count is that of a final INSERT summary. */
  lemma {:induction false} CountIsRead(load: bool, v: seq<Kind>)
    ensures var t := TallyOf(load, v);
            t.haveInsert ==> exists k :: 0 <= k < |v| && FinalInsert(v, k) && v[k] == Insert(Some(t.insertCount))
  {
    if v != [] {
      var front, kind := v[..|v| - 1], v[|v| - 1];
      assert v == front + [kind];
      CountIsRead(load, front);
      FinalInsertAppend(front, kind);
      TallyMeaning(load, front);
      var t, u := TallyOf(load, front), TallyOf(load, v);
      if (u.haveInsert, u.insertCount) != (t.haveInsert, t.insertCount) {
        assert FinalInsert(v, |front|) && v[|front|] == Insert(Some(u.insertCount));
      } else if t.haveInsert {
        var k :| 0 <= k < |front| && FinalInsert(front, k) && front[k] == Insert(Some(t.insertCount));
        assert FinalInsert(v, k) && v[k] == front[k];
      }
    }
  }

  /** A tally without objections is a load confirmation exactly when its count is the expected one. */
  lemma ConfirmationIsCounted(v: seq<Kind>, expected: nat)
    requires !Contradictory(true, v)
    ensures var t := TallyOf(true, v);
            ConfirmsLoad(v, expected) <==> t.finished && t.haveInsert && t.insertCount == expected
  {
    TallyMeaning(true, v);
    CountIsRead(true, v);
    var t := TallyOf(true, v);
    if ConfirmsLoad(v, expected) { ConfirmedInsert(v, expected, t.insertCount); }
    if t.finished && t.haveInsert && t.insertCount == expected { InsertConfirms(v, expected); }
  }

  lemma ConfirmedInsert(v: seq<Kind>, expected: nat, count: nat)
    requires ConfirmsLoad(v, expected)
    ensures HasInsert(v) && FinishedBefore(v, |v|)
    ensures forall k :: 0 <= k < |v| && FinalInsert(v, k) && v[k] == Insert(Some(count)) ==> count == expected
    ensures !HasTwoFinishes(v) && !HasUnreadableInsert(v) && !HasTwoInserts(v)
  {
    var f, k :| 0 <= f < k < |v| && v[f].Finish? && v[k] == Insert(Some(expected))
      && (forall i :: 0 <= i < |v| && v[i].Finish? ==> i == f)
      && (forall i :: f < i < |v| && v[i].Insert? ==> i == k);
    assert FinishedBefore(v, k);
    assert FinalInsert(v, k);
    forall i | 0 <= i < |v| && FinalInsert(v, i) ensures i == k {
      var g :| 0 <= g < i <= |v| && v[g].Finish?;
    }
  }

  lemma InsertConfirms(v: seq<Kind>, expected: nat)
    requires !HasTwoFinishes(v) && !HasTwoInserts(v)
    requires exists k :: 0 <= k < |v| && FinalInsert(v, k) && v[k] == Insert(Some(expected))
    ensures ConfirmsLoad(v, expected)
  {
    var k :| 0 <= k < |v| && FinalInsert(v, k) && v[k] == Insert(Some(expected));
    var f :| 0 <= f < k <= |v| && v[f].Finish?;
    forall i | 0 <= i < |v| && v[i].Finish? ensures i == f {
      assert i < f ==> HasTwoFinishes(v);
      assert f < i ==> HasTwoFinishes(v);
    }
    forall i | f < i < |v| && v[i].Insert? ensures i == k {
      assert FinishedBefore(v, i);
      assert FinalInsert(v, i);
      assert i < k ==> HasTwoInserts(v);
      assert k < i ==> HasTwoInserts(v);
    }
  }

  /** A load is accepted exactly when stdout confirms it, no error line on either stream objects and
      no line was too long to read. */
  lemma LoadAcceptedExactly(expected: nat, out: string, err: string)
    ensures var o, e := Said(true, AllLines(out)), Said(false, AllLines(err));
            VerdictOf(true, expected, out, err) == Passed <==>
              && ConfirmsLoad(o, expected) && CleanErrors(o) && CleanErrors(e)
              && !AnyOversized(AllLines(out)) && !AnyOversized(AllLines(err))
  {
    var o, e := Said(true, AllLines(out)), Said(false, AllLines(err));
    if ConfirmsLoad(o, expected) { ConfirmedInsert(o, expected, expected); }
    StderrSaysNoMore(Observed(AllLines(err)));
    CleanErrorsExactly(o);
    CleanErrorsExactly(e);
    OnlyErrorsMatter(e);
  }

  lemma CleanErrorsExactly(v: seq<Kind>)
    ensures CleanErrors(v) <==> !HasFailedOperation(v) && !HasUnreadableError(v)
  {
  }

  lemma OnlyErrorsMatter(v: seq<Kind>)
    requires forall i :: 0 <= i < |v| ==> v[i].Error? || v[i].Other?
    ensures !HasTwoFinishes(v) && !HasUnreadableInsert(v) && !HasTwoInserts(v)
  {
  }

  /** On stderr only error lines matter. */
  lemma {:induction false} StderrSaysNoMore(observed: seq<string>)
    ensures forall i :: 0 <= i < |Kinds(false, observed)| ==>
              Kinds(false, observed)[i].Error? || Kinds(false, observed)[i].Other?
  {
    if observed != [] { StderrSaysNoMore(observed[..|observed| - 1]); }
  }
}
