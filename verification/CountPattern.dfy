/** The count pattern of the go-ycsb runner (countPattern in runners/go-ycsb/output.go), as what it matches
    rather than how it is searched for. */
module CountPattern {
  import opened GoText
  import opened PhaseObservations

  predicate PatternSpaces(s: string) { forall i :: 0 <= i < |s| ==> PatternSpace(s[i]) }

  /** "Count:", spaces, digits, and then the end or a comma. */
  predicate CountParts(s: string, spaces: string, digits: string, rest: string) {
    && s == "Count:" + (spaces + (digits + rest)) && PatternSpaces(spaces)
    && digits != "" && AllDigits(digits) && (rest == "" || rest[0] == ',')
  }

  ghost predicate CountText(s: string, digits: string) {
    exists spaces, rest :: CountParts(s, spaces, digits, rest)
  }

  /** Spaces, and then a count. */
  ghost predicate SpacedCount(s: string, digits: string) {
    exists spaces, tail :: s == spaces + tail && PatternSpaces(spaces) && CountText(tail, digits)
  }

  /** The pattern matches at position i: at the beginning of the line, or at a comma. */
  ghost predicate CountMatch(line: string, i: nat, digits: string) {
    (i == 0 && CountText(line, digits)) || (i < |line| && line[i] == ',' && SpacedCount(line[i + 1..], digits))
  }

  // ---- runs ----

  lemma {:induction false} SpacesRun(spaces: string, rest: string)
    requires PatternSpaces(spaces) && (rest == "" || !PatternSpace(rest[0]))
    ensures SpaceRun(spaces + rest) == |spaces|
  {
    var s := spaces + rest;
    if spaces != "" {
      SpacesRun(spaces[1..], rest);
      assert s[1..] == spaces[1..] + rest;
    }
  }

  lemma {:induction false} RunIsSpaces(s: string)
    ensures PatternSpaces(s[..SpaceRun(s)])
  {
    if s != "" && PatternSpace(s[0]) {
      RunIsSpaces(s[1..]);
      assert s[..SpaceRun(s)] == [s[0]] + s[1..][..SpaceRun(s[1..])];
    }
  }

  lemma {:induction false} DigitsRun(digits: string, rest: string)
    requires AllDigits(digits) && (rest == "" || !IsDigit(rest[0]))
    ensures DigitRun(digits + rest) == |digits|
  {
    var s := digits + rest;
    if digits != "" {
      DigitsRun(digits[1..], rest);
      assert s[1..] == digits[1..] + rest;
    }
  }

  // ---- at one place ----

  lemma PartsAreRead(s: string, spaces: string, digits: string, rest: string)
    requires CountParts(s, spaces, digits, rest)
    ensures CountHere(s) == Some(digits)
  {
    var value := spaces + (digits + rest);
    assert s[6..] == value;
    SpacesRun(spaces, digits + rest);
    assert value[|spaces|..] == digits + rest;
    DigitsRun(digits, rest);
    assert (digits + rest)[..|digits|] == digits;
  }

  lemma ReadHasParts(s: string)
    requires CountHere(s).Some?
    ensures CountText(s, CountHere(s).value)
  {
    var value := s[6..];
    var m := SpaceRun(value);
    var text := value[m..];
    var n := DigitRun(text);
    RunIsSpaces(value);
    Divided("Count:", s, m, n);
    assert CountParts(s, value[..m], text[..n], text[n..]);
  }

  lemma Divided(prefix: string, s: string, m: nat, n: nat)
    requires prefix <= s && m + n <= |s| - |prefix|
    ensures var value := s[|prefix|..];
            s == prefix + (value[..m] + (value[m..][..n] + value[m..][n..]))
  {
    var text := s[|prefix|..][m..];
    assert text == text[..n] + text[n..];
  }

  lemma CountHereMeans(s: string, digits: string)
    ensures CountHere(s) == Some(digits) <==> CountText(s, digits)
  {
    if CountHere(s).Some? { ReadHasParts(s); }
    if CountText(s, digits) {
      var spaces, rest :| CountParts(s, spaces, digits, rest);
      PartsAreRead(s, spaces, digits, rest);
    }
  }

  lemma SpacedCountMeans(s: string, digits: string)
    ensures CountHere(s[SpaceRun(s)..]) == Some(digits) <==> SpacedCount(s, digits)
  {
    CountHereMeans(s[SpaceRun(s)..], digits);
    if CountText(s[SpaceRun(s)..], digits) { TheRunIsSpaces(s, digits); }
    if SpacedCount(s, digits) { SpacesAreTheRun(s, digits); }
  }

  lemma TheRunIsSpaces(s: string, digits: string)
    requires CountText(s[SpaceRun(s)..], digits)
    ensures SpacedCount(s, digits)
  {
    RunIsSpaces(s);
    assert s == s[..SpaceRun(s)] + s[SpaceRun(s)..];
  }

  lemma SpacesAreTheRun(s: string, digits: string)
    requires SpacedCount(s, digits)
    ensures CountText(s[SpaceRun(s)..], digits)
  {
    var spaces, tail :| s == spaces + tail && PatternSpaces(spaces) && CountText(tail, digits);
    TextBegins(tail, digits);
    SpacesRun(spaces, tail);
    assert s[|spaces|..] == tail;
  }

  lemma TextBegins(s: string, digits: string)
    requires CountText(s, digits)
    ensures s != "" && s[0] == 'C'
  {
    var spaces, rest :| CountParts(s, spaces, digits, rest);
    assert s[0] == "Count:"[0];
  }

  // ---- over the line ----

  /** What the search tries at a comma. */
  function TriedAt(s: string, i: nat): Option<string> {
    if i < |s| && s[i] == ',' then CountHere(s[i + 1..][SpaceRun(s[i + 1..])..]) else None
  }

  lemma TriedNext(s: string, i: nat)
    requires i < |s|
    ensures CountAfterComma(s[i..]) == if TriedAt(s, i).Some? then TriedAt(s, i) else CountAfterComma(s[i + 1..])
  {
    assert s[i..][1..] == s[i + 1..];
  }

  /** The first place from i on where the search succeeds, or the end. */
  lemma {:induction false} FirstTried(s: string, i: nat) returns (k: nat)
    requires i <= |s|
    ensures i <= k <= |s| && TriedAt(s, k) == CountAfterComma(s[i..])
    ensures forall j :: i <= j < k ==> TriedAt(s, j) == None
    ensures TriedAt(s, k).None? ==> k == |s|
    decreases |s| - i
  {
    if i == |s| { return i; }
    TriedNext(s, i);
    if TriedAt(s, i).Some? { return i; }
    k := FirstTried(s, i + 1);
  }

  lemma MatchIsTried(line: string, i: nat, digits: string)
    ensures CountMatch(line, i, digits) <==> (i == 0 && CountHere(line) == Some(digits)) || TriedAt(line, i) == Some(digits)
  {
    CountHereMeans(line, digits);
    if i < |line| { SpacedCountMeans(line[i + 1..], digits); }
  }

  /** What the pattern captures in a line. */
  function CountDigits(line: string): Option<string> {
    if CountHere(line).Some? then CountHere(line) else CountAfterComma(line)
  }

  lemma NoMatch(line: string)
    requires CountDigits(line).None?
    ensures forall j, d :: !CountMatch(line, j, d)
  {
    var last := FirstTried(line, 0);
    assert line[0..] == line;
    forall j, d ensures !CountMatch(line, j, d) { if 0 <= j <= last { MatchIsTried(line, j, d); } }
  }

  lemma LeftmostMatch(line: string) returns (i: nat)
    requires CountDigits(line).Some?
    ensures CountMatch(line, i, CountDigits(line).value)
    ensures forall j, d :: CountMatch(line, j, d) ==> i < j || (i == j && d == CountDigits(line).value)
  {
    i := FirstTried(line, 0);
    assert line[0..] == line;
    if CountHere(line).Some? {
      CountHereMeans(line, CountHere(line).value);
      TextBegins(line, CountHere(line).value);
      i := 0;
    }
    MatchIsTried(line, i, CountDigits(line).value);
    forall j, d | CountMatch(line, j, d) ensures i < j || (i == j && d == CountDigits(line).value) {
      if 0 <= j { MatchIsTried(line, j, d); }
    }
  }

  /** The count of a line is the decimal value of the digits in its leftmost match, within 64 bits; without a
      match there is none. */
  lemma CountIsLeftmostMatch(line: string) returns (i: nat)
    ensures CountDigits(line).None? ==> CountOf(line) == None && forall j, d :: !CountMatch(line, j, d)
    ensures CountDigits(line).Some? ==>
              && CountMatch(line, i, CountDigits(line).value)
              && (forall j, d :: CountMatch(line, j, d) ==> i < j || (i == j && d == CountDigits(line).value))
    ensures CountDigits(line).Some? ==>
              var digits := CountDigits(line).value;
              && digits != "" && AllDigits(digits)
              && CountOf(line) == if DecimalValue(digits) < TWO_64 then Some(DecimalValue(digits)) else None
  {
    i := 0;
    if CountDigits(line).None? {
      NoMatch(line);
    } else {
      i := LeftmostMatch(line);
      DigitsAreDigits(line, i, CountDigits(line).value);
    }
  }

  lemma DigitsAreDigits(line: string, i: nat, digits: string)
    requires CountMatch(line, i, digits)
    ensures digits != "" && AllDigits(digits)
  {
    if i == 0 && CountText(line, digits) {
      var spaces, rest :| CountParts(line, spaces, digits, rest);
    } else {
      var spaces, tail :| line[i + 1..] == spaces + tail && PatternSpaces(spaces) && CountText(tail, digits);
      var s, rest :| CountParts(tail, s, digits, rest);
    }
  }
}
