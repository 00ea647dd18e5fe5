/** Secret redaction of runner output (backend/internal/api/preparation.go). */
module Redaction {
  import opened GoText
  import opened Sorting

  const PLACEHOLDER: string := "[REDACTED]"

  /** A redacted text: bytes that were kept, and secrets that a placeholder replaces. */
  datatype Piece = Kept(byte: char) | Hidden(secret: string)

  function Raw(piece: Piece): string {
    match piece
    case Kept(b) => [b]
    case Hidden(v) => v
  }

  function Source(pieces: seq<Piece>): string {
    if pieces == [] then "" else Raw(pieces[0]) + Source(pieces[1..])
  }

  function Render(pieces: seq<Piece>): string {
    if pieces == [] then ""
    else (match pieces[0] case Kept(b) => [b] case Hidden(_) => PLACEHOLDER) + Render(pieces[1..])
  }

  /** The value that strings.Replacer uses at the start of text: the first one in argument order. */
  function FirstMatch(values: seq<string>, text: string): Option<string> {
    if values == [] then None
    else if values[0] != "" && values[0] <= text then Some(values[0])
    else FirstMatch(values[1..], text)
  }

  function Scan(values: seq<string>, text: string): seq<Piece>
    decreases |text|
  {
    if text == "" then []
    else match FirstMatch(values, text)
      case None => [Kept(text[0])] + Scan(values, text[1..])
      case Some(v) => MatchIsPrefix(values, text); [Hidden(v)] + Scan(values, text[|v|..])
  }

  /** strings.NewReplacer(pairs...).Replace(text), every pair replacing a value by the placeholder. */
  function Replace(values: seq<string>, text: string): string {
    Render(Scan(values, text))
  }

  lemma {:induction false} MatchIsPrefix(values: seq<string>, text: string)
    ensures FirstMatch(values, text).Some? ==>
              var v := FirstMatch(values, text).value; v in values && v != "" && v <= text
    ensures FirstMatch(values, text).None? ==> forall v :: v in values && v <= text ==> v == ""
  {
    if values != [] {
      MatchIsPrefix(values[1..], text);
      assert forall v :: v in values ==> v == values[0] || v in values[1..];
    }
  }

  predicate LongestFirst(values: seq<string>) {
    forall i, j :: 0 <= i < j < |values| ==> |values[i]| >= |values[j]|
  }

  /** Longest-first argument order makes the first match the longest secret there. */
  lemma {:induction false} FirstMatchIsLongest(values: seq<string>, text: string)
    requires LongestFirst(values) && FirstMatch(values, text).Some?
    ensures forall v :: v in values && v <= text ==> |v| <= |FirstMatch(values, text).value|
  {
    if values[0] != "" && values[0] <= text {
      forall v | v in values ensures |v| <= |values[0]| {
        var i :| 0 <= i < |values| && values[i] == v;
      }
    } else {
      FirstMatchIsLongest(values[1..], text);
    }
  }

  /** Leftmost-longest redaction, stated without an algorithm: a kept byte starts no secret, and a
      hidden part is the longest secret that starts there. */
  ghost predicate LeftmostLongest(values: seq<string>, pieces: seq<Piece>) {
    pieces == [] ||
    (&& (pieces[0].Kept? ==> forall v :: v in values && v <= Source(pieces) ==> v == "")
     && (pieces[0].Hidden? ==>
           && pieces[0].secret in values && pieces[0].secret != ""
           && forall v :: v in values && v <= Source(pieces) ==> |v| <= |pieces[0].secret|)
     && LeftmostLongest(values, pieces[1..]))
  }

  lemma PrependPiece(values: seq<string>, piece: Piece, pieces: seq<Piece>, text: string)
    requires Raw(piece) + Source(pieces) == text
    requires LeftmostLongest(values, pieces)
    requires piece.Kept? ==> forall v :: v in values && v <= text ==> v == ""
    requires piece.Hidden? ==> piece.secret in values && piece.secret != "" &&
                               forall v :: v in values && v <= text ==> |v| <= |piece.secret|
    ensures Source([piece] + pieces) == text && LeftmostLongest(values, [piece] + pieces)
  {
  }

  lemma {:induction false} ScanIsLeftmostLongest(values: seq<string>, text: string)
    requires LongestFirst(values)
    ensures Source(Scan(values, text)) == text
    ensures LeftmostLongest(values, Scan(values, text))
    decreases |text|
  {
    if text != "" {
      MatchIsPrefix(values, text);
      match FirstMatch(values, text)
      case None =>
        ScanIsLeftmostLongest(values, text[1..]);
        PrependPiece(values, Kept(text[0]), Scan(values, text[1..]), text);
      case Some(v) =>
        FirstMatchIsLongest(values, text);
        ScanIsLeftmostLongest(values, text[|v|..]);
        PrependPiece(values, Hidden(v), Scan(values, text[|v|..]), text);
    }
  }

  /** There is only one leftmost-longest redaction of a text, so Replace is determined by the set
      of secrets: not by argument order among equals, map order, or duplicates. */
  lemma {:induction false} LeftmostLongestIsUnique(values: seq<string>, p: seq<Piece>, q: seq<Piece>)
    requires LeftmostLongest(values, p) && LeftmostLongest(values, q)
    requires Source(p) == Source(q)
    ensures p == q
  {
    if p != [] && q != [] {
      SourceHead(p);
      SourceHead(q);
      assert p[0] == q[0];
      LeftmostLongestIsUnique(values, p[1..], q[1..]);
      assert p == [p[0]] + p[1..] && q == [q[0]] + q[1..];
    } else {
      NonEmptySource(values, p);
      NonEmptySource(values, q);
    }
  }

  lemma NonEmptySource(values: seq<string>, pieces: seq<Piece>)
    requires LeftmostLongest(values, pieces)
    ensures pieces != [] ==> Source(pieces) != ""
  {
  }

  lemma SourceHead(pieces: seq<Piece>)
    requires pieces != []
    ensures Raw(pieces[0]) <= Source(pieces)
    ensures Source(pieces[1..]) == Source(pieces)[|Raw(pieces[0])|..]
    ensures pieces[0].Kept? ==> Source(pieces)[0] == pieces[0].byte
  {
  }

  lemma {:induction false} LeftmostLongestSameSet(values: seq<string>, others: seq<string>, pieces: seq<Piece>)
    requires forall v :: v != "" ==> (v in values <==> v in others)
    requires LeftmostLongest(values, pieces)
    ensures LeftmostLongest(others, pieces)
  {
    if pieces != [] { LeftmostLongestSameSet(values, others, pieces[1..]); }
  }

  lemma ReplaceDependsOnlyOnSecrets(values: seq<string>, others: seq<string>, text: string)
    requires LongestFirst(values) && LongestFirst(others)
    requires forall v :: v != "" ==> (v in values <==> v in others)
    ensures Replace(values, text) == Replace(others, text)
  {
    ScanIsLeftmostLongest(values, text);
    ScanIsLeftmostLongest(others, text);
    LeftmostLongestSameSet(values, others, Scan(values, text));
    LeftmostLongestIsUnique(others, Scan(values, text), Scan(others, text));
  }

  /** Does a placeholder replace byte i of the source text? */
  predicate HiddenAt(pieces: seq<Piece>, i: nat) {
    pieces != [] &&
    match pieces[0]
    case Kept(_) => i > 0 && HiddenAt(pieces[1..], i - 1)
    case Hidden(v) => i < |v| || HiddenAt(pieces[1..], i - |v|)
  }

  lemma OccurrenceDrop(text: string, n: nat, i: nat, secret: string)
    requires n <= i && OccursAt(text, i, secret)
    ensures OccursAt(text[n..], i - n, secret)
  {
  }

  lemma OccurrenceIsPrefix(text: string, i: nat, secret: string)
    requires OccursAt(text, i, secret)
    ensures i == 0 ==> secret <= text
  {
  }

  lemma {:induction false} OccurrenceStartsHidden(values: seq<string>, pieces: seq<Piece>, i: nat, secret: string)
    requires LeftmostLongest(values, pieces)
    requires secret in values && secret != "" && OccursAt(Source(pieces), i, secret)
    ensures HiddenAt(pieces, i)
  {
    SourceHead(pieces);
    OccurrenceIsPrefix(Source(pieces), i, secret);
    var n := |Raw(pieces[0])|;
    if n <= i {
      OccurrenceDrop(Source(pieces), n, i, secret);
      OccurrenceStartsHidden(values, pieces[1..], i - n, secret);
    }
  }

  /** Every occurrence of a secret starts inside a replaced part, so text kept between two
      placeholders contains no secret at all. */
  lemma NoKeptGapContainsASecret(values: seq<string>, text: string, from: nat, to: nat, secret: string)
    requires LongestFirst(values) && secret in values && secret != ""
    requires from <= to <= |text|
    requires forall i :: from <= i < to ==> !HiddenAt(Scan(values, text), i)
    ensures !Contains(text[from..to], secret)
  {
    ScanIsLeftmostLongest(values, text);
    forall i: nat | i <= |text[from..to]|
      ensures !OccursAt(text[from..to], i, secret)
    {
      OccurrenceInGap(values, text, from, to, i, secret);
    }
  }

  lemma OccurrenceInSlice(text: string, from: nat, to: nat, i: nat, secret: string)
    requires from <= to <= |text| && OccursAt(text[from..to], i, secret)
    ensures OccursAt(text, from + i, secret)
  {
    forall k | 0 <= k < |secret| ensures text[from + i + k] == secret[k] {
      assert text[from..to][i..i + |secret|][k] == text[from..to][i + k];
    }
    assert text[from + i..from + i + |secret|] == secret;
  }

  lemma OccurrenceInGap(values: seq<string>, text: string, from: nat, to: nat, i: nat, secret: string)
    requires LongestFirst(values) && secret in values && secret != ""
    requires from <= to <= |text|
    ensures OccursAt(text[from..to], i, secret) ==> HiddenAt(Scan(values, text), from + i) && from + i < to
  {
    if OccursAt(text[from..to], i, secret) {
      ScanIsLeftmostLongest(values, text);
      OccurrenceInSlice(text, from, to, i, secret);
      OccurrenceStartsHidden(values, Scan(values, text), from + i, secret);
    }
  }

  /** The order of redactionValues: longer first, equal lengths by bytes. */
  predicate Before(a: string, b: string) {
    |a| > |b| || (|a| == |b| && AtMost(a, b))
  }

  lemma BeforeIsTotalOrder()
    ensures TotalPreorder(Before)
    ensures forall a, b :: Before(a, b) && Before(b, a) ==> a == b
  {
    forall a, b ensures Before(a, b) || Before(b, a) { AtMostIsTotal(a, b); }
    forall a, b, c | Before(a, b) && Before(b, c) ensures Before(a, c) {
      if |a| == |b| == |c| { AtMostIsTransitive(a, b, c); }
    }
    forall a, b | Before(a, b) && Before(b, a) ensures a == b { AtMostIsTotal(a, b); }
  }

  /** redactionValues: the nonempty secret data and sensitive values, once each, longest first. */
  method RedactionValues(secretData: map<string, string>, sensitive: seq<string>) returns (values: seq<string>)
    ensures forall v :: v in values <==> v != "" && (v in secretData.Values || v in sensitive)
    ensures Distinct(values) && SortedBy(Before, values) && LongestFirst(values)
  {
    var seen: set<string> := {};
    var keys := secretData.Keys;
    while keys != {}
      invariant keys <= secretData.Keys
      invariant forall v :: v in seen <==> v != "" && exists k :: k in secretData.Keys - keys && secretData[k] == v
      decreases keys
    {
      var k :| k in keys;
      ghost var done := secretData.Keys - keys;
      keys := keys - {k};
      assert secretData.Keys - keys == done + {k};
      if |secretData[k]| != 0 { seen := seen + {secretData[k]}; }
    }
    for i := 0 to |sensitive|
      invariant forall v :: v in seen <==> v != "" && (v in secretData.Values || v in sensitive[..i])
    {
      if sensitive[i] != "" { seen := seen + {sensitive[i]}; }
    }
    assert sensitive[..|sensitive|] == sensitive;
    var all := seen;
    var listed: seq<string> := [];
    while seen != {}
      invariant seen <= all && Distinct(listed)
      invariant forall v :: v in listed <==> v in all - seen
      decreases seen
    {
      var v: string :| v in seen;
      assert v !in listed;
      listed, seen := listed + [v], seen - {v};
    }
    values := SortBy(Before, listed);
    BeforeIsTotalOrder();
    SortByCorrect(Before, listed);
    SameMultisetSameMembers(values, listed);
    DistinctOccurOnce(listed);
    OccurOnceDistinct(values);
  }

  /** Whatever order Go's map iteration took, redactionValues returns the same list. */
  lemma RedactionValuesAreDetermined(values: seq<string>, others: seq<string>)
    requires Distinct(values) && SortedBy(Before, values)
    requires Distinct(others) && SortedBy(Before, others)
    requires forall v :: v in values <==> v in others
    ensures values == others
  {
    BeforeIsTotalOrder();
    SortedListingIsUnique(Before, values, others);
  }

  /** sanitizeRunnerOutput builds its pairs without the empty values; they would never match. */
  method SanitizeRunnerOutput(output: string, sensitive: seq<string>) returns (safe: string)
    ensures safe == Replace(sensitive, output)
  {
    var values: seq<string> := [];
    for i := 0 to |sensitive|
      invariant values == NonEmpty(sensitive[..i])
    {
      assert sensitive[..i + 1][..i] == sensitive[..i];
      if sensitive[i] != "" { values := values + [sensitive[i]]; }
    }
    assert sensitive[..|sensitive|] == sensitive;
    EmptyValuesDoNotMatter(sensitive, output);
    if values == [] {
      NothingToHide(values, output);
      return output;
    }
    safe := Replace(values, output);
  }

  function NonEmpty(values: seq<string>): seq<string> {
    if values == [] then []
    else if values[|values| - 1] != "" then NonEmpty(values[..|values| - 1]) + [values[|values| - 1]]
    else NonEmpty(values[..|values| - 1])
  }

  lemma {:induction false} FirstMatchAppend(values: seq<string>, last: string, text: string)
    ensures FirstMatch(values + [last], text) ==
            if FirstMatch(values, text).Some? then FirstMatch(values, text)
            else if last != "" && last <= text then Some(last) else None
  {
    if values == [] {
      assert FirstMatch([last], text) == if last != "" && last <= text then Some(last) else FirstMatch([last][1..], text);
    } else {
      assert (values + [last])[1..] == values[1..] + [last];
      FirstMatchAppend(values[1..], last, text);
    }
  }

  lemma {:induction false} FirstMatchNonEmpty(values: seq<string>, text: string)
    ensures FirstMatch(NonEmpty(values), text) == FirstMatch(values, text)
  {
    if values != [] {
      var front, last := values[..|values| - 1], values[|values| - 1];
      FirstMatchNonEmpty(front, text);
      assert values == front + [last];
      FirstMatchAppend(front, last, text);
      FirstMatchAppend(NonEmpty(front), last, text);
      assert NonEmpty(values) == if last != "" then NonEmpty(front) + [last] else NonEmpty(front);
    }
  }

  lemma {:induction false} EmptyValuesDoNotMatter(values: seq<string>, text: string)
    ensures Scan(NonEmpty(values), text) == Scan(values, text)
    decreases |text|
  {
    if text != "" {
      FirstMatchNonEmpty(values, text);
      MatchIsPrefix(values, text);
      match FirstMatch(values, text)
      case None => EmptyValuesDoNotMatter(values, text[1..]);
      case Some(v) => EmptyValuesDoNotMatter(values, text[|v|..]);
    }
  }

  lemma {:induction false} NothingToHide(values: seq<string>, text: string)
    requires values == []
    ensures Replace(values, text) == text
  {
    if text != "" {
      NothingToHide(values, text[1..]);
      assert Scan(values, text)[1..] == Scan(values, text[1..]);
      assert [text[0]] + text[1..] == text;
    }
  }
}
