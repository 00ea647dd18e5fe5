/** Text that PostgreSQL accepts (storableText in backend/internal/pgstore/store.go). */
module StorableText {
  import opened GoText
  import Coordinator

  predicate Tail(c: char) { '\U{80}' <= c <= '\U{BF}' }

  /** The number of bytes of a character with this first byte, 0 when no character begins so. */
  function Width(lead: char): (n: nat)
    ensures n <= 4
  {
    if lead <= '\U{7F}' then 1
    else if lead < '\U{C2}' then 0
    else if lead <= '\U{DF}' then 2
    else if lead <= '\U{EF}' then 3
    else if lead <= '\U{F4}' then 4
    else 0
  }

  /** May c be the byte number i of a character with this first byte? */
  predicate Continues(lead: char, i: nat, c: char) {
    && Tail(c)
    && (i == 1 && lead == '\U{E0}' ==> c >= '\U{A0}')
    && (i == 1 && lead == '\U{ED}' ==> c <= '\U{9F}')
    && (i == 1 && lead == '\U{F0}' ==> c >= '\U{90}')
    && (i == 1 && lead == '\U{F4}' ==> c <= '\U{8F}')
  }

  /** The number of bytes of the UTF-8 character that s begins with, 0 when it begins with none
      (the syntax of section 4 of RFC 3629). */
  function CharLength(s: string): (n: nat)
    ensures n <= |s| && n <= 4
  {
    if s == "" || |s| < Width(s[0]) then 0
    else if forall i :: 1 <= i < Width(s[0]) ==> Continues(s[0], i, s[i]) then Width(s[0])
    else 0
  }

  predicate ValidUTF8(s: string)
    decreases |s|
  {
    s == "" || (CharLength(s) > 0 && ValidUTF8(s[CharLength(s)..]))
  }

  const REPLACEMENT: string := "\U{EF}\U{BF}\U{BD}"
  const NUL: char := '\U{0}'

  /** strings.ReplaceAll(s, "\x00", "\uFFFD") */
  function ReplaceNul(s: string): string {
    if s == "" then ""
    else (if s[0] == NUL then REPLACEMENT else [s[0]]) + ReplaceNul(s[1..])
  }

  /** strings.ToValidUTF8(s, "\uFFFD"): one replacement for each run of invalid bytes. */
  function Repair(s: string, inRun: bool): string
    decreases |s|
  {
    if s == "" then ""
    else if CharLength(s) == 0 then (if inRun then "" else REPLACEMENT) + Repair(s[1..], true)
    else s[..CharLength(s)] + Repair(s[CharLength(s)..], false)
  }

  function Storable(s: string): string { Repair(ReplaceNul(s), false) }

  /** What PostgreSQL takes in a text column. */
  predicate Clean(s: string) { ValidUTF8(s) && NUL !in s }

  /** The first character is decided by its own bytes. */
  lemma CharLengthOfPrefix(a: string, b: string)
    requires CharLength(a) > 0
    ensures CharLength(a + b) == CharLength(a)
  {
  }

  /** A cut behind the first character does not touch it. */
  lemma CutKeepsFirst(s: string, n: nat)
    requires 0 < CharLength(s) <= n <= |s|
    ensures CharLength(s[..n]) == CharLength(s)
    ensures s[..n][..CharLength(s)] == s[..CharLength(s)]
    ensures s[..n][CharLength(s)..] == s[CharLength(s)..][..n - CharLength(s)]
  {
  }

  lemma {:induction false} ValidAppend(a: string, b: string)
    requires ValidUTF8(a) && ValidUTF8(b)
    ensures ValidUTF8(a + b)
    decreases |a|
  {
    if a == "" {
      assert a + b == b;
    } else {
      var n := CharLength(a);
      CharLengthOfPrefix(a, b);
      ValidAppend(a[n..], b);
      assert (a + b)[n..] == a[n..] + b;
    }
  }

  lemma {:induction false} RepairIsValid(s: string, inRun: bool)
    ensures ValidUTF8(Repair(s, inRun))
    ensures NUL !in s ==> NUL !in Repair(s, inRun)
    decreases |s|
  {
    if s != "" {
      var n := CharLength(s);
      if n == 0 {
        RepairIsValid(s[1..], true);
        if !inRun {
          assert ValidUTF8(REPLACEMENT) by { assert REPLACEMENT[3..] == ""; }
          ValidAppend(REPLACEMENT, Repair(s[1..], true));
        } else {
          assert Repair(s, inRun) == Repair(s[1..], true);
        }
      } else {
        RepairIsValid(s[n..], false);
        assert CharLength(s[..n]) == n && s[..n][n..] == "";
        ValidAppend(s[..n], Repair(s[n..], false));
      }
    }
  }

  lemma {:induction false} NoNulLeft(s: string)
    ensures NUL !in ReplaceNul(s)
    ensures NUL !in s ==> ReplaceNul(s) == s
  {
    if s != "" {
      NoNulLeft(s[1..]);
      assert s == [s[0]] + s[1..];
    }
  }

  lemma {:induction false} ValidIsKept(s: string, inRun: bool)
    requires ValidUTF8(s)
    ensures Repair(s, inRun) == s
    decreases |s|
  {
    if s != "" { ValidIsKept(s[CharLength(s)..], false); }
  }

  /** Whatever the bytes, the database can store the result. */
  lemma StorableIsClean(s: string)
    ensures Clean(Storable(s))
  {
    NoNulLeft(s);
    RepairIsValid(ReplaceNul(s), false);
  }

  lemma CleanIsKept(s: string)
    requires Clean(s)
    ensures Storable(s) == s
  {
    NoNulLeft(s);
    ValidIsKept(s, false);
  }

  /** Storing a stored text changes nothing, and only clean texts are left alone. */
  lemma StorableIsIdempotent(s: string)
    ensures Storable(Storable(s)) == Storable(s)
    ensures Storable(s) == s <==> Clean(s)
  {
    StorableIsClean(s);
    CleanIsKept(Storable(s));
    if Clean(s) { CleanIsKept(s); }
  }

  // ---- what repairing keeps ----

  /** A text seen as whole characters and runs of bytes that belong to none. */
  datatype Piece = Text(bytes: string) | Junk(bytes: string)

  function Source(pieces: seq<Piece>): string {
    if pieces == [] then "" else pieces[0].bytes + Source(pieces[1..])
  }

  function Repaired(pieces: seq<Piece>): string {
    if pieces == [] then "" else (if pieces[0].Text? then pieces[0].bytes else REPLACEMENT) + Repaired(pieces[1..])
  }

  /** No character begins within the first n bytes. */
  ghost predicate NoCharacterIn(s: string, n: nat) {
    n <= |s| && forall i :: 0 <= i < n ==> CharLength(s[i..]) == 0
  }

  /** Valid texts and maximal runs of invalid bytes. */
  ghost predicate Divides(pieces: seq<Piece>) {
    pieces == [] ||
    (&& Divides(pieces[1..]) && pieces[0].bytes != ""
     && (pieces[0].Text? ==> ValidUTF8(pieces[0].bytes))
     && (pieces[0].Junk? ==> NoCharacterIn(Source(pieces), |pieces[0].bytes|) && (|pieces| > 1 ==> pieces[1].Text?)))
  }

  lemma RepairStep(first: string, rest: string, inRun: bool)
    requires CharLength(first) == |first| > 0
    ensures Repair(first + rest, inRun) == first + Repair(rest, false)
  {
  }

  lemma CopyStep(first: string, more: string, rest: string, inRun: bool)
    requires CharLength(first) == |first| > 0
    requires Repair(more + rest, false) == more + Repair(rest, false)
    ensures Repair(first + more + rest, inRun) == first + more + Repair(rest, false)
  {
    Regroup(first, more, rest);
    Regroup(first, more, Repair(rest, false));
    RepairStep(first, more + rest, inRun);
  }

  lemma {:induction false} TextIsCopied(text: string, rest: string, inRun: bool)
    requires ValidUTF8(text) && text != ""
    ensures Repair(text + rest, inRun) == text + Repair(rest, false)
    decreases |text|
  {
    var first, more := text[..CharLength(text)], text[CharLength(text)..];
    if more == "" {
      assert more + rest == rest;
    } else {
      TextIsCopied(more, rest, false);
    }
    CutKeepsFirst(text, CharLength(text));
    CopyStep(first, more, rest, inRun);
    assert first + more == text;
  }

  lemma {:induction false} JunkIsDropped(junk: string, rest: string)
    requires NoCharacterIn(junk + rest, |junk|)
    ensures Repair(junk + rest, true) == Repair(rest, true)
    decreases |junk|
  {
    var s := junk + rest;
    if junk == "" {
      assert s == rest;
    } else {
      assert s[0..] == s;
      forall i | 0 <= i < |junk| - 1 ensures CharLength(s[1..][i..]) == 0 {
        assert s[1..][i..] == s[i + 1..];
      }
      assert s[1..] == junk[1..] + rest;
      JunkIsDropped(junk[1..], rest);
    }
  }

  /** Repairing copies the whole characters in order and puts one replacement for each maximal run of the rest. */
  lemma {:induction false} RepairOfPieces(pieces: seq<Piece>, inRun: bool)
    requires Divides(pieces)
    requires inRun && pieces != [] ==> pieces[0].Text?
    ensures Repair(Source(pieces), inRun) == Repaired(pieces)
  {
    if pieces != [] {
      var rest := Source(pieces[1..]);
      if pieces[0].Text? {
        TextIsCopied(pieces[0].bytes, rest, inRun);
        RepairOfPieces(pieces[1..], false);
      } else {
        var junk, s := pieces[0].bytes, Source(pieces);
        assert s[0..] == s;
        assert Repair(s, false) == REPLACEMENT + Repair(s[1..], true);
        forall i | 0 <= i < |junk| - 1 ensures CharLength(s[1..][i..]) == 0 {
          assert s[1..][i..] == s[i + 1..];
        }
        assert s[1..] == junk[1..] + rest;
        JunkIsDropped(junk[1..], rest);
        RepairOfPieces(pieces[1..], true);
      }
    }
  }

  /** Every byte string divides in this way. */
  lemma {:induction false} EveryTextDivides(s: string) returns (pieces: seq<Piece>)
    ensures Divides(pieces) && Source(pieces) == s
    decreases |s|
  {
    if s == "" { return []; }
    var n := CharLength(s);
    if n > 0 {
      var rest := EveryTextDivides(s[n..]);
      pieces := [Text(s[..n])] + rest;
      CutKeepsFirst(s, n);
      assert s[..n][n..] == "";
      assert pieces[1..] == rest && pieces[0].bytes == s[..n];
    } else {
      var rest := EveryTextDivides(s[1..]);
      if rest != [] && rest[0].Junk? {
        pieces := [Junk([s[0]] + rest[0].bytes)] + rest[1..];
        GrowJunk(s, rest);
      } else {
        pieces := [Junk([s[0]])] + rest;
        assert pieces[1..] == rest && Source(pieces) == [s[0]] + s[1..] == s;
        assert s[0..] == s;
      }
    }
  }

  lemma GrowJunk(s: string, rest: seq<Piece>)
    requires s != "" && CharLength(s) == 0
    requires Divides(rest) && Source(rest) == s[1..] && rest != [] && rest[0].Junk?
    ensures var pieces := [Junk([s[0]] + rest[0].bytes)] + rest[1..];
            Divides(pieces) && Source(pieces) == s
  {
    var pieces := [Junk([s[0]] + rest[0].bytes)] + rest[1..];
    assert pieces[1..] == rest[1..];
    SourceGrows(s[0], rest);
    assert Source(pieces) == s;
    NoCharacterGrows(s, |rest[0].bytes|);
  }

  lemma SourceGrows(c: char, rest: seq<Piece>)
    requires rest != []
    ensures Source([Junk([c] + rest[0].bytes)] + rest[1..]) == [c] + Source(rest)
  {
    var pieces := [Junk([c] + rest[0].bytes)] + rest[1..];
    assert pieces[1..] == rest[1..] && pieces[0].bytes == [c] + rest[0].bytes;
    Regroup([c], rest[0].bytes, Source(rest[1..]));
  }

  lemma NoCharacterGrows(s: string, n: nat)
    requires s != "" && CharLength(s) == 0 && n <= |s[1..]| && NoCharacterIn(s[1..], n)
    ensures NoCharacterIn(s, n + 1)
  {
    forall i | 0 <= i < n + 1 ensures CharLength(s[i..]) == 0 {
      if i == 0 {
        assert s[0..] == s;
      } else {
        assert s[i..] == s[1..][i - 1..];
      }
    }
  }

  // ---- what truncation leaves ----

  /** The whole characters of s within its first n bytes, counted in bytes. */
  function WholeCharacters(s: string, n: nat): (k: nat)
    requires n <= |s|
    ensures k <= n
    decreases |s|
  {
    var c := CharLength(s);
    if c == 0 || c > n then 0 else c + WholeCharacters(s[c..], n - c)
  }

  /** A valid prefix holds the first character. */
  lemma ValidPrefixHoldsFirst(s: string, m: nat)
    requires 0 < m <= |s| && ValidUTF8(s[..m])
    ensures 0 < CharLength(s) <= m && ValidUTF8(s[CharLength(s)..][..m - CharLength(s)])
  {
    CharLengthOfPrefix(s[..m], s[m..]);
    assert s[..m] + s[m..] == s;
    CutKeepsFirst(s, m);
  }

  lemma FirstThenRest(s: string, k: nat)
    requires 0 < CharLength(s) <= k <= |s| && ValidUTF8(s[CharLength(s)..][..k - CharLength(s)])
    ensures ValidUTF8(s[..k])
  {
    CutKeepsFirst(s, k);
  }

  /** That is the longest prefix within the cut that is valid on its own. */
  lemma {:induction false} WholeCharactersIsLongest(s: string, n: nat)
    requires ValidUTF8(s) && n <= |s|
    ensures ValidUTF8(s[..WholeCharacters(s, n)])
    ensures forall m :: 0 <= m <= n && ValidUTF8(s[..m]) ==> m <= WholeCharacters(s, n)
    ensures n - WholeCharacters(s, n) <= 3
    decreases |s|
  {
    var c, k := CharLength(s), WholeCharacters(s, n);
    if c != 0 && c <= n {
      WholeCharactersIsLongest(s[c..], n - c);
      FirstThenRest(s, k);
    }
    forall m | 0 <= m <= n && ValidUTF8(s[..m]) ensures m <= k {
      if m > 0 { ValidPrefixHoldsFirst(s, m); }
    }
  }

  lemma {:induction false} TailsAreInvalid(s: string)
    requires forall i :: 0 <= i < |s| ==> Tail(s[i])
    ensures Repair(s, true) == ""
  {
    if s != "" { TailsAreInvalid(s[1..]); }
  }

  /** A character cut off in the middle becomes one replacement. */
  lemma CutCharacterIsReplaced(s: string, n: nat)
    requires 0 < n < CharLength(s)
    ensures Repair(s[..n], false) == REPLACEMENT
  {
    var cut := s[..n];
    assert CharLength(cut) == 0;
    TailsAreInvalid(cut[1..]);
    assert Repair(cut, false) == REPLACEMENT + Repair(cut[1..], true);
  }

  lemma CutStep(s: string, n: nat, k: nat)
    requires 0 < CharLength(s) <= k <= n <= |s|
    requires var rest := s[CharLength(s)..];
             var m := n - CharLength(s);
             var l := k - CharLength(s);
             Repair(rest[..m], false) == rest[..l] + if l < m then REPLACEMENT else ""
    ensures Repair(s[..n], false) == s[..k] + if k < n then REPLACEMENT else ""
  {
    var c := CharLength(s);
    CutKeepsFirst(s, c);
    CutKeepsFirst(s, n);
    CutKeepsFirst(s, k);
    RepairStep(s[..c], s[c..][..n - c], false);
    assert s[..n] == s[..c] + s[c..][..n - c];
    assert s[..k] == s[..c] + s[c..][..k - c];
    if k < n {
      assert s[..k] + REPLACEMENT == s[..c] + (s[c..][..k - c] + REPLACEMENT);
    } else {
      assert s[..k] + "" == s[..k] && s[c..][..k - c] + "" == s[c..][..k - c];
    }
  }

  /** A valid text cut anywhere and repaired is its whole characters, and one U+FFFD if the cut split one. */
  lemma {:induction false} CutIsRepaired(s: string, n: nat)
    requires ValidUTF8(s) && n <= |s|
    ensures Repair(s[..n], false) == s[..WholeCharacters(s, n)] + if WholeCharacters(s, n) < n then REPLACEMENT else ""
    decreases |s|
  {
    var c := CharLength(s);
    if n == 0 {
    } else if c > n {
      CutCharacterIsReplaced(s, n);
    } else {
      CutIsRepaired(s[c..], n - c);
      CutStep(s, n, WholeCharacters(s, n));
    }
  }

  /** A clean log of any length, kept up to the log limit and stored. */
  lemma StoredLog(log: string)
    requires Clean(log)
    ensures |log| <= Coordinator.MAX_LOG_BYTES ==> Storable(Coordinator.Cut(log)) == log
    ensures |log| > Coordinator.MAX_LOG_BYTES ==>
              var k := WholeCharacters(log, Coordinator.MAX_LOG_BYTES);
              Storable(Coordinator.Cut(log)) == log[..k] + if k < Coordinator.MAX_LOG_BYTES then REPLACEMENT else ""
  {
    if |log| <= Coordinator.MAX_LOG_BYTES {
      CleanIsKept(log);
    } else {
      NoNulLeft(log[..Coordinator.MAX_LOG_BYTES]);
      CutIsRepaired(log, Coordinator.MAX_LOG_BYTES);
    }
  }
}
