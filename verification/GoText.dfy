/** Go strings, as the runners and the backend read them.

    A Go string is a sequence of bytes; here it is a Dafny string whose chars stand
    for those bytes (byte 0xC2 is the char '\U{C2}').  Every statement of the project
    holds for all chars, hence in particular for all byte strings. */
module GoText {

  datatype Option<+T> = None | Some(value: T)

  predicate HasSuffix(s: string, suffix: string) {
    |suffix| <= |s| && s[|s| - |suffix|..] == suffix
  }

  predicate OccursAt(s: string, i: nat, sub: string) {
    i + |sub| <= |s| && s[i..i + |sub|] == sub
  }

  predicate Contains(s: string, sub: string) {
    exists i :: 0 <= i <= |s| && OccursAt(s, i, sub)
  }

  function TrimSuffix(s: string, suffix: string): string {
    if HasSuffix(s, suffix) then s[..|s| - |suffix|] else s
  }

  predicate AsciiSpace(c: char) {
    c == ' ' || '\t' <= c <= '\r'
  }

  /** The bytes of one white-space code point above U+007F (Unicode property White_Space in UTF-8). */
  predicate WideSpace(s: string) {
    || s == "\U{C2}\U{85}" || s == "\U{C2}\U{A0}" || s == "\U{E1}\U{9A}\U{80}"
    || (|s| == 3 && s[0] == '\U{E2}' && s[1] == '\U{80}' &&
        ('\U{80}' <= s[2] <= '\U{8A}' || s[2] == '\U{A8}' || s[2] == '\U{A9}' || s[2] == '\U{AF}'))
    || s == "\U{E2}\U{81}\U{9F}" || s == "\U{E3}\U{80}\U{80}"
  }

  /** Bytes of the white-space character that s begins with, 0 when it begins with none. */
  function LeadingSpace(s: string): (n: nat)
    ensures n <= |s|
  {
    if 1 <= |s| && AsciiSpace(s[0]) then 1
    else if 2 <= |s| && WideSpace(s[..2]) then 2
    else if 3 <= |s| && WideSpace(s[..3]) then 3
    else 0
  }

  function TrailingSpace(s: string): (n: nat)
    ensures n <= |s|
  {
    if 1 <= |s| && AsciiSpace(s[|s| - 1]) then 1
    else if 2 <= |s| && WideSpace(s[|s| - 2..]) then 2
    else if 3 <= |s| && WideSpace(s[|s| - 3..]) then 3
    else 0
  }

  function TrimLeft(s: string): string
    decreases |s|
  {
    var n := LeadingSpace(s);
    if n == 0 then s else TrimLeft(s[n..])
  }

  function TrimRight(s: string): string
    decreases |s|
  {
    var n := TrailingSpace(s);
    if n == 0 then s else TrimRight(s[..|s| - n])
  }

  /** strings.TrimSpace */
  function TrimSpace(s: string): string {
    TrimRight(TrimLeft(s))
  }

  predicate Blank(s: string) { TrimSpace(s) == "" }

  lemma Regroup(x: string, y: string, z: string)
    ensures x + (y + z) == (x + y) + z
  {
  }

  lemma BlankIsEmpty()
    ensures Blank("")
  {
  }

  predicate IsDigit(c: char) { '0' <= c <= '9' }

  predicate AllDigits(s: string) {
    forall i :: 0 <= i < |s| ==> IsDigit(s[i])
  }

  function DecimalValue(s: string): nat
    requires AllDigits(s)
  {
    if s == "" then 0
    else 10 * DecimalValue(s[..|s| - 1]) + (s[|s| - 1] as int - '0' as int)
  }

  /** strconv.ParseUint(s, 10, bits) with limit = 2^bits. */
  function ParseUint(s: string, limit: nat): Option<nat> {
    if s != "" && AllDigits(s) && DecimalValue(s) < limit then Some(DecimalValue(s)) else None
  }

  const TWO_31: nat := 0x8000_0000
  const TWO_64: nat := 0x1_0000_0000_0000_0000

  lemma WideSpaceStart(s: string)
    requires WideSpace(s)
    ensures |s| >= 2 && s[0] > '\U{7F}'
  {
  }

  lemma LetterIsNoSpace(s: string)
    requires s != "" && 'a' <= s[0] <= 'z'
    ensures LeadingSpace(s) == 0 && TrailingSpace(s) < |s|
  {
    if 2 <= |s| && WideSpace(s[..2]) { WideSpaceStart(s[..2]); }
    if 3 <= |s| && WideSpace(s[..3]) { WideSpaceStart(s[..3]); }
    if |s| == 2 && WideSpace(s[0..]) { WideSpaceStart(s[0..]); }
    if |s| == 3 && WideSpace(s[0..]) { WideSpaceStart(s[0..]); }
  }

  /** A string that begins with a letter is not blank. */
  lemma {:induction false} NotBlank(s: string)
    requires s != "" && 'a' <= s[0] <= 'z'
    ensures TrimLeft(s) == s
    ensures TrimRight(s) != "" && TrimRight(s)[0] == s[0]
    decreases |s|
  {
    LetterIsNoSpace(s);
    var n := TrailingSpace(s);
    if n > 0 { NotBlank(s[..|s| - n]); }
  }

  lemma {:induction false} TrimmedLeft(s: string)
    ensures LeadingSpace(TrimLeft(s)) == 0
    decreases |s|
  {
    if LeadingSpace(s) > 0 { TrimmedLeft(s[LeadingSpace(s)..]); }
  }

  lemma {:induction false} TrimmedRight(s: string)
    ensures TrailingSpace(TrimRight(s)) == 0 && TrimRight(s) <= s
    decreases |s|
  {
    if TrailingSpace(s) > 0 { TrimmedRight(s[..|s| - TrailingSpace(s)]); }
  }

  lemma LeadingSpaceOfPrefix(a: string, b: string)
    requires a <= b && LeadingSpace(b) == 0
    ensures LeadingSpace(a) == 0
  {
  }

  /** Trimming a trimmed text changes nothing. */
  lemma TrimSpaceIsIdempotent(s: string)
    ensures TrimSpace(TrimSpace(s)) == TrimSpace(s)
  {
    TrimmedLeft(s);
    TrimmedRight(TrimLeft(s));
    LeadingSpaceOfPrefix(TrimSpace(s), TrimLeft(s));
  }
}
