/** The form's check of a sysbench database name (validateSysbenchDatabase in src/drivers/sysbench.ts),
    against the backend's check of the name that the form sends.

    Texts of the browser are sequences of Unicode code points; encoded, they become the bytes that the
    backend sees. */
module DatabaseForm {
  import opened GoText
  import opened Driver
  import opened SysbenchConnection
  import SysbenchConfig

  // ---- UTF-8 ----

  function Byte(n: nat): char
    requires n < 256
  {
    n as char
  }

  /** The UTF-8 bytes of one code point. */
  function Encode(c: char): (bytes: string)
    ensures 1 <= |bytes| <= 4
  {
    var n := c as int;
    if n < 0x80 then [c]
    else if n < 0x800 then [Byte(0xC0 + n / 64), Byte(0x80 + n % 64)]
    else if n < 0x1_0000 then [Byte(0xE0 + n / 4096), Byte(0x80 + n / 64 % 64), Byte(0x80 + n % 64)]
    else [Byte(0xF0 + n / 262144), Byte(0x80 + n / 4096 % 64), Byte(0x80 + n / 64 % 64), Byte(0x80 + n % 64)]
  }

  function Flat(code: char -> string, s: string): string {
    if s == "" then "" else code(s[0]) + Flat(code, s[1..])
  }

  lemma {:induction false} FlatAppend(code: char -> string, a: string, b: string)
    ensures Flat(code, a + b) == Flat(code, a) + Flat(code, b)
  {
    if a == "" {
      assert a + b == b;
    } else {
      FlatAppend(code, a[1..], b);
      assert (a + b)[1..] == a[1..] + b && (a + b)[0] == a[0];
      Regroup(code(a[0]), Flat(code, a[1..]), Flat(code, b));
    }
  }

  function Encoded(s: string): string { Flat(Encode, s) }

  // ---- white space ----

  /** The Unicode property White_Space. */
  predicate White(c: char) {
    || '\U{9}' <= c <= '\U{D}' || c == ' ' || c == '\U{85}' || c == '\U{A0}' || c == '\U{1680}'
    || '\U{2000}' <= c <= '\U{200A}' || c == '\U{2028}' || c == '\U{2029}' || c == '\U{202F}' || c == '\U{205F}' || c == '\U{3000}'
  }

  /** What String.prototype.trim removes. */
  predicate JsSpace(c: char) { (White(c) && c != '\U{85}') || c == '\U{FEFF}' }

  function StripStart(s: string, space: char -> bool): string {
    if s == "" || !space(s[0]) then s else StripStart(s[1..], space)
  }

  function StripEnd(s: string, space: char -> bool): string {
    if s == "" || !space(s[|s| - 1]) then s else StripEnd(s[..|s| - 1], space)
  }

  function JsTrim(s: string): string { StripEnd(StripStart(s, JsSpace), JsSpace) }

  function StripWhite(s: string): string { StripEnd(StripStart(s, White), White) }

  predicate AnyWhite(s: string) { exists i :: 0 <= i < |s| && White(s[i]) }

  // ---- the form's check ----

  predicate FormAccepts(database: string) {
    if !OneLine(database) then false
    else
      var value := StripWhite(JsTrim(database));
      var both := '\'' in value && '"' in value;
      if both && (',' in value || AnyWhite(value) || value[0] in "'\"#") then false
      else |"mysql-db="| + |Encoded(value)| + (if both then 0 else 2) + 1 <= LINE_LIMIT
  }

  /** What the request carries. */
  function Sent(database: string): string { Encoded(JsTrim(database)) }

  // ---- white space in bytes ----

  /** A code point is white space exactly when its bytes are. */
  lemma EncodeKeepsWhite(c: char)
    ensures WideSpace(Encode(c)) <==> White(c) && c >= '\U{80}'
    ensures AsciiSpace(c) <==> White(c) && c < '\U{80}'
  {
  }

  /** The first byte of a character beyond ASCII, and the others. */
  lemma EncodeShape(c: char)
    ensures c < '\U{80}' <==> |Encode(c)| == 1
    ensures c < '\U{80}' ==> Encode(c) == [c]
    ensures c >= '\U{80}' ==> Encode(c)[0] >= '\U{C2}'
    ensures forall i :: 1 <= i < |Encode(c)| ==> '\U{80}' <= Encode(c)[i] <= '\U{BF}'
    ensures |Encode(c)| == 2 ==> Encode(c)[0] <= '\U{DF}'
    ensures |Encode(c)| == 3 ==> '\U{E0}' <= Encode(c)[0] <= '\U{EF}'
    ensures |Encode(c)| == 4 ==> Encode(c)[0] >= '\U{F0}'
  {
  }

  lemma LeadingOfEncoded(c: char, rest: string)
    ensures LeadingSpace(Encode(c) + rest) == if White(c) then |Encode(c)| else 0
  {
    var e := Encode(c);
    var s := e + rest;
    EncodeShape(c);
    EncodeKeepsWhite(c);
    assert |s| >= 2 ==> s[..2][0] == e[0];
    assert |s| >= 3 ==> s[..3][0] == e[0];
    assert |e| >= 2 ==> s[..2] == e[..2];
    assert |e| >= 3 ==> s[..3] == e[..3];
    assert |e| == 2 ==> e[..2] == e;
    assert |e| == 3 ==> e[..3] == e;
  }

  lemma NotWideAtEnd(s: string, n: nat)
    requires 1 <= n <= |s| && s[|s| - 1] < '\U{80}'
    ensures !WideSpace(s[|s| - n..])
  {
  }

  lemma TrailingOfByte(s: string)
    requires s != "" && s[|s| - 1] < '\U{80}'
    ensures TrailingSpace(s) == if AsciiSpace(s[|s| - 1]) then 1 else 0
  {
    if |s| >= 2 { NotWideAtEnd(s, 2); }
    if |s| >= 3 { NotWideAtEnd(s, 3); }
  }

  lemma TrailingOfBytes(prefix: string, e: string)
    requires 2 <= |e| <= 4 && e[0] >= '\U{C2}'
    requires forall i :: 1 <= i < |e| ==> '\U{80}' <= e[i] <= '\U{BF}'
    requires (|e| == 2 ==> e[0] <= '\U{DF}') && (|e| == 3 ==> e[0] >= '\U{E0}') && (|e| == 4 ==> e[0] >= '\U{F0}')
    ensures TrailingSpace(prefix + e) == if WideSpace(e) then |e| else 0
  {
    var s := prefix + e;
    var n := |s|;
    assert s[n - 1] == e[|e| - 1];
    if |e| == 2 {
      assert s[n - 2..] == e;
      assert n >= 3 ==> s[n - 3..][1] == e[0];
    } else {
      assert s[n - 2..][0] == e[|e| - 2];
      assert |e| == 3 ==> s[n - 3..] == e;
      assert |e| == 4 ==> s[n - 3..][0] == e[1];
    }
  }

  lemma TrailingOfEncoded(prefix: string, c: char)
    ensures TrailingSpace(prefix + Encode(c)) == if White(c) then |Encode(c)| else 0
  {
    EncodeShape(c);
    EncodeKeepsWhite(c);
    if c < '\U{80}' { TrailingOfByte(prefix + [c]); } else { TrailingOfBytes(prefix, Encode(c)); }
  }

  lemma {:induction false} TrimLeftOfEncoded(s: string)
    ensures TrimLeft(Encoded(s)) == Encoded(StripStart(s, White))
  {
    if s != "" {
      LeadingOfEncoded(s[0], Encoded(s[1..]));
      if White(s[0]) {
        TrimLeftOfEncoded(s[1..]);
        assert Encoded(s)[|Encode(s[0])|..] == Encoded(s[1..]);
      }
    }
  }

  lemma EncodedSnoc(front: string, last: char)
    ensures Encoded(front + [last]) == Encoded(front) + Encode(last)
    ensures White(last) ==> TrimRight(Encoded(front + [last])) == TrimRight(Encoded(front))
    ensures !White(last) ==> TrimRight(Encoded(front + [last])) == Encoded(front + [last])
  {
    FlatAppend(Encode, front, [last]);
    assert Encoded([last]) == Encode(last);
    TrailingOfEncoded(Encoded(front), last);
    var s := Encoded(front) + Encode(last);
    assert s[..|s| - |Encode(last)|] == Encoded(front);
  }

  lemma StripEndSnoc(front: string, last: char, space: char -> bool)
    ensures StripEnd(front + [last], space) == if space(last) then StripEnd(front, space) else front + [last]
  {
    assert (front + [last])[..|front|] == front;
  }

  lemma TrimRightOfSnoc(front: string, last: char)
    requires TrimRight(Encoded(front)) == Encoded(StripEnd(front, White))
    ensures TrimRight(Encoded(front + [last])) == Encoded(StripEnd(front + [last], White))
  {
    EncodedSnoc(front, last);
    StripEndSnoc(front, last, White);
  }

  lemma TrimRightOfNothing()
    ensures TrimRight(Encoded("")) == Encoded(StripEnd("", White))
  {
  }

  lemma FrontAndLast(s: string) returns (front: string, last: char)
    requires s != ""
    ensures s == front + [last]
  {
    front, last := s[..|s| - 1], s[|s| - 1];
  }

  lemma {:induction false} TrimRightOfEncoded(s: string)
    ensures TrimRight(Encoded(s)) == Encoded(StripEnd(s, White))
    decreases |s|
  {
    if s == "" {
      TrimRightOfNothing();
    } else {
      var front, last := FrontAndLast(s);
      TrimRightOfEncoded(front);
      TrimRightOfSnoc(front, last);
    }
  }

  /** Trimming bytes and trimming code points is the same. */
  lemma TrimOfEncoded(s: string)
    ensures TrimSpace(Encoded(s)) == Encoded(StripWhite(s))
  {
    TrimLeftOfEncoded(s);
    TrimRightOfEncoded(StripStart(s, White));
  }

  lemma ContinuationIsNoSpace(s: string)
    requires s != "" && '\U{80}' <= s[0] <= '\U{BF}'
    ensures LeadingSpace(s) == 0
  {
  }

  lemma {:induction false} AnySpaceOfEncoded(s: string)
    ensures AnySpace(Encoded(s)) <==> AnyWhite(s)
  {
    if s != "" {
      var e, rest := Encode(s[0]), Encoded(s[1..]);
      AnySpaceOfEncoded(s[1..]);
      LeadingOfEncoded(s[0], rest);
      EncodeShape(s[0]);
      AnySpaceSplits(e, rest);
      AnyWhiteSplits(s);
    } else {
      assert Encoded(s)[0..] == "";
    }
  }

  lemma AnyWhiteSplits(s: string)
    requires s != ""
    ensures AnyWhite(s) <==> White(s[0]) || AnyWhite(s[1..])
  {
  }

  lemma AnySpaceSplits(e: string, rest: string)
    requires e != "" && forall i :: 1 <= i < |e| ==> '\U{80}' <= e[i] <= '\U{BF}'
    ensures AnySpace(e + rest) <==> LeadingSpace(e + rest) > 0 || AnySpace(rest)
  {
    var s := e + rest;
    assert s[0..] == s;
    if AnySpace(rest) {
      var i :| 0 <= i <= |rest| && LeadingSpace(rest[i..]) > 0;
      assert s[|e| + i..] == rest[i..];
    }
    if AnySpace(s) && LeadingSpace(s) == 0 {
      var i :| 0 <= i <= |s| && LeadingSpace(s[i..]) > 0;
      if i < |e| { ContinuationIsNoSpace(s[i..]); }
      assert s[i..] == rest[i - |e|..];
    }
  }

  lemma {:induction false} AsciiOfEncoded(s: string, c: char)
    requires c < '\U{80}'
    ensures c in Encoded(s) <==> c in s
  {
    if s != "" {
      AsciiOfEncoded(s[1..], c);
      EncodeShape(s[0]);
      assert c in Encode(s[0]) <==> c == s[0];
    }
  }

  lemma FirstOfEncoded(s: string, c: char)
    requires s != "" && c < '\U{80}'
    ensures Encoded(s) != "" && (Encoded(s)[0] == c <==> s[0] == c)
  {
  }

  lemma OneLineOfEncoded(s: string)
    ensures OneLine(Encoded(s)) <==> OneLine(s)
  {
    OneLineMeaning(s);
    OneLineMeaning(Encoded(s));
    AsciiOfEncoded(s, '\U{0}');
    AsciiOfEncoded(s, '\r');
    AsciiOfEncoded(s, '\n');
  }

  lemma OneLineMeaning(s: string)
    ensures OneLine(s) <==> '\U{0}' !in s && '\r' !in s && '\n' !in s
  {
  }

  lemma NeedsQuotesOfEncoded(s: string)
    requires s != ""
    ensures NeedsQuotes(Encoded(s)) <==> ',' in s || AnyWhite(s) || s[0] in "'\"#"
  {
    AsciiOfEncoded(s, ',');
    AnySpaceOfEncoded(s);
    FirstOfEncoded(s, '\'');
    FirstOfEncoded(s, '"');
    FirstOfEncoded(s, '#');
  }

  // ---- the form and the backend ----

  lemma {:induction false} StripKeepsOneLine(s: string, space: char -> bool)
    requires OneLine(s)
    ensures OneLine(StripStart(s, space)) && OneLine(StripEnd(s, space))
  {
    if s != "" {
      StripKeepsOneLine(s[1..], space);
      StripKeepsOneLine(s[..|s| - 1], space);
    }
  }

  lemma TrimKeepsOneLine(s: string)
    requires OneLine(s)
    ensures OneLine(JsTrim(s)) && OneLine(StripWhite(s))
  {
    StripKeepsOneLine(s, JsSpace);
    StripKeepsOneLine(StripStart(s, JsSpace), JsSpace);
    StripKeepsOneLine(s, White);
    StripKeepsOneLine(StripStart(s, White), White);
  }

  /** For a name without line breaks, the form decides as the backend does on the trimmed bytes it is sent. */
  lemma FormMatchesBackend(database: string)
    requires OneLine(database)
    ensures FormAccepts(database) <==> ValidConnectionValue("mysql-db", TrimSpace(Sent(database)))
  {
    var trimmed := JsTrim(database);
    var value := StripWhite(trimmed);
    TrimKeepsOneLine(database);
    TrimKeepsOneLine(trimmed);
    TrimOfEncoded(trimmed);
    OneLineOfEncoded(value);
    AsciiOfEncoded(value, '\'');
    AsciiOfEncoded(value, '"');
    if value != "" { NeedsQuotesOfEncoded(value); }
  }

  /** The form accepts only what the backend accepts; and when it rejects a name without line breaks, the
      backend would have rejected it too. */
  lemma FormIsSafeAndTight(database: string, details: Details, path: string -> Option<string>)
    ensures FormAccepts(database) ==>
              SysbenchConfig.ResolveConnection(Sent(database), details, path) != Rejected(InvalidDatabase)
    ensures OneLine(database) && !FormAccepts(database) ==>
              SysbenchConfig.ResolveConnection(Sent(database), details, path) == Rejected(InvalidDatabase)
  {
    if OneLine(database) {
      FormMatchesBackend(database);
      TrimKeepsOneLine(database);
      OneLineOfEncoded(JsTrim(database));
    }
  }
}
