/** Writing the blob as C string literals (bba/main.cc), read back by the rules of
    sections 6.4.4.4 and 6.4.5 of ISO/IEC 9899:2011, trigraphs off. */
module CLiteral {
  import opened Basics

  // ----- The printer -----

  const QUOTE: char := '\"'
  const MAX_COLUMN := 70

  function OctalDigit(d: nat): (c: char)
    requires d < 8
    ensures IsOctalDigit(c) && c as int - '0' as int == d
  {
    "01234567"[d]
  }

  /** printf's "%o". */
  function Octal(d: Byte): string {
    if d < 8 then [OctalDigit(d)]
    else if d < 64 then [OctalDigit(d / 8), OctalDigit(d % 8)]
    else Octal3(d)
  }

  /** printf's "%03o". */
  function Octal3(d: Byte): string {
    [OctalDigit(d / 64), OctalDigit(d / 8 % 8), OctalDigit(d % 8)]
  }

  predicate IsDigit(b: Byte) { '0' as int <= b <= '9' as int }

  predicate NeedsOctal(d: Byte) { d < 32 || d >= 127 }

  predicate NeedsBackslash(d: Byte) { d == '\"' as int || d == '\'' as int || d == '\\' as int }

  /** A short octal escape is used when the next byte exists and is not a digit. */
  predicate ShortOctal(data: seq<Byte>, i: nat) { i + 1 < |data| && !IsDigit(data[i + 1]) }

  /** How byte i is written. */
  function Escape(data: seq<Byte>, i: nat): (e: string)
    requires i < |data|
    ensures e != []
  {
    var d := data[i];
    if NeedsOctal(d) then "\\" + (if ShortOctal(data, i) then Octal(d) else Octal3(d))
    else if NeedsBackslash(d) then ['\\', d as char]
    else [d as char]
  }

  /** What is written from byte i on, when `cursor` columns of the line are used, up to the closing quote. */
  function Body(data: seq<Byte>, i: nat, cursor: nat): string
    requires i <= |data|
    decreases |data| - i
  {
    if i == |data| then [QUOTE]
    else if cursor > MAX_COLUMN then [QUOTE, '\n', QUOTE] + Escape(data, i) + Body(data, i + 1, 1 + |Escape(data, i)|)
    else Escape(data, i) + Body(data, i + 1, cursor + |Escape(data, i)|)
  }

  function Literal(data: seq<Byte>): string { [QUOTE] + Body(data, 0, 1) }

  // ----- A reader of C string literals -----

  predicate IsOctalDigit(c: char) { '0' <= c <= '7' }

  /** An octal escape takes as many octal digits as follow, up to three. */
  function OctalRun(t: string, max: nat): (n: nat)
    ensures n <= |t| && n <= max
  {
    if max == 0 || t == "" || !IsOctalDigit(t[0]) then 0 else 1 + OctalRun(t[1..], max - 1)
  }

  /** The number the digits spell after the ones already read. */
  function OctalValue(t: string, read: nat): nat
    requires forall k :: 0 <= k < |t| ==> IsOctalDigit(t[k])
  {
    if t == "" then read
    else
      assert IsOctalDigit(t[0]);
      OctalValue(t[1..], read * 8 + (t[0] as int - '0' as int))
  }

  lemma {:induction false} OctalRunDigits(t: string, max: nat)
    ensures forall k :: 0 <= k < OctalRun(t, max) ==> IsOctalDigit(t[k])
  {
    if max != 0 && t != "" && IsOctalDigit(t[0]) {
      OctalRunDigits(t[1..], max - 1);
    }
  }

  function SimpleEscape(c: char): Option<Byte> {
    match c
    case '\"' => Some(34)
    case '\'' => Some(39)
    case '\\' => Some(92)
    case '?' => Some(63)
    case 'a' => Some(7)
    case 'b' => Some(8)
    case 'f' => Some(12)
    case 'n' => Some(10)
    case 'r' => Some(13)
    case 't' => Some(9)
    case 'v' => Some(11)
    case _ => None
  }

  function Cons(b: Byte, rest: Option<seq<Byte>>): Option<seq<Byte>> {
    if rest == None then None else Some([b] + rest.value)
  }

  /** Between literals: white space, and the next literal joins on. */
  function Outside(t: string): Option<seq<Byte>>
    decreases |t|
  {
    if t == "" then Some([])
    else if t[0] == QUOTE then Inside(t[1..])
    else if t[0] == '\n' || t[0] == ' ' then Outside(t[1..])
    else None
  }

  /** Inside a literal. */
  function Inside(t: string): Option<seq<Byte>>
    decreases |t|
  {
    if t == "" || t[0] == '\n' then None
    else if t[0] == QUOTE then Outside(t[1..])
    else if t[0] != '\\' then (if t[0] as int < 128 then Cons(t[0] as int, Inside(t[1..])) else None)
    else
      var n := OctalRun(t[1..], 3);
      if n > 0 then
        OctalRunDigits(t[1..], 3);
        var v := OctalValue(t[1..1 + n], 0);
        if v < 256 then Cons(v, Inside(t[1 + n..])) else None
      else if |t| > 1 && SimpleEscape(t[1]) != None then Cons(SimpleEscape(t[1]).value, Inside(t[2..]))
      else None
  }

  /** The bytes a C compiler makes of the text. */
  function Decode(t: string): Option<seq<Byte>> { Outside(t) }

  // ----- Round trip -----

  /** A short escape is never followed by an octal digit. */
  lemma BodyStart(data: seq<Byte>, i: nat, cursor: nat)
    requires i <= |data|
    ensures Body(data, i, cursor) != ""
    ensures i == |data| || !IsDigit(data[i]) ==> !IsOctalDigit(Body(data, i, cursor)[0])
  {
  }

  /** Octal digits followed by something else, or three of them, are read back as their value. */
  lemma OctalReadsBack(e: string, d: Byte, rest: string)
    requires 0 < |e| <= 3 && rest != "" && (|e| == 3 || !IsOctalDigit(rest[0]))
    requires forall k :: 0 <= k < |e| ==> IsOctalDigit(e[k])
    requires OctalValue(e, 0) == d
    ensures Inside("\\" + e + rest) == Cons(d, Inside(rest))
  {
    hide OctalValue, OctalRun;
    var t := "\\" + e + rest;
    assert t[1..] == e + rest;
    OctalRunIs(e, rest, 3);
    assert t[1..1 + |e|] == e && t[1 + |e|..] == rest;
  }

  lemma OctalStep(a: nat, t: string, read: nat)
    requires a < 8 && forall k :: 0 <= k < |t| ==> IsOctalDigit(t[k])
    ensures OctalValue([OctalDigit(a)] + t, read) == OctalValue(t, read * 8 + a)
  {
    hide IsOctalDigit;
    assert ([OctalDigit(a)] + t)[1..] == t;
  }

  lemma OneDigit(a: nat, read: nat)
    requires a < 8
    ensures OctalValue([OctalDigit(a)], read) == read * 8 + a
  {
    OctalStep(a, "", read);
    assert [OctalDigit(a)] + "" == [OctalDigit(a)];
  }

  lemma TwoDigits(a: nat, b: nat, read: nat)
    requires a < 8 && b < 8
    ensures OctalValue([OctalDigit(a), OctalDigit(b)], read) == (read * 8 + a) * 8 + b
  {
    hide OctalValue, OctalDigit, IsOctalDigit;
    OctalStep(a, [OctalDigit(b)], read);
    OneDigit(b, read * 8 + a);
    assert [OctalDigit(a)] + [OctalDigit(b)] == [OctalDigit(a), OctalDigit(b)];
  }

  lemma ThreeDigits(a: nat, b: nat, c: nat)
    requires a < 8 && b < 8 && c < 8
    ensures OctalValue([OctalDigit(a), OctalDigit(b), OctalDigit(c)], 0) == (a * 8 + b) * 8 + c
  {
    hide OctalValue, OctalDigit, IsOctalDigit;
    OctalStep(a, [OctalDigit(b), OctalDigit(c)], 0);
    TwoDigits(b, c, a);
    assert [OctalDigit(a)] + [OctalDigit(b), OctalDigit(c)] == [OctalDigit(a), OctalDigit(b), OctalDigit(c)];
  }

  /** Both octal forms spell the byte. */
  lemma OctalSpells(d: Byte)
    ensures OctalValue(Octal(d), 0) == d && OctalValue(Octal3(d), 0) == d
  {
    hide OctalValue, OctalDigit;
    if d < 8 { OneDigit(d, 0); } else if d < 64 { TwoDigits(d / 8, d % 8, 0); }
    ThreeDigits(d / 64, d / 8 % 8, d % 8);
    EightsOf(d);
  }

  lemma EightsOf(d: Byte)
    ensures (d / 64 * 8 + d / 8 % 8) * 8 + d % 8 == d && d / 8 * 8 + d % 8 == d
  {
  }

  lemma {:induction false} OctalRunIs(e: string, rest: string, max: nat)
    requires |e| <= max && forall k :: 0 <= k < |e| ==> IsOctalDigit(e[k])
    requires |e| == max || (rest != "" && !IsOctalDigit(rest[0]))
    ensures OctalRun(e + rest, max) == |e|
  {
    if e != "" {
      assert (e + rest)[1..] == e[1..] + rest;
      OctalRunIs(e[1..], rest, max - 1);
    } else {
      assert e + rest == rest;
    }
  }

  lemma PlainReadsBack(d: Byte, rest: string)
    requires !NeedsOctal(d) && !NeedsBackslash(d)
    ensures Inside([d as char] + rest) == Cons(d, Inside(rest))
  {
    hide Outside, OctalRun, OctalValue, SimpleEscape;
    assert ([d as char] + rest)[1..] == rest;
  }

  lemma BackslashReadsBack(d: Byte, rest: string)
    requires NeedsBackslash(d)
    ensures Inside(['\\', d as char] + rest) == Cons(d, Inside(rest))
  {
    var t := ['\\', d as char] + rest;
    assert t[2..] == rest && t[1..][0] == d as char;
    assert OctalRun(t[1..], 3) == 0 && SimpleEscape(d as char) == Some(d);
    hide OctalRun, OctalValue, SimpleEscape, Outside;
  }

  lemma OctalDigitsOf(d: Byte)
    ensures 0 < |Octal(d)| <= 3 && forall k :: 0 <= k < |Octal(d)| ==> IsOctalDigit(Octal(d)[k])
    ensures |Octal3(d)| == 3 && forall k :: 0 <= k < 3 ==> IsOctalDigit(Octal3(d)[k])
  {
    hide IsOctalDigit;
  }

  lemma EscapeReadsBack(data: seq<Byte>, i: nat, rest: string)
    requires i < |data| && rest != "" && (ShortOctal(data, i) ==> !IsOctalDigit(rest[0]))
    ensures Inside(Escape(data, i) + rest) == Cons(data[i], Inside(rest))
  {
    hide Inside, Octal, Octal3, OctalValue, IsOctalDigit, Cons, ShortOctal;
    var d := data[i];
    if NeedsOctal(d) {
      OctalSpells(d);
      OctalDigitsOf(d);
      OctalReadsBack(if ShortOctal(data, i) then Octal(d) else Octal3(d), d, rest);
    } else if NeedsBackslash(d) {
      BackslashReadsBack(d, rest);
    } else {
      PlainReadsBack(d, rest);
    }
  }

  lemma BodyStep(data: seq<Byte>, i: nat, cursor: nat)
    requires i < |data|
    ensures var rest := Escape(data, i) + Body(data, i + 1, (if cursor > MAX_COLUMN then 1 else cursor) + |Escape(data, i)|);
      Body(data, i, cursor) == if cursor > MAX_COLUMN then [QUOTE, '\n', QUOTE] + rest else rest
  {
    hide Escape;
    if cursor > MAX_COLUMN {
      var e, rest := Escape(data, i), Body(data, i + 1, 1 + |Escape(data, i)|);
      assert [QUOTE, '\n', QUOTE] + e + rest == [QUOTE, '\n', QUOTE] + (e + rest);
    }
  }

  lemma BodyEnd(data: seq<Byte>, cursor: nat)
    ensures Inside(Body(data, |data|, cursor)) == Some([])
  {
    assert Body(data, |data|, cursor)[1..] == "";
  }

  /** From any byte and column on, the rest of the text is read back as the rest of the bytes. */
  lemma {:induction false} BodyReadsBack(data: seq<Byte>, i: nat, cursor: nat)
    requires i <= |data|
    ensures Inside(Body(data, i, cursor)) == Some(data[i..])
    decreases |data| - i
  {
    hide Body, Escape, Inside, IsDigit, IsOctalDigit;
    if i == |data| {
      BodyEnd(data, cursor);
    } else {
      var next := (if cursor > MAX_COLUMN then 1 else cursor) + |Escape(data, i)|;
      BodyReadsBack(data, i + 1, next);
      assert Inside(Escape(data, i) + Body(data, i + 1, next)) == Some(data[i..]) by {
        BodyStart(data, i + 1, next);
        EscapeReadsBack(data, i, Body(data, i + 1, next));
        assert data[i..] == [data[i]] + data[i + 1..];
      }
      BodyStep(data, i, cursor);
      LineBreak(Escape(data, i) + Body(data, i + 1, next));
    }
  }

  /** Closing a literal and opening one on the next line changes nothing. */
  lemma LineBreak(t: string)
    ensures Inside([QUOTE, '\n', QUOTE] + t) == Inside(t)
  {
    var u := [QUOTE, '\n', QUOTE] + t;
    assert u[1..][1..] == [QUOTE] + t && ([QUOTE] + t)[1..] == t;
    assert Inside(u) == Outside(u[1..]) == Outside(u[1..][1..]);
  }

  /** Every byte sequence survives: the compiler sees exactly the bytes that were printed. */
  lemma RoundTrip(data: seq<Byte>)
    ensures Decode(Literal(data)) == Some(data)
  {
    hide Inside, Body;
    BodyReadsBack(data, 0, 1);
    assert Literal(data)[1..] == Body(data, 0, 1);
    assert data[0..] == data;
  }

  /** Where a new line is due, the literal is closed and the next one opened. */
  function Break(column: nat): string { if column > MAX_COLUMN then [QUOTE, '\n', QUOTE] else [] }

  lemma BodyNext(data: seq<Byte>, i: nat, cursor: nat, out: string)
    requires i < |data|
    ensures var next := (if cursor > MAX_COLUMN then 1 else cursor) + |Escape(data, i)|;
      out + Body(data, i, cursor) == out + Break(cursor) + Escape(data, i) + Body(data, i + 1, next)
  {
    hide Escape, Body;
    BodyStep(data, i, cursor);
    var e, next := Escape(data, i), (if cursor > MAX_COLUMN then 1 else cursor) + |Escape(data, i)|;
    Regroup(out + Break(cursor), e, Body(data, i + 1, next));
    Regroup(out, Break(cursor), e + Body(data, i + 1, next));
    assert [] + (e + Body(data, i + 1, next)) == e + Body(data, i + 1, next);
  }

  /** The printing loop: a compiler reads its output as exactly the data. */
  method Print(data: seq<Byte>) returns (out: string)
    ensures out == Literal(data) && Decode(out) == Some(data)
  {
    hide Body, Octal, Octal3, Literal, Decode;
    out := [QUOTE];
    var cursor := 1;
    LiteralStarts(data);
    for i := 0 to |data|
      invariant cursor > 0 && out + Body(data, i, cursor) == Literal(data)
    {
      BodyNext(data, i, cursor, out);
      ghost var start, column := out, cursor;
      if cursor > MAX_COLUMN {
        out := out + [QUOTE];
        out := out + ['\n'];
        cursor := 0;
      }
      if cursor == 0 {
        out := out + [QUOTE];
        cursor := 1;
      }
      assert out == start + Break(column);
      var d := data[i];
      if d < 32 || d >= 127 {
        var digits: string;
        if i + 1 < |data| && (data[i + 1] < '0' as int || '9' as int < data[i + 1]) {
          digits := "\\" + Octal(d);
        } else {
          digits := "\\" + Octal3(d);
        }
        out := out + digits;
        cursor := cursor + |digits|;
      } else if d == '\"' as int || d == '\'' as int || d == '\\' as int {
        out := out + ['\\', d as char];
        cursor := cursor + 2;
      } else {
        out := out + [d as char];
        cursor := cursor + 1;
      }
    }
    LiteralEnds(data, cursor);
    out := out + [QUOTE];
    RoundTrip(data);
  }

  lemma LiteralStarts(data: seq<Byte>)
    ensures [QUOTE] + Body(data, 0, 1) == Literal(data)
  {
    hide Body;
  }

  lemma LiteralEnds(data: seq<Byte>, cursor: nat)
    ensures Body(data, |data|, cursor) == [QUOTE]
  {
  }
}
