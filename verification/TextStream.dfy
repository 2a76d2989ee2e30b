/** Reading a text stream as ecp5/config.cc does: tokens, numbers and lines of the C++ library, and the
    helpers that skip blanks, comments and ends of lines.  A stream is the text still to be read; a
    stream that has failed reads like one at its end. */
module TextStream {
  import opened Digits

  predicate IsSpace(c: char) { c == ' ' || c == '\t' || c == '\n' || c == '\r' || c as int == 11 || c as int == 12 }

  predicate NoSpace(s: string) { forall k :: 0 <= k < |s| ==> !IsSpace(s[k]) }

  predicate IsToken(s: string) { s != "" && NoSpace(s) }

  // ----- The library's readers -----

  function DropSpace(t: string): (r: string)
    ensures |r| <= |t|
  {
    if t != "" && IsSpace(t[0]) then DropSpace(t[1..]) else t
  }

  function TokenLen(t: string): (n: nat)
    ensures n <= |t|
  {
    if t == "" || IsSpace(t[0]) then 0 else 1 + TokenLen(t[1..])
  }

  /** `in >> s`: the token and what follows; nothing at the end of the stream. */
  function ReadToken(t: string): (r: (string, string))
    ensures |r.1| <= |t| && (t != "" ==> |r.1| < |t|)
  {
    var u := DropSpace(t);
    (u[..TokenLen(u)], u[TokenLen(u)..])
  }

  /** `in >> n` for a 16-bit number: without digits, or out of range, the stream fails. */
  function ReadNumber(t: string, base: nat): (r: (nat, string))
    requires Base(base)
    ensures r.0 < 0x1_0000
    ensures |r.1| <= |t| && (t != "" ==> |r.1| < |t|)
  {
    var u := DropSpace(t);
    var n := DigitRun(u, base);
    if n == 0 then (0, "")
    else if Value(u[..n], base) >= 0x1_0000 then (0xFFFF, "")
    else (Value(u[..n], base), u[n..])
  }

  function LineLen(t: string): (n: nat)
    ensures n <= |t|
  {
    if t == "" || t[0] == '\n' then 0 else 1 + LineLen(t[1..])
  }

  /** `getline`: up to the end of the line, which is taken too. */
  function ReadLine(t: string): (r: (string, string))
    ensures |r.1| <= |t|
  {
    var n := LineLen(t);
    (t[..n], if n < |t| then t[n + 1..] else "")
  }

  // ----- Skipping -----

  predicate IsBlank(c: char, nl: bool) { c == ' ' || c == '\t' || (nl && (c == '\n' || c == '\r')) }

  function SkipBlank(t: string, nl: bool): (r: string)
    ensures |r| <= |t| && (r == "" || !IsBlank(r[0], nl))
  {
    if t != "" && IsBlank(t[0], nl) then SkipBlank(t[1..], nl) else t
  }

  function DropComment(t: string): (r: string)
    ensures |r| <= |t|
  {
    t[LineLen(t)..]
  }

  /** Blank lines and comments. */
  function Skip(t: string): (r: string)
    ensures |r| <= |t| && (r == "" || (!IsBlank(r[0], true) && r[0] != '#'))
    decreases |t|
  {
    var u := SkipBlank(t, true);
    if u != "" && u[0] == '#' then Skip(DropComment(u)) else u
  }

  predicate AtEnd(t: string) { t == "" || t[0] == '.' }

  class Input {
    var text: string

    constructor (text: string)
      ensures this.text == text
    {
      this.text := text;
    }

    method DoSkipBlank(nl: bool)
      modifies this
      ensures text == SkipBlank(old(text), nl)
    {
      while text != "" && (text[0] == ' ' || text[0] == '\t' || (nl && (text[0] == '\n' || text[0] == '\r')))
        invariant SkipBlank(text, nl) == SkipBlank(old(text), nl)
        decreases |text|
      {
        text := text[1..];
      }
    }

    /** At the end of a line or of the stream; a comment counts as the end of its line. */
    method SkipCheckEol() returns (eol: bool)
      modifies this
      ensures var u := SkipBlank(old(text), false);
        if u != "" && u[0] == '#' then eol && text == DropComment(u) else text == u && (eol <==> u == "" || u[0] == '\n')
    {
      DoSkipBlank(false);
      if text != "" && text[0] == '#' {
        ghost var u := text;
        text := text[1..];
        while text != "" && text[0] != '\n'
          invariant DropComment(text) == DropComment(u)
          decreases |text|
        {
          text := text[1..];
        }
        return true;
      }
      return text == "" || text[0] == '\n';
    }

    method SkipAll()
      modifies this
      ensures text == Skip(old(text))
    {
      DoSkipBlank(true);
      while text != "" && text[0] == '#'
        invariant text == SkipBlank(text, true) && Skip(text) == Skip(old(text))
        decreases |text|
      {
        ghost var u := text;
        var _ := SkipCheckEol();
        DoSkipBlank(true);
        assert Skip(u) == Skip(DropComment(u));
      }
    }

    method SkipCheckEor() returns (eor: bool)
      modifies this
      ensures text == Skip(old(text)) && (eor <==> AtEnd(text))
    {
      SkipAll();
      eor := text == "" || text[0] == '.';
    }

    method SkipCheckEof() returns (eof: bool)
      modifies this
      ensures text == Skip(old(text)) && (eof <==> text == "")
    {
      SkipAll();
      eof := text == "";
    }

    method GetToken() returns (s: string)
      modifies this
      ensures (s, text) == ReadToken(old(text))
    {
      var r := ReadToken(text);
      s, text := r.0, r.1;
    }

    method GetNumber(base: nat) returns (n: nat)
      requires Base(base)
      modifies this
      ensures (n, text) == ReadNumber(old(text), base)
    {
      var r := ReadNumber(text, base);
      n, text := r.0, r.1;
    }

    method GetLine() returns (line: string)
      modifies this
      ensures (line, text) == ReadLine(old(text))
    {
      var r := ReadLine(text);
      line, text := r.0, r.1;
    }
  }

  // ----- Reading back what was written -----

  lemma {:induction false} TokenLenIs(tok: string, rest: string)
    requires NoSpace(tok) && (rest == "" || IsSpace(rest[0]))
    ensures TokenLen(tok + rest) == |tok|
  {
    if tok == "" {
      assert tok + rest == rest;
    } else {
      assert (tok + rest)[1..] == tok[1..] + rest;
      TokenLenIs(tok[1..], rest);
    }
  }

  /** A token is read whole, up to the white space behind it. */
  lemma TokenReads(tok: string, rest: string)
    requires IsToken(tok) && (rest == "" || IsSpace(rest[0]))
    ensures ReadToken(tok + rest) == (tok, rest)
    ensures ReadToken(" " + tok + rest) == (tok, rest)
  {
    TokenLenIs(tok, rest);
    assert (" " + tok + rest)[1..] == tok + rest;
    assert (tok + rest)[..|tok|] == tok && (tok + rest)[|tok|..] == rest;
  }

  lemma NumberReads(n: nat, base: nat, width: nat, rest: string)
    requires Base(base) && n < 0x1_0000 && (rest == "" || IsSpace(rest[0]))
    ensures ReadNumber(Padded(n, base, width) + rest, base) == (n, rest)
    ensures ReadNumber(" " + Padded(n, base, width) + rest, base) == (n, rest)
  {
    var s := Padded(n, base, width);
    ValueOfPadded(n, base, width);
    SpaceIsNoDigit(rest, base);
    RunEnds(s, rest, base);
    DigitIsNoSpace(s, base);
    hide Value, Padded, DigitRun, AllDigits;
    assert (s + rest)[0] == s[0];
    assert (" " + s + rest)[1..] == s + rest;
  }

  lemma SpaceIsNoDigit(rest: string, base: nat)
    ensures rest != "" && IsSpace(rest[0]) ==> !IsDigit(rest[0], base)
  {
  }

  lemma DigitIsNoSpace(s: string, base: nat)
    requires AllDigits(s, base)
    ensures NoSpace(s)
  {
    forall k | 0 <= k < |s| ensures !IsSpace(s[k]) { assert IsDigit(s[k], base); }
  }

  lemma {:induction false} LineLenIs(line: string, rest: string)
    requires '\n' !in line
    ensures LineLen(line + "\n" + rest) == |line|
  {
    if line == "" {
      assert line + "\n" + rest == "\n" + rest;
    } else {
      assert (line + "\n" + rest)[1..] == line[1..] + "\n" + rest && line[0] in line;
      LineLenIs(line[1..], rest);
    }
  }

  lemma LineReads(line: string, rest: string)
    requires '\n' !in line
    ensures ReadLine(line + "\n" + rest) == (line, rest)
  {
    LineLenIs(line, rest);
    var t := line + "\n" + rest;
    assert t[..|line|] == line && t[|line| + 1..] == rest;
  }

  /** Line ends in front make no difference. */
  lemma SkipNewline(t: string)
    ensures Skip("\n" + t) == Skip(t)
  {
    assert ("\n" + t)[1..] == t;
  }

  /** A comment line in front makes no difference. */
  lemma SkipComment(line: string, rest: string)
    requires '\n' !in line
    ensures Skip("#" + line + "\n" + rest) == Skip(rest)
  {
    var t := "#" + line + "\n" + rest;
    LineLenIs("#" + line, rest);
    assert DropComment(t) == "\n" + rest;
    hide LineLen, DropComment;
    assert SkipBlank(t, true) == t;
    assert Skip(t) == Skip("\n" + rest);
    SkipNewline(rest);
  }

  lemma SkipStops(t: string)
    requires t != "" && !IsBlank(t[0], true) && t[0] != '#'
    ensures Skip(t) == t
  {
  }
}
