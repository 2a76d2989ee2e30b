/** Numbers written as digits, and read back: decimal and hexadecimal, the latter in lower case. */
module Digits {
  import opened Basics

  predicate Base(base: nat) { base == 10 || base == 16 }

  function Digit(d: nat): (c: char)
    requires d < 16
    ensures DigitValue(c) == Some(d) && c == "0123456789abcdef"[d]
  {
    if d < 10 then ('0' as int + d) as char else ('a' as int + (d - 10)) as char
  }

  function DigitValue(c: char): (d: Option<nat>)
    ensures d.Some? ==> d.value < 16
  {
    if '0' <= c <= '9' then Some(c as int - '0' as int)
    else if 'a' <= c <= 'f' then Some(c as int - 'a' as int + 10)
    else if 'A' <= c <= 'F' then Some(c as int - 'A' as int + 10)
    else None
  }

  predicate IsDigit(c: char, base: nat) { DigitValue(c).Some? && DigitValue(c).value < base }

  predicate AllDigits(s: string, base: nat) { forall k :: 0 <= k < |s| ==> IsDigit(s[k], base) }

  function Numeral(n: nat, base: nat): (s: string)
    requires Base(base)
    ensures s != "" && AllDigits(s, base)
  {
    if n < base then [Digit(n)] else Numeral(n / base, base) + [Digit(n % base)]
  }

  function Zeros(n: nat): (s: string)
    ensures |s| == n
  {
    seq(n, k => '0')
  }

  /** At least `width` digits, with zeros in front. */
  function Padded(n: nat, base: nat, width: nat): (s: string)
    requires Base(base)
    ensures |s| >= width && s != ""
  {
    var s := Numeral(n, base);
    if |s| < width then Zeros(width - |s|) + s else s
  }

  lemma LastDigit(s: string, base: nat)
    requires s != "" && AllDigits(s, base)
    ensures DigitValue(s[|s| - 1]).Some? && AllDigits(s[..|s| - 1], base)
  {
    assert IsDigit(s[|s| - 1], base);
  }

  /** The number the digits spell. */
  function Value(s: string, base: nat): nat
    requires AllDigits(s, base)
  {
    if s == "" then 0
    else
      LastDigit(s, base);
      Value(s[..|s| - 1], base) * base + DigitValue(s[|s| - 1]).value
  }

  lemma {:induction false} ValueOfNumeral(n: nat, base: nat)
    requires Base(base)
    ensures Value(Numeral(n, base), base) == n
  {
    var s := Numeral(n, base);
    if n < base {
      assert s[..0] == "";
      assert Value(s[..0], base) == 0;
    } else {
      ValueOfNumeral(n / base, base);
      assert s[..|s| - 1] == Numeral(n / base, base);
      assert n / base * base + n % base == n;
    }
  }

  lemma {:induction false} LeadingZeros(k: nat, s: string, base: nat)
    requires Base(base) && AllDigits(s, base)
    ensures AllDigits(Zeros(k) + s, base) && Value(Zeros(k) + s, base) == Value(s, base)
    decreases k + |s|
  {
    var t := Zeros(k) + s;
    if s != "" {
      assert t[..|t| - 1] == Zeros(k) + s[..|s| - 1];
      LeadingZeros(k, s[..|s| - 1], base);
    } else if k > 0 {
      assert t[..|t| - 1] == Zeros(k - 1) + s;
      LeadingZeros(k - 1, s, base);
    }
  }

  /** Padding does not change what is read. */
  lemma ValueOfPadded(n: nat, base: nat, width: nat)
    requires Base(base)
    ensures AllDigits(Padded(n, base, width), base) && Value(Padded(n, base, width), base) == n
  {
    var s := Numeral(n, base);
    ValueOfNumeral(n, base);
    hide Value, Numeral, AllDigits;
    if |s| < width {
      LeadingZeros(width - |s|, s, base);
    }
  }

  /** How many digits a text starts with. */
  function DigitRun(t: string, base: nat): (n: nat)
    ensures n <= |t| && AllDigits(t[..n], base)
    ensures n < |t| ==> !IsDigit(t[n], base)
  {
    if t == "" || !IsDigit(t[0], base) then 0
    else
      var n := 1 + DigitRun(t[1..], base);
      assert t[..n] == [t[0]] + t[1..][..n - 1];
      n
  }

  /** A number is read up to where its digits end. */
  lemma {:induction false} RunEnds(s: string, rest: string, base: nat)
    requires AllDigits(s, base) && (rest == "" || !IsDigit(rest[0], base))
    ensures DigitRun(s + rest, base) == |s| && (s + rest)[..|s|] == s && (s + rest)[|s|..] == rest
  {
    hide IsDigit;
    if s == "" {
      assert s + rest == rest;
    } else {
      assert (s + rest)[1..] == s[1..] + rest && (s + rest)[0] == s[0];
      RunEnds(s[1..], rest, base);
    }
  }

  // ----- What a padded numeral spells -----

  /** n in lower-case hexadecimal, padded with zeros to `width` digits. */
  predicate HexText(s: string, n: nat, width: nat) {
    && AllDigits(s, 16) && (forall k :: 0 <= k < |s| ==> !('A' <= s[k] <= 'F'))
    && |s| >= width && (|s| > width && |s| > 1 ==> s[0] != '0') && Value(s, 16) == n
  }

  lemma {:induction false} HexSpells(n: nat)
    ensures var s := Numeral(n, 16); AllDigits(s, 16) && Value(s, 16) == n && (n > 0 ==> s[0] != '0') && (|s| > 1 ==> n > 0)
    ensures forall k :: 0 <= k < |Numeral(n, 16)| ==> !('A' <= Numeral(n, 16)[k] <= 'F')
  {
    ValueOfNumeral(n, 16);
    if n >= 16 {
      HexSpells(n / 16);
      assert Numeral(n, 16) == Numeral(n / 16, 16) + [Digit(n % 16)];
    } else {
      assert Numeral(n, 16) == [Digit(n)];
    }
  }

  lemma PaddedSpells(n: nat, width: nat)
    ensures HexText(Padded(n, 16, width), n, width)
  {
    HexSpells(n);
    ValueOfPadded(n, 16, width);
    hide Value, Numeral, AllDigits;
  }
}
