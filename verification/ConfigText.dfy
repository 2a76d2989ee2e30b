/** The text form of a chip configuration, printed and read back (ecp5/config.cc). */
module ConfigText {
  import opened Basics
  import Bits
  import opened Config
  import opened Digits
  import opened TextStream

  // ----- Values -----

  /** Bits are written most significant first. */
  function BitsText(v: seq<bool>): (s: string)
    ensures |s| == |v| && NoSpace(s)
  {
    seq(|v|, k requires 0 <= k < |v| => if v[|v| - 1 - k] then '1' else '0')
  }

  function ReadBits(s: string): Option<seq<bool>> {
    if forall k :: 0 <= k < |s| ==> s[k] == '0' || s[k] == '1' then
      Some(seq(|s|, k requires 0 <= k < |s| => s[|s| - 1 - k] == '1'))
    else None
  }

  predicate IsInt(n: int) { -0x8000_0000 <= n < 0x8000_0000 }

  function IntText(n: int): (s: string)
    ensures s != ""
  {
    if n < 0 then "-" + Numeral(-n, 10) else Numeral(n, 10)
  }

  /** `stoi`: a sign, then the digits the text starts with; no digits or no int throws. */
  function Stoi(s: string): Option<int> {
    var negative := s != "" && s[0] == '-';
    var d := if s != "" && (s[0] == '-' || s[0] == '+') then s[1..] else s;
    var k := DigitRun(d, 10);
    if k == 0 then None
    else
      var m: int := Value(d[..k], 10);
      var n := if negative then -m else m;
      if IsInt(n) then Some(n) else None
  }

  function FindB(s: string): (i: nat)
    ensures i <= |s| && (i < |s| ==> s[i] == 'B')
  {
    if s == "" || s[0] == 'B' then 0 else 1 + FindB(s[1..])
  }

  /** cbit_from_str; an inverted bit is refused by its one caller. */
  function ReadUnknown(s: string): Option<ConfigUnknown> {
    var b := FindB(s);
    if s == "" || s[0] != 'F' || b == |s| then None
    else
      var frame, bit := Stoi(s[1..b]), Stoi(s[b + 1..]);
      if frame == None || bit == None then None else Some(ConfigUnknown(frame.value, bit.value))
  }

  // ----- The lines of a tile -----

  function UnknownText(u: ConfigUnknown): string { "F" + IntText(u.frame) + "B" + IntText(u.bit) }

  function Kind(it: Item): string {
    match it
    case Arc(_) => "arc:"
    case Word(_) => "word:"
    case Enum(_) => "enum:"
    case Unknown(_) => "unknown:"
  }

  function Two(a: string, b: string): string { " " + a + (" " + b) }

  function Fields(it: Item): string {
    match it
    case Arc(a) => Two(a.sink, a.source)
    case Word(w) => Two(w.name, BitsText(w.value))
    case Enum(e) => Two(e.name, e.value)
    case Unknown(u) => " " + UnknownText(u)
  }

  function ItemText(it: Item): string { Kind(it) + (Fields(it) + "\n") }

  predicate ValidItem(it: Item) {
    match it
    case Arc(a) => IsToken(a.sink) && IsToken(a.source)
    case Word(w) => IsToken(w.name) && w.value != []
    case Enum(e) => IsToken(e.name) && IsToken(e.value)
    case Unknown(u) => IsInt(u.frame) && IsInt(u.bit)
  }

  function AddItem(tc: TileConfig, it: Item): TileConfig {
    match it
    case Arc(a) => tc.(carcs := tc.carcs + [a])
    case Word(w) => tc.(cwords := tc.cwords + [w])
    case Enum(e) => tc.(cenums := tc.cenums + [e])
    case Unknown(u) => tc.(cunknowns := tc.cunknowns + [u])
  }

  /** One line of the given kind; None is a failed assertion. */
  function ReadItem(kind: string, t: string): (r: Option<(Item, string)>)
    ensures r.Some? ==> |r.value.1| <= |t|
  {
    var first := ReadToken(t);
    var second := ReadToken(first.1);
    if kind == "arc:" then Some((Arc(ConfigArc(first.0, second.0)), second.1))
    else if kind == "word:" then
      var v := ReadBits(second.0);
      if v == None then None else Some((Word(ConfigWord(first.0, v.value)), second.1))
    else if kind == "enum:" then Some((Enum(ConfigEnum(first.0, second.0)), second.1))
    else if kind == "unknown:" then
      var u := ReadUnknown(first.0);
      if u == None then None else Some((Unknown(u.value), first.1))
    else None
  }

  function LinesOf(items: seq<Item>): string {
    if items == [] then "" else ItemText(items[0]) + LinesOf(items[1..])
  }

  function TileText(tc: TileConfig): string { LinesOf(ItemSeq(tc)) }

  function ReadTile(t: string, tc: TileConfig): (r: Option<(TileConfig, string)>)
    ensures r.Some? ==> |r.value.1| <= |t| && AtEnd(r.value.1)
    decreases |t|
  {
    var u := Skip(t);
    if AtEnd(u) then Some((tc, u))
    else
      var kind := ReadToken(u);
      var item := ReadItem(kind.0, kind.1);
      if item == None then None else ReadTile(item.value.1, AddItem(tc, item.value.0))
  }

  // ----- Values read back -----

  lemma BitsReadBack(v: seq<bool>)
    ensures ReadBits(BitsText(v)) == Some(v)
  {
    var s := BitsText(v);
    assert seq(|s|, k requires 0 <= k < |s| => s[|s| - 1 - k] == '1') == v;
  }

  lemma NumeralRuns(m: nat)
    ensures var d := Numeral(m, 10); DigitRun(d, 10) == |d| && Value(d[..|d|], 10) == m && d[0] != '-' && d[0] != '+'
  {
    var d := Numeral(m, 10);
    ValueOfNumeral(m, 10);
    RunEnds(d, "", 10);
    SignIsNoDigit();
    assert IsDigit(d[0], 10);
    hide Value, Numeral, DigitRun, IsDigit;
    assert d + "" == d && d[..|d|] == d;
  }

  lemma IntReadsBack(n: int)
    requires IsInt(n)
    ensures Stoi(IntText(n)) == Some(n)
  {
    var d := Numeral(if n < 0 then -n else n, 10);
    NumeralRuns(if n < 0 then -n else n);
    hide Value, Numeral, DigitRun;
    assert n < 0 ==> IntText(n)[0] == '-' && IntText(n)[1..] == d;
  }

  lemma SignIsNoDigit()
    ensures !IsDigit('-', 10) && !IsDigit('+', 10) && !IsDigit('B', 10)
  {
  }

  lemma {:induction false} FirstB(s: string, rest: string)
    requires 'B' !in s
    ensures FindB(s + "B" + rest) == |s|
  {
    if s == "" {
      assert s + "B" + rest == "B" + rest;
    } else {
      assert (s + "B" + rest)[1..] == s[1..] + "B" + rest && s[0] in s;
      FirstB(s[1..], rest);
    }
  }

  lemma NoLetters(n: int)
    ensures 'B' !in IntText(n) && NoSpace(IntText(n))
  {
    SignIsNoDigit();
    var s := Numeral(if n < 0 then -n else n, 10);
    DigitIsNoSpace(s, 10);
    assert forall k :: 0 <= k < |s| ==> IsDigit(s[k], 10);
    hide IsDigit, Numeral;
  }

  lemma UnknownParts(f: string, b: string)
    requires 'B' !in f
    ensures var s := "F" + f + "B" + b;
      s[0] == 'F' && FindB(s) == |f| + 1 && s[1..|f| + 1] == f && s[|f| + 2..] == b
  {
    FirstB("F" + f, b);
    hide FindB;
  }

  lemma UnknownToken(f: string, b: string)
    requires NoSpace(f) && NoSpace(b)
    ensures IsToken("F" + f + "B" + b)
  {
  }

  lemma UnknownReadsBack(u: ConfigUnknown)
    requires IsInt(u.frame) && IsInt(u.bit)
    ensures ReadUnknown(UnknownText(u)) == Some(u) && IsToken(UnknownText(u))
  {
    var f, b := IntText(u.frame), IntText(u.bit);
    hide IntText, Stoi, IsDigit, IsInt, FindB, IsSpace;
    NoLetters(u.frame);
    NoLetters(u.bit);
    IntReadsBack(u.frame);
    IntReadsBack(u.bit);
    UnknownParts(f, b);
    UnknownToken(f, b);
  }

  // ----- Tiles read back -----

  /** Reading a tile starts by skipping. */
  lemma TileSkips(t: string, u: string, tc: TileConfig)
    requires Skip(t) == Skip(u)
    ensures ReadTile(t, tc) == ReadTile(u, tc)
  {
    hide Skip, ReadToken, ReadItem;
  }

  lemma TwoTokens(a: string, b: string, rest: string)
    requires IsToken(a) && IsToken(b) && rest != "" && IsSpace(rest[0])
    ensures var first := ReadToken(Two(a, b) + rest); first.0 == a && ReadToken(first.1) == (b, rest)
  {
    TokenReads(a, " " + b + rest);
    TokenReads(b, rest);
    hide ReadToken, IsSpace;
    assert Two(a, b) + rest == " " + a + (" " + b + rest);
  }

  lemma KindReads(it: Item, rest: string)
    requires rest != "" && rest[0] == ' '
    ensures ReadToken(Kind(it) + rest) == (Kind(it), rest) && Skip(Kind(it) + rest) == Kind(it) + rest && !AtEnd(Kind(it) + rest)
  {
    TokenReads(Kind(it), rest);
    SkipStops(Kind(it) + rest);
    hide ReadToken, Skip;
  }

  /** The fields of a line are read back, whatever white space follows. */
  lemma FieldsReadBack(it: Item, rest: string)
    requires ValidItem(it) && rest != "" && IsSpace(rest[0])
    ensures ReadItem(Kind(it), Fields(it) + rest) == Some((it, rest))
  {
    hide ReadToken, ReadUnknown, BitsText, ReadBits, UnknownText, Two, IsSpace, NoSpace;
    match it
    case Arc(a) => TwoTokens(a.sink, a.source, rest);
    case Word(w) =>
      BitsReadBack(w.value);
      TwoTokens(w.name, BitsText(w.value), rest);
    case Enum(e) => TwoTokens(e.name, e.value, rest);
    case Unknown(u) =>
      UnknownReadsBack(u);
      TokenReads(UnknownText(u), rest);
  }

  lemma ItemParts(it: Item, rest: string)
    ensures ItemText(it) + rest == Kind(it) + (Fields(it) + ("\n" + rest))
  {
    hide Kind, Fields;
    Regroup(Kind(it), Fields(it) + "\n", rest);
    Regroup(Fields(it), "\n", rest);
  }

  /** A line adds its item, whatever follows. */
  lemma ItemReads(tc: TileConfig, it: Item, rest: string)
    requires ValidItem(it)
    ensures ReadTile(ItemText(it) + rest, tc) == ReadTile(rest, AddItem(tc, it))
  {
    FieldsReadBack(it, "\n" + rest);
    assert Fields(it)[0] == ' ';
    ItemParts(it, rest);
    hide ReadToken, ReadItem, Skip, Kind, Fields, ItemText, AtEnd, AddItem;
    KindReads(it, Fields(it) + ("\n" + rest));
    SkipNewline(rest);
    TileSkips("\n" + rest, rest, AddItem(tc, it));
  }

  function AddAll(tc: TileConfig, items: seq<Item>): TileConfig
    decreases |items|
  {
    if items == [] then tc else AddAll(AddItem(tc, items[0]), items[1..])
  }

  predicate ValidItems(items: seq<Item>) { forall it :: it in items ==> ValidItem(it) }

  lemma {:induction false} LinesRead(tc: TileConfig, items: seq<Item>, rest: string)
    requires ValidItems(items)
    ensures ReadTile(LinesOf(items) + rest, tc) == ReadTile(rest, AddAll(tc, items))
    decreases |items|
  {
    hide ItemText, ReadTile;
    if items == [] {
      assert LinesOf(items) + rest == rest;
    } else {
      Regroup(ItemText(items[0]), LinesOf(items[1..]), rest);
      ItemReads(tc, items[0], LinesOf(items[1..]) + rest);
      LinesRead(AddItem(tc, items[0]), items[1..], rest);
    }
  }

  lemma {:induction false} AddAllJoins(tc: TileConfig, a: seq<Item>, b: seq<Item>)
    ensures AddAll(tc, a + b) == AddAll(AddAll(tc, a), b)
    decreases |a|
  {
    if a == [] {
      assert a + b == b;
    } else {
      assert (a + b)[1..] == a[1..] + b;
      AddAllJoins(AddItem(tc, a[0]), a[1..], b);
    }
  }

  lemma {:induction false} AddArcs(tc: TileConfig, v: seq<ConfigArc>)
    ensures AddAll(tc, Arcs(v)) == tc.(carcs := tc.carcs + v)
    decreases |v|
  {
    var items := Arcs(v);
    if v == [] {
      assert tc.carcs + v == tc.carcs;
    } else {
      assert items[1..] == Arcs(v[1..]);
      AddArcs(AddItem(tc, items[0]), v[1..]);
      assert tc.carcs + [v[0]] + v[1..] == tc.carcs + v;
    }
  }

  lemma {:induction false} AddWords(tc: TileConfig, v: seq<ConfigWord>)
    ensures AddAll(tc, Words(v)) == tc.(cwords := tc.cwords + v)
    decreases |v|
  {
    var items := Words(v);
    if v == [] {
      assert tc.cwords + v == tc.cwords;
    } else {
      assert items[1..] == Words(v[1..]);
      AddWords(AddItem(tc, items[0]), v[1..]);
      assert tc.cwords + [v[0]] + v[1..] == tc.cwords + v;
    }
  }

  lemma {:induction false} AddEnums(tc: TileConfig, v: seq<ConfigEnum>)
    ensures AddAll(tc, Enums(v)) == tc.(cenums := tc.cenums + v)
    decreases |v|
  {
    var items := Enums(v);
    if v == [] {
      assert tc.cenums + v == tc.cenums;
    } else {
      assert items[1..] == Enums(v[1..]);
      AddEnums(AddItem(tc, items[0]), v[1..]);
      assert tc.cenums + [v[0]] + v[1..] == tc.cenums + v;
    }
  }

  lemma {:induction false} AddUnknowns(tc: TileConfig, v: seq<ConfigUnknown>)
    ensures AddAll(tc, Unknowns(v)) == tc.(cunknowns := tc.cunknowns + v)
    decreases |v|
  {
    var items := Unknowns(v);
    if v == [] {
      assert tc.cunknowns + v == tc.cunknowns;
    } else {
      assert items[1..] == Unknowns(v[1..]);
      AddUnknowns(AddItem(tc, items[0]), v[1..]);
      assert tc.cunknowns + [v[0]] + v[1..] == tc.cunknowns + v;
    }
  }

  /** The lines of a tile, added up, are the tile. */
  lemma LinesMakeTile(tc: TileConfig)
    ensures AddAll(EMPTY_TILE, ItemSeq(tc)) == tc
  {
    var a := Arcs(tc.carcs);
    var w := Words(tc.cwords);
    var e := Enums(tc.cenums);
    var u := Unknowns(tc.cunknowns);
    assert ItemSeq(tc) == a + w + e + u;
    hide AddAll, ItemSeq;
    AddAllJoins(EMPTY_TILE, a + w + e, u);
    AddAllJoins(EMPTY_TILE, a + w, e);
    AddAllJoins(EMPTY_TILE, a, w);
    NoPrefix(tc);
    AddArcs(EMPTY_TILE, tc.carcs);
    AddWords(TileConfig(tc.carcs, [], [], []), tc.cwords);
    AddEnums(TileConfig(tc.carcs, tc.cwords, [], []), tc.cenums);
    AddUnknowns(TileConfig(tc.carcs, tc.cwords, tc.cenums, []), tc.cunknowns);
  }

  lemma NoPrefix(tc: TileConfig)
    ensures [] + tc.carcs == tc.carcs && [] + tc.cwords == tc.cwords && [] + tc.cenums == tc.cenums && [] + tc.cunknowns == tc.cunknowns
  {
  }

  /** Names and values are tokens, words have bits, positions are C ints. */
  predicate ValidTile(tc: TileConfig) { ValidItems(ItemSeq(tc)) }

  /** A tile is read back up to the next record or the end of the text. */
  lemma TileReads(tc: TileConfig, rest: string)
    requires ValidTile(tc) && AtEnd(Skip(rest))
    ensures ReadTile(TileText(tc) + rest, EMPTY_TILE) == Some((tc, Skip(rest)))
  {
    LinesRead(EMPTY_TILE, ItemSeq(tc), rest);
    LinesMakeTile(tc);
    hide LinesOf, ItemSeq, Skip;
  }

  function FromString(s: string): Option<TileConfig> {
    var r := ReadTile(s, EMPTY_TILE);
    if r == None then None else Some(r.value.0)
  }

  /** from_string inverts to_string. */
  lemma FromStringInverts(tc: TileConfig)
    requires ValidTile(tc)
    ensures FromString(TileText(tc)) == Some(tc)
  {
    TileReads(tc, "");
    hide TileText;
    assert TileText(tc) + "" == TileText(tc);
  }

  // ----- What the text spells, whoever reads it -----

  /** The number that binary digits denote, the first one most significant. */
  function BinaryValue(s: string): nat {
    if s == "" then 0 else 2 * BinaryValue(s[..|s| - 1]) + (if s[|s| - 1] == '1' then 1 else 0)
  }

  /** One binary digit a bit, and together the number whose bit k is v[k]. */
  predicate BinaryOf(s: string, v: seq<bool>) {
    |s| == |v| && (forall k :: 0 <= k < |s| ==> s[k] == '0' || s[k] == '1') && BinaryValue(s) == Bits.Number(v)
  }

  /** A word is spelled as a base-2 numeral. */
  lemma {:induction false} BitsSpell(v: seq<bool>)
    ensures BinaryOf(BitsText(v), v)
  {
    if v != [] {
      BitsSpell(v[1..]);
      var s := BitsText(v);
      assert s[..|s| - 1] == BitsText(v[1..]);
    }
  }

  /** A text of binary digits is read as exactly the bits it spells, and nothing else is read. */
  lemma ReadsWhatIsSpelled(s: string, v: seq<bool>)
    ensures ReadBits(s) == Some(v) <==> BinaryOf(s, v)
  {
    if ReadBits(s) == Some(v) {
      assert s == BitsText(v);
      BitsSpell(v);
    }
    if BinaryOf(s, v) {
      var w := ReadBits(s).value;
      assert s == BitsText(w);
      BitsSpell(w);
      assert Bits.Number(v) == Bits.Number(w);
      forall k: nat | k < |v| ensures v[k] == w[k] {
        Bits.NumberBits(v, k);
        Bits.NumberBits(w, k);
      }
      assert v == w;
    }
  }

  /** A decimal numeral without leading zeros. */
  predicate NatText(s: string, n: nat) { AllDigits(s, 10) && s != "" && Value(s, 10) == n && (s[0] == '0' ==> s == "0") }

  predicate DecimalOf(s: string, n: int) { if n < 0 then s != "" && s[0] == '-' && NatText(s[1..], -n) else NatText(s, n) }

  lemma {:induction false} NumeralSpells(n: nat)
    ensures NatText(Numeral(n, 10), n) && (n > 0 ==> Numeral(n, 10)[0] != '0')
  {
    ValueOfNumeral(n, 10);
    if n >= 10 {
      NumeralSpells(n / 10);
    } else {
      assert DigitValue(Numeral(n, 10)[0]) == Some(n);
    }
    hide Value, DigitValue;
  }

  lemma IntSpells(n: int)
    ensures DecimalOf(IntText(n), n)
  {
    NumeralSpells(if n < 0 then -n else n);
    hide Value, Numeral;
    assert n < 0 ==> IntText(n)[1..] == Numeral(-n, 10);
  }

  function JoinLines(lines: seq<string>): string { if lines == [] then "" else lines[0] + "\n" + JoinLines(lines[1..]) }

  predicate SpellsArc(line: string, a: ConfigArc) { line == "arc: " + a.sink + " " + a.source }

  ghost predicate SpellsWord(line: string, w: ConfigWord) {
    exists digits :: line == "word: " + w.name + " " + digits && BinaryOf(digits, w.value)
  }

  predicate SpellsEnum(line: string, e: ConfigEnum) { line == "enum: " + e.name + " " + e.value }

  ghost predicate SpellsUnknown(line: string, u: ConfigUnknown) {
    exists frame, bit :: line == "unknown: F" + frame + "B" + bit && DecimalOf(frame, u.frame) && DecimalOf(bit, u.bit)
  }

  /** One line for every arc, then for every word, every enum and every unknown bit. */
  ghost predicate SpellsLines(lines: seq<string>, tc: TileConfig) {
    var a, w, e, u := |tc.carcs|, |tc.cwords|, |tc.cenums|, |tc.cunknowns|;
    && |lines| == a + w + e + u
    && (forall i :: 0 <= i < a ==> SpellsArc(lines[i], tc.carcs[i]))
    && (forall i :: 0 <= i < w ==> SpellsWord(lines[a + i], tc.cwords[i]))
    && (forall i :: 0 <= i < e ==> SpellsEnum(lines[a + w + i], tc.cenums[i]))
    && (forall i :: 0 <= i < u ==> SpellsUnknown(lines[a + w + e + i], tc.cunknowns[i]))
  }

  ghost predicate SpellsTile(text: string, tc: TileConfig) { exists lines :: SpellsLines(lines, tc) && text == JoinLines(lines) }

  function LineText(it: Item): string { Kind(it) + Fields(it) }

  lemma ArcSpells(a: ConfigArc)
    ensures SpellsArc(LineText(Arc(a)), a)
  {
  }

  lemma WordSpells(w: ConfigWord)
    ensures SpellsWord(LineText(Word(w)), w)
  {
    BitsSpell(w.value);
    WordForm(w.name, BitsText(w.value));
    hide BinaryOf, BitsText;
  }

  lemma WordForm(name: string, digits: string)
    ensures "word:" + Two(name, digits) == "word: " + name + " " + digits
  {
  }

  lemma EnumSpells(e: ConfigEnum)
    ensures SpellsEnum(LineText(Enum(e)), e)
  {
  }

  lemma UnknownForm(frame: string, bit: string)
    ensures "unknown:" + (" " + ("F" + frame + "B" + bit)) == "unknown: F" + frame + "B" + bit
  {
  }

  lemma UnknownLine(u: ConfigUnknown)
    ensures LineText(Unknown(u)) == "unknown:" + (" " + ("F" + IntText(u.frame) + "B" + IntText(u.bit)))
  {
    hide IntText;
  }

  lemma UnknownSpells(u: ConfigUnknown)
    ensures SpellsUnknown(LineText(Unknown(u)), u)
  {
    hide DecimalOf, IntText, LineText;
    IntSpells(u.frame);
    IntSpells(u.bit);
    UnknownLine(u);
    UnknownForm(IntText(u.frame), IntText(u.bit));
  }

  lemma {:induction false} LinesAreJoined(items: seq<Item>)
    ensures LinesOf(items) == JoinLines(seq(|items|, k requires 0 <= k < |items| => LineText(items[k])))
  {
    hide Kind, Fields;
    if items != [] {
      var lines := seq(|items|, k requires 0 <= k < |items| => LineText(items[k]));
      LinesAreJoined(items[1..]);
      assert lines[1..] == seq(|items| - 1, k requires 0 <= k < |items| - 1 => LineText(items[1..][k]));
      Regroup(Kind(items[0]), Fields(items[0]), "\n");
    }
  }

  lemma ItemsInOrder(tc: TileConfig)
    ensures var a, w, e, u := |tc.carcs|, |tc.cwords|, |tc.cenums|, |tc.cunknowns|;
      && |ItemSeq(tc)| == a + w + e + u
      && (forall i :: 0 <= i < a ==> ItemSeq(tc)[i] == Arc(tc.carcs[i]))
      && (forall i :: 0 <= i < w ==> ItemSeq(tc)[a + i] == Word(tc.cwords[i]))
      && (forall i :: 0 <= i < e ==> ItemSeq(tc)[a + w + i] == Enum(tc.cenums[i]))
      && (forall i :: 0 <= i < u ==> ItemSeq(tc)[a + w + e + i] == Unknown(tc.cunknowns[i]))
  {
  }

  lemma LinesSpell(tc: TileConfig, lines: seq<string>)
    requires |lines| == |ItemSeq(tc)| && forall k :: 0 <= k < |lines| ==> lines[k] == LineText(ItemSeq(tc)[k])
    ensures SpellsLines(lines, tc)
  {
    var a, w, e, u := |tc.carcs|, |tc.cwords|, |tc.cenums|, |tc.cunknowns|;
    ItemsInOrder(tc);
    hide LineText, SpellsArc, SpellsWord, SpellsEnum, SpellsUnknown, ItemSeq;
    forall i | 0 <= i < a ensures SpellsArc(lines[i], tc.carcs[i]) { ArcSpells(tc.carcs[i]); }
    forall i | 0 <= i < w ensures SpellsWord(lines[a + i], tc.cwords[i]) { WordSpells(tc.cwords[i]); }
    forall i | 0 <= i < e ensures SpellsEnum(lines[a + w + i], tc.cenums[i]) { EnumSpells(tc.cenums[i]); }
    forall i | 0 <= i < u ensures SpellsUnknown(lines[a + w + e + i], tc.cunknowns[i]) { UnknownSpells(tc.cunknowns[i]); }
  }

  /** The text of a tile is exactly these lines. */
  lemma TileSpells(tc: TileConfig)
    ensures SpellsTile(TileText(tc), tc)
  {
    var items := ItemSeq(tc);
    LinesAreJoined(items);
    hide ItemSeq, LineText, SpellsLines;
    LinesSpell(tc, seq(|items|, k requires 0 <= k < |items| => LineText(items[k])));
  }

  // ----- The program's loops -----

  lemma {:induction false} LinesJoin(a: seq<Item>, b: seq<Item>)
    ensures LinesOf(a + b) == LinesOf(a) + LinesOf(b)
  {
    hide ItemText;
    if a == [] {
      assert a + b == b;
    } else {
      assert (a + b)[1..] == a[1..] + b;
      LinesJoin(a[1..], b);
      Regroup(ItemText(a[0]), LinesOf(a[1..]), LinesOf(b));
    }
  }

  /** One more line. */
  lemma LinesStep(items: seq<Item>, i: nat)
    requires i < |items|
    ensures LinesOf(items[..i + 1]) == LinesOf(items[..i]) + ItemText(items[i])
  {
    hide ItemText;
    assert items[..i + 1] == items[..i] + [items[i]] && [items[i]][1..] == [];
    LinesJoin(items[..i], [items[i]]);
    assert ItemText(items[i]) + "" == ItemText(items[i]);
  }

  /** The printer of a tile: the four kinds, one after the other. */
  method PrintTile(tc: TileConfig) returns (out: string)
    ensures out == TileText(tc) && SpellsTile(out, tc)
  {
    TileSpells(tc);
    hide ItemText, LinesOf, SpellsTile;
    var arcs := PrintItems(Arcs(tc.carcs));
    var words := PrintItems(Words(tc.cwords));
    var enums := PrintItems(Enums(tc.cenums));
    var unknowns := PrintItems(Unknowns(tc.cunknowns));
    LinesJoin(Arcs(tc.carcs) + Words(tc.cwords) + Enums(tc.cenums), Unknowns(tc.cunknowns));
    LinesJoin(Arcs(tc.carcs) + Words(tc.cwords), Enums(tc.cenums));
    LinesJoin(Arcs(tc.carcs), Words(tc.cwords));
    out := arcs + words + enums + unknowns;
  }

  method PrintItems(items: seq<Item>) returns (out: string)
    ensures out == LinesOf(items)
  {
    hide ItemText;
    out := "";
    for i := 0 to |items|
      invariant out == LinesOf(items[..i])
    {
      LinesStep(items, i);
      out := out + ItemText(items[i]);
    }
    assert items[..|items|] == items;
  }

  method GetItem(input: Input, kind: string) returns (r: Option<Item>)
    modifies input
    ensures var item := ReadItem(kind, old(input.text));
      if r == None then item == None else item == Some((r.value, input.text))
    ensures r != None ==> |input.text| <= |old(input.text)|
  {
    hide ReadToken, ReadBits, ReadUnknown;
    if kind == "arc:" {
      var sink := input.GetToken();
      var source := input.GetToken();
      r := Some(Arc(ConfigArc(sink, source)));
    } else if kind == "word:" {
      var name := input.GetToken();
      var text := input.GetToken();
      var v := ReadBits(text);
      r := if v == None then None else Some(Word(ConfigWord(name, v.value)));
    } else if kind == "enum:" {
      var name := input.GetToken();
      var value := input.GetToken();
      r := Some(Enum(ConfigEnum(name, value)));
    } else if kind == "unknown:" {
      var text := input.GetToken();
      var u := ReadUnknown(text);
      r := if u == None then None else Some(Unknown(u.value));
    } else {
      r := None;
    }
  }

  /** The reader of a tile, up to the next record. */
  method GetTile(input: Input) returns (r: Option<TileConfig>)
    modifies input
    ensures var tile := ReadTile(old(input.text), EMPTY_TILE);
      if r == None then tile == None else tile == Some((r.value, input.text))
  {
    hide Skip, ReadToken, ReadItem, AddItem;
    var tc := EMPTY_TILE;
    SkipTwice(input.text);
    TileSkips(input.text, Skip(input.text), tc);
    var eor := input.SkipCheckEor();
    while !eor
      invariant input.text == Skip(input.text) && (eor <==> AtEnd(input.text))
      invariant ReadTile(input.text, tc) == ReadTile(old(input.text), EMPTY_TILE)
      decreases |input.text|
    {
      var kind := input.GetToken();
      var item := GetItem(input, kind);
      if item == None { return None; }
      tc := AddItem(tc, item.value);
      ghost var u := input.text;
      eor := input.SkipCheckEor();
      SkipTwice(u);
      TileSkips(u, input.text, tc);
    }
    return Some(tc);
  }

  lemma SkipTwice(t: string)
    ensures Skip(Skip(t)) == Skip(t)
  {
    if Skip(t) != "" { SkipStops(Skip(t)); }
  }
}
