/** Collecting FASM features into configuration frames and writing them as text (Nathan_Serv/fasm2frames.js). */
module Frames {
  import opened Basics
  import opened Bits
  import opened Digits

  const WORDS := 101

  // ----- What the features ask for -----

  datatype Coord = Coord(block: string, wordCol: nat, wordIdx: nat, bitIdx: int)

  /** One mapped feature: the base addresses of its tile and its coordinates. */
  datatype Feature = Feature(bases: map<string, nat>, coords: seq<Coord>)

  /** One bit of one word of one frame. */
  datatype Spot = Spot(frame: nat, word: nat, bit: nat)

  /** Coordinates in a block without base address are skipped; shift counts are taken modulo 32. */
  function SpotsOf(f: Feature): set<Spot> {
    set c | c in f.coords && c.block in f.bases :: Spot(f.bases[c.block] + c.wordCol, c.wordIdx, c.bitIdx % 32)
  }

  function Spots(features: seq<Feature>): set<Spot> { set f, s | f in features && s in SpotsOf(f) :: s }

  /** What the database makes of a line on its own: no features for comments and unknown tiles. */
  type Lookup = string -> seq<Feature>

  /** The features of all lines, in order. */
  function AllFeatures(lines: seq<string>, lookup: Lookup): seq<Feature> {
    if lines == [] then [] else AllFeatures(lines[..|lines| - 1], lookup) + lookup(lines[|lines| - 1])
  }

  function LineSpots(lines: seq<string>, lookup: Lookup): set<Spot> { Spots(AllFeatures(lines, lookup)) }

  /** Which frames exist, and what their words are, for a set of spots. */
  function FramesOf(spots: set<Spot>): set<nat> { set s | s in spots :: s.frame }

  function WordBits(spots: set<Spot>, frame: nat, word: nat): (v: seq<bool>)
    ensures |v| == 32
  {
    seq(32, b requires 0 <= b => Spot(frame, word, b) in spots)
  }

  function WordOf(spots: set<Spot>, frame: nat, word: nat): nat { Number(WordBits(spots, frame, word)) }

  /** A bit of a word is set exactly when some feature maps to it. */
  lemma BitIsSpot(spots: set<Spot>, frame: nat, word: nat, bit: nat)
    ensures Bit(WordOf(spots, frame, word), bit) <==> bit < 32 && Spot(frame, word, bit) in spots
  {
    NumberBits(WordBits(spots, frame, word), bit);
  }

  // ----- Ascending addresses -----

  predicate IsAscending(a: seq<nat>) { forall i, j :: 0 <= i < j < |a| ==> a[i] < a[j] }

  ghost predicate Lists(a: seq<nat>, s: set<nat>) { IsAscending(a) && forall x: nat :: x in a <==> x in s }

  lemma FirstIsListed(a: seq<nat>, s: set<nat>)
    requires Lists(a, s)
    ensures a != [] ==> a[0] in s
  {
    assert a != [] ==> a[0] in a;
  }

  /** There is only one way to list a set in ascending order. */
  lemma {:induction false} ListedOnce(a: seq<nat>, b: seq<nat>, s: set<nat>)
    requires Lists(a, s) && Lists(b, s)
    ensures a == b
  {
    if a == [] {
      FirstIsListed(b, s);
    } else {
      var m := a[|a| - 1];
      assert m in a && m in b;
      LastIsGreatest(a, s);
      LastIsGreatest(b, s);
      assert b[|b| - 1] in b && b[|b| - 1] in a;
      ListedOnce(a[..|a| - 1], b[..|b| - 1], s - {m});
    }
  }

  lemma LastIsGreatest(a: seq<nat>, s: set<nat>)
    requires Lists(a, s) && a != []
    ensures forall x :: x in s ==> x <= a[|a| - 1]
    ensures Lists(a[..|a| - 1], s - {a[|a| - 1]})
  {
    var init, m := a[..|a| - 1], a[|a| - 1];
    assert a == init + [m];
    forall x: nat ensures x in init <==> x in s - {m} {
      assert x in a <==> x in init || x == m;
      if x in init {
        var i :| 0 <= i < |init| && init[i] == x;
        assert a[i] < m;
      }
    }
    assert m in a;
  }

  lemma {:induction false} GreatestExists(s: set<nat>) returns (m: nat)
    requires s != {}
    ensures m in s && forall k: nat :: k in s ==> k <= m
  {
    var first :| first in s;
    var rest := s - {first};
    assert forall k: nat :: k in s ==> k == first || k in rest;
    m := first;
    if rest != {} {
      var n := GreatestExists(rest);
      m := if n > first then n else first;
    }
  }

  lemma InFront(m: nat, a: seq<nat>, s: set<nat>)
    requires Lists(a, s) && forall y :: y in a ==> m < y
    ensures Lists([m] + a, s + {m})
  {
    assert forall i :: 0 <= i < |a| ==> a[i] in a;
    assert forall x: nat :: x in [m] + a <==> x == m || x in a;
  }

  lemma Behind(a: seq<nat>, m: nat, s: set<nat>)
    requires Lists(a, s) && forall y :: y in s ==> y <= m && y != m
    ensures Lists(a + [m], s + {m})
  {
    assert forall i :: 0 <= i < |a| ==> a[i] in a;
    assert forall x: nat :: x in a + [m] <==> x == m || x in a;
  }

  method SortKeys(keys: set<nat>) returns (a: seq<nat>)
    ensures Lists(a, keys)
  {
    a := [];
    var todo := keys;
    while todo != {}
      invariant Lists(a, keys - todo) && todo <= keys
      invariant forall x, y :: x in todo && y in a ==> x < y
      decreases todo
    {
      ghost var g := GreatestExists(todo);
      assert g in todo && forall k: nat :: k in todo ==> k <= g;
      var m: nat :| m in todo && forall k: nat :: k in todo ==> k <= m;
      InFront(m, a, keys - todo);
      assert keys - todo + {m} == keys - (todo - {m});
      a := [m] + a;
      todo := todo - {m};
    }
    assert keys - {} == keys;
  }

  // ----- The text -----

  function WordsFrom(spots: set<Spot>, frame: nat, i: nat): string
    requires i <= WORDS
    decreases WORDS - i
  {
    if i == WORDS then "" else " " + Padded(WordOf(spots, frame, i), 16, 8) + WordsFrom(spots, frame, i + 1)
  }

  function Line(spots: set<Spot>, frame: nat): string { "0x" + Padded(frame, 16, 8) + WordsFrom(spots, frame, 0) + "\n" }

  function Text(spots: set<Spot>, frames: seq<nat>): string {
    if frames == [] then "" else Line(spots, frames[0]) + Text(spots, frames[1..])
  }

  ghost function Ascending(s: set<nat>): (a: seq<nat>)
    ensures Lists(a, s)
  {
    ListingExists(s);
    var a :| Lists(a, s);
    a
  }

  lemma {:induction false} ListingExists(s: set<nat>)
    ensures exists a :: Lists(a, s)
  {
    if s == {} {
      assert Lists([], s);
    } else {
      var m := GreatestExists(s);
      ListingExists(s - {m});
      var a :| Lists(a, s - {m});
      Behind(a, m, s - {m});
      assert s - {m} + {m} == s;
    }
  }

  /** The text a set of spots stands for. */
  ghost function Canonical(spots: set<Spot>): string { Text(spots, Ascending(FramesOf(spots))) }

  // ----- The frame data -----

  type FrameWords = map<nat, seq<nat>>

  /** The frame data hold exactly the spots. */
  ghost predicate Shows(frames: FrameWords, spots: set<Spot>) {
    && frames.Keys == FramesOf(spots)
    && forall f :: f in frames ==> |frames[f]| == WORDS && ShowsWords(frames[f], spots, f)
  }

  ghost predicate ShowsWords(words: seq<nat>, spots: set<Spot>, frame: nat) {
    forall w: nat :: w < |words| ==> words[w] == WordOf(spots, frame, w)
  }

  /** `words[wordIdx] |= 1 << bit`; behind the end nothing is stored. */
  function OrWord(words: seq<nat>, w: nat, bit: nat): (r: seq<nat>)
    ensures |r| == |words|
  {
    if w < |words| then words[w := SetBit(words[w], bit)] else words
  }

  lemma OrShowsWords(words: seq<nat>, spots: set<Spot>, s: Spot)
    requires ShowsWords(words, spots, s.frame) && s.bit < 32
    ensures ShowsWords(OrWord(words, s.word, s.bit), spots + {s}, s.frame)
  {
    var after := OrWord(words, s.word, s.bit);
    forall w: nat | w < |words| ensures after[w] == WordOf(spots + {s}, s.frame, w) {
      if w == s.word {
        forall k: nat ensures Bit(after[w], k) <==> k < 32 && WordBits(spots + {s}, s.frame, w)[k] {
          BitIsSpot(spots, s.frame, w, k);
          SetBitBits(words[w], s.bit, k);
        }
        NumberFromBits(after[w], WordBits(spots + {s}, s.frame, w));
      } else {
        assert WordBits(spots + {s}, s.frame, w) == WordBits(spots, s.frame, w);
      }
    }
  }

  lemma OtherFrame(words: seq<nat>, spots: set<Spot>, s: Spot, f: nat)
    requires ShowsWords(words, spots, f) && f != s.frame
    ensures ShowsWords(words, spots + {s}, f)
  {
    forall w: nat ensures WordOf(spots + {s}, f, w) == WordOf(spots, f, w) {
      assert WordBits(spots + {s}, f, w) == WordBits(spots, f, w);
    }
  }

  lemma BlankFrame(spots: set<Spot>, f: nat)
    requires f !in FramesOf(spots)
    ensures ShowsWords(seq(WORDS, k => 0), spots, f)
  {
    forall w: nat ensures WordOf(spots, f, w) == 0 {
      forall k: nat ensures Bit(0, k) <==> k < 32 && WordBits(spots, f, w)[k] {
        ZeroBits(k);
        assert Spot(f, w, k) in spots ==> f in FramesOf(spots);
      }
      NumberFromBits(0, WordBits(spots, f, w));
    }
  }

  class FrameData {
    var frames: FrameWords

    constructor ()
      ensures frames == map[]
    {
      frames := map[];
    }

    /** One coordinate: the frame is made when it is new. */
    method Or(s: Spot, ghost spots: set<Spot>)
      requires Shows(frames, spots) && s.bit < 32
      modifies this
      ensures Shows(frames, spots + {s})
    {
      ghost var before := frames;
      if s.frame !in frames {
        BlankFrame(spots, s.frame);
        frames := frames[s.frame := seq(WORDS, k => 0)];
      }
      assert ShowsWords(frames[s.frame], spots, s.frame);
      OrShowsWords(frames[s.frame], spots, s);
      frames := frames[s.frame := OrWord(frames[s.frame], s.word, s.bit)];
      forall f | f in before && f != s.frame ensures ShowsWords(before[f], spots + {s}, f) {
        OtherFrame(before[f], spots, s, f);
      }
      FramesGrow(spots, s);
      hide ShowsWords, FramesOf;
    }

    method AddFeature(f: Feature, ghost spots: set<Spot>)
      requires Shows(frames, spots)
      modifies this
      ensures Shows(frames, spots + SpotsOf(f))
    {
      hide Shows;
      ghost var done: set<Spot> := {};
      assert spots + {} == spots;
      for i := 0 to |f.coords|
        invariant Shows(frames, spots + done)
        invariant done == SpotsOf(Feature(f.bases, f.coords[..i]))
      {
        var c := f.coords[i];
        CoordSpots(f, i);
        if c.block in f.bases {
          var s := Spot(f.bases[c.block] + c.wordCol, c.wordIdx, c.bitIdx % 32);
          Or(s, spots + done);
          assert spots + done + {s} == spots + (done + {s});
          done := done + {s};
        }
      }
      assert f.coords[..|f.coords|] == f.coords;
    }

    /** The features of one line, after those in `before`. */
    method AddAll(features: seq<Feature>, ghost before: seq<Feature>)
      requires Shows(frames, Spots(before))
      modifies this
      ensures Shows(frames, Spots(before + features))
    {
      assert before + features[..0] == before;
      hide Shows;
      for i := 0 to |features|
        invariant Shows(frames, Spots(before + features[..i]))
      {
        FeatureSpots(before, features, i);
        AddFeature(features[i], Spots(before + features[..i]));
      }
      assert features[..|features|] == features;
    }

    /** The text, frame by frame in ascending order of address. */
    method ToText(ghost spots: set<Spot>) returns (text: string)
      requires Shows(frames, spots)
      ensures text == Canonical(spots)
    {
      var sorted := SortKeys(frames.Keys);
      ListedOnce(sorted, Ascending(FramesOf(spots)), FramesOf(spots));
      hide Line, ShowsWords, Lists;
      text := "";
      for i := 0 to |sorted|
        invariant text + Text(spots, sorted[i..]) == Canonical(spots)
      {
        assert sorted[i] in sorted && sorted[i] in frames.Keys;
        var line := LineText(sorted[i], frames[sorted[i]], spots);
        assert sorted[i..][1..] == sorted[i + 1..];
        Regroup(text, line, Text(spots, sorted[i + 1..]));
        text := text + line;
      }
    }
  }

  method LineText(addr: nat, words: seq<nat>, ghost spots: set<Spot>) returns (line: string)
    requires |words| == WORDS && ShowsWords(words, spots, addr)
    ensures line == Line(spots, addr)
  {
    hide Padded, WordOf;
    line := "0x" + Padded(addr, 16, 8);
    for i := 0 to WORDS
      invariant line + WordsFrom(spots, addr, i) + "\n" == Line(spots, addr)
    {
      assert words[i] == WordOf(spots, addr, i);
      var word := " " + Padded(words[i], 16, 8);
      Regroup(line, word, WordsFrom(spots, addr, i + 1));
      line := line + word;
    }
    assert line + WordsFrom(spots, addr, WORDS) == line;
    line := line + "\n";
  }

  lemma FramesGrow(spots: set<Spot>, s: Spot)
    ensures FramesOf(spots + {s}) == FramesOf(spots) + {s.frame}
  {
    assert s in spots + {s};
    forall f | f in FramesOf(spots) ensures f in FramesOf(spots + {s}) {
      var t :| t in spots && t.frame == f;
      assert t in spots + {s};
    }
  }

  lemma CoordSpots(f: Feature, i: nat)
    requires i < |f.coords|
    ensures var c, some, more := f.coords[i], SpotsOf(Feature(f.bases, f.coords[..i])), SpotsOf(Feature(f.bases, f.coords[..i + 1]));
      more == if c.block in f.bases then some + {Spot(f.bases[c.block] + c.wordCol, c.wordIdx, c.bitIdx % 32)} else some
  {
    assert f.coords[..i + 1] == f.coords[..i] + [f.coords[i]];
  }

  lemma FeatureSpots(before: seq<Feature>, features: seq<Feature>, i: nat)
    requires i < |features|
    ensures Spots(before + features[..i + 1]) == Spots(before + features[..i]) + SpotsOf(features[i])
  {
    assert before + features[..i + 1] == before + features[..i] + [features[i]];
    hide SpotsOf;
  }

  /** The whole conversion, line by line, whatever the database says: the text depends on the set of spots only. */
  method Convert(lines: seq<string>, lookup: Lookup) returns (text: string)
    ensures text == Canonical(LineSpots(lines, lookup)) && SpellsFrames(text, LineSpots(lines, lookup))
  {
    TextSpells(LineSpots(lines, lookup));
    hide SpellsFrames;
    var data := new FrameData();
    assert Spots([]) == {};
    hide Shows, Spots, Canonical;
    for i := 0 to |lines|
      invariant fresh(data) && Shows(data.frames, LineSpots(lines[..i], lookup))
    {
      assert lines[..i + 1][..i] == lines[..i];
      data.AddAll(lookup(lines[i]), AllFeatures(lines[..i], lookup));
    }
    assert lines[..|lines|] == lines;
    text := data.ToText(LineSpots(lines, lookup));
  }

  lemma {:induction false} FeatureOfLine(lines: seq<string>, lookup: Lookup, f: Feature)
    ensures f in AllFeatures(lines, lookup) <==> exists l :: l in lines && f in lookup(l)
  {
    if lines != [] {
      var init, last := lines[..|lines| - 1], lines[|lines| - 1];
      FeatureOfLine(init, lookup, f);
      assert forall l :: l in lines <==> l in init || l == last;
    }
  }

  /** Reordering or repeating lines changes nothing. */
  lemma OrderDoesNotMatter(a: seq<string>, b: seq<string>, lookup: Lookup)
    requires forall l :: l in a <==> l in b
    ensures LineSpots(a, lookup) == LineSpots(b, lookup) && Canonical(LineSpots(a, lookup)) == Canonical(LineSpots(b, lookup))
  {
    hide SpotsOf, Canonical, AllFeatures;
    forall f ensures f in AllFeatures(a, lookup) <==> f in AllFeatures(b, lookup) {
      FeatureOfLine(a, lookup, f);
      FeatureOfLine(b, lookup, f);
    }
    assert Spots(AllFeatures(a, lookup)) == Spots(AllFeatures(b, lookup));
  }

  // ----- What the text spells, whoever reads it -----

  /** What asks for a bit: a line, one of its features and a coordinate in a block with a base address. */
  lemma SpotAsked(lines: seq<string>, lookup: Lookup, s: Spot)
    ensures s in LineSpots(lines, lookup) <==> exists l, f, c ::
      l in lines && f in lookup(l) && c in f.coords && Asks(f, c, s)
  {
    hide AllFeatures;
    if s in LineSpots(lines, lookup) {
      var f :| f in AllFeatures(lines, lookup) && s in SpotsOf(f);
      FeatureOfLine(lines, lookup, f);
      var l :| l in lines && f in lookup(l);
      var c :| c in f.coords && Asks(f, c, s);
    }
    if l, f, c :| l in lines && f in lookup(l) && c in f.coords && Asks(f, c, s) {
      FeatureOfLine(lines, lookup, f);
      assert s in SpotsOf(f);
    }
  }

  /** The coordinate asks for this bit: frame base plus column, its word, its bit modulo 32. */
  predicate Asks(f: Feature, c: Coord, s: Spot) {
    c.block in f.bases && s.frame == f.bases[c.block] + c.wordCol && s.word == c.wordIdx && s.bit == c.bitIdx % 32
  }

  /** Eight hexadecimal digits of the number whose bits are the spots of that word. */
  ghost predicate SpellsWord(text: string, spots: set<Spot>, frame: nat, word: nat) {
    exists n: nat :: HexText(text, n, 8) && forall b: nat :: Bit(n, b) <==> b < 32 && Spot(frame, word, b) in spots
  }

  /** An address of eight digits and 101 words. */
  ghost predicate SpellsLine(line: string, spots: set<Spot>, frame: nat) {
    exists address, words: seq<string> :: |words| == 101 && HexText(address, frame, 8)
      && (forall w: nat :: w < 101 ==> SpellsWord(words[w], spots, frame, w))
      && line == "0x" + address + Spaced(words) + "\n"
  }

  function Spacing(words: seq<string>): seq<string> { seq(|words|, w requires 0 <= w < |words| => " " + words[w]) }

  function Spaced(words: seq<string>): string { Joined(Spacing(words)) }

  /** One line for every frame with a spot, in ascending order. */
  ghost predicate SpellsFrames(text: string, spots: set<Spot>) {
    exists frames: seq<nat>, lines: seq<string> :: Lists(frames, FramesOf(spots)) && |lines| == |frames|
      && (forall k :: 0 <= k < |lines| ==> SpellsLine(lines[k], spots, frames[k])) && text == Joined(lines)
  }

  lemma WordSpells(spots: set<Spot>, frame: nat, word: nat)
    ensures SpellsWord(Padded(WordOf(spots, frame, word), 16, 8), spots, frame, word)
  {
    var n := WordOf(spots, frame, word);
    PaddedSpells(n, 8);
    hide HexText, Padded, WordOf, Bit;
    forall b: nat ensures Bit(n, b) <==> b < 32 && Spot(frame, word, b) in spots { BitIsSpot(spots, frame, word, b); }
  }

  function WordText(spots: set<Spot>, frame: nat, w: nat): string { " " + Padded(WordOf(spots, frame, w), 16, 8) }

  function WordTexts(spots: set<Spot>, frame: nat, i: nat): seq<string>
    requires i <= WORDS
  {
    seq(WORDS - i, k requires 0 <= k < WORDS - i => WordText(spots, frame, i + k))
  }

  lemma WordTextsStep(spots: set<Spot>, frame: nat, i: nat)
    requires i < WORDS
    ensures WordTexts(spots, frame, i) == [WordText(spots, frame, i)] + WordTexts(spots, frame, i + 1)
    ensures WordsFrom(spots, frame, i) == WordText(spots, frame, i) + WordsFrom(spots, frame, i + 1)
  {
    hide Padded, WordOf;
  }

  lemma NoWordsLeft(spots: set<Spot>, frame: nat)
    ensures WordsFrom(spots, frame, WORDS) == "" == Joined(WordTexts(spots, frame, WORDS))
  {
    hide WordText;
  }

  lemma {:induction false} WordsAreJoined(spots: set<Spot>, frame: nat, i: nat)
    requires i <= WORDS
    ensures WordsFrom(spots, frame, i) == Joined(WordTexts(spots, frame, i))
    decreases WORDS - i
  {
    hide WordsFrom, WordTexts, WordText, Joined;
    if i == WORDS {
      NoWordsLeft(spots, frame);
    } else {
      WordTextsStep(spots, frame, i);
      WordsAreJoined(spots, frame, i + 1);
      JoinedStep(WordText(spots, frame, i), WordTexts(spots, frame, i + 1));
    }
  }

  function PaddedWords(spots: set<Spot>, frame: nat): (words: seq<string>)
    ensures |words| == 101
  {
    seq(101, w requires 0 <= w < 101 => Padded(WordOf(spots, frame, w), 16, 8))
  }

  lemma TextsAreSpacing(spots: set<Spot>, frame: nat)
    ensures WordTexts(spots, frame, 0) == Spacing(PaddedWords(spots, frame))
  {
    var texts, spaced := WordTexts(spots, frame, 0), Spacing(PaddedWords(spots, frame));
    hide Padded, WordOf;
    assert |texts| == |spaced| == 101;
    forall w: nat | w < 101 ensures texts[w] == spaced[w] {
      assert texts[w] == WordText(spots, frame, w);
    }
    hide WordTexts, Spacing, PaddedWords, WordText;
  }

  lemma WordsAreSpaced(spots: set<Spot>, frame: nat)
    ensures WordsFrom(spots, frame, 0) == Spaced(PaddedWords(spots, frame))
  {
    hide WordTexts, Spacing, PaddedWords, Joined, WordsFrom;
    WordsAreJoined(spots, frame, 0);
    TextsAreSpacing(spots, frame);
  }

  lemma LineSpells(spots: set<Spot>, frame: nat)
    ensures SpellsLine(Line(spots, frame), spots, frame)
  {
    WordsAreSpaced(spots, frame);
    PaddedSpells(frame, 8);
    hide Padded, WordOf, HexText, SpellsWord, Spaced, WordsFrom;
    var words := PaddedWords(spots, frame);
    forall w: nat | w < 101 ensures SpellsWord(words[w], spots, frame, w) { WordSpells(spots, frame, w); }
    hide PaddedWords;
    assert Line(spots, frame) == "0x" + Padded(frame, 16, 8) + Spaced(words) + "\n";
  }

  function LineTexts(spots: set<Spot>, frames: seq<nat>): seq<string> {
    seq(|frames|, k requires 0 <= k < |frames| => Line(spots, frames[k]))
  }

  lemma {:induction false} LinesAreJoined(spots: set<Spot>, frames: seq<nat>)
    ensures Text(spots, frames) == Joined(LineTexts(spots, frames))
  {
    hide Line;
    if frames != [] {
      LinesAreJoined(spots, frames[1..]);
      assert LineTexts(spots, frames) == [Line(spots, frames[0])] + LineTexts(spots, frames[1..]);
      JoinedStep(Line(spots, frames[0]), LineTexts(spots, frames[1..]));
      hide Joined;
    }
  }

  lemma TextSpells(spots: set<Spot>)
    ensures SpellsFrames(Canonical(spots), spots)
  {
    var frames := Ascending(FramesOf(spots));
    LinesAreJoined(spots, frames);
    hide Line, SpellsLine, Joined, Lists, Text;
    var lines := LineTexts(spots, frames);
    forall k | 0 <= k < |lines| ensures SpellsLine(lines[k], spots, frames[k]) { LineSpells(spots, frames[k]); }
  }

  // ----- Reading the text -----

  datatype Row = Row(frame: nat, words: seq<nat>)

  /** n words, each behind a blank, and what follows them. */
  function ReadWords(t: string, n: nat): (r: Option<(seq<nat>, string)>)
    ensures r.Some? ==> |r.value.1| <= |t|
  {
    if n == 0 then Some(([], t))
    else if t == "" || t[0] != ' ' then None
    else
      var k := DigitRun(t[1..], 16);
      var rest := ReadWords(t[1..][k..], n - 1);
      if k == 0 || rest == None then None
      else Some(([Value(t[1..][..k], 16)] + rest.value.0, rest.value.1))
  }

  /** Lines of an address and 101 words. */
  function ReadRows(t: string): Option<seq<Row>>
    decreases |t|
  {
    if t == "" then Some([])
    else if |t| < 2 || t[..2] != "0x" then None
    else
      var k := DigitRun(t[2..], 16);
      var words := ReadWords(t[2..][k..], WORDS);
      if k == 0 || words == None || words.value.1 == "" || words.value.1[0] != '\n' then None
      else
        var rows := ReadRows(words.value.1[1..]);
        if rows == None then None else Some([Row(Value(t[2..][..k], 16), words.value.0)] + rows.value)
  }

  function WordsOf(spots: set<Spot>, frame: nat, i: nat): (w: seq<nat>)
    requires i <= WORDS
    ensures |w| == WORDS - i && forall k: nat :: k < |w| ==> w[k] == WordOf(spots, frame, i + k)
    decreases WORDS - i
  {
    if i == WORDS then [] else [WordOf(spots, frame, i)] + WordsOf(spots, frame, i + 1)
  }

  function RowsOf(spots: set<Spot>, frames: seq<nat>): (r: seq<Row>)
    ensures |r| == |frames| && forall k: nat :: k < |r| ==> r[k] == Row(frames[k], WordsOf(spots, frames[k], 0))
  {
    if frames == [] then [] else [Row(frames[0], WordsOf(spots, frames[0], 0))] + RowsOf(spots, frames[1..])
  }

  lemma OneWordRead(x: nat, more: string, n: nat)
    requires n > 0 && more != "" && !IsDigit(more[0], 16)
    ensures ReadWords(" " + Padded(x, 16, 8) + more, n) == (var r := ReadWords(more, n - 1);
      if r == None then None else Some(([x] + r.value.0, r.value.1)))
  {
    hide IsDigit, Padded, Value, DigitRun;
    var word := Padded(x, 16, 8);
    ValueOfPadded(x, 16, 8);
    RunEnds(word, more, 16);
    assert (" " + word + more)[1..] == word + more;
  }

  lemma {:induction false} WordsReadBack(spots: set<Spot>, frame: nat, i: nat, rest: string)
    requires i <= WORDS && rest != "" && !IsDigit(rest[0], 16)
    ensures ReadWords(WordsFrom(spots, frame, i) + rest, WORDS - i) == Some((WordsOf(spots, frame, i), rest))
    decreases WORDS - i
  {
    if i == WORDS {
      assert WordsFrom(spots, frame, i) + rest == rest;
    } else {
      hide Padded, IsDigit, WordOf, ReadWords;
      var n := WordOf(spots, frame, i);
      WordsReadBack(spots, frame, i + 1, rest);
      NotADigit(spots, frame, i + 1, rest);
      OneWordRead(n, WordsFrom(spots, frame, i + 1) + rest, WORDS - i);
      Regroup(" " + Padded(n, 16, 8), WordsFrom(spots, frame, i + 1), rest);
    }
  }

  /** What follows a word is a blank or the end of the line. */
  lemma NotADigit(spots: set<Spot>, frame: nat, i: nat, rest: string)
    requires i <= WORDS && rest != "" && !IsDigit(rest[0], 16)
    ensures var t := WordsFrom(spots, frame, i) + rest; t != "" && !IsDigit(t[0], 16)
  {
    hide Padded, WordOf;
  }

  lemma NewlineIsNoDigit()
    ensures !IsDigit('\n', 16)
  {
  }

  lemma LineReadsBack(spots: set<Spot>, frame: nat, rest: string)
    ensures ReadRows(Line(spots, frame) + rest) == (var rows := ReadRows(rest);
      if rows == None then None else Some([Row(frame, WordsOf(spots, frame, 0))] + rows.value))
  {
    hide Padded, Value, IsDigit, WordOf, DigitRun, WordsFrom, ReadWords, WordsOf;
    var address, more := Padded(frame, 16, 8), WordsFrom(spots, frame, 0) + ("\n" + rest);
    var t := Line(spots, frame) + rest;
    assert t == "0x" + (address + more) && t[2..] == address + more && t[..2] == "0x";
    NewlineIsNoDigit();
    ValueOfPadded(frame, 16, 8);
    NotADigit(spots, frame, 0, "\n" + rest);
    RunEnds(address, more, 16);
    WordsReadBack(spots, frame, 0, "\n" + rest);
    assert ("\n" + rest)[1..] == rest;
  }

  /** The text is read back as the frames and words it was made from. */
  lemma {:induction false} TextReadsBack(spots: set<Spot>, frames: seq<nat>)
    ensures ReadRows(Text(spots, frames)) == Some(RowsOf(spots, frames))
  {
    hide Line, WordsOf, ReadRows;
    if frames == [] {
      NoRows();
    } else {
      TextReadsBack(spots, frames[1..]);
      LineReadsBack(spots, frames[0], Text(spots, frames[1..]));
    }
  }

  lemma NoRows()
    ensures ReadRows("") == Some([])
  {
  }

  /** The text tells every bit: two sets with the same text have the same frames and the same spots in them. */
  lemma TextTellsSpots(a: set<Spot>, b: set<Spot>)
    requires Canonical(a) == Canonical(b)
    ensures FramesOf(a) == FramesOf(b)
    ensures forall s: Spot :: s.word < WORDS && s.bit < 32 ==> (s in a <==> s in b)
  {
    var x, y := Ascending(FramesOf(a)), Ascending(FramesOf(b));
    TextReadsBack(a, x);
    TextReadsBack(b, y);
    SameRowsSameFrames(a, x, b, y);
    hide Text, ReadRows, RowsOf;
    forall f: nat ensures f in FramesOf(a) <==> f in FramesOf(b) { assert f in x <==> f in FramesOf(a); }
    forall s: Spot | s.word < WORDS && s.bit < 32 && (s in a || s in b) ensures s in a && s in b {
      assert s.frame in FramesOf(a) && s.frame in x;
      SameRowsSameSpots(a, b, x, s);
    }
  }

  lemma SameRowsSameFrames(a: set<Spot>, x: seq<nat>, b: set<Spot>, y: seq<nat>)
    requires RowsOf(a, x) == RowsOf(b, y)
    ensures x == y
  {
    hide WordsOf;
    assert |x| == |RowsOf(a, x)| == |y|;
    forall k: nat | k < |x| ensures x[k] == y[k] { assert RowsOf(a, x)[k] == RowsOf(b, y)[k]; }
  }

  lemma SameRowsSameSpots(a: set<Spot>, b: set<Spot>, x: seq<nat>, s: Spot)
    requires RowsOf(a, x) == RowsOf(b, x) && s.frame in x && s.word < WORDS && s.bit < 32
    ensures s in a <==> s in b
  {
    var k: nat :| k < |x| && x[k] == s.frame;
    assert RowsOf(a, x)[k].words[s.word] == RowsOf(b, x)[k].words[s.word];
    BitIsSpot(a, s.frame, s.word, s.bit);
    BitIsSpot(b, s.frame, s.word, s.bit);
    hide WordOf, WordBits, Bit;
  }
}
