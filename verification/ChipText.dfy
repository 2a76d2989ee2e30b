/** A whole chip configuration as text, printed and read back (ecp5/config.cc).

    The text is a list of records; every record is read up to the start of the next. */
module ChipText {
  import opened Basics
  import opened Config
  import opened ConfigText
  import opened Digits
  import opened TextStream

  datatype Chip = Chip(chipName: string, metadata: seq<string>, sysconfig: map<string, string>,
                       tiles: map<string, TileConfig>, bram: map<nat, seq<nat>>, tilegroups: seq<TileGroup>)

  const EMPTY_CHIP := Chip("", [], map[], map[], map[], [])

  datatype Record = Device(name: string) | Comment(line: string) | Sys(key: string, value: string)
    | Tile(name: string, config: TileConfig) | Bram(index: nat, words: seq<nat>) | Group(group: TileGroup) | Blank

  // ----- Printing -----

  /** Three hexadecimal digits a word, eight words a line. */
  function BramText(words: seq<nat>, i: nat): string
    requires i <= |words|
    decreases |words| - i
  {
    if i == |words| then ""
    else Padded(words[i], 16, 3) + (if i % 8 == 7 then "\n" else " ") + BramText(words, i + 1)
  }

  function NamesText(names: seq<string>): string {
    if names == [] then "" else " " + names[0] + NamesText(names[1..])
  }

  predicate IsVerb(s: string) {
    s == ".device" || s == ".comment" || s == ".sysconfig" || s == ".tile" || s == ".bram_init" || s == ".tile_group"
  }

  function Verb(r: Record): (v: string)
    ensures !r.Blank? ==> IsVerb(v)
  {
    match r
    case Device(_) => ".device"
    case Comment(_) => ".comment"
    case Sys(_, _) => ".sysconfig"
    case Tile(_, _) => ".tile"
    case Bram(_, _) => ".bram_init"
    case Group(_) => ".tile_group"
    case Blank => ""
  }

  /** What stands between the verb and the next record. */
  function Body(r: Record): string {
    match r
    case Device(name) => " " + name + "\n\n"
    case Comment(line) => " " + line + "\n"
    case Sys(key, value) => Two(key, value) + "\n"
    case Tile(name, config) => " " + name + ("\n" + (TileText(config) + "\n"))
    case Bram(index, words) => " " + Padded(index, 10, 1) + ("\n" + (BramText(words, 0) + "\n"))
    case Group(g) => NamesText(g.tiles) + "\n" + (TileText(g.config) + "\n")
    case Blank => "\n"
  }

  function RecordText(r: Record): string { Verb(r) + Body(r) }

  function RecordsText(rs: seq<Record>): string {
    if rs == [] then "" else RecordText(rs[0]) + RecordsText(rs[1..])
  }

  // ----- Reading -----

  /** `while (in) { in >> tile; push }`: the read that fails at the end pushes the last name once more. */
  function ReadNames(t: string, last: string): seq<string>
    decreases |t|
  {
    if DropSpace(t) == "" then [last]
    else
      var r := ReadToken(t);
      [r.0] + ReadNames(r.1, r.0)
  }

  function PushWord(bram: map<nat, seq<nat>>, index: nat, n: nat): map<nat, seq<nat>> {
    bram[index := (if index in bram then bram[index] else []) + [n]]
  }

  function ReadBram(t: string, index: nat, bram: map<nat, seq<nat>>): (r: (map<nat, seq<nat>>, string))
    ensures |r.1| <= |t|
    decreases |t|
  {
    var u := Skip(t);
    if AtEnd(u) then (bram, u)
    else
      var n := ReadNumber(u, 16);
      ReadBram(n.1, index, PushWord(bram, index, n.0))
  }

  /** One record behind its verb; None is a failed assertion or an error. */
  function ReadRecord(verb: string, t: string, cc: Chip): (r: Option<(Chip, string)>)
    ensures r.Some? ==> |r.value.1| <= |t|
  {
    if verb == ".device" then
      var name := ReadToken(t);
      Some((cc.(chipName := name.0), name.1))
    else if verb == ".comment" then
      var line := ReadLine(t);
      Some((cc.(metadata := cc.metadata + [line.0]), line.1))
    else if verb == ".sysconfig" then
      var key := ReadToken(t);
      var value := ReadToken(key.1);
      Some((cc.(sysconfig := cc.sysconfig[key.0 := value.0]), value.1))
    else if verb == ".tile" then
      var name := ReadToken(t);
      var tc := ReadTile(name.1, EMPTY_TILE);
      if tc == None then None else Some((cc.(tiles := cc.tiles[name.0 := tc.value.0]), tc.value.1))
    else if verb == ".tile_group" then
      var line := ReadLine(t);
      var tc := ReadTile(line.1, EMPTY_TILE);
      if tc == None then None
      else Some((cc.(tilegroups := cc.tilegroups + [TileGroup(ReadNames(line.0, ""), tc.value.0)]), tc.value.1))
    else if verb == ".bram_init" then
      var index := ReadNumber(t, 10);
      var words := ReadBram(index.1, index.0, cc.bram);
      Some((cc.(bram := words.0), words.1))
    else None
  }

  function ReadChip(t: string, cc: Chip): Option<Chip>
    decreases |t|
  {
    var u := Skip(t);
    if u == "" then Some(cc)
    else
      var verb := ReadToken(u);
      var r := ReadRecord(verb.0, verb.1, cc);
      if r == None then None else ReadChip(r.value.1, r.value.0)
  }

  // ----- What reading a record does -----

  function Repeated(names: seq<string>): seq<string> { names + [if names == [] then "" else names[|names| - 1]] }

  function AddWords(bram: map<nat, seq<nat>>, index: nat, words: seq<nat>): map<nat, seq<nat>>
    decreases |words|
  {
    if words == [] then bram else AddWords(PushWord(bram, index, words[0]), index, words[1..])
  }

  function Apply(cc: Chip, r: Record): Chip {
    match r
    case Device(name) => cc.(chipName := name)
    case Comment(line) => cc.(metadata := cc.metadata + [" " + line])
    case Sys(key, value) => cc.(sysconfig := cc.sysconfig[key := value])
    case Tile(name, config) => cc.(tiles := cc.tiles[name := config])
    case Bram(index, words) => cc.(bram := AddWords(cc.bram, index, words))
    case Group(g) => cc.(tilegroups := cc.tilegroups + [TileGroup(Repeated(g.tiles), g.config)])
    case Blank => cc
  }

  predicate ValidRecord(r: Record) {
    match r
    case Device(name) => IsToken(name)
    case Comment(line) => '\n' !in line
    case Sys(key, value) => IsToken(key) && IsToken(value)
    case Tile(name, config) => IsToken(name) && ValidTile(config)
    case Bram(index, words) => index < 0x1_0000 && forall n :: n in words ==> n < 0x1_0000
    case Group(g) => (forall n :: n in g.tiles ==> IsToken(n)) && ValidTile(g.config)
    case Blank => true
  }

  // ----- Records read back -----

  lemma ChipSkips(t: string, u: string, cc: Chip)
    requires Skip(t) == Skip(u)
    ensures ReadChip(t, cc) == ReadChip(u, cc)
  {
    hide Skip, ReadToken, ReadRecord;
  }

  lemma {:induction false} BramReads(words: seq<nat>, i: nat, index: nat, bram: map<nat, seq<nat>>, rest: string)
    requires i <= |words| && (forall n :: n in words ==> n < 0x1_0000)
    requires rest != "" && IsSpace(rest[0]) && AtEnd(Skip(rest))
    ensures ReadBram(BramText(words, i) + rest, index, bram) == (AddWords(bram, index, words[i..]), Skip(rest))
    decreases |words| - i
  {
    hide Padded, ReadBram, PushWord, Skip, BramText, IsSpace;
    BramSplit(words, i, rest);
    if i == |words| {
      BramEnds(rest, index, bram);
      assert words[i..] == [];
    } else {
      assert words[i] in words && words[i..][1..] == words[i + 1..];
      BramWordReads(words[i], if i % 8 == 7 then "\n" else " ", BramText(words, i + 1) + rest, index, bram);
      BramReads(words, i + 1, index, PushWord(bram, index, words[i]), rest);
    }
  }

  lemma BramSplit(words: seq<nat>, i: nat, rest: string)
    requires i <= |words|
    ensures BramText(words, i) + rest == if i == |words| then rest
      else Padded(words[i], 16, 3) + ((if i % 8 == 7 then "\n" else " ") + (BramText(words, i + 1) + rest))
  {
    hide Padded;
  }

  lemma BramEnds(rest: string, index: nat, bram: map<nat, seq<nat>>)
    requires AtEnd(Skip(rest))
    ensures ReadBram(rest, index, bram) == (bram, Skip(rest))
  {
  }

  /** One word and the blank or line end behind it. */
  lemma BramWordReads(n: nat, gap: string, more: string, index: nat, bram: map<nat, seq<nat>>)
    requires n < 0x1_0000 && (gap == "\n" || gap == " ")
    ensures ReadBram(Padded(n, 16, 3) + (gap + more), index, bram) == ReadBram(more, index, PushWord(bram, index, n))
  {
    NumberReads(n, 16, 3, gap + more);
    WordStops(n, gap + more);
    GapSkips(gap, more);
    hide Skip, Padded, ReadNumber, PushWord;
    BramSkips(gap + more, more, index, PushWord(bram, index, n));
  }

  lemma BramSkips(t: string, u: string, index: nat, bram: map<nat, seq<nat>>)
    requires Skip(t) == Skip(u)
    ensures ReadBram(t, index, bram) == ReadBram(u, index, bram)
  {
    hide Skip, ReadNumber, PushWord;
  }

  lemma GapSkips(gap: string, more: string)
    requires gap == "\n" || gap == " "
    ensures Skip(gap + more) == Skip(more)
  {
    assert (gap + more)[1..] == more;
  }

  lemma WordStops(n: nat, rest: string)
    ensures var t := Padded(n, 16, 3) + rest; Skip(t) == t && !AtEnd(t)
  {
    ValueOfPadded(n, 16, 3);
    var s := Padded(n, 16, 3);
    assert IsDigit(s[0], 16);
    hide Padded, Value;
    assert (s + rest)[0] == s[0];
    SkipStops(s + rest);
  }

  predicate NamesValid(names: seq<string>) { forall n :: n in names ==> IsToken(n) }

  /** Names are read in order, and the last one, or nothing, once more. */
  lemma {:induction false} NamesRead(names: seq<string>, last: string)
    requires NamesValid(names)
    ensures ReadNames(NamesText(names), last) == names + [if names == [] then last else names[|names| - 1]]
    decreases |names|
  {
    if names != [] {
      assert names[0] in names;
      var more := NamesText(names[1..]);
      assert more == "" || more[0] == ' ';
      TokenReads(names[0], more);
      NamesRead(names[1..], names[0]);
      FirstName(names[0], more);
      hide ReadToken, DropSpace;
    }
  }

  lemma FirstName(name: string, more: string)
    requires IsToken(name)
    ensures DropSpace(" " + name + more) != ""
  {
    assert (" " + name + more)[1..] == name + more;
  }

  lemma {:induction false} NamesOnOneLine(names: seq<string>)
    requires NamesValid(names)
    ensures '\n' !in NamesText(names)
  {
    if names != [] {
      assert names[0] in names;
      NamesOnOneLine(names[1..]);
    }
  }

  lemma VerbStarts(verb: string)
    requires IsVerb(verb)
    ensures IsToken(verb) && verb[0] == '.'
  {
  }

  lemma VerbReads(verb: string, rest: string)
    requires IsVerb(verb) && rest != "" && IsSpace(rest[0])
    ensures ReadToken(verb + rest) == (verb, rest) && Skip(verb + rest) == verb + rest
  {
    VerbStarts(verb);
    hide ReadToken, Skip, IsVerb, IsSpace, IsToken;
    TokenReads(verb, rest);
    SkipStops(verb + rest);
  }

  /** Reading goes on behind a record once its verb and its body are read. */
  lemma ReadOn(verb: string, body: string, cc: Chip, after: Chip, rest: string)
    requires IsVerb(verb) && body != "" && IsSpace(body[0])
    requires ReadRecord(verb, body, cc).Some? && ReadRecord(verb, body, cc).value.0 == after
    requires Skip(ReadRecord(verb, body, cc).value.1) == Skip(rest)
    ensures ReadChip(verb + body, cc) == ReadChip(rest, after)
  {
    VerbReads(verb, body);
    hide Skip, ReadToken, ReadRecord, IsSpace;
    ChipSkips(ReadRecord(verb, body, cc).value.1, rest, after);
  }

  /** The record behind its verb: it is applied, and what is left leads to the next record. */
  predicate Reads(r: Record, cc: Chip, rest: string) {
    var read := ReadRecord(Verb(r), Body(r) + rest, cc);
    read.Some? && read.value.0 == Apply(cc, r) && Skip(read.value.1) == Skip(rest)
  }

  lemma DeviceCase(t: string, cc: Chip)
    ensures var name := ReadToken(t); ReadRecord(".device", t, cc) == Some((cc.(chipName := name.0), name.1))
  {
    hide ReadToken;
  }

  lemma DeviceBody(name: string, rest: string)
    ensures Body(Device(name)) + rest == " " + name + ("\n" + ("\n" + rest))
  {
  }

  lemma DeviceReads(name: string, cc: Chip, rest: string)
    requires IsToken(name)
    ensures Reads(Device(name), cc, rest)
  {
    DeviceBody(name, rest);
    hide ReadToken, Skip, ReadRecord, Body, IsToken;
    TokenReads(name, "\n" + ("\n" + rest));
    SkipNewline("\n" + rest);
    SkipNewline(rest);
    DeviceCase(" " + name + ("\n" + ("\n" + rest)), cc);
  }

  lemma CommentCase(t: string, cc: Chip)
    ensures var line := ReadLine(t); ReadRecord(".comment", t, cc) == Some((cc.(metadata := cc.metadata + [line.0]), line.1))
  {
    hide ReadLine;
  }

  lemma CommentReads(line: string, cc: Chip, rest: string)
    requires '\n' !in line
    ensures Reads(Comment(line), cc, rest)
  {
    LineReads(" " + line, rest);
    CommentCase(" " + line + "\n" + rest, cc);
    hide ReadLine, Skip, ReadRecord;
  }

  lemma SysCase(t: string, cc: Chip)
    ensures var key := ReadToken(t); var value := ReadToken(key.1);
      ReadRecord(".sysconfig", t, cc) == Some((cc.(sysconfig := cc.sysconfig[key.0 := value.0]), value.1))
  {
    hide ReadToken;
  }

  lemma SysBody(key: string, value: string, rest: string)
    ensures Body(Sys(key, value)) + rest == Two(key, value) + ("\n" + rest)
  {
    hide Two;
  }

  lemma SysReads(key: string, value: string, cc: Chip, rest: string)
    requires IsToken(key) && IsToken(value)
    ensures Reads(Sys(key, value), cc, rest)
  {
    SysBody(key, value, rest);
    hide ReadToken, Skip, Two, ReadRecord, Body, IsToken;
    TwoTokens(key, value, "\n" + rest);
    SkipNewline(rest);
    SysCase(Two(key, value) + ("\n" + rest), cc);
  }

  lemma SkipNext(rest: string)
    requires AtEnd(Skip(rest))
    ensures Skip("\n" + rest) == Skip(rest) && Skip(Skip(rest)) == Skip(rest)
  {
    SkipNewline(rest);
    if Skip(rest) != "" { SkipStops(Skip(rest)); }
  }

  /** The tile record's case of the reader. */
  lemma TileCase(t: string, cc: Chip)
    ensures var name := ReadToken(t); var tc := ReadTile(name.1, EMPTY_TILE);
      ReadRecord(".tile", t, cc) == if tc == None then None else Some((cc.(tiles := cc.tiles[name.0 := tc.value.0]), tc.value.1))
  {
    hide ReadToken, ReadTile;
  }

  lemma TileBody(name: string, config: TileConfig, rest: string)
    ensures Body(Tile(name, config)) + rest == " " + name + ("\n" + (TileText(config) + ("\n" + rest)))
  {
    hide TileText;
  }

  lemma TileRecordReads(name: string, config: TileConfig, cc: Chip, rest: string)
    requires IsToken(name) && ValidTile(config) && AtEnd(Skip(rest))
    ensures Reads(Tile(name, config), cc, rest)
  {
    var lines := TileText(config) + ("\n" + rest);
    TileBody(name, config, rest);
    hide ReadToken, Skip, TileText, ReadTile, ReadRecord, Body, AtEnd;
    TokenReads(name, "\n" + lines);
    SkipNext(rest);
    TileReads(config, "\n" + rest);
    SkipNewline(lines);
    TileSkips("\n" + lines, lines, EMPTY_TILE);
    TileCase(" " + name + ("\n" + lines), cc);
  }

  lemma BramCase(t: string, cc: Chip)
    ensures var index := ReadNumber(t, 10); var words := ReadBram(index.1, index.0, cc.bram);
      ReadRecord(".bram_init", t, cc) == Some((cc.(bram := words.0), words.1))
  {
    hide ReadNumber, ReadBram;
  }

  lemma BramBody(index: nat, words: seq<nat>, rest: string)
    ensures Body(Bram(index, words)) + rest == " " + Padded(index, 10, 1) + ("\n" + (BramText(words, 0) + ("\n" + rest)))
  {
    hide BramText, Padded;
  }

  lemma BramRecordReads(index: nat, words: seq<nat>, cc: Chip, rest: string)
    requires ValidRecord(Bram(index, words)) && AtEnd(Skip(rest))
    ensures Reads(Bram(index, words), cc, rest)
  {
    var lines := BramText(words, 0) + ("\n" + rest);
    BramBody(index, words, rest);
    assert words[0..] == words;
    hide ReadNumber, Skip, BramText, ReadBram, Padded, ReadRecord, Body, AtEnd, AddWords;
    NumberReads(index, 10, 1, "\n" + lines);
    SkipNext(rest);
    BramReads(words, 0, index, cc.bram, "\n" + rest);
    SkipNewline(lines);
    BramSkips("\n" + lines, lines, index, cc.bram);
    BramCase(" " + Padded(index, 10, 1) + ("\n" + lines), cc);
  }

  lemma GroupCase(t: string, cc: Chip)
    ensures var line := ReadLine(t); var tc := ReadTile(line.1, EMPTY_TILE);
      ReadRecord(".tile_group", t, cc) == if tc == None then None
        else Some((cc.(tilegroups := cc.tilegroups + [TileGroup(ReadNames(line.0, ""), tc.value.0)]), tc.value.1))
  {
    hide ReadLine, ReadTile, ReadNames;
  }

  lemma GroupBody(g: TileGroup, rest: string)
    ensures Body(Group(g)) + rest == NamesText(g.tiles) + "\n" + (TileText(g.config) + ("\n" + rest))
  {
    hide TileText, NamesText;
  }

  lemma GroupReads(g: TileGroup, cc: Chip, rest: string)
    requires ValidRecord(Group(g)) && AtEnd(Skip(rest))
    ensures Reads(Group(g), cc, rest)
  {
    var lines := TileText(g.config) + ("\n" + rest);
    GroupBody(g, rest);
    hide ReadLine, Skip, TileText, ReadTile, NamesText, ReadNames, ReadRecord, Body, AtEnd;
    NamesOnOneLine(g.tiles);
    LineReads(NamesText(g.tiles), lines);
    NamesRead(g.tiles, "");
    SkipNext(rest);
    TileReads(g.config, "\n" + rest);
    GroupCase(NamesText(g.tiles) + "\n" + lines, cc);
  }

  lemma RecordReads(r: Record, cc: Chip, rest: string)
    requires ValidRecord(r) && AtEnd(Skip(rest))
    ensures ReadChip(RecordText(r) + rest, cc) == ReadChip(rest, Apply(cc, r))
  {
    hide Skip, ReadChip, ReadRecord, Apply, Body;
    match r {
      case Device(name) => DeviceReads(name, cc, rest);
      case Comment(line) => CommentReads(line, cc, rest);
      case Sys(key, value) => SysReads(key, value, cc, rest);
      case Tile(name, config) => TileRecordReads(name, config, cc, rest);
      case Bram(index, words) => BramRecordReads(index, words, cc, rest);
      case Group(g) => GroupReads(g, cc, rest);
      case Blank =>
        BlankReads(cc, rest);
        return;
    }
    BodyStarts(r);
    Regroup(Verb(r), Body(r), rest);
    ReadOn(Verb(r), Body(r) + rest, cc, Apply(cc, r), rest);
  }

  /** A comment line between records changes nothing. */
  lemma CommentLineIgnored(r: Record, line: string, rest: string, cc: Chip)
    requires ValidRecord(r) && AtEnd(Skip(rest)) && '\n' !in line
    ensures ReadChip("#" + line + "\n" + rest, cc) == ReadChip(rest, cc)
    ensures ReadChip(RecordText(r) + ("#" + line + "\n" + rest), cc) == ReadChip(RecordText(r) + rest, cc)
  {
    hide Skip, ReadChip, RecordText, ValidRecord, AtEnd;
    SkipComment(line, rest);
    ChipSkips("#" + line + "\n" + rest, rest, cc);
    ChipSkips("#" + line + "\n" + rest, rest, Apply(cc, r));
    RecordReads(r, cc, rest);
    RecordReads(r, cc, "#" + line + "\n" + rest);
  }

  lemma BodyStarts(r: Record)
    ensures Body(r) != "" && IsSpace(Body(r)[0])
  {
    hide TileText, BramText, Padded;
  }

  lemma BlankText(rest: string)
    ensures RecordText(Blank) + rest == "\n" + rest
  {
  }

  lemma BlankReads(cc: Chip, rest: string)
    ensures ReadChip(RecordText(Blank) + rest, cc) == ReadChip(rest, Apply(cc, Blank))
  {
    BlankText(rest);
    hide RecordText, ReadChip, Skip;
    SkipNewline(rest);
    ChipSkips("\n" + rest, rest, cc);
  }

  function ApplyAll(cc: Chip, rs: seq<Record>): Chip
    decreases |rs|
  {
    if rs == [] then cc else ApplyAll(Apply(cc, rs[0]), rs[1..])
  }

  predicate ValidRecords(rs: seq<Record>) { forall r :: r in rs ==> ValidRecord(r) }

  /** Skipping what follows a record leads to the next verb or to the end. */
  lemma {:induction false} NextRecord(rs: seq<Record>)
    ensures AtEnd(Skip(RecordsText(rs)))
    decreases |rs|
  {
    if rs == [] {
      assert RecordsText(rs) == "";
    } else {
      var more := RecordsText(rs[1..]);
      if rs[0].Blank? {
        NextRecord(rs[1..]);
        assert RecordText(rs[0]) + more == "\n" + more;
        SkipNewline(more);
      } else {
        assert Verb(rs[0])[0] == '.';
        hide Body, Verb;
        assert RecordsText(rs)[0] == '.';
        SkipStops(RecordsText(rs));
      }
    }
  }

  /** Records are read one by one. */
  lemma {:induction false} RecordsRead(rs: seq<Record>, cc: Chip)
    requires ValidRecords(rs)
    ensures ReadChip(RecordsText(rs), cc) == Some(ApplyAll(cc, rs))
    decreases |rs|
  {
    hide RecordText, Skip, Apply, ValidRecord, ReadRecord;
    if rs != [] {
      hide ReadChip;
      NextRecord(rs[1..]);
      assert rs[0] in rs;
      RecordReads(rs[0], cc, RecordsText(rs[1..]));
      RecordsRead(rs[1..], Apply(cc, rs[0]));
    } else {
      NothingToRead(cc);
    }
  }

  lemma NothingToRead(cc: Chip)
    ensures ReadChip("", cc) == Some(cc)
  {
  }

  lemma {:induction false} ApplyJoins(cc: Chip, a: seq<Record>, b: seq<Record>)
    ensures ApplyAll(cc, a + b) == ApplyAll(ApplyAll(cc, a), b)
    decreases |a|
  {
    hide Apply;
    if a == [] {
      assert a + b == b;
    } else {
      assert (a + b)[1..] == a[1..] + b;
      ApplyJoins(Apply(cc, a[0]), a[1..], b);
    }
  }

  // ----- The records of a chip -----

  function Comments(lines: seq<string>): seq<Record> { if lines == [] then [] else [Comment(lines[0])] + Comments(lines[1..]) }

  function Spaced(lines: seq<string>): seq<string> { if lines == [] then [] else [" " + lines[0]] + Spaced(lines[1..]) }

  function Settings(m: map<string, string>, keys: seq<string>): seq<Record>
    requires forall k :: k in keys ==> k in m
  {
    if keys == [] then [] else
      assert keys[0] in keys;
      [Sys(keys[0], m[keys[0]])] + Settings(m, keys[1..])
  }

  /** Empty tiles are not written. */
  function TileRecords(m: map<string, TileConfig>, keys: seq<string>): seq<Record>
    requires forall k :: k in keys ==> k in m
  {
    if keys == [] then [] else
      assert keys[0] in keys;
      (if m[keys[0]].Empty() then [] else [Tile(keys[0], m[keys[0]])]) + TileRecords(m, keys[1..])
  }

  function Brams(m: map<nat, seq<nat>>, keys: seq<nat>): seq<Record>
    requires forall k :: k in keys ==> k in m
  {
    if keys == [] then [] else
      assert keys[0] in keys;
      [Bram(keys[0], m[keys[0]])] + Brams(m, keys[1..])
  }

  function Groups(groups: seq<TileGroup>): seq<Record> { if groups == [] then [] else [Group(groups[0])] + Groups(groups[1..]) }

  function GroupsRead(groups: seq<TileGroup>): seq<TileGroup> {
    if groups == [] then [] else [TileGroup(Repeated(groups[0].tiles), groups[0].config)] + GroupsRead(groups[1..])
  }

  /** The order in which the three maps are walked. */
  datatype Order = Order(settings: seq<string>, tiles: seq<string>, brams: seq<nat>)

  ghost predicate Enumerates<K(!new)>(keys: seq<K>, s: set<K>) {
    (forall i, j :: 0 <= i < j < |keys| ==> keys[i] != keys[j]) && forall k :: k in keys <==> k in s
  }

  ghost predicate Walks(o: Order, c: Chip) {
    Enumerates(o.settings, c.sysconfig.Keys) && Enumerates(o.tiles, c.tiles.Keys) && Enumerates(o.brams, c.bram.Keys)
  }

  function Records(c: Chip, o: Order): seq<Record>
    requires Walks(o, c)
  {
    [Device(c.chipName)] + Comments(c.metadata) + Settings(c.sysconfig, o.settings) + [Blank]
      + TileRecords(c.tiles, o.tiles) + Brams(c.bram, o.brams) + Groups(c.tilegroups)
  }

  predicate IsText(s: string) { true }

  predicate HasItems(tc: TileConfig) { !tc.Empty() }

  predicate HasWords(words: seq<nat>) { words != [] }

  /** The listed entries that are worth writing. */
  function Kept<K, V>(m: map<K, V>, keys: seq<K>, keep: V -> bool): map<K, V> {
    map k | k in keys && k in m && keep(m[k]) :: m[k]
  }

  lemma KeptStep<K, V>(base: map<K, V>, m: map<K, V>, keys: seq<K>, keep: V -> bool)
    requires forall k <- keys :: k in m
    ensures base + Kept(m, keys, keep) == if keys == [] then base
      else (if keep(m[keys[0]]) then base[keys[0] := m[keys[0]]] else base) + Kept(m, keys[1..], keep)
  {
    if keys != [] {
      forall k ensures k in keys <==> k == keys[0] || k in keys[1..] { assert keys == [keys[0]] + keys[1..]; }
    }
  }

  lemma KeptAll<K, V>(m: map<K, V>, keys: seq<K>, keep: V -> bool)
    requires forall k <- m :: k in keys
    ensures Kept(m, keys, keep) == map k | k in m && keep(m[k]) :: m[k]
  {
  }

  /** What comes back: comments start with a blank, groups name their last tile twice, empty tiles and
      empty memories are gone; everything else is as it was. */
  function Expected(c: Chip): Chip {
    Chip(c.chipName, Spaced(c.metadata), c.sysconfig, map k | k in c.tiles && HasItems(c.tiles[k]) :: c.tiles[k],
         map k | k in c.bram && HasWords(c.bram[k]) :: c.bram[k], GroupsRead(c.tilegroups))
  }

  lemma {:induction false} CommentsApply(cc: Chip, lines: seq<string>)
    ensures ApplyAll(cc, Comments(lines)) == cc.(metadata := cc.metadata + Spaced(lines))
    decreases |lines|
  {
    if lines == [] {
      assert cc.metadata + [] == cc.metadata;
    } else {
      CommentsApply(Apply(cc, Comment(lines[0])), lines[1..]);
      Regroup(cc.metadata, [" " + lines[0]], Spaced(lines[1..]));
    }
  }

  lemma {:induction false} GroupsApply(cc: Chip, groups: seq<TileGroup>)
    ensures ApplyAll(cc, Groups(groups)) == cc.(tilegroups := cc.tilegroups + GroupsRead(groups))
    decreases |groups|
  {
    if groups == [] {
      assert cc.tilegroups + [] == cc.tilegroups;
    } else {
      GroupsApply(Apply(cc, Group(groups[0])), groups[1..]);
      Regroup(cc.tilegroups, [TileGroup(Repeated(groups[0].tiles), groups[0].config)], GroupsRead(groups[1..]));
    }
  }

  lemma {:induction false} SettingsApply(cc: Chip, m: map<string, string>, keys: seq<string>)
    requires forall k :: k in keys ==> k in m
    ensures ApplyAll(cc, Settings(m, keys)) == cc.(sysconfig := cc.sysconfig + Kept(m, keys, IsText))
    decreases |keys|
  {
    hide Kept;
    KeptStep(cc.sysconfig, m, keys, IsText);
    if keys != [] {
      SettingsApply(Apply(cc, Sys(keys[0], m[keys[0]])), m, keys[1..]);
    }
  }

  lemma TilesStep(cc: Chip, m: map<string, TileConfig>, keys: seq<string>)
    requires forall k :: k in keys ==> k in m
    ensures ApplyAll(cc, TileRecords(m, keys)) ==
      if keys == [] then cc
      else if HasItems(m[keys[0]]) then ApplyAll(cc.(tiles := cc.tiles[keys[0] := m[keys[0]]]), TileRecords(m, keys[1..]))
      else ApplyAll(cc, TileRecords(m, keys[1..]))
  {
    if keys != [] {
      var rest := TileRecords(m, keys[1..]);
      assert [] + rest == rest && ([Tile(keys[0], m[keys[0]])] + rest)[1..] == rest;
    }
  }

  lemma {:induction false} TilesApply(cc: Chip, m: map<string, TileConfig>, keys: seq<string>)
    requires forall k :: k in keys ==> k in m
    ensures ApplyAll(cc, TileRecords(m, keys)) == cc.(tiles := cc.tiles + Kept(m, keys, HasItems))
    decreases |keys|
  {
    hide Kept, ApplyAll, TileRecords, HasItems;
    KeptStep(cc.tiles, m, keys, HasItems);
    TilesStep(cc, m, keys);
    if keys != [] {
      if HasItems(m[keys[0]]) {
        TilesApply(cc.(tiles := cc.tiles[keys[0] := m[keys[0]]]), m, keys[1..]);
      } else {
        TilesApply(cc, m, keys[1..]);
      }
    }
  }

  lemma {:induction false} AddWordsBehind(bram: map<nat, seq<nat>>, index: nat, words: seq<nat>)
    ensures AddWords(bram, index, words) == if words == [] then bram
      else bram[index := (if index in bram then bram[index] else []) + words]
    decreases |words|
  {
    if words != [] {
      AddWordsBehind(PushWord(bram, index, words[0]), index, words[1..]);
      var own := if index in bram then bram[index] else [];
      Regroup(own, [words[0]], words[1..]);
      assert words == [words[0]] + words[1..];
      assert |words| == 1 ==> words == [words[0]];
    }
  }

  lemma {:induction false} BramsApply(cc: Chip, m: map<nat, seq<nat>>, keys: seq<nat>)
    requires (forall k :: k in keys ==> k in m && k !in cc.bram) && forall i, j :: 0 <= i < j < |keys| ==> keys[i] != keys[j]
    ensures ApplyAll(cc, Brams(m, keys)) == cc.(bram := cc.bram + Kept(m, keys, HasWords))
    decreases |keys|
  {
    hide Kept;
    KeptStep(cc.bram, m, keys, HasWords);
    if keys != [] {
      OneBram(cc, keys[0], m[keys[0]]);
      hide AddWords, Apply;
      BramsApply(Apply(cc, Bram(keys[0], m[keys[0]])), m, keys[1..]);
    }
  }

  lemma OneBram(cc: Chip, index: nat, words: seq<nat>)
    requires index !in cc.bram
    ensures Apply(cc, Bram(index, words)) == if HasWords(words) then cc.(bram := cc.bram[index := words]) else cc
  {
    AddWordsBehind(cc.bram, index, words);
    assert [] + words == words;
  }

  // ----- The chip read back -----

  predicate ValidChip(c: Chip) {
    && IsToken(c.chipName) && (forall l :: l in c.metadata ==> '\n' !in l)
    && (forall k :: k in c.sysconfig ==> IsToken(k) && IsToken(c.sysconfig[k]))
    && (forall k :: k in c.tiles ==> IsToken(k) && ValidTile(c.tiles[k]))
    && (forall k :: k in c.bram ==> ValidRecord(Bram(k, c.bram[k])))
    && (forall g :: g in c.tilegroups ==> ValidRecord(Group(g)))
  }

  lemma {:induction false} CommentsValid(lines: seq<string>)
    requires forall l :: l in lines ==> '\n' !in l
    ensures ValidRecords(Comments(lines))
  {
    if lines != [] {
      assert lines[0] in lines;
      CommentsValid(lines[1..]);
    }
  }

  lemma {:induction false} GroupsValid(groups: seq<TileGroup>)
    requires forall g :: g in groups ==> ValidRecord(Group(g))
    ensures ValidRecords(Groups(groups))
  {
    hide ValidRecord;
    if groups != [] {
      assert groups[0] in groups;
      GroupsValid(groups[1..]);
    }
  }

  lemma {:induction false} SettingsValid(m: map<string, string>, keys: seq<string>)
    requires (forall k :: k in keys ==> k in m) && forall k :: k in m ==> IsToken(k) && IsToken(m[k])
    ensures ValidRecords(Settings(m, keys))
  {
    hide IsToken;
    if keys != [] {
      assert keys[0] in keys;
      SettingsValid(m, keys[1..]);
    }
  }

  lemma {:induction false} TilesValid(m: map<string, TileConfig>, keys: seq<string>)
    requires (forall k :: k in keys ==> k in m) && forall k :: k in m ==> IsToken(k) && ValidTile(m[k])
    ensures ValidRecords(TileRecords(m, keys))
  {
    hide IsToken, ValidTile;
    if keys != [] {
      assert keys[0] in keys;
      TilesValid(m, keys[1..]);
    }
  }

  lemma {:induction false} BramsValid(m: map<nat, seq<nat>>, keys: seq<nat>)
    requires (forall k :: k in keys ==> k in m) && forall k :: k in m ==> ValidRecord(Bram(k, m[k]))
    ensures ValidRecords(Brams(m, keys))
  {
    hide ValidRecord;
    if keys != [] {
      assert keys[0] in keys;
      BramsValid(m, keys[1..]);
    }
  }

  lemma AllValid(c: Chip, o: Order)
    requires Walks(o, c) && ValidChip(c)
    ensures ValidRecords(Records(c, o))
  {
    CommentsValid(c.metadata);
    GroupsValid(c.tilegroups);
    SettingsValid(c.sysconfig, o.settings);
    TilesValid(c.tiles, o.tiles);
    BramsValid(c.bram, o.brams);
    assert ValidRecord(Device(c.chipName)) && ValidRecord(Blank);
    hide Comments, Groups, Settings, TileRecords, Brams, ValidRecord;
  }

  lemma MetadataStage(cc: Chip, lines: seq<string>)
    requires cc.metadata == []
    ensures ApplyAll(cc, Comments(lines)) == cc.(metadata := Spaced(lines))
  {
    CommentsApply(cc, lines);
    assert [] + Spaced(lines) == Spaced(lines);
  }

  lemma SettingsStage(cc: Chip, m: map<string, string>, keys: seq<string>)
    requires cc.sysconfig == map[] && Enumerates(keys, m.Keys)
    ensures ApplyAll(cc, Settings(m, keys)) == cc.(sysconfig := m)
  {
    SettingsApply(cc, m, keys);
    KeptAll(m, keys, IsText);
    assert map[] + Kept(m, keys, IsText) == m;
  }

  lemma TilesStage(cc: Chip, m: map<string, TileConfig>, keys: seq<string>)
    requires cc.tiles == map[] && Enumerates(keys, m.Keys)
    ensures ApplyAll(cc, TileRecords(m, keys)) == cc.(tiles := map k | k in m && HasItems(m[k]) :: m[k])
  {
    TilesApply(cc, m, keys);
    KeptAll(m, keys, HasItems);
    hide HasItems;
    assert map[] + Kept(m, keys, HasItems) == map k | k in m && HasItems(m[k]) :: m[k];
  }

  lemma BramsStage(cc: Chip, m: map<nat, seq<nat>>, keys: seq<nat>)
    requires cc.bram == map[] && Enumerates(keys, m.Keys)
    ensures ApplyAll(cc, Brams(m, keys)) == cc.(bram := map k | k in m && HasWords(m[k]) :: m[k])
  {
    hide HasWords, ApplyAll, Brams;
    BramsApply(cc, m, keys);
    KeptAll(m, keys, HasWords);
    assert map[] + Kept(m, keys, HasWords) == map k | k in m && HasWords(m[k]) :: m[k];
  }

  lemma GroupsStage(cc: Chip, groups: seq<TileGroup>)
    requires cc.tilegroups == []
    ensures ApplyAll(cc, Groups(groups)) == cc.(tilegroups := GroupsRead(groups))
  {
    GroupsApply(cc, groups);
    assert [] + GroupsRead(groups) == GroupsRead(groups);
  }

  lemma StartStages(name: string)
    ensures ApplyAll(EMPTY_CHIP, [Device(name)]) == Chip(name, [], map[], map[], map[], [])
    ensures forall cc :: ApplyAll(cc, [Blank]) == cc
  {
  }

  lemma ApplySeven(cc: Chip, a: seq<Record>, b: seq<Record>, c: seq<Record>, d: seq<Record>, e: seq<Record>, f: seq<Record>, g: seq<Record>)
    ensures ApplyAll(cc, a + b + c + d + e + f + g)
         == ApplyAll(ApplyAll(ApplyAll(ApplyAll(ApplyAll(ApplyAll(ApplyAll(cc, a), b), c), d), e), f), g)
  {
    hide ApplyAll;
    ApplyJoins(cc, a + b + c + d + e + f, g);
    ApplyJoins(cc, a + b + c + d + e, f);
    ApplyJoins(cc, a + b + c + d, e);
    ApplyJoins(cc, a + b + c, d);
    ApplyJoins(cc, a + b, c);
    ApplyJoins(cc, a, b);
  }

  lemma RecordsMakeChip(c: Chip, o: Order)
    requires Walks(o, c)
    ensures ApplyAll(EMPTY_CHIP, Records(c, o)) == Expected(c)
  {
    hide ApplyAll, Spaced, GroupsRead, Comments, Settings, TileRecords, Brams, Groups, HasItems, HasWords;
    ApplySeven(EMPTY_CHIP, [Device(c.chipName)], Comments(c.metadata), Settings(c.sysconfig, o.settings), [Blank],
               TileRecords(c.tiles, o.tiles), Brams(c.bram, o.brams), Groups(c.tilegroups));
    var e := Expected(c);
    StartStages(c.chipName);
    MetadataStage(Chip(c.chipName, [], map[], map[], map[], []), c.metadata);
    SettingsStage(Chip(c.chipName, e.metadata, map[], map[], map[], []), c.sysconfig, o.settings);
    TilesStage(Chip(c.chipName, e.metadata, c.sysconfig, map[], map[], []), c.tiles, o.tiles);
    BramsStage(Chip(c.chipName, e.metadata, c.sysconfig, e.tiles, map[], []), c.bram, o.brams);
    GroupsStage(Chip(c.chipName, e.metadata, c.sysconfig, e.tiles, e.bram, []), c.tilegroups);
  }

  function ChipString(c: Chip, o: Order): string
    requires Walks(o, c)
  {
    RecordsText(Records(c, o))
  }

  /** The printed text is read back, whatever the order of the maps, as the expected chip. */
  lemma ChipReadsBack(c: Chip, o: Order)
    requires Walks(o, c) && ValidChip(c)
    ensures ReadChip(ChipString(c, o), EMPTY_CHIP) == Some(Expected(c))
  {
    AllValid(c, o);
    RecordsMakeChip(c, o);
    hide Records, RecordsText, Expected, ReadChip, ApplyAll, ValidRecords;
    RecordsRead(Records(c, o), EMPTY_CHIP);
  }

  predicate Plain(c: Chip) {
    && c.metadata == [] && c.tilegroups == []
    && (forall k :: k in c.tiles ==> HasItems(c.tiles[k])) && (forall k :: k in c.bram ==> HasWords(c.bram[k]))
  }

  /** The round trip gives the same chip exactly when it has no comments, groups, empty tiles or empty memories. */
  lemma RoundTripExactlyWhen(c: Chip)
    ensures Expected(c) == c <==> Plain(c)
  {
    var e := Expected(c);
    if c.metadata != [] { assert |Spaced(c.metadata)[0]| == |c.metadata[0]| + 1; }
    if c.tilegroups != [] { assert |GroupsRead(c.tilegroups)[0].tiles| == |c.tilegroups[0].tiles| + 1; }
    if e == c {
      forall k | k in c.tiles ensures HasItems(c.tiles[k]) { assert k in e.tiles; }
      forall k | k in c.bram ensures HasWords(c.bram[k]) { assert k in e.bram; }
    } else if (forall k :: k in c.tiles ==> HasItems(c.tiles[k])) && (forall k :: k in c.bram ==> HasWords(c.bram[k])) {
      assert e.tiles == c.tiles && e.bram == c.bram;
    }
  }

  function OneComment(line: string): Chip { Chip("E", [line], map[], map[], map[], []) }

  lemma OneCommentFacts(line: string)
    requires '\n' !in line
    ensures ValidChip(OneComment(line)) && Walks(Order([], [], []), OneComment(line))
    ensures Expected(OneComment(line)) == OneComment(" " + line)
  {
    var c := OneComment(line);
    assert IsToken("E") by { assert !IsSpace('E'); }
    hide IsToken;
    assert [line][1..] == [] && Spaced([line]) == [" " + line];
    assert Expected(c).tiles == map[] && Expected(c).bram == map[];
  }

  /** Valid chips that do not survive the trip: a comment comes back with a blank in front. */
  lemma CommentGainsBlank(line: string)
    requires '\n' !in line
    ensures var c, o := OneComment(line), Order([], [], []);
      Walks(o, c) && ValidChip(c) && ReadChip(ChipString(c, o), EMPTY_CHIP) == Some(OneComment(" " + line)) && OneComment(" " + line) != c
  {
    OneCommentFacts(line);
    hide ReadChip, ChipString, ValidChip, Expected;
    ChipReadsBack(OneComment(line), Order([], [], []));
    assert |" " + line| == |line| + 1;
  }

  // ----- What the text spells, whoever reads it -----

  /** Every eighth word ends a line, the others are followed by a blank. */
  ghost predicate SpellsWords(text: string, words: seq<nat>) {
    exists hex: seq<string> :: |hex| == |words| && (forall i :: 0 <= i < |hex| ==> HexText(hex[i], words[i], 3))
      && text == Joined(seq(|hex|, i requires 0 <= i < |hex| => hex[i] + (if i % 8 == 7 then "\n" else " ")))
  }

  function SpacedNames(names: seq<string>): string {
    Joined(seq(|names|, i requires 0 <= i < |names| => " " + names[i]))
  }

  ghost predicate SpellsRecord(text: string, r: Record) {
    match r
    case Device(name) => text == ".device " + name + "\n\n"
    case Comment(line) => text == ".comment " + line + "\n"
    case Sys(key, value) => text == ".sysconfig " + key + " " + value + "\n"
    case Tile(name, config) => exists lines :: SpellsTile(lines, config) && text == ".tile " + name + "\n" + lines + "\n"
    case Bram(index, words) => exists number, rows ::
      NatText(number, index) && SpellsWords(rows, words) && text == ".bram_init " + number + "\n" + rows + "\n"
    case Group(g) => exists lines ::
      SpellsTile(lines, g.config) && text == ".tile_group" + SpacedNames(g.tiles) + "\n" + lines + "\n"
    case Blank => text == "\n"
  }

  function Piece(words: seq<nat>, i: nat): string
    requires i < |words|
  {
    Padded(words[i], 16, 3) + (if i % 8 == 7 then "\n" else " ")
  }

  function Pieces(words: seq<nat>, i: nat): seq<string>
    requires i <= |words|
  {
    seq(|words| - i, k requires 0 <= k < |words| - i => Piece(words, i + k))
  }

  lemma BramStep(words: seq<nat>, i: nat)
    requires i < |words|
    ensures BramText(words, i) == Piece(words, i) + BramText(words, i + 1)
    ensures Pieces(words, i) == [Piece(words, i)] + Pieces(words, i + 1)
  {
    hide Padded;
  }

  lemma {:induction false} BramIsJoined(words: seq<nat>, i: nat)
    requires i <= |words|
    ensures BramText(words, i) == Joined(Pieces(words, i))
    decreases |words| - i
  {
    if i < |words| {
      hide BramText, Joined, Pieces, Piece;
      BramStep(words, i);
      JoinedStep(Piece(words, i), Pieces(words, i + 1));
      BramIsJoined(words, i + 1);
    }
  }

  lemma WordsSpell(words: seq<nat>)
    ensures SpellsWords(BramText(words, 0), words)
  {
    BramIsJoined(words, 0);
    hide BramText, Joined, Padded, HexText;
    var hex := seq(|words|, i requires 0 <= i < |words| => Padded(words[i], 16, 3));
    forall i | 0 <= i < |hex| ensures HexText(hex[i], words[i], 3) { PaddedSpells(words[i], 3); }
    assert Pieces(words, 0) == seq(|hex|, i requires 0 <= i < |hex| => hex[i] + (if i % 8 == 7 then "\n" else " "));
  }

  lemma {:induction false} NamesAreJoined(names: seq<string>)
    ensures NamesText(names) == SpacedNames(names)
  {
    if names != [] {
      var pieces := seq(|names|, i requires 0 <= i < |names| => " " + names[i]);
      NamesAreJoined(names[1..]);
      assert pieces[1..] == seq(|names| - 1, i requires 0 <= i < |names| - 1 => " " + names[1..][i]);
    }
  }

  lemma TileForm(name: string, lines: string)
    ensures ".tile" + (" " + name + ("\n" + (lines + "\n"))) == ".tile " + name + "\n" + lines + "\n"
  {
  }

  lemma BramForm(number: string, rows: string)
    ensures ".bram_init" + (" " + number + ("\n" + (rows + "\n"))) == ".bram_init " + number + "\n" + rows + "\n"
  {
  }

  lemma GroupForm(names: string, lines: string)
    ensures ".tile_group" + (names + "\n" + (lines + "\n")) == ".tile_group" + names + "\n" + lines + "\n"
  {
  }

  lemma LineForms(a: string, b: string)
    ensures ".device" + (" " + a + "\n\n") == ".device " + a + "\n\n"
    ensures ".comment" + (" " + a + "\n") == ".comment " + a + "\n"
    ensures ".sysconfig" + (Two(a, b) + "\n") == ".sysconfig " + a + " " + b + "\n"
  {
  }

  lemma BlankForm()
    ensures RecordText(Blank) == "\n"
  {
  }

  /** The text of every record is what its kind asks for. */
  lemma RecordSpells(r: Record)
    ensures SpellsRecord(RecordText(r), r)
  {
    hide TileText, SpellsTile, BramText, SpellsWords, NamesText, SpacedNames, Padded, NatText, Two;
    match r
    case Tile(name, config) =>
      TileSpells(config);
      TileForm(name, TileText(config));
    case Bram(index, words) =>
      IndexSpells(index);
      WordsSpell(words);
      BramForm(Padded(index, 10, 1), BramText(words, 0));
    case Group(g) =>
      TileSpells(g.config);
      NamesAreJoined(g.tiles);
      GroupForm(SpacedNames(g.tiles), TileText(g.config));
    case Device(name) => LineForms(name, "");
    case Comment(line) => LineForms(line, "");
    case Sys(key, value) => LineForms(key, value);
    case Blank => BlankForm();
  }

  lemma IndexSpells(n: nat)
    ensures NatText(Padded(n, 10, 1), n)
  {
    NumeralSpells(n);
    hide Value, Numeral, AllDigits;
  }

  /** The text is that of the records one after the other. */
  ghost predicate SpellsRecords(text: string, rs: seq<Record>) {
    exists texts: seq<string> :: |texts| == |rs| && text == Joined(texts) && forall k :: 0 <= k < |rs| ==> SpellsRecord(texts[k], rs[k])
  }

  lemma {:induction false} RecordsAreJoined(rs: seq<Record>)
    ensures RecordsText(rs) == Joined(seq(|rs|, k requires 0 <= k < |rs| => RecordText(rs[k])))
  {
    hide RecordText;
    if rs != [] {
      var texts := seq(|rs|, k requires 0 <= k < |rs| => RecordText(rs[k]));
      RecordsAreJoined(rs[1..]);
      assert texts[1..] == seq(|rs| - 1, k requires 0 <= k < |rs| - 1 => RecordText(rs[1..][k]));
    }
  }

  lemma RecordsSpell(rs: seq<Record>)
    ensures SpellsRecords(RecordsText(rs), rs)
  {
    RecordsAreJoined(rs);
    hide RecordText, RecordsText, Joined, SpellsRecord;
    var texts := seq(|rs|, k requires 0 <= k < |rs| => RecordText(rs[k]));
    forall k | 0 <= k < |rs| ensures SpellsRecord(texts[k], rs[k]) { RecordSpells(rs[k]); }
  }

  // ----- The program's loops -----

  lemma {:induction false} TextJoins(a: seq<Record>, b: seq<Record>)
    ensures RecordsText(a + b) == RecordsText(a) + RecordsText(b)
  {
    hide RecordText;
    if a == [] {
      assert a + b == b;
    } else {
      assert (a + b)[1..] == a[1..] + b;
      TextJoins(a[1..], b);
      Regroup(RecordText(a[0]), RecordsText(a[1..]), RecordsText(b));
    }
  }

  method PrintBram(words: seq<nat>) returns (out: string)
    ensures out == BramText(words, 0)
  {
    hide Padded;
    out := "";
    for i := 0 to |words|
      invariant out + BramText(words, i) == BramText(words, 0)
    {
      var text := Padded(words[i], 16, 3) + (if i % 8 == 7 then "\n" else " ");
      Regroup(out, text, BramText(words, i + 1));
      out := out + text;
    }
    assert out + "" == out;
  }

  method PrintNames(names: seq<string>) returns (out: string)
    ensures out == NamesText(names)
  {
    out := "";
    for i := 0 to |names|
      invariant out + NamesText(names[i..]) == NamesText(names)
    {
      assert names[i..][1..] == names[i + 1..];
      Regroup(out, " " + names[i], NamesText(names[i + 1..]));
      out := out + (" " + names[i]);
    }
    assert out + "" == out;
  }

  method PrintRecord(r: Record) returns (out: string)
    ensures out == RecordText(r)
  {
    hide TileText, BramText, NamesText, Padded, SpellsTile;
    match r {
      case Device(name) => out := ".device" + (" " + name + "\n\n");
      case Comment(line) => out := ".comment" + (" " + line + "\n");
      case Sys(key, value) => out := ".sysconfig" + (Two(key, value) + "\n");
      case Tile(name, config) =>
        var lines := PrintTile(config);
        out := ".tile" + (" " + name + ("\n" + (lines + "\n")));
      case Bram(index, words) =>
        var lines := PrintBram(words);
        out := ".bram_init" + (" " + Padded(index, 10, 1) + ("\n" + (lines + "\n")));
      case Group(g) =>
        var names := PrintNames(g.tiles);
        var lines := PrintTile(g.config);
        out := ".tile_group" + (names + "\n" + (lines + "\n"));
      case Blank => out := "\n";
    }
  }

  method PrintRecords(records: seq<Record>) returns (out: string)
    ensures out == RecordsText(records)
  {
    hide RecordText;
    out := "";
    for i := 0 to |records|
      invariant out + RecordsText(records[i..]) == RecordsText(records)
    {
      assert records[i..][1..] == records[i + 1..];
      var text := PrintRecord(records[i]);
      Regroup(out, text, RecordsText(records[i + 1..]));
      out := out + text;
    }
    assert records[|records|..] == [] && out + "" == out;
  }

  /** The printer: the maps are walked in the order o. */
  method PrintChip(c: Chip, o: Order) returns (out: string)
    requires Walks(o, c)
    ensures out == ChipString(c, o) && SpellsRecords(out, Records(c, o))
  {
    hide RecordsText, SpellsRecords, Records;
    out := PrintRecords(Records(c, o));
    RecordsSpell(Records(c, o));
  }

  /** The names on a line; the loop ends after the read that fails. */
  method GetNames(line: string) returns (names: seq<string>)
    ensures names == ReadNames(line, "")
  {
    hide ReadToken, DropSpace;
    var text, tile := line, "";
    names := [];
    while DropSpace(text) != ""
      invariant names + ReadNames(text, tile) == ReadNames(line, "")
      decreases |text|
    {
      var r := ReadToken(text);
      ghost var more := ReadNames(r.1, r.0);
      Regroup(names, [r.0], more);
      names := names + [r.0];
      text, tile := r.1, r.0;
    }
    names := names + [tile];
  }

  method GetBram(input: Input, index: nat, bram: map<nat, seq<nat>>) returns (r: map<nat, seq<nat>>)
    modifies input
    ensures (r, input.text) == ReadBram(old(input.text), index, bram)
  {
    hide Skip, ReadNumber, PushWord;
    r := bram;
    SkipTwice(input.text);
    BramSkips(input.text, Skip(input.text), index, bram);
    var eor := input.SkipCheckEor();
    while !eor
      invariant input.text == Skip(input.text) && (eor <==> AtEnd(input.text))
      invariant ReadBram(input.text, index, r) == ReadBram(old(input.text), index, bram)
      decreases |input.text|
    {
      var n := input.GetNumber(16);
      r := PushWord(r, index, n);
      ghost var u := input.text;
      eor := input.SkipCheckEor();
      SkipTwice(u);
      BramSkips(u, input.text, index, r);
    }
  }

  /** One record behind its verb. */
  method GetRecord(input: Input, verb: string, cc: Chip) returns (r: Option<Chip>)
    modifies input
    ensures var record := ReadRecord(verb, old(input.text), cc);
      if r == None then record == None else record == Some((r.value, input.text))
  {
    hide ReadToken, ReadLine, ReadNumber, ReadTile, ReadBram, ReadNames;
    r := None;
    if verb == ".device" {
      var name := input.GetToken();
      r := Some(cc.(chipName := name));
    } else if verb == ".comment" {
      var line := input.GetLine();
      r := Some(cc.(metadata := cc.metadata + [line]));
    } else if verb == ".sysconfig" {
      var key := input.GetToken();
      var value := input.GetToken();
      r := Some(cc.(sysconfig := cc.sysconfig[key := value]));
    } else if verb == ".tile" {
      var name := input.GetToken();
      var tc := GetTile(input);
      if tc != None { r := Some(cc.(tiles := cc.tiles[name := tc.value])); }
    } else if verb == ".tile_group" {
      var line := input.GetLine();
      var names := GetNames(line);
      var tc := GetTile(input);
      if tc != None { r := Some(cc.(tilegroups := cc.tilegroups + [TileGroup(names, tc.value)])); }
    } else if verb == ".bram_init" {
      var index := input.GetNumber(10);
      var words := GetBram(input, index, cc.bram);
      r := Some(cc.(bram := words));
    }
  }

  /** The reader: record by record to the end of the text. */
  method GetChip(input: Input) returns (r: Option<Chip>)
    modifies input
    ensures r == ReadChip(old(input.text), EMPTY_CHIP)
  {
    hide Skip, ReadToken, ReadRecord;
    var cc := EMPTY_CHIP;
    SkipTwice(input.text);
    ChipSkips(input.text, Skip(input.text), cc);
    var eof := input.SkipCheckEof();
    while !eof
      invariant input.text == Skip(input.text) && (eof <==> input.text == "")
      invariant ReadChip(input.text, cc) == ReadChip(old(input.text), EMPTY_CHIP)
      decreases |input.text|
    {
      var verb := input.GetToken();
      ghost var body := input.text;
      var next := GetRecord(input, verb, cc);
      if next == None { return None; }
      assert ReadRecord(verb, body, cc) == Some((next.value, input.text));
      cc := next.value;
      ghost var u := input.text;
      eof := input.SkipCheckEof();
      SkipTwice(u);
      ChipSkips(u, input.text, cc);
    }
    return Some(cc);
  }
}
