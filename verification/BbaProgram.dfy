/** What a bba program says, command by command (bba/main.cc): where everything it writes stands in the blob,
    which programs are accepted, and what the bytes of the blob are.  Nothing here speaks of label numbers, of
    token streams or of passes. */
module BbaProgram {
  import opened Basics

  /** A character of a C string. */
  type Char = x: int | 1 <= x < 256 witness 1
  type Name = seq<Char>

  /** "str:", the prefix of the labels made up for strings. */
  const STR: Name := [115, 116, 114, 58]

  datatype Command =
    | Offset32
    | Pre(line: Name)
    | Post(line: Name)
    | Push(name: Name)
    | Pop
    | DefLabel(name: Name)
    | RefLabel(name: Name)
    | Num8(v: int)
    | Num16(v: int)
    | Num32(v: int)
    | AlignHere
    | Str(s: Name)

  // ----- Where it all goes -----

  /** The command leaves something in the stream on top. */
  predicate Writes(c: Command) {
    c.DefLabel? || c.RefLabel? || c.Num8? || c.Num16? || c.Num32? || c.AlignHere? || c.Str?
  }

  /** What it leaves there: a str leaves a reference to its string. */
  function Left(c: Command): Command { if c.Str? then RefLabel(STR + c.s) else c }

  function StackAfter(stack: seq<Name>, c: Command): seq<Name> {
    match c
    case Push(n) => stack + [n]
    case Pop => if stack == [] then [] else stack[..|stack| - 1]
    case _ => stack
  }

  /** The streams pushed and not yet popped. */
  function Stacked(cs: seq<Command>): seq<Name> {
    if cs == [] then [] else StackAfter(Stacked(cs[..|cs| - 1]), cs[|cs| - 1])
  }

  predicate OnTop(cs: seq<Command>, n: Name) { Stacked(cs) != [] && Stacked(cs)[|Stacked(cs)| - 1] == n }

  function NamesAfter(names: seq<Name>, c: Command): seq<Name> {
    if c.Push? && c.name !in names then names + [c.name] else names
  }

  /** The streams in the order they were first pushed. */
  function StreamNames(cs: seq<Command>): seq<Name> {
    if cs == [] then [] else NamesAfter(StreamNames(cs[..|cs| - 1]), cs[|cs| - 1])
  }

  /** What the commands leave in stream n, in order. */
  function StreamOf(cs: seq<Command>, n: Name): seq<Command> {
    if cs == [] then []
    else
      var init, c := cs[..|cs| - 1], cs[|cs| - 1];
      StreamOf(init, n) + (if Writes(c) && OnTop(init, n) then [Left(c)] else [])
  }

  /** A string byte by byte, with the 0 that ends it. */
  function Spelled(s: Name): (r: seq<Command>)
    ensures |r| == |s| + 1
  {
    seq(|s| + 1, i requires 0 <= i < |s| + 1 => Num8(if i < |s| then s[i] else 0))
  }

  /** A stored string: aligned and labelled. */
  function Stored(s: Name): seq<Command> { [AlignHere, DefLabel(STR + s)] + Spelled(s) }

  /** Every str command also stores its string behind all streams. */
  function Strings(cs: seq<Command>): seq<Command> {
    if cs == [] then []
    else
      var before, c := Strings(cs[..|cs| - 1]), cs[|cs| - 1];
      if c.Str? then before + Stored(c.s) else before
  }

  function Chained(cs: seq<Command>, names: seq<Name>): seq<Command> {
    if names == [] then [] else Chained(cs, names[..|names| - 1]) + StreamOf(cs, names[|names| - 1])
  }

  /** The whole blob in order: stream after stream, then the strings. */
  function Items(cs: seq<Command>): seq<Command> { Chained(cs, StreamNames(cs)) + Strings(cs) }

  // ----- One command more -----

  lemma OneMore(cs: seq<Command>, c: Command)
    ensures (cs + [c])[..|cs|] == cs && (cs + [c])[|cs|] == c && (Offset32 in cs + [c] <==> Offset32 in cs || c.Offset32?)
  {
  }

  lemma More(cs: seq<Command>, c: Command)
    ensures Stacked(cs + [c]) == StackAfter(Stacked(cs), c) && StreamNames(cs + [c]) == NamesAfter(StreamNames(cs), c)
    ensures Strings(cs + [c]) == if c.Str? then Strings(cs) + Stored(c.s) else Strings(cs)
    ensures Offset32 in cs + [c] <==> Offset32 in cs || c.Offset32?
  {
    OneMore(cs, c);
    hide StackAfter, NamesAfter, Stored;
  }

  lemma StreamMore(cs: seq<Command>, c: Command, n: Name)
    ensures StreamOf(cs + [c], n) == StreamOf(cs, n) + (if Writes(c) && OnTop(cs, n) then [Left(c)] else [])
  {
    hide Writes, OnTop, Left;
    OneMore(cs, c);
  }

  // ----- Positions -----

  function Behind(p: nat, c: Command): nat {
    match c
    case RefLabel(_) => p + 4
    case Num8(_) => p + 1
    case Num16(_) => p + 2
    case Num32(_) => p + 4
    case AlignHere => (p + 3) / 4 * 4
    case _ => p
  }

  /** Where item k starts. */
  function Position(items: seq<Command>, k: nat): nat
    requires k <= |items|
  {
    if k == 0 then 0 else Behind(Position(items, k - 1), items[k - 1])
  }

  /** Item d is the last definition of n. */
  predicate LastDef(items: seq<Command>, n: Name, d: nat) {
    d < |items| && items[d] == DefLabel(n) && forall j :: d < j < |items| ==> items[j] != DefLabel(n)
  }

  // ----- Which programs are accepted -----

  /** No pop and nothing written while no stream is pushed. */
  predicate Fed(cs: seq<Command>) {
    forall i :: 0 <= i < |cs| && (cs[i].Pop? || Writes(cs[i])) ==> Stacked(cs[..i]) != []
  }

  lemma FedMore(cs: seq<Command>, c: Command)
    ensures Fed(cs + [c]) <==> Fed(cs) && ((c.Pop? || Writes(c)) ==> Stacked(cs) != [])
  {
    hide Writes, Stacked;
    var all := cs + [c];
    assert all[..|cs|] == cs && all[|cs|] == c;
    assert forall i :: 0 <= i < |cs| ==> all[..i] == cs[..i] && all[i] == cs[i];
  }

  /** 16-bit numbers at even positions, 32-bit numbers and references at multiples of four; references lead to labels
      at multiples of four; under offset32 all labels stand there. */
  ghost predicate WellPlaced(items: seq<Command>, k: nat, offset32: bool)
    requires k < |items|
  {
    var p := Position(items, k);
    match items[k]
    case DefLabel(_) => offset32 ==> p % 4 == 0
    case Num16(_) => p % 2 == 0
    case Num32(_) => p % 4 == 0
    case RefLabel(n) => p % 4 == 0 && exists d :: LastDef(items, n, d) && Position(items, d) % 4 == 0
    case _ => true
  }

  ghost predicate Accepts(cs: seq<Command>) {
    && Fed(cs) && Stacked(cs) == [] && StreamNames(cs) != []
    && forall k :: 0 <= k < |Items(cs)| ==> WellPlaced(Items(cs), k, Offset32 in cs)
  }

  // ----- What the blob holds -----

  /** The number that bytes denote in the given order. */
  function Unsigned(b: seq<Byte>, bigEndian: bool): (n: nat) {
    if b == [] then 0
    else if bigEndian then 256 * Unsigned(b[..|b| - 1], bigEndian) + b[|b| - 1]
    else b[0] + 256 * Unsigned(b[1..], bigEndian)
  }

  function Signed32(u: nat): int { if u < 0x8000_0000 then u else u - 0x1_0000_0000 }

  /** Item k as the bytes say it.  A reference holds the distance to the last definition of its label in units of four
      bytes, modulo 2^32. */
  ghost predicate Holds(items: seq<Command>, k: nat, blob: seq<Byte>, bigEndian: bool)
    requires k < |items|
  {
    var p, q := Position(items, k), Position(items, k + 1);
    && p <= q <= |blob|
    && match items[k]
       case Num8(v) => Unsigned(blob[p..q], bigEndian) == v % 0x100
       case Num16(v) => Unsigned(blob[p..q], bigEndian) == v % 0x1_0000
       case Num32(v) => Unsigned(blob[p..q], bigEndian) == v % 0x1_0000_0000
       case RefLabel(n) => exists d ::
         LastDef(items, n, d) && Unsigned(blob[p..q], bigEndian) == (Position(items, d) - p) / 4 % 0x1_0000_0000
       case AlignHere => forall j :: p <= j < q ==> blob[j] == 0
       case _ => true
  }

  /** The blob is what the program says. */
  ghost predicate Means(cs: seq<Command>, blob: seq<Byte>, bigEndian: bool) {
    var items := Items(cs);
    |blob| == Position(items, |items|) && forall k :: 0 <= k < |items| ==> Holds(items, k, blob, bigEndian)
  }

  lemma {:induction false} PositionGrows(items: seq<Command>, j: nat, k: nat)
    requires j <= k <= |items|
    ensures Position(items, j) <= Position(items, k)
    decreases k
  {
    if j < k { PositionGrows(items, j, k - 1); }
  }

  lemma OneLastDef(items: seq<Command>, n: Name, d: nat, e: nat)
    requires LastDef(items, n, d) && LastDef(items, n, e)
    ensures d == e
  {
  }

  lemma {:induction false} UnsignedIsUnique(a: seq<Byte>, b: seq<Byte>, bigEndian: bool)
    requires |a| == |b| && Unsigned(a, bigEndian) == Unsigned(b, bigEndian)
    ensures a == b
  {
    if a != [] {
      if bigEndian {
        UnsignedIsUnique(a[..|a| - 1], b[..|b| - 1], bigEndian);
        assert a == a[..|a| - 1] + [a[|a| - 1]] && b == b[..|b| - 1] + [b[|b| - 1]];
      } else {
        UnsignedIsUnique(a[1..], b[1..], bigEndian);
        assert a == [a[0]] + a[1..] && b == [b[0]] + b[1..];
      }
    }
  }

  /** One item's bytes are settled by what it says. */
  lemma SameBytes(items: seq<Command>, k: nat, a: seq<Byte>, b: seq<Byte>, bigEndian: bool)
    requires k < |items| && Holds(items, k, a, bigEndian) && Holds(items, k, b, bigEndian)
    ensures Position(items, k) <= Position(items, k + 1) <= |a| && Position(items, k + 1) <= |b|
    ensures a[Position(items, k)..Position(items, k + 1)] == b[Position(items, k)..Position(items, k + 1)]
  {
    var p, q := Position(items, k), Position(items, k + 1);
    if items[k].RefLabel? { SameDistance(items, k, a, b, bigEndian); }
    hide Position, LastDef, Unsigned;
    if !items[k].AlignHere? && p < q {
      UnsignedIsUnique(a[p..q], b[p..q], bigEndian);
    }
  }

  lemma SameDistance(items: seq<Command>, k: nat, a: seq<Byte>, b: seq<Byte>, bigEndian: bool)
    requires k < |items| && items[k].RefLabel? && Holds(items, k, a, bigEndian) && Holds(items, k, b, bigEndian)
    ensures var p, q := Position(items, k), Position(items, k + 1); Unsigned(a[p..q], bigEndian) == Unsigned(b[p..q], bigEndian)
  {
    hide Position, Unsigned;
    var n, p, q := items[k].name, Position(items, k), Position(items, k + 1);
    var d :| LastDef(items, n, d) && Unsigned(a[p..q], bigEndian) == (Position(items, d) - p) / 4 % 0x1_0000_0000;
    var e :| LastDef(items, n, e) && Unsigned(b[p..q], bigEndian) == (Position(items, e) - p) / 4 % 0x1_0000_0000;
    OneLastDef(items, n, d, e);
  }

  lemma {:induction false} SamePrefix(items: seq<Command>, k: nat, a: seq<Byte>, b: seq<Byte>, bigEndian: bool)
    requires k <= |items| && forall j :: 0 <= j < k ==> Holds(items, j, a, bigEndian) && Holds(items, j, b, bigEndian)
    ensures Position(items, k) <= |a| && Position(items, k) <= |b| && a[..Position(items, k)] == b[..Position(items, k)]
  {
    if k > 0 {
      SamePrefix(items, k - 1, a, b, bigEndian);
      SameBytes(items, k - 1, a, b, bigEndian);
      hide Holds, Position;
      var p, q := Position(items, k - 1), Position(items, k);
      assert a[..q] == a[..p] + a[p..q] && b[..q] == b[..p] + b[p..q];
    }
  }

  /** There is one blob only that is what the program says. */
  lemma MeaningIsUnique(cs: seq<Command>, a: seq<Byte>, b: seq<Byte>, bigEndian: bool)
    requires Means(cs, a, bigEndian) && Means(cs, b, bigEndian)
    ensures a == b
  {
    hide Holds, Position, Items;
    SamePrefix(Items(cs), |Items(cs)|, a, b, bigEndian);
    assert a[..|a|] == a && b[..|b|] == b;
  }

  // ----- Each command has its place -----

  lemma {:induction false} NamesGrow(cs: seq<Command>, i: nat)
    requires i <= |cs|
    ensures StreamNames(cs[..i]) <= StreamNames(cs)
  {
    if i < |cs| {
      var init := cs[..|cs| - 1];
      NamesGrow(init, i);
      assert init[..i] == cs[..i];
    } else {
      assert cs[..i] == cs;
    }
  }

  predicate Different(names: seq<Name>) { forall j, k :: 0 <= j < k < |names| ==> names[j] != names[k] }

  lemma OneMoreName(names: seq<Name>, n: Name)
    requires n !in names && Different(names)
    ensures Different(names + [n])
  {
    assert forall j :: 0 <= j < |names| ==> names[j] in names;
  }

  lemma {:induction false} NamesDiffer(cs: seq<Command>)
    ensures Different(StreamNames(cs))
  {
    if cs != [] {
      var names, c := StreamNames(cs[..|cs| - 1]), cs[|cs| - 1];
      NamesDiffer(cs[..|cs| - 1]);
      hide Different;
      if c.Push? && c.name !in names { OneMoreName(names, c.name); }
    }
  }

  lemma {:induction false} StackNamed(cs: seq<Command>)
    ensures forall k :: 0 <= k < |Stacked(cs)| ==> Stacked(cs)[k] in StreamNames(cs)
  {
    if cs != [] { StackNamed(cs[..|cs| - 1]); }
  }

  lemma {:induction false} StreamGrows(cs: seq<Command>, i: nat, n: Name)
    requires i <= |cs|
    ensures StreamOf(cs[..i], n) <= StreamOf(cs, n)
  {
    hide Left, OnTop;
    if i < |cs| {
      var init := cs[..|cs| - 1];
      StreamGrows(init, i, n);
      assert init[..i] == cs[..i];
    } else {
      assert cs[..i] == cs;
    }
  }

  lemma StreamStep(cs: seq<Command>, i: nat, n: Name)
    requires i < |cs|
    ensures StreamOf(cs[..i + 1], n) == StreamOf(cs[..i], n) + (if Writes(cs[i]) && OnTop(cs[..i], n) then [Left(cs[i])] else [])
  {
    hide Left, OnTop, Writes;
    assert cs[..i + 1][..i] == cs[..i];
  }

  /** Stream x lies in the chain behind the streams before it. */
  lemma {:induction false} ChainedHas(cs: seq<Command>, names: seq<Name>, x: nat)
    requires x < |names|
    ensures |Chained(cs, names[..x])| + |StreamOf(cs, names[x])| <= |Chained(cs, names)|
    ensures Chained(cs, names)[|Chained(cs, names[..x])|..|Chained(cs, names[..x])| + |StreamOf(cs, names[x])|] == StreamOf(cs, names[x])
  {
    hide StreamOf;
    var init := names[..|names| - 1];
    if x < |names| - 1 {
      ChainedHas(cs, init, x);
      assert init[..x] == names[..x];
    } else {
      assert init == names[..x];
    }
  }

  function Rank(names: seq<Name>, n: Name): (x: nat)
    requires n in names
    ensures x < |names| && names[x] == n
  {
    if names[0] == n then 0 else 1 + Rank(names[1..], n)
  }

  function Top(cs: seq<Command>): (n: Name)
    requires Stacked(cs) != []
    ensures OnTop(cs, n) && n in StreamNames(cs)
  {
    StackNamed(cs);
    Stacked(cs)[|Stacked(cs)| - 1]
  }

  /** The i-th command writes, and there is a stream to write to. */
  predicate WritesAt(cs: seq<Command>, i: nat) { i < |cs| && Writes(cs[i]) && Stacked(cs[..i]) != [] }

  /** Which item of the blob the i-th command is: behind the streams before its own and what was in its own. */
  function Place(cs: seq<Command>, i: nat): nat
    requires WritesAt(cs, i)
  {
    NamesGrow(cs, i);
    var n, names := Top(cs[..i]), StreamNames(cs);
    |Chained(cs, names[..Rank(names, n)])| + |StreamOf(cs[..i], n)|
  }

  lemma InItsStream(cs: seq<Command>, i: nat)
    requires WritesAt(cs, i)
    ensures var n := Top(cs[..i]); var m := |StreamOf(cs[..i], n)|;
      n in StreamNames(cs) && m < |StreamOf(cs, n)| && StreamOf(cs, n)[m] == Left(cs[i])
  {
    NamesGrow(cs, i);
    var n := Top(cs[..i]);
    StreamStep(cs, i, n);
    StreamGrows(cs, i + 1, n);
    hide Left, Writes, StreamNames, Stacked, OnTop, StreamOf;
    assert StreamOf(cs, n)[|StreamOf(cs[..i], n)|] == StreamOf(cs[..i + 1], n)[|StreamOf(cs[..i], n)|];
  }

  /** A command is found at its place, in the part of the blob before the strings. */
  lemma PlaceHolds(cs: seq<Command>, i: nat)
    requires WritesAt(cs, i)
    ensures Place(cs, i) < |Chained(cs, StreamNames(cs))| <= |Items(cs)| && Items(cs)[Place(cs, i)] == Left(cs[i])
  {
    hide Left, Writes, StreamNames, Chained, Stacked, OnTop, StreamOf, Strings, Rank, Top, Place;
    InItsStream(cs, i);
    PlaceIs(cs, i);
    var n, names := Top(cs[..i]), StreamNames(cs);
    ChainedHas(cs, names, Rank(names, n));
    PartAt(Chained(cs, names), |Chained(cs, names[..Rank(names, n)])|, StreamOf(cs, n), |StreamOf(cs[..i], n)|);
  }

  lemma PlaceIs(cs: seq<Command>, i: nat)
    requires WritesAt(cs, i)
    ensures Top(cs[..i]) in StreamNames(cs)
    ensures var n, names := Top(cs[..i]), StreamNames(cs);
      Place(cs, i) == |Chained(cs, names[..Rank(names, n)])| + |StreamOf(cs[..i], n)|
  {
    NamesGrow(cs, i);
  }

  lemma PartAt<T>(a: seq<T>, first: nat, part: seq<T>, m: nat)
    requires first + |part| <= |a| && a[first..first + |part|] == part && m < |part|
    ensures a[first + m] == part[m]
  {
  }

  lemma ChainedApart(cs: seq<Command>, names: seq<Name>, x: nat, y: nat)
    requires x < y < |names|
    ensures |Chained(cs, names[..x])| + |StreamOf(cs, names[x])| <= |Chained(cs, names[..y])|
  {
    ChainedHas(cs, names[..y], x);
    assert names[..y][..x] == names[..x];
  }

  /** Different commands have different places. */
  lemma PlacesApart(cs: seq<Command>, i: nat, j: nat)
    requires WritesAt(cs, i) && WritesAt(cs, j) && i < j
    ensures Place(cs, i) != Place(cs, j)
  {
    InItsStream(cs, i);
    InItsStream(cs, j);
    var names, m, n := StreamNames(cs), Top(cs[..i]), Top(cs[..j]);
    var x, y := Rank(names, m), Rank(names, n);
    if m == n {
      StreamLonger(cs, i, j, m);
    }
    hide Left, StreamNames, Chained, StreamOf, Rank, Top, OnTop, Stacked;
    if x < y {
      ChainedApart(cs, names, x, y);
    } else if y < x {
      ChainedApart(cs, names, y, x);
    }
  }

  lemma StreamLonger(cs: seq<Command>, i: nat, j: nat, n: Name)
    requires i < j <= |cs| && Writes(cs[i]) && OnTop(cs[..i], n)
    ensures |StreamOf(cs[..i], n)| < |StreamOf(cs[..j], n)|
  {
    StreamStep(cs, i, n);
    StreamGrows(cs[..j], i + 1, n);
    assert cs[..j][..i + 1] == cs[..i + 1];
  }

  lemma {:induction false} StreamHas(cs: seq<Command>, n: Name, m: nat) returns (i: nat)
    requires m < |StreamOf(cs, n)|
    ensures WritesAt(cs, i) && Top(cs[..i]) == n && |StreamOf(cs[..i], n)| == m
  {
    var init := cs[..|cs| - 1];
    if m < |StreamOf(init, n)| {
      i := StreamHas(init, n, m);
      assert init[..i] == cs[..i];
    } else {
      i := |cs| - 1;
    }
  }

  lemma {:induction false} ChainedSplit(cs: seq<Command>, names: seq<Name>, k: nat) returns (x: nat, m: nat)
    requires k < |Chained(cs, names)|
    ensures x < |names| && m < |StreamOf(cs, names[x])| && k == |Chained(cs, names[..x])| + m
  {
    var init := names[..|names| - 1];
    if k < |Chained(cs, init)| {
      x, m := ChainedSplit(cs, init, k);
      assert init[..x] == names[..x];
    } else {
      x, m := |names| - 1, k - |Chained(cs, init)|;
    }
  }

  /** Everything before the strings is some command's. */
  lemma PlaceTaken(cs: seq<Command>, k: nat) returns (i: nat)
    requires k < |Chained(cs, StreamNames(cs))|
    ensures WritesAt(cs, i) && Place(cs, i) == k
  {
    var names := StreamNames(cs);
    var x, m := ChainedSplit(cs, names, k);
    i := StreamHas(cs, names[x], m);
    NamesGrow(cs, i);
    NamesDiffer(cs);
    hide StreamNames, Chained, StreamOf, Stacked;
    assert Rank(names, names[x]) == x;
  }

  // ----- Strings -----

  /** At k stands the label of a stored string: an align before, the string itself behind. */
  predicate StoredAt(items: seq<Command>, k: nat, s: Name) {
    && 0 < k && k + 1 + |Spelled(s)| <= |items| && items[k - 1] == AlignHere && items[k] == DefLabel(STR + s)
    && items[k + 1..k + 1 + |Spelled(s)|] == Spelled(s)
  }

  lemma StoredInside(a: seq<Command>, items: seq<Command>, b: seq<Command>, k: nat, s: Name)
    requires StoredAt(items, k, s)
    ensures StoredAt(a + items + b, |a| + k, s)
  {
    hide Spelled;
    var all := a + items + b;
    assert all[|a| + k + 1..|a| + k + 1 + |Spelled(s)|] == items[k + 1..k + 1 + |Spelled(s)|];
  }

  lemma OneString(s: Name)
    ensures StoredAt(Stored(s), 1, s) && |Stored(s)| == |Spelled(s)| + 2 && Stored(s)[0] == AlignHere
    ensures forall k :: 2 <= k < |Stored(s)| ==> Stored(s)[k].Num8?
  {
  }

  /** Labels behind the streams are those of stored strings. */
  lemma {:induction false} StringLabel(cs: seq<Command>, k: nat, n: Name) returns (s: Name)
    requires k < |Strings(cs)| && Strings(cs)[k] == DefLabel(n)
    ensures n == STR + s && StoredAt(Strings(cs), k, s)
  {
    hide StoredAt;
    var init, c := Strings(cs[..|cs| - 1]), cs[|cs| - 1];
    if k < |init| {
      s := StringLabel(cs[..|cs| - 1], k, n);
      var more := if c.Str? then Stored(c.s) else [];
      StoredInside([], init, more, k, s);
      assert [] + init + more == Strings(cs);
    } else {
      s := c.s;
      OneString(s);
      assert k == |init| + 1;
      StoredInside(init, Stored(s), [], 1, s);
      assert init + Stored(s) + [] == Strings(cs);
    }
  }

  lemma {:induction false} StringStored(cs: seq<Command>, s: Name) returns (k: nat)
    requires Str(s) in cs
    ensures k < |Strings(cs)| && Strings(cs)[k] == DefLabel(STR + s)
  {
    var init := cs[..|cs| - 1];
    if cs[|cs| - 1] == Str(s) {
      k := |Strings(init)| + 1;
    } else {
      k := StringStored(init, s);
    }
  }

  /** The last definition of a string's label is a stored copy of the string, even where a label command defines it. */
  lemma StringDefinition(cs: seq<Command>, s: Name, d: nat)
    requires Str(s) in cs && LastDef(Items(cs), STR + s, d)
    ensures StoredAt(Items(cs), d, s)
  {
    var user, strings := Chained(cs, StreamNames(cs)), Strings(cs);
    var k := StringStored(cs, s);
    hide Strings, Chained, StreamNames, StoredAt;
    assert Items(cs)[|user| + k] == DefLabel(STR + s);
    var t := StringLabel(cs, d - |user|, STR + s);
    assert t == (STR + t)[4..] == (STR + s)[4..] == s;
    StoredInside(user, strings, [], d - |user|, s);
    assert user + strings + [] == Items(cs);
  }

  lemma {:induction false} LastOf(items: seq<Command>, n: Name, k: nat) returns (d: nat)
    requires k < |items| && items[k] == DefLabel(n)
    ensures LastDef(items, n, d) && d >= k
    decreases |items| - k
  {
    if j :| k < j < |items| && items[j] == DefLabel(n) {
      d := LastOf(items, n, j);
    } else {
      d := k;
    }
  }

  // ----- What each command's bytes are -----

  /** The number of a command, in as many bytes as it has. */
  lemma NumberCommand(cs: seq<Command>, i: nat, blob: seq<Byte>, bigEndian: bool)
    requires Means(cs, blob, bigEndian) && WritesAt(cs, i) && (cs[i].Num8? || cs[i].Num16? || cs[i].Num32?)
    ensures Place(cs, i) < |Items(cs)|
    ensures var p := Position(Items(cs), Place(cs, i));
      match cs[i]
      case Num8(v) => p + 1 <= |blob| && Unsigned(blob[p..p + 1], bigEndian) == v % 0x100
      case Num16(v) => p + 2 <= |blob| && Unsigned(blob[p..p + 2], bigEndian) == v % 0x1_0000
      case Num32(v) => p + 4 <= |blob| && Unsigned(blob[p..p + 4], bigEndian) == v % 0x1_0000_0000
  {
    PlaceHolds(cs, i);
    hide Items, Place, Unsigned;
    assert Holds(Items(cs), Place(cs, i), blob, bigEndian);
  }

  /** The four bytes at p, read as a signed number, times four, plus p, give the target, exactly when the distance
      fits 32 signed bits. */
  predicate Leads(blob: seq<Byte>, p: nat, target: nat, bigEndian: bool) {
    && p + 4 <= |blob|
    && (Signed32(Unsigned(blob[p..p + 4], bigEndian)) * 4 + p == target <==> -0x8000_0000 <= (target - p) / 4 < 0x8000_0000)
  }

  lemma LeadsWhen(blob: seq<Byte>, p: nat, target: nat, bigEndian: bool)
    requires p + 4 <= |blob| && p % 4 == 0 && target % 4 == 0
    requires Unsigned(blob[p..p + 4], bigEndian) == (target - p) / 4 % 0x1_0000_0000
    ensures Leads(blob, p, target, bigEndian)
  {
    hide Unsigned;
    var x, u := (target - p) / 4, Unsigned(blob[p..p + 4], bigEndian);
    SignedBack(x);
    assert 4 * x + p == target;
    assert Signed32(u) * 4 + p == target <==> Signed32(u) == x;
  }

  lemma SignedBack(x: int)
    ensures Signed32(x % 0x1_0000_0000) == x <==> -0x8000_0000 <= x < 0x8000_0000
  {
  }

  /** A reference of an accepted program leads to the last definition of its label. */
  lemma Reference(cs: seq<Command>, k: nat, blob: seq<Byte>, bigEndian: bool) returns (d: nat)
    requires Accepts(cs) && Means(cs, blob, bigEndian) && k < |Items(cs)| && Items(cs)[k].RefLabel?
    ensures LastDef(Items(cs), Items(cs)[k].name, d) && Items(cs)[d] == DefLabel(Items(cs)[k].name)
    ensures Leads(blob, Position(Items(cs), k), Position(Items(cs), d), bigEndian)
  {
    hide Items, Fed, Position, Leads;
    var items := Items(cs);
    assert WellPlaced(items, k, Offset32 in cs) && Holds(items, k, blob, bigEndian);
    d := DistanceTo(items, k, Offset32 in cs, blob, bigEndian);
  }

  lemma DistanceTo(items: seq<Command>, k: nat, offset32: bool, blob: seq<Byte>, bigEndian: bool) returns (d: nat)
    requires k < |items| && items[k].RefLabel? && WellPlaced(items, k, offset32) && Holds(items, k, blob, bigEndian)
    ensures LastDef(items, items[k].name, d) && items[d] == DefLabel(items[k].name)
    ensures Leads(blob, Position(items, k), Position(items, d), bigEndian)
  {
    var n, p, q := items[k].name, Position(items, k), Position(items, k + 1);
    assert q == p + 4;
    hide Unsigned, Position, Leads;
    d :| LastDef(items, n, d) && Unsigned(blob[p..q], bigEndian) == (Position(items, d) - p) / 4 % 0x1_0000_0000;
    var e :| LastDef(items, n, e) && Position(items, e) % 4 == 0;
    OneLastDef(items, n, d, e);
    LeadsWhen(blob, p, Position(items, d), bigEndian);
  }

  /** A ref command leads to what the last label command of that name left, or to a stored string of that name. */
  lemma RefCommand(cs: seq<Command>, i: nat, blob: seq<Byte>, bigEndian: bool) returns (d: nat)
    requires Accepts(cs) && Means(cs, blob, bigEndian) && i < |cs| && cs[i].RefLabel?
    ensures WritesAt(cs, i) && Place(cs, i) < |Items(cs)| && LastDef(Items(cs), cs[i].name, d)
    ensures Leads(blob, Position(Items(cs), Place(cs, i)), Position(Items(cs), d), bigEndian)
    ensures (exists j: nat :: WritesAt(cs, j) && cs[j] == DefLabel(cs[i].name) && Place(cs, j) == d)
         || (exists s :: cs[i].name == STR + s && StoredAt(Items(cs), d, s))
  {
    assert Fed(cs);
    PlaceHolds(cs, i);
    d := Reference(cs, Place(cs, i), blob, bigEndian);
    hide Accepts, Means, Leads, Position, Place, StoredAt, Items, LastDef;
    DefinitionOf(cs, cs[i].name, d);
  }

  /** A definition is what a label command left, or the label of a stored string. */
  lemma DefinitionOf(cs: seq<Command>, n: Name, d: nat)
    requires d < |Items(cs)| && Items(cs)[d] == DefLabel(n)
    ensures (exists j: nat :: WritesAt(cs, j) && cs[j] == DefLabel(n) && Place(cs, j) == d)
         || (exists s :: n == STR + s && StoredAt(Items(cs), d, s))
  {
    var user, strings := Chained(cs, StreamNames(cs)), Strings(cs);
    hide Place, StoredAt, Chained, StreamNames, Strings;
    if d < |user| {
      var j := PlaceTaken(cs, d);
      PlaceHolds(cs, j);
    } else {
      var s := StringLabel(cs, d - |user|, n);
      StoredInside(user, strings, [], d - |user|, s);
      assert user + strings + [] == Items(cs);
    }
  }

  /** The blob holds exactly the bytes of s and a closing 0 at q, and q is 4-aligned. */
  predicate HoldsString(blob: seq<Byte>, q: nat, s: Name) {
    && q % 4 == 0 && q + |s| + 1 <= |blob| && blob[q + |s|] == 0
    && forall i :: 0 <= i < |s| ==> blob[q + i] == s[i]
  }

  lemma {:induction false} SpelledPosition(items: seq<Command>, d: nat, s: Name, i: nat)
    requires StoredAt(items, d, s) && i <= |s| + 1
    ensures d + 1 + i <= |items| && Position(items, d + 1 + i) == Position(items, d) + i
    ensures i <= |s| ==> items[d + 1 + i] == Spelled(s)[i]
  {
    if i <= |s| {
      assert items[d + 1 + i] == items[d + 1..d + 1 + |Spelled(s)|][i];
    }
    if i > 0 {
      SpelledPosition(items, d, s, i - 1);
    }
  }

  lemma SpelledByte(cs: seq<Command>, d: nat, s: Name, i: nat, blob: seq<Byte>, bigEndian: bool)
    requires Means(cs, blob, bigEndian) && StoredAt(Items(cs), d, s) && i <= |s|
    ensures Position(Items(cs), d) + i < |blob|
    ensures blob[Position(Items(cs), d) + i] == if i < |s| then s[i] else 0
  {
    hide Items, StoredAt, Position, Holds, Spelled;
    var items := Items(cs);
    SpelledPosition(items, d, s, i);
    SpelledPosition(items, d, s, i + 1);
    assert Spelled(s)[i] == Num8(if i < |s| then s[i] else 0) by { SpelledIs(s, i); }
    HeldByte(items, d + 1 + i, blob, bigEndian);
  }

  lemma SpelledIs(s: Name, i: nat)
    requires i <= |s|
    ensures Spelled(s)[i] == Num8(if i < |s| then s[i] else 0)
  {
  }

  lemma HeldByte(items: seq<Command>, k: nat, blob: seq<Byte>, bigEndian: bool)
    requires k < |items| && items[k].Num8? && 0 <= items[k].v < 256 && Holds(items, k, blob, bigEndian)
    requires Position(items, k + 1) == Position(items, k) + 1
    ensures Position(items, k) < |blob| && blob[Position(items, k)] == items[k].v
  {
    hide Position, Unsigned;
    OneByte(blob[Position(items, k)..Position(items, k) + 1], bigEndian);
  }

  lemma OneByte(b: seq<Byte>, bigEndian: bool)
    requires |b| == 1
    ensures Unsigned(b, bigEndian) == b[0]
  {
    assert b[..0] == [] && b[1..] == [];
  }

  lemma StoredIsHeld(cs: seq<Command>, d: nat, s: Name, blob: seq<Byte>, bigEndian: bool)
    requires Means(cs, blob, bigEndian) && StoredAt(Items(cs), d, s)
    ensures HoldsString(blob, Position(Items(cs), d), s)
  {
    var q := Position(Items(cs), d);
    AfterAlign(Items(cs), d);
    hide Items, Means, StoredAt, Position;
    forall i | 0 <= i <= |s| ensures q + i < |blob| && blob[q + i] == if i < |s| then s[i] else 0 {
      SpelledByte(cs, d, s, i, blob, bigEndian);
    }
    SpelledByte(cs, d, s, |s|, blob, bigEndian);
  }

  lemma AfterAlign(items: seq<Command>, d: nat)
    requires 0 < d < |items| && items[d - 1] == AlignHere
    ensures Position(items, d) % 4 == 0
  {
  }

  /** Every str command leads to its string, 4-aligned and with its closing 0, however often it occurs. */
  lemma StrCommand(cs: seq<Command>, i: nat, blob: seq<Byte>, bigEndian: bool) returns (d: nat)
    requires Accepts(cs) && Means(cs, blob, bigEndian) && i < |cs| && cs[i].Str?
    ensures WritesAt(cs, i) && Place(cs, i) < |Items(cs)| && LastDef(Items(cs), STR + cs[i].s, d)
    ensures Leads(blob, Position(Items(cs), Place(cs, i)), Position(Items(cs), d), bigEndian)
    ensures HoldsString(blob, Position(Items(cs), d), cs[i].s)
  {
    assert Fed(cs);
    PlaceHolds(cs, i);
    d := Reference(cs, Place(cs, i), blob, bigEndian);
    hide Accepts, Means, Leads, Position, Place, StoredAt, Items, HoldsString;
    StringDefinition(cs, cs[i].s, d);
    StoredIsHeld(cs, d, cs[i].s, blob, bigEndian);
  }

  /** A stream with a label and a reference to it. */
  function Smallest(s: Name, x: Name): seq<Command> {
    var none: seq<Command> := [];
    none + [Push(s)] + [DefLabel(x)] + [RefLabel(x)] + [Pop]
  }

  /** The smallest program with a reference is accepted, whatever its names. */
  lemma SmallestProgram(s: Name, x: Name)
    ensures Accepts(Smallest(s, x)) && Items(Smallest(s, x)) == [DefLabel(x), RefLabel(x)]
  {
    StepsOf(s, x);
    OneStream(Smallest(s, x), s);
    TwoItems(x);
    hide Stacked, StreamNames, StreamOf, Strings, Fed, Position, LastDef, Smallest;
    assert Items(Smallest(s, x)) == [DefLabel(x), RefLabel(x)];
    hide Items;
  }

  lemma OneStream(cs: seq<Command>, s: Name)
    ensures Chained(cs, [s]) == StreamOf(cs, s)
  {
    hide StreamOf;
    assert [s][..0] == [];
  }

  lemma TwoItems(x: Name)
    ensures var items := [DefLabel(x), RefLabel(x)];
      Position(items, 0) == 0 && Position(items, 1) == 0 && LastDef(items, x, 0)
  {
  }

  /** So far there is one stream s with these items, and nothing else. */
  predicate OneOpen(cs: seq<Command>, s: Name, stack: seq<Name>, items: seq<Command>) {
    && Fed(cs) && Stacked(cs) == stack && StreamNames(cs) == [s] && Strings(cs) == []
    && StreamOf(cs, s) == items && Offset32 !in cs
  }

  lemma JustOpened(s: Name)
    ensures OneOpen([] + [Push(s)], s, [s], [])
  {
    var none: seq<Command> := [];
    More(none, Push(s));
    FedMore(none, Push(s));
    StreamMore(none, Push(s), s);
  }

  lemma WrittenTo(cs: seq<Command>, c: Command, s: Name, items: seq<Command>)
    requires OneOpen(cs, s, [s], items) && (c.DefLabel? || c.RefLabel?)
    ensures OneOpen(cs + [c], s, [s], items + [c])
  {
    More(cs, c);
    FedMore(cs, c);
    StreamMore(cs, c, s);
    hide Stacked, StreamNames, Strings, StreamOf, Fed;
  }

  lemma Closed(cs: seq<Command>, s: Name, items: seq<Command>)
    requires OneOpen(cs, s, [s], items)
    ensures OneOpen(cs + [Pop], s, [], items)
  {
    More(cs, Pop);
    FedMore(cs, Pop);
    StreamMore(cs, Pop, s);
    hide Stacked, StreamNames, Strings, StreamOf, Fed;
  }

  lemma StepsOf(s: Name, x: Name)
    ensures OneOpen(Smallest(s, x), s, [], [DefLabel(x), RefLabel(x)])
  {
    hide OneOpen;
    var none: seq<Command> := [];
    var first := none + [Push(s)];
    JustOpened(s);
    WrittenTo(first, DefLabel(x), s, []);
    WrittenTo(first + [DefLabel(x)], RefLabel(x), s, [] + [DefLabel(x)]);
    Closed(first + [DefLabel(x)] + [RefLabel(x)], s, [] + [DefLabel(x)] + [RefLabel(x)]);
    assert [] + [DefLabel(x)] + [RefLabel(x)] == [DefLabel(x), RefLabel(x)];
  }
}
