/** Renaming the tiles of the ECP5 parts without SERDES (fix_tile_names in ecp5/bitstream.cc). */
module TileNames {
  import opened Basics
  import opened Config

  // ----- Names -----

  /** "CIB_DCU" starts at index i. */
  predicate OccursAt(s: string, i: nat) {
    i + 7 <= |s| && s[i] == 'C' && s[i + 1] == 'I' && s[i + 2] == 'B' && s[i + 3] == '_'
    && s[i + 4] == 'D' && s[i + 5] == 'C' && s[i + 6] == 'U'
  }

  /** The first occurrence from index i on. */
  function FindFrom(s: string, i: nat): (f: Option<nat>)
    requires i <= |s|
    ensures f.Some? ==> i <= f.value && OccursAt(s, f.value)
    ensures forall j: nat :: i <= j && (f.Some? ==> j < f.value) ==> !OccursAt(s, j)
    decreases |s| - i
  {
    if OccursAt(s, i) then Some(i) else if i == |s| then None else FindFrom(s, i + 1)
  }

  predicate EndsWith(s: string, suffix: string) { |s| >= |suffix| && s[|s| - |suffix|..] == suffix }

  /** Asking for the character before an occurrence at the very start throws. */
  predicate Throws(s: string) { FindFrom(s, 0) == Some(0) }

  /** The name on the parts without SERDES. */
  function Renamed(s: string): string
    requires !Throws(s)
  {
    var f := FindFrom(s, 0);
    if f.Some? then if s[f.value - 1] != 'V' then s[..f.value] + "V" + s[f.value..] else s
    else if EndsWith(s, "BMID_0H") then s[..|s| - 1] + "V"
    else if EndsWith(s, "BMID_2") then s + "V"
    else s
  }

  predicate IsSource(s: string) { !Throws(s) && Renamed(s) != s }

  /** What stands at an occurrence. */
  lemma OccursIs(s: string, i: nat)
    ensures OccursAt(s, i) <==> i + 7 <= |s| && s[i..i + 7] == "CIB_DCU"
  {
    if i + 7 <= |s| {
      var t := s[i..i + 7];
      assert t[0] == s[i] && t[1] == s[i + 1] && t[2] == s[i + 2] && t[3] == s[i + 3] && t[4] == s[i + 4] && t[5] == s[i + 5] && t[6] == s[i + 6];
    }
  }

  /** Before the first "CIB_DCU" a V is put in unless there is one; a name that starts with it throws. */
  lemma CibName(p: string, q: string)
    requires forall j: nat :: j < |p| ==> !OccursAt(p + "CIB_DCU" + q, j)
    ensures var s := p + "CIB_DCU" + q;
      if p == "" then Throws(s)
      else !Throws(s) && Renamed(s) == if p[|p| - 1] == 'V' then s else p + "VCIB_DCU" + q
  {
    var s := p + "CIB_DCU" + q;
    assert s[|p|..|p| + 7] == "CIB_DCU";
    OccursIs(s, |p|);
    FoundAt(s, |p|);
    if p != "" && p[|p| - 1] != 'V' {
      assert s[..|p|] == p && s[|p|..] == "CIB_DCU" + q;
      assert p + "V" + ("CIB_DCU" + q) == p + "VCIB_DCU" + q;
    }
  }

  /** In a name without "CIB_DCU" a final BMID_0H becomes BMID_0V, a final BMID_2 becomes BMID_2V. */
  lemma SuffixNames(p: string)
    ensures var s := p + "BMID_0H"; (forall j: nat :: !OccursAt(s, j)) ==> !Throws(s) && Renamed(s) == p + "BMID_0V"
    ensures var s := p + "BMID_2"; (forall j: nat :: !OccursAt(s, j)) ==> !Throws(s) && Renamed(s) == p + "BMID_2V"
  {
    var s, t := p + "BMID_0H", p + "BMID_2";
    if forall j: nat :: !OccursAt(s, j) { NotFound(s); }
    if forall j: nat :: !OccursAt(t, j) { NotFound(t); }
    assert s[|s| - 7..] == "BMID_0H" && s[..|s| - 1] + "V" == p + "BMID_0V";
    assert t[|t| - 6..] == "BMID_2" && t + "V" == p + "BMID_2V";
    assert t[|t| - 1] == '2' && "BMID_0H"[6] == 'H';
    assert |t| >= 7 ==> t[|t| - 7..][6] == '2';
  }

  lemma EndIs(s: string, suffix: string)
    ensures EndsWith(s, suffix) <==> exists p :: s == p + suffix
  {
    if EndsWith(s, suffix) { assert s == s[..|s| - |suffix|] + suffix; }
  }

  /** All other names stay. */
  lemma OtherNames(s: string)
    requires forall j: nat :: !OccursAt(s, j)
    requires forall p: string :: s != p + "BMID_0H" && s != p + "BMID_2"
    ensures !Throws(s) && Renamed(s) == s
  {
    NotFound(s);
    EndIs(s, "BMID_0H");
    EndIs(s, "BMID_2");
  }

  /** Where the first occurrence is, is decided by where an occurrence is and where none is. */
  lemma FoundAt(s: string, p: nat)
    requires OccursAt(s, p) && forall j: nat :: j < p ==> !OccursAt(s, j)
    ensures FindFrom(s, 0) == Some(p)
  {
  }

  lemma NotFound(s: string)
    requires forall j: nat :: !OccursAt(s, j)
    ensures FindFrom(s, 0) == None
  {
  }

  lemma InsertedMovesOne(s: string, p: nat, j: nat)
    requires p <= |s| && j <= p + 1
    ensures OccursAt(s[..p] + "V" + s[p..], j) <==> (j + 7 <= p && OccursAt(s, j)) || (j == p + 1 && OccursAt(s, p))
  {
    var t := s[..p] + "V" + s[p..];
    assert |t| == |s| + 1 && t[p] == 'V';
    assert forall i :: 0 <= i < p ==> t[i] == s[i];
    assert forall i :: p < i < |t| ==> t[i] == s[i - 1];
  }

  /** A renamed tile is not renamed again. */
  lemma TargetStays(s: string)
    requires IsSource(s)
    ensures !Throws(Renamed(s)) && !IsSource(Renamed(s))
  {
    var f, t := FindFrom(s, 0), Renamed(s);
    if f.Some? {
      forall j: nat | j < f.value + 1 ensures !OccursAt(t, j) { InsertedMovesOne(s, f.value, j); }
      InsertedMovesOne(s, f.value, f.value + 1);
      FoundAt(t, f.value + 1);
      assert t[f.value] == 'V';
    } else {
      SuffixStays(s);
    }
  }

  lemma SuffixStays(s: string)
    requires FindFrom(s, 0) == None && (EndsWith(s, "BMID_0H") || EndsWith(s, "BMID_2"))
    ensures FindFrom(Renamed(s), 0) == None && Renamed(s)[|Renamed(s)| - 1] == 'V' && Renamed(Renamed(s)) == Renamed(s)
  {
    var t := Renamed(s);
    assert EndsWith(s, "BMID_0H") ==> s[|s| - 1] == 'H';
    assert t[|t| - 1] == 'V' && forall i :: 0 <= i < |t| - 1 ==> t[i] == s[i];
    forall j: nat ensures !OccursAt(t, j) { assert !OccursAt(s, j); }
    NotFound(t);
    assert !EndsWith(t, "BMID_0H") && !EndsWith(t, "BMID_2");
  }

  /** Different tiles are renamed to different tiles. */
  lemma RenameInjective(s: string, t: string)
    requires IsSource(s) && IsSource(t) && Renamed(s) == Renamed(t)
    ensures s == t
  {
    var f, g, u := FindFrom(s, 0), FindFrom(t, 0), Renamed(s);
    if f.Some? {
      UnrenameCib(s);
      if g.Some? {
        UnrenameCib(t);
      } else {
        SuffixStays(t);
      }
    } else {
      SuffixStays(s);
      if g.Some? { UnrenameCib(t); } else { UnrenameSuffix(s, t); }
    }
  }

  lemma UnrenameCib(s: string)
    requires IsSource(s) && FindFrom(s, 0).Some?
    ensures var p := FindFrom(s, 0).value; FindFrom(Renamed(s), 0) == Some(p + 1) && s == Renamed(s)[..p] + Renamed(s)[p + 1..]
  {
    var p, t := FindFrom(s, 0).value, Renamed(s);
    forall j: nat | j < p + 1 ensures !OccursAt(t, j) { InsertedMovesOne(s, p, j); }
    InsertedMovesOne(s, p, p + 1);
    FoundAt(t, p + 1);
  }

  /** The character before the V tells which suffix it was. */
  lemma BeforeV(s: string)
    requires IsSource(s) && FindFrom(s, 0) == None
    ensures |Renamed(s)| >= 2
    ensures if EndsWith(s, "BMID_0H") then Renamed(s)[|Renamed(s)| - 2] == '0' else EndsWith(s, "BMID_2") && Renamed(s)[|Renamed(s)| - 2] == '2'
  {
    assert EndsWith(s, "BMID_0H") ==> s[|s| - 2] == s[|s| - 7..][5] == '0';
    assert EndsWith(s, "BMID_2") ==> s[|s| - 1] == s[|s| - 6..][5] == '2';
  }

  lemma UnrenameSuffix(s: string, t: string)
    requires IsSource(s) && IsSource(t) && FindFrom(s, 0) == None == FindFrom(t, 0) && Renamed(s) == Renamed(t)
    ensures s == t
  {
    var u := Renamed(s);
    BeforeV(s);
    BeforeV(t);
    if EndsWith(s, "BMID_0H") && EndsWith(t, "BMID_0H") {
      assert s == u[..|u| - 1] + "H" && t == u[..|u| - 1] + "H";
    } else if EndsWith(s, "BMID_2") && EndsWith(t, "BMID_2") {
      assert s == u[..|u| - 1] && t == u[..|u| - 1];
    }
  }

  // ----- Moving the configuration -----

  type Tiles = map<string, TileConfig>

  function Own(tiles: Tiles, n: string): TileConfig { if n in tiles then tiles[n] else EMPTY_TILE }

  /** Nothing throws: "CIB_DCU" is never at the very start. */
  ghost predicate NamesLegal(tiles: Tiles) { forall n :: n in tiles ==> !Throws(n) }

  /** The sources in `done` have moved from `before`; everything else is as it was. */
  ghost predicate MovedFrom(before: Tiles, after: Tiles, done: set<string>) {
    Gone(before, after, done) && Arrived(before, after, done) && Untouched(before, after, done)
  }

  ghost predicate Gone(before: Tiles, after: Tiles, done: set<string>) {
    forall m :: m in done ==> m in before && IsSource(m) && m !in after
  }

  ghost predicate Arrived(before: Tiles, after: Tiles, done: set<string>)
    requires Gone(before, after, done)
  {
    forall m :: m in done ==> Received(before, after, m)
  }

  ghost predicate Untouched(before: Tiles, after: Tiles, done: set<string>) {
    forall n :: n !in done && !Target(done, n) ==> Same(before, after, n)
  }

  predicate Same(before: Tiles, after: Tiles, n: string) { (n in after <==> n in before) && (n in before ==> after[n] == before[n]) }

  ghost predicate Target(sources: set<string>, n: string) { exists m :: m in sources && IsSource(m) && Renamed(m) == n }

  /** The renamed tile of m holds its own items, if any, followed by those of m. */
  predicate Received(before: Tiles, after: Tiles, m: string)
    requires m in before && IsSource(m)
  {
    var n := Renamed(m);
    if before[m].Empty() then Same(before, after, n)
    else
      var own, moved := Own(before, n), before[m];
      n in after && after[n] == TileConfig(own.carcs + moved.carcs, own.cwords + moved.cwords,
                                           own.cenums + moved.cenums, own.cunknowns + moved.cunknowns)
  }

  /** Every source tile has moved. */
  ghost predicate Fixed(before: Tiles, after: Tiles) {
    NamesLegal(before) && MovedFrom(before, after, set m | m in before && IsSource(m))
  }

  /** One more tile moved. */
  function MoveTile(tiles: Tiles, m: string): Tiles
    requires m in tiles && IsSource(m)
  {
    (if tiles[m].Empty() then tiles else tiles[Renamed(m) := Own(tiles, Renamed(m)).Join(tiles[m])]) - {m}
  }

  lemma MoveTouches(tiles: Tiles, m: string)
    requires m in tiles && IsSource(m)
    ensures m !in MoveTile(tiles, m)
    ensures forall k :: k != m && k != Renamed(m) ==> Same(tiles, MoveTile(tiles, m), k)
    ensures Received(tiles, MoveTile(tiles, m), m)
  {
    TargetStays(m);
    hide Renamed, Throws;
  }

  /** No tile that moved so far went where m goes. */
  lemma TargetIsNew(done: set<string>, m: string)
    requires IsSource(m) && m !in done
    ensures !Target(done, Renamed(m)) && !IsSource(Renamed(m))
    ensures forall k :: k in done && IsSource(k) ==> Renamed(k) != Renamed(m) && Renamed(k) != m
  {
    TargetStays(m);
    forall k | k in done && IsSource(k) ensures Renamed(k) != Renamed(m) && Renamed(k) != m {
      if Renamed(k) == Renamed(m) { RenameInjective(k, m); }
      TargetStays(k);
    }
  }

  lemma TargetGrows(done: set<string>, m: string, k: string)
    requires IsSource(m)
    ensures Target(done + {m}, k) <==> Target(done, k) || k == Renamed(m)
  {
    if Target(done + {m}, k) {
      var l :| l in done + {m} && IsSource(l) && Renamed(l) == k;
    } else {
      assert m in done + {m};
      forall l | l in done && IsSource(l) ensures Renamed(l) != k { assert l in done + {m}; }
    }
  }

  lemma UntouchedStep(before: Tiles, cur: Tiles, after: Tiles, done: set<string>, m: string)
    requires Untouched(before, cur, done) && IsSource(m)
    requires forall k :: k != m && k != Renamed(m) ==> Same(cur, after, k)
    ensures Untouched(before, after, done + {m})
  {
    hide IsSource, Renamed, Throws, Target;
    forall k | k !in done + {m} && !Target(done + {m}, k) ensures Same(before, after, k) {
      TargetGrows(done, m, k);
      assert Same(before, cur, k) && Same(cur, after, k);
    }
  }

  lemma GoneStep(before: Tiles, cur: Tiles, after: Tiles, done: set<string>, m: string)
    requires Gone(before, cur, done) && m in before && IsSource(m) && m !in after
    requires forall k :: k in done ==> Same(cur, after, k)
    ensures Gone(before, after, done + {m})
  {
    hide IsSource;
  }

  lemma ArrivedStep(before: Tiles, cur: Tiles, after: Tiles, done: set<string>, m: string)
    requires Gone(before, cur, done) && Arrived(before, cur, done) && Gone(before, after, done + {m})
    requires Received(before, after, m)
    requires forall k :: k in done ==> Same(cur, after, Renamed(k))
    ensures Arrived(before, after, done + {m})
  {
    hide IsSource, Renamed, Received;
    forall k | k in done + {m} ensures Received(before, after, k) {
      if k in done {
        assert Received(before, cur, k);
        ReceivedStays(before, cur, after, k);
      }
    }
  }

  lemma ReceivedFrom(before: Tiles, cur: Tiles, after: Tiles, m: string)
    requires m in before && m in cur && IsSource(m) && Received(cur, after, m)
    requires Same(before, cur, m) && Same(before, cur, Renamed(m))
    ensures Received(before, after, m)
  {
    hide IsSource, Renamed;
  }

  /** The moved tiles stand apart from m and from where m goes. */
  lemma StandsApart(before: Tiles, cur: Tiles, done: set<string>, m: string)
    requires MovedFrom(before, cur, done) && m in before && IsSource(m) && m !in done
    ensures Same(before, cur, m) && Same(before, cur, Renamed(m)) && Renamed(m) !in done
    ensures forall k :: k in done ==> k != m && k != Renamed(m) && Renamed(k) != m && Renamed(k) != Renamed(m)
  {
    hide IsSource, Renamed, Throws, Target, Same;
    NotTarget(done, m);
    TargetIsNew(done, m);
  }

  lemma MoveStep(before: Tiles, cur: Tiles, done: set<string>, m: string)
    requires MovedFrom(before, cur, done) && m in before && IsSource(m) && m !in done
    ensures m in cur && MovedFrom(before, MoveTile(cur, m), done + {m})
  {
    hide IsSource, Renamed, Throws, Target, MoveTile, Received;
    StandsApart(before, cur, done, m);
    var after := MoveTile(cur, m);
    MoveTouches(cur, m);
    GoneStep(before, cur, after, done, m);
    ReceivedFrom(before, cur, after, m);
    ArrivedStep(before, cur, after, done, m);
    UntouchedStep(before, cur, after, done, m);
  }

  lemma ReceivedStays(before: Tiles, cur: Tiles, after: Tiles, k: string)
    requires k in before && IsSource(k) && Received(before, cur, k) && Same(cur, after, Renamed(k))
    ensures Received(before, after, k)
  {
    hide Renamed, Throws;
  }

  lemma NotTarget(done: set<string>, k: string)
    ensures IsSource(k) ==> !Target(done, k)
  {
    if IsSource(k) && Target(done, k) {
      var l :| l in done && IsSource(l) && Renamed(l) == k;
      TargetStays(l);
    }
  }

  /** The pass fixes the result: there is one outcome, whatever the order of the moves. */
  lemma FixedIsUnique(before: Tiles, a: Tiles, b: Tiles)
    requires Fixed(before, a) && Fixed(before, b)
    ensures a == b
  {
    hide IsSource, Renamed, Throws;
    var all := set m | m in before && IsSource(m);
    forall n ensures Same(a, b, n) {
      if Target(all, n) {
        var m :| m in all && IsSource(m) && Renamed(m) == n;
        assert Received(before, a, m) && Received(before, b, m);
      } else if n !in all {
        assert Same(before, a, n) && Same(before, b, n);
      }
    }
    assert forall n :: n in a <==> Same(a, b, n) && n in b;
  }

  /** Where the pass has run, it finds nothing to do. */
  lemma SecondRunChangesNothing(before: Tiles, after: Tiles)
    requires Fixed(before, after)
    ensures NamesLegal(after) && (forall n :: n in after ==> !IsSource(n)) && Fixed(after, after)
  {
    var all := set m | m in before && IsSource(m);
    forall n | n in after ensures !IsSource(n) && !Throws(n) {
      if Target(all, n) {
        var m :| m in all && IsSource(m) && Renamed(m) == n;
        TargetStays(m);
      } else if n !in all {
        assert Same(before, after, n);
      }
    }
  }

  // ----- Conservation -----

  function Named(n: string, items: seq<Item>): seq<(string, Item)> {
    seq(|items|, i requires 0 <= i < |items| => (n, items[i]))
  }

  /** The items of a tile, each under the name n. */
  function PairsOf(n: string, tc: TileConfig): multiset<(string, Item)> { multiset(Named(n, ItemSeq(tc))) }

  lemma NamedJoin(n: string, a: seq<Item>, b: seq<Item>)
    ensures multiset(Named(n, a + b)) == multiset(Named(n, a)) + multiset(Named(n, b))
  {
    assert Named(n, a + b) == Named(n, a) + Named(n, b);
  }

  lemma JoinedItems(a: TileConfig, b: TileConfig)
    ensures Arcs(a.carcs + b.carcs) == Arcs(a.carcs) + Arcs(b.carcs)
    ensures Words(a.cwords + b.cwords) == Words(a.cwords) + Words(b.cwords)
    ensures Enums(a.cenums + b.cenums) == Enums(a.cenums) + Enums(b.cenums)
    ensures Unknowns(a.cunknowns + b.cunknowns) == Unknowns(a.cunknowns) + Unknowns(b.cunknowns)
  {
  }

  lemma PairsJoin(n: string, a: TileConfig, b: TileConfig)
    ensures PairsOf(n, a.Join(b)) == PairsOf(n, a) + PairsOf(n, b)
  {
    JoinedItems(a, b);
    hide Named, Arcs, Words, Enums, Unknowns;
    var a1, b1, a2, b2 := Arcs(a.carcs), Arcs(b.carcs), Words(a.cwords), Words(b.cwords);
    var a3, b3, a4, b4 := Enums(a.cenums), Enums(b.cenums), Unknowns(a.cunknowns), Unknowns(b.cunknowns);
    FourNamed(n, a1, a2, a3, a4);
    FourNamed(n, b1, b2, b3, b4);
    FourNamed(n, a1 + b1, a2 + b2, a3 + b3, a4 + b4);
    NamedJoin(n, a1, b1);
    NamedJoin(n, a2, b2);
    NamedJoin(n, a3, b3);
    NamedJoin(n, a4, b4);
  }

  lemma FourNamed(n: string, a: seq<Item>, b: seq<Item>, c: seq<Item>, d: seq<Item>)
    ensures multiset(Named(n, a + b + c + d))
         == multiset(Named(n, a)) + multiset(Named(n, b)) + multiset(Named(n, c)) + multiset(Named(n, d))
  {
    hide Named;
    NamedJoin(n, a + b + c, d);
    NamedJoin(n, a + b, c);
    NamedJoin(n, a, b);
  }

  /** The name a tile has in the end. */
  function FinalName(n: string): string { if IsSource(n) then Renamed(n) else n }

  ghost function Pick(tiles: Tiles): (k: string)
    requires tiles != map[]
    ensures k in tiles
  {
    var k :| k in tiles; k
  }

  /** Every item of every tile, under the final name of its tile. */
  ghost function Placed(tiles: Tiles): multiset<(string, Item)>
    decreases |tiles|
  {
    if tiles == map[] then multiset{}
    else
      var k := Pick(tiles);
      Removed(tiles, k);
      PairsOf(FinalName(k), tiles[k]) + Placed(tiles - {k})
  }

  lemma Removed(tiles: Tiles, k: string)
    requires k in tiles
    ensures |tiles - {k}| == |tiles| - 1
  {
    assert (tiles - {k}).Keys == tiles.Keys - {k};
    assert |tiles.Keys| == |tiles| && |(tiles - {k}).Keys| == |tiles - {k}|;
  }

  lemma {:induction false} PlacedWithout(tiles: Tiles, k: string)
    requires k in tiles
    ensures Placed(tiles) == PairsOf(FinalName(k), tiles[k]) + Placed(tiles - {k})
    decreases |tiles|
  {
    hide PairsOf, FinalName;
    var j := Pick(tiles);
    if j != k {
      Removed(tiles, j);
      Removed(tiles, k);
      PlacedWithout(tiles - {j}, k);
      PlacedWithout(tiles - {k}, j);
      assert tiles - {j} - {k} == tiles - {k} - {j};
    }
  }

  lemma OwnPlaced(rest: Tiles, n: string)
    requires FinalName(n) == n
    ensures Placed(rest) == PairsOf(n, Own(rest, n)) + Placed(rest - {n})
  {
    hide FinalName, PairsOf, Placed;
    if n in rest {
      PlacedWithout(rest, n);
    } else {
      EmptyPairs(n, EMPTY_TILE);
      assert rest - {n} == rest;
    }
  }

  lemma PutConserves(rest: Tiles, n: string, x: TileConfig)
    requires FinalName(n) == n
    ensures Placed(rest[n := Own(rest, n).Join(x)]) == Placed(rest) + PairsOf(n, x)
  {
    hide FinalName, PairsOf, Placed;
    var after := rest[n := Own(rest, n).Join(x)];
    PlacedWithout(after, n);
    assert after - {n} == rest - {n} && after[n] == Own(rest, n).Join(x);
    PairsJoin(n, Own(rest, n), x);
    OwnPlaced(rest, n);
  }

  /** Moving one tile keeps every item, exactly once, under its renamed tile. */
  lemma MoveConserves(tiles: Tiles, m: string)
    requires m in tiles && IsSource(m)
    ensures Placed(MoveTile(tiles, m)) == Placed(tiles)
  {
    var n, rest := Renamed(m), tiles - {m};
    TargetStays(m);
    assert FinalName(m) == n && FinalName(n) == n && n != m;
    assert MoveTile(tiles, m) == (if tiles[m].Empty() then tiles else tiles[n := Own(tiles, n).Join(tiles[m])]) - {m};
    hide Renamed, IsSource, FinalName, PairsOf, Throws, Placed, MoveTile;
    PlacedWithout(tiles, m);
    if tiles[m].Empty() {
      EmptyPairs(n, tiles[m]);
    } else {
      PutConserves(rest, n, tiles[m]);
      PutThenErase(tiles, n, m, Own(tiles, n).Join(tiles[m]));
    }
  }

  lemma PutThenErase(tiles: Tiles, n: string, m: string, x: TileConfig)
    requires n != m
    ensures tiles[n := x] - {m} == (tiles - {m})[n := x] && Own(tiles - {m}, n) == Own(tiles, n)
  {
  }

  lemma EmptyPairs(n: string, tc: TileConfig)
    requires tc.Empty()
    ensures PairsOf(n, tc) == multiset{}
  {
    assert ItemSeq(tc) == [];
    assert Named(n, []) == [];
  }

  // ----- The pass -----

  predicate WithoutSerdes(p: Part) { p.LFE5U_12F? || p.LFE5U_25F? || p.LFE5U_45F? || p.LFE5U_85F? }

  /** In tile groups only the two suffixes are looked at. */
  function GroupName(t: string): string {
    if EndsWith(t, "BMID_0H") then t[..|t| - 1] + "V" else if EndsWith(t, "BMID_2") then t + "V" else t
  }

  /** A group and the tiles it names are renamed alike exactly when neither rule applies to a name with "CIB_DCU". */
  lemma GroupNamesFollow(t: string)
    requires !Throws(t)
    ensures GroupName(t) == FinalName(t) <==> FindFrom(t, 0) == None || (!IsSource(t) && GroupName(t) == t)
  {
    var f, g, r := FindFrom(t, 0), GroupName(t), FinalName(t);
    if f.Some? && IsSource(t) {
      assert r[f.value] == 'V' && t[f.value] == 'C' && |r| == |t| + 1;
      assert |g| == |r| ==> g[f.value] == 'C';
    }
  }

  class ChipConfig {
    var tiles: Tiles
    var tilegroups: seq<TileGroup>

    constructor (tiles: Tiles, tilegroups: seq<TileGroup>)
      ensures this.tiles == tiles && this.tilegroups == tilegroups
    {
      this.tiles := tiles;
      this.tilegroups := tilegroups;
    }

    /** The renames that apply; None when a name throws. */
    method TileTypeXform() returns (xform: Option<map<string, string>>)
      ensures xform.Some? <==> NamesLegal(tiles)
      ensures xform.Some? ==> xform.value == map m | m in tiles && IsSource(m) :: Renamed(m)
    {
      hide Renamed, Throws;
      var todo, m := tiles.Keys, map[];
      while todo != {}
        invariant todo <= tiles.Keys
        invariant forall n :: n in tiles && n !in todo ==> !Throws(n)
        invariant m == map n | n in tiles && n !in todo && IsSource(n) :: Renamed(n)
        decreases todo
      {
        var n :| n in todo;
        if Throws(n) { return None; }
        if Renamed(n) != n { m := m[n := Renamed(n)]; }
        todo := todo - {n};
      }
      return Some(m);
    }

    /** Items of one kind added to a tile; nothing to add makes no tile. */
    method Push(n: string, items: TileConfig)
      modifies this`tiles
      ensures tiles == Pushed(old(tiles), n, items)
    {
      if !items.Empty() {
        tiles := tiles[n := Own(tiles, n).Join(items)];
      }
    }

    /** One rename: the items go over one kind after the other, and the old tile is erased. */
    method MoveOne(m: string)
      requires m in tiles && IsSource(m)
      modifies this`tiles
      ensures tiles == MoveTile(old(tiles), m)
    {
      hide Renamed, Throws, Pushed;
      var existing, n := tiles[m], Renamed(m);
      Push(n, TileConfig(existing.carcs, [], [], []));
      Push(n, TileConfig([], [], existing.cenums, []));
      Push(n, TileConfig([], existing.cwords, [], []));
      Push(n, TileConfig([], [], [], existing.cunknowns));
      PushedInParts(old(tiles), n, existing);
      tiles := tiles - {m};
      PushedIsMoved(old(tiles), m);
    }

    method RenameGroups()
      modifies this`tilegroups
      ensures GroupsRenamed(old(tilegroups), tilegroups)
    {
      hide GroupName;
      var groups := [];
      for i := 0 to |tilegroups|
        invariant |groups| == i
        invariant forall k :: 0 <= k < i ==> GroupRenamed(tilegroups[k], groups[k])
      {
        var g := tilegroups[i];
        groups := groups + [g.(tiles := seq(|g.tiles|, k requires 0 <= k < |g.tiles| => GroupName(g.tiles[k])))];
      }
      tilegroups := groups;
    }

    /** Applies the renames, in any order. */
    method MoveAll(names: set<string>)
      requires NamesLegal(tiles) && names == set m | m in tiles && IsSource(m)
      modifies this`tiles
      ensures Fixed(old(tiles), tiles) && Placed(tiles) == Placed(old(tiles))
    {
      hide Renamed, Throws, Placed, MovedFrom;
      var todo := names;
      ghost var done: set<string> := {};
      NothingMoved(tiles);
      while todo != {}
        invariant todo + done == names && todo !! done
        invariant MovedFrom(old(tiles), tiles, done) && Placed(tiles) == Placed(old(tiles))
        decreases todo
      {
        var m :| m in todo;
        MoveStep(old(tiles), tiles, done, m);
        MoveConserves(tiles, m);
        MoveOne(m);
        todo, done := todo - {m}, done + {m};
      }
      assert done == names;
    }

    /** Nothing is lost or doubled: every tile that has to moves once, every item ends up once under its
        tile's final name, and a name that throws leaves the configuration as it was. */
    method FixTileNames(part: Part) returns (ok: bool)
      modifies this
      ensures ok <==> part !in {LFE5U_12F, LFE5U_25F, LFE5U_45F, LFE5U_85F} || NamesLegal(old(tiles))
      ensures !ok || part !in {LFE5U_12F, LFE5U_25F, LFE5U_45F, LFE5U_85F} ==> tiles == old(tiles) && tilegroups == old(tilegroups)
      ensures ok && part in {LFE5U_12F, LFE5U_25F, LFE5U_45F, LFE5U_85F} ==>
        Fixed(old(tiles), tiles) && Placed(tiles) == Placed(old(tiles)) && GroupsRenamed(old(tilegroups), tilegroups)
    {
      if !WithoutSerdes(part) { return true; }
      var xform := TileTypeXform();
      if xform == None { return false; }
      hide Renamed, Throws, Placed, Fixed, GroupsRenamed;
      MoveAll(xform.value.Keys);
      RenameGroups();
      return true;
    }
  }

  ghost predicate GroupsRenamed(a: seq<TileGroup>, b: seq<TileGroup>) {
    |a| == |b| && forall i :: 0 <= i < |a| ==> GroupRenamed(a[i], b[i])
  }

  function Pushed(tiles: Tiles, n: string, items: TileConfig): Tiles {
    if items.Empty() then tiles else tiles[n := Own(tiles, n).Join(items)]
  }

  lemma PushTwice(tiles: Tiles, n: string, a: TileConfig, b: TileConfig)
    ensures Pushed(Pushed(tiles, n, a), n, b) == Pushed(tiles, n, a.Join(b))
  {
    var own := Own(tiles, n);
    assert a.Empty() ==> a.Join(b) == b;
    assert b.Empty() ==> a.Join(b) == a;
    assert own.Join(a).Join(b) == own.Join(a.Join(b));
    assert tiles[n := own.Join(a)][n := own.Join(a).Join(b)] == tiles[n := own.Join(a).Join(b)];
  }

  lemma PushedInParts(tiles: Tiles, n: string, tc: TileConfig)
    ensures Pushed(Pushed(Pushed(Pushed(tiles, n, TileConfig(tc.carcs, [], [], [])), n, TileConfig([], [], tc.cenums, [])),
              n, TileConfig([], tc.cwords, [], [])), n, TileConfig([], [], [], tc.cunknowns)) == Pushed(tiles, n, tc)
  {
    hide Pushed;
    var a, b := TileConfig(tc.carcs, [], [], []), TileConfig([], [], tc.cenums, []);
    var c, d := TileConfig([], tc.cwords, [], []), TileConfig([], [], [], tc.cunknowns);
    PushTwice(tiles, n, a, b);
    PushTwice(tiles, n, a.Join(b), c);
    PushTwice(tiles, n, a.Join(b).Join(c), d);
    assert a.Join(b).Join(c).Join(d) == tc;
  }

  lemma PushedIsMoved(tiles: Tiles, m: string)
    requires m in tiles && IsSource(m)
    ensures Pushed(tiles, Renamed(m), tiles[m]) - {m} == MoveTile(tiles, m)
  {
  }

  predicate GroupRenamed(g: TileGroup, h: TileGroup) {
    |h.tiles| == |g.tiles| && h.config == g.config && forall k :: 0 <= k < |g.tiles| ==> h.tiles[k] == GroupName(g.tiles[k])
  }

  lemma NothingMoved(tiles: Tiles)
    ensures MovedFrom(tiles, tiles, {})
  {
  }
}
