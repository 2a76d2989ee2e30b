/** The dense numbering of wires and pips (ecp5/arch.h, ecp5/arch.cc).

    Every tile holds some number of bels, wires or pips, possibly none.  The iterators walk all of
    them tile by tile, skipping empty tiles; the constructor numbers them along that walk and
    records the number of the first item of each tile. */
module TileNumbering {
  import opened Basics

  /** The number of items in the tiles before tile t. */
  function Offset(counts: seq<nat>, t: nat): nat
    requires t <= |counts|
  {
    if t == 0 then 0 else Offset(counts, t - 1) + counts[t - 1]
  }

  lemma {:induction false} OffsetMonotone(counts: seq<nat>, t: nat, u: nat)
    requires t <= u <= |counts|
    ensures Offset(counts, t) <= Offset(counts, u)
    decreases u
  {
    if t < u {
      OffsetMonotone(counts, t, u - 1);
    }
  }

  datatype Item = Item(tile: nat, index: nat)

  predicate Exists(counts: seq<nat>, e: Item) {
    e.tile < |counts| && e.index < counts[e.tile]
  }

  /** The place of an item in the walk over the chip. */
  function Rank(counts: seq<nat>, e: Item): (r: nat)
    requires Exists(counts, e)
    ensures r < Offset(counts, |counts|)
  {
    OffsetMonotone(counts, e.tile + 1, |counts|);
    Offset(counts, e.tile) + e.index
  }

  /** Items in different places have different ranks, in the order of their tiles. */
  lemma RankOrders(counts: seq<nat>, d: Item, e: Item)
    requires Exists(counts, d) && Exists(counts, e)
    ensures Rank(counts, d) < Rank(counts, e) <==> d.tile < e.tile || (d.tile == e.tile && d.index < e.index)
  {
    if d.tile < e.tile {
      OffsetMonotone(counts, d.tile + 1, e.tile);
    } else if e.tile < d.tile {
      OffsetMonotone(counts, e.tile + 1, d.tile);
    }
  }

  /** Every number below the total is the rank of an item. */
  lemma {:induction false} RankCovers(counts: seq<nat>, k: nat, n: nat) returns (e: Item)
    requires n <= |counts| && k < Offset(counts, n)
    ensures Exists(counts, e) && Rank(counts, e) == k
  {
    if k < Offset(counts, n - 1) {
      e := RankCovers(counts, k, n - 1);
    } else {
      e := Item(n - 1, k - Offset(counts, n - 1));
    }
  }

  datatype Location = Location(x: nat, y: nat)

  /** tile_index: the tile at a location of a grid `width` tiles wide ... */
  function TileOf(width: nat, loc: Location): nat { loc.y * width + loc.x }

  /** ... and the location the iterators show for a tile. */
  function LocationOf(width: nat, tile: nat): Location
    requires width > 0
  {
    Location(tile % width, tile / width)
  }

  lemma LocationRoundTrip(width: nat, tile: nat)
    requires width > 0
    ensures TileOf(width, LocationOf(width, tile)) == tile && LocationOf(width, tile).x < width
  {
    assert tile / width * width + tile % width == tile;
  }

  lemma {:induction false} LaterRow(width: nat, lo: nat, hi: nat)
    requires lo < hi
    ensures hi * width >= lo * width + width
  {
    if lo + 1 < hi {
      LaterRow(width, lo, hi - 1);
      assert hi * width == (hi - 1) * width + width;
    }
  }

  lemma SameTile(width: nat, a: Location, b: Location)
    requires a.x < width && b.x < width && TileOf(width, a) == TileOf(width, b)
    ensures a == b
  {
    if a.y != b.y {
      LaterRow(width, if a.y < b.y then a.y else b.y, if a.y < b.y then b.y else a.y);
    }
  }

  /** BelIterator, WireIterator and AllPipIterator: the three differ only in what they count. */
  class TileIterator {
    const counts: seq<nat>
    var cursorIndex: int
    var cursorTile: nat

    constructor (counts: seq<nat>, tile: nat, index: int)
      ensures this.counts == counts && cursorTile == tile && cursorIndex == index
    {
      this.counts := counts;
      cursorTile, cursorIndex := tile, index;
    }

    /** The iterator shows an item. */
    predicate AtItem()
      reads this
    {
      cursorTile < |counts| && 0 <= cursorIndex < counts[cursorTile]
    }

    predicate AtEnd()
      reads this
    {
      cursorTile == |counts| && cursorIndex == 0
    }

    function Current(): Item
      requires AtItem()
      reads this
    {
      Item(cursorTile, cursorIndex)
    }

    /** How many items come before the cursor. */
    function Position(): int
      requires cursorTile <= |counts|
      reads this
    {
      Offset(counts, cursorTile) + cursorIndex
    }

    predicate Same(other: TileIterator)
      reads this, other
    {
      cursorTile == other.cursorTile && cursorIndex == other.cursorIndex
    }

    /** operator++: on to the next item of the chip, however many tiles are empty. */
    method Next()
      requires cursorTile < |counts| && -1 <= cursorIndex
      requires cursorIndex == -1 ==> cursorTile == 0
      requires cursorIndex >= 0 ==> AtItem()
      modifies this
      ensures AtItem() || AtEnd()
      ensures Position() == old(Position()) + 1
    {
      cursorIndex := cursorIndex + 1;
      while cursorTile < |counts| && cursorIndex >= counts[cursorTile]
        invariant cursorTile <= |counts| && 0 <= cursorIndex
        invariant cursorTile < |counts| ==> cursorIndex <= counts[cursorTile]
        invariant cursorTile == |counts| ==> cursorIndex == 0
        invariant Position() == old(Position()) + 1
        decreases |counts| - cursorTile
      {
        cursorIndex := 0;
        cursorTile := cursorTile + 1;
      }
    }

    /** Two iterators over the same chip stand at the same place exactly when as many items precede them. */
    lemma SamePosition(other: TileIterator)
      requires counts == other.counts
      requires AtItem() || AtEnd()
      requires other.AtItem() || other.AtEnd()
      ensures Same(other) <==> Position() == other.Position()
    {
      if AtItem() {
        assert Position() == Rank(counts, Current());
        if other.AtItem() {
          assert other.Position() == Rank(counts, other.Current());
          RankOrders(counts, Current(), other.Current());
          RankOrders(counts, other.Current(), Current());
        }
      } else if other.AtItem() {
        assert other.Position() == Rank(counts, other.Current());
      }
    }
  }

  /** Only the end has every item before it. */
  lemma EndIsLast(it: TileIterator, end: TileIterator)
    requires it.counts == end.counts && (it.AtItem() || it.AtEnd()) && (end.AtItem() || end.AtEnd())
    requires it.Position() < end.Position()
    ensures it.AtItem()
  {
    if end.AtItem() {
      assert Rank(end.counts, end.Current()) == end.Position();
    }
  }

  /** getBels, getWires and getPips: the range over the whole chip. */
  method WholeChip(counts: seq<nat>) returns (b: TileIterator, e: TileIterator)
    ensures fresh(b) && fresh(e) && b != e && b.counts == e.counts == counts
    ensures e.AtEnd() && (|counts| == 0 || ((b.AtItem() || b.AtEnd()) && b.Position() == 0))
    ensures |counts| == 0 ==> b.Same(e)
  {
    b := new TileIterator(counts, 0, -1);
    if |counts| > 0 {
      b.Next();
    } else {
      b.cursorIndex := 0;
    }
    e := new TileIterator(counts, |counts|, 0);
  }

  /** The tiles whose first item is among the first k items of the chip have their number. */
  predicate NumberedUpTo(counts: seq<nat>, vecidx: seq<int>, k: nat) {
    |vecidx| == |counts| &&
    forall t: nat :: t < |counts| ==>
      vecidx[t] == if counts[t] > 0 && Offset(counts, t) < k then Offset(counts, t) else -1
  }

  /** What NumberItems leaves in `vecidx`. */
  predicate Numbered(counts: seq<nat>, vecidx: seq<int>) {
    NumberedUpTo(counts, vecidx, Offset(counts, |counts|))
  }

  lemma NumberOne(counts: seq<nat>, vecidx: seq<int>, e: Item)
    requires Exists(counts, e) && NumberedUpTo(counts, vecidx, Rank(counts, e))
    ensures NumberedUpTo(counts, if e.index == 0 then vecidx[e.tile := Rank(counts, e)] else vecidx, Rank(counts, e) + 1)
  {
    forall t: nat | t < |counts| && counts[t] > 0
      ensures Offset(counts, t) == Rank(counts, e) <==> Item(t, 0) == e
    {
      RankOrders(counts, Item(t, 0), e);
      RankOrders(counts, e, Item(t, 0));
    }
  }

  /** The constructor's numbering loop.  `vecidx[t]` is the number of the first item of tile t,
      or -1 for an empty tile. */
  method NumberItems(counts: seq<nat>, width: nat) returns (vecidx: array<int>, total: nat)
    requires width > 0
    ensures fresh(vecidx) && Numbered(counts, vecidx[..]) && total == Offset(counts, |counts|)
  {
    vecidx := new int[|counts|](_ => -1);
    total := 0;
    var it, end := WholeChip(counts);
    if |counts| > 0 { it.SamePosition(end); }
    while !it.Same(end)
      invariant fresh(it) && fresh(end) && fresh(vecidx) && it != end && it.counts == end.counts == counts
      invariant end.AtEnd() && (it.AtItem() || it.AtEnd()) && it.Position() == total
      invariant NumberedUpTo(counts, vecidx[..], total)
      decreases Offset(counts, |counts|) - total
    {
      var e := it.Current();
      assert Rank(counts, e) == total;
      NumberOne(counts, vecidx[..], e);
      ghost var before := vecidx[..];
      if e.index == 0 {
        LocationRoundTrip(width, e.tile);
        vecidx[TileOf(width, LocationOf(width, e.tile))] := total;
        assert vecidx[..] == before[e.tile := total];
      }
      total := total + 1;
      it.Next();
    }
  }

  /** get_wire_vecidx and get_pip_vecidx; None stands for the failed assertion on an empty tile. */
  function VecIdx(vecidx: seq<int>, width: nat, loc: Location, index: nat): Option<int>
    requires TileOf(width, loc) < |vecidx|
  {
    var base := vecidx[TileOf(width, loc)];
    if base == -1 then None else Some(base + index)
  }

  predicate OnChip(counts: seq<nat>, width: nat, loc: Location, index: nat) {
    loc.x < width && TileOf(width, loc) < |counts| && index < counts[TileOf(width, loc)]
  }

  lemma VecIdxIsRank(counts: seq<nat>, vecidx: seq<int>, width: nat, loc: Location, index: nat)
    requires Numbered(counts, vecidx) && OnChip(counts, width, loc, index)
    ensures VecIdx(vecidx, width, loc, index) == Some(Rank(counts, Item(TileOf(width, loc), index)))
  {
    hide TileOf;
    assert Rank(counts, Item(TileOf(width, loc), 0)) == Offset(counts, TileOf(width, loc));
  }

  /** The flat index is one-to-one from the items of the chip ... */
  lemma NumberingInjective(counts: seq<nat>, vecidx: seq<int>, width: nat, loc: Location, index: nat, loc': Location, index': nat)
    requires Numbered(counts, vecidx) && OnChip(counts, width, loc, index) && OnChip(counts, width, loc', index')
    ensures VecIdx(vecidx, width, loc, index).Some? && 0 <= VecIdx(vecidx, width, loc, index).value < Offset(counts, |counts|)
    ensures VecIdx(vecidx, width, loc, index) == VecIdx(vecidx, width, loc', index') <==> loc == loc' && index == index'
  {
    hide TileOf;
    var d, e := Item(TileOf(width, loc), index), Item(TileOf(width, loc'), index');
    VecIdxIsRank(counts, vecidx, width, loc, index);
    VecIdxIsRank(counts, vecidx, width, loc', index');
    RankOrders(counts, d, e);
    RankOrders(counts, e, d);
    if d.tile == e.tile {
      SameTile(width, loc, loc');
    }
  }

  /** ... onto the numbers below the total. */
  lemma NumberingSurjective(counts: seq<nat>, vecidx: seq<int>, width: nat, k: nat) returns (loc: Location, index: nat)
    requires width > 0 && Numbered(counts, vecidx) && k < Offset(counts, |counts|)
    ensures OnChip(counts, width, loc, index) && VecIdx(vecidx, width, loc, index) == Some(k)
  {
    var e := RankCovers(counts, k, |counts|);
    loc, index := LocationOf(width, e.tile), e.index;
    LocationRoundTrip(width, e.tile);
    VecIdxIsRank(counts, vecidx, width, loc, index);
  }

  /** Walk a range to its end, as a range-based for loop does. */
  method Collect(it: TileIterator, end: TileIterator) returns (items: seq<Item>)
    requires it != end && it.counts == end.counts
    requires it.Same(end) || ((it.AtItem() || it.AtEnd()) && (end.AtItem() || end.AtEnd()) && it.Position() <= end.Position())
    modifies it
    ensures old(it.Same(end)) ==> items == []
    ensures !old(it.Same(end)) ==> |items| == old(end.Position() - it.Position())
    ensures !old(it.Same(end)) ==> forall k :: 0 <= k < |items| ==>
      Exists(end.counts, items[k]) && Rank(end.counts, items[k]) == old(it.Position()) + k
  {
    items := [];
    if it.Same(end) { return; }
    it.SamePosition(end);
    while !it.Same(end)
      invariant it.counts == end.counts && (it.AtItem() || it.AtEnd()) && it.Position() <= end.Position()
      invariant it.Position() == old(it.Position()) + |items|
      invariant forall k :: 0 <= k < |items| ==>
        Exists(end.counts, items[k]) && Rank(end.counts, items[k]) == old(it.Position()) + k
      decreases end.Position() - it.Position()
    {
      it.SamePosition(end);
      EndIsLast(it, end);
      items := items + [it.Current()];
      it.Next();
      it.SamePosition(end);
    }
  }

  /** getBelsByTile: the range of one tile. */
  method OneTile(counts: seq<nat>, tile: nat) returns (b: TileIterator, e: TileIterator)
    requires tile < |counts|
    ensures fresh(b) && fresh(e) && b != e && b.counts == e.counts == counts
    ensures b.cursorTile == tile && b.cursorIndex == 0
    ensures if counts[tile] == 0 then b.Same(e) else
      (e.AtItem() || e.AtEnd()) && e.Position() == Offset(counts, tile) + counts[tile]
  {
    b := new TileIterator(counts, tile, 0);
    e := new TileIterator(counts, tile, (counts[tile] as int) - 1);
    if e.cursorIndex == -1 {
      e.cursorIndex := 0;
    } else {
      e.Next();
    }
  }

  /** The range of a tile holds exactly that tile's bels, in order. */
  method BelsOfTile(counts: seq<nat>, tile: nat) returns (items: seq<Item>)
    requires tile < |counts|
    ensures |items| == counts[tile]
    ensures forall i :: 0 <= i < |items| ==> items[i] == Item(tile, i)
  {
    var b, e := OneTile(counts, tile);
    if counts[tile] > 0 { b.SamePosition(e); }
    items := Collect(b, e);
    forall i | 0 <= i < |items|
      ensures items[i] == Item(tile, i)
    {
      RankOrders(counts, items[i], Item(tile, i));
      RankOrders(counts, Item(tile, i), items[i]);
    }
  }

  /** The walk over the whole chip meets every item exactly once, in the order of the ranks. */
  method WholeWalk(counts: seq<nat>) returns (items: seq<Item>)
    ensures |items| == Offset(counts, |counts|)
    ensures forall k :: 0 <= k < |items| ==> Exists(counts, items[k]) && Rank(counts, items[k]) == k
    ensures forall e :: Exists(counts, e) ==> items[Rank(counts, e)] == e
  {
    var b, end := WholeChip(counts);
    if |counts| > 0 { b.SamePosition(end); }
    items := Collect(b, end);
    forall e | Exists(counts, e)
      ensures items[Rank(counts, e)] == e
    {
      RankOrders(counts, items[Rank(counts, e)], e);
      RankOrders(counts, e, items[Rank(counts, e)]);
    }
  }
}
