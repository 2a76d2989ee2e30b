/** Rewriting a LUT's truth table for the pins the router chose (ecp5/bitstream.cc, ecp5/arch.h).

    A LUT has K logical inputs and K physical pins.  The router may reach logical input i through a
    permuting pip that starts at another physical pin; permute_lut rebuilds the truth table so that the
    LUT, read at its physical pins, still computes the same function of its logical inputs.
    The source has K = 4; nothing here depends on that. */
module LutInit {
  import opened Bits

  // ----- The lutperm flags of a pip -----

  /** Fields of a 16-bit flag word, as is_lutperm_pip and lutperm_in/out/lut extract them. */
  predicate IsLutperm(flags: int) { flags / 0x4000 % 2 == 1 }

  function LutpermOut(flags: int): nat { flags / 4 % 4 }

  function LutpermIn(flags: int): nat { flags % 4 }

  datatype LutPermRule = NONE | CARRY | ALL

  /** is_pip_blocked, given the rule in force in the pip's slice. */
  function PipBlocked(flags: int, disableLutperm: bool, rule: LutPermRule): bool {
    IsLutperm(flags) && (disableLutperm || rule.NONE? || (rule.CARRY? && LutpermOut(flags) / 2 != LutpermIn(flags) / 2))
  }

  /** The flag word of a permuting pip of LUT `lut` from physical pin j to logical pin o: bit 14 marks it, bits
      4 to 6 name the LUT, bits 2 and 3 the output, bits 0 and 1 the input. */
  lemma FlagWord(lut: nat, o: nat, j: nat)
    requires lut < 8 && o < 4 && j < 4
    ensures var w := 0x4000 + 16 * lut + 4 * o + j; IsLutperm(w) && LutpermOut(w) == o && LutpermIn(w) == j
  {
  }

  /** Below bit 14 nothing makes a pip permuting. */
  lemma PlainWord(w: int)
    requires 0 <= w < 0x4000
    ensures !IsLutperm(w)
  {
  }

  /** What each rule does to a permuting pip from pin j to pin o: the carry rule lets A swap with B and C with D. */
  lemma RuleMeans(lut: nat, o: nat, j: nat, rule: LutPermRule)
    requires lut < 8 && o < 4 && j < 4
    ensures var w := 0x4000 + 16 * lut + 4 * o + j;
      PipBlocked(w, true, rule) && (PipBlocked(w, false, rule) <==> rule == NONE || (rule == CARRY && (o < 2) != (j < 2)))
  {
    FlagWord(lut, o, j);
  }

  // ----- The routing seen by one LUT -----

  datatype Pip = Pip(flags: int, bound: bool)

  /** For each logical pin: the pips that can drive its wire, and whether the wire is held by a net. */
  datatype PinState = PinState(uphill: seq<Pip>, wireBound: bool)

  /** The physical pin a pip brings to logical pin i. */
  function Source(p: Pip, i: nat): nat { if IsLutperm(p.flags) then LutpermIn(p.flags) else i }

  /** The database: permuting pips into pin i name it as their output and start at one of the K pins. */
  predicate PinsWellFormed(pins: seq<PinState>) {
    forall i, k :: 0 <= i < |pins| && 0 <= k < |pins[i].uphill| ==>
      var p := pins[i].uphill[k];
      IsLutperm(p.flags) ==> LutpermOut(p.flags) == i && LutpermIn(p.flags) < |pins|
  }

  /** Each pin wire has at most one bound driving pip. */
  predicate OneDriver(pins: seq<PinState>) {
    forall i, k, l :: 0 <= i < |pins| && 0 <= k < l < |pins[i].uphill| ==> !(pins[i].uphill[k].bound && pins[i].uphill[l].bound)
  }

  predicate Routed(pin: PinState) { exists k :: 0 <= k < |pin.uphill| && pin.uphill[k].bound }

  /** Physical pin j drives logical pin i. */
  predicate Feeds(pins: seq<PinState>, j: nat, i: nat)
    requires i < |pins|
  {
    exists k :: 0 <= k < |pins[i].uphill| && pins[i].uphill[k].bound && Source(pins[i].uphill[k], i) == j
  }

  predicate Unused(pins: seq<PinState>, j: nat) { forall i: nat :: i < |pins| ==> !Feeds(pins, j, i) }

  /** In carry mode an unused physical pin stands in for the unbound logical pins of its half. */
  predicate Drives(pins: seq<PinState>, carry: bool, j: nat, i: nat)
    requires i < |pins|
  {
    Feeds(pins, j, i) || (carry && Unused(pins, j) && j / 2 == i / 2 && !pins[i].wireBound)
  }

  /** The values the logical inputs see when the physical pins carry v. */
  function Logical(pins: seq<PinState>, carry: bool, v: seq<bool>): (l: seq<bool>)
    requires |v| == |pins|
    ensures |l| == |pins|
  {
    seq(|pins|, i requires 0 <= i < |pins| => exists j: nat :: j < |pins| && Drives(pins, carry, j, i) && v[j])
  }

  // ----- What the logical inputs see -----

  /** A routed pin sees the physical pin its one bound pip starts at. */
  lemma RoutedPinSeesSource(pins: seq<PinState>, carry: bool, v: seq<bool>, i: nat, k: nat)
    requires OneDriver(pins) && |v| == |pins| && i < |pins|
    requires k < |pins[i].uphill| && pins[i].uphill[k].bound && pins[i].wireBound
    requires Source(pins[i].uphill[k], i) < |pins|
    ensures Logical(pins, carry, v)[i] == v[Source(pins[i].uphill[k], i)]
  {
    var s := Source(pins[i].uphill[k], i);
    assert Feeds(pins, s, i);
    forall j: nat | Feeds(pins, j, i)
      ensures j == s
    {
      var l :| 0 <= l < |pins[i].uphill| && pins[i].uphill[l].bound && Source(pins[i].uphill[l], i) == j;
      assert l == k;
    }
  }

  /** The word packs a permuting pip of some LUT from pin j to pin o, or is plain and j is o. */
  predicate Routes(w: int, o: nat, j: nat) {
    (exists lut :: 0 <= lut < 8 && w == 0x4000 + 16 * lut + 4 * o + j) || (0 <= w < 0x4000 && j == o)
  }

  /** A four-pin LUT whose logical pin i is driven by one bound pip, from physical pin from[i]. */
  predicate RoutedFrom(pins: seq<PinState>, from: seq<nat>) {
    |pins| == |from| == 4 && OneDriver(pins) && forall i: nat :: i < 4 ==> from[i] < 4 && PinFrom(pins[i], i, from[i])
  }

  predicate PinFrom(pin: PinState, i: nat, from: nat) {
    pin.wireBound && exists k :: 0 <= k < |pin.uphill| && pin.uphill[k].bound && Routes(pin.uphill[k].flags, i, from)
  }

  /** Its inputs see the pins the flag words name. */
  lemma RoutedLut(pins: seq<PinState>, carry: bool, v: seq<bool>, from: seq<nat>)
    requires RoutedFrom(pins, from) && |v| == 4
    ensures Logical(pins, carry, v) == [v[from[0]], v[from[1]], v[from[2]], v[from[3]]]
  {
    hide Logical, OneDriver, PinFrom;
    forall i: nat | i < 4 ensures Logical(pins, carry, v)[i] == v[from[i]] {
      RoutedPin(pins, carry, v, i, from[i]);
    }
  }

  lemma RoutedPin(pins: seq<PinState>, carry: bool, v: seq<bool>, i: nat, from: nat)
    requires |pins| == |v| == 4 && OneDriver(pins) && i < 4 && from < 4 && PinFrom(pins[i], i, from)
    ensures Logical(pins, carry, v)[i] == v[from]
  {
    var k :| 0 <= k < |pins[i].uphill| && pins[i].uphill[k].bound && Routes(pins[i].uphill[k].flags, i, from);
    var w := pins[i].uphill[k].flags;
    if w < 0x4000 {
      PlainWord(w);
    } else {
      var lut :| 0 <= lut < 8 && w == 0x4000 + 16 * lut + 4 * i + from;
      FlagWord(lut, i, from);
    }
    hide IsLutperm, LutpermIn, Logical;
    RoutedPinSeesSource(pins, carry, v, i, k);
  }

  /** Outside carry mode an unrouted pin reads 0. */
  lemma UnroutedPinReadsZero(pins: seq<PinState>, v: seq<bool>, i: nat)
    requires |v| == |pins| && i < |pins| && !Routed(pins[i])
    ensures !Logical(pins, false, v)[i]
  {
  }

  /** The bound pips respect the rule for carry cells. */
  predicate CarryRouted(pins: seq<PinState>) {
    forall i, k :: 0 <= i < |pins| && 0 <= k < |pins[i].uphill| && pins[i].uphill[k].bound ==>
      !PipBlocked(pins[i].uphill[k].flags, false, CARRY)
  }

  lemma FeedsWithinHalf(pins: seq<PinState>, j: nat, i: nat)
    requires PinsWellFormed(pins) && CarryRouted(pins) && i < |pins| && Feeds(pins, j, i)
    ensures j / 2 == i / 2 && j < |pins|
  {
    var k :| 0 <= k < |pins[i].uphill| && pins[i].uphill[k].bound && Source(pins[i].uphill[k], i) == j;
    assert !PipBlocked(pins[i].uphill[k].flags, false, CARRY);
  }

  /** In carry mode each logical input depends only on the physical pins of its own half. */
  lemma HalvesStayApart(pins: seq<PinState>, v: seq<bool>, w: seq<bool>, i: nat)
    requires PinsWellFormed(pins) && CarryRouted(pins) && |v| == |w| == |pins| && i < |pins|
    requires forall j: nat :: j < |pins| && j / 2 == i / 2 ==> v[j] == w[j]
    ensures Logical(pins, true, v)[i] == Logical(pins, true, w)[i]
  {
    forall j: nat | j < |pins| && Drives(pins, true, j, i)
      ensures v[j] == w[j]
    {
      if Feeds(pins, j, i) {
        FeedsWithinHalf(pins, j, i);
      }
    }
  }

  /** In carry mode, with the unused physical pins tied to 1, an unrouted pin reads 1. */
  lemma UnroutedCarryPinReadsOne(pins: seq<PinState>, v: seq<bool>, i: nat)
    requires PinsWellFormed(pins) && OneDriver(pins) && CarryRouted(pins) && |v| == |pins| && |pins| % 2 == 0
    requires i < |pins| && !Routed(pins[i]) && !pins[i].wireBound
    requires forall j: nat :: j < |pins| && Unused(pins, j) ==> v[j]
    ensures Logical(pins, true, v)[i]
  {
    var j := UnusedPinInHalf(pins, i);
    assert Drives(pins, true, j, i) && v[j];
  }

  /** A half with an unrouted logical pin has an unused physical pin. */
  lemma UnusedPinInHalf(pins: seq<PinState>, i: nat) returns (j: nat)
    requires PinsWellFormed(pins) && OneDriver(pins) && CarryRouted(pins) && |pins| % 2 == 0
    requires i < |pins| && !Routed(pins[i])
    ensures j < |pins| && j / 2 == i / 2 && Unused(pins, j)
  {
    var other := if i % 2 == 0 then i + 1 else i - 1;
    j := i;
    if !Unused(pins, i) {
      var l: nat :| l < |pins| && Feeds(pins, i, l);
      FeedsWithinHalf(pins, i, l);
      assert l == other;
      j := other;
      forall m: nat | m < |pins|
        ensures !Feeds(pins, other, m)
      {
        if Feeds(pins, other, m) {
          FeedsWithinHalf(pins, other, m);
          SameSource(pins, i, other, m);
        }
      }
    }
  }

  lemma SameSource(pins: seq<PinState>, j: nat, k: nat, i: nat)
    requires OneDriver(pins) && i < |pins| && Feeds(pins, j, i) && Feeds(pins, k, i)
    ensures j == k
  {
    var a :| 0 <= a < |pins[i].uphill| && pins[i].uphill[a].bound && Source(pins[i].uphill[a], i) == j;
    var b :| 0 <= b < |pins[i].uphill| && pins[i].uphill[b].bound && Source(pins[i].uphill[b], i) == k;
    assert a == b;
  }

  // ----- permute_lut -----

  /** phys_to_log from the bound pips. */
  method PhysToLog(pins: seq<PinState>) returns (m: seq<seq<nat>>)
    requires PinsWellFormed(pins)
    ensures |m| == |pins|
    ensures forall j: nat, i: nat :: j < |pins| ==> (i in m[j] <==> i < |pins| && Feeds(pins, j, i))
  {
    m := seq(|pins|, _ => []);
    for i := 0 to |pins|
      invariant |m| == |pins|
      invariant forall j: nat, l: nat :: j < |pins| ==> (l in m[j] <==> l < i && Feeds(pins, j, l))
    {
      for k := 0 to |pins[i].uphill|
        invariant |m| == |pins|
        invariant forall j: nat, l: nat :: j < |pins| ==>
          (l in m[j] <==> (l < i && Feeds(pins, j, l)) || (l == i && FeedsBelow(pins, j, i, k)))
      {
        var pip := pins[i].uphill[k];
        if pip.bound {
          m := Push(m, Source(pip, i), i);
        }
      }
      assert forall j: nat :: j < |pins| ==> FeedsBelow(pins, j, i, |pins[i].uphill|) == Feeds(pins, j, i);
    }
  }

  function Push(m: seq<seq<nat>>, j: nat, i: nat): (r: seq<seq<nat>>)
    requires j < |m|
    ensures |r| == |m| && forall k: nat, l: nat :: k < |m| ==> (l in r[k] <==> l in m[k] || (k == j && l == i))
  {
    m[j := m[j] + [i]]
  }

  predicate FeedsBelow(pins: seq<PinState>, j: nat, i: nat, n: nat)
    requires i < |pins| && n <= |pins[i].uphill|
  {
    exists k :: 0 <= k < n && pins[i].uphill[k].bound && Source(pins[i].uphill[k], i) == j
  }

  /** The dummy entries that keep the two halves of a carry cell apart. */
  method AddCarryDummies(pins: seq<PinState>, m: seq<seq<nat>>) returns (r: seq<seq<nat>>)
    requires |m| == |pins| && |pins| % 2 == 0
    requires forall j: nat, i: nat :: j < |pins| ==> (i in m[j] <==> i < |pins| && Feeds(pins, j, i))
    ensures |r| == |pins|
    ensures forall j: nat, i: nat :: j < |pins| ==> (i in r[j] <==> i < |pins| && Drives(pins, true, j, i))
  {
    r := [];
    for j := 0 to |pins|
      invariant |r| == j
      invariant forall k: nat, i: nat :: k < j ==> (i in r[k] <==> i < |pins| && Drives(pins, true, k, i))
    {
      var entry: seq<nat> := m[j];
      if entry == [] {
        for i := 2 * (j / 2) to 2 * (j / 2 + 1)
          invariant forall l :: l in entry <==> 2 * (j / 2) <= l < i && !pins[l].wireBound
        {
          if !pins[i].wireBound {
            entry := entry + [i];
          }
        }
        assert Unused(pins, j);
      } else {
        assert entry[0] in m[j];
        assert !Unused(pins, j);
      }
      r := r + [entry];
    }
  }

  /** One physical pin of the index: every logical pin it stands for is set. */
  method OrIn(before: nat, pins: seq<nat>) returns (idx: nat)
    ensures forall l: nat :: Bit(idx, l) <==> Bit(before, l) || l in pins
  {
    idx := before;
    for k := 0 to |pins|
      invariant forall l: nat :: Bit(idx, l) <==> Bit(before, l) || l in pins[..k]
    {
      forall l: nat ensures Bit(SetBit(idx, pins[k]), l) <==> l == pins[k] || Bit(idx, l) {
        SetBitBits(idx, pins[k], l);
      }
      hide Bit;
      assert pins[..k + 1] == pins[..k] + [pins[k]];
      idx := SetBit(idx, pins[k]);
    }
    assert pins[..|pins|] == pins;
  }

  /** Bit l of the logical index: one of the first n physical pins that stand for l is high. */
  predicate Asked(m: seq<seq<nat>>, i: nat, n: nat, l: nat)
    requires n <= |m|
  {
    exists j :: 0 <= j < n && Bit(i, j) && l in m[j]
  }

  lemma AskedStep(m: seq<seq<nat>>, i: nat, n: nat, l: nat)
    requires n < |m|
    ensures Asked(m, i, n + 1, l) <==> Asked(m, i, n, l) || (Bit(i, n) && l in m[n])
  {
    hide Bit;
  }

  /** The logical index that table entry i stands for. */
  method LogicalIndex(m: seq<seq<nat>>, i: nat) returns (idx: nat)
    ensures forall l: nat :: Bit(idx, l) <==> Asked(m, i, |m|, l)
  {
    idx := 0;
    forall l: nat ensures !Bit(0, l) { ZeroBits(l); }
    hide Bit;
    for j := 0 to |m|
      invariant forall l: nat :: Bit(idx, l) <==> Asked(m, i, j, l)
    {
      forall l: nat ensures Asked(m, i, j + 1, l) <==> Asked(m, i, j, l) || (Bit(i, j) && l in m[j]) {
        AskedStep(m, i, j, l);
      }
      hide Asked;
      if Bit(i, j) {
        idx := OrIn(idx, m[j]);
      }
    }
  }

  /** permute_lut: the table the chip is given, and the physical pins in use; the others are tied to 1. */
  method PermuteLut(pins: seq<PinState>, carry: bool, origInit: nat) returns (permuted: nat, used: set<nat>)
    requires PinsWellFormed(pins) && (carry ==> |pins| % 2 == 0)
    ensures used == set j: nat | j < |pins| && !Unused(pins, j)
    ensures forall v: seq<bool> :: |v| == |pins| ==> (Bit(permuted, Number(v)) <==> Bit(origInit, Number(Logical(pins, carry, v))))
    ensures forall v: seq<bool>, from: seq<nat> :: |v| == 4 && RoutedFrom(pins, from) ==>
      (Bit(permuted, Number(v)) <==> Bit(origInit, Number([v[from[0]], v[from[1]], v[from[2]], v[from[3]]])))
    ensures permuted < Pow2(Pow2(|pins|))
  {
    forall v: seq<bool>, from: seq<nat> | |v| == 4 && RoutedFrom(pins, from)
      ensures Logical(pins, carry, v) == [v[from[0]], v[from[1]], v[from[2]], v[from[3]]]
    {
      RoutedLut(pins, carry, v, from);
    }
    var m := PhysToLog(pins);
    used := set j | 0 <= j < |pins| && m[j] != [];
    forall j: nat | j < |pins|
      ensures m[j] == [] <==> Unused(pins, j)
    {
      if m[j] != [] { assert m[j][0] in m[j]; }
    }
    if carry {
      m := AddCarryDummies(pins, m);
    }
    permuted := PermuteTable(pins, carry, m, origInit);
  }

  method PermuteTable(ghost pins: seq<PinState>, ghost carry: bool, m: seq<seq<nat>>, origInit: nat) returns (permuted: nat)
    requires |m| == |pins|
    requires forall j: nat, i: nat :: j < |pins| ==> (i in m[j] <==> i < |pins| && Drives(pins, carry, j, i))
    ensures forall v: seq<bool> :: |v| == |pins| ==> (Bit(permuted, Number(v)) <==> Bit(origInit, Number(Logical(pins, carry, v))))
    ensures permuted < Pow2(Pow2(|m|))
  {
    permuted := 0;
    forall l: nat ensures !Bit(0, l) { ZeroBits(l); }
    for i := 0 to Pow2(|m|)
      invariant permuted < Pow2(Pow2(|m|))
      invariant forall k: nat :: k >= i ==> !Bit(permuted, k)
      invariant forall v: seq<bool> :: |v| == |pins| && Number(v) < i ==>
        (Bit(permuted, Number(v)) <==> Bit(origInit, Number(Logical(pins, carry, v))))
    {
      var idx := LogicalIndex(m, i);
      forall v: seq<bool> | |v| == |pins| && Number(v) == i
        ensures idx == Number(Logical(pins, carry, v))
      {
        IndexIsLogical(pins, carry, m, v, i, idx);
      }
      if Bit(origInit, idx) {
        forall k: nat ensures Bit(SetBit(permuted, i), k) <==> k == i || Bit(permuted, k) {
          SetBitBits(permuted, i, k);
        }
        SetBitBound(permuted, i, Pow2(|m|));
        permuted := SetBit(permuted, i);
      }
    }
    forall v: seq<bool> | |v| == |pins|
      ensures Number(v) < Pow2(|m|)
    {
      NumberBound(v);
    }
  }

  lemma IndexIsLogical(pins: seq<PinState>, carry: bool, m: seq<seq<nat>>, v: seq<bool>, i: nat, idx: nat)
    requires |m| == |pins| == |v| && i == Number(v)
    requires forall j: nat, i: nat :: j < |pins| ==> (i in m[j] <==> i < |pins| && Drives(pins, carry, j, i))
    requires forall l: nat :: Bit(idx, l) <==> Asked(m, i, |m|, l)
    ensures idx == Number(Logical(pins, carry, v))
  {
    var logical := Logical(pins, carry, v);
    forall j: nat | j < |m|
      ensures Bit(i, j) == v[j]
    {
      NumberBits(v, j);
    }
    forall l: nat
      ensures Bit(idx, l) <==> l < |logical| && logical[l]
    {
      if l < |logical| && logical[l] {
        var j: nat :| j < |pins| && Drives(pins, carry, j, l) && v[j];
        assert l in m[j];
      }
    }
    NumberFromBits(idx, logical);
  }
}
