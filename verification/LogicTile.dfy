/** Incremental legality checking of one ECP5 logic tile (ecp5/arch_place.cc and ecp5/arch.h).

    A logic tile has eight logic cells, two to a slice.  The tile keeps the bound cells twice:
    by bel index (`boundcells`) and by z-position (`cells`), and it caches the verdict on each slice
    and on the tile-wide control set behind dirty bits.  The first half of this module says what
    a legal tile is, on values; the second half is the tile object with its caches. */
module LogicTile {
  import opened Basics
  import LutInit

  type IdString = nat

  /** The bits of the two flag bytes; a flag byte is the set of its bits. */
  datatype CombFlag = COMB_CARRY | COMB_LUTRAM | COMB_MUX5 | COMB_MUX6 | COMB_RAM_WCKINV | COMB_RAM_WREINV | COMB_RAMW_BLOCK
  datatype FFFlag = FF_CLKINV | FF_CEINV | FF_CECONST | FF_LSRINV | FF_GSREN | FF_ASYNC | FF_M_USED

  /** `muxFxad` holds the flags of the cell driving FXA, when there is one. */
  datatype CombInfo = CombInfo(flags: set<CombFlag>, muxFxad: Option<set<CombFlag>>)
  datatype FFInfo = FFInfo(flags: set<FFFlag>, clkSig: IdString, lsrSig: IdString, ceSig: IdString)

  /** Serdes stands for the DCUA, EXTREFB and PCSCLKDIV cells, Dsp for MULT18X18D and ALU54B. */
  datatype Attrs = Comb(comb: CombInfo) | FF(ff: FFInfo) | Ramw | Serdes | Dsp | OtherCell

  datatype BelKind = CombBel | FFBel | RamwBel | OtherBel
  datatype BelInfo = BelInfo(kind: BelKind, z: nat)

  const NUM_Z := 32
  const RAMW_Z := 18

  function KindOf(a: Attrs): BelKind {
    match a
    case Comb(_) => CombBel
    case FF(_) => FFBel
    case Ramw => RamwBel
    case _ => OtherBel
  }

  /** The low two bits of a z-position: BEL_COMB, BEL_FF, BEL_RAMW. */
  function KindCode(k: BelKind): nat {
    match k
    case CombBel => 0
    case FFBel => 1
    case RamwBel => 2
    case OtherBel => 3
  }

  // ----- What a legal tile is -----

  /** The cells of a tile by logic cell: its LUT, its flip-flop, and the one RAM write port. */
  datatype RawView = View(combs: seq<Option<CombInfo>>, ffs: seq<Option<FFInfo>>, ramw: bool)
  type TileView = v: RawView | |v.combs| == 8 && |v.ffs| == 8
    witness View(seq(8, _ => None), seq(8, _ => None), false)

  predicate FxadIsMux5(c: CombInfo) { c.muxFxad.Some? && COMB_MUX5 in c.muxFxad.value }

  predicate UsesM(c: CombInfo) { COMB_MUX5 in c.flags || COMB_MUX6 in c.flags }

  /** What logic cell l of slice sl must respect. */
  predicate LogicCellLegal(comb: Option<CombInfo>, ff: Option<FFInfo>, ramwUsed: bool, sl: nat, l: nat) {
    comb.Some? ==>
      && (ramwUsed ==> COMB_RAMW_BLOCK in comb.value.flags)
      && (COMB_MUX5 in comb.value.flags ==> l == 0)
      && (COMB_MUX6 in comb.value.flags ==> l == 1)
      && (COMB_MUX6 in comb.value.flags && FxadIsMux5(comb.value) ==> sl == 0 || sl == 2)
      && (COMB_LUTRAM in comb.value.flags ==> sl <= 1)
      && (UsesM(comb.value) && ff.Some? ==> FF_M_USED !in ff.value.flags)
  }

  predicate FFsShareSlice(f: FFInfo, g: FFInfo) {
    && (FF_GSREN in f.flags <==> FF_GSREN in g.flags)
    && (FF_CECONST in f.flags <==> FF_CECONST in g.flags)
    && (FF_CEINV in f.flags <==> FF_CEINV in g.flags)
    && f.ceSig == g.ceSig
  }

  predicate SameCarry(c: CombInfo, d: CombInfo) { COMB_CARRY in c.flags <==> COMB_CARRY in d.flags }

  /** A slice is legal when its two logic cells are and they agree where the hardware shares. */
  predicate SliceLegal(t: TileView, sl: nat)
    requires sl < 4
  {
    var c0, c1, f0, f1 := t.combs[2 * sl], t.combs[2 * sl + 1], t.ffs[2 * sl], t.ffs[2 * sl + 1];
    && LogicCellLegal(c0, f0, sl == 2 && t.ramw, sl, 0)
    && LogicCellLegal(c1, f1, sl == 2 && t.ramw, sl, 1)
    && (c0.Some? && c1.Some? ==> SameCarry(c0.value, c1.value))
    && (f0.Some? && f1.Some? ==> FFsShareSlice(f1.value, f0.value))
  }

  predicate SameSignals(f: FFInfo, g: FFInfo) {
    f.clkSig == g.clkSig && f.lsrSig == g.lsrSig && (FF_ASYNC in f.flags <==> FF_ASYNC in g.flags)
  }

  predicate SameInversions(f: FFInfo, g: FFInfo) {
    (FF_CLKINV in f.flags <==> FF_CLKINV in g.flags) && (FF_LSRINV in f.flags <==> FF_LSRINV in g.flags)
  }

  predicate SameRamInversions(r: CombInfo, s: CombInfo) {
    && (COMB_RAM_WCKINV in r.flags <==> COMB_RAM_WCKINV in s.flags)
    && (COMB_RAM_WREINV in r.flags <==> COMB_RAM_WREINV in s.flags)
  }

  /** The flip-flop f and the LUT RAM r invert the shared clock and set/reset alike. */
  predicate InvertsLike(f: FFInfo, r: CombInfo) {
    && (FF_CLKINV in f.flags <==> COMB_RAM_WCKINV in r.flags)
    && (FF_LSRINV in f.flags <==> COMB_RAM_WREINV in r.flags)
  }

  /** What the tile-wide check looks at: the LUT RAMs of logic cells 0 to 3 and the flip-flops. */
  datatype RawControls = Controls(rams: seq<Option<CombInfo>>, ffs: seq<Option<FFInfo>>)
  type Controls = c: RawControls | |c.rams| == 8 && |c.ffs| == 8 && forall i :: 4 <= i < 8 ==> c.rams[i].None?
    witness Controls(seq(8, _ => None), seq(8, _ => None))

  function RamOf(t: TileView, lc: nat): Option<CombInfo>
    requires lc < 8
  {
    var c := t.combs[lc];
    if lc < 4 && c.Some? && COMB_LUTRAM in c.value.flags then c else None
  }

  function ControlsOf(t: TileView): Controls {
    Controls(seq(8, lc requires 0 <= lc < 8 => RamOf(t, lc)), t.ffs)
  }

  /** A LUT RAM sits at logic cell lc or below it. */
  predicate RamSeen(c: Controls, lc: nat)
    requires lc < 8
  {
    exists r: nat :: r <= lc && c.rams[r].Some?
  }

  predicate RamsAgree(c: Controls, n: nat)
    requires n <= 8
  {
    forall r: nat, s: nat :: r < n && s < n && c.rams[r].Some? && c.rams[s].Some? ==>
      SameRamInversions(c.rams[r].value, c.rams[s].value)
  }

  predicate FFSignalsAgree(c: Controls, n: nat)
    requires n <= 8
  {
    forall f: nat, g: nat :: f < n && g < n && c.ffs[f].Some? && c.ffs[g].Some? ==>
      SameSignals(c.ffs[f].value, c.ffs[g].value)
  }

  /** The flip-flops below the first LUT RAM agree with each other on inversion... */
  predicate EarlyFFsAgree(c: Controls, n: nat)
    requires n <= 8
  {
    forall f: nat, g: nat | f < n && g < n && c.ffs[f].Some? && c.ffs[g].Some? ::
      RamSeen(c, f) || RamSeen(c, g) || SameInversions(c.ffs[f].value, c.ffs[g].value)
  }

  /** ... and the others agree with the LUT RAMs at or below them. */
  predicate LateFFsAgree(c: Controls, n: nat)
    requires n <= 8
  {
    forall f: nat, r: nat :: f < n && r <= f && c.ffs[f].Some? && c.rams[r].Some? ==>
      InvertsLike(c.ffs[f].value, c.rams[r].value)
  }

  /** What the sequential scan over the logic cells accepts, up to cell n. */
  predicate ScanAccepts(c: Controls, n: nat)
    requires n <= 8
  {
    RamsAgree(c, n) && FFSignalsAgree(c, n) && EarlyFFsAgree(c, n) && LateFFsAgree(c, n)
  }

  predicate ControlSetLegal(t: TileView) { ScanAccepts(ControlsOf(t), 8) }

  /** The whole tile, checked from scratch. */
  predicate TileLegal(t: TileView) {
    (forall sl: nat :: sl < 4 ==> SliceLegal(t, sl)) && ControlSetLegal(t)
  }

  // ----- Legality as the hardware sees it -----

  datatype Inversions = Inversions(clkInv: bool, lsrInv: bool)

  /** What a tile has once: a clock, a set/reset, whether that is asynchronous, and how both are inverted.
      The source looks at the inversions of the flip-flops before the first LUT RAM (`early`) apart from those of
      the LUT RAMs and the flip-flops behind (`late`). */
  datatype TileSetting = TileSetting(clk: IdString, lsr: IdString, async: bool, early: Inversions, late: Inversions)

  /** What a slice has once. */
  datatype SliceSetting = SliceSetting(ce: IdString, ceInv: bool, ceConst: bool, gsrEnabled: bool, carry: bool)

  /** There is a LUT RAM in one of the logic cells 0 to 3, at lc or below. */
  predicate LutRamUpTo(t: TileView, lc: nat) {
    exists r: nat :: r <= lc && r < 4 && t.combs[r].Some? && COMB_LUTRAM in t.combs[r].value.flags
  }

  predicate InvertedBy(f: FFInfo, inv: Inversions) {
    (FF_CLKINV in f.flags) == inv.clkInv && (FF_LSRINV in f.flags) == inv.lsrInv
  }

  /** Every flip-flop and LUT RAM asks for this tile setting. */
  predicate TileRunsOn(t: TileView, s: TileSetting) {
    && (forall lc: nat :: lc < 8 && t.ffs[lc].Some? ==>
          && t.ffs[lc].value.clkSig == s.clk
          && t.ffs[lc].value.lsrSig == s.lsr
          && (FF_ASYNC in t.ffs[lc].value.flags) == s.async
          && InvertedBy(t.ffs[lc].value, if LutRamUpTo(t, lc) then s.late else s.early))
    && (forall lc: nat :: lc < 4 && t.combs[lc].Some? && COMB_LUTRAM in t.combs[lc].value.flags ==>
          && (COMB_RAM_WCKINV in t.combs[lc].value.flags) == s.late.clkInv
          && (COMB_RAM_WREINV in t.combs[lc].value.flags) == s.late.lsrInv)
  }

  /** Every flip-flop and LUT of the slice asks for this slice setting. */
  predicate SliceRunsOn(t: TileView, sl: nat, q: SliceSetting) {
    forall lc: nat :: lc < 8 && lc / 2 == sl ==>
      && (t.ffs[lc].Some? ==>
            && t.ffs[lc].value.ceSig == q.ce
            && (FF_CEINV in t.ffs[lc].value.flags) == q.ceInv
            && (FF_CECONST in t.ffs[lc].value.flags) == q.ceConst
            && (FF_GSREN in t.ffs[lc].value.flags) == q.gsrEnabled)
      && (t.combs[lc].Some? ==> (COMB_CARRY in t.combs[lc].value.flags) == q.carry)
  }

  /** What a LUT may do in logic cell lc: MUX5 in the even ones, MUX6 in the odd ones and over a MUX5 in slices 0
      and 2 only, RAM in the lower four, next to a RAM write port in slice 2 nothing but blocking cells; and the M
      input serves either a multiplexer or the flip-flop. */
  predicate LutFits(t: TileView, lc: nat)
    requires lc < 8
  {
    t.combs[lc].Some? ==>
      var flags := t.combs[lc].value.flags;
      && (COMB_MUX5 in flags ==> lc in {0, 2, 4, 6})
      && (COMB_MUX6 in flags ==> lc in {1, 3, 5, 7})
      && (COMB_MUX6 in flags && t.combs[lc].value.muxFxad.Some? && COMB_MUX5 in t.combs[lc].value.muxFxad.value ==> lc in {1, 5})
      && (COMB_LUTRAM in flags ==> lc < 4)
      && (t.ramw && lc in {4, 5} ==> COMB_RAMW_BLOCK in flags)
      && ((COMB_MUX5 in flags || COMB_MUX6 in flags) && t.ffs[lc].Some? ==> FF_M_USED !in t.ffs[lc].value.flags)
  }

  ghost predicate SliceHasSetting(t: TileView, sl: nat) { exists q: SliceSetting :: SliceRunsOn(t, sl, q) }

  ghost predicate TileHasSetting(t: TileView) { exists s: TileSetting :: TileRunsOn(t, s) }

  ghost predicate HardwareLegal(t: TileView) {
    && TileHasSetting(t)
    && (forall sl: nat :: sl < 4 ==> SliceHasSetting(t, sl))
    && (forall lc: nat :: lc < 8 ==> LutFits(t, lc))
  }

  lemma SliceRules(t: TileView, sl: nat)
    requires sl < 4
    ensures SliceLegal(t, sl) <==>
      LutFits(t, 2 * sl) && LutFits(t, 2 * sl + 1) && SliceHasSetting(t, sl)
  {
    SliceParts(t, sl);
    SliceAgrees(t, sl);
    hide LogicCellLegal, LutFits, SameCarry, FFsShareSlice;
  }

  lemma SliceAgrees(t: TileView, sl: nat)
    requires sl < 4
    ensures var c0, c1, f0, f1 := t.combs[2 * sl], t.combs[2 * sl + 1], t.ffs[2 * sl], t.ffs[2 * sl + 1];
      SliceHasSetting(t, sl) <==>
        (c0.Some? && c1.Some? ==> SameCarry(c0.value, c1.value)) && (f0.Some? && f1.Some? ==> FFsShareSlice(f1.value, f0.value))
  {
    var c0, c1, f0, f1 := t.combs[2 * sl], t.combs[2 * sl + 1], t.ffs[2 * sl], t.ffs[2 * sl + 1];
    var q := SettingOf(if c0.Some? then c0 else c1, if f0.Some? then f0 else f1);
    assert forall lc: nat :: lc / 2 == sl <==> lc == 2 * sl || lc == 2 * sl + 1;
    if (c0.Some? && c1.Some? ==> SameCarry(c0.value, c1.value)) && (f0.Some? && f1.Some? ==> FFsShareSlice(f1.value, f0.value)) {
      assert SliceRunsOn(t, sl, q);
    }
  }

  function SettingOf(c: Option<CombInfo>, f: Option<FFInfo>): SliceSetting {
    var ff := if f.Some? then f.value else FFInfo({}, 0, 0, 0);
    SliceSetting(ff.ceSig, FF_CEINV in ff.flags, FF_CECONST in ff.flags, FF_GSREN in ff.flags, c.Some? && COMB_CARRY in c.value.flags)
  }

  lemma SliceParts(t: TileView, sl: nat)
    requires sl < 4
    ensures LogicCellLegal(t.combs[2 * sl], t.ffs[2 * sl], sl == 2 && t.ramw, sl, 0) <==> LutFits(t, 2 * sl)
    ensures LogicCellLegal(t.combs[2 * sl + 1], t.ffs[2 * sl + 1], sl == 2 && t.ramw, sl, 1) <==> LutFits(t, 2 * sl + 1)
  {
  }

  lemma SeenRam(t: TileView, lc: nat)
    requires lc < 8
    ensures RamSeen(ControlsOf(t), lc) <==> LutRamUpTo(t, lc)
  {
    if RamSeen(ControlsOf(t), lc) {
      var r: nat :| r <= lc && ControlsOf(t).rams[r].Some?;
    }
    if LutRamUpTo(t, lc) {
      var r: nat :| r <= lc && r < 4 && t.combs[r].Some? && COMB_LUTRAM in t.combs[r].value.flags;
      assert ControlsOf(t).rams[r].Some?;
    }
  }

  /** A setting read off one flip-flop, one flip-flop before the first LUT RAM, and one LUT RAM. */
  lemma SomeSetting(t: TileView) returns (s: TileSetting)
    requires ControlSetLegal(t)
    ensures TileRunsOn(t, s)
  {
    var c := ControlsOf(t);
    var any, early := FFInfo({}, 0, 0, 0), FFInfo({}, 0, 0, 0);
    var ram := CombInfo({}, None);
    if f: nat :| f < 8 && c.ffs[f].Some? { any := c.ffs[f].value; }
    if f: nat :| f < 8 && c.ffs[f].Some? && !RamSeen(c, f) { early := c.ffs[f].value; }
    if r: nat :| r < 8 && c.rams[r].Some? { ram := c.rams[r].value; }
    s := TileSetting(any.clkSig, any.lsrSig, FF_ASYNC in any.flags,
      Inversions(FF_CLKINV in early.flags, FF_LSRINV in early.flags),
      Inversions(COMB_RAM_WCKINV in ram.flags, COMB_RAM_WREINV in ram.flags));
    forall lc: nat | lc < 8 && t.ffs[lc].Some?
      ensures SameSignals(c.ffs[lc].value, any)
      ensures InvertedBy(t.ffs[lc].value, if LutRamUpTo(t, lc) then s.late else s.early)
    {
      SeenRam(t, lc);
      if RamSeen(c, lc) {
        var r: nat :| r <= lc && c.rams[r].Some?;
        assert InvertsLike(c.ffs[lc].value, c.rams[r].value) && SameRamInversions(c.rams[r].value, ram);
      }
    }
    forall lc: nat | lc < 4 && t.combs[lc].Some? && COMB_LUTRAM in t.combs[lc].value.flags
      ensures SameRamInversions(t.combs[lc].value, ram)
    {
      assert c.rams[lc] == t.combs[lc];
    }
  }

  lemma SettingSuffices(t: TileView, s: TileSetting)
    requires TileRunsOn(t, s)
    ensures ControlSetLegal(t)
  {
    var c := ControlsOf(t);
    forall lc: nat | lc < 8 ensures RamSeen(c, lc) <==> LutRamUpTo(t, lc) { SeenRam(t, lc); }
    assert forall r: nat :: r < 8 && c.rams[r].Some? ==> r < 4 && c.rams[r] == t.combs[r] && COMB_LUTRAM in c.rams[r].value.flags;
    assert RamsAgree(c, 8) && FFSignalsAgree(c, 8);
    hide LutRamUpTo;
    assert EarlyFFsAgree(c, 8) && LateFFsAgree(c, 8);
  }

  /** The order-aware rule of the scan is that one tile setting serves every flip-flop and LUT RAM. */
  lemma ControlSetMeans(t: TileView)
    ensures ControlSetLegal(t) <==> TileHasSetting(t)
  {
    if ControlSetLegal(t) {
      var s := SomeSetting(t);
    } else if TileHasSetting(t) {
      var s: TileSetting :| TileRunsOn(t, s);
      SettingSuffices(t, s);
    }
  }

  /** A tile is legal exactly when one tile setting and one setting per slice serve every bound cell, and every LUT
      may be where it is. */
  lemma LegalMeansSettings(t: TileView)
    ensures TileLegal(t) <==> HardwareLegal(t)
  {
    ControlSetMeans(t);
    forall sl: nat | sl < 4
      ensures SliceLegal(t, sl) <==>
        LutFits(t, 2 * sl) && LutFits(t, 2 * sl + 1) && SliceHasSetting(t, sl)
    {
      SliceRules(t, sl);
    }
    hide SliceLegal, ControlSetLegal, TileHasSetting, SliceHasSetting, LutFits;
    assert (forall sl: nat :: sl < 4 ==> SliceLegal(t, sl)) ==> forall lc: nat :: lc < 8 ==> LutFits(t, lc) by {
      forall lc: nat | lc < 8 && forall sl: nat :: sl < 4 ==> SliceLegal(t, sl) ensures LutFits(t, lc) {
        assert SliceLegal(t, lc / 2) && (lc == 2 * (lc / 2) || lc == 2 * (lc / 2) + 1);
      }
    }
  }

  /** The control-set rule read pairwise: every two cells of the tile agree. */
  predicate PairwiseAgree(c: Controls) {
    && RamsAgree(c, 8)
    && FFSignalsAgree(c, 8)
    && (forall f: nat, g: nat :: f < 8 && g < 8 && c.ffs[f].Some? && c.ffs[g].Some? ==>
          SameInversions(c.ffs[f].value, c.ffs[g].value))
    && (forall f: nat, r: nat :: f < 8 && r < 8 && c.ffs[f].Some? && c.rams[r].Some? ==>
          InvertsLike(c.ffs[f].value, c.rams[r].value))
  }

  /** The comparison the scan does not make: a flip-flop met before the first LUT RAM against it. */
  predicate FirstRamMatchesEarlyFFs(c: Controls) {
    forall f: nat, r: nat :: f < r < 8 && c.ffs[f].Some? && c.rams[r].Some? && !RamSeen(c, r - 1) ==>
      InvertsLike(c.ffs[f].value, c.rams[r].value)
  }

  /** The first LUT RAM at or below cell lc. */
  lemma FirstRam(c: Controls, lc: nat) returns (r: nat)
    requires lc < 8 && RamSeen(c, lc)
    ensures r <= lc && c.rams[r].Some? && (r > 0 ==> !RamSeen(c, r - 1))
  {
    r := 0;
    while c.rams[r].None?
      invariant r <= lc
      invariant forall q: nat :: q < r ==> c.rams[q].None?
      decreases lc - r
    {
      r := r + 1;
    }
  }

  /** For every tile: the pairwise rule holds exactly when the scan accepts and the comparison
      it leaves out would have succeeded too. */
  lemma ScanVersusPairwise(c: Controls)
    ensures PairwiseAgree(c) <==> ScanAccepts(c, 8) && FirstRamMatchesEarlyFFs(c)
  {
    if ScanAccepts(c, 8) && FirstRamMatchesEarlyFFs(c) {
      forall f: nat, r: nat | f < 8 && r < 8 && c.ffs[f].Some? && c.rams[r].Some?
        ensures InvertsLike(c.ffs[f].value, c.rams[r].value)
      {
        if f < r {
          var first := FirstRam(c, r);
          assert InvertsLike(c.ffs[f].value, c.rams[first].value);
          assert SameRamInversions(c.rams[first].value, c.rams[r].value);
        }
      }
      forall f: nat, g: nat | f < 8 && g < 8 && c.ffs[f].Some? && c.ffs[g].Some?
        ensures SameInversions(c.ffs[f].value, c.ffs[g].value)
      {
        if r: nat :| r < 8 && c.rams[r].Some? {
          assert InvertsLike(c.ffs[f].value, c.rams[r].value);
          assert InvertsLike(c.ffs[g].value, c.rams[r].value);
        } else {
          assert !RamSeen(c, f) && !RamSeen(c, g);
        }
      }
    }
  }

  /** When a LUT RAM anywhere implies one in logic cell 0, the scan is exactly the pairwise rule. */
  lemma ScanIsPairwise(c: Controls)
    requires (exists r: nat :: r < 8 && c.rams[r].Some?) ==> c.rams[0].Some?
    ensures ScanAccepts(c, 8) <==> PairwiseAgree(c)
  {
    ScanVersusPairwise(c);
  }

  /** A legal tile whose clock inversions clash: a plain flip-flop in cell 0 and a LUT RAM with an inverted
      write clock in cell 1. */
  lemma ScanMissesEarlyFF() returns (t: TileView)
    ensures TileLegal(t) && !PairwiseAgree(ControlsOf(t))
    ensures t.ffs[0] == Some(FFInfo({}, 1, 2, 3)) && t.combs[1] == Some(CombInfo({COMB_LUTRAM, COMB_RAM_WCKINV}, None))
  {
    var ff, ram := FFInfo({}, 1, 2, 3), CombInfo({COMB_LUTRAM, COMB_RAM_WCKINV}, None);
    t := View(seq(8, i => if i == 1 then Some(ram) else None), seq(8, i => if i == 0 then Some(ff) else None), false);
    var c := ControlsOf(t);
    assert c.rams[1] == Some(ram) && forall r: nat :: r < 8 && c.rams[r].Some? ==> r == 1;
    assert !InvertsLike(c.ffs[0].value, c.rams[1].value);
  }

  // ----- The scans, as the source walks the cells -----

  method ScanSlice(t: TileView, sl: nat) returns (ok: bool)
    requires sl < 4
    ensures ok == SliceLegal(t, sl)
    ensures ok <==> LutFits(t, 2 * sl) && LutFits(t, 2 * sl + 1) && SliceHasSetting(t, sl)
  {
    SliceRules(t, sl);
    hide LutFits, SliceHasSetting;
    var foundFF, lastFF := false, FFInfo({}, 0, 0, 0);
    var ramwUsed := sl == 2 && t.ramw;
    for l := 0 to 2
      invariant l > 0 ==> LogicCellLegal(t.combs[2 * sl], t.ffs[2 * sl], ramwUsed, sl, 0)
      invariant l > 1 ==> SliceLegal(t, sl)
      invariant l == 0 ==> !foundFF
      invariant l == 1 ==> foundFF == t.ffs[2 * sl].Some? && (foundFF ==> lastFF == t.ffs[2 * sl].value)
    {
      var mUsed := false;
      var comb := t.combs[sl * 2 + l];
      if comb.Some? {
        var flags := comb.value.flags;
        if ramwUsed && COMB_RAMW_BLOCK !in flags { return false; }
        if COMB_MUX5 in flags {
          mUsed := true;
          if l != 0 { return false; }
        }
        if COMB_MUX6 in flags {
          mUsed := true;
          if l != 1 { return false; }
          if FxadIsMux5(comb.value) {
            if sl != 0 && sl != 2 { return false; }
          }
        }
        if COMB_LUTRAM in flags && sl > 1 { return false; }
        if l == 1 {
          var comb0 := t.combs[sl * 2];
          if comb0.Some? && (COMB_CARRY in comb0.value.flags) != (COMB_CARRY in flags) { return false; }
        }
      }
      var ff := t.ffs[sl * 2 + l];
      if ff.Some? {
        if mUsed && FF_M_USED in ff.value.flags { return false; }
        if foundFF {
          if !FFsShareSlice(ff.value, lastFF) { return false; }
        } else {
          foundFF, lastFF := true, ff.value;
        }
      }
    }
    return true;
  }

  predicate InversionsAre(f: FFInfo, clkInv: bool, lsrInv: bool) {
    (FF_CLKINV in f.flags <==> clkInv) && (FF_LSRINV in f.flags <==> lsrInv)
  }

  predicate RamInversionsAre(r: CombInfo, clkInv: bool, lsrInv: bool) {
    (COMB_RAM_WCKINV in r.flags <==> clkInv) && (COMB_RAM_WREINV in r.flags <==> lsrInv)
  }

  /** What logic cell i adds to the scan over the cells below it. */
  predicate RamFits(c: Controls, i: nat)
    requires i < 8
  {
    c.rams[i].Some? ==> forall r: nat :: r < i && c.rams[r].Some? ==> SameRamInversions(c.rams[r].value, c.rams[i].value)
  }

  predicate FFFits(c: Controls, i: nat)
    requires i < 8
  {
    c.ffs[i].Some? ==>
      && (forall f: nat :: f < i && c.ffs[f].Some? ==> SameSignals(c.ffs[f].value, c.ffs[i].value))
      && (!RamSeen(c, i) ==> forall f: nat :: f < i && c.ffs[f].Some? ==> SameInversions(c.ffs[f].value, c.ffs[i].value))
      && (forall r: nat :: r <= i && c.rams[r].Some? ==> InvertsLike(c.ffs[i].value, c.rams[r].value))
  }

  lemma ScanOneMore(c: Controls, i: nat)
    requires i < 8
    ensures ScanAccepts(c, i + 1) <==> ScanAccepts(c, i) && RamFits(c, i) && FFFits(c, i)
  {
    assert forall f: nat :: f <= i && RamSeen(c, f) ==> RamSeen(c, i);
  }

  lemma ScanFailsFrom(c: Controls, i: nat)
    requires i < 8 && !(RamFits(c, i) && FFFits(c, i))
    ensures !ScanAccepts(c, 8)
  {
    ScanOneMore(c, i);
  }

  /** What the scan knows of the LUT RAMs below n: whether there is one, and how they all invert. */
  predicate RamsScanned(c: Controls, n: nat, found: bool, some: nat, clkInv: bool, lsrInv: bool)
    requires n <= 8
  {
    && (if found then some < n && c.rams[some].Some? else forall r: nat :: r < n ==> c.rams[r].None?)
    && (forall r: nat :: r < n && c.rams[r].Some? ==> RamInversionsAre(c.rams[r].value, clkInv, lsrInv))
  }

  /** What it knows of the flip-flops below n; how they invert only while no LUT RAM was met. */
  predicate FFsScanned(c: Controls, n: nat, found: bool, some: nat, first: FFInfo, foundRam: bool, clkInv: bool, lsrInv: bool)
    requires n <= 8
  {
    && (if found then some < n && c.ffs[some] == Some(first) else forall f: nat :: f < n ==> c.ffs[f].None?)
    && (forall f: nat :: f < n && c.ffs[f].Some? ==> SameSignals(c.ffs[f].value, first))
    && (!foundRam ==> forall f: nat :: f < n && c.ffs[f].Some? ==> InversionsAre(c.ffs[f].value, clkInv, lsrInv))
  }

  lemma RamScan(c: Controls, i: nat, found: bool, some: nat, clkInv: bool, lsrInv: bool)
    requires i < 8 && RamsScanned(c, i, found, some, clkInv, lsrInv)
    ensures c.rams[i].None? ==> RamFits(c, i) && RamsScanned(c, i + 1, found, some, clkInv, lsrInv)
    ensures c.rams[i].Some? && found ==> (RamInversionsAre(c.rams[i].value, clkInv, lsrInv) <==> RamFits(c, i))
    ensures c.rams[i].Some? && found && RamFits(c, i) ==> RamsScanned(c, i + 1, found, some, clkInv, lsrInv)
    ensures c.rams[i].Some? && !found ==> RamFits(c, i) && RamsScanned(c, i + 1, true, i,
      COMB_RAM_WCKINV in c.rams[i].value.flags, COMB_RAM_WREINV in c.rams[i].value.flags)
  {
    if c.rams[i].Some? && found && !RamInversionsAre(c.rams[i].value, clkInv, lsrInv) {
      assert !SameRamInversions(c.rams[some].value, c.rams[i].value);
    }
  }

  lemma FFScan(c: Controls, i: nat, foundRam: bool, someRam: nat, clkInv: bool, lsrInv: bool,
               found: bool, some: nat, first: FFInfo)
    requires i < 8 && c.ffs[i].Some?
    requires RamsScanned(c, i + 1, foundRam, someRam, clkInv, lsrInv)
    requires FFsScanned(c, i, found, some, first, foundRam, clkInv, lsrInv)
    ensures FFFits(c, i) <==>
      && (foundRam || found ==> InversionsAre(c.ffs[i].value, clkInv, lsrInv))
      && (found ==> SameSignals(c.ffs[i].value, first))
  {
    var ff := c.ffs[i].value;
    assert foundRam <==> RamSeen(c, i);
    if (foundRam || found) && !InversionsAre(ff, clkInv, lsrInv) {
      if foundRam {
        assert !InvertsLike(ff, c.rams[someRam].value);
      } else {
        assert !SameInversions(c.ffs[some].value, ff);
      }
    } else if found && !SameSignals(ff, first) {
      assert !SameSignals(c.ffs[some].value, ff);
    } else {
      forall r: nat | r <= i && c.rams[r].Some? ensures InvertsLike(ff, c.rams[r].value) {
        assert RamInversionsAre(c.rams[r].value, clkInv, lsrInv);
      }
      forall f: nat | f < i && c.ffs[f].Some? ensures SameSignals(c.ffs[f].value, ff) {
        assert SameSignals(c.ffs[f].value, first);
      }
    }
  }

  lemma FFScanned(c: Controls, i: nat, foundRam: bool, clkInv: bool, lsrInv: bool, found: bool, some: nat, first: FFInfo)
    requires i < 8 && FFsScanned(c, i, found, some, first, foundRam, clkInv, lsrInv)
    ensures c.ffs[i].None? ==> FFFits(c, i) && FFsScanned(c, i + 1, found, some, first, foundRam, clkInv, lsrInv)
    ensures c.ffs[i].Some? && !found ==> FFsScanned(c, i + 1, true, i, c.ffs[i].value, foundRam,
      FF_CLKINV in c.ffs[i].value.flags, FF_LSRINV in c.ffs[i].value.flags)
    ensures c.ffs[i].Some? && found && SameSignals(c.ffs[i].value, first) && InversionsAre(c.ffs[i].value, clkInv, lsrInv) ==>
      FFsScanned(c, i + 1, found, some, first, foundRam, clkInv, lsrInv)
  {
  }

  /** Once a LUT RAM is met, how the flip-flops below it invert no longer matters ... */
  lemma InversionsForgotten(c: Controls, i: nat, found: bool, some: nat, first: FFInfo, clkInv: bool, lsrInv: bool)
    requires i < 8 && FFsScanned(c, i, found, some, first, false, clkInv, lsrInv)
    ensures forall ci: bool, li: bool :: FFsScanned(c, i, found, some, first, true, ci, li)
  {
  }

  /** ... and before, LUT RAMs say nothing. */
  lemma NoRamsInvert(c: Controls, n: nat, some: nat, clkInv: bool, lsrInv: bool)
    requires n <= 8 && RamsScanned(c, n, false, some, clkInv, lsrInv)
    ensures forall ci: bool, li: bool :: RamsScanned(c, n, false, some, ci, li)
  {
  }

  method ScanControlSet(c: Controls) returns (ok: bool)
    ensures ok == ScanAccepts(c, 8)
  {
    var foundFF, foundRam, lsrInv, clkInv := false, false, false, false;
    var first := FFInfo({}, 0, 0, 0);
    ghost var someFF, someRam := 0, 0;
    assert ScanAccepts(c, 0) && RamsScanned(c, 0, foundRam, someRam, clkInv, lsrInv);
    assert FFsScanned(c, 0, foundFF, someFF, first, foundRam, clkInv, lsrInv);
    for i := 0 to 8
      invariant ScanAccepts(c, i) && RamsScanned(c, i, foundRam, someRam, clkInv, lsrInv)
      invariant FFsScanned(c, i, foundFF, someFF, first, foundRam, clkInv, lsrInv)
    {
      hide ScanAccepts, RamsScanned, FFsScanned, RamFits, FFFits, SameSignals;
      ScanOneMore(c, i);
      var ram, ff := c.rams[i], c.ffs[i];
      RamScan(c, i, foundRam, someRam, clkInv, lsrInv);
      if i < 4 && ram.Some? {
        if foundRam {
          if !RamInversionsAre(ram.value, clkInv, lsrInv) {
            ScanFailsFrom(c, i);
            return false;
          }
        } else {
          InversionsForgotten(c, i, foundFF, someFF, first, clkInv, lsrInv);
          clkInv, lsrInv := COMB_RAM_WCKINV in ram.value.flags, COMB_RAM_WREINV in ram.value.flags;
          foundRam, someRam := true, i;
        }
      }
      FFScanned(c, i, foundRam, clkInv, lsrInv, foundFF, someFF, first);
      if ff.Some? {
        FFScan(c, i, foundRam, someRam, clkInv, lsrInv, foundFF, someFF, first);
        if foundRam && !InversionsAre(ff.value, clkInv, lsrInv) {
          ScanFailsFrom(c, i);
          return false;
        }
        if foundFF {
          if !SameSignals(ff.value, first) || !InversionsAre(ff.value, clkInv, lsrInv) {
            ScanFailsFrom(c, i);
            return false;
          }
        } else {
          if !foundRam { NoRamsInvert(c, i + 1, someRam, clkInv, lsrInv); }
          first, someFF, foundFF := ff.value, i, true;
          clkInv, lsrInv := FF_CLKINV in ff.value.flags, FF_LSRINV in ff.value.flags;
        }
      }
    }
    return true;
  }

  // ----- The tile object and its caches -----

  /** A placed-netlist cell.  Its flags do not change while it is bound. */
  class LogicCell {
    const attrs: Attrs
    var bel: Option<nat>
    var belStrength: nat

    constructor (attrs: Attrs)
      ensures this.attrs == attrs && bel == None && belStrength == 0
    {
      this.attrs := attrs;
      bel, belStrength := None, 0;
    }
  }

  datatype SliceStatus = SliceStatus(valid: bool, dirty: bool)

  function CombOf(c: LogicCell?): Option<CombInfo> {
    if c != null && c.attrs.Comb? then Some(c.attrs.comb) else None
  }

  function FFOf(c: LogicCell?): Option<FFInfo> {
    if c != null && c.attrs.FF? then Some(c.attrs.ff) else None
  }

  /** The tile as the checks see it, from the table by z-position. */
  function ViewOf(cells: seq<LogicCell?>): TileView
    requires |cells| == NUM_Z
  {
    View(seq(8, lc requires 0 <= lc < 8 => CombOf(cells[4 * lc])),
         seq(8, lc requires 0 <= lc < 8 => FFOf(cells[4 * lc + 1])),
         cells[RAMW_Z] != null)
  }

  /** Whether a cell matters to the tile-wide check. */
  predicate TouchesControlSet(c: LogicCell?) {
    c != null && (c.attrs.FF? || (c.attrs.Comb? && COMB_LUTRAM in c.attrs.comb.flags))
  }

  /** A change at z can only upset slice z/8, and the control set only through a flip-flop or LUT RAM. */
  lemma ChangeIsLocal(cells: seq<LogicCell?>, z: nat, c: LogicCell?)
    requires |cells| == NUM_Z && z < NUM_Z
    ensures forall sl: nat :: sl < 4 && sl != z / 8 ==>
      SliceLegal(ViewOf(cells), sl) == SliceLegal(ViewOf(cells[z := c]), sl)
    ensures !TouchesControlSet(cells[z]) && !TouchesControlSet(c) ==>
      ControlSetLegal(ViewOf(cells)) == ControlSetLegal(ViewOf(cells[z := c]))
  {
    var t, u := ViewOf(cells), ViewOf(cells[z := c]);
    ElsewhereSame(cells, z, c);
    hide ViewOf;
    forall sl: nat | sl < 4 && sl != z / 8
      ensures SliceLegal(t, sl) == SliceLegal(u, sl)
    {
      SliceOnly(t, u, sl);
    }
    if !TouchesControlSet(cells[z]) && !TouchesControlSet(c) {
      assert ControlsOf(t) == ControlsOf(u);
    }
  }

  lemma ElsewhereSame(cells: seq<LogicCell?>, z: nat, c: LogicCell?)
    requires |cells| == NUM_Z && z < NUM_Z
    ensures var t, u := ViewOf(cells), ViewOf(cells[z := c]);
      && (forall lc: nat :: lc < 8 && lc / 2 != z / 8 ==> t.combs[lc] == u.combs[lc] && t.ffs[lc] == u.ffs[lc])
      && (z / 8 != 2 ==> t.ramw == u.ramw)
      && (!TouchesControlSet(cells[z]) && !TouchesControlSet(c) ==>
            t.ffs == u.ffs && forall lc: nat :: lc < 8 ==> RamOf(t, lc) == RamOf(u, lc))
  {
  }

  lemma SliceOnly(t: TileView, u: TileView, sl: nat)
    requires sl < 4 && (sl == 2 ==> t.ramw == u.ramw)
    requires forall lc: nat :: lc < 8 && lc / 2 == sl ==> t.combs[lc] == u.combs[lc] && t.ffs[lc] == u.ffs[lc]
    ensures SliceLegal(t, sl) == SliceLegal(u, sl)
  {
    hide LogicCellLegal;
    assert t.combs[2 * sl] == u.combs[2 * sl] && t.combs[2 * sl + 1] == u.combs[2 * sl + 1];
    assert t.ffs[2 * sl] == u.ffs[2 * sl] && t.ffs[2 * sl + 1] == u.ffs[2 * sl + 1];
  }

  /** Every clean cache entry is the verdict of a fresh check. */
  predicate CachesCoherent(t: TileView, slices: seq<SliceStatus>, tileValid: bool, tileDirty: bool)
    requires |slices| == 4
  {
    && (forall sl: nat :: sl < 4 && !slices[sl].dirty ==> slices[sl].valid == SliceLegal(t, sl))
    && (!tileDirty ==> tileValid == ControlSetLegal(t))
  }

  /** Marking the slice of the change, and the control set when it may be upset, keeps the caches coherent. */
  lemma MarkedIsCoherent(cells: seq<LogicCell?>, z: nat, c: LogicCell?, slices: seq<SliceStatus>, marked: seq<SliceStatus>,
                         tileValid: bool, wasDirty: bool, tileDirty: bool)
    requires |cells| == NUM_Z && z < NUM_Z && |slices| == 4
    requires CachesCoherent(ViewOf(cells), slices, tileValid, wasDirty)
    requires marked == slices[z / 8 := slices[z / 8].(dirty := true)]
    requires tileDirty == (wasDirty || TouchesControlSet(cells[z]) || TouchesControlSet(c))
    ensures CachesCoherent(ViewOf(cells[z := c]), marked, tileValid, tileDirty)
  {
    hide SliceLegal, ControlSetLegal, ViewOf, TouchesControlSet;
    ChangeIsLocal(cells, z, c);
  }

  /** The database facts of a logic tile's bels: the z-position of a logic bel names its kind
      and no two logic bels share one. */
  predicate LogicBels(bels: seq<BelInfo>) {
    && (forall b: nat :: b < |bels| && bels[b].kind != OtherBel ==>
          bels[b].z < NUM_Z && bels[b].z % 4 == KindCode(bels[b].kind))
    && (forall b: nat, c: nat | b < |bels| && c < |bels| && bels[b].kind != OtherBel && bels[c].kind != OtherBel ::
          bels[b].z == bels[c].z ==> b == c)
  }

  /** The two tables agree: `cells` shows, at the z-position of every logic bel, what is bound there. */
  predicate TablesAgree(bels: seq<BelInfo>, bound: seq<LogicCell?>, cells: seq<LogicCell?>) {
    && LogicBels(bels) && |bound| == |bels| && |cells| == NUM_Z
    && (forall b: nat :: b < |bels| && bound[b] != null ==> KindOf(bound[b].attrs) == bels[b].kind)
    && (forall b: nat :: b < |bels| && bels[b].kind != OtherBel ==> cells[bels[b].z] == bound[b])
    && (forall z: nat :: z < NUM_Z && cells[z] != null ==>
          exists b: nat :: b < |bels| && bels[b].kind != OtherBel && bels[b].z == z)
  }

  /** What is bound at z-position z. */
  ghost function CellAt(bels: seq<BelInfo>, bound: seq<LogicCell?>, z: nat): LogicCell?
    requires |bound| == |bels|
  {
    if b: nat :| b < |bels| && bels[b].kind != OtherBel && bels[b].z == z then bound[b] else null
  }

  /** The tile by its bels: LUT lc at z-position 4 * lc, flip-flop lc at 4 * lc + 1, the RAM write port at 18. */
  ghost function BoundView(bels: seq<BelInfo>, bound: seq<LogicCell?>): TileView
    requires |bound| == |bels|
  {
    View(seq(8, lc requires 0 <= lc < 8 => CombOf(CellAt(bels, bound, 4 * lc))),
         seq(8, lc requires 0 <= lc < 8 => FFOf(CellAt(bels, bound, 4 * lc + 1))),
         CellAt(bels, bound, 18) != null)
  }

  lemma ViewIsBound(bels: seq<BelInfo>, bound: seq<LogicCell?>, cells: seq<LogicCell?>)
    requires TablesAgree(bels, bound, cells)
    ensures BoundView(bels, bound) == ViewOf(cells)
  {
    forall z: nat | z < NUM_Z ensures CellAt(bels, bound, z) == cells[z] {}
    hide CellAt, TablesAgree;
    var t, u := BoundView(bels, bound), ViewOf(cells);
    assert t.combs == u.combs && t.ffs == u.ffs;
  }

  lemma BoundLegal(bels: seq<BelInfo>, bound: seq<LogicCell?>, cells: seq<LogicCell?>)
    requires TablesAgree(bels, bound, cells)
    ensures TileLegal(ViewOf(cells)) <==> HardwareLegal(BoundView(bels, bound))
  {
    hide ViewOf, BoundView, TileLegal, HardwareLegal;
    ViewIsBound(bels, bound, cells);
    LegalMeansSettings(ViewOf(cells));
  }

  /** Which pin permutations the router may use around a LUT with these flags. */
  function RuleFor(flags: set<CombFlag>): LutInit.LutPermRule {
    if COMB_LUTRAM in flags || COMB_RAMW_BLOCK in flags then LutInit.NONE
    else if COMB_CARRY in flags then LutInit.CARRY
    else LutInit.ALL
  }

  /** Around a LUT used as RAM or blocked by one nothing is permuted; around a carry only A with B and C with D. */
  lemma RuleForMeans(flags: set<CombFlag>, lut: nat, o: nat, j: nat)
    requires lut < 8 && o < 4 && j < 4
    ensures LutInit.PipBlocked(0x4000 + 16 * lut + 4 * o + j, false, RuleFor(flags)) <==>
      COMB_LUTRAM in flags || COMB_RAMW_BLOCK in flags || (COMB_CARRY in flags && (o < 2) != (j < 2))
  {
    LutInit.RuleMeans(lut, o, j, RuleFor(flags));
  }

  class Tile {
    const bels: seq<BelInfo>
    const boundcells: array<LogicCell?>
    const slices: array<SliceStatus>
    const cells: array<LogicCell?>
    const lutpermAllowed: array<LutInit.LutPermRule>
    var tileValid: bool
    var tileDirty: bool

    ghost predicate Valid()
      reads this, boundcells, cells, slices
    {
      && slices.Length == 4 && lutpermAllowed.Length == 4 && boundcells != cells
      && TablesAgree(bels, boundcells[..], cells[..])
      && CachesCoherent(Bound(), slices[..], tileValid, tileDirty)
    }

    /** The currently bound cells. */
    function Bound(): TileView
      requires cells.Length == NUM_Z
      reads cells
    {
      ViewOf(cells[..])
    }

    constructor (bels: seq<BelInfo>)
      requires LogicBels(bels)
      ensures Valid() && fresh(boundcells) && fresh(cells) && fresh(slices) && fresh(lutpermAllowed)
      ensures this.bels == bels && forall b :: 0 <= b < |bels| ==> boundcells[b] == null
    {
      this.bels := bels;
      boundcells := new LogicCell?[|bels|](_ => null);
      slices := new SliceStatus[4](_ => SliceStatus(true, true));
      cells := new LogicCell?[NUM_Z](_ => null);
      lutpermAllowed := new LutInit.LutPermRule[4](_ => LutInit.NONE);
      tileValid, tileDirty := true, true;
    }

    /** What the cell that comes or goes at z may upset is rechecked the next time. */
    method MarkDirty(z: nat, act: LogicCell)
      requires z < NUM_Z && slices.Length == 4
      modifies this`tileDirty, slices
      ensures slices[..] == old(slices[..])[z / 8 := old(slices[z / 8]).(dirty := true)]
      ensures tileDirty == (old(tileDirty) || TouchesControlSet(act))
    {
      slices[z / 4 / 2] := slices[z / 4 / 2].(dirty := true);
      if act.attrs.FF? {
        tileDirty := true;
      }
      if act.attrs.Comb? && COMB_LUTRAM in act.attrs.comb.flags {
        tileDirty := true;
      }
    }

    /** Bookkeeping for the cell that comes or goes at `bel`. */
    method UpdateBel(bel: nat, oldCell: LogicCell?, newCell: LogicCell?)
      requires bel < |bels| && slices.Length == 4 && cells.Length == NUM_Z && LogicBels(bels)
      requires (oldCell == null) != (newCell == null)
      requires KindOf((if oldCell == null then newCell else oldCell).attrs) == bels[bel].kind
      requires bels[bel].kind != OtherBel ==> cells[bels[bel].z] == oldCell
      requires CachesCoherent(Bound(), slices[..], tileValid, tileDirty)
      modifies this`tileDirty, cells, slices
      ensures CachesCoherent(Bound(), slices[..], tileValid, tileDirty)
      ensures cells[..] == if bels[bel].kind == OtherBel then old(cells[..]) else old(cells[..])[bels[bel].z := newCell]
    {
      var act := if oldCell == null then newCell else oldCell;
      if KindOf(act.attrs) == OtherBel { return; }
      hide CachesCoherent, ViewOf;
      var z := bels[bel].z;
      ghost var before, was, wasDirty := cells[..], slices[..], tileDirty;
      MarkDirty(z, act);
      cells[z] := newCell;
      assert cells[..] == before[z := newCell];
      MarkedIsCoherent(before, z, newCell, was, slices[..], tileValid, wasDirty, tileDirty);
    }

    method BindBel(bel: nat, cell: LogicCell, strength: nat)
      requires Valid() && bel < |bels| && boundcells[bel] == null
      requires KindOf(cell.attrs) == bels[bel].kind
      modifies this`tileDirty, cells, slices, boundcells, lutpermAllowed, cell
      ensures Valid()
      ensures lutpermAllowed[..] == if bels[bel].kind == CombBel
        then old(lutpermAllowed[..])[bels[bel].z / 4 / 2 := RuleFor(cell.attrs.comb.flags)] else old(lutpermAllowed[..])
      ensures boundcells[..] == old(boundcells[..])[bel := cell]
      ensures cell.bel == Some(bel) && cell.belStrength == strength
    {
      boundcells[bel] := cell;
      cell.bel := Some(bel);
      cell.belStrength := strength;
      if bels[bel].kind == CombBel {
        lutpermAllowed[bels[bel].z / 4 / 2] := RuleFor(cell.attrs.comb.flags);
      }
      UpdateBel(bel, null, cell);
    }

    method UnbindBel(bel: nat)
      requires Valid() && bel < |bels| && boundcells[bel] != null
      modifies this`tileDirty, cells, slices, boundcells, boundcells[bel]
      ensures Valid()
      ensures boundcells[..] == old(boundcells[..])[bel := null]
      ensures old(boundcells[bel]).bel == None && old(boundcells[bel]).belStrength == 0
    {
      var cell := boundcells[bel];
      UpdateBel(bel, cell, null);
      cell.bel := None;
      cell.belStrength := 0;
      boundcells[bel] := null;
    }

    /** One turn of the slice loop: recheck slice sl and cache the verdict. */
    method CheckSlice(sl: nat) returns (ok: bool)
      requires Valid() && sl < 4 && slices[sl].dirty
      modifies slices
      ensures Valid() && ok == SliceLegal(Bound(), sl)
      ensures slices[..] == old(slices[..])[sl := SliceStatus(ok, false)]
    {
      slices[sl] := SliceStatus(false, false);
      ok := ScanSlice(Bound(), sl);
      if ok {
        slices[sl] := slices[sl].(valid := true);
      }
    }

    /** The tile-wide control-set scan: recheck and cache the verdict. */
    method CheckControlSet() returns (ok: bool)
      requires Valid() && tileDirty
      modifies this`tileValid, this`tileDirty
      ensures Valid() && ok == ControlSetLegal(Bound()) == TileHasSetting(Bound())
      ensures !tileDirty && tileValid == ok
    {
      ControlSetMeans(Bound());
      hide TileHasSetting;
      tileDirty, tileValid := false, false;
      ok := ScanControlSet(ControlsOf(Bound()));
      if ok {
        tileValid := true;
      }
    }

    /** The verdict on slice sl, from the cache when it is clean. */
    method SliceVerdict(sl: nat) returns (ok: bool)
      requires Valid() && sl < 4
      modifies slices
      ensures Valid() && ok == SliceLegal(Bound(), sl)
      ensures !slices[sl].dirty && slices[sl].valid == ok
    {
      if !slices[sl].dirty {
        ok := slices[sl].valid;
      } else {
        ok := CheckSlice(sl);
      }
    }

    /** The verdict on the control set, from the cache when it is clean. */
    method ControlSetVerdict() returns (ok: bool)
      requires Valid()
      modifies this`tileValid, this`tileDirty
      ensures Valid() && ok == ControlSetLegal(Bound())
      ensures !tileDirty && tileValid == ok
    {
      if tileDirty {
        ok := CheckControlSet();
      } else {
        ok := tileValid;
      }
    }

    /** The slice loop. */
    method SliceVerdicts() returns (ok: bool)
      requires Valid()
      modifies slices
      ensures Valid() && (ok <==> forall sl: nat :: sl < 4 ==> SliceLegal(Bound(), sl))
    {
      hide SliceLegal, ControlSetLegal, ViewOf, CachesCoherent;
      for sl := 0 to 4
        invariant Valid() && cells.Length == NUM_Z
        invariant forall k: nat :: k < sl ==> SliceLegal(Bound(), k)
      {
        ok := SliceVerdict(sl);
        if !ok { return; }
      }
      return true;
    }

    /** The incremental check: whatever the caches held, the answer is that one tile setting and one setting per
        slice serve every cell bound now, so asking again without a change gives it again. */
    method SlicesCompatible() returns (ok: bool)
      requires Valid()
      modifies this`tileValid, this`tileDirty, slices
      ensures Valid() && ok == TileLegal(Bound())
      ensures ok <==> HardwareLegal(BoundView(bels, boundcells[..]))
    {
      hide SliceLegal, ControlSetLegal, ViewOf, CachesCoherent, HardwareLegal, BoundView, TablesAgree;
      BoundLegal(bels, boundcells[..], cells[..]);
      ok := SliceVerdicts();
      if ok {
        ok := ControlSetVerdict();
      }
    }

    /** The placer's question about a bel.  `dspVerdict` is the answer of is_dsp_location_valid for the cell
        bound there, which DspRemap models. */
    method IsBelLocationValid(bel: nat, part: Part, dspVerdict: bool) returns (ok: bool)
      requires Valid() && bel < |bels|
      modifies this`tileValid, this`tileDirty, slices
      ensures Valid()
      ensures bels[bel].kind != OtherBel ==> (ok <==> HardwareLegal(BoundView(bels, boundcells[..])))
      ensures bels[bel].kind == OtherBel ==> (!ok <==>
        && boundcells[bel] != null
        && ((boundcells[bel].attrs.Serdes? && part in {LFE5U_25F, LFE5U_45F, LFE5U_85F}) || (boundcells[bel].attrs.Dsp? && !dspVerdict)))
    {
      if bels[bel].kind != OtherBel {
        ok := SlicesCompatible();
      } else {
        var cell := boundcells[bel];
        if cell == null {
          ok := true;
        } else if cell.attrs.Serdes? {
          ok := part != LFE5U_25F && part != LFE5U_45F && part != LFE5U_85F;
        } else if cell.attrs.Dsp? {
          ok := dspVerdict;
        } else {
          ok := true;
        }
      }
    }
  }
}
