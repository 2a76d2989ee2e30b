/** A JTAG chain behind an FTDI MPSSE: the TAP controller of IEEE Std 1149.1-2001, section 6.1, clocked by
    the commands of FTDI AN_108, sections 3.4 and 3.5. */
module Mpsse {
  import opened Basics
  import opened Bits

  // ----- The TAP controller -----

  datatype Tap = TestLogicReset | RunTestIdle
    | SelectDR | CaptureDR | ShiftDR | Exit1DR | PauseDR | Exit2DR | UpdateDR
    | SelectIR | CaptureIR | ShiftIR | Exit1IR | PauseIR | Exit2IR | UpdateIR

  function NextTap(s: Tap, tms: bool): Tap {
    match s
    case TestLogicReset => if tms then TestLogicReset else RunTestIdle
    case RunTestIdle => if tms then SelectDR else RunTestIdle
    case SelectDR => if tms then SelectIR else CaptureDR
    case CaptureDR => if tms then Exit1DR else ShiftDR
    case ShiftDR => if tms then Exit1DR else ShiftDR
    case Exit1DR => if tms then UpdateDR else PauseDR
    case PauseDR => if tms then Exit2DR else PauseDR
    case Exit2DR => if tms then UpdateDR else ShiftDR
    case UpdateDR => if tms then SelectDR else RunTestIdle
    case SelectIR => if tms then TestLogicReset else CaptureIR
    case CaptureIR => if tms then Exit1IR else ShiftIR
    case ShiftIR => if tms then Exit1IR else ShiftIR
    case Exit1IR => if tms then UpdateIR else PauseIR
    case PauseIR => if tms then Exit2IR else PauseIR
    case Exit2IR => if tms then UpdateIR else ShiftIR
    case UpdateIR => if tms then SelectDR else RunTestIdle
  }

  /** Under TMS low five states hold, under TMS high only Test-Logic-Reset. */
  lemma HoldingStates(s: Tap)
    ensures NextTap(s, false) == s <==> s in {RunTestIdle, ShiftDR, PauseDR, ShiftIR, PauseIR}
    ensures NextTap(s, true) == s <==> s == TestLogicReset
  {
  }

  /** The instruction column of the state diagram. */
  function Mirror(s: Tap): Tap {
    match s
    case CaptureDR => CaptureIR
    case ShiftDR => ShiftIR
    case Exit1DR => Exit1IR
    case PauseDR => PauseIR
    case Exit2DR => Exit2IR
    case UpdateDR => UpdateIR
    case _ => s
  }

  /** The two columns are alike: from a data state and its mirror, the same TMS leads to mirrored states. */
  lemma ColumnsAlike(s: Tap, tms: bool)
    ensures s.SelectDR? ==> NextTap(SelectIR, false) == Mirror(NextTap(s, false))
    ensures Mirror(s) != s ==> NextTap(Mirror(s), tms) == Mirror(NextTap(s, tms))
  {
  }

  /** What the chain has been told: the bits are in the order they were shifted in. */
  datatype Event = Reset | LoadIR(bits: seq<bool>) | LoadDR(bits: seq<bool>) | IdleClock

  /** `shifted` holds the bits taken in since the last capture, `ir` the instruction in force, `reply` the
      bytes the MPSSE has read back, `registers` what the data register of each instruction captures. */
  datatype Device = Device(tap: Tap, tms: bool, shifted: seq<bool>, ir: seq<bool>, log: seq<Event>,
                           reply: seq<Byte>, registers: map<seq<bool>, seq<bool>>)

  function Entering(d: Device, next: Tap, shifted: seq<bool>): Option<Event> {
    if next == UpdateIR then Some(LoadIR(shifted))
    else if next == UpdateDR then Some(LoadDR(shifted))
    else if next == TestLogicReset && d.tap != TestLogicReset then Some(Reset)
    else if next == RunTestIdle && d.tap == RunTestIdle then Some(IdleClock)
    else None
  }

  /** One rising edge of TCK. */
  function Clock(d: Device, tms: bool, tdi: bool): Device {
    var next := NextTap(d.tap, tms);
    var shifted :=
      if d.tap == CaptureDR || d.tap == CaptureIR then []
      else if d.tap == ShiftDR || d.tap == ShiftIR then d.shifted + [tdi]
      else d.shifted;
    var event := Entering(d, next, shifted);
    d.(tap := next, tms := tms, shifted := shifted, log := if event == None then d.log else d.log + [event.value],
       ir := if next == UpdateIR then shifted else if next == TestLogicReset then [] else d.ir)
  }

  function Selected(d: Device): seq<bool> { if d.ir in d.registers then d.registers[d.ir] else [] }

  /** The bit on TDO: first what the register captured, then what was shifted in. */
  function Tdo(d: Device): bool {
    var n, r := |d.shifted|, Selected(d);
    if n < |r| then r[n] else n - |r| < n && d.shifted[n - |r|]
  }

  datatype Edge = Edge(tms: bool, tdi: bool)

  function Clocks(d: Device, edges: seq<Edge>): Device
    decreases |edges|
  {
    if edges == [] then d else Clocks(Clock(d, edges[0].tms, edges[0].tdi), edges[1..])
  }

  /** The bits on TDO over the edges. */
  function Reading(d: Device, edges: seq<Edge>): seq<bool>
    decreases |edges|
  {
    if edges == [] then [] else [Tdo(d)] + Reading(Clock(d, edges[0].tms, edges[0].tdi), edges[1..])
  }

  // ----- Bit order -----

  /** The bits of the bytes, each byte's least significant bit first. */
  function LsbFirst(bytes: seq<Byte>): (v: seq<bool>)
    ensures |v| == 8 * |bytes|
  {
    if bytes == [] then [] else BitString(bytes[0], 8) + LsbFirst(bytes[1..])
  }

  function Reversed(v: seq<bool>): (r: seq<bool>)
    ensures |r| == |v|
  {
    seq(|v|, k requires 0 <= k < |v| => v[|v| - 1 - k])
  }

  function MsbFirst(bytes: seq<Byte>): (v: seq<bool>)
    ensures |v| == 8 * |bytes|
  {
    if bytes == [] then [] else Reversed(BitString(bytes[0], 8)) + MsbFirst(bytes[1..])
  }

  /** Bits packed into bytes, the first bit least significant. */
  function Pack(v: seq<bool>): (p: seq<Byte>) {
    if |v| < 8 then []
    else
      NumberBound(v[..8]);
      assert Pow2(8) == 256;
      [Number(v[..8])] + Pack(v[8..])
  }

  // ----- The MPSSE commands -----

  function TmsEdges(b: Byte, n: nat): seq<Edge> {
    seq(n, k requires 0 <= k < n => Edge(Bit(b, k), Bit(b, 7)))
  }

  /** While data is shifted TMS stays where it was. */
  function DataEdges(tms: bool, v: seq<bool>): (e: seq<Edge>)
    ensures |e| == |v|
  {
    seq(|v|, k requires 0 <= k < |v| => Edge(tms, v[k]))
  }

  const CLOCK_TMS: Byte := 0x4A
  const CLOCK_BITS_OUT: Byte := 0x1B
  const CLOCK_BYTES_OUT: Byte := 0x19
  const CLOCK_BYTES_IN_OUT: Byte := 0x39
  const SEND_IMMEDIATE: Byte := 0x87

  function ShiftBytes(d: Device, bytes: seq<Byte>, read: bool): Device {
    var edges := DataEdges(d.tms, LsbFirst(bytes));
    var after := Clocks(d, edges);
    if read then after.(reply := after.reply + Pack(Reading(d, edges))) else after
  }

  /** What a buffer of commands does; None when it is cut short or holds something else. */
  function Run(d: Device, c: seq<Byte>): Option<Device>
    decreases |c|
  {
    if c == [] then Some(d)
    else if c[0] == SEND_IMMEDIATE then Run(d, c[1..])
    else if |c| < 3 then None
    else if c[0] == CLOCK_TMS then
      if c[1] > 6 then None else Run(Clocks(d, TmsEdges(c[2], c[1] + 1)), c[3..])
    else if c[0] == CLOCK_BITS_OUT then
      if c[1] > 7 then None else Run(Clocks(d, DataEdges(d.tms, BitString(c[2], c[1] + 1))), c[3..])
    else if c[0] == CLOCK_BYTES_OUT || c[0] == CLOCK_BYTES_IN_OUT then
      var n: int := c[1] as int + 256 * c[2] as int + 1;
      if |c| < 3 + n then None
      else Run(ShiftBytes(d, c[3..3 + n], c[0] == CLOCK_BYTES_IN_OUT), c[3 + n..])
    else None
  }

  // ----- Running buffers that are built from commands -----

  lemma TmsHead(d: Device, c: seq<Byte>)
    requires |c| >= 3 && c[0] == CLOCK_TMS && c[1] <= 6
    ensures Run(d, c) == Run(Clocks(d, TmsEdges(c[2], c[1] + 1)), c[3..])
  {
    hide Clocks, TmsEdges;
  }

  lemma BitsHead(d: Device, c: seq<Byte>)
    requires |c| >= 3 && c[0] == CLOCK_BITS_OUT && c[1] <= 7
    ensures Run(d, c) == Run(Clocks(d, DataEdges(d.tms, BitString(c[2], c[1] + 1))), c[3..])
  {
    hide Clocks, DataEdges, BitString;
  }

  lemma RunTms(d: Device, n: Byte, b: Byte, rest: seq<Byte>)
    requires n <= 6
    ensures Run(d, [CLOCK_TMS, n, b] + rest) == Run(Clocks(d, TmsEdges(b, n + 1)), rest)
  {
    hide Run, Clocks, TmsEdges;
    var c := [CLOCK_TMS, n, b] + rest;
    TmsHead(d, c);
    assert c[3..] == rest;
  }

  lemma RunBits(d: Device, n: Byte, b: Byte, rest: seq<Byte>)
    requires n <= 7
    ensures Run(d, [CLOCK_BITS_OUT, n, b] + rest) == Run(Clocks(d, DataEdges(d.tms, BitString(b, n + 1))), rest)
  {
    hide Run, Clocks, DataEdges, BitString;
    var c := [CLOCK_BITS_OUT, n, b] + rest;
    BitsHead(d, c);
    assert c[3..] == rest;
  }

  lemma RunBytes(d: Device, op: Byte, bytes: seq<Byte>, rest: seq<Byte>)
    requires (op == CLOCK_BYTES_OUT || op == CLOCK_BYTES_IN_OUT) && 0 < |bytes| <= 0x1_0000
    ensures Run(d, [op, (|bytes| - 1) % 256, (|bytes| - 1) / 256 % 256] + bytes + rest)
         == Run(ShiftBytes(d, bytes, op == CLOCK_BYTES_IN_OUT), rest)
  {
    hide ShiftBytes;
    var n := |bytes|;
    var c := [op, (n - 1) % 256, (n - 1) / 256 % 256] + bytes + rest;
    assert c[0] == op && c[1] + 256 * c[2] + 1 == n;
    assert c[3..3 + n] == bytes && c[3 + n..] == rest;
  }

  lemma RunImmediate(d: Device)
    ensures Run(d, [SEND_IMMEDIATE]) == Some(d)
  {
  }

  // ----- What runs of edges do -----

  lemma OneBitIn(d: Device, tdi: bool)
    requires (d.tap == ShiftDR || d.tap == ShiftIR) && !d.tms
    ensures Clock(d, false, tdi) == d.(shifted := d.shifted + [tdi])
    ensures Selected(Clock(d, false, tdi)) == Selected(d)
  {
    HoldingStates(d.tap);
    hide NextTap;
  }

  lemma ShiftStep(d: Device, v: seq<bool>)
    requires (d.tap == ShiftDR || d.tap == ShiftIR) && !d.tms
    ensures Clocks(d, DataEdges(false, v))
         == if v == [] then d else Clocks(d.(shifted := d.shifted + [v[0]]), DataEdges(false, v[1..]))
  {
    if v != [] {
      assert DataEdges(false, v)[1..] == DataEdges(false, v[1..]);
      OneBitIn(d, v[0]);
      hide Clock;
    }
  }

  /** TMS low in a shift state: every bit is taken in, in order, and nothing else changes. */
  lemma {:induction false} ShiftIn(d: Device, v: seq<bool>)
    requires (d.tap == ShiftDR || d.tap == ShiftIR) && !d.tms
    ensures Clocks(d, DataEdges(false, v)) == d.(shifted := d.shifted + v)
    decreases |v|
  {
    hide Clocks, DataEdges;
    ShiftStep(d, v);
    if v == [] {
      assert d.shifted + v == d.shifted;
    } else {
      ShiftIn(d.(shifted := d.shifted + [v[0]]), v[1..]);
      assert d.shifted + [v[0]] + v[1..] == d.shifted + v;
    }
  }

  lemma IdleStep(d: Device, v: seq<bool>)
    requires d.tap == RunTestIdle && !d.tms
    ensures Clocks(d, DataEdges(false, v))
         == if v == [] then d else Clocks(d.(log := d.log + [IdleClock]), DataEdges(false, v[1..]))
  {
    if v != [] {
      assert DataEdges(false, v)[1..] == DataEdges(false, v[1..]);
      HoldingStates(d.tap);
      hide NextTap;
      assert Clock(d, false, v[0]) == d.(log := d.log + [IdleClock]);
      hide Clock;
    }
  }

  /** TMS low in Run-Test/Idle: every edge is one idle clock. */
  lemma {:induction false} Idling(d: Device, v: seq<bool>)
    requires d.tap == RunTestIdle && !d.tms
    ensures Clocks(d, DataEdges(false, v)) == d.(log := d.log + seq(|v|, k => IdleClock))
    decreases |v|
  {
    hide Clocks, DataEdges;
    IdleStep(d, v);
    if v == [] {
      assert d.log + seq(|v|, k => IdleClock) == d.log;
    } else {
      Idling(d.(log := d.log + [IdleClock]), v[1..]);
      assert d.log + [IdleClock] + seq(|v| - 1, k => IdleClock) == d.log + seq(|v|, k => IdleClock);
    }
  }

  lemma ReadingStep(d: Device, v: seq<bool>)
    requires d.tap == ShiftDR && !d.tms && |d.shifted| < |Selected(d)|
    ensures Reading(d, DataEdges(false, v)) == if v == [] then [] else
        [Selected(d)[|d.shifted|]] + Reading(d.(shifted := d.shifted + [v[0]]), DataEdges(false, v[1..]))
    ensures v != [] ==> Selected(d.(shifted := d.shifted + [v[0]])) == Selected(d)
  {
    if v != [] {
      assert DataEdges(false, v)[1..] == DataEdges(false, v[1..]);
      OneBitIn(d, v[0]);
      hide Clock;
    }
  }

  lemma NoReading(d: Device)
    ensures Reading(d, DataEdges(false, [])) == []
  {
  }

  /** Reading out while shifting in Shift-DR after a capture: the first bits are the captured ones. */
  lemma {:induction false} ReadOut(d: Device, v: seq<bool>)
    requires d.tap == ShiftDR && !d.tms && |d.shifted| + |v| <= |Selected(d)| && v != []
    ensures Reading(d, DataEdges(false, v)) == Selected(d)[|d.shifted|..|d.shifted| + |v|]
    decreases |v|
  {
    hide Reading, DataEdges, Selected;
    ReadingStep(d, v);
    var r, n := Selected(d), |d.shifted|;
    if |v| > 1 {
      ReadOut(d.(shifted := d.shifted + [v[0]]), v[1..]);
      assert r[n..n + |v|] == [r[n]] + r[n + 1..n + |v|];
    } else {
      assert r[n..n + 1] == [r[n]];
      NoReading(d.(shifted := d.shifted + [v[0]]));
      assert v[1..] == [];
    }
  }

  // ----- The TMS sequences the driver uses -----

  lemma ThreeEdges(d: Device, e: seq<Edge>)
    requires |e| == 3
    ensures Clocks(d, e) == Clock(Clock(Clock(d, e[0].tms, e[0].tdi), e[1].tms, e[1].tdi), e[2].tms, e[2].tdi)
  {
    hide Clock;
    assert e[1..] == [e[1], e[2]] && e[1..][1..] == [e[2]] && e[1..][1..][1..] == [];
    assert Clocks(Clock(Clock(d, e[0].tms, e[0].tdi), e[1].tms, e[1].tdi), [e[2]])
        == Clock(Clock(Clock(d, e[0].tms, e[0].tdi), e[1].tms, e[1].tdi), e[2].tms, e[2].tdi);
    assert Clocks(Clock(d, e[0].tms, e[0].tdi), [e[1], e[2]])
        == Clocks(Clock(Clock(d, e[0].tms, e[0].tdi), e[1].tms, e[1].tdi), [e[2]]);
  }

  lemma BitsOfThree(high: bool)
    ensures var b: Byte := (if high then 0x80 else 0) + 0x03;
      Bit(b, 0) && Bit(b, 1) && !Bit(b, 2) && !Bit(b, 3) && Bit(b, 7) == high
  {
    assert Bit(0x83, 0) && Bit(0x83, 1) && !Bit(0x83, 2) && !Bit(0x83, 3) && Bit(0x83, 7);
    assert Bit(0x03, 0) && Bit(0x03, 1) && !Bit(0x03, 2) && !Bit(0x03, 3) && !Bit(0x03, 7);
  }

  /** An edge that neither captures, shifts, updates, resets nor idles. */
  lemma Moves(d: Device, tms: bool, tdi: bool)
    requires d.tap !in {CaptureDR, CaptureIR, ShiftDR, ShiftIR, RunTestIdle} || (d.tap == RunTestIdle && tms)
    requires NextTap(d.tap, tms) !in {UpdateDR, UpdateIR, TestLogicReset}
    ensures Clock(d, tms, tdi) == d.(tap := NextTap(d.tap, tms), tms := tms)
  {
  }

  lemma Captures(d: Device, tdi: bool)
    requires d.tap == CaptureDR || d.tap == CaptureIR
    ensures Clock(d, false, tdi) == d.(tap := NextTap(d.tap, false), tms := false, shifted := [])
  {
  }

  lemma LastBitIn(d: Device, tdi: bool)
    requires d.tap == ShiftDR || d.tap == ShiftIR
    ensures Clock(d, true, tdi) == d.(tap := NextTap(d.tap, true), tms := true, shifted := d.shifted + [tdi])
  {
  }

  lemma Updates(d: Device, tdi: bool)
    requires d.tap == Exit1DR || d.tap == Exit1IR
    ensures Clock(Clock(d, true, tdi), false, tdi) == if d.tap == Exit1IR then AfterIR(d, d.shifted) else AfterDR(d, d.shifted)
  {
  }

  lemma FourOfThree(d: Device)
    ensures Clocks(d, TmsEdges(0x03, 4))
         == Clock(Clock(Clock(Clock(d, true, false), true, false), false, false), false, false)
  {
    BitsOfThree(false);
    hide Clock, Bit;
    var e := TmsEdges(0x03, 4);
    assert e[0] == Edge(true, false);
    assert e[1..] == [Edge(true, false), Edge(false, false), Edge(false, false)];
    ThreeEdges(Clock(d, true, false), e[1..]);
  }

  lemma EnterShiftIR(d: Device)
    requires d.tap == RunTestIdle
    ensures Clocks(d, TmsEdges(0x03, 4)) == d.(tap := ShiftIR, tms := false, shifted := [])
  {
    hide Clocks, TmsEdges, Bit, Clock;
    FourOfThree(d);
    Moves(d, true, false);
    Moves(d.(tap := SelectDR, tms := true), true, false);
    Moves(d.(tap := SelectIR, tms := true), false, false);
    Captures(d.(tap := CaptureIR, tms := false), false);
  }

  lemma EnterShiftDR(d: Device)
    requires d.tap == RunTestIdle
    ensures Clocks(d, TmsEdges(0x01, 3)) == d.(tap := ShiftDR, tms := false, shifted := [])
  {
    assert Bit(0x01, 0) && !Bit(0x01, 1) && !Bit(0x01, 2) && !Bit(0x01, 7);
    ThreeEdges(d, TmsEdges(0x01, 3));
    hide TmsEdges, Bit, Clock;
    Moves(d, true, false);
    Moves(d.(tap := SelectDR, tms := true), false, false);
    Captures(d.(tap := CaptureDR, tms := false), false);
  }

  /** The device once `bits` have been loaded by a scan that ends in Run-Test/Idle. */
  function AfterIR(d: Device, bits: seq<bool>): Device {
    d.(tap := RunTestIdle, tms := false, shifted := bits, ir := bits, log := d.log + [LoadIR(bits)])
  }

  function AfterDR(d: Device, bits: seq<bool>): Device {
    d.(tap := RunTestIdle, tms := false, shifted := bits, log := d.log + [LoadDR(bits)])
  }

  /** TMS 1, 1, 0 out of a shift state takes in one last bit and updates. */
  lemma LeaveShift(d: Device, tdi: bool)
    requires d.tap == ShiftIR || d.tap == ShiftDR
    ensures Clocks(d, TmsEdges((if tdi then 0x80 else 0) + 0x03, 3))
         == if d.tap == ShiftIR then AfterIR(d, d.shifted + [tdi]) else AfterDR(d, d.shifted + [tdi])
  {
    BitsOfThree(tdi);
    ThreeEdges(d, TmsEdges((if tdi then 0x80 else 0) + 0x03, 3));
    hide TmsEdges, Bit, Clock;
    LastBitIn(d, tdi);
    Updates(d.(tap := NextTap(d.tap, true), tms := true, shifted := d.shifted + [tdi]), tdi);
  }

  function Five(d: Device, tdi: bool): Device {
    Clock(Clock(Clock(Clock(Clock(d, true, tdi), true, tdi), true, tdi), true, tdi), true, tdi)
  }

  lemma ClockTap(d: Device, tms: bool, tdi: bool)
    ensures Clock(d, tms, tdi).tap == NextTap(d.tap, tms)
  {
    hide NextTap, Entering;
  }

  lemma FourSteps(s: Tap)
    ensures NextTap(NextTap(NextTap(NextTap(s, true), true), true), true) in {SelectIR, TestLogicReset}
  {
  }

  lemma FourOnes(d: Device, tdi: bool)
    ensures Clock(Clock(Clock(Clock(d, true, tdi), true, tdi), true, tdi), true, tdi).tap in {SelectIR, TestLogicReset}
  {
    hide Clock, NextTap;
    FourSteps(d.tap);
    var one := Clock(d, true, tdi);
    var two := Clock(one, true, tdi);
    var three := Clock(two, true, tdi);
    ClockTap(d, true, tdi);
    ClockTap(one, true, tdi);
    ClockTap(two, true, tdi);
    ClockTap(three, true, tdi);
  }

  lemma Resets(d: Device, tdi: bool)
    requires d.tap == SelectIR || d.tap == TestLogicReset
    ensures Clock(d, true, tdi) == d.(tap := TestLogicReset, tms := true, ir := [],
                                      log := if d.tap == SelectIR then d.log + [Reset] else d.log)
  {
  }

  /** Five ones reset the controller from any state. */
  lemma FiveOnesReset(d: Device)
    ensures Five(d, false).tap == TestLogicReset && Five(d, false).ir == []
  {
    hide Clock;
    FourOnes(d, false);
    Resets(Clock(Clock(Clock(Clock(d, true, false), true, false), true, false), true, false), false);
  }

  lemma FiveOnesFromIdle(d: Device)
    requires d.tap == RunTestIdle
    ensures Five(d, false) == d.(tap := TestLogicReset, tms := true, ir := [], log := d.log + [Reset])
  {
    hide Clock;
    Moves(d, true, false);
    Moves(d.(tap := SelectDR, tms := true), true, false);
    Resets(d.(tap := SelectIR, tms := true), false);
    var r := d.(tap := TestLogicReset, tms := true, ir := [], log := d.log + [Reset]);
    Resets(r, false);
    assert Clock(r, true, false) == r;
  }

  /** The device after five ones and a zero. */
  function AfterReset(d: Device): Device { Clock(Five(d, false), false, false) }

  lemma FiveKeeps(d: Device)
    ensures Five(d, false).registers == d.registers
  {
    hide Entering, NextTap;
  }

  /** From any state whatever, five ones and a zero lead to Run-Test/Idle with TMS low. */
  lemma ResetIdles(d: Device)
    ensures AfterReset(d).tap == RunTestIdle && !AfterReset(d).tms && AfterReset(d).registers == d.registers
    ensures d.tap == RunTestIdle ==>
      AfterReset(d) == d.(tap := RunTestIdle, tms := false, ir := [], log := d.log + [Reset])
  {
    FiveOnesReset(d);
    FiveKeeps(d);
    if d.tap == RunTestIdle { FiveOnesFromIdle(d); }
    hide Five, Clock;
    Moves(Five(d, false), false, false);
  }

  lemma FiveEdges(d: Device)
    ensures Clocks(d, TmsEdges(0x1F, 5)) == Five(d, false)
  {
    assert Bit(0x1F, 0) && Bit(0x1F, 1) && Bit(0x1F, 2) && Bit(0x1F, 3) && Bit(0x1F, 4) && !Bit(0x1F, 7);
    var e, one := TmsEdges(0x1F, 5), Edge(true, false);
    assert e[0] == one && e[1..][0] == one && e[1..][1..] == [one, one, one];
    hide Clock, TmsEdges, Bit;
    ThreeEdges(Clock(Clock(d, true, false), true, false), e[1..][1..]);
  }

  lemma OneLowEdge(d: Device)
    ensures Clocks(d, TmsEdges(0x00, 1)) == Clock(d, false, false)
  {
    assert !Bit(0x00, 0) && !Bit(0x00, 7);
    hide Clock, Bit;
    assert TmsEdges(0x00, 1)[1..] == [];
  }
}
