/** The WebUSB JTAG driver (Nathan_Serv/ftdi-jtag.js): what each call sends to the MPSSE and what the
    JTAG chain behind it sees. */
module JtagDriver {
  import opened Basics
  import opened Bits
  import opened Mpsse

  // ----- Byte reversal -----

  /** The byte with its bits in the opposite order. */
  function Reverse(b: Byte): (r: Byte) {
    NumberBound(Reversed(BitString(b, 8)));
    assert Pow2(8) == 256;
    Number(Reversed(BitString(b, 8)))
  }

  lemma ReverseBits(b: Byte)
    ensures BitString(Reverse(b), 8) == Reversed(BitString(b, 8))
  {
    forall k: nat | k < 8 ensures Bit(Reverse(b), k) == Bit(b, 7 - k) {
      NumberBits(Reversed(BitString(b, 8)), k);
    }
  }

  /** The expression that fills one entry of REV_LUT. */
  function LutEntry(i: Byte): nat {
    var v := OrBit(OrBit(OrBit(OrBit(0, Bit(i, 0), 7), Bit(i, 1), 6), Bit(i, 2), 5), Bit(i, 3), 4);
    OrBit(OrBit(OrBit(OrBit(v, Bit(i, 4), 3), Bit(i, 5), 2), Bit(i, 6), 1), Bit(i, 7), 0)
  }

  lemma LutEntryBits(i: Byte, j: nat)
    ensures Bit(LutEntry(i), j) <==> j < 8 && Bit(i, 7 - j)
  {
    hide Bit, OrBit;
    var v0 := OrBit(0, Bit(i, 0), 7);
    var v1 := OrBit(v0, Bit(i, 1), 6);
    var v2 := OrBit(v1, Bit(i, 2), 5);
    var v3 := OrBit(v2, Bit(i, 3), 4);
    var v4 := OrBit(v3, Bit(i, 4), 3);
    var v5 := OrBit(v4, Bit(i, 5), 2);
    var v6 := OrBit(v5, Bit(i, 6), 1);
    ZeroBits(j);
    OrBitBits(0, Bit(i, 0), 7, j);
    OrBitBits(v0, Bit(i, 1), 6, j);
    OrBitBits(v1, Bit(i, 2), 5, j);
    OrBitBits(v2, Bit(i, 3), 4, j);
    OrBitBits(v3, Bit(i, 4), 3, j);
    OrBitBits(v4, Bit(i, 5), 2, j);
    OrBitBits(v5, Bit(i, 6), 1, j);
    OrBitBits(v6, Bit(i, 7), 0, j);
  }

  /** The entry is the byte with its bits reversed. */
  lemma LutEntryReverses(i: Byte)
    ensures LutEntry(i) == Reverse(i)
  {
    forall k: nat ensures Bit(LutEntry(i), k) <==> k < 8 && Reversed(BitString(i, 8))[k] {
      LutEntryBits(i, k);
    }
    NumberFromBits(LutEntry(i), Reversed(BitString(i, 8)));
  }

  method BuildRevLut() returns (lut: array<Byte>)
    ensures fresh(lut) && lut.Length == 256 && forall i: Byte :: lut[i] == Reverse(i)
  {
    hide Reverse, LutEntry;
    lut := new Byte[256];
    for i := 0 to 256
      invariant forall k: Byte :: k < i ==> lut[k] == Reverse(k)
    {
      LutEntryReverses(i);
      lut[i] := LutEntry(i);
    }
  }

  function ReverseAll(bytes: seq<Byte>): (r: seq<Byte>)
    ensures |r| == |bytes|
  {
    seq(|bytes|, i requires 0 <= i < |bytes| => Reverse(bytes[i]))
  }

  /** Reversed bytes sent least significant bit first are the bytes most significant bit first. */
  lemma {:induction false} ReversedBytesAreMsbFirst(bytes: seq<Byte>)
    ensures LsbFirst(ReverseAll(bytes)) == MsbFirst(bytes)
  {
    if bytes != [] {
      assert ReverseAll(bytes)[1..] == ReverseAll(bytes[1..]);
      ReversedBytesAreMsbFirst(bytes[1..]);
      ReverseBits(bytes[0]);
    }
  }

  // ----- Command buffers -----

  const MAX_CHUNK := 65536

  function Min(a: nat, b: nat): nat { if a < b then a else b }

  /** The payload cut into data commands. */
  function Chunks(data: seq<Byte>): (c: seq<Byte>)
    ensures |c| == |data| + 3 * ((|data| + MAX_CHUNK - 1) / MAX_CHUNK)
    decreases |data|
  {
    if data == [] then []
    else
      var n := Min(MAX_CHUNK, |data|);
      Header(n) + data[..n] + Chunks(data[n..])
  }

  function TmsByte(tdi: bool, tms: Byte): Byte
    requires tms < 128
  {
    (if tdi then 0x80 else 0) + tms
  }

  function ExitBulk(last: Byte): seq<Byte> {
    [CLOCK_BITS_OUT, 6, last] + ([CLOCK_TMS, 2, TmsByte(Bit(last, 7), 0x03)] + [SEND_IMMEDIATE])
  }

  function BulkCommand(tdi: seq<Byte>): seq<Byte>
    requires tdi != []
  {
    [CLOCK_TMS, 2, 0x01] + Chunks(tdi[..|tdi| - 1]) + ExitBulk(tdi[|tdi| - 1])
  }

  lemma {:induction false} LsbFirstJoin(a: seq<Byte>, b: seq<Byte>)
    ensures LsbFirst(a + b) == LsbFirst(a) + LsbFirst(b)
  {
    if a == [] {
      assert a + b == b;
    } else {
      assert (a + b)[1..] == a[1..] + b;
      LsbFirstJoin(a[1..], b);
    }
  }

  predicate Shifting(d: Device) { (d.tap == ShiftDR || d.tap == ShiftIR) && !d.tms }

  function Header(n: nat): seq<Byte>
    requires 0 < n <= MAX_CHUNK
  {
    [CLOCK_BYTES_OUT, (n - 1) % 256, (n - 1) / 256 % 256]
  }

  lemma ChunkShifts(d: Device, data: seq<Byte>, rest: seq<Byte>)
    requires Shifting(d) && 0 < |data| <= MAX_CHUNK
    ensures Run(d, Header(|data|) + data + rest) == Run(d.(shifted := d.shifted + LsbFirst(data)), rest)
  {
    hide Run, Clocks, LsbFirst;
    RunBytes(d, CLOCK_BYTES_OUT, data, rest);
    ShiftIn(d, LsbFirst(data));
  }

  lemma ChunksStep(data: seq<Byte>, rest: seq<Byte>)
    requires data != []
    ensures var n := Min(MAX_CHUNK, |data|);
      Chunks(data) + rest == Header(n) + data[..n] + (Chunks(data[n..]) + rest)
  {
    var n := Min(MAX_CHUNK, |data|);
    var first, others := Header(n) + data[..n], Chunks(data[n..]);
    assert Chunks(data) == first + others;
    hide Chunks, Header;
    Regroup(first, others, rest);
  }

  lemma ChunksNone(rest: seq<Byte>)
    ensures Chunks([]) + rest == rest && LsbFirst([]) == []
  {
  }

  /** The chunks shift in every payload bit, in order, whatever follows them. */
  lemma {:induction false} ChunksShift(d: Device, data: seq<Byte>, rest: seq<Byte>)
    requires Shifting(d)
    ensures Run(d, Chunks(data) + rest) == Run(d.(shifted := d.shifted + LsbFirst(data)), rest)
    decreases |data|
  {
    hide Run, Chunks, LsbFirst, Header;
    if data == [] {
      ChunksNone(rest);
      assert d.shifted + [] == d.shifted;
    } else {
      var n := Min(MAX_CHUNK, |data|);
      var head, tail := data[..n], data[n..];
      ChunksStep(data, rest);
      ChunkShifts(d, head, Chunks(tail) + rest);
      ChunksShift(d.(shifted := d.shifted + LsbFirst(head)), tail, rest);
      LsbFirstJoin(head, tail);
      assert head + tail == data;
      assert d.shifted + LsbFirst(head) + LsbFirst(tail) == d.shifted + LsbFirst(data);
    }
  }

  /** The last byte: seven data bits, and the eighth on the edge that leaves the shift state. */
  lemma ExitShifts(d: Device, last: Byte)
    requires Shifting(d) && d.tap == ShiftDR
    ensures Run(d, ExitBulk(last)) == Some(AfterDR(d, d.shifted + BitString(last, 8)))
  {
    hide Run, Clocks, Bit, BitString, DataEdges, TmsEdges, TmsByte, AfterDR;
    var next := d.(shifted := d.shifted + BitString(last, 7));
    var tail := [CLOCK_TMS, 2, TmsByte(Bit(last, 7), 0x03)] + [SEND_IMMEDIATE];
    BitsRun(d, 6, last, tail);
    LeaveRuns(next, Bit(last, 7), [SEND_IMMEDIATE]);
    EighthBit(last);
    Regroup(d.shifted, BitString(last, 7), [Bit(last, 7)]);
    LastOfBulk(d, d.shifted + BitString(last, 7), d.shifted + BitString(last, 8));
    RunImmediate(AfterDR(d, d.shifted + BitString(last, 8)));
  }

  lemma LastOfBulk(d: Device, some: seq<bool>, all: seq<bool>)
    ensures AfterDR(d.(shifted := some), all) == AfterDR(d, all)
  {
  }

  /** Data bits with TMS low are taken in. */
  lemma BitsRun(d: Device, n: Byte, b: Byte, rest: seq<Byte>)
    requires Shifting(d) && n <= 7
    ensures Run(d, [CLOCK_BITS_OUT, n, b] + rest) == Run(d.(shifted := d.shifted + BitString(b, n + 1)), rest)
  {
    hide Run, Clocks, BitString;
    RunBits(d, n, b, rest);
    ShiftIn(d, BitString(b, n + 1));
  }

  lemma EighthBit(b: Byte)
    ensures BitString(b, 7) + [Bit(b, 7)] == BitString(b, 8)
  {
    hide Bit;
  }

  lemma LeaveRuns(d: Device, tdi: bool, rest: seq<Byte>)
    requires d.tap == ShiftDR || d.tap == ShiftIR
    ensures Run(d, [CLOCK_TMS, 2, TmsByte(tdi, 0x03)] + rest)
         == Run(if d.tap == ShiftIR then AfterIR(d, d.shifted + [tdi]) else AfterDR(d, d.shifted + [tdi]), rest)
  {
    hide Run, Clocks, TmsEdges;
    RunTms(d, 2, TmsByte(tdi, 0x03), rest);
    LeaveShift(d, tdi);
  }

  /** From Run-Test/Idle the buffer loads exactly the payload's bits, in order, and comes back. */
  lemma BulkLoads(d: Device, tdi: seq<Byte>)
    requires d.tap == RunTestIdle && tdi != []
    ensures Run(d, BulkCommand(tdi)) == Some(AfterDR(d, LsbFirst(tdi)))
  {
    hide Run, Clocks, Chunks, ExitBulk, LsbFirst, AfterDR, TmsEdges, BitString;
    var init, last := tdi[..|tdi| - 1], tdi[|tdi| - 1];
    var shift := d.(tap := ShiftDR, tms := false, shifted := []);
    Regroup([CLOCK_TMS, 2, 0x01], Chunks(init), ExitBulk(last));
    RunTms(d, 2, 0x01, Chunks(init) + ExitBulk(last));
    EnterShiftDR(d);
    ChunksShift(shift, init, ExitBulk(last));
    NothingShifted(LsbFirst(init));
    ExitShifts(shift.(shifted := LsbFirst(init)), last);
    LastBitString(tdi);
    EnteredLoads(d, LsbFirst(init), LsbFirst(tdi));
  }

  lemma NothingShifted(v: seq<bool>)
    ensures [] + v == v
  {
  }

  lemma EnteredLoads(d: Device, some: seq<bool>, all: seq<bool>)
    ensures AfterDR(d.(tap := ShiftDR, tms := false, shifted := some), all) == AfterDR(d, all)
  {
  }

  lemma LastBitString(bytes: seq<Byte>)
    requires bytes != []
    ensures LsbFirst(bytes) == LsbFirst(bytes[..|bytes| - 1]) + BitString(bytes[|bytes| - 1], 8)
  {
    var init, last := bytes[..|bytes| - 1], bytes[|bytes| - 1];
    LsbFirstJoin(init, [last]);
    hide BitString;
    assert init + [last] == bytes && LsbFirst([last]) == BitString(last, 8) + LsbFirst([]);
  }

  // ----- Instructions -----

  /** The instruction's bits: all but the last from the masked byte, the last on the exit edge. */
  lemma InstructionSplit(instruction: nat, len: nat)
    requires 2 <= len <= 9
    ensures BitString(LowByte(instruction), len - 1) + [Bit(instruction, len - 1)] == BitString(instruction, len)
  {
    forall k: nat | k < len - 1 ensures Bit(LowByte(instruction), k) == Bit(instruction, k) {
      LowBits(instruction, 8, k);
    }
    hide Bit;
  }

  /** `x & 0xFF`. */
  function LowByte(x: nat): Byte {
    assert Pow2(8) == 256;
    Low(x, 8)
  }

  // ----- Words -----

  /** The four bytes of a 32-bit word, most significant first. */
  function WordBytes(w: nat): (b: seq<Byte>)
    ensures |b| == 4
  {
    [LowByte(Shr(w, 24)), LowByte(Shr(w, 16)), LowByte(Shr(w, 8)), LowByte(w)]
  }

  function AllBytes(words: seq<nat>): (b: seq<Byte>)
    ensures |b| == 4 * |words|
  {
    if words == [] then [] else AllBytes(words[..|words| - 1]) + WordBytes(words[|words| - 1])
  }

  /** The words' bits, each word's most significant bit first. */
  function WordsMsbFirst(words: seq<nat>): (v: seq<bool>) {
    if words == [] then [] else WordsMsbFirst(words[..|words| - 1]) + Reversed(BitString(words[|words| - 1], 32))
  }

  lemma ByteOfWord(w: nat, n: nat, k: nat)
    requires k < 8
    ensures Bit(LowByte(Shr(w, n)), k) == Bit(w, n + k)
  {
    LowBits(Shr(w, n), 8, k);
    ShrBits(w, n, k);
  }

  lemma ReversedByteOfWord(w: nat, n: nat)
    requires n <= 24
    ensures Reversed(BitString(LowByte(Shr(w, n)), 8)) == Reversed(BitString(w, 32))[24 - n..32 - n]
  {
    forall k: nat | k < 8 ensures Bit(LowByte(Shr(w, n)), k) == Bit(w, n + k) {
      ByteOfWord(w, n, k);
    }
    hide Bit, LowByte, Shr;
  }

  lemma WordMsbFirst(w: nat)
    ensures MsbFirst(WordBytes(w)) == Reversed(BitString(w, 32))
  {
    ReversedByteOfWord(w, 24);
    ReversedByteOfWord(w, 16);
    ReversedByteOfWord(w, 8);
    ReversedByteOfWord(w, 0);
    hide BitString, Reversed, Bit, LowByte;
    MsbFirstOfFour(LowByte(Shr(w, 24)), LowByte(Shr(w, 16)), LowByte(Shr(w, 8)), LowByte(w));
    assert Shr(w, 0) == w;
    var r := Reversed(BitString(w, 32));
    assert r == r[0..8] + r[8..16] + r[16..24] + r[24..32];
  }

  lemma MsbFirstOfFour(a: Byte, b: Byte, c: Byte, d: Byte)
    ensures MsbFirst([a, b, c, d])
         == Reversed(BitString(a, 8)) + Reversed(BitString(b, 8)) + Reversed(BitString(c, 8)) + Reversed(BitString(d, 8))
  {
    hide BitString, Reversed;
    MsbFirstJoin([a], [b, c, d]);
    MsbFirstJoin([b], [c, d]);
    MsbFirstJoin([c], [d]);
    assert [a, b, c, d] == [a] + [b, c, d] && [b, c, d] == [b] + [c, d] && [c, d] == [c] + [d];
    OneMsbFirst(a);
    OneMsbFirst(b);
    OneMsbFirst(c);
    OneMsbFirst(d);
  }

  lemma OneMsbFirst(a: Byte)
    ensures MsbFirst([a]) == Reversed(BitString(a, 8))
  {
    assert [a][1..] == [];
    hide Reversed, BitString;
  }

  lemma {:induction false} MsbFirstJoin(a: seq<Byte>, b: seq<Byte>)
    ensures MsbFirst(a + b) == MsbFirst(a) + MsbFirst(b)
  {
    hide Reversed, BitString;
    if a == [] {
      assert a + b == b;
    } else {
      assert (a + b)[1..] == a[1..] + b;
      MsbFirstJoin(a[1..], b);
      Regroup(Reversed(BitString(a[0], 8)), MsbFirst(a[1..]), MsbFirst(b));
    }
  }

  /** Packets sent byte by byte, most significant first, are the words most significant bit first. */
  lemma {:induction false} WordsAreMsbFirst(words: seq<nat>)
    ensures MsbFirst(AllBytes(words)) == WordsMsbFirst(words)
  {
    hide WordBytes, BitString, Reversed;
    if words != [] {
      var init, last := words[..|words| - 1], words[|words| - 1];
      WordsAreMsbFirst(init);
      MsbFirstJoin(AllBytes(init), WordBytes(last));
      WordMsbFirst(last);
    }
  }

  // ----- Reading a register -----

  /** `res[3] << 24 | res[2] << 16 | res[1] << 8 | res[0]`. */
  function LittleEndian(res: seq<Byte>): nat
    requires |res| == 4
  {
    Shl(res[3], 24) + Shl(res[2], 16) + Shl(res[1], 8) + res[0]
  }

  /** The status word: each byte reversed, the first byte read most significant. */
  function StatusWord(res: seq<Byte>): nat
    requires |res| == 4
  {
    Shl(Reverse(res[0]), 24) + Shl(Reverse(res[1]), 16) + Shl(Reverse(res[2]), 8) + Reverse(res[3])
  }

  lemma NumberOfFour(a: seq<bool>, b: seq<bool>, c: seq<bool>, d: seq<bool>)
    requires |a| == |b| == |c| == |d| == 8
    ensures Number(a + b + c + d) == Number(a) + Shl(Number(b), 8) + Shl(Number(c), 16) + Shl(Number(d), 24)
  {
    hide Number, Shl;
    NumberJoin(a + b + c, d);
    NumberJoin(a + b, c);
    NumberJoin(a, b);
  }

  lemma PackFour(v: seq<bool>)
    requires |v| == 32
    ensures Pack(v) == [Number(v[..8]), Number(v[8..16]), Number(v[16..24]), Number(v[24..])]
  {
    hide Number;
    assert v[8..][..8] == v[8..16] && v[8..][8..] == v[16..] && v[16..][..8] == v[16..24] && v[16..][8..] == v[24..];
    assert v[24..][..8] == v[24..] && v[24..][8..] == [];
    assert Pack(v[24..]) == [Number(v[24..])];
    assert Pack(v[16..]) == [Number(v[16..24])] + Pack(v[24..]);
    assert Pack(v[8..]) == [Number(v[8..16])] + Pack(v[16..]);
  }

  /** The four bytes read back are the 32 captured bits, the first bit least significant. */
  lemma ReadsLsbFirst(v: seq<bool>)
    requires |v| == 32
    ensures |Pack(v)| == 4 && LittleEndian(Pack(v)) == Number(v)
  {
    PackFour(v);
    hide Pack;
    NumberOfFour(v[..8], v[8..16], v[16..24], v[24..]);
    assert v == v[..8] + v[8..16] + v[16..24] + v[24..];
  }

  lemma ReverseNumber(v: seq<bool>, b: Byte)
    requires |v| == 8 && b == Number(v)
    ensures Reverse(b) == Number(Reversed(v))
  {
    forall k: nat | k < 8 ensures Bit(b, k) == v[k] { NumberBits(v, k); }
    assert BitString(b, 8) == v;
  }

  /** The status word is the 32 captured bits with the first bit most significant. */
  lemma ReadsMsbFirst(v: seq<bool>)
    requires |v| == 32
    ensures |Pack(v)| == 4 && StatusWord(Pack(v)) == Number(Reversed(v))
  {
    PackFour(v);
    var p := Pack(v);
    ReverseNumber(v[..8], p[0]);
    ReverseNumber(v[8..16], p[1]);
    ReverseNumber(v[16..24], p[2]);
    ReverseNumber(v[24..], p[3]);
    var a, b, c, d := Reversed(v[24..]), Reversed(v[16..24]), Reversed(v[8..16]), Reversed(v[..8]);
    assert Reversed(v) == a + b + c + d;
    hide Pack, Reverse, Number, Reversed;
    NumberOfFour(a, b, c, d);
  }

  function Zeros(n: nat): (v: seq<bool>)
    ensures |v| == n
  {
    seq(n, k => false)
  }

  lemma {:induction false} ZerosLsbFirst(n: nat)
    ensures LsbFirst(seq(n, k => 0)) == Zeros(8 * n)
  {
    if n > 0 {
      var z: seq<Byte> := seq(n, k => 0);
      assert z[1..] == seq(n - 1, k => 0);
      ZerosLsbFirst(n - 1);
      forall k: nat | k < 8 ensures !Bit(0, k) { ZeroBits(k); }
      assert BitString(0, 8) == Zeros(8);
      hide BitString;
    }
  }

  /** The data register scan in progress, with `bits` taken in. */
  function InShiftDR(d: Device, bits: seq<bool>): Device { d.(tap := ShiftDR, tms := false, shifted := bits) }

  const READ_FOUR: seq<Byte> := [CLOCK_BYTES_IN_OUT, 3, 0, 0, 0, 0, 0, SEND_IMMEDIATE]

  /** The read command brings back the first 32 bits the selected register captured. */
  lemma ReadRuns(d: Device)
    requires |Selected(d)| >= 32
    ensures Selected(InShiftDR(d, [])) == Selected(d)
    ensures Run(InShiftDR(d, []), READ_FOUR) == Some(InShiftDR(d, Zeros(32)).(reply := d.reply + Pack(Selected(d)[..32])))
  {
    var s, zeros := InShiftDR(d, []), seq(4, k => 0 as Byte);
    assert Selected(s) == Selected(d);
    assert READ_FOUR == [CLOCK_BYTES_IN_OUT, (4 - 1) % 256, (4 - 1) / 256 % 256] + zeros + [SEND_IMMEDIATE];
    ZerosLsbFirst(4);
    assert zeros == seq(4, k => 0);
    hide Run, Selected, Clocks, LsbFirst, Pack, DataEdges, Reading, Zeros;
    RunBytes(s, CLOCK_BYTES_IN_OUT, zeros, [SEND_IMMEDIATE]);
    ShiftIn(s, Zeros(32));
    ReadOut(s, Zeros(32));
    NothingShifted(Zeros(32));
    RunImmediate(InShiftDR(d, Zeros(32)).(reply := d.reply + Pack(Selected(d)[..32])));
  }

  // ----- USB transfers -----

  const PACKET := 512

  /** The payload of one transfer: every packet starts with two modem status bytes. */
  function Strip(t: seq<Byte>): seq<Byte>
    decreases |t|
  {
    if |t| <= 2 then []
    else if |t| <= PACKET then t[2..]
    else t[2..PACKET] + Strip(t[PACKET..])
  }

  function Payload(transfers: seq<seq<Byte>>): seq<Byte> {
    if transfers == [] then [] else Payload(transfers[..|transfers| - 1]) + Strip(transfers[|transfers| - 1])
  }

  /** Typed-array `set`: out of range throws and writes nothing. */
  method Set(a: array<Byte>, src: seq<Byte>, at: nat) returns (ok: bool)
    modifies a
    ensures ok <==> at + |src| <= a.Length
    ensures a[..] == if ok then old(a[..at]) + src + old(a[at + |src|..]) else old(a[..])
  {
    if at + |src| > a.Length { return false; }
    for k := 0 to |src|
      invariant forall j :: 0 <= j < a.Length ==> a[j] == if at <= j < at + k then src[j - at] else old(a[j])
    {
      a[at + k] := src[k];
    }
    return true;
  }

  /** Writing behind what is there extends it. */
  method Append(a: array<Byte>, src: seq<Byte>, at: nat)
    requires at + |src| <= a.Length
    modifies a
    ensures a[..at + |src|] == old(a[..at]) + src
  {
    var ok := Set(a, src, at);
    assert a[..at + |src|] == a[..][..at + |src|];
  }

  /** `res` holds the first bytes of what came in, as many as fit. */
  ghost predicate Collected(res: array<Byte>, off: nat, came: seq<Byte>)
    reads res
  {
    off == Min(res.Length, |came|) && res[..off] == came[..off]
  }

  /** What is still to come of a transfer from byte i on. */
  function Rest(d: seq<Byte>, i: nat): seq<Byte> { if i < |d| then Strip(d[i..]) else [] }

  lemma RestStep(d: seq<Byte>, i: nat)
    requires i < |d|
    ensures var chunk := Min(|d| - i, PACKET);
      Rest(d, i) == (if chunk > 2 then d[i + 2..i + chunk] else []) + Rest(d, i + PACKET)
  {
    if |d| - i > PACKET {
      assert d[i..][2..PACKET] == d[i + 2..i + PACKET] && d[i..][PACKET..] == d[i + PACKET..];
    }
  }

  /** Taking in as much of a packet as fits. */
  method CopyPacket(packet: seq<Byte>, res: array<Byte>, start: nat, ghost came: seq<Byte>) returns (off: nat)
    requires Collected(res, start, came)
    modifies res
    ensures Collected(res, off, came + packet)
  {
    var p := Min(|packet|, res.Length - start);
    Append(res, packet[..p], start);
    off := start + p;
    assert (came + packet)[..off] == came[..start] + packet[..p];
  }

  /** The inner loop of readData: the packets of one transfer. */
  method CopyPackets(d: seq<Byte>, res: array<Byte>, start: nat, ghost came: seq<Byte>) returns (off: nat)
    requires Collected(res, start, came)
    modifies res
    ensures Collected(res, off, came + Strip(d))
  {
    off := start;
    var i := 0;
    ghost var now := came;
    assert Rest(d, 0) == Strip(d);
    hide Collected, Rest, Strip;
    while i < |d|
      invariant Collected(res, off, now) && now + Rest(d, i) == came + Strip(d)
      decreases |d| - i
    {
      var chunk := Min(|d| - i, PACKET);
      RestStep(d, i);
      if chunk > 2 {
        off := CopyPacket(d[i + 2..i + chunk], res, off, now);
        Regroup(now, d[i + 2..i + chunk], Rest(d, i + PACKET));
        now := now + d[i + 2..i + chunk];
      } else {
        assert [] + Rest(d, i + PACKET) == Rest(d, i + PACKET);
      }
      i := i + PACKET;
    }
    RestEnd(d, i);
    assert now + [] == now;
  }

  lemma RestEnd(d: seq<Byte>, i: nat)
    requires i >= |d|
    ensures Rest(d, i) == []
  {
  }

  lemma PayloadStep(transfers: seq<seq<Byte>>, t: nat)
    requires t < |transfers|
    ensures Payload(transfers[..t + 1]) == Payload(transfers[..t]) + Strip(transfers[t])
  {
    assert transfers[..t + 1][..t] == transfers[..t];
  }

  /** readData: the first `len` payload bytes, however they were cut into transfers and packets. */
  method ReadData(transfers: seq<seq<Byte>>, len: nat) returns (res: array<Byte>)
    requires |Payload(transfers)| >= len
    ensures fresh(res) && res[..] == Payload(transfers)[..len]
  {
    res := new Byte[len];
    var off: nat, t: nat := 0, 0;
    assert Payload(transfers[..0]) == [];
    while off < len
      invariant fresh(res) && res.Length == len && t <= |transfers| && Collected(res, off, Payload(transfers[..t]))
      decreases |transfers| - t
    {
      assert transfers[..|transfers|] == transfers;
      PayloadStep(transfers, t);
      off := CopyPackets(transfers[t], res, off, Payload(transfers[..t]));
      t := t + 1;
    }
    PayloadPrefix(transfers, t);
    assert res[..] == res[..off];
  }

  lemma {:induction false} PayloadPrefix(transfers: seq<seq<Byte>>, t: nat)
    requires t <= |transfers|
    ensures Payload(transfers[..t]) <= Payload(transfers)
  {
    if t < |transfers| {
      PayloadPrefix(transfers[..|transfers| - 1], t);
      assert transfers[..|transfers| - 1][..t] == transfers[..t];
    } else {
      assert transfers[..t] == transfers;
    }
  }

  // ----- Filling the bulk buffer -----

  function CeilDiv(a: int, b: int): int
    requires b > 0
  {
    (a + b - 1) / b
  }

  lemma ChunksPart(data: seq<Byte>)
    requires data != []
    ensures var n := Min(MAX_CHUNK, |data|);
      Chunks(data) == Header(n) + data[..n] + Chunks(data[n..]) && |Chunks(data)| == 3 + n + |Chunks(data[n..])|
  {
  }

  lemma ChunkAt(data: seq<Byte>, offset: nat)
    requires offset < |data|
    ensures var n := Min(MAX_CHUNK, |data| - offset);
      && Chunks(data[offset..]) == Header(n) + data[offset..offset + n] + Chunks(data[offset + n..])
      && |Chunks(data[offset..])| == 3 + n + |Chunks(data[offset + n..])|
  {
    hide Chunks, Header;
    var n := Min(MAX_CHUNK, |data| - offset);
    ChunksPart(data[offset..]);
    assert data[offset..][..n] == data[offset..offset + n] && data[offset..][n..] == data[offset + n..];
  }

  /** The packing loop: header and data of each chunk, up to seven bytes before the end. */
  method PackChunks(cmd: array<Byte>, data: seq<Byte>)
    requires cmd.Length == 3 + |Chunks(data)| + 7
    modifies cmd
    ensures cmd[..cmd.Length - 7] == old(cmd[..3]) + Chunks(data)
  {
    hide Chunks, Header;
    ghost var whole := cmd[..3] + Chunks(data);
    var ptr, offset := 3, 0;
    assert data[0..] == data;
    while offset < |data|
      invariant offset <= |data| && ptr + |Chunks(data[offset..])| + 7 == cmd.Length
      invariant cmd[..ptr] + Chunks(data[offset..]) == whole
    {
      var n := Min(MAX_CHUNK, |data| - offset);
      ghost var before := cmd[..ptr];
      ChunkAt(data, offset);
      HeaderLength(n);
      Append(cmd, Header(n), ptr);
      ptr := ptr + 3;
      Append(cmd, data[offset..offset + n], ptr);
      ptr := ptr + n;
      offset := offset + n;
      FourParts(before, Header(n), data[offset - n..offset], Chunks(data[offset..]));
    }
    NoChunks();
    assert data[offset..] == [] && cmd[..ptr] + [] == cmd[..ptr];
  }

  lemma HeaderLength(n: nat)
    requires 0 < n <= MAX_CHUNK
    ensures |Header(n)| == 3
  {
  }

  lemma NoChunks()
    ensures Chunks([]) == []
  {
  }

  lemma FourParts<T>(a: seq<T>, b: seq<T>, c: seq<T>, d: seq<T>)
    ensures a + b + c + d == a + (b + c + d)
  {
    Regroup(a, b, c);
    Regroup(a, b + c, d);
  }

  /** Three bytes to enter, three per chunk and the payload, seven to leave. */
  method FillBulk(cmd: array<Byte>, tdi: seq<Byte>)
    requires tdi != [] && cmd.Length == 3 + |Chunks(tdi[..|tdi| - 1])| + 7
    modifies cmd
    ensures cmd[..] == BulkCommand(tdi)
  {
    hide Chunks, ExitBulk;
    var end, last := cmd.Length - 7, tdi[|tdi| - 1];
    Append(cmd, [CLOCK_TMS, 2, 0x01], 0);
    ghost var entry := cmd[..3];
    assert entry == [CLOCK_TMS, 2, 0x01];
    PackChunks(cmd, tdi[..|tdi| - 1]);
    ExitLength(last);
    ghost var filled := cmd[..end];
    Append(cmd, ExitBulk(last), end);
    assert cmd[..] == cmd[..end + 7];
  }

  /** The buffer size is worked out in advance and filled exactly; an empty payload overruns it. */
  method BuildBulk(tdi: seq<Byte>) returns (ok: bool, cmd: array<Byte>)
    ensures fresh(cmd) && (ok <==> tdi != []) && (ok ==> cmd[..] == BulkCommand(tdi))
  {
    hide BulkCommand;
    var bytes := |tdi| - 1;
    var numChunks := CeilDiv(bytes, MAX_CHUNK);
    var totalSize := 3 + numChunks * 3 + bytes + 7;
    cmd := new Byte[totalSize];
    if bytes < 0 {
      // There is no last byte, and seven more bytes do not fit behind three of nine.
      Append(cmd, [CLOCK_TMS, 2, 0x01], 0);
      ok := Set(cmd, [CLOCK_BITS_OUT, 6, 0, CLOCK_TMS, 2, 0x03, SEND_IMMEDIATE], 3);
    } else {
      assert |Chunks(tdi[..bytes])| == bytes + 3 * numChunks;
      FillBulk(cmd, tdi);
      ok := true;
    }
  }

  lemma ExitLength(last: Byte)
    ensures |ExitBulk(last)| == 7
  {
  }

  // ----- The driver -----

  const CFG_IN := 0x05
  const CFG_OUT := 0x04
  const IDCODE := 0x09
  const JPROGRAM := 0x0B
  const JSTART := 0x0C
  const BYPASS := 0x3F

  const STATUS_PACKETS: seq<nat> := [0xAA995566, 0x20000000, 0x2800E001, 0x20000000, 0x20000000]

  function IrBits(instruction: nat): seq<bool> { BitString(instruction, 6) }

  /** The first 32 bits that the register of an instruction captures. */
  function Captured(d: Device, instruction: nat): (v: seq<bool>)
    requires HasWord(d, instruction)
    ensures |v| == 32
  {
    d.registers[IrBits(instruction)][..32]
  }

  predicate HasWord(d: Device, instruction: nat) {
    IrBits(instruction) in d.registers && |d.registers[IrBits(instruction)]| >= 32
  }

  predicate Idle(d: Device) { d.tap == RunTestIdle && !d.tms }

  function AfterRead(d: Device): Device { AfterDR(d, Zeros(33)).(reply := []) }

  function AfterIdcode(d: Device): Device { AfterRead(AfterIR(AfterReset(d), IrBits(IDCODE))) }

  function AfterStatus(d: Device): Device {
    AfterRead(AfterIR(AfterDR(AfterIR(d, IrBits(CFG_IN)), WordsMsbFirst(STATUS_PACKETS)), IrBits(CFG_OUT)))
  }

  /** Up to the point where the payload is sent. */
  function BeforePayload(d: Device): Device {
    AfterIR(AfterIR(AfterIR(AfterReset(d), IrBits(JPROGRAM)), IrBits(BYPASS)), IrBits(CFG_IN))
  }

  function Started(d: Device, bitstream: seq<Byte>): Device {
    AfterIR(AfterDR(BeforePayload(d), MsbFirst(bitstream)), IrBits(JSTART))
  }

  function AfterIdleClocks(d: Device, n: nat): Device { d.(log := d.log + seq(n, k => IdleClock)) }

  function AfterProgram(d: Device, bitstream: seq<Byte>): Device {
    AfterStatus(AfterIdleClocks(Started(d, bitstream), 2048))
  }

  lemma RunAlone(d: Device, c: seq<Byte>)
    ensures Run(d, c + []) == Run(d, c) && Run(d, []) == Some(d)
  {
    assert c + [] == c;
  }

  /** `deliver` is how the USB stack cuts pending bytes into transfers. */
  class WebUsbJtag {
    var device: Device
    const revLut: array<Byte>
    const deliver: seq<Byte> -> seq<seq<Byte>>

    ghost predicate Valid()
      reads this, revLut
    {
      && revLut.Length == 256 && (forall i: Byte :: revLut[i] == Reverse(i))
      && forall r: seq<Byte> :: Payload(deliver(r)) == r
    }

    constructor (device: Device, deliver: seq<Byte> -> seq<seq<Byte>>)
      requires forall r: seq<Byte> :: Payload(deliver(r)) == r
      ensures Valid() && fresh(revLut) && this.device == device
    {
      var lut := BuildRevLut();
      this.device := device;
      this.deliver := deliver;
      revLut := lut;
    }

    method TransferOut(cmd: seq<Byte>)
      requires Run(device, cmd).Some?
      modifies this`device
      ensures device == Run(old(device), cmd).value
    {
      device := Run(device, cmd).value;
    }

    method ShiftTms(tms: Byte, count: nat, tdi: bool)
      requires tms < 128 && 1 <= count <= 7
      modifies this`device
      ensures device == Clocks(old(device), TmsEdges(TmsByte(tdi, tms), count))
    {
      hide Run, Clocks, TmsEdges, TmsByte;
      RunTms(device, count - 1, TmsByte(tdi, tms), []);
      RunAlone(Clocks(device, TmsEdges(TmsByte(tdi, tms), count)), [CLOCK_TMS, count - 1, TmsByte(tdi, tms)]);
      RunAlone(device, [CLOCK_TMS, count - 1, TmsByte(tdi, tms)]);
      TransferOut([CLOCK_TMS, count - 1, TmsByte(tdi, tms)]);
    }

    /** Exactly `len` instruction bits, least significant first, and one update. */
    method ShiftIr(instruction: nat, len: nat)
      requires device.tap == RunTestIdle && 2 <= len <= 9
      modifies this`device
      ensures device == AfterIR(old(device), BitString(instruction, len))
    {
      hide Run, Clocks, TmsEdges, BitString, LowByte, TmsByte;
      EnterShiftIR(device);
      ZeroTms();
      ShiftTms(0x03, 4, false);
      var shift := device;
      var c := [CLOCK_BITS_OUT, len - 2, LowByte(instruction)];
      BitsRun(shift, len - 2, LowByte(instruction), []);
      RunAlone(shift, c);
      RunAlone(shift.(shifted := shift.shifted + BitString(LowByte(instruction), len - 1)), c);
      TransferOut(c);
      InstructionSplit(instruction, len);
      NothingShifted(BitString(LowByte(instruction), len - 1));
      LeaveShift(device, Bit(instruction, len - 1));
      ThreeTms(Bit(instruction, len - 1));
      ShiftTms(0x03, 3, Bit(instruction, len - 1));
    }

    /** Sends exactly the payload's bits, in order, the last on the edge that leaves Shift-DR. */
    method ShiftDrBulk(tdi: seq<Byte>) returns (ok: bool)
      requires device.tap == RunTestIdle
      modifies this`device
      ensures ok <==> tdi != []
      ensures device == if ok then AfterDR(old(device), LsbFirst(tdi)) else old(device)
    {
      hide Run, BulkCommand;
      var cmd;
      ok, cmd := BuildBulk(tdi);
      if ok {
        BulkLoads(device, tdi);
        TransferOut(cmd[..]);
      }
    }

    /** Five ones and a zero. */
    method ResetTap()
      modifies this`device
      ensures device == AfterReset(old(device))
    {
      hide Clocks, TmsEdges, TmsByte, Five, Clock;
      ZeroTms();
      FiveEdges(device);
      ShiftTms(0x1F, 5, false);
      OneLowEdge(device);
      ShiftTms(0x00, 1, false);
    }

    /** Drops whatever is waiting to be read. */
    method Flush()
      modifies this`device
      ensures device == old(device).(reply := [])
    {
      RunImmediate(device);
      TransferOut([SEND_IMMEDIATE]);
      device := device.(reply := []);
    }

    method ReadReply(len: nat) returns (res: seq<Byte>)
      requires Valid() && |device.reply| == len
      modifies this`device
      ensures Valid() && res == old(device).reply && device == old(device).(reply := [])
    {
      hide Payload;
      var bytes := ReadData(deliver(device.reply), len);
      res := bytes[..];
      device := device.(reply := []);
    }

    /** The four bytes the selected register captured, read while 33 zeros are shifted in. */
    method ReadRegister() returns (res: seq<Byte>)
      requires Valid() && device.tap == RunTestIdle && |Selected(device)| >= 32
      modifies this`device
      ensures Valid() && res == Pack(Selected(old(device))[..32]) && device == AfterRead(old(device))
    {
      hide Run, Clocks, TmsEdges, TmsByte, Selected, Pack, AfterDR, Zeros;
      ghost var d := device.(reply := []);
      ZeroTms();
      EnterShiftDR(device);
      ShiftTms(0x01, 3, false);
      Flush();
      assert device == InShiftDR(d, []);
      SelectedKeeps(old(device));
      ReadRuns(d);
      PackFourLength(Selected(d)[..32]);
      TransferOut(READ_FOUR);
      res := ReadReply(4);
      ThreeTms(false);
      LeaveShift(device, false);
      ShiftTms(0x03, 3, false);
      ReadEnds(old(device));
    }

    /** From any state of the chain: the 32-bit number the IDCODE register captured. */
    method ReadIdcode() returns (id: nat)
      requires Valid() && HasWord(device, IDCODE)
      modifies this`device
      ensures Valid() && device == AfterIdcode(old(device))
      ensures id == Number(Captured(old(device), IDCODE))
    {
      hide AfterReset, IrBits, AfterRead, Pack, Number, LittleEndian;
      ResetIdles(device);
      ResetTap();
      IrIsSix(IDCODE);
      ShiftIr(IDCODE, 6);
      var res := ReadRegister();
      ReadsLsbFirst(Captured(old(device), IDCODE));
      id := LittleEndian(res);
    }

    method BigEndianBytes(words: seq<nat>) returns (bytes: seq<Byte>)
      ensures bytes == AllBytes(words)
    {
      bytes := [];
      for i := 0 to |words|
        invariant bytes == AllBytes(words[..i])
      {
        assert words[..i + 1][..i] == words[..i];
        bytes := bytes + WordBytes(words[i]);
      }
      assert words[..|words|] == words;
    }

    method ReverseEach(bytes: seq<Byte>) returns (rev: array<Byte>)
      requires Valid()
      ensures Valid() && fresh(rev) && rev[..] == ReverseAll(bytes)
    {
      hide Reverse, Payload;
      rev := new Byte[|bytes|];
      for i := 0 to |bytes|
        invariant Valid() && forall k: nat :: k < i ==> rev[k] == Reverse(bytes[k])
      {
        rev[i] := revLut[bytes[i]];
      }
    }

    /** Sends bytes most significant bit first through the data register. */
    method ShiftReversed(bytes: seq<Byte>) returns (ok: bool)
      requires Valid() && device.tap == RunTestIdle
      modifies this`device
      ensures Valid() && (ok <==> bytes != [])
      ensures device == if ok then AfterDR(old(device), MsbFirst(bytes)) else old(device)
    {
      hide Reverse, Payload, AfterDR;
      var rev := ReverseEach(bytes);
      ReversedBytesAreMsbFirst(bytes);
      ok := ShiftDrBulk(rev[..]);
    }

    /** The status word: bit k is bit 31 - k of what the CFG_OUT register captured. */
    method ReadStatus() returns (status: nat)
      requires Valid() && device.tap == RunTestIdle && HasWord(device, CFG_OUT)
      modifies this`device
      ensures Valid() && device == AfterStatus(old(device))
      ensures status == Number(Reversed(Captured(old(device), CFG_OUT)))
    {
      hide IrBits, AfterRead, Pack, Number, MsbFirst, StatusWord, Reversed, AllBytes, WordsMsbFirst;
      IrIsSix(CFG_IN);
      IrIsSix(CFG_OUT);
      ShiftIr(CFG_IN, 6);
      var cmdBytes := BigEndianBytes(STATUS_PACKETS);
      var ok := ShiftReversed(cmdBytes);
      WordsAreMsbFirst(STATUS_PACKETS);
      ShiftIr(CFG_OUT, 6);
      var res := ReadRegister();
      ReadsMsbFirst(Captured(old(device), CFG_OUT));
      status := StatusWord(res);
    }

    method IdleClocks()
      requires Idle(device)
      modifies this`device
      ensures device == AfterIdleClocks(old(device), 2048)
    {
      hide Run, Clocks, LsbFirst, DataEdges;
      var zeros: seq<Byte> := seq(256, k => 0);
      RunBytes(device, CLOCK_BYTES_OUT, zeros, []);
      RunAlone(device, [CLOCK_BYTES_OUT, 255, 0] + zeros);
      Idling(device, LsbFirst(zeros));
      RunAlone(AfterIdleClocks(device, 2048), []);
      TransferOut([CLOCK_BYTES_OUT, 255, 0] + zeros);
    }

    /** Configuration from any state of the chain; an empty bitstream is refused once CFG_IN is loaded. */
    method ProgramXc7(bitstream: seq<Byte>) returns (ok: bool, done: bool)
      requires Valid() && HasWord(device, CFG_OUT)
      modifies this`device
      ensures Valid() && (ok <==> bitstream != [])
      ensures device == if ok then AfterProgram(old(device), bitstream) else BeforePayload(old(device))
      ensures ok ==> done == Captured(old(device), CFG_OUT)[17]
    {
      hide AfterReset, IrBits, AfterStatus, MsbFirst, Number, Reversed;
      ResetIdles(device);
      ResetTap();
      IrIsSix(JPROGRAM);
      IrIsSix(BYPASS);
      IrIsSix(CFG_IN);
      IrIsSix(JSTART);
      ShiftIr(JPROGRAM, 6);
      ShiftIr(BYPASS, 6);
      ShiftIr(CFG_IN, 6);
      ok := ShiftReversed(bitstream);
      if !ok { return ok, false; }
      ShiftIr(JSTART, 6);
      IdleClocks();
      var status := ReadStatus();
      DoneBit(Captured(old(device), CFG_OUT));
      done := Bit(status, 14);
    }
  }

  // ----- Whole sessions -----

  datatype Call = ShiftIrCall(instruction: nat, len: nat) | BulkCall(tdi: seq<Byte>)
    | IdcodeCall | StatusCall | ProgramCall(bitstream: seq<Byte>)

  predicate LegalCall(c: Call) { c.ShiftIrCall? ==> 2 <= c.len <= 9 }

  function After(d: Device, c: Call): Device {
    match c
    case ShiftIrCall(instruction, len) => AfterIR(d, BitString(instruction, len))
    case BulkCall(tdi) => if tdi == [] then d else AfterDR(d, LsbFirst(tdi))
    case IdcodeCall => AfterIdcode(d)
    case StatusCall => AfterStatus(d)
    case ProgramCall(bitstream) => if bitstream == [] then BeforePayload(d) else AfterProgram(d, bitstream)
  }

  function StatusEvents(): seq<Event> {
    [LoadIR(IrBits(CFG_IN)), LoadDR(WordsMsbFirst(STATUS_PACKETS)), LoadIR(IrBits(CFG_OUT)), LoadDR(Zeros(33))]
  }

  function PrepareEvents(): seq<Event> {
    [Reset, LoadIR(IrBits(JPROGRAM)), LoadIR(IrBits(BYPASS)), LoadIR(IrBits(CFG_IN))]
  }

  /** What the chain sees of a call. */
  function Events(c: Call): seq<Event> {
    match c
    case ShiftIrCall(instruction, len) => [LoadIR(BitString(instruction, len))]
    case BulkCall(tdi) => if tdi == [] then [] else [LoadDR(LsbFirst(tdi))]
    case IdcodeCall => [Reset, LoadIR(IrBits(IDCODE)), LoadDR(Zeros(33))]
    case StatusCall => StatusEvents()
    case ProgramCall(bitstream) =>
      if bitstream == [] then PrepareEvents()
      else PrepareEvents() + ([LoadDR(MsbFirst(bitstream)), LoadIR(IrBits(JSTART))] + (seq(2048, k => IdleClock) + StatusEvents()))
  }

  /** The instructions as the chain takes them in, first bit first. */
  lemma InstructionBits()
    ensures IrBits(CFG_IN) == [true, false, true, false, false, false]
    ensures IrBits(CFG_OUT) == [false, false, true, false, false, false]
    ensures IrBits(IDCODE) == [true, false, false, true, false, false]
    ensures IrBits(JPROGRAM) == [true, true, false, true, false, false]
    ensures IrBits(JSTART) == [false, false, true, true, false, false]
    ensures IrBits(BYPASS) == [true, true, true, true, true, true]
  {
    hide IrBits;
    IrIs([true, false, true, false, false, false]);
    IrIs([false, false, true, false, false, false]);
    IrIs([true, false, false, true, false, false]);
    IrIs([true, true, false, true, false, false]);
    IrIs([false, false, true, true, false, false]);
    IrIs([true, true, true, true, true, true]);
  }

  /** Six bits are those of the number with these binary digits. */
  lemma IrIs(v: seq<bool>)
    requires |v| == 6
    ensures IrBits((if v[0] then 1 else 0) + (if v[1] then 2 else 0) + (if v[2] then 4 else 0)
                   + (if v[3] then 8 else 0) + (if v[4] then 16 else 0) + (if v[5] then 32 else 0)) == v
  {
    SixDigits(v);
    hide Number, Bit;
    forall k: nat | k < 6 ensures Bit(Number(v), k) == v[k] { NumberBits(v, k); }
  }

  lemma SixDigits(v: seq<bool>)
    requires |v| == 6
    ensures Number(v) == (if v[0] then 1 else 0) + (if v[1] then 2 else 0) + (if v[2] then 4 else 0)
                         + (if v[3] then 8 else 0) + (if v[4] then 16 else 0) + (if v[5] then 32 else 0)
  {
    var three := v[3..];
    assert v[1..][1..][1..] == three && three[1..][1..][1..] == [];
    assert Number(three) == (if v[3] then 1 else 0) + 2 * Number(three[1..]);
    assert Number(three[1..]) == (if v[4] then 1 else 0) + 2 * Number(three[1..][1..]);
    assert Number(three[1..][1..]) == if v[5] then 1 else 0;
    assert Number(v) == (if v[0] then 1 else 0) + 2 * Number(v[1..]);
    assert Number(v[1..]) == (if v[1] then 1 else 0) + 2 * Number(v[1..][1..]);
  }

  /** Bit j of word k in the order it goes out: most significant first. */
  lemma {:induction false} WordBitOut(words: seq<nat>, k: nat, j: nat)
    requires k < |words| && j < 32
    ensures |WordsMsbFirst(words)| == 32 * |words| && (WordsMsbFirst(words)[32 * k + j] <==> Bit(words[k], 31 - j))
  {
    hide Bit;
    var init := words[..|words| - 1];
    if k < |init| {
      WordBitOut(init, k, j);
    } else if |init| > 0 {
      WordBitOut(init, 0, 0);
    }
  }

  /** Sync word, no-op, read of the status register, two no-ops, each most significant bit first. */
  lemma StatusBits(k: nat, j: nat)
    requires k < 5 && j < 32
    ensures var out := WordsMsbFirst(STATUS_PACKETS);
      |out| == 160 && (out[32 * k + j] <==> Bit([0xAA995566, 0x20000000, 0x2800E001, 0x20000000, 0x20000000][k], 31 - j))
  {
    hide Bit;
    WordBitOut(STATUS_PACKETS, k, j);
  }

  function AllEvents(calls: seq<Call>): seq<Event> {
    if calls == [] then [] else AllEvents(calls[..|calls| - 1]) + Events(calls[|calls| - 1])
  }

  lemma StatusLog(d: Device)
    ensures Idle(AfterStatus(d)) && AfterStatus(d).registers == d.registers
    ensures AfterStatus(d).log == d.log + StatusEvents()
  {
    hide BitString, WordsMsbFirst, Zeros, IrBits;
  }

  lemma PrepareLog(d: Device)
    requires Idle(d)
    ensures Idle(BeforePayload(d)) && BeforePayload(d).registers == d.registers
    ensures BeforePayload(d).log == d.log + PrepareEvents()
  {
    ResetIdles(d);
    hide AfterReset, IrBits;
  }

  lemma ProgramLog(d: Device, bitstream: seq<Byte>)
    requires Idle(d)
    ensures Idle(AfterProgram(d, bitstream)) && AfterProgram(d, bitstream).registers == d.registers
    ensures AfterProgram(d, bitstream).log == d.log + (PrepareEvents()
            + ([LoadDR(MsbFirst(bitstream)), LoadIR(IrBits(JSTART))] + (seq(2048, k => IdleClock) + StatusEvents())))
  {
    PrepareLog(d);
    var started := Started(d, bitstream);
    var sent := [LoadDR(MsbFirst(bitstream)), LoadIR(IrBits(JSTART))];
    assert started.log == d.log + PrepareEvents() + sent && started.registers == d.registers;
    StatusLog(AfterIdleClocks(started, 2048));
    hide BeforePayload, AfterStatus, PrepareEvents, StatusEvents, Started, MsbFirst, IrBits;
    var idle := seq(2048, k => IdleClock);
    Regroup(d.log + PrepareEvents() + sent, idle, StatusEvents());
    Regroup(d.log + PrepareEvents(), sent, idle + StatusEvents());
    Regroup(d.log, PrepareEvents(), sent + (idle + StatusEvents()));
  }

  lemma IdcodeLog(d: Device)
    requires Idle(d)
    ensures Idle(AfterIdcode(d)) && AfterIdcode(d).registers == d.registers
    ensures AfterIdcode(d).log == d.log + [Reset, LoadIR(IrBits(IDCODE)), LoadDR(Zeros(33))]
  {
    ResetIdles(d);
    hide AfterReset, IrBits, Zeros;
  }

  /** Every call that starts in Run-Test/Idle with TMS low ends there and shows the chain exactly its events. */
  lemma CallStaysIdle(d: Device, c: Call)
    requires Idle(d)
    ensures Idle(After(d, c)) && After(d, c).registers == d.registers && After(d, c).log == d.log + Events(c)
  {
    hide AfterIdcode, AfterStatus, StatusEvents, PrepareEvents, BeforePayload, AfterProgram;
    match c
    case IdcodeCall => IdcodeLog(d);
    case StatusCall => StatusLog(d);
    case ProgramCall(bitstream) =>
      PrepareLog(d);
      ProgramLog(d, bitstream);
    case BulkCall(tdi) => assert d.log + [] == d.log;
    case ShiftIrCall(_, _) =>
  }

  method Perform(jtag: WebUsbJtag, c: Call)
    requires jtag.Valid() && Idle(jtag.device) && LegalCall(c) && HasWord(jtag.device, IDCODE) && HasWord(jtag.device, CFG_OUT)
    modifies jtag`device
    ensures jtag.Valid() && jtag.device == After(old(jtag.device), c)
  {
    hide Reverse, Payload, AfterIR, AfterDR, AfterIdcode, AfterStatus, AfterProgram, BeforePayload;
    match c {
      case ShiftIrCall(instruction, len) => jtag.ShiftIr(instruction, len);
      case BulkCall(tdi) => var _ := jtag.ShiftDrBulk(tdi);
      case IdcodeCall => var _ := jtag.ReadIdcode();
      case StatusCall => var _ := jtag.ReadStatus();
      case ProgramCall(bitstream) => var _, _ := jtag.ProgramXc7(bitstream);
    }
  }

  /** After a reset from any state, any list of calls: the chain is idle between calls and sees the events
      of each call, in order, and nothing else. */
  method Session(jtag: WebUsbJtag, calls: seq<Call>)
    requires jtag.Valid() && HasWord(jtag.device, IDCODE) && HasWord(jtag.device, CFG_OUT)
    requires forall c :: c in calls ==> LegalCall(c)
    modifies jtag`device
    ensures jtag.Valid() && Idle(jtag.device)
    ensures jtag.device.log == AfterReset(old(jtag.device)).log + AllEvents(calls)
  {
    hide Reverse, Payload, After, Events, AfterReset;
    ResetIdles(jtag.device);
    jtag.ResetTap();
    ghost var start := jtag.device.log;
    assert start + [] == start;
    for i := 0 to |calls|
      invariant jtag.Valid() && Idle(jtag.device) && jtag.device.registers == old(jtag.device.registers)
      invariant jtag.device.log == start + AllEvents(calls[..i])
    {
      CallStaysIdle(jtag.device, calls[i]);
      Perform(jtag, calls[i]);
      assert calls[..i + 1][..i] == calls[..i];
      Regroup(start, AllEvents(calls[..i]), Events(calls[i]));
    }
    assert calls[..|calls|] == calls;
  }

  lemma IrIsSix(instruction: nat)
    ensures BitString(instruction, 6) == IrBits(instruction)
  {
  }

  /** DONE is bit 14 of the status word, the 18th bit captured. */
  lemma DoneBit(v: seq<bool>)
    requires |v| == 32
    ensures Bit(Number(Reversed(v)), 14) == v[17]
  {
    NumberBits(Reversed(v), 14);
  }

  lemma SelectedKeeps(d: Device)
    ensures Selected(d.(reply := [])) == Selected(d)
  {
  }

  lemma PackFourLength(v: seq<bool>)
    requires |v| == 32
    ensures |Pack(v)| == 4 && [] + Pack(v) == Pack(v)
  {
    PackFour(v);
  }

  lemma ReadEnds(d: Device)
    ensures AfterDR(InShiftDR(d.(reply := []), Zeros(32)).(reply := []), Zeros(32) + [false]) == AfterRead(d)
  {
    assert Zeros(32) + [false] == Zeros(33);
  }

  lemma ZeroTms()
    ensures TmsByte(false, 0x03) == 0x03 && TmsByte(false, 0x01) == 0x01
    ensures TmsByte(false, 0x1F) == 0x1F && TmsByte(false, 0x00) == 0x00
  {
  }

  lemma ThreeTms(tdi: bool)
    ensures TmsByte(tdi, 0x03) == (if tdi then 0x80 else 0) + 0x03
  {
  }
}
