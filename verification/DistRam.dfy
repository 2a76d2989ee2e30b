/** Packing a distributed RAM into four LUT memories and a write port (ecp5/cells.cc, ecp5/pack.cc).

    A RAM has four read address bits, four write address bits and four data bits.  COMB k keeps data
    bit k of all sixteen words in its truth table; the RAMW cell passes the write address and data on. */
module DistRam {
  import opened Basics
  import opened Bits

  datatype Letter = A | B | C | D

  /** RamPort names: of the RAM, of a COMB cell, and of the RAMW cell. */
  datatype RamPort = Rad(i: nat) | Wad(i: nat) | Di(i: nat) | Do(i: nat) | Wre | Wck
    | Lut(l: Letter) | CombWad(i: nat) | CombWd | CombF
    | RamwIn(l: Letter, half: nat) | Wado(i: nat) | Wdo(i: nat)

  type Ports = map<RamPort, Option<Net>>

  function At(ports: Ports, p: RamPort): Option<Net> { if p in ports then ports[p] else None }

  // ----- Ports -----

  predicate Unconnected(ports: Ports, names: set<RamPort>) { ports.Keys == names && forall p :: p in names ==> ports[p] == None }

  class NetlistCell {
    var ports: Ports
    var initval: nat
    var params: map<string, string>
    var attrs: map<string, string>

    constructor (names: set<RamPort>)
      ensures Unconnected(ports, names) && initval == 0 && params == map[] && attrs == map[]
    {
      params, attrs := map[], map[];
      ports := map p | p in names :: None;
      initval := 0;
    }

    method MovePortTo(port: RamPort, other: NetlistCell, otherPort: RamPort)
      requires other != this
      modifies this`ports, other`ports
      ensures ports == if port in old(ports) then old(ports)[port := None] else old(ports)
      ensures other.ports == if port in old(ports) then old(other.ports)[otherPort := old(ports)[port]] else old(other.ports)
    {
      if port !in ports { return; }
      if otherPort !in other.ports { other.ports := other.ports[otherPort := None]; }
      other.ports := other.ports[otherPort := ports[port]];
      ports := ports[port := None];
    }

    method ConnectPort(port: RamPort, net: Option<Net>)
      requires port in ports && (net.Some? ==> ports[port] == None)
      modifies this`ports
      ensures ports == if net.Some? then old(ports)[port := net] else old(ports)
    {
      if net == None { return; }
      ports := ports[port := net];
    }

    method DisconnectPort(port: RamPort)
      modifies this`ports
      ensures ports == if port in old(ports) then old(ports)[port := None] else old(ports)
    {
      if port in ports { ports := ports[port := None]; }
    }
  }

  /** Nets are numbered in the order they are made. */
  class Context {
    var nets: nat

    constructor (nets: nat)
      ensures this.nets == nets
    {
      this.nets := nets;
    }

    method CreateNet() returns (net: Net)
      modifies this
      ensures net == old(nets) && nets == old(nets) + 1
    {
      net := nets;
      nets := nets + 1;
    }

    /** A shared net between two ports, made on first use. */
    method ConnectPorts(cell: NetlistCell, port: RamPort, other: NetlistCell, otherPort: RamPort)
      requires cell != other && port in cell.ports && otherPort in other.ports && other.ports[otherPort] == None
      modifies this, cell`ports, other`ports
      ensures var n := if old(cell.ports)[port] == None then Some(old(nets)) else old(cell.ports)[port];
        cell.ports == old(cell.ports)[port := n] && other.ports == old(other.ports)[otherPort := n]
      ensures nets == old(nets) + if old(cell.ports)[port] == None then 1 else 0
    {
      if cell.ports[port] == None {
        var net := CreateNet();
        cell.ConnectPort(port, Some(net));
      }
      assert cell.ports[port := cell.ports[port]] == cell.ports;
      other.ConnectPort(otherPort, cell.ports[port]);
    }
  }

  // ----- The truth tables -----

  /** The initial contents: absent, or 64 characters. */
  type InitProperty = Option<string>

  function InitText(init: InitProperty): string { if init == None then seq(64, k => '0') else init.value }

  predicate LegalColumn(s: string, bit: nat) {
    bit < 4 && |s| == 64 && forall i: nat :: i < 16 ==> s[4 * i + bit] in ['0', '1', 'x']
  }

  predicate StoredBit(s: string, bit: nat, i: nat)
    requires bit < 4 && |s| == 64 && i < 16
  {
    s[4 * i + bit] == '1'
  }

  /** get_dram_init: column `bit` of the contents as a 16-bit number; None is a failed assertion. */
  method GetDramInit(init: InitProperty, bit: nat) returns (value: Option<nat>)
    requires bit < 4
    ensures value.Some? <==> LegalColumn(InitText(init), bit)
    ensures value.Some? ==> forall i: nat :: Bit(value.value, i) <==> i < 16 && StoredBit(InitText(init), bit, i)
  {
    var s := InitText(init);
    if |s| != 64 { return None; }
    var v := 0;
    forall k: nat ensures !Bit(0, k) { ZeroBits(k); }
    for i := 0 to 16
      invariant forall k: nat :: k < i ==> s[4 * k + bit] in ['0', '1', 'x']
      invariant forall k: nat :: Bit(v, k) <==> k < i && StoredBit(s, bit, k)
    {
      var c := s[4 * i + bit];
      if c == '1' {
        forall k: nat ensures Bit(SetBit(v, i), k) <==> k == i || Bit(v, k) { SetBitBits(v, i, k); }
        v := SetBit(v, i);
      } else if c != '0' && c != 'x' {
        return None;
      }
    }
    return Some(v);
  }

  /** The address that entry i of the truth table stands for. */
  function PermutedAddr(i: nat): nat {
    OrBit(OrBit(OrBit(OrBit(0, Bit(i, 0), 3), Bit(i, 1), 1), Bit(i, 2), 2), Bit(i, 3), 0)
  }

  /** With A, B, C, D on bits 0 to 3 of the entry, the address has D, B, C, A on bits 0 to 3. */
  lemma PermutedAddrIs(a: bool, b: bool, c: bool, d: bool)
    ensures PermutedAddr(Number([a, b, c, d])) == Number([d, b, c, a])
  {
    var i := Number([a, b, c, d]);
    NumberBits([a, b, c, d], 0);
    NumberBits([a, b, c, d], 1);
    NumberBits([a, b, c, d], 2);
    NumberBits([a, b, c, d], 3);
    var v0 := OrBit(0, a, 3);
    var v1 := OrBit(v0, b, 1);
    var v2 := OrBit(v1, c, 2);
    hide Bit, OrBit;
    forall j: nat ensures Bit(PermutedAddr(i), j) <==> j < 4 && [d, b, c, a][j] {
      ZeroBits(j);
      OrBitBits(0, a, 3, j);
      OrBitBits(v0, b, 1, j);
      OrBitBits(v1, c, 2, j);
      OrBitBits(v2, d, 0, j);
    }
    NumberFromBits(PermutedAddr(i), [d, b, c, a]);
  }

  /** The loop that permutes the table. */
  method PermuteInit(init: nat) returns (permuted: nat)
    ensures forall i: nat :: Bit(permuted, i) <==> i < 16 && Bit(init, PermutedAddr(i))
  {
    hide PermutedAddr;
    permuted := 0;
    forall k: nat ensures !Bit(0, k) { ZeroBits(k); }
    for i := 0 to 16
      invariant forall k: nat :: Bit(permuted, k) <==> k < i && Bit(init, PermutedAddr(k))
    {
      if Bit(init, PermutedAddr(i)) {
        forall k: nat ensures Bit(SetBit(permuted, i), k) <==> k == i || Bit(permuted, k) { SetBitBits(permuted, i, k); }
        permuted := SetBit(permuted, i);
      }
    }
  }

  // ----- The wiring -----

  /** The LUT input that read address bit i is wired to. */
  function AddressLetter(i: nat): Letter { match i case 0 => D case 1 => B case 2 => C case _ => A }

  function DataLetter(i: nat): Letter { match i case 0 => C case 1 => A case 2 => D case _ => B }

  /** The RAMW input that each output repeats. */
  function PassThrough(o: RamPort): RamPort
    requires o.Wado? || o.Wdo?
  {
    match o
    case Wado(0) => RamwIn(D, 0)
    case Wado(1) => RamwIn(B, 0)
    case Wado(2) => RamwIn(C, 0)
    case Wado(_) => RamwIn(A, 0)
    case Wdo(0) => RamwIn(C, 1)
    case Wdo(1) => RamwIn(A, 1)
    case Wdo(2) => RamwIn(D, 1)
    case Wdo(_) => RamwIn(B, 1)
  }

  /** What the RAMW inputs hold after the split, and what the RAM keeps. */
  ghost predicate SplitDone(ram0: Ports, ram: Ports, ramw0: Ports, ramw: Ports) {
    && (forall i: nat :: i < 4 ==> At(ramw, PassThrough(Wado(i))) == At(ram0, Wad(i)))
    && (forall i: nat :: i < 4 ==> At(ramw, PassThrough(Wdo(i))) == At(ram0, Di(i)))
    && (forall i: nat :: i < 4 ==> At(ram, Wad(i)) == None && At(ram, Di(i)) == None)
    && (forall p: RamPort :: !p.RamwIn? ==> At(ramw, p) == At(ramw0, p) && (p in ramw0 ==> p in ramw))
    && (forall p: RamPort :: !p.Wad? && !p.Di? ==> At(ram, p) == At(ram0, p))
  }

  /** RamPort p of one cell becomes port q of the other; where there is no port p, nothing happens. */
  ghost predicate Moved(from0: Ports, from1: Ports, p: RamPort, to0: Ports, to1: Ports, q: RamPort) {
    && (forall r: RamPort :: At(from1, r) == if r == p then None else At(from0, r))
    && (forall r: RamPort :: r != q ==> At(to1, r) == At(to0, r))
    && At(to1, q) == (if p in from0 then At(from0, p) else At(to0, q))
    && (forall r: RamPort :: r in to0 ==> r in to1)
    && (p !in from0 ==> At(from0, p) == None)
  }

  method Move(ram: NetlistCell, p: RamPort, ramw: NetlistCell, q: RamPort)
    requires ram != ramw
    modifies ram`ports, ramw`ports
    ensures Moved(old(ram.ports), ram.ports, p, old(ramw.ports), ramw.ports, q)
  {
    ram.MovePortTo(p, ramw, q);
  }

  predicate Distinct(p: seq<RamPort>) { forall i, j :: 0 <= i < j < |p| ==> p[i] != p[j] }

  /** The ports p of one cell became the ports q of the other; all else is as before. */
  ghost predicate AllMoved(r0: Ports, r: Ports, p: seq<RamPort>, w0: Ports, w: Ports, q: seq<RamPort>)
    requires |p| == |q|
  {
    && (forall s: RamPort :: At(r, s) == if s in p then None else At(r0, s))
    && (forall i :: 0 <= i < |q| ==> At(w, q[i]) == At(r0, p[i]))
    && (forall s: RamPort :: s !in q ==> At(w, s) == At(w0, s))
    && (forall s: RamPort :: s in w0 ==> s in w)
  }

  /** Moves between different ports, onto free ones, one after the other. */
  lemma {:induction false} Moves(r: seq<Ports>, p: seq<RamPort>, w: seq<Ports>, q: seq<RamPort>, n: nat)
    requires |r| == |w| == |p| + 1 && |q| == |p| && n <= |p| && Distinct(p) && Distinct(q)
    requires forall i :: 0 <= i < |p| ==> Moved(r[i], r[i + 1], p[i], w[i], w[i + 1], q[i]) && At(w[0], q[i]) == None
    ensures AllMoved(r[0], r[n], p[..n], w[0], w[n], q[..n])
  {
    hide At;
    if n > 0 {
      Moves(r, p, w, q, n - 1);
      assert Moved(r[n - 1], r[n], p[n - 1], w[n - 1], w[n], q[n - 1]);
      assert p[..n] == p[..n - 1] + [p[n - 1]] && q[..n] == q[..n - 1] + [q[n - 1]];
    }
  }

  lemma FourMoves(r: seq<Ports>, p: seq<RamPort>, w: seq<Ports>, q: seq<RamPort>)
    requires |r| == |w| == 5 && |p| == |q| == 4 && Distinct(p) && Distinct(q)
    requires Moved(r[0], r[1], p[0], w[0], w[1], q[0]) && Moved(r[1], r[2], p[1], w[1], w[2], q[1])
    requires Moved(r[2], r[3], p[2], w[2], w[3], q[2]) && Moved(r[3], r[4], p[3], w[3], w[4], q[3])
    requires forall i :: 0 <= i < 4 ==> At(w[0], q[i]) == None
    ensures AllMoved(r[0], r[4], p, w[0], w[4], q)
  {
    hide At, Moved, AllMoved;
    Moves(r, p, w, q, 4);
    assert p[..4] == p && q[..4] == q;
  }

  /** WAD[0] to D0, WAD[1] to B0, WAD[2] to C0, WAD[3] to A0. */
  const WAD: seq<RamPort> := seq(4, i requires 0 <= i => Wad(i))
  const WAD_IN: seq<RamPort> := seq(4, i requires 0 <= i => RamwIn(AddressLetter(i), 0))
  /** DI[0] to C1, DI[1] to A1, DI[2] to D1, DI[3] to B1. */
  const DI: seq<RamPort> := seq(4, i requires 0 <= i => Di(i))
  const DI_IN: seq<RamPort> := seq(4, i requires 0 <= i => RamwIn(DataLetter(i), 1))

  method MoveFour(ram: NetlistCell, p: seq<RamPort>, ramw: NetlistCell, q: seq<RamPort>)
    requires ram != ramw && |p| == |q| == 4 && Distinct(p) && Distinct(q)
    requires forall i :: 0 <= i < 4 ==> At(ramw.ports, q[i]) == None
    modifies ram`ports, ramw`ports
    ensures AllMoved(old(ram.ports), ram.ports, p, old(ramw.ports), ramw.ports, q)
  {
    hide At, Moved, AllMoved;
    ghost var r0, w0 := ram.ports, ramw.ports;
    Move(ram, p[0], ramw, q[0]);
    ghost var r1, w1 := ram.ports, ramw.ports;
    Move(ram, p[1], ramw, q[1]);
    ghost var r2, w2 := ram.ports, ramw.ports;
    Move(ram, p[2], ramw, q[2]);
    ghost var r3, w3 := ram.ports, ramw.ports;
    Move(ram, p[3], ramw, q[3]);
    FourMoves([r0, r1, r2, r3, ram.ports], p, [w0, w1, w2, w3, ramw.ports], q);
  }

  lemma PortLists(i: nat)
    requires i < 4
    ensures PassThrough(Wado(i)) == WAD_IN[i] && PassThrough(Wdo(i)) == DI_IN[i] && WAD[i] == Wad(i) && DI[i] == Di(i)
    ensures WAD_IN[i] !in DI_IN && DI[i] !in WAD && WAD[i] in WAD && DI[i] in DI
  {
  }

  lemma SplitFromMoves(r0: Ports, r1: Ports, r2: Ports, w0: Ports, w1: Ports, w2: Ports)
    requires AllMoved(r0, r1, WAD, w0, w1, WAD_IN) && AllMoved(r1, r2, DI, w1, w2, DI_IN)
    ensures SplitDone(r0, r2, w0, w2)
  {
    hide At, PassThrough;
    forall i: nat | i < 4
      ensures At(w2, PassThrough(Wado(i))) == At(r0, Wad(i)) && At(w2, PassThrough(Wdo(i))) == At(r0, Di(i))
      ensures At(r2, Wad(i)) == None && At(r2, Di(i)) == None
    {
      PortLists(i);
    }
  }

  method DramToRamwSplit(ram: NetlistCell, ramw: NetlistCell)
    requires ram != ramw && forall l, h :: At(ramw.ports, RamwIn(l, h)) == None
    modifies ram`ports, ramw`ports
    ensures SplitDone(old(ram.ports), ram.ports, old(ramw.ports), ramw.ports)
  {
    hide At, SplitDone;
    MoveFour(ram, WAD, ramw, WAD_IN);
    ghost var r1, w1 := ram.ports, ramw.ports;
    assert forall i :: 0 <= i < 4 ==> DI_IN[i] !in WAD_IN;
    MoveFour(ram, DI, ramw, DI_IN);
    hide AllMoved;
    SplitFromMoves(old(ram.ports), r1, ram.ports, old(ramw.ports), w1, ramw.ports);
  }

  /** A copy of one connection; the port is still free. */
  method ConnectFrom(ram: NetlistCell, p: RamPort, comb: NetlistCell, q: RamPort)
    requires ram != comb && q in comb.ports && comb.ports[q] == None
    modifies comb`ports
    ensures comb.ports == old(comb.ports)[q := At(ram.ports, p)]
  {
    if p in ram.ports {
      comb.ConnectPort(q, ram.ports[p]);
    }
  }

  const COMB_PORTS: set<RamPort> := {Lut(A), Lut(B), Lut(C), Lut(D), CombWad(0), CombWad(1), CombWad(2), CombWad(3), CombWd, Wre, Wck, CombF}
  const RAMW_PORTS: set<RamPort> := {RamwIn(A, 0), RamwIn(B, 0), RamwIn(C, 0), RamwIn(D, 0), RamwIn(A, 1), RamwIn(B, 1), RamwIn(C, 1), RamwIn(D, 1),
    Wado(0), Wado(1), Wado(2), Wado(3), Wdo(0), Wdo(1), Wdo(2), Wdo(3)}

  predicate Free(ports: Ports, p: RamPort) { p in ports && ports[p] == None }

  ghost predicate FreeComb(ports: Ports) {
    && (forall l :: Free(ports, Lut(l))) && (forall i: nat :: i < 4 ==> Free(ports, CombWad(i)))
    && Free(ports, CombWd) && Free(ports, Wre) && Free(ports, Wck) && Free(ports, CombF)
  }

  /** The read address, write enable and clock of a COMB cell. */
  ghost predicate ReadWired(ram: Ports, comb: Ports) {
    && (forall i: nat :: i < 4 ==> At(comb, Lut(AddressLetter(i))) == At(ram, Rad(i)))
    && At(comb, Wre) == At(ram, Wre) && At(comb, Wck) == At(ram, Wck)
  }

  ghost predicate WriteFree(comb: Ports) {
    && Free(comb, CombWd) && At(comb, CombF) == None && forall i: nat :: i < 4 ==> Free(comb, CombWad(i))
  }

  method ConnectRead(ram: NetlistCell, comb: NetlistCell)
    requires ram != comb && FreeComb(comb.ports)
    modifies comb`ports
    ensures ReadWired(ram.ports, comb.ports) && WriteFree(comb.ports)
  {
    ghost var r, c := ram.ports, comb.ports;
    assert Free(c, Lut(D)) && Free(c, Lut(B)) && Free(c, Lut(C)) && Free(c, Lut(A)) && Free(c, Wre) && Free(c, Wck);
    hide At, FreeComb, ReadWired, WriteFree;
    ConnectFrom(ram, Rad(0), comb, Lut(D));
    ConnectFrom(ram, Rad(1), comb, Lut(B));
    ConnectFrom(ram, Rad(2), comb, Lut(C));
    ConnectFrom(ram, Rad(3), comb, Lut(A));
    ConnectFrom(ram, Wre, comb, Wre);
    ConnectFrom(ram, Wck, comb, Wck);
    ReadDone(r, c, comb.ports);
  }

  lemma ReadDone(r: Ports, c: Ports, c': Ports)
    requires FreeComb(c)
    requires c' == c[Lut(D) := At(r, Rad(0))][Lut(B) := At(r, Rad(1))][Lut(C) := At(r, Rad(2))][Lut(A) := At(r, Rad(3))]
                    [Wre := At(r, Wre)][Wck := At(r, Wck)]
    ensures ReadWired(r, c') && WriteFree(c')
  {
    forall i: nat | i < 4 ensures Free(c', CombWad(i)) {
      assert Free(c, CombWad(i));
    }
  }

  ghost predicate HasOutputs(ramw: Ports) { forall i: nat :: i < 4 ==> Wado(i) in ramw && Wdo(i) in ramw }

  predicate Output(p: RamPort) { p.Wado? || p.Wdo? }

  /** The nets made for the RAMW outputs are distinct and numbered from lo up to hi. */
  ghost predicate OwnNets(ramw: Ports, lo: nat, hi: nat) {
    && (forall p: RamPort :: Output(p) && At(ramw, p).Some? ==> lo <= At(ramw, p).value < hi)
    && (forall p: RamPort, q: RamPort :: Output(p) && Output(q) && p != q && At(ramw, p).Some? ==> At(ramw, p) != At(ramw, q))
  }

  /** Outputs that have a net keep it, and inputs keep theirs. */
  ghost predicate Keeps(ramw0: Ports, ramw: Ports) {
    forall p: RamPort :: (p in ramw0 ==> p in ramw) && (At(ramw0, p).Some? || !Output(p) ==> At(ramw, p) == At(ramw0, p))
  }

  /** Output o and input p share a net; the other inputs are as before. */
  ghost predicate Shared(ramw: Ports, o: RamPort, comb0: Ports, comb: Ports, p: RamPort) {
    && At(ramw, o).Some? && At(comb, p) == At(ramw, o)
    && forall q: RamPort :: (q in comb <==> q in comb0) && (q != p ==> At(comb, q) == At(comb0, q))
  }

  /** One RAMW output joined to one COMB input. */
  method Share(ctx: Context, ramw: NetlistCell, o: RamPort, comb: NetlistCell, p: RamPort, ghost lo: nat)
    requires ramw != comb && Output(o) && o in ramw.ports && p in comb.ports && comb.ports[p] == None
    requires lo <= ctx.nets && OwnNets(ramw.ports, lo, ctx.nets)
    modifies ctx, ramw`ports, comb`ports
    ensures lo <= ctx.nets && OwnNets(ramw.ports, lo, ctx.nets) && Keeps(old(ramw.ports), ramw.ports)
    ensures Shared(ramw.ports, o, old(comb.ports), comb.ports, p)
  {
    ctx.ConnectPorts(ramw, o, comb, p);
  }

  /** The write address and data of COMB k come from the RAMW outputs. */
  ghost predicate Written(ramw: Ports, comb: Ports, k: nat) {
    && (forall i: nat :: i < 4 ==> At(ramw, Wado(i)).Some? && At(comb, CombWad(i)) == At(ramw, Wado(i)))
    && At(ramw, Wdo(k)).Some? && At(comb, CombWd) == At(ramw, Wdo(k))
  }

  lemma KeepsTransitive(a: Ports, b: Ports, c: Ports)
    requires Keeps(a, b) && Keeps(b, c)
    ensures Keeps(a, c) && (HasOutputs(a) ==> HasOutputs(c))
  {
    hide At;
  }

  /** The ports that have to do with reading are as before. */
  ghost predicate ReadSame(c0: Ports, c: Ports) {
    forall p: RamPort :: !p.CombWad? && p != CombWd ==> At(c, p) == At(c0, p)
  }

  /** The first n write address bits are joined, the rest of the write side is free. */
  ghost predicate Joined(w0: Ports, w: Ports, c0: Ports, c: Ports, n: nat) {
    && (forall i: nat :: i < n ==> At(w, Wado(i)).Some? && At(c, CombWad(i)) == At(w, Wado(i)))
    && (forall i: nat :: n <= i < 4 ==> Free(c, CombWad(i)))
    && Free(c, CombWd) && ReadSame(c0, c) && HasOutputs(w) && Keeps(w0, w)
  }

  lemma FreeStays(w: Ports, o: RamPort, c1: Ports, c2: Ports, p: RamPort, q: RamPort)
    requires Shared(w, o, c1, c2, p) && Free(c1, q) && q != p
    ensures Free(c2, q)
  {
    assert At(c1, q) == None && At(c2, q) == None;
  }

  lemma PairsStay(w0: Ports, w1: Ports, w2: Ports, c0: Ports, c1: Ports, c2: Ports, n: nat, i: nat)
    requires i < n < 4 && Joined(w0, w1, c0, c1, n) && Keeps(w1, w2) && Shared(w2, Wado(n), c1, c2, CombWad(n))
    ensures At(w2, Wado(i)).Some? && At(c2, CombWad(i)) == At(w2, Wado(i))
  {
    hide At, Free, ReadSame, HasOutputs;
    assert At(w1, Wado(i)).Some?;
  }

  lemma ReadSameStays(w: Ports, n: nat, c0: Ports, c1: Ports, c2: Ports)
    requires ReadSame(c0, c1) && Shared(w, Wado(n), c1, c2, CombWad(n))
    ensures ReadSame(c0, c2) && At(w, Wado(n)).Some? && At(c2, CombWad(n)) == At(w, Wado(n))
  {
    hide At;
  }

  lemma OutputsStay(a: Ports, b: Ports)
    requires HasOutputs(a) && Keeps(a, b)
    ensures HasOutputs(b)
  {
    hide At;
  }

  lemma JoinOneMore(w0: Ports, w1: Ports, w2: Ports, c0: Ports, c1: Ports, c2: Ports, n: nat)
    requires n < 4 && Joined(w0, w1, c0, c1, n) && Keeps(w1, w2) && Shared(w2, Wado(n), c1, c2, CombWad(n))
    ensures Joined(w0, w2, c0, c2, n + 1)
  {
    hide At, Free, Shared, Keeps, HasOutputs;
    KeepsTransitive(w0, w1, w2);
    OutputsStay(w1, w2);
    ReadSameStays(w2, n, c0, c1, c2);
    forall i: nat | n < i < 4 ensures Free(c2, CombWad(i)) { FreeStays(w2, Wado(n), c1, c2, CombWad(n), CombWad(i)); }
    FreeStays(w2, Wado(n), c1, c2, CombWad(n), CombWd);
    forall i: nat | i < n ensures At(w2, Wado(i)).Some? && At(c2, CombWad(i)) == At(w2, Wado(i)) {
      PairsStay(w0, w1, w2, c0, c1, c2, n, i);
    }
    hide ReadSame;
  }

  lemma JoinStart(w: Ports, c: Ports)
    requires HasOutputs(w) && WriteFree(c)
    ensures Joined(w, w, c, c, 0)
  {
    hide At, Free;
  }

  lemma JoinReady(w0: Ports, w: Ports, c0: Ports, c: Ports, k: nat)
    requires k < 4 && Joined(w0, w, c0, c, 4)
    ensures Wdo(k) in w && CombWd in c && c[CombWd] == None
  {
  }

  lemma JoinData(w0: Ports, w1: Ports, w2: Ports, c0: Ports, c1: Ports, c2: Ports, k: nat)
    requires Joined(w0, w1, c0, c1, 4) && Keeps(w1, w2) && Shared(w2, Wdo(k), c1, c2, CombWd)
    ensures Written(w2, c2, k) && ReadSame(c0, c2) && Keeps(w0, w2)
  {
    hide At, Free;
    KeepsTransitive(w0, w1, w2);
  }

  method JoinAddress(ctx: Context, ramw: NetlistCell, comb: NetlistCell, i: nat, ghost lo: nat, ghost w0: Ports, ghost c0: Ports)
    requires i < 4 && ramw != comb && Joined(w0, ramw.ports, c0, comb.ports, i)
    requires lo <= ctx.nets && OwnNets(ramw.ports, lo, ctx.nets)
    modifies ctx, ramw`ports, comb`ports
    ensures lo <= ctx.nets && OwnNets(ramw.ports, lo, ctx.nets)
    ensures Joined(w0, ramw.ports, c0, comb.ports, i + 1)
  {
    hide OwnNets, Shared, Keeps, ReadSame;
    ghost var w, c := ramw.ports, comb.ports;
    assert Free(c, CombWad(i));
    Share(ctx, ramw, Wado(i), comb, CombWad(i), lo);
    hide Joined;
    JoinOneMore(w0, w, ramw.ports, c0, c, comb.ports, i);
  }

  method ConnectWrite(ctx: Context, ramw: NetlistCell, comb: NetlistCell, k: nat, ghost lo: nat)
    requires k < 4 && ramw != comb && HasOutputs(ramw.ports)
    requires WriteFree(comb.ports)
    requires lo <= ctx.nets && OwnNets(ramw.ports, lo, ctx.nets)
    modifies ctx, ramw`ports, comb`ports
    ensures lo <= ctx.nets && OwnNets(ramw.ports, lo, ctx.nets) && Keeps(old(ramw.ports), ramw.ports)
    ensures Written(ramw.ports, comb.ports, k) && ReadSame(old(comb.ports), comb.ports)
  {
    ghost var w0, c0 := ramw.ports, comb.ports;
    hide OwnNets, At, WriteFree, Shared, Keeps, ReadSame, Written, Joined, HasOutputs;
    JoinStart(w0, c0);
    JoinAddress(ctx, ramw, comb, 0, lo, w0, c0);
    JoinAddress(ctx, ramw, comb, 1, lo, w0, c0);
    JoinAddress(ctx, ramw, comb, 2, lo, w0, c0);
    JoinAddress(ctx, ramw, comb, 3, lo, w0, c0);
    ghost var w, c := ramw.ports, comb.ports;
    JoinReady(w0, w, c0, c, k);
    Share(ctx, ramw, Wdo(k), comb, CombWd, lo);
    JoinData(w0, w, ramw.ports, c0, c, comb.ports, k);
  }

  // ----- One COMB cell -----

  /** COMB k: its truth table, read address, write enable and output. */
  ghost predicate CombReads(ram0: Ports, s: string, comb: Ports, table: nat, k: nat) {
    && ReadWired(ram0, comb)
    && At(comb, CombF) == At(ram0, Do(k))
    && TableOf(s, k, table)
  }

  /** The table with its inputs in the order A, B, C, D holds column k at the address D, B, C, A. */
  ghost predicate TableOf(s: string, k: nat, table: nat) {
    && k < 4 && |s| == 64
    && forall a, b, c, d :: Bit(table, Number([a, b, c, d])) <==> StoredBit(s, k, Address([d, b, c, a]))
  }

  function Address(v: seq<bool>): (n: nat)
    requires |v| == 4
    ensures n < 16 && n == Number(v)
  {
    NumberBound(v);
    assert Pow2(4) == 16;
    Number(v)
  }

  lemma TableIs(s: string, k: nat, init: nat, table: nat)
    requires k < 4 && |s| == 64
    requires forall i: nat :: Bit(init, i) <==> i < 16 && StoredBit(s, k, i)
    requires forall i: nat :: Bit(table, i) <==> i < 16 && Bit(init, PermutedAddr(i))
    ensures TableOf(s, k, table)
  {
    forall a, b, c, d ensures Bit(table, Number([a, b, c, d])) <==> StoredBit(s, k, Address([d, b, c, a])) {
      PermutedAddrIs(a, b, c, d);
      assert Address([a, b, c, d]) < 16;
      hide Bit, PermutedAddr, Number;
    }
  }

  function OrDefault(params: map<string, string>, name: string, default: string): string {
    if name in params then params[name] else default
  }

  /** A COMB cell in RAM mode takes over how the RAM's write enable and clock are inverted. */
  function ModeParams(ram: map<string, string>): map<string, string> {
    map["MODE" := "DPRAM", "WREMUX" := OrDefault(ram, "WREMUX", "WRE"), "WCKMUX" := OrDefault(ram, "WCKMUX", "WCK")]
  }

  /** The mode of a COMB, and that it inverts write enable and clock as the RAM does: not, unless the RAM says so. */
  predicate ModeOf(ram: map<string, string>, comb: map<string, string>) {
    && "MODE" in comb && comb["MODE"] == "DPRAM"
    && "WREMUX" in comb && comb["WREMUX"] == (if "WREMUX" in ram then ram["WREMUX"] else "WRE")
    && "WCKMUX" in comb && comb["WCKMUX"] == (if "WCKMUX" in ram then ram["WCKMUX"] else "WCK")
  }

  lemma ModeIs(ram: map<string, string>, before: map<string, string>)
    ensures ModeOf(ram, before + ModeParams(ram))
    ensures forall n :: n in before + ModeParams(ram) ==> n in before || n in {"MODE", "WREMUX", "WCKMUX"}
  {
    assert "MODE" != "WREMUX" && "MODE" != "WCKMUX" && "WREMUX"[1] != "WCKMUX"[1];
  }

  method DramToComb(ctx: Context, ram: NetlistCell, init: InitProperty, comb: NetlistCell, ramw: NetlistCell, k: nat, ghost lo: nat)
    returns (ok: bool)
    requires k < 4 && ram != comb && comb != ramw && ramw != ram && FreeComb(comb.ports)
    requires HasOutputs(ramw.ports)
    requires lo <= ctx.nets && OwnNets(ramw.ports, lo, ctx.nets)
    modifies ctx, ram`ports, comb, ramw`ports
    ensures ok <==> LegalColumn(InitText(init), k)
    ensures ok ==> CombReads(old(ram.ports), InitText(init), comb.ports, comb.initval, k) && Written(ramw.ports, comb.ports, k)
    ensures ok ==> lo <= ctx.nets && OwnNets(ramw.ports, lo, ctx.nets) && Keeps(old(ramw.ports), ramw.ports)
    ensures ok ==> OutputTaken(old(ram.ports), ram.ports, k)
    ensures ok ==> comb.params == old(comb.params) + ModeParams(ram.params) && comb.attrs == old(comb.attrs) + ram.attrs
  {
    hide OwnNets, Keeps, Written, TableOf, ReadWired, ReadSame, OutputTaken, Moved, WriteFree, Bit, StoredBit;
    comb.params := comb.params + ModeParams(ram.params);
    var value := GetDramInit(init, k);
    if value == None { return false; }
    comb.initval := PermuteInit(value.value);
    TableIs(InitText(init), k, value.value, comb.initval);
    ConnectRead(ram, comb);
    ghost var c1 := comb.ports;
    ConnectWrite(ctx, ramw, comb, k, lo);
    ghost var c2, r := comb.ports, ram.ports;
    Move(ram, Do(k), comb, CombF);
    CombDone(r, ram.ports, ramw.ports, c1, c2, comb.ports, k);
    comb.attrs := comb.attrs + ram.attrs;
    return true;
  }

  ghost predicate OutputTaken(ram0: Ports, ram: Ports, k: nat) {
    forall p: RamPort :: At(ram, p) == if p == Do(k) then None else At(ram0, p)
  }

  /** Taking over the data output disturbs neither the read nor the write side. */
  lemma CombDone(r: Ports, r': Ports, w: Ports, c1: Ports, c2: Ports, c3: Ports, k: nat)
    requires ReadWired(r, c1) && WriteFree(c1) && ReadSame(c1, c2) && Written(w, c2, k) && Moved(r, r', Do(k), c2, c3, CombF)
    ensures ReadWired(r, c3) && At(c3, CombF) == At(r, Do(k)) && Written(w, c3, k) && OutputTaken(r, r', k)
  {
    hide At;
  }

  // ----- The whole RAM -----

  /** What the RAM cell still holds once COMBs 0 to k - 1 exist. */
  ghost predicate Remains(ram0: Ports, ram: Ports, k: nat) {
    && (forall i: nat :: i < 4 ==> At(ram, Wad(i)) == None && At(ram, Di(i)) == None)
    && (forall p: RamPort :: !p.Wad? && !p.Di? ==> At(ram, p) == if p.Do? && p.i < k then None else At(ram0, p))
  }

  /** COMBs 0 to k - 1 read and write as the RAM did, and the RAMW cell holds the RAM's write side. */
  ghost predicate Packed(ram0: Ports, s: string, ramw: Ports, combs: seq<Ports>, tables: seq<nat>) {
    && |combs| == |tables|
    && (forall j :: 0 <= j < |combs| ==> CombReads(ram0, s, combs[j], tables[j], j) && Written(ramw, combs[j], j))
    && WriteSide(ram0, ramw)
  }

  ghost predicate WriteSide(ram0: Ports, ramw: Ports) {
    forall i: nat :: i < 4 ==> At(ramw, PassThrough(Wado(i))) == At(ram0, Wad(i)) && At(ramw, PassThrough(Wdo(i))) == At(ram0, Di(i))
  }

  lemma WrittenKeeps(w: Ports, w': Ports, c: Ports, k: nat)
    requires Written(w, c, k) && Keeps(w, w')
    ensures Written(w', c, k)
  {
    hide At;
  }

  lemma WriteSideKeeps(ram0: Ports, w: Ports, w': Ports)
    requires WriteSide(ram0, w) && Keeps(w, w')
    ensures WriteSide(ram0, w') && (HasOutputs(w) ==> HasOutputs(w'))
  {
    hide At;
    forall i: nat | i < 4 ensures !Output(PassThrough(Wado(i))) && !Output(PassThrough(Wdo(i))) {}
    hide PassThrough;
  }

  lemma OneMoreComb(ram0: Ports, r: Ports, r': Ports, s: string, w: Ports, w': Ports, combs: seq<Ports>, tables: seq<nat>, c: Ports, t: nat)
    requires Packed(ram0, s, w, combs, tables) && Keeps(w, w') && Remains(ram0, r, |combs|)
    requires CombReads(r, s, c, t, |combs|) && Written(w', c, |combs|) && OutputTaken(r, r', |combs|)
    ensures Packed(ram0, s, w', combs + [c], tables + [t]) && Remains(ram0, r', |combs| + 1)
    ensures HasOutputs(w) ==> HasOutputs(w')
  {
    hide At, Keeps, Written, TableOf, WriteSide;
    forall j | 0 <= j < |combs| ensures Written(w', combs[j], j) { WrittenKeeps(w, w', combs[j], j); }
    WriteSideKeeps(ram0, w, w');
  }

  lemma SplitStarts(ram0: Ports, ram: Ports, w0: Ports, w: Ports, s: string)
    requires SplitDone(ram0, ram, w0, w) && HasOutputs(w0) && forall p: RamPort :: Output(p) ==> At(w0, p) == None
    ensures Packed(ram0, s, w, [], []) && Remains(ram0, ram, 0) && HasOutputs(w) && forall lo: nat, hi: nat :: OwnNets(w, lo, hi)
  {
    hide At;
  }

  lemma FreshComb(c: Ports)
    requires Unconnected(c, COMB_PORTS)
    ensures FreeComb(c)
  {
    forall l ensures Lut(l) in COMB_PORTS { match l case A => case B => case C => case D => }
    forall i: nat | i < 4 ensures CombWad(i) in COMB_PORTS {}
  }

  lemma FreshRamw(w: Ports)
    requires Unconnected(w, RAMW_PORTS)
    ensures HasOutputs(w) && forall p: RamPort :: At(w, p) == None
  {
  }

  /** One more COMB cell. */
  method MakeComb(ctx: Context, ram: NetlistCell, init: InitProperty, ramw: NetlistCell, k: nat, ghost lo: nat,
                  ghost ram0: Ports, ghost cs: seq<Ports>, ghost ts: seq<nat>) returns (ok: bool, comb: NetlistCell)
    requires ram != ramw && k < 4 && |cs| == |ts| == k && HasOutputs(ramw.ports)
    requires Packed(ram0, InitText(init), ramw.ports, cs, ts) && Remains(ram0, ram.ports, k)
    requires lo <= ctx.nets && OwnNets(ramw.ports, lo, ctx.nets)
    modifies ctx, ram`ports, ramw`ports
    ensures fresh(comb) && (ok <==> LegalColumn(InitText(init), k))
    ensures ok ==> Packed(ram0, InitText(init), ramw.ports, cs + [comb.ports], ts + [comb.initval])
    ensures ok ==> Remains(ram0, ram.ports, k + 1) && HasOutputs(ramw.ports) && lo <= ctx.nets && OwnNets(ramw.ports, lo, ctx.nets)
    ensures ok ==> comb.params == ModeParams(ram.params) && comb.attrs == ram.attrs
  {
    hide At, CombReads, Written, WriteSide, OwnNets, Keeps, OutputTaken, FreeComb, LegalColumn, HasOutputs, Packed, Remains, Unconnected, ModeParams;
    comb := new NetlistCell(COMB_PORTS);
    FreshComb(comb.ports);
    ghost var r, w := ram.ports, ramw.ports;
    ok := DramToComb(ctx, ram, init, comb, ramw, k, lo);
    if ok {
      OneMoreComb(ram0, r, ram.ports, InitText(init), w, ramw.ports, cs, ts, comb.ports, comb.initval);
    }
  }

  /** Packing succeeds exactly when the initial contents are legal, and leaves the RAM unconnected. */
  method PackDram(ctx: Context, ram: NetlistCell, init: InitProperty) returns (ok: bool, ramw: NetlistCell, combs: seq<NetlistCell>)
    modifies ctx, ram`ports
    ensures ok <==> forall k: nat :: k < 4 ==> LegalColumn(InitText(init), k)
    ensures ok ==> |combs| == 4 && Packed(old(ram.ports), InitText(init), ramw.ports,
      [combs[0].ports, combs[1].ports, combs[2].ports, combs[3].ports],
      [combs[0].initval, combs[1].initval, combs[2].initval, combs[3].initval])
    ensures ok ==> OwnNets(ramw.ports, old(ctx.nets), ctx.nets)
    ensures ok ==> forall c :: c in combs ==>
      ModeOf(ram.params, c.params) && c.params.Keys == {"MODE", "WREMUX", "WCKMUX"} && c.attrs == ram.attrs
    ensures ok ==> forall p: RamPort :: p.Wck? || p.Wre? || ((p.Rad? || p.Wad? || p.Di? || p.Do?) && p.i < 4) ==> At(ram.ports, p) == None
  {
    hide At, CombReads, Written, WriteSide, OwnNets, Keeps, LegalColumn, HasOutputs, SplitDone, Packed, Remains, Unconnected, ModeParams, ModeOf;
    ramw := new NetlistCell(RAMW_PORTS);
    FreshRamw(ramw.ports);
    ghost var w0, ram0, lo := ramw.ports, ram.ports, ctx.nets;
    DramToRamwSplit(ram, ramw);
    SplitStarts(ram0, ram.ports, w0, ramw.ports, InitText(init));
    combs := [];
    ghost var cs: seq<Ports>, ts: seq<nat> := [], [];
    for k: nat := 0 to 4
      invariant |combs| == |cs| == |ts| == k && lo <= ctx.nets
      invariant fresh(ramw) && ramw !in combs && ram !in combs && fresh(combs)
      invariant forall j :: 0 <= j < k ==> combs[j].ports == cs[j] && combs[j].initval == ts[j]
      invariant forall c :: c in combs ==> c.params == ModeParams(ram.params) && c.attrs == ram.attrs
      invariant forall j: nat :: j < k ==> LegalColumn(InitText(init), j)
      invariant Packed(ram0, InitText(init), ramw.ports, cs, ts) && Remains(ram0, ram.ports, k)
      invariant HasOutputs(ramw.ports) && OwnNets(ramw.ports, lo, ctx.nets)
    {
      var comb;
      ok, comb := MakeComb(ctx, ram, init, ramw, k, lo, ram0, cs, ts);
      if !ok { return; }
      combs, cs, ts := combs + [comb], cs + [comb.ports], ts + [comb.initval];
    }
    assert cs == [combs[0].ports, combs[1].ports, combs[2].ports, combs[3].ports];
    assert ts == [combs[0].initval, combs[1].initval, combs[2].initval, combs[3].initval];
    Disconnect(ram0, ram);
    FreshMode(ram.params);
    ok := true;
  }

  lemma FreshMode(ram: map<string, string>)
    ensures ModeOf(ram, ModeParams(ram)) && ModeParams(ram).Keys == {"MODE", "WREMUX", "WCKMUX"}
  {
    ModeIs(ram, map[]);
    assert map[] + ModeParams(ram) == ModeParams(ram);
  }

  method Disconnect(ghost ram0: Ports, ram: NetlistCell)
    requires Remains(ram0, ram.ports, 4)
    modifies ram`ports
    ensures forall p: RamPort :: p.Wck? || p.Wre? || ((p.Rad? || p.Wad? || p.Di? || p.Do?) && p.i < 4) ==> At(ram.ports, p) == None
  {
    ram.DisconnectPort(Wck);
    ram.DisconnectPort(Wre);
    for i: nat := 0 to 4
      invariant At(ram.ports, Wck) == None && At(ram.ports, Wre) == None
      invariant forall p: RamPort :: (p.Wad? || p.Di? || p.Do?) && p.i < 4 ==> At(ram.ports, p) == None
      invariant forall p: RamPort :: p.Rad? && p.i < i ==> At(ram.ports, p) == None
    {
      ram.DisconnectPort(Rad(i));
    }
  }

  // ----- What the packed RAM computes, for any values on the nets -----

  /** The table entry that the LUT inputs A, B, C, D select. */
  function LutIndex(comb: Ports, val: Option<Net> -> bool): nat {
    Number([val(At(comb, Lut(A))), val(At(comb, Lut(B))), val(At(comb, Lut(C))), val(At(comb, Lut(D)))])
  }

  function ReadAddress(ram: Ports, val: Option<Net> -> bool): (n: nat)
    ensures n < 16
  {
    Address([val(At(ram, Rad(0))), val(At(ram, Rad(1))), val(At(ram, Rad(2))), val(At(ram, Rad(3)))])
  }

  /** COMB k reads bit k of the addressed word: character 4 * address + k of the initial contents. */
  lemma ReadsTheRam(ram0: Ports, s: string, ramw: Ports, combs: seq<Ports>, tables: seq<nat>, val: Option<Net> -> bool, k: nat)
    requires Packed(ram0, s, ramw, combs, tables) && k < |combs|
    ensures k < 4 && |s| == 64
    ensures Bit(tables[k], LutIndex(combs[k], val)) <==> s[4 * ReadAddress(ram0, val) + k] == '1'
  {
    var comb := combs[k];
    assert CombReads(ram0, s, comb, tables[k], k);
    hide At, Bit, Number;
    assert At(comb, Lut(AddressLetter(3))) == At(ram0, Rad(3)) && At(comb, Lut(AddressLetter(1))) == At(ram0, Rad(1));
    assert At(comb, Lut(AddressLetter(2))) == At(ram0, Rad(2)) && At(comb, Lut(AddressLetter(0))) == At(ram0, Rad(0));
    TableAt(s, k, tables[k], val(At(ram0, Rad(3))), val(At(ram0, Rad(1))), val(At(ram0, Rad(2))), val(At(ram0, Rad(0))));
  }

  /** Without initial contents every word reads 0. */
  lemma BlankRamReadsZero(ram0: Ports, ramw: Ports, combs: seq<Ports>, tables: seq<nat>, val: Option<Net> -> bool, k: nat)
    requires Packed(ram0, InitText(None), ramw, combs, tables) && k < |combs|
    ensures !Bit(tables[k], LutIndex(combs[k], val))
  {
    ReadsTheRam(ram0, InitText(None), ramw, combs, tables, val, k);
    hide Bit, LutIndex, Packed;
  }

  lemma TableAt(s: string, k: nat, table: nat, a: bool, b: bool, c: bool, d: bool)
    requires TableOf(s, k, table)
    ensures Bit(table, Number([a, b, c, d])) <==> s[4 * Address([d, b, c, a]) + k] == '1'
  {
    assert StoredBit(s, k, Address([d, b, c, a])) == (s[4 * Address([d, b, c, a]) + k] == '1');
    hide Bit, Number;
  }

  /** Every net on a RAMW output carries the value of the input it repeats. */
  ghost predicate Passes(ramw: Ports, val: Option<Net> -> bool) {
    forall o :: Output(o) && At(ramw, o).Some? ==> val(At(ramw, o)) == val(At(ramw, PassThrough(o)))
  }

  /** Each COMB sees the RAM's write address, and COMB k the RAM's data bit k. */
  lemma WritesTheRam(ram0: Ports, s: string, ramw: Ports, combs: seq<Ports>, tables: seq<nat>, val: Option<Net> -> bool, k: nat, i: nat)
    requires Packed(ram0, s, ramw, combs, tables) && k < |combs| && i < 4 && Passes(ramw, val)
    ensures val(At(combs[k], CombWad(i))) == val(At(ram0, Wad(i)))
    ensures val(At(combs[k], CombWd)) == val(At(ram0, Di(k)))
  {
    assert CombReads(ram0, s, combs[k], tables[k], k) && Written(ramw, combs[k], k) && Output(Wado(i)) && Output(Wdo(k));
    hide At;
  }
}
