/** Routing state of the ECP5 backend: which net holds each wire and each pip (ecp5/arch.h).

    The same facts are kept four times: `wire2net` and `pip2net` by flat index, `wires` inside each
    net, and a count of bound pips per source wire.  Wires and pips are named here by the flat index
    that get_wire_vecidx and get_pip_vecidx give them (see TileNumbering). */
module Routing {
  import opened Basics

  type WireId = nat
  type PipId = nat

  datatype PipMap = PipMap(pip: Option<PipId>, strength: nat)

  class NetInfo {
    var wires: map<WireId, PipMap>

    constructor ()
      ensures wires == map[]
    {
      wires := map[];
    }
  }

  /** The number of bound pips that leave wire w. */
  function BoundFanout(pip2net: seq<NetInfo?>, src: seq<WireId>, w: WireId): nat
    requires |pip2net| == |src|
  {
    if src == [] then 0
    else (if pip2net[0] != null && src[0] == w then 1 else 0) + BoundFanout(pip2net[1..], src[1..], w)
  }

  /** Binding or freeing one pip moves the count of its source wire alone. */
  lemma {:induction false} FanoutChanges(pip2net: seq<NetInfo?>, src: seq<WireId>, p: PipId, net: NetInfo?, w: WireId)
    requires |pip2net| == |src| && p < |src|
    requires (pip2net[p] == null) != (net == null)
    ensures BoundFanout(pip2net[p := net], src, w) ==
            BoundFanout(pip2net, src, w) + (if src[p] != w then 0 else if net != null then 1 else -1)
  {
    if p > 0 {
      FanoutChanges(pip2net[1..], src[1..], p - 1, net, w);
      assert pip2net[p := net][1..] == pip2net[1..][p - 1 := net];
    } else {
      assert pip2net[p := net][1..] == pip2net[1..];
    }
  }

  lemma {:induction false} NoFanout(pip2net: seq<NetInfo?>, src: seq<WireId>, w: WireId)
    requires |pip2net| == |src| && forall p :: 0 <= p < |src| ==> pip2net[p] == null
    ensures BoundFanout(pip2net, src, w) == 0
  {
    if src != [] {
      NoFanout(pip2net[1..], src[1..], w);
    }
  }

  /** What every net says about its wires. */
  type Book = map<NetInfo, map<WireId, PipMap>>

  /** wire2net[w] is the net that lists w, and nets list only wires of the chip. */
  predicate WiresAgree(wire2net: seq<NetInfo?>, book: Book) {
    && (forall w: WireId :: w < |wire2net| && wire2net[w] != null ==>
          wire2net[w] in book && w in book[wire2net[w]])
    && (forall n :: n in book ==> Holds(wire2net, n, book[n]))
  }

  /** The net n holds every wire it lists. */
  predicate Holds(wire2net: seq<NetInfo?>, n: NetInfo, wires: map<WireId, PipMap>) {
    forall w :: w in wires ==> w < |wire2net| && wire2net[w] == n
  }

  /** pip2net[p] is the net that lists p as the driver of its destination wire. */
  predicate PipsAgree(pip2net: seq<NetInfo?>, dst: seq<WireId>, book: Book)
    requires |pip2net| == |dst|
  {
    && (forall p: PipId :: p < |dst| && pip2net[p] != null ==>
          pip2net[p] in book && dst[p] in book[pip2net[p]] && book[pip2net[p]][dst[p]].pip == Some(p))
    && (forall n :: n in book ==> DriversBound(pip2net, dst, n, book[n]))
  }

  /** The drivers the net n lists are bound to it. */
  predicate DriversBound(pip2net: seq<NetInfo?>, dst: seq<WireId>, n: NetInfo, wires: map<WireId, PipMap>)
    requires |pip2net| == |dst|
  {
    forall w :: w in wires && wires[w].pip.Some? ==> Drives(pip2net, dst, wires[w].pip.value, w, n)
  }

  predicate Drives(pip2net: seq<NetInfo?>, dst: seq<WireId>, p: PipId, w: WireId, n: NetInfo)
    requires |pip2net| == |dst|
  {
    p < |dst| && dst[p] == w && pip2net[p] == n
  }

  /** No wire has two bound driving pips. */
  lemma OneDriver(wire2net: seq<NetInfo?>, pip2net: seq<NetInfo?>, dst: seq<WireId>, book: Book, p: PipId, q: PipId)
    requires |pip2net| == |dst| && WiresAgree(wire2net, book) && PipsAgree(pip2net, dst, book)
    requires p < |dst| && q < |dst| && pip2net[p] != null && pip2net[q] != null && dst[p] == dst[q]
    ensures p == q
  {
    assert Holds(wire2net, pip2net[p], book[pip2net[p]]) && Holds(wire2net, pip2net[q], book[pip2net[q]]);
  }

  function Listed(book: Book, net: NetInfo, wire: WireId, entry: PipMap): Book
    requires net in book
  {
    var wires: map<WireId, PipMap> := book[net][wire := entry];
    book[net := wires]
  }

  /** Listing a free wire, with or without a driver, keeps the tables in agreement. */
  lemma BindKeepsWires(wire2net: seq<NetInfo?>, book: Book, net: NetInfo, wire: WireId, entry: PipMap)
    requires WiresAgree(wire2net, book)
    requires net in book && wire < |wire2net| && wire2net[wire] == null
    ensures WiresAgree(wire2net[wire := net], Listed(book, net, wire, entry))
  {
    var book' := Listed(book, net, wire, entry);
    forall n | n in book'
      ensures Holds(wire2net[wire := net], n, book'[n])
    {
      assert Holds(wire2net, n, book[n]);
    }
  }

  lemma BindKeepsPips(pip2net: seq<NetInfo?>, dst: seq<WireId>, book: Book, net: NetInfo, wire: WireId, entry: PipMap)
    requires |pip2net| == |dst| && PipsAgree(pip2net, dst, book)
    requires net in book && forall n :: n in book ==> wire !in book[n]
    requires entry.pip.Some? ==> entry.pip.value < |dst| && dst[entry.pip.value] == wire && pip2net[entry.pip.value] == null
    ensures PipsAgree(if entry.pip.Some? then pip2net[entry.pip.value := net] else pip2net, dst,
                      Listed(book, net, wire, entry))
  {
    var book' := Listed(book, net, wire, entry);
    var pip2net' := if entry.pip.Some? then pip2net[entry.pip.value := net] else pip2net;
    forall n | n in book'
      ensures DriversBound(pip2net', dst, n, book'[n])
    {
      assert DriversBound(pip2net, dst, n, book[n]);
    }
  }

  lemma BindKeeps(wire2net: seq<NetInfo?>, pip2net: seq<NetInfo?>, dst: seq<WireId>, book: Book,
                  net: NetInfo, wire: WireId, entry: PipMap)
    requires |pip2net| == |dst| && WiresAgree(wire2net, book) && PipsAgree(pip2net, dst, book)
    requires net in book && wire < |wire2net| && wire2net[wire] == null
    requires entry.pip.Some? ==> entry.pip.value < |dst| && dst[entry.pip.value] == wire && pip2net[entry.pip.value] == null
    ensures WiresAgree(wire2net[wire := net], Listed(book, net, wire, entry))
    ensures PipsAgree(if entry.pip.Some? then pip2net[entry.pip.value := net] else pip2net, dst,
                      Listed(book, net, wire, entry))
  {
    BindKeepsWires(wire2net, book, net, wire, entry);
    forall n | n in book
      ensures wire !in book[n]
    {
      assert Holds(wire2net, n, book[n]);
    }
    BindKeepsPips(pip2net, dst, book, net, wire, entry);
  }

  /** Dropping a wire together with the pip that drives it keeps the tables in agreement. */
  lemma UnbindKeeps(wire2net: seq<NetInfo?>, pip2net: seq<NetInfo?>, dst: seq<WireId>, book: Book, wire: WireId)
    requires |pip2net| == |dst| && WiresAgree(wire2net, book) && PipsAgree(pip2net, dst, book)
    requires wire < |wire2net| && wire2net[wire] != null
    ensures var net := wire2net[wire];
      var pip := book[net][wire].pip;
      && WiresAgree(wire2net[wire := null], book[net := book[net] - {wire}])
      && (pip.Some? ==> pip.value < |dst|)
      && PipsAgree(if pip.Some? then pip2net[pip.value := null] else pip2net, dst, book[net := book[net] - {wire}])
  {
    var net := wire2net[wire];
    var pip := book[net][wire].pip;
    var book' := book[net := book[net] - {wire}];
    assert DriversBound(pip2net, dst, net, book[net]);
    assert pip.Some? ==> Drives(pip2net, dst, pip.value, wire, net);
    var pip2net' := if pip.Some? then pip2net[pip.value := null] else pip2net;
    forall n | n in book'
      ensures Holds(wire2net[wire := null], n, book'[n])
    {
      assert Holds(wire2net, n, book[n]);
    }
    UnbindKeepsPips(wire2net, pip2net, dst, book, wire);
  }

  lemma UnbindKeepsPips(wire2net: seq<NetInfo?>, pip2net: seq<NetInfo?>, dst: seq<WireId>, book: Book, wire: WireId)
    requires |pip2net| == |dst| && WiresAgree(wire2net, book) && PipsAgree(pip2net, dst, book)
    requires wire < |wire2net| && wire2net[wire] != null
    requires var pip := book[wire2net[wire]][wire].pip;
      pip.Some? ==> Drives(pip2net, dst, pip.value, wire, wire2net[wire])
    ensures var net := wire2net[wire];
      var pip := book[net][wire].pip;
      PipsAgree(if pip.Some? then pip2net[pip.value := null] else pip2net, dst, book[net := book[net] - {wire}])
  {
    var net := wire2net[wire];
    var pip := book[net][wire].pip;
    var book' := book[net := book[net] - {wire}];
    var pip2net' := if pip.Some? then pip2net[pip.value := null] else pip2net;
    forall n | n in book'
      ensures DriversBound(pip2net', dst, n, book'[n])
    {
      assert DriversBound(pip2net, dst, n, book[n]) && Holds(wire2net, n, book[n]);
    }
    forall p: PipId | p < |dst| && pip2net'[p] != null
      ensures dst[p] != wire
    {
      assert Holds(wire2net, pip2net[p], book[pip2net[p]]);
    }
  }

  class RoutingState {
    const src: seq<WireId>
    const dst: seq<WireId>
    const wire2net: array<NetInfo?>
    const pip2net: array<NetInfo?>
    const wireFanout: array<int>
    ghost const nets: set<NetInfo>

    /** The chip database facts the tables rest on. */
    ghost predicate Shape() {
      && wire2net.Length == wireFanout.Length && wire2net != pip2net
      && pip2net.Length == |src| == |dst|
      && (forall p: PipId :: p < |src| ==> src[p] < wire2net.Length && dst[p] < wire2net.Length)
    }

    ghost function Nets(): Book
      reads nets
    {
      map n | n in nets :: n.wires
    }

    ghost predicate FanoutAgrees()
      requires Shape()
      reads pip2net, wireFanout
    {
      forall w: WireId :: w < wireFanout.Length ==> wireFanout[w] == BoundFanout(pip2net[..], src, w)
    }

    ghost predicate Valid()
      reads wire2net, pip2net, wireFanout, nets
    {
      && Shape()
      && WiresAgree(wire2net[..], Nets())
      && PipsAgree(pip2net[..], dst, Nets())
      && FanoutAgrees()
    }

    constructor (numWires: nat, src: seq<WireId>, dst: seq<WireId>, ghost nets: set<NetInfo>)
      requires |src| == |dst| && forall p :: 0 <= p < |src| ==> src[p] < numWires && dst[p] < numWires
      requires forall n :: n in nets ==> n.wires == map[]
      ensures Valid() && this.src == src && this.dst == dst && this.nets == nets && wire2net.Length == numWires
      ensures forall w :: 0 <= w < numWires ==> wire2net[w] == null
      ensures fresh(wire2net) && fresh(pip2net) && fresh(wireFanout)
    {
      this.src, this.dst, this.nets := src, dst, nets;
      wire2net := new NetInfo?[numWires](_ => null);
      pip2net := new NetInfo?[|src|](_ => null);
      wireFanout := new int[numWires](_ => 0);
      new;
      assert WiresAgree(wire2net[..], Nets()) by {
        assert forall n :: n in Nets() ==> Nets()[n] == map[];
      }
      assert PipsAgree(pip2net[..], dst, Nets()) by {
        assert forall n :: n in Nets() ==> Nets()[n] == map[];
      }
      hide WiresAgree, PipsAgree;
      forall w: WireId | w < numWires
        ensures BoundFanout(pip2net[..], src, w) == 0
      {
        NoFanout(pip2net[..], src, w);
      }
    }

    /** Record in both pip tables that `pip` now belongs to `net`, or to none. */
    method SetPip(pip: PipId, net: NetInfo?)
      requires Shape() && FanoutAgrees() && pip < |src| && (pip2net[pip] == null) != (net == null)
      modifies pip2net, wireFanout
      ensures FanoutAgrees() && pip2net[..] == old(pip2net[..])[pip := net]
    {
      ghost var before := pip2net[..];
      wireFanout[src[pip]] := if net != null then wireFanout[src[pip]] + 1 else wireFanout[src[pip]] - 1;
      pip2net[pip] := net;
      assert pip2net[..] == before[pip := net];
      forall w: WireId | w < wireFanout.Length
        ensures wireFanout[w] == BoundFanout(pip2net[..], src, w)
      {
        FanoutChanges(before, src, pip, net, w);
      }
    }

    method BindWire(wire: WireId, net: NetInfo, strength: nat)
      requires Valid() && net in nets && wire < wire2net.Length && wire2net[wire] == null
      modifies wire2net, net
      ensures Valid()
      ensures wire2net[..] == old(wire2net[..])[wire := net]
      ensures net.wires == old(net.wires)[wire := PipMap(None, strength)]
    {
      BindKeeps(wire2net[..], pip2net[..], dst, Nets(), net, wire, PipMap(None, strength));
      net.wires := net.wires[wire := PipMap(None, strength)];
      wire2net[wire] := net;
      assert Nets() == old(Nets())[net := net.wires];
      assert wire2net[..] == old(wire2net[..])[wire := net];
    }

    method BindPip(pip: PipId, net: NetInfo, strength: nat)
      requires Valid() && net in nets && pip < |src|
      requires pip2net[pip] == null && wire2net[dst[pip]] == null
      modifies wire2net, pip2net, wireFanout, net
      ensures Valid()
      ensures wire2net[..] == old(wire2net[..])[dst[pip] := net]
      ensures pip2net[..] == old(pip2net[..])[pip := net]
      ensures net.wires == old(net.wires)[dst[pip] := PipMap(Some(pip), strength)]
    {
      BindKeeps(wire2net[..], pip2net[..], dst, Nets(), net, dst[pip], PipMap(Some(pip), strength));
      SetPip(pip, net);
      var wire := dst[pip];
      wire2net[wire] := net;
      net.wires := net.wires[wire := PipMap(Some(pip), strength)];
      assert Nets() == old(Nets())[net := net.wires];
      assert wire2net[..] == old(wire2net[..])[wire := net];
    }

    method UnbindWire(wire: WireId)
      requires Valid() && wire < wire2net.Length && wire2net[wire] != null
      modifies wire2net, pip2net, wireFanout, wire2net[wire]
      ensures Valid()
      ensures wire2net[..] == old(wire2net[..])[wire := null]
      ensures var entry := old(wire2net[wire].wires[wire]);
        pip2net[..] == if entry.pip.Some? then old(pip2net[..])[entry.pip.value := null] else old(pip2net[..])
      ensures old(wire2net[wire]).wires == old(wire2net[wire].wires) - {wire}
    {
      UnbindKeeps(wire2net[..], pip2net[..], dst, Nets(), wire);
      var net := wire2net[wire];
      var pip := net.wires[wire].pip;
      if pip.Some? {
        assert Drives(pip2net[..], dst, pip.value, wire, net);
        SetPip(pip.value, null);
      }
      net.wires := net.wires - {wire};
      wire2net[wire] := null;
      assert Nets() == old(Nets())[net := net.wires];
      assert wire2net[..] == old(wire2net[..])[wire := null];
    }

    method UnbindPip(pip: PipId)
      requires Valid() && pip < |src| && pip2net[pip] != null
      modifies wire2net, pip2net, wireFanout, pip2net[pip]
      ensures Valid()
      ensures wire2net[..] == old(wire2net[..])[dst[pip] := null]
      ensures pip2net[..] == old(pip2net[..])[pip := null]
      ensures old(pip2net[pip]).wires == old(pip2net[pip].wires) - {dst[pip]}
    {
      var wire, net := dst[pip], pip2net[pip];
      assert net.wires == Nets()[net] && wire2net[..][wire] == net;
      UnbindKeeps(wire2net[..], pip2net[..], dst, Nets(), wire);
      SetPip(pip, null);
      wire2net[wire] := null;
      net.wires := net.wires - {wire};
      assert Nets() == old(Nets())[net := net.wires];
      assert wire2net[..] == old(wire2net[..])[wire := null];
    }
  }
}
