/** Sharing CLK, CE and RST ports inside a DSP block (ecp5/arch_place.cc).

    The cells of a DSP block share four clock, four clock-enable and four reset signals.  The
    remapping pass gives every net one of the four ports of its class for the whole block, moves
    each cell's connections there, and renames the ports its register parameters refer to. */
module DspRemap {
  import opened Basics

  datatype PortClass = CLK | CE | RST
  datatype PortId = Port(cls: PortClass, i: nat)

  /** A numeric property is a string of bits; Property() is the empty one. */
  datatype Property = Str(s: string) | Bits(s: string)

  /** RegParam(k) is entry k of the table `remap_params`; ClkDiv(n) is `CLKn_DIV`. */
  datatype ParamName = RegParam(k: nat) | ClkDiv(n: nat) | OtherParam(name: string)

  const NUM_REG_PARAMS := 48

  predicate HasAllPorts(ports: map<PortId, Option<Net>>) {
    forall c: PortClass, i: nat :: i < 4 ==> Port(c, i) in ports
  }

  /** The ports of a DSP cell; the twelve control ports are always there. */
  type Ports = m: map<PortId, Option<Net>> | HasAllPorts(m)
    ghost witness map c: PortClass, i: nat | i < 4 :: Port(c, i) := None

  type Params = map<ParamName, Property>

  // ----- Port names -----

  function ClassName(c: PortClass): string {
    match c
    case CLK => "CLK"
    case CE => "CE"
    case RST => "RST"
  }

  function Digit(i: nat): char
    requires i < 4
  {
    "0123"[i]
  }

  function PortName(p: PortId): string
    requires p.i < 4
  {
    ClassName(p.cls) + [Digit(p.i)]
  }

  /** The port a property names, if any. */
  function NamedPort(prop: Property): (p: Option<PortId>)
    ensures p.Some? ==> p.value.i < 4
  {
    if prop.Bits? || prop.s == "" then None
    else
      var last := prop.s[|prop.s| - 1];
      var prefix := prop.s[..|prop.s| - 1];
      if last < '0' || last > '3' then None
      else
        var i := last as int - '0' as int;
        if prefix == "CLK" then Some(Port(CLK, i))
        else if prefix == "CE" then Some(Port(CE, i))
        else if prefix == "RST" then Some(Port(RST, i))
        else None
  }

  /** The name a port is known by, taken apart again. */
  lemma PortNames(i: nat)
    requires i < 4
    ensures PortName(Port(CLK, i)) == ["CLK0", "CLK1", "CLK2", "CLK3"][i]
    ensures PortName(Port(CE, i)) == ["CE0", "CE1", "CE2", "CE3"][i]
    ensures PortName(Port(RST, i)) == ["RST0", "RST1", "RST2", "RST3"][i]
  {
  }

  lemma NameParts(p: PortId)
    requires p.i < 4
    ensures PortName(p) != "" && PortName(p)[..|PortName(p)| - 1] == ClassName(p.cls)
    ensures PortName(p)[|PortName(p)| - 1] == Digit(p.i) && Digit(p.i) as int == '0' as int + p.i
  {
  }

  lemma JoinName(s: string)
    requires s != ""
    ensures s == s[..|s| - 1] + [s[|s| - 1]]
  {
  }

  lemma NamesAreUnique(prop: Property, p: PortId)
    requires p.i < 4
    ensures NamedPort(prop) == Some(p) <==> prop == Str(PortName(p))
  {
    NameParts(p);
    if prop.Str? && prop.s != "" {
      JoinName(prop.s);
      if NamedPort(prop) == Some(p) {
        NamedParts(prop, p);
      }
    }
  }

  lemma NamedParts(prop: Property, p: PortId)
    requires prop.Str? && prop.s != "" && p.i < 4 && NamedPort(prop) == Some(p)
    ensures prop.s[..|prop.s| - 1] == ClassName(p.cls) && prop.s[|prop.s| - 1] == Digit(p.i)
  {
  }

  // ----- Allocating slots -----

  /** One net, or none, for each of the four ports of a class. */
  type Slots = a: seq<Option<Net>> | |a| == 4 witness [None, None, None, None]

  function Nets(a: seq<Option<Net>>): set<Net> {
    set s | s in a && s.Some? :: s.value
  }

  predicate Distinct(a: seq<Option<Net>>) {
    forall j, k :: 0 <= j < k < |a| && a[j].Some? ==> a[j] != a[k]
  }

  /** Slots once given away stay as they are. */
  predicate Extends(a: Slots, b: Slots) {
    forall j :: 0 <= j < 4 && a[j].Some? ==> b[j] == a[j]
  }

  /** The first slot holding s, or |a|: std::find. */
  function Find(a: seq<Option<Net>>, s: Option<Net>): (j: nat)
    ensures j <= |a| && (j < |a| ==> a[j] == s) && (j < |a| <==> s in a)
  {
    if a == [] then 0 else if a[0] == s then 0 else
      var k := Find(a[1..], s);
      assert s in a <==> s in a[1..];
      1 + k
  }

  /** The slots after port i, carrying `net`, has been served; None when no slot is free. */
  function Serve(a: Slots, i: nat, net: Option<Net>): Option<Slots>
    requires i < 4
  {
    if net == None || net in a then Some(a)
    else if a[i] == None then Some(a[i := net])
    else if None in a then Some(a[Find(a, None) := net])
    else None
  }

  /** The slots after ports i..3 of a cell connected as p have been served in turn. */
  function ServeFrom(a: Slots, p: Slots, i: nat): Option<Slots>
    requires i <= 4
    decreases 4 - i
  {
    if i == 4 then Some(a)
    else
      var b := Serve(a, i, p[i]);
      if b.None? then None else ServeFrom(b.value, p, i + 1)
  }

  lemma {:induction false} NetsSplit(a: seq<Option<Net>>)
    requires a != []
    ensures Nets(a) == Nets(a[..|a| - 1]) + (if a[|a| - 1].Some? then {a[|a| - 1].value} else {})
  {
    assert a == a[..|a| - 1] + [a[|a| - 1]];
  }

  /** There are at most as many nets as slots, and full distinct slots hold as many nets. */
  lemma {:induction false} NetsCount(a: seq<Option<Net>>)
    ensures |Nets(a)| <= |a|
    ensures Distinct(a) && None !in a ==> |Nets(a)| == |a|
  {
    if a != [] {
      NetsCount(a[..|a| - 1]);
      NetsSplit(a);
    }
  }

  lemma NetsOfBoth(a: seq<Option<Net>>, b: seq<Option<Net>>)
    ensures Nets(a + b) == Nets(a) + Nets(b)
  {
    assert forall s :: s in a + b <==> s in a || s in b;
  }

  lemma NoNets()
    ensures Nets([]) == {}
  {
  }

  lemma PutNet(a: Slots, j: nat, n: Net)
    requires Distinct(a) && j < 4 && a[j] == None && Some(n) !in a
    ensures Distinct(a[j := Some(n)]) && Extends(a, a[j := Some(n)])
    ensures Nets(a[j := Some(n)]) == Nets(a) + {n}
  {
    var b := a[j := Some(n)];
    forall s: Option<Net> | s.Some? && (s in a || s == Some(n)) ensures s in b {
      if s in a {
        var k :| 0 <= k < 4 && a[k] == s;
        assert b[k] == s;
      } else {
        assert b[j] == s;
      }
    }
  }

  /** Serving a port keeps the slots distinct, takes nothing back, adds exactly that port's net,
      and fails only when all four slots hold other nets. */
  lemma ServeGrows(a: Slots, i: nat, net: Option<Net>)
    requires i < 4 && Distinct(a)
    ensures var b := Serve(a, i, net);
      && (b.Some? ==> Distinct(b.value) && Extends(a, b.value) && (net.Some? ==> net in b.value)
                      && Nets(b.value) == Nets(a) + Nets([net]))
      && (b.None? <==> |Nets(a) + Nets([net])| > 4)
  {
    NetsOfOne(a, net);
    NetsCount(a);
    var b := Serve(a, i, net);
    hide Nets, Distinct;
    if net == None || net in a {
      assert Nets(a) + Nets([net]) == Nets(a);
    } else if b.Some? {
      var j := if a[i] == None then i else Find(a, None);
      PutNet(a, j, net.value);
      assert b.value[j] == net;
      NetsCount(b.value);
    }
  }

  lemma NetsOfOne(a: Slots, net: Option<Net>)
    ensures Nets([net]) == if net == None then {} else {net.value}
    ensures net.Some? ==> (net in a <==> net.value in Nets(a))
  {
  }

  predicate Served(a: Slots, p: seq<Option<Net>>, b: Option<Slots>) {
    && (b.Some? ==> Distinct(b.value) && Extends(a, b.value) && Nets(b.value) == Nets(a) + Nets(p)
                    && forall k :: 0 <= k < |p| && p[k].Some? ==> p[k] in b.value)
    && (b.None? <==> |Nets(a) + Nets(p)| > 4)
  }

  lemma ServedThen(a: Slots, net: Option<Net>, b: Slots, p: seq<Option<Net>>, c: Option<Slots>)
    requires Served(a, [net], Some(b)) && Served(b, p, c)
    ensures Served(a, [net] + p, c)
  {
    hide Nets, Distinct;
    NetsOfBoth([net], p);
    assert Nets(b) + Nets(p) == Nets(a) + Nets([net] + p);
    assert c.Some? ==> Extends(a, c.value);
    if c.Some? && net.Some? {
      assert [net][0] in b;
      var k :| 0 <= k < 4 && b[k] == net;
      assert c.value[k] == net;
    }
  }

  /** Serving all ports of a cell: either the slots end up holding exactly the old nets and the cell's,
      or there are more than four of them. */
  lemma {:induction false} ServeAllGrows(a: Slots, p: Slots, i: nat)
    requires i <= 4 && Distinct(a)
    ensures Served(a, p[i..], ServeFrom(a, p, i))
    decreases 4 - i
  {
    hide Nets, Distinct;
    if i == 4 {
      NetsCount(a);
      NoNets();
      assert p[i..] == [];
      assert Nets(a) + Nets([]) == Nets(a);
    } else {
      ServeGrows(a, i, p[i]);
      var b := Serve(a, i, p[i]);
      assert p[i..] == [p[i]] + p[i + 1..];
      if b.Some? {
        ServeAllGrows(b.value, p, i + 1);
        ServedThen(a, p[i], b.value, p[i + 1..], ServeFrom(b.value, p, i + 1));
      } else {
        NetsOfBoth([p[i]], p[i + 1..]);
        MoreNets(Nets(a) + Nets([p[i]]), Nets(a) + Nets(p[i..]));
      }
    }
  }

  lemma {:induction false} MoreNets(s: set<Net>, t: set<Net>)
    requires s <= t
    ensures |s| <= |t|
  {
    assert t == s + (t - s);
    assert |t| == |s| + |t - s|;
  }

  // ----- Rewiring a cell -----

  /** Every net on the ports p has a slot in a. */
  predicate Covers(p: Slots, a: Slots) {
    forall i :: 0 <= i < 4 && p[i].Some? ==> p[i] in a
  }

  /** Where port i's net went: another port of the class, or nowhere. */
  function Remap(p: Slots, a: Slots): (r: seq<Option<nat>>)
    requires Covers(p, a)
    ensures |r| == 4 && forall i :: 0 <= i < 4 && r[i].Some? ==> r[i].value < 4
  {
    seq(4, i requires 0 <= i < 4 => if p[i].Some? && a[i] != p[i] then Some(Find(a, p[i])) else None)
  }

  function RenameProp(prop: Property, cls: PortClass, r: seq<Option<nat>>): Property
    requires |r| == 4 && forall i :: 0 <= i < 4 && r[i].Some? ==> r[i].value < 4
  {
    var named := NamedPort(prop);
    if named.Some? && named.value.cls == cls && r[named.value.i].Some?
    then Str(PortName(Port(cls, r[named.value.i].value)))
    else prop
  }

  function Connections(ports: Ports, cls: PortClass): Slots
  {
    seq(4, i requires 0 <= i < 4 => ports[Port(cls, i)])
  }

  /** The net on the port a parameter names. */
  function NetNamed(prop: Property, ports: Ports): Option<Net>
  {
    var named := NamedPort(prop);
    if named.None? then None else ports[named.value]
  }

  /** After the pass over one class the cell's ports of that class are the block's slots, its register
      parameters are renamed along, and all other ports and parameters but the clock dividers are as before. */
  ghost predicate Rewired(ports: Ports, params: Params, cls: PortClass, a: Slots, ports': Ports, params': Params)
    requires Covers(Connections(ports, cls), a)
  {
    && Connections(ports', cls) == a
    && (forall p :: p in ports' <==> p in ports)
    && (forall p :: p in ports && !(p.cls == cls && p.i < 4) ==> ports'[p] == ports[p])
    && (forall m: ParamName :: !m.ClkDiv? ==> (m in params' <==> m in params))
    && (forall m: ParamName :: m in params && !m.ClkDiv? ==>
          params'[m] == if m.RegParam? && m.k < NUM_REG_PARAMS
                        then RenameProp(params[m], cls, Remap(Connections(ports, cls), a)) else params[m])
  }

  /** Nothing a cell needs is lost: its nets stay on its ports, and every register parameter that named
      a connected port names a port carrying that same net. */
  ghost predicate KeepsMeaning(ports: Ports, params: Params, ports': Ports, params': Params)
  {
    && (forall c: PortClass :: Nets(Connections(ports, c)) <= Nets(Connections(ports', c)))
    && (forall m: ParamName :: !m.ClkDiv? ==> (m in params' <==> m in params))
    && (forall m: ParamName :: m in params && !m.ClkDiv? ==>
          if m.RegParam? && m.k < 48
          then NetNamed(params[m], ports).Some? ==> NetNamed(params'[m], ports') == NetNamed(params[m], ports)
          else params'[m] == params[m])
  }

  lemma RewiringKeepsMeaning(ports: Ports, params: Params, cls: PortClass, a: Slots, ports': Ports, params': Params)
    requires Covers(Connections(ports, cls), a)
    requires Rewired(ports, params, cls, a, ports', params')
    ensures KeepsMeaning(ports, params, ports', params')
  {
    var p := Connections(ports, cls);
    forall c: PortClass
      ensures Nets(Connections(ports, c)) <= Nets(Connections(ports', c))
    {
      if c != cls {
        assert Connections(ports', c) == Connections(ports, c);
      }
    }
    forall m | m in params && m.RegParam? && m.k < NUM_REG_PARAMS && NetNamed(params[m], ports).Some?
      ensures NetNamed(params'[m], ports') == NetNamed(params[m], ports)
    {
      var port := NamedPort(params[m]).value;
      if port.cls == cls {
        assert p[port.i] == ports[port];
        var r := Remap(p, a)[port.i];
        if r.Some? {
          NamesAreUnique(params'[m], Port(cls, r.value));
          assert Connections(ports', cls)[r.value] == p[port.i];
        } else {
          assert Connections(ports', cls)[port.i] == p[port.i];
        }
      }
    }
  }

  lemma MeaningComposes(ports: Ports, params: Params, ports': Ports, params': Params, ports'': Ports, params'': Params)
    requires KeepsMeaning(ports, params, ports', params') && KeepsMeaning(ports', params', ports'', params'')
    ensures KeepsMeaning(ports, params, ports'', params'')
  {
    forall m | m in params && !m.ClkDiv?
      ensures m in params' && m in params''
    {
    }
  }

  // ----- Clock dividers -----

  const NO_PROPERTY := Bits("")

  /** The divider that lands on clock port j: that of the last moved port to arrive there. */
  function MovedDivider(params: Params, r: seq<Option<nat>>, j: nat, n: nat): Property
    requires n <= |r|
  {
    if n == 0 then NO_PROPERTY
    else if r[n - 1] == Some(j) && ClkDiv(n - 1) in params then params[ClkDiv(n - 1)]
    else MovedDivider(params, r, j, n - 1)
  }

  ghost predicate DividersMoved(params: Params, r: seq<Option<nat>>, params': Params)
    requires |r| == 4
  {
    forall j: nat :: j < 4 ==>
      && (ClkDiv(j) in params' <==> MovedDivider(params, r, j, 4) != NO_PROPERTY)
      && (ClkDiv(j) in params' ==> params'[ClkDiv(j)] == MovedDivider(params, r, j, 4))
  }

  lemma {:induction false} Mover(params: Params, r: seq<Option<nat>>, j: nat, n: nat) returns (k: nat)
    requires n <= |r| && MovedDivider(params, r, j, n) != NO_PROPERTY
    ensures k < n && r[k] == Some(j) && ClkDiv(k) in params && params[ClkDiv(k)] == MovedDivider(params, r, j, n)
    ensures forall l: nat :: k < l < n ==> r[l] != Some(j) || ClkDiv(l) !in params
  {
    if r[n - 1] == Some(j) && ClkDiv(n - 1) in params {
      k := n - 1;
    } else {
      k := Mover(params, r, j, n - 1);
    }
  }

  lemma {:induction false} LastMover(params: Params, r: seq<Option<nat>>, j: nat, n: nat, k: nat)
    requires k < n <= |r| && r[k] == Some(j) && ClkDiv(k) in params
    requires forall l: nat :: k < l < n ==> r[l] != Some(j) || ClkDiv(l) !in params
    ensures MovedDivider(params, r, j, n) == params[ClkDiv(k)]
  {
    if k < n - 1 {
      LastMover(params, r, j, n - 1, k);
    }
  }

  lemma {:induction false} SameMovedDivider(params: Params, params': Params, r: seq<Option<nat>>, j: nat, n: nat)
    requires n <= |r| && SameDividers(params, params')
    ensures MovedDivider(params, r, j, n) == MovedDivider(params', r, j, n)
  {
    if n > 0 {
      SameMovedDivider(params, params', r, j, n - 1);
    }
  }

  lemma SameMovedDividers(params: Params, params': Params, r: seq<Option<nat>>)
    requires |r| == 4 && SameDividers(params, params')
    ensures forall j: nat :: MovedDivider(params, r, j, 4) == MovedDivider(params', r, j, 4)
  {
    forall j: nat {
      SameMovedDivider(params, params', r, j, 4);
    }
  }

  // ----- The cells and the pass over them -----

  datatype Loc = Loc(x: int, y: int, z: int)

  datatype CellState = CellState(ports: Ports, params: Params)

  class DspCell {
    const loc: Loc
    const isDsp: bool
    const locked: bool
    var ports: Ports
    var params: Params

    constructor (loc: Loc, isDsp: bool, locked: bool, ports: Ports, params: Params)
      ensures this.loc == loc && this.isDsp == isDsp && this.locked == locked && State() == CellState(ports, params)
    {
      this.loc, this.isDsp, this.locked, this.ports, this.params := loc, isDsp, locked, ports, params;
    }

    function State(): CellState
      reads this
    {
      CellState(ports, params)
    }

    function On(cls: PortClass): Slots
      reads this
    {
      Connections(ports, cls)
    }
  }

  /** What the remapping loop has found out about the first i ports. */
  ghost predicate Targets(p: Slots, a: Slots, r: seq<Option<nat>>, i: nat)
    requires |r| == 4 && i <= 4
  {
    && (forall k :: 0 <= k < 4 && r[k].Some? ==> r[k].value < 4 && r[k].value != k && p[k].Some? && k < i)
    && (forall k :: 0 <= k < i && p[k].Some? ==> a[if r[k].Some? then r[k].value else k] == p[k])
  }

  lemma TargetsAreRemap(p: Slots, a: Slots, r: seq<Option<nat>>)
    requires |r| == 4 && Distinct(a) && Targets(p, a, r, 4)
    ensures Covers(p, a)
    ensures r == Remap(p, a)
  {
    forall k | 0 <= k < 4
      ensures p[k].Some? ==> p[k] in a
      ensures r[k] == if p[k].Some? && a[k] != p[k] then Some(Find(a, p[k])) else None
    {
      if p[k].Some? {
        var t := if r[k].Some? then r[k].value else k;
        assert a[t] == p[k];
        var f := Find(a, p[k]);
        assert a[f] == a[t];
        assert f == t;
      }
    }
  }

  lemma TargetsGrow(p: Slots, a: Slots, r: seq<Option<nat>>, i: nat, b: Slots, j: nat)
    requires |r| == 4 && i < 4 && Targets(p, a, r, i) && Extends(a, b)
    requires j < 4 && (p[i].Some? ==> b[j] == p[i])
    ensures Targets(p, b, if p[i].Some? && j != i then r[i := Some(j)] else r, i + 1)
  {
  }

  /** One turn of that loop: the slot `net` ends up in, for a connected port i. */
  method ServePort(slots: array<Option<Net>>, i: nat, net: Option<Net>) returns (ok: bool, target: nat)
    requires slots.Length == 4 && Distinct(slots[..]) && i < 4 && net.Some?
    modifies slots
    ensures ok == Serve(old(slots[..]), i, net).Some?
    ensures ok ==> slots[..] == Serve(old(slots[..]), i, net).value
    ensures ok ==> target < 4 && slots[target] == net
  {
    ghost var a := slots[..];
    var j := Find(slots[..], net);
    if j < slots.Length { return true, j; }
    if slots[i] == None {
      slots[i] := net;
      assert slots[..] == a[i := net];
      return true, i;
    }
    j := Find(slots[..], None);
    if j == slots.Length { return false, i; }
    slots[j] := net;
    assert slots[..] == a[j := net];
    return true, j;
  }

  /** First part of remap_dsp_cell: find each port's net a slot. */
  method AssignSlots(p: Slots, slots: array<Option<Net>>) returns (ok: bool, remapPorts: seq<Option<nat>>)
    requires slots.Length == 4 && Distinct(slots[..])
    modifies slots
    ensures ok <==> ServeFrom(old(slots[..]), p, 0).Some?
    ensures ok ==> slots[..] == ServeFrom(old(slots[..]), p, 0).value && Distinct(slots[..])
    ensures ok ==> Covers(p, slots[..]) && remapPorts == Remap(p, slots[..])
  {
    remapPorts := [None, None, None, None];
    assert Targets(p, slots[..], remapPorts, 0);
    hide Nets, Distinct, Targets, Extends, Find;
    for i := 0 to 4
      invariant Distinct(slots[..]) && |remapPorts| == 4
      invariant ServeFrom(old(slots[..]), p, 0) == ServeFrom(slots[..], p, i)
      invariant Targets(p, slots[..], remapPorts, i)
    {
      ghost var a: Slots, r, target := slots[..], remapPorts, i;
      ServeGrows(a, i, p[i]);
      if p[i].Some? {
        var served, j := ServePort(slots, i, p[i]);
        if !served { return false, remapPorts; }
        target := j;
        if j != i {
          remapPorts := remapPorts[i := Some(j)];
        }
      }
      TargetsGrow(p, a, r, i, slots[..], target);
    }
    TargetsAreRemap(p, slots[..], remapPorts);
    return true, remapPorts;
  }

  /** What one call of remap_dsp_cell does: the slots grow from a to b and the cell goes from s to t. */
  ghost predicate CellPass(s: CellState, cls: PortClass, a: Slots, b: Slots, t: CellState) {
    var p := Connections(s.ports, cls);
    && ServeFrom(a, p, 0) == Some(b)
    && Covers(p, b)
    && Rewired(s.ports, s.params, cls, b, t.ports, t.params)
    && (if cls == CLK then DividersMoved(s.params, Remap(p, b), t.params) else SameDividers(s.params, t.params))
  }

  ghost predicate SameDividers(params: Params, params': Params) {
    forall j: nat ::
      && (ClkDiv(j) in params' <==> ClkDiv(j) in params)
      && (ClkDiv(j) in params ==> params'[ClkDiv(j)] == params[ClkDiv(j)])
  }

  method RemapDspCell(ci: DspCell, cls: PortClass, slots: array<Option<Net>>) returns (ok: bool)
    requires slots.Length == 4 && Distinct(slots[..])
    modifies ci, slots
    ensures ok <==> ServeFrom(old(slots[..]), old(ci.On(cls)), 0).Some?
    ensures if ok then CellPass(old(ci.State()), cls, old(slots[..]), slots[..], ci.State()) && Distinct(slots[..])
            else ci.State() == old(ci.State())
  {
    hide Distinct, ServeFrom, MovedDivider, RenameProp, Remap, Covers;
    var remapPorts;
    ok, remapPorts := AssignSlots(ci.On(cls), slots);
    if !ok { return; }
    ConnectSlots(ci, cls, slots[..]);
    RenameParams(ci, cls, remapPorts);
    if cls == CLK {
      SameMovedDividers(old(ci.params), ci.params, remapPorts);
      MoveDividers(ci, remapPorts);
    }
  }

  /** Second part: connect each port of the class to its slot. */
  method ConnectSlots(ci: DspCell, cls: PortClass, a: Slots)
    modifies ci`ports
    ensures ci.On(cls) == a
    ensures ci.ports.Keys == old(ci.ports.Keys)
    ensures forall q :: q in ci.ports && !(q.cls == cls && q.i < 4) ==> ci.ports[q] == old(ci.ports)[q]
  {
    for i := 0 to 4
      invariant ci.ports.Keys == old(ci.ports.Keys)
      invariant forall k: nat :: k < i ==> ci.ports[Port(cls, k)] == a[k]
      invariant forall q :: q in ci.ports && !(q.cls == cls && q.i < i) ==> ci.ports[q] == old(ci.ports)[q]
    {
      ConnectSlot(ci, Port(cls, i), a[i]);
    }
  }

  method ConnectSlot(ci: DspCell, p: PortId, net: Option<Net>)
    requires p in ci.ports
    modifies ci`ports
    ensures ci.ports == old(ci.ports)[p := net]
  {
    ci.ports := ci.ports[p := None];
    if net != None {
      ci.ports := ci.ports[p := net];
    }
  }

  /** Third part: rename what the register parameters refer to. */
  method RenameParams(ci: DspCell, cls: PortClass, r: seq<Option<nat>>)
    requires |r| == 4 && forall i :: 0 <= i < 4 && r[i].Some? ==> r[i].value < 4
    modifies ci`params
    ensures ci.params.Keys == old(ci.params.Keys)
    ensures forall m :: m in ci.params ==>
      ci.params[m] == if m.RegParam? && m.k < NUM_REG_PARAMS then RenameProp(old(ci.params)[m], cls, r) else old(ci.params)[m]
  {
    hide RenameProp;
    for k := 0 to NUM_REG_PARAMS
      invariant ci.params.Keys == old(ci.params.Keys)
      invariant forall m :: m in ci.params ==>
        ci.params[m] == if m.RegParam? && m.k < k then RenameProp(old(ci.params)[m], cls, r) else old(ci.params)[m]
    {
      if RegParam(k) in ci.params {
        var prop := ci.params[RegParam(k)];
        var renamed := RenameOne(prop, cls, r);
        ci.params := ci.params[RegParam(k) := renamed];
      }
    }
  }

  method RenameOne(prop: Property, cls: PortClass, r: seq<Option<nat>>) returns (renamed: Property)
    requires |r| == 4 && forall i :: 0 <= i < 4 && r[i].Some? ==> r[i].value < 4
    ensures renamed == RenameProp(prop, cls, r)
  {
    for i := 0 to 4
      invariant forall k: nat :: k < i && r[k].Some? ==> NamedPort(prop) != Some(Port(cls, k))
    {
      NamesAreUnique(prop, Port(cls, i));
      if r[i].Some? && prop.Str? && prop.s == PortName(Port(cls, i)) {
        return Str(PortName(Port(cls, r[i].value)));
      }
    }
    return prop;
  }

  /** Last part, for clock ports only: CLKn_DIV follows its port. */
  method MoveDividers(ci: DspCell, r: seq<Option<nat>>)
    requires |r| == 4 && forall i :: 0 <= i < 4 && r[i].Some? ==> r[i].value < 4
    modifies ci`params
    ensures DividersMoved(old(ci.params), r, ci.params)
    ensures forall m: ParamName :: !m.ClkDiv? ==> (m in ci.params <==> m in old(ci.params))
    ensures forall m: ParamName :: !m.ClkDiv? && m in ci.params ==> ci.params[m] == old(ci.params)[m]
  {
    var moved := [NO_PROPERTY, NO_PROPERTY, NO_PROPERTY, NO_PROPERTY];
    for i := 0 to 4
      invariant |moved| == 4
      invariant forall j: nat :: j < 4 ==> moved[j] == MovedDivider(ci.params, r, j, i)
    {
      if r[i].Some? && ClkDiv(i) in ci.params {
        moved := moved[r[i].value := ci.params[ClkDiv(i)]];
      }
    }
    ghost var before := ci.params;
    hide MovedDivider;
    for i := 0 to 4
      invariant forall j: nat :: j < i ==> (ClkDiv(j) in ci.params <==> moved[j] != NO_PROPERTY)
      invariant forall j: nat :: j < i && ClkDiv(j) in ci.params ==> ci.params[ClkDiv(j)] == moved[j]
      invariant forall m: ParamName :: !m.ClkDiv? ==> (m in ci.params <==> m in before)
      invariant forall m: ParamName :: !m.ClkDiv? && m in ci.params ==> ci.params[m] == before[m]
    {
      if moved[i] != NO_PROPERTY {
        ci.params := ci.params[ClkDiv(i) := moved[i]];
      } else {
        ci.params := ci.params - {ClkDiv(i)};
      }
    }
  }

  // ----- A block of cells -----

  /** All nets the cells of a block use on one class of ports. */
  function UnionOf(ps: seq<Slots>): set<Net> {
    if ps == [] then {} else UnionOf(ps[..|ps| - 1]) + Nets(ps[|ps| - 1])
  }

  lemma {:induction false} UnionGrows(ps: seq<Slots>, k: nat)
    requires k <= |ps|
    ensures UnionOf(ps[..k]) <= UnionOf(ps)
  {
    if k < |ps| {
      UnionGrows(ps[..|ps| - 1], k);
      assert ps[..|ps| - 1][..k] == ps[..k];
    } else {
      assert ps[..k] == ps;
    }
  }

  predicate AllDifferent(cells: seq<DspCell>) {
    forall i, j :: 0 <= i < j < |cells| ==> cells[i] != cells[j]
  }

  /** Their connections on one class of ports. */
  function Views(ss: seq<CellState>, cls: PortClass): (ps: seq<Slots>)
    ensures |ps| == |ss|
  {
    seq(|ss|, i requires 0 <= i < |ss| => Connections(ss[i].ports, cls))
  }

  /** A block may use up to four nets on each class of ports. */
  predicate BlockFits(ss: seq<CellState>) {
    forall cls: PortClass :: |UnionOf(Views(ss, cls))| <= 4
  }

  /** No two cells have different nets on the same port. */
  predicate Aligned(ps: seq<Slots>) {
    forall j, k, i :: 0 <= j < |ps| && 0 <= k < |ps| && 0 <= i < 4 && ps[j][i].Some? && ps[k][i].Some? ==> ps[j][i] == ps[k][i]
  }

  /** The pass over one class of ports has turned the states ss into tt, leaving the slots a. */
  ghost predicate ClassRemapped(ss: seq<CellState>, cls: PortClass, a: Slots, tt: seq<CellState>) {
    && |tt| == |ss| && Distinct(a) && Nets(a) == UnionOf(Views(ss, cls))
    && (forall j :: 0 <= j < |ss| ==> CellRemapped(ss[j], cls, a, tt[j]))
  }

  ghost predicate CellRemapped(s: CellState, cls: PortClass, a: Slots, t: CellState) {
    && Extends(Connections(t.ports, cls), a)
    && KeepsMeaning(s.ports, s.params, t.ports, t.params)
    && (forall d: PortClass :: d != cls ==> Connections(t.ports, d) == Connections(s.ports, d))
  }

  lemma RewiredIsRemapped(s: CellState, cls: PortClass, b: Slots, t: CellState)
    requires Covers(Connections(s.ports, cls), b) && Rewired(s.ports, s.params, cls, b, t.ports, t.params)
    ensures CellRemapped(s, cls, b, t)
  {
    RewiringKeepsMeaning(s.ports, s.params, cls, b, t.ports, t.params);
    hide KeepsMeaning;
    forall d: PortClass | d != cls
      ensures Connections(t.ports, d) == Connections(s.ports, d)
    {
    }
  }

  lemma StillRemapped(s: CellState, cls: PortClass, a: Slots, t: CellState, b: Slots)
    requires CellRemapped(s, cls, a, t) && Extends(a, b)
    ensures CellRemapped(s, cls, b, t)
  {
  }

  lemma PassServes(s: CellState, cls: PortClass, a: Slots, b: Slots, t: CellState)
    requires Distinct(a) && CellPass(s, cls, a, b, t)
    ensures Distinct(b) && Extends(a, b) && Nets(b) == Nets(a) + Nets(Connections(s.ports, cls))
    ensures CellRemapped(s, cls, b, t)
  {
    var p := Connections(s.ports, cls);
    ServeAllGrows(a, p, 0);
    assert p[0..] == p;
    RewiredIsRemapped(s, cls, b, t);
  }

  // ----- Where the clock dividers go -----

  /** The slots when the turn of port i comes, found from the state before the call. */
  function SlotsAt(a: Slots, p: Slots, i: nat): Option<Slots>
    requires i <= 4
  {
    if i == 0 then Some(a)
    else
      var b := SlotsAt(a, p, i - 1);
      if b.None? then None else Serve(b.value, i - 1, p[i - 1])
  }

  /** Port i keeps its net: the net has that slot already, or has none and finds it free. */
  predicate KeepsPort(a: Slots, p: Slots, i: nat)
    requires i < 4
  {
    var c := SlotsAt(a, p, i);
    c.Some? && (c.value[i] == p[i] || (p[i] !in c.value && c.value[i] == None))
  }

  lemma {:induction false} SlotsThen(a: Slots, p: Slots, i: nat)
    requires i <= 4 && Distinct(a)
    ensures ServeFrom(a, p, 0) == if SlotsAt(a, p, i).None? then None else ServeFrom(SlotsAt(a, p, i).value, p, i)
    ensures SlotsAt(a, p, i).Some? ==> Distinct(SlotsAt(a, p, i).value)
  {
    hide Serve, Nets, Distinct;
    if i > 0 {
      SlotsThen(a, p, i - 1);
      if SlotsAt(a, p, i - 1).Some? {
        ServeGrows(SlotsAt(a, p, i - 1).value, i - 1, p[i - 1]);
      }
    }
  }

  /** A net that is served elsewhere, or finds its slot taken, does not end up there. */
  lemma ServedElsewhere(c: Slots, i: nat, net: Option<Net>, b: Slots)
    requires i < 4 && net.Some? && Distinct(b) && Extends(c, b) && net in b
    ensures b[i] == net ==> c[i] == net || (net !in c && c[i] == None)
  {
    if net in c && c[i] != net {
      var j :| 0 <= j < 4 && c[j] == net;
      assert b[j] == net;
    }
  }

  lemma ServedInPlace(c: Slots, i: nat, net: Option<Net>)
    requires i < 4 && net.Some? && (c[i] == net || (net !in c && c[i] == None)) && Serve(c, i, net).Some?
    ensures Serve(c, i, net).value[i] == net
  {
  }

  lemma ExtendsTransitive(a: Slots, b: Slots, c: Slots)
    requires Extends(a, b) && Extends(b, c)
    ensures Extends(a, c)
  {
  }

  /** The guard tells what the allocation does: the port keeps its net exactly when its slot ends up with it. */
  lemma KeepsPortIff(a: Slots, p: Slots, b: Slots, i: nat)
    requires Distinct(a) && ServeFrom(a, p, 0) == Some(b) && i < 4 && p[i].Some?
    ensures KeepsPort(a, p, i) <==> b[i] == p[i]
  {
    SlotsThen(a, p, i);
    var c := SlotsAt(a, p, i).value;
    ServeHead(c, p, b, i);
    var d := Serve(c, i, p[i]);
    hide ServeFrom, SlotsAt, Serve, Nets, Distinct;
    ServeGrows(c, i, p[i]);
    ServeAllGrows(d.value, p, i + 1);
    ExtendsTransitive(c, d.value, b);
    assert p[i] in d.value && p[i] in b by { NetStays(d.value, b, p[i]); }
    ServedElsewhere(c, i, p[i], b);
    if KeepsPort(a, p, i) { ServedInPlace(c, i, p[i]); }
  }

  lemma ServeHead(c: Slots, p: Slots, b: Slots, i: nat)
    requires i < 4 && ServeFrom(c, p, i) == Some(b)
    ensures Serve(c, i, p[i]).Some? && ServeFrom(Serve(c, i, p[i]).value, p, i + 1) == Some(b)
  {
    hide Serve;
  }

  lemma NetStays(a: Slots, b: Slots, net: Option<Net>)
    requires Extends(a, b) && net in a && net.Some?
    ensures net in b
  {
    var j :| 0 <= j < 4 && a[j] == net;
    assert b[j] == net;
  }

  predicate DividerIs(params: Params, j: nat, v: Property) { ClkDiv(j) in params && params[ClkDiv(j)] == v }

  /** Clock port k carries n, has to give it up to another port, and has a divider to bring along. */
  predicate Brings(s: CellState, a: Slots, n: Net, k: nat)
    requires k < 4
  {
    Connections(s.ports, CLK)[k] == Some(n) && !KeepsPort(a, Connections(s.ports, CLK), k) && ClkDiv(k) in s.params
  }

  ghost predicate LastToBring(s: CellState, a: Slots, n: Net, k: nat) {
    k < 4 && Brings(s, a, n, k) && forall l: nat :: k < l < 4 ==> !Brings(s, a, n, l)
  }

  /** The last clock port to bring a divider along with n brings v. */
  ghost predicate Brought(s: CellState, a: Slots, n: Net, v: Property) {
    exists k :: LastToBring(s, a, n, k) && s.params[ClkDiv(k)] == v
  }

  lemma BringsIsRemap(s: CellState, a: Slots, b: Slots, t: CellState, j: nat, k: nat)
    requires Distinct(a) && CellPass(s, CLK, a, b, t) && j < 4 && k < 4
    ensures Remap(Connections(s.ports, CLK), b)[k] == Some(j) && ClkDiv(k) in s.params <==>
            b[j].Some? && Brings(s, a, b[j].value, k)
  {
    var p := Connections(s.ports, CLK);
    PassServes(s, CLK, a, b, t);
    if p[k].Some? {
      KeepsPortIff(a, p, b, k);
    }
    hide Nets, ServeFrom, KeepsPort, Rewired, CellRemapped, DividersMoved;
    assert p[k].Some? && b[j] == p[k] ==> Find(b, p[k]) == j;
  }

  /** After the pass clock port j has divider v exactly when it carries a net whose last port to bring a
      divider there brought v. */
  lemma DividerAt(s: CellState, a: Slots, b: Slots, t: CellState, j: nat, v: Property)
    requires Distinct(a) && CellPass(s, CLK, a, b, t) && j < 4
    ensures DividerIs(t.params, j, v) <==> v != NO_PROPERTY && b[j].Some? && Brought(s, a, b[j].value, v)
  {
    var r := Remap(Connections(s.ports, CLK), b);
    var d := MovedDivider(s.params, r, j, 4);
    forall k: nat | k < 4
      ensures r[k] == Some(j) && ClkDiv(k) in s.params <==> b[j].Some? && Brings(s, a, b[j].value, k)
    {
      BringsIsRemap(s, a, b, t, j, k);
    }
    assert DividersMoved(s.params, r, t.params);
    hide Brings, Remap, MovedDivider, CellPass;
    if d != NO_PROPERTY {
      var k := Mover(s.params, r, j, 4);
      assert LastToBring(s, a, b[j].value, k);
    }
    forall k: nat | b[j].Some? && LastToBring(s, a, b[j].value, k)
      ensures d == s.params[ClkDiv(k)]
    {
      LastMover(s.params, r, j, 4, k);
    }
  }

  /** The divider of a connected clock port follows its clock to port Find(b, p[i]) exactly when some port
      that carries the same net and has to give it up brings the same divider, and no later one brings any. */
  lemma DividerFollowsClock(s: CellState, a: Slots, b: Slots, t: CellState, i: nat, v: Property)
    requires Distinct(a) && CellPass(s, CLK, a, b, t) && i < 4 && DividerIs(s.params, i, v) && v != NO_PROPERTY
    requires Connections(s.ports, CLK)[i].Some?
    ensures var net := Connections(s.ports, CLK)[i];
      DividerIs(t.params, Find(b, net), v) <==> Brought(s, a, net.value, v)
  {
    var net := Connections(s.ports, CLK)[i];
    assert net in b;
    DividerAt(s, a, b, t, Find(b, net), v);
  }

  /** When no other clock port carries the net, the divider follows exactly when the clock has to move. */
  lemma LoneDividerFollows(s: CellState, a: Slots, b: Slots, t: CellState, i: nat, v: Property)
    requires Distinct(a) && CellPass(s, CLK, a, b, t) && i < 4 && DividerIs(s.params, i, v) && v != NO_PROPERTY
    requires Connections(s.ports, CLK)[i].Some?
    requires forall k: nat :: k < 4 && k != i ==> Connections(s.ports, CLK)[k] != Connections(s.ports, CLK)[i]
    ensures var p := Connections(s.ports, CLK); DividerIs(t.params, Find(b, p[i]), v) <==> !KeepsPort(a, p, i)
  {
    var p := Connections(s.ports, CLK);
    DividerFollowsClock(s, a, b, t, i, v);
    hide KeepsPort, CellPass;
    assert !KeepsPort(a, p, i) ==> LastToBring(s, a, p[i].value, i);
  }

  const FREE: Slots := [None, None, None, None]

  lemma LoneClockStays(n: Net)
    ensures ServeFrom(FREE, [Some(n), None, None, None], 0) == Some([Some(n), None, None, None])
  {
    var b: Slots := [Some(n), None, None, None];
    assert FREE[0 := Some(n)] == b && Serve(FREE, 0, b[0]) == Some(b);
    assert ServeFrom(b, b, 4) == ServeFrom(b, b, 3) == ServeFrom(b, b, 2) == ServeFrom(b, b, 1);
  }

  function LoneClock(n: Net): Ports { (map c: PortClass, i: nat | i < 4 :: Port(c, i) := None)[Port(CLK, 0) := Some(n)] }

  /** A cell with one clock and its divider, alone in its block: the clock stays, the divider is gone. */
  lemma LostDivider(n: Net, v: Property)
    ensures var s, t := CellState(LoneClock(n), map[ClkDiv(0) := v]), CellState(LoneClock(n), map[]);
      CellPass(s, CLK, FREE, [Some(n), None, None, None], t) && DividerIs(s.params, 0, v) && Connections(t.ports, CLK)[0] == Some(n)
  {
    var b: Slots, params: Params := [Some(n), None, None, None], map[ClkDiv(0) := v];
    assert Connections(LoneClock(n), CLK) == b;
    LoneClockStays(n);
    assert Covers(b, b) && Remap(b, b) == [None, None, None, None];
    forall j: nat { NothingMoves(params, Remap(b, b), j, 4); }
    hide ServeFrom, Remap, MovedDivider, LoneClock, Connections;
  }

  lemma {:induction false} NothingMoves(params: Params, r: seq<Option<nat>>, j: nat, n: nat)
    requires n <= |r| && forall k :: 0 <= k < |r| ==> r[k] == None
    ensures MovedDivider(params, r, j, n) == NO_PROPERTY
  {
    if n > 0 {
      NothingMoves(params, r, j, n - 1);
    }
  }

  lemma OneMoreCell(ss: seq<CellState>, cls: PortClass, a: Slots, tt: seq<CellState>, s: CellState, b: Slots, t: CellState)
    requires ClassRemapped(ss, cls, a, tt) && CellPass(s, cls, a, b, t)
    ensures ClassRemapped(ss + [s], cls, b, tt + [t])
  {
    PassServes(s, cls, a, b, t);
    hide Nets, Distinct, CellPass, CellRemapped, Extends;
    var ps := Views(ss + [s], cls);
    assert ps[..|ss|] == Views(ss, cls);
    forall j | 0 <= j < |ss|
      ensures CellRemapped(ss[j], cls, b, tt[j])
    {
      StillRemapped(ss[j], cls, a, tt[j], b);
    }
  }

  lemma RemappedAligned(ss: seq<CellState>, cls: PortClass, a: Slots, tt: seq<CellState>)
    requires ClassRemapped(ss, cls, a, tt)
    ensures Aligned(Views(tt, cls)) && |UnionOf(Views(ss, cls))| <= 4
    ensures forall d: PortClass :: d != cls ==> Views(tt, d) == Views(ss, d)
  {
    NetsCount(a);
    assert forall j :: 0 <= j < |tt| ==> CellRemapped(ss[j], cls, a, tt[j]);
  }

  lemma RemappedNets(ss: seq<CellState>, cls: PortClass, a: Slots, tt: seq<CellState>)
    requires ClassRemapped(ss, cls, a, tt)
    ensures Nets(a) == UnionOf(Views(ss, cls))
  {
  }

  lemma TooManyNets(ss: seq<CellState>, cls: PortClass, a: Slots, k: nat)
    requires k < |ss| && Distinct(a) && Nets(a) == UnionOf(Views(ss[..k], cls))
    requires ServeFrom(a, Connections(ss[k].ports, cls), 0) == None
    ensures |UnionOf(Views(ss, cls))| > 4
  {
    var p, ps := Connections(ss[k].ports, cls), Views(ss, cls);
    assert ps[..k + 1][..k] == Views(ss[..k], cls) && ps[k] == p;
    assert UnionOf(ps[..k + 1]) == Nets(a) + Nets(p);
    hide Nets, ServeFrom, Connections, UnionOf, Views;
    ServeAllGrows(a, p, 0);
    assert p[0..] == p;
    UnionGrows(ps, k + 1);
    MoreNets(UnionOf(ps[..k + 1]), UnionOf(ps));
  }

  /** The cells as they are now. */
  ghost function States(cells: seq<DspCell>): (ss: seq<CellState>)
    reads cells
    ensures |ss| == |cells|
  {
    seq(|cells|, i requires 0 <= i < |cells| reads cells => cells[i].State())
  }

  lemma NoClassPass(cls: PortClass, a: Slots)
    requires a == [None, None, None, None]
    ensures Distinct(a) && ClassRemapped([], cls, a, [])
  {
    NoNets();
  }

  /** The first k cells have been through the pass, the others are still as at the start. */
  ghost predicate PassUpTo(cells: seq<DspCell>, ss: seq<CellState>, cls: PortClass, a: Slots, tt: seq<CellState>, k: nat)
    reads cells
  {
    && k <= |cells| == |ss| && |tt| == k
    && Distinct(a) && ClassRemapped(ss[..k], cls, a, tt)
    && (forall j :: 0 <= j < k ==> cells[j].State() == tt[j])
    && (forall j :: k <= j < |cells| ==> cells[j].State() == ss[j])
  }

  lemma PassComplete(cells: seq<DspCell>, ss: seq<CellState>, cls: PortClass, a: Slots, tt: seq<CellState>)
    requires PassUpTo(cells, ss, cls, a, tt, |cells|)
    ensures ClassRemapped(ss, cls, a, States(cells)) && |UnionOf(Views(ss, cls))| <= 4
  {
    assert ss[..|cells|] == ss && States(cells) == tt;
    RemappedNets(ss, cls, a, tt);
    NetsCount(a);
  }

  method RemapNext(cells: seq<DspCell>, k: nat, cls: PortClass, slots: array<Option<Net>>,
                   ghost ss: seq<CellState>, ghost tt: seq<CellState>) returns (ok: bool, ghost uu: seq<CellState>)
    requires AllDifferent(cells) && slots.Length == 4 && k < |cells| && PassUpTo(cells, ss, cls, slots[..], tt, k)
    modifies cells[k], slots
    ensures if ok then PassUpTo(cells, ss, cls, slots[..], uu, k + 1) else |UnionOf(Views(ss, cls))| > 4
  {
    hide ClassRemapped, CellPass, Nets, Distinct, UnionOf, Views, ServeFrom;
    ghost var a: Slots := slots[..];
    ok := RemapDspCell(cells[k], cls, slots);
    if ok {
      uu := tt + [cells[k].State()];
      OneMoreCell(ss[..k], cls, a, tt, ss[k], slots[..], cells[k].State());
      assert ss[..k] + [ss[k]] == ss[..k + 1];
    } else {
      uu := tt;
      RemappedNets(ss[..k], cls, a, tt);
      TooManyNets(ss, cls, a, k);
    }
  }

  /** The pass over one class of ports of a block. */
  method RemapClass(cells: seq<DspCell>, cls: PortClass) returns (ok: bool)
    requires AllDifferent(cells)
    modifies cells
    ensures ok <==> |UnionOf(Views(old(States(cells)), cls))| <= 4
    ensures ok ==> exists a :: ClassRemapped(old(States(cells)), cls, a, States(cells))
  {
    var slots := new Option<Net>[4](_ => None);
    ghost var ss, tt: seq<CellState> := States(cells), [];
    NoClassPass(cls, slots[..]);
    hide ClassRemapped, CellPass, Nets, Distinct, UnionOf, Views, ServeFrom;
    for k := 0 to |cells|
      invariant PassUpTo(cells, ss, cls, slots[..], tt, k)
    {
      ok, tt := RemapNext(cells, k, cls, slots, ss, tt);
      if !ok { return; }
    }
    PassComplete(cells, ss, cls, slots[..], tt);
    return true;
  }

  // ----- All classes of a block -----

  const CLASSES: seq<PortClass> := [CLK, CE, RST]

  ghost predicate AllKeepMeaning(ss: seq<CellState>, tt: seq<CellState>) {
    |tt| == |ss| && forall j :: 0 <= j < |ss| ==> KeepsMeaning(ss[j].ports, ss[j].params, tt[j].ports, tt[j].params)
  }

  /** Every port of every class is shared throughout the block. */
  predicate BlockAligned(ss: seq<CellState>) {
    forall cls: PortClass :: Aligned(Views(ss, cls))
  }

  /** The block has the nets it had, class by class. */
  predicate SameNets(ss: seq<CellState>, tt: seq<CellState>) {
    forall cls: PortClass :: UnionOf(Views(tt, cls)) == UnionOf(Views(ss, cls))
  }

  lemma KeepingComposes(ss: seq<CellState>, tt: seq<CellState>, uu: seq<CellState>)
    requires AllKeepMeaning(ss, tt) && AllKeepMeaning(tt, uu)
    ensures AllKeepMeaning(ss, uu)
  {
    hide KeepsMeaning;
    forall j | 0 <= j < |ss|
      ensures KeepsMeaning(ss[j].ports, ss[j].params, uu[j].ports, uu[j].params)
    {
      MeaningComposes(ss[j].ports, ss[j].params, tt[j].ports, tt[j].params, uu[j].ports, uu[j].params);
    }
  }

  lemma NothingYet(ss: seq<CellState>)
    ensures AllKeepMeaning(ss, ss)
  {
  }

  lemma ClassKeeps(ss: seq<CellState>, cls: PortClass, a: Slots, tt: seq<CellState>)
    requires ClassRemapped(ss, cls, a, tt)
    ensures AllKeepMeaning(ss, tt)
  {
    hide KeepsMeaning;
    assert forall j :: 0 <= j < |tt| ==> CellRemapped(ss[j], cls, a, tt[j]);
  }

  /** The classes in `done` have been through their pass, the others are as at the start. */
  ghost predicate ClassesDone(ss: seq<CellState>, tt: seq<CellState>, done: set<PortClass>) {
    && AllKeepMeaning(ss, tt)
    && (forall cls :: cls in done ==> ClassFine(ss, tt, cls))
    && (forall cls: PortClass :: cls !in done ==> Views(tt, cls) == Views(ss, cls))
  }

  predicate ClassFine(ss: seq<CellState>, tt: seq<CellState>, cls: PortClass) {
    Aligned(Views(tt, cls)) && |UnionOf(Views(ss, cls))| <= 4 && UnionOf(Views(tt, cls)) == UnionOf(Views(ss, cls))
  }

  lemma {:induction false} UnionIn(ps: seq<Slots>, n: Net)
    ensures n in UnionOf(ps) <==> exists j, i :: 0 <= j < |ps| && 0 <= i < 4 && ps[j][i] == Some(n)
  {
    if ps != [] {
      var init, last := ps[..|ps| - 1], ps[|ps| - 1];
      UnionIn(init, n);
      assert n in Nets(last) <==> exists i :: 0 <= i < 4 && last[i] == Some(n);
      forall j, i | 0 <= j < |ps| && 0 <= i < 4 && ps[j][i] == Some(n) ensures n in UnionOf(ps) {
        if j < |init| { assert init[j][i] == Some(n); }
      }
      if n in UnionOf(init) {
        var j, i :| 0 <= j < |init| && 0 <= i < 4 && init[j][i] == Some(n);
        assert ps[j][i] == Some(n);
      } else if n in Nets(last) {
        var i :| 0 <= i < 4 && last[i] == Some(n);
        assert ps[|ps| - 1][i] == Some(n);
      }
    }
  }

  /** A block has the same nets of the class after the pass as before. */
  lemma RemappedSameNets(ss: seq<CellState>, cls: PortClass, a: Slots, tt: seq<CellState>)
    requires ClassRemapped(ss, cls, a, tt)
    ensures UnionOf(Views(tt, cls)) == UnionOf(Views(ss, cls))
  {
    var p, q := Views(ss, cls), Views(tt, cls);
    hide KeepsMeaning, UnionOf, Distinct, Connections, Views;
    forall n: Net ensures n in UnionOf(q) <==> n in UnionOf(p) {
      UnionIn(p, n);
      UnionIn(q, n);
      if n in UnionOf(q) {
        var j, i :| 0 <= j < |q| && 0 <= i < 4 && q[j][i] == Some(n);
        NetBefore(ss, cls, a, tt, j, i);
      }
      if n in UnionOf(p) {
        var j, i :| 0 <= j < |p| && 0 <= i < 4 && p[j][i] == Some(n);
        var k := NetAfter(ss, cls, a, tt, j, i);
        assert q[j][k] == Some(n);
      }
    }
  }

  lemma NetBefore(ss: seq<CellState>, cls: PortClass, a: Slots, tt: seq<CellState>, j: nat, i: nat)
    requires ClassRemapped(ss, cls, a, tt) && j < |tt| && i < 4 && Views(tt, cls)[j][i].Some?
    ensures Views(tt, cls)[j][i].value in UnionOf(Views(ss, cls))
  {
    hide KeepsMeaning, UnionOf, Distinct;
    assert CellRemapped(ss[j], cls, a, tt[j]);
    assert a[i] == Views(tt, cls)[j][i];
  }

  lemma NetAfter(ss: seq<CellState>, cls: PortClass, a: Slots, tt: seq<CellState>, j: nat, i: nat) returns (k: nat)
    requires ClassRemapped(ss, cls, a, tt) && j < |ss| && i < 4 && Views(ss, cls)[j][i].Some?
    ensures k < 4 && Views(tt, cls)[j][k] == Views(ss, cls)[j][i]
  {
    hide UnionOf, Distinct;
    assert CellRemapped(ss[j], cls, a, tt[j]);
    var p, q := Connections(ss[j].ports, cls), Connections(tt[j].ports, cls);
    assert p[i].value in Nets(p) && Nets(p) <= Nets(q);
    hide KeepsMeaning, CellRemapped, ClassRemapped;
    k :| 0 <= k < 4 && q[k] == p[i];
  }

  lemma OneMoreClass(ss: seq<CellState>, tt: seq<CellState>, done: set<PortClass>, cls: PortClass, a: Slots, uu: seq<CellState>)
    requires cls !in done && ClassesDone(ss, tt, done) && ClassRemapped(tt, cls, a, uu)
    ensures ClassesDone(ss, uu, done + {cls})
  {
    hide AllKeepMeaning, ClassRemapped, CellRemapped, KeepsMeaning, Aligned, UnionOf, Views;
    RemappedAligned(tt, cls, a, uu);
    RemappedSameNets(tt, cls, a, uu);
    ClassKeeps(tt, cls, a, uu);
    KeepingComposes(ss, tt, uu);
  }

  lemma AllClassesDone(ss: seq<CellState>, tt: seq<CellState>)
    requires ClassesDone(ss, tt, {CLK, CE, RST})
    ensures BlockAligned(tt) && BlockFits(ss) && SameNets(ss, tt)
  {
    hide AllKeepMeaning, Aligned, UnionOf, Views;
    forall cls: PortClass
      ensures Aligned(Views(tt, cls)) && |UnionOf(Views(ss, cls))| <= 4 && UnionOf(Views(tt, cls)) == UnionOf(Views(ss, cls))
    {
      match cls
      case CLK => assert ClassFine(ss, tt, CLK);
      case CE => assert ClassFine(ss, tt, CE);
      case RST => assert ClassFine(ss, tt, RST);
    }
  }

  /** The pass over one DSP block: it succeeds exactly when no class has more than four nets. */
  method RemapBlock(cells: seq<DspCell>) returns (ok: bool)
    requires AllDifferent(cells)
    modifies cells
    ensures ok <==> BlockFits(old(States(cells)))
    ensures ok ==> BlockAligned(States(cells)) && SameNets(old(States(cells)), States(cells))
    ensures ok ==> AllKeepMeaning(old(States(cells)), States(cells))
  {
    ghost var ss, done: set<PortClass> := States(cells), {};
    NothingYet(ss);
    hide AllKeepMeaning, Aligned, UnionOf, Views, ClassRemapped;
    for i := 0 to 3
      invariant ClassesDone(ss, States(cells), done)
      invariant done == set k | 0 <= k < i :: CLASSES[k]
    {
      ghost var tt := States(cells);
      assert CLASSES[i] !in done;
      ok := RemapClass(cells, CLASSES[i]);
      if !ok {
        assert Views(tt, CLASSES[i]) == Views(ss, CLASSES[i]);
        return;
      }
      ghost var a: Slots :| ClassRemapped(tt, CLASSES[i], a, States(cells));
      OneMoreClass(ss, tt, done, CLASSES[i], a, States(cells));
      done := done + {CLASSES[i]};
    }
    assert CLASSES[0] in done && CLASSES[1] in done && CLASSES[2] in done;
    assert done == {CLK, CE, RST};
    AllClassesDone(ss, States(cells));
    return true;
  }

  // ----- The placement check -----

  datatype Verdict = Legal | Illegal | FatalError

  /** Insert the nets on four ports one by one; stop as soon as there are more than four. */
  method InsertNets(nets: set<Net>, p: Slots) returns (all: set<Net>)
    requires |nets| <= 4
    ensures |all| <= 4 <==> |nets + Nets(p)| <= 4
    ensures |all| <= 4 ==> all == nets + Nets(p)
  {
    all := nets;
    FirstNets(nets, p);
    hide Nets;
    for i := 0 to 4
      invariant all == nets + Nets(p[..i]) && |all| <= 4
    {
      NextNet(nets, p, i);
      if p[i].Some? {
        all := all + {p[i].value};
        if |all| > 4 {
          MoreNets(all, nets + Nets(p));
          return;
        }
      }
    }
    assert p[..4] == p;
  }

  lemma FirstNets(nets: set<Net>, p: Slots)
    ensures nets + Nets(p[..0]) == nets
  {
    NoNets();
    assert p[..0] == [];
  }

  lemma NextNet(nets: set<Net>, p: Slots, i: nat)
    requires i < 4
    ensures nets + Nets(p[..i + 1]) == nets + Nets(p[..i]) + (if p[i].Some? then {p[i].value} else {})
    ensures nets + Nets(p[..i + 1]) <= nets + Nets(p)
  {
    NetsSplit(p[..i + 1]);
    NetsOfBoth(p[..i + 1], p[i + 1..]);
    hide Nets;
    assert p[..i + 1][..i] == p[..i];
    assert p == p[..i + 1] + p[i + 1..];
  }

  /** blockNets holds the nets of the first k cells, and of the next one too for the classes below i. */
  ghost predicate Counted(ss: seq<CellState>, blockNets: seq<set<Net>>, k: nat, i: nat) {
    && k <= |ss| && (i > 0 ==> k < |ss|) && |blockNets| == 3
    && forall c :: 0 <= c < 3 ==>
      blockNets[c] == UnionOf(Views(ss[..if c < i then k + 1 else k], CLASSES[c])) && |blockNets[c]| <= 4
  }

  lemma NothingCounted(ss: seq<CellState>)
    ensures Counted(ss, [{}, {}, {}], 0, 0)
  {
  }

  lemma UnionStep(ss: seq<CellState>, cls: PortClass, k: nat)
    requires k < |ss|
    ensures UnionOf(Views(ss[..k + 1], cls)) == UnionOf(Views(ss[..k], cls)) + Nets(Connections(ss[k].ports, cls))
  {
    hide Nets;
    assert Views(ss[..k + 1], cls)[..k] == Views(ss[..k], cls);
  }

  lemma TooManyInBlock(ss: seq<CellState>, cls: PortClass, k: nat)
    requires k <= |ss| && |UnionOf(Views(ss[..k], cls))| > 4
    ensures !BlockFits(ss[..k])
  {
  }

  /** A block that fits still fits without its last cells. */
  lemma PrefixFits(ss: seq<CellState>, k: nat)
    requires k <= |ss| && BlockFits(ss)
    ensures BlockFits(ss[..k])
  {
    forall cls: PortClass
      ensures |UnionOf(Views(ss[..k], cls))| <= 4
    {
      assert Views(ss, cls)[..k] == Views(ss[..k], cls);
      UnionGrows(Views(ss, cls), k);
      MoreNets(UnionOf(Views(ss[..k], cls)), UnionOf(Views(ss, cls)));
    }
  }

  lemma AllCounted(ss: seq<CellState>, blockNets: seq<set<Net>>, k: nat)
    requires Counted(ss, blockNets, k, 0)
    ensures BlockFits(ss[..k])
  {
    hide UnionOf;
    forall cls: PortClass
      ensures |UnionOf(Views(ss[..k], cls))| <= 4
    {
      match cls
      case CLK => assert |blockNets[0]| <= 4;
      case CE => assert |blockNets[1]| <= 4;
      case RST => assert |blockNets[2]| <= 4;
    }
  }

  /** The nets of cell k join those of the cells before it, class by class. */
  method CountCell(cells: seq<DspCell>, k: nat, blockNets: seq<set<Net>>) returns (fits: bool, after: seq<set<Net>>)
    requires k < |cells| && Counted(States(cells), blockNets, k, 0)
    ensures if fits then Counted(States(cells), after, k + 1, 0) else !BlockFits(States(cells)[..k + 1])
  {
    ghost var ss := States(cells);
    after := blockNets;
    hide BlockFits, UnionOf, Views, Nets;
    for i := 0 to 3
      invariant Counted(ss, after, k, i)
    {
      UnionStep(ss, CLASSES[i], k);
      var nets := InsertNets(after[i], cells[k].On(CLASSES[i]));
      if |nets| > 4 {
        TooManyInBlock(ss, CLASSES[i], k + 1);
        return false, after;
      }
      after := after[i := nets];
    }
    return true, after;
  }

  /** The first k cells of a block are placed by hand and already too many for it. */
  ghost predicate LockedAndTooMany(cells: seq<DspCell>, k: nat)
    reads cells
  {
    k <= |cells| && !BlockFits(States(cells)[..k]) && forall j :: 0 <= j < k ==> cells[j].locked
  }

  /** The counting loop over the cells of a block.  FatalError stands for the message that the placer
      cannot mend the block, given when the cells up to the offending one are all locked. */
  method CheckBlock(cells: seq<DspCell>) returns (v: Verdict)
    ensures v == Legal <==> BlockFits(States(cells))
    ensures v == FatalError <==> exists k :: LockedAndTooMany(cells, k)
  {
    var blockNets: seq<set<Net>> := [{}, {}, {}];
    var cellsLocked := true;
    ghost var ss := States(cells);
    NothingCounted(ss);
    hide BlockFits, Counted;
    for k := 0 to |cells|
      invariant cellsLocked <==> forall j :: 0 <= j < k ==> cells[j].locked
      invariant Counted(ss, blockNets, k, 0)
    {
      AllCounted(ss, blockNets, k);
      if !cells[k].locked { cellsLocked := false; }
      var fits;
      fits, blockNets := CountCell(cells, k, blockNets);
      if !fits {
        FirstMisfit(cells, k);
        return if cellsLocked then FatalError else Illegal;
      }
    }
    AllCounted(ss, blockNets, |cells|);
    assert ss[..|cells|] == ss;
    NoMisfit(cells);
    return Legal;
  }

  lemma FirstMisfit(cells: seq<DspCell>, k: nat)
    requires k < |cells| && BlockFits(States(cells)[..k]) && !BlockFits(States(cells)[..k + 1])
    ensures !BlockFits(States(cells))
    ensures (exists n :: LockedAndTooMany(cells, n)) <==> forall j :: 0 <= j <= k ==> cells[j].locked
  {
    var ss := States(cells);
    hide BlockFits;
    if BlockFits(ss) { PrefixFits(ss, k + 1); }
    forall n: nat | LockedAndTooMany(cells, n)
      ensures n > k
    {
      if n <= k {
        assert ss[..k][..n] == ss[..n];
        PrefixFits(ss[..k], n);
      }
    }
    if forall j :: 0 <= j <= k ==> cells[j].locked {
      assert LockedAndTooMany(cells, k + 1);
    }
  }

  lemma NoMisfit(cells: seq<DspCell>)
    requires BlockFits(States(cells))
    ensures !exists n :: LockedAndTooMany(cells, n)
  {
    hide BlockFits;
    forall n: nat | n <= |cells|
      ensures !LockedAndTooMany(cells, n)
    {
      PrefixFits(States(cells), n);
    }
  }

  // ----- The whole design -----

  datatype BlockLoc = BlockLoc(x: int, y: int)

  /** The DSP0 tile of the block of a cell. */
  function BlockOf(l: Loc): BlockLoc { BlockLoc(l.x - l.z, l.y) }

  const BLOCK_DX: seq<int> := [0, 1, 3, 4, 5, 7]

  /** Where the i-th DSP bel of a block is. */
  function BelLoc(b: BlockLoc, i: nat): (l: Loc)
    requires i < 6
    ensures BlockOf(l) == b
  {
    Loc(b.x + BLOCK_DX[i], b.y, BLOCK_DX[i])
  }

  /** The cells bound in a block, from its i-th bel on. */
  function BlockCells(bound: map<Loc, DspCell>, b: BlockLoc, i: nat): seq<DspCell>
    requires i <= 6
    decreases 6 - i
  {
    if i == 6 then []
    else if BelLoc(b, i) in bound then [bound[BelLoc(b, i)]] + BlockCells(bound, b, i + 1)
    else BlockCells(bound, b, i + 1)
  }

  /** Every cell sits where the bel table says, and DSP cells are all in it. */
  predicate WellPlaced(cells: seq<DspCell>, bound: map<Loc, DspCell>) {
    && (forall l :: l in bound ==> bound[l].loc == l)
    && (forall c :: c in cells && c.isDsp ==> c.loc in bound && bound[c.loc] == c)
  }

  /** c is bound in block b, at its i-th bel or later. */
  predicate InBlock(bound: map<Loc, DspCell>, b: BlockLoc, i: nat, c: DspCell) {
    c.loc in bound && bound[c.loc] == c && BlockOf(c.loc) == b && i < 6 && c.loc.z >= BLOCK_DX[i]
  }

  lemma {:induction false} BlockCellsFacts(bound: map<Loc, DspCell>, b: BlockLoc, i: nat)
    requires i <= 6 && forall l :: l in bound ==> bound[l].loc == l
    ensures AllDifferent(BlockCells(bound, b, i))
    ensures forall c :: c in BlockCells(bound, b, i) ==> InBlock(bound, b, i, c)
    decreases 6 - i
  {
    if i < 6 {
      var rest := BlockCells(bound, b, i + 1);
      BlockCellsFacts(bound, b, i + 1);
      forall c | c in rest
        ensures InBlock(bound, b, i, c) && c.loc != BelLoc(b, i)
      {
        assert InBlock(bound, b, i + 1, c);
      }
    }
  }

  /** The cells of the block of l. */
  function CellsAround(bound: map<Loc, DspCell>, b: BlockLoc): seq<DspCell> { BlockCells(bound, b, 0) }

  // ----- The same on the bound cells -----

  /** The z-positions of the MULT18X18D and ALU54B bels, which are also their distances from the DSP0 tile. */
  const DSP_Z: set<int> := {0, 1, 3, 4, 5, 7}

  function BelAt(b: BlockLoc, z: int): Loc { Loc(b.x + z, b.y, z) }

  /** The nets of one class on all cells bound in block b at z-positions up to the given one. */
  ghost function NetsAt(bound: map<Loc, DspCell>, at: map<DspCell, CellState>, b: BlockLoc, cls: PortClass, upTo: int): set<Net> {
    set z, i: nat |
      && z in DSP_Z && z <= upTo && BelAt(b, z) in bound && bound[BelAt(b, z)] in at
      && i < 4 && at[bound[BelAt(b, z)]].ports[Port(cls, i)].Some?
      :: at[bound[BelAt(b, z)]].ports[Port(cls, i)].value
  }

  /** All cells bound in the block together use at most four nets of each class. */
  ghost predicate BoardFits(bound: map<Loc, DspCell>, at: map<DspCell, CellState>, b: BlockLoc) {
    forall cls: PortClass :: |NetsAt(bound, at, b, cls, 7)| <= 4
  }

  /** No two cells bound in the block have different nets on the same port. */
  predicate PortsShared(bound: map<Loc, DspCell>, at: map<DspCell, CellState>, b: BlockLoc) {
    forall y, z, cls: PortClass, i: nat | y in DSP_Z && z in DSP_Z && i < 4
        && BelAt(b, y) in bound && BelAt(b, z) in bound && bound[BelAt(b, y)] in at && bound[BelAt(b, z)] in at ::
      var p, q := at[bound[BelAt(b, y)]].ports[Port(cls, i)], at[bound[BelAt(b, z)]].ports[Port(cls, i)];
      p.Some? && q.Some? ==> p == q
  }

  /** Where the cells of CellsAround sit. */
  function BelsUsed(bound: map<Loc, DspCell>, b: BlockLoc, i: nat): seq<int>
    requires i <= 6
    decreases 6 - i
  {
    if i == 6 then []
    else if BelLoc(b, i) in bound then [BLOCK_DX[i]] + BelsUsed(bound, b, i + 1)
    else BelsUsed(bound, b, i + 1)
  }

  /** From z-position `low` on: the cells sit at the listed bels, in ascending order, and no bound bel is left out. */
  ghost predicate UsedBels(bound: map<Loc, DspCell>, b: BlockLoc, low: int, used: seq<int>, cells: seq<DspCell>) {
    Seated(bound, b, used, cells) && Ascending(low, used) && NoneMissed(bound, b, low, used)
  }

  ghost predicate Seated(bound: map<Loc, DspCell>, b: BlockLoc, used: seq<int>, cells: seq<DspCell>) {
    |used| == |cells| && forall j :: 0 <= j < |used| ==>
      used[j] in DSP_Z && BelAt(b, used[j]) in bound && bound[BelAt(b, used[j])] == cells[j]
  }

  predicate Ascending(low: int, used: seq<int>) {
    (forall j :: 0 <= j < |used| ==> used[j] >= low) && forall j, k :: 0 <= j < k < |used| ==> used[j] < used[k]
  }

  ghost predicate NoneMissed(bound: map<Loc, DspCell>, b: BlockLoc, low: int, used: seq<int>) {
    forall z :: z in DSP_Z && BelAt(b, z) in bound && z >= low ==> z in used
  }

  /** The z-position of the i-th bel; behind the last there is none below 8. */
  function Dx(i: nat): int
    requires i <= 6
  {
    if i == 6 then 8 else BLOCK_DX[i]
  }

  lemma NextDx(i: nat)
    requires i < 6
    ensures Dx(i) in DSP_Z && Dx(i) < Dx(i + 1) && BLOCK_DX[i] == Dx(i)
    ensures forall z :: z in DSP_Z && z >= Dx(i) ==> z == Dx(i) || z >= Dx(i + 1)
  {
  }

  /** The cells are found at the six bels, in ascending order, and none is left out. */
  lemma {:induction false} BelsUsedFacts(bound: map<Loc, DspCell>, b: BlockLoc, i: nat)
    requires i <= 6
    ensures UsedBels(bound, b, Dx(i), BelsUsed(bound, b, i), BlockCells(bound, b, i))
    decreases 6 - i
  {
    if i < 6 {
      BelsUsedFacts(bound, b, i + 1);
      NextDx(i);
      assert BelLoc(b, i) == BelAt(b, Dx(i));
      hide Dx, DSP_Z, BelAt, UsedBels;
      OneMoreBel(bound, b, Dx(i), Dx(i + 1), BelsUsed(bound, b, i + 1), BlockCells(bound, b, i + 1));
    }
  }

  lemma OneMoreBel(bound: map<Loc, DspCell>, b: BlockLoc, z: int, next: int, used: seq<int>, cells: seq<DspCell>)
    requires z in DSP_Z && z < next && UsedBels(bound, b, next, used, cells)
    requires forall y :: y in DSP_Z && y >= z ==> y == z || y >= next
    ensures if BelAt(b, z) in bound then UsedBels(bound, b, z, [z] + used, [bound[BelAt(b, z)]] + cells) else UsedBels(bound, b, z, used, cells)
  {
    hide DSP_Z, BelAt;
    if BelAt(b, z) in bound {
      assert Seated(bound, b, [z] + used, [bound[BelAt(b, z)]] + cells);
      assert Ascending(z, [z] + used);
      assert NoneMissed(bound, b, z, [z] + used);
    }
  }

  lemma BelOf(bound: map<Loc, DspCell>, b: BlockLoc, j: nat) returns (z: int)
    requires j < |CellsAround(bound, b)|
    ensures z in DSP_Z && BelAt(b, z) in bound && bound[BelAt(b, z)] == CellsAround(bound, b)[j]
    ensures j < |BelsUsed(bound, b, 0)| && BelsUsed(bound, b, 0)[j] == z
  {
    BelsUsedFacts(bound, b, 0);
    hide BelsUsed, BlockCells, BelAt, DSP_Z, Ascending, NoneMissed;
    z := BelsUsed(bound, b, 0)[j];
  }

  lemma SlotOf(bound: map<Loc, DspCell>, b: BlockLoc, z: int) returns (j: nat)
    requires z in DSP_Z && BelAt(b, z) in bound
    ensures j < |CellsAround(bound, b)| && bound[BelAt(b, z)] == CellsAround(bound, b)[j]
    ensures j < |BelsUsed(bound, b, 0)| && BelsUsed(bound, b, 0)[j] == z
  {
    BelsUsedFacts(bound, b, 0);
    assert z >= Dx(0);
    hide BelsUsed, BlockCells, BelAt, DSP_Z, Dx, Ascending;
    j := IndexOf(BelsUsed(bound, b, 0), z);
  }

  lemma IndexOf(used: seq<int>, z: int) returns (j: nat)
    requires z in used
    ensures j < |used| && used[j] == z
  {
    j :| 0 <= j < |used| && used[j] == z;
  }

  lemma BelsAscend(bound: map<Loc, DspCell>, b: BlockLoc)
    ensures |BelsUsed(bound, b, 0)| == |CellsAround(bound, b)|
    ensures forall j :: 0 <= j < |BelsUsed(bound, b, 0)| ==> 0 <= BelsUsed(bound, b, 0)[j] <= 7
    ensures forall j, k :: 0 <= j < k < |BelsUsed(bound, b, 0)| ==> BelsUsed(bound, b, 0)[j] < BelsUsed(bound, b, 0)[k]
  {
    BelsUsedFacts(bound, b, 0);
    assert forall z :: z in DSP_Z ==> 0 <= z <= 7;
    hide BelsUsed, BlockCells, BelAt, DSP_Z, NoneMissed;
  }

  /** Under the table, the cells of a block are those bound in it at the six z-positions, all of them. */
  lemma CellsAroundAre(bound: map<Loc, DspCell>, b: BlockLoc, c: DspCell)
    requires forall l :: l in bound ==> bound[l].loc == l
    ensures c in CellsAround(bound, b) <==>
      c.loc in bound && bound[c.loc] == c && c.loc.x - c.loc.z == b.x && c.loc.y == b.y && c.loc.z in {0, 1, 3, 4, 5, 7}
  {
    hide CellsAround, BelsUsed;
    if c in CellsAround(bound, b) {
      var j: nat :| j < |CellsAround(bound, b)| && CellsAround(bound, b)[j] == c;
      var z := BelOf(bound, b, j);
    }
    if c.loc in bound && bound[c.loc] == c && c.loc.x - c.loc.z == b.x && c.loc.y == b.y && c.loc.z in DSP_Z {
      assert c.loc == BelAt(b, c.loc.z);
      var j := SlotOf(bound, b, c.loc.z);
    }
  }

  /** The first k cells of a block are those up to z. */
  ghost predicate PrefixIs(bound: map<Loc, DspCell>, b: BlockLoc, k: nat, z: int) {
    var used := BelsUsed(bound, b, 0);
    k <= |used| && forall j :: 0 <= j < |used| ==> (j < k <==> used[j] <= z)
  }

  lemma NetUpTo(bound: map<Loc, DspCell>, at: map<DspCell, CellState>, b: BlockLoc, cls: PortClass, k: nat, z: int, j: nat, i: nat)
    requires PrefixIs(bound, b, k, z) && forall c :: c in CellsAround(bound, b) ==> c in at
    requires j < k && j < |CellsAround(bound, b)| && i < 4 && at[CellsAround(bound, b)[j]].ports[Port(cls, i)].Some?
    ensures at[CellsAround(bound, b)[j]].ports[Port(cls, i)].value in NetsAt(bound, at, b, cls, z)
  {
    var y := BelOf(bound, b, j);
    hide CellsAround, BelsUsed, DSP_Z, BelAt;
  }

  lemma NetInPrefix(bound: map<Loc, DspCell>, at: map<DspCell, CellState>, b: BlockLoc, cls: PortClass, k: nat, z: int, n: Net)
    returns (j: nat, i: nat)
    requires PrefixIs(bound, b, k, z) && n in NetsAt(bound, at, b, cls, z)
    requires forall c :: c in CellsAround(bound, b) ==> c in at
    ensures j < k && j < |CellsAround(bound, b)| && i < 4 && at[CellsAround(bound, b)[j]].ports[Port(cls, i)] == Some(n)
  {
    hide CellsAround, BelsUsed, DSP_Z, BelAt;
    var y;
    y, i :| y in DSP_Z && y <= z && BelAt(b, y) in bound && bound[BelAt(b, y)] in at && i < 4
      && at[bound[BelAt(b, y)]].ports[Port(cls, i)] == Some(n);
    j := SlotOf(bound, b, y);
  }

  lemma PrefixLength(bound: map<Loc, DspCell>, at: map<DspCell, CellState>, b: BlockLoc, k: nat, z: int)
    requires PrefixIs(bound, b, k, z) && forall c :: c in CellsAround(bound, b) ==> c in at
    ensures k <= |Start(bound, at, b)| == |CellsAround(bound, b)|
  {
    BelsAscend(bound, b);
    hide CellsAround, BelsUsed;
  }

  /** Counting the nets of those cells counts the nets on the bels up to z. */
  lemma NetsOfPrefix(bound: map<Loc, DspCell>, at: map<DspCell, CellState>, b: BlockLoc, cls: PortClass, k: nat, z: int)
    requires PrefixIs(bound, b, k, z) && forall c :: c in CellsAround(bound, b) ==> c in at
    ensures k <= |Start(bound, at, b)|
    ensures UnionOf(Views(Start(bound, at, b)[..k], cls)) == NetsAt(bound, at, b, cls, z)
  {
    PrefixLength(bound, at, b, k, z);
    hide CellsAround, UnionOf, NetsAt, PrefixIs;
    var cells, ps := CellsAround(bound, b), Views(Start(bound, at, b)[..k], cls);
    assert forall j, i :: 0 <= j < k && 0 <= i < 4 ==> ps[j][i] == at[cells[j]].ports[Port(cls, i)];
    hide Views, Start;
    forall n ensures n in UnionOf(ps) <==> n in NetsAt(bound, at, b, cls, z) {
      UnionIn(ps, n);
      if n in UnionOf(ps) {
        var j, i :| 0 <= j < |ps| && 0 <= i < 4 && ps[j][i] == Some(n);
        NetUpTo(bound, at, b, cls, k, z, j, i);
      }
      if n in NetsAt(bound, at, b, cls, z) {
        var j, i := NetInPrefix(bound, at, b, cls, k, z, n);
        assert ps[j][i] == Some(n);
      }
    }
  }

  lemma WholeBlock(bound: map<Loc, DspCell>, b: BlockLoc)
    ensures PrefixIs(bound, b, |CellsAround(bound, b)|, 7)
  {
    BelsAscend(bound, b);
    hide BelsUsed, CellsAround;
  }

  lemma FitsOnBoard(bound: map<Loc, DspCell>, at: map<DspCell, CellState>, b: BlockLoc)
    requires forall c :: c in CellsAround(bound, b) ==> c in at
    ensures BlockFits(Start(bound, at, b)) <==> BoardFits(bound, at, b)
  {
    WholeBlock(bound, b);
    hide NetsAt, UnionOf, BlockCells, PrefixIs;
    var ss := Start(bound, at, b);
    assert ss[..|ss|] == ss;
    forall cls: PortClass ensures UnionOf(Views(ss, cls)) == NetsAt(bound, at, b, cls, 7) {
      NetsOfPrefix(bound, at, b, cls, |ss|, 7);
    }
  }

  lemma SharedOnBoard(bound: map<Loc, DspCell>, at: map<DspCell, CellState>, b: BlockLoc)
    requires (forall c :: c in CellsAround(bound, b) ==> c in at) && BlockAligned(Start(bound, at, b))
    ensures PortsShared(bound, at, b)
  {
    hide CellsAround, BelsUsed, BelAt, DSP_Z;
    forall y, z, cls: PortClass, i: nat | y in DSP_Z && z in DSP_Z && i < 4
        && BelAt(b, y) in bound && BelAt(b, z) in bound && bound[BelAt(b, y)] in at && bound[BelAt(b, z)] in at
      ensures var p, q := at[bound[BelAt(b, y)]].ports[Port(cls, i)], at[bound[BelAt(b, z)]].ports[Port(cls, i)];
        p.Some? && q.Some? ==> p == q
    {
      var j := SlotOf(bound, b, y);
      var k := SlotOf(bound, b, z);
      AlignedAt(Start(bound, at, b), cls, j, k, i);
    }
  }

  lemma AlignedAt(ss: seq<CellState>, cls: PortClass, j: nat, k: nat, i: nat)
    requires BlockAligned(ss) && j < |ss| && k < |ss| && i < 4
    ensures var p, q := ss[j].ports[Port(cls, i)], ss[k].ports[Port(cls, i)]; p.Some? && q.Some? ==> p == q
  {
    var ps := Views(ss, cls);
    assert Aligned(ps) && ps[j][i] == ss[j].ports[Port(cls, i)] && ps[k][i] == ss[k].ports[Port(cls, i)];
  }

  /** The bound cells as they are now. */
  ghost function Snapshot(bound: map<Loc, DspCell>): map<DspCell, CellState>
    reads bound.Values
  {
    map c | c in bound.Values :: c.State()
  }

  /** The cells bound in the block of a cell together use at most four nets of each class. */
  ghost predicate PlacementLegal(bound: map<Loc, DspCell>, cell: DspCell)
    reads bound.Values
  {
    BoardFits(bound, Snapshot(bound), BlockOf(cell.loc))
  }

  /** The bels of the block up to z are bound to locked cells only, and these use too many nets of some class. */
  ghost predicate LockedOverflow(bound: map<Loc, DspCell>, b: BlockLoc, z: int)
    reads bound.Values
  {
    && (forall y :: y in DSP_Z && y <= z && BelAt(b, y) in bound ==> bound[BelAt(b, y)].locked)
    && exists cls: PortClass :: |NetsAt(bound, Snapshot(bound), b, cls, z)| > 4
  }

  lemma {:induction false} CellsAreBound(bound: map<Loc, DspCell>, b: BlockLoc, i: nat)
    requires i <= 6
    ensures forall c :: c in BlockCells(bound, b, i) ==> c in bound.Values
    decreases 6 - i
  {
    if i < 6 { CellsAreBound(bound, b, i + 1); }
  }

  lemma StartIsStates(bound: map<Loc, DspCell>, b: BlockLoc)
    ensures forall c :: c in CellsAround(bound, b) ==> c in Snapshot(bound)
    ensures Start(bound, Snapshot(bound), b) == States(CellsAround(bound, b))
  {
    CellsAreBound(bound, b, 0);
    hide BlockCells;
  }

  /** How far the first k cells reach, and how many cells there are up to z. */
  lemma PrefixReaches(bound: map<Loc, DspCell>, b: BlockLoc, k: nat) returns (z: int)
    requires k <= |CellsAround(bound, b)|
    ensures PrefixIs(bound, b, k, z)
  {
    BelsAscend(bound, b);
    hide CellsAround, BelsUsed;
    z := if k == 0 then -1 else BelsUsed(bound, b, 0)[k - 1];
  }

  lemma PrefixUpTo(bound: map<Loc, DspCell>, b: BlockLoc, z: int) returns (k: nat)
    ensures PrefixIs(bound, b, k, z)
  {
    BelsAscend(bound, b);
    hide CellsAround, BelsUsed;
    k := CountUpTo(BelsUsed(bound, b, 0), z);
  }

  lemma {:induction false} CountUpTo(used: seq<int>, z: int) returns (k: nat)
    requires forall i, j :: 0 <= i < j < |used| ==> used[i] < used[j]
    ensures k <= |used| && forall j :: 0 <= j < |used| ==> (j < k <==> used[j] <= z)
  {
    if used == [] || used[|used| - 1] <= z {
      k := |used|;
    } else {
      k := CountUpTo(used[..|used| - 1], z);
    }
  }

  /** Whether the first k cells are all locked, told by the bels up to z. */
  lemma PrefixLocked(bound: map<Loc, DspCell>, b: BlockLoc, k: nat, z: int)
    requires PrefixIs(bound, b, k, z)
    ensures k <= |CellsAround(bound, b)|
    ensures (forall j :: 0 <= j < k ==> CellsAround(bound, b)[j].locked) <==>
            (forall y :: y in DSP_Z && y <= z && BelAt(b, y) in bound ==> bound[BelAt(b, y)].locked)
  {
    BelsAscend(bound, b);
    hide CellsAround, BelsUsed, DSP_Z, BelAt;
    var cells := CellsAround(bound, b);
    if forall j :: 0 <= j < k ==> cells[j].locked {
      forall y | y in DSP_Z && y <= z && BelAt(b, y) in bound ensures bound[BelAt(b, y)].locked {
        var j := SlotOf(bound, b, y);
        assert cells[j].locked;
      }
    }
    if forall y :: y in DSP_Z && y <= z && BelAt(b, y) in bound ==> bound[BelAt(b, y)].locked {
      forall j: nat | j < k ensures cells[j].locked {
        var y := BelOf(bound, b, j);
      }
    }
  }

  lemma PrefixOverflows(bound: map<Loc, DspCell>, b: BlockLoc, k: nat, z: int)
    requires PrefixIs(bound, b, k, z)
    ensures LockedAndTooMany(CellsAround(bound, b), k) <==> LockedOverflow(bound, b, z)
  {
    StartIsStates(bound, b);
    PrefixLocked(bound, b, k, z);
    hide NetsAt, UnionOf, CellsAround, PrefixIs, BelAt, DSP_Z;
    var ss := Start(bound, Snapshot(bound), b);
    forall cls: PortClass ensures UnionOf(Views(ss[..k], cls)) == NetsAt(bound, Snapshot(bound), b, cls, z) {
      NetsOfPrefix(bound, Snapshot(bound), b, cls, k, z);
    }
  }

  /** is_dsp_location_valid: legal iff the cells bound in the block together use at most four nets of each class; the
      fatal error iff the locked cells the loop meets before any other are already too many. */
  method IsDspLocationValid(bound: map<Loc, DspCell>, cell: DspCell) returns (v: Verdict)
    ensures v == Legal <==> PlacementLegal(bound, cell)
    ensures v == FatalError <==> exists z :: LockedOverflow(bound, BlockOf(cell.loc), z)
  {
    hide BlockFits, BlockCells, LockedAndTooMany, LockedOverflow, NetsAt, BoardFits, PrefixIs;
    var b := BlockOf(cell.loc);
    v := CheckBlock(CellsAround(bound, b));
    StartIsStates(bound, b);
    FitsOnBoard(bound, Snapshot(bound), b);
    ghost var cells := CellsAround(bound, b);
    forall k: nat | LockedAndTooMany(cells, k) ensures exists z :: LockedOverflow(bound, b, z) {
      Reaches(cells, k);
      var z := PrefixReaches(bound, b, k);
      PrefixOverflows(bound, b, k, z);
    }
    forall z | LockedOverflow(bound, b, z) ensures exists k :: LockedAndTooMany(cells, k) {
      var k := PrefixUpTo(bound, b, z);
      PrefixOverflows(bound, b, k, z);
    }
  }

  lemma Reaches(cells: seq<DspCell>, k: nat)
    requires LockedAndTooMany(cells, k)
    ensures k <= |cells|
  {
  }

  lemma Unchanged(ports: Ports, params: Params)
    ensures KeepsMeaning(ports, params, ports, params)
  {
  }

  /** The cells of a block as recorded in `was`. */
  ghost function Start(bound: map<Loc, DspCell>, was: map<DspCell, CellState>, b: BlockLoc): seq<CellState>
    requires forall c :: c in CellsAround(bound, b) ==> c in was
  {
    seq(|CellsAround(bound, b)|, i requires 0 <= i < |CellsAround(bound, b)| => was[CellsAround(bound, b)[i]])
  }

  ghost predicate Table(bound: map<Loc, DspCell>, was: map<DspCell, CellState>) {
    && (forall l :: l in bound ==> bound[l].loc == l && bound[l] in was)
    && (forall b :: forall c :: c in CellsAround(bound, b) ==> InBlock(bound, b, 0, c) && c in was)
  }

  /** Between the recorded start and now: no cell has lost its meaning, the blocks in `processed` fitted
      and are aligned, and the cells of the other blocks have not been touched. */
  ghost predicate Progress(bound: map<Loc, DspCell>, was: map<DspCell, CellState>, now: map<DspCell, CellState>, processed: set<BlockLoc>)
    requires Table(bound, was) && now.Keys == was.Keys
  {
    CellsKept(was, now) && CellsLeft(bound, was, now, processed) && BlocksFinished(bound, was, now, processed)
  }

  ghost predicate CellsKept(was: map<DspCell, CellState>, now: map<DspCell, CellState>)
    requires now.Keys == was.Keys
  {
    forall c :: c in was ==> KeepsMeaning(was[c].ports, was[c].params, now[c].ports, now[c].params)
  }

  ghost predicate CellsLeft(bound: map<Loc, DspCell>, was: map<DspCell, CellState>, now: map<DspCell, CellState>, processed: set<BlockLoc>)
    requires now.Keys == was.Keys
  {
    forall c :: c in was && (forall b :: b in processed ==> c !in CellsAround(bound, b)) ==> now[c] == was[c]
  }

  ghost predicate BlocksFinished(bound: map<Loc, DspCell>, was: map<DspCell, CellState>, now: map<DspCell, CellState>, processed: set<BlockLoc>)
    requires Table(bound, was) && now.Keys == was.Keys
  {
    forall b :: b in processed ==> BlockDone(Start(bound, was, b), Start(bound, now, b))
  }

  predicate BlockDone(ss: seq<CellState>, tt: seq<CellState>) { BlockFits(ss) && BlockAligned(tt) && SameNets(ss, tt) }

  ghost function Now(was: map<DspCell, CellState>): (now: map<DspCell, CellState>)
    reads was.Keys
    ensures now.Keys == was.Keys
  {
    map c | c in was :: c.State()
  }

  lemma StatesNow(bound: map<Loc, DspCell>, was: map<DspCell, CellState>, b: BlockLoc)
    requires Table(bound, was)
    ensures States(CellsAround(bound, b)) == Start(bound, Now(was), b)
  {
    hide BlockCells;
    assert forall c :: c in CellsAround(bound, b) ==> c in was;
  }

  lemma Untouched(bound: map<Loc, DspCell>, was: map<DspCell, CellState>, now: map<DspCell, CellState>, processed: set<BlockLoc>, b: BlockLoc)
    requires Table(bound, was) && now.Keys == was.Keys && Progress(bound, was, now, processed) && b !in processed
    ensures Start(bound, now, b) == Start(bound, was, b)
  {
    hide KeepsMeaning, BlockDone, BlockCells;
    forall d, c | d in processed && c in CellsAround(bound, b)
      ensures c !in CellsAround(bound, d)
    {
      BlocksApart(bound, was, d, b);
    }
  }

  lemma BlockProcessed(bound: map<Loc, DspCell>, was: map<DspCell, CellState>, now: map<DspCell, CellState>,
                       later: map<DspCell, CellState>, processed: set<BlockLoc>, b: BlockLoc)
    requires Table(bound, was) && later.Keys == now.Keys == was.Keys && Progress(bound, was, now, processed)
    requires BlockDone(Start(bound, was, b), Start(bound, later, b))
    requires AllKeepMeaning(Start(bound, was, b), Start(bound, later, b))
    requires forall c :: c in was && c !in CellsAround(bound, b) ==> later[c] == now[c]
    ensures Progress(bound, was, later, processed + {b})
  {
    hide KeepsMeaning, BlockDone, CellsAround, AllKeepMeaning, Table, Start, CellsKept, CellsLeft, BlocksFinished;
    KeptStep(bound, was, now, later, b);
    LeftStep(bound, was, now, later, processed, b);
    FinishedStep(bound, was, now, later, processed, b);
  }

  lemma KeptStep(bound: map<Loc, DspCell>, was: map<DspCell, CellState>, now: map<DspCell, CellState>, later: map<DspCell, CellState>, b: BlockLoc)
    requires Table(bound, was) && later.Keys == now.Keys == was.Keys && CellsKept(was, now)
    requires AllKeepMeaning(Start(bound, was, b), Start(bound, later, b))
    requires forall c :: c in was && c !in CellsAround(bound, b) ==> later[c] == now[c]
    ensures CellsKept(was, later)
  {
    CellsKeepMeaning(bound, was, later, b);
    hide KeepsMeaning, CellsAround, AllKeepMeaning, Table, Start;
  }

  lemma LeftStep(bound: map<Loc, DspCell>, was: map<DspCell, CellState>, now: map<DspCell, CellState>,
                 later: map<DspCell, CellState>, processed: set<BlockLoc>, b: BlockLoc)
    requires Table(bound, was) && later.Keys == now.Keys == was.Keys && CellsLeft(bound, was, now, processed)
    requires forall c :: c in was && c !in CellsAround(bound, b) ==> later[c] == now[c]
    ensures CellsLeft(bound, was, later, processed + {b})
  {
    hide CellsAround, Table;
    forall c | c in was && (forall d :: d in processed + {b} ==> c !in CellsAround(bound, d)) ensures later[c] == was[c] {
      assert b in processed + {b} && forall d :: d in processed ==> d in processed + {b};
    }
  }

  lemma FinishedStep(bound: map<Loc, DspCell>, was: map<DspCell, CellState>, now: map<DspCell, CellState>,
                     later: map<DspCell, CellState>, processed: set<BlockLoc>, b: BlockLoc)
    requires Table(bound, was) && later.Keys == now.Keys == was.Keys && BlocksFinished(bound, was, now, processed)
    requires BlockDone(Start(bound, was, b), Start(bound, later, b))
    requires forall c :: c in was && c !in CellsAround(bound, b) ==> later[c] == now[c]
    ensures BlocksFinished(bound, was, later, processed + {b})
  {
    hide BlockDone, CellsAround, Start;
    forall d | d in processed + {b}
      ensures BlockDone(Start(bound, was, d), Start(bound, later, d))
    {
      if d != b { OtherBlockStays(bound, was, now, later, b, d); }
    }
  }

  lemma OtherBlockStays(bound: map<Loc, DspCell>, was: map<DspCell, CellState>, now: map<DspCell, CellState>,
                        later: map<DspCell, CellState>, b: BlockLoc, d: BlockLoc)
    requires Table(bound, was) && later.Keys == now.Keys == was.Keys && b != d
    requires forall c :: c in was && c !in CellsAround(bound, b) ==> later[c] == now[c]
    ensures Start(bound, later, d) == Start(bound, now, d)
  {
    hide BlockCells;
    BlocksApart(bound, was, b, d);
  }

  lemma CellsKeepMeaning(bound: map<Loc, DspCell>, was: map<DspCell, CellState>, later: map<DspCell, CellState>, b: BlockLoc)
    requires Table(bound, was) && later.Keys == was.Keys
    requires AllKeepMeaning(Start(bound, was, b), Start(bound, later, b))
    ensures forall c :: c in CellsAround(bound, b) ==> KeepsMeaning(was[c].ports, was[c].params, later[c].ports, later[c].params)
  {
    hide KeepsMeaning, BlockCells;
    var block := CellsAround(bound, b);
    forall c | c in block
      ensures KeepsMeaning(was[c].ports, was[c].params, later[c].ports, later[c].params)
    {
      var j :| 0 <= j < |block| && block[j] == c;
      assert Start(bound, was, b)[j] == was[c] && Start(bound, later, b)[j] == later[c];
    }
  }

  lemma CellsRecorded(bound: map<Loc, DspCell>, was: map<DspCell, CellState>, b: BlockLoc)
    requires Table(bound, was)
    ensures AllDifferent(CellsAround(bound, b)) && forall c :: c in CellsAround(bound, b) ==> c in was
  {
    BlockCellsFacts(bound, b, 0);
  }

  /** One block more. */
  method RemapNextBlock(bound: map<Loc, DspCell>, ghost was: map<DspCell, CellState>, ghost processed: set<BlockLoc>, b: BlockLoc)
    returns (ok: bool)
    requires Table(bound, was) && Progress(bound, was, Now(was), processed) && b !in processed
    modifies CellsAround(bound, b)
    ensures ok == BlockFits(Start(bound, was, b))
    ensures ok ==> Progress(bound, was, Now(was), processed + {b})
  {
    hide KeepsMeaning, BlockFits, BlockAligned, SameNets, BlockCells, AllKeepMeaning, Progress, Table, Start;
    var block := CellsAround(bound, b);
    ghost var now := Now(was);
    CellsRecorded(bound, was, b);
    StatesNow(bound, was, b);
    Untouched(bound, was, now, processed, b);
    ok := RemapBlock(block);
    if ok {
      StatesNow(bound, was, b);
      BlockProcessed(bound, was, now, Now(was), processed, b);
    }
  }

  lemma BlocksApart(bound: map<Loc, DspCell>, was: map<DspCell, CellState>, b: BlockLoc, d: BlockLoc)
    requires Table(bound, was) && b != d
    ensures forall c :: c in CellsAround(bound, d) ==> c !in CellsAround(bound, b)
  {
    hide BlockCells;
    forall c | c in CellsAround(bound, d)
      ensures c !in CellsAround(bound, b)
    {
      assert InBlock(bound, d, 0, c);
    }
  }

  ghost predicate Recorded(bound: map<Loc, DspCell>, was: map<DspCell, CellState>)
    reads was.Keys
  {
    (forall l :: l in bound ==> bound[l] in was) && forall c :: c in was ==> was[c] == c.State()
  }

  lemma NothingProcessed(cells: seq<DspCell>, bound: map<Loc, DspCell>, was: map<DspCell, CellState>)
    requires WellPlaced(cells, bound) && Recorded(bound, was)
    ensures Table(bound, was) && Progress(bound, was, Now(was), {})
  {
    forall b, c | c in CellsAround(bound, b)
      ensures InBlock(bound, b, 0, c) && c in was
    {
      BlockCellsFacts(bound, b, 0);
      assert InBlock(bound, b, 0, c);
    }
    forall c | c in was
      ensures KeepsMeaning(c.ports, c.params, c.ports, c.params)
    {
      Unchanged(c.ports, c.params);
    }
  }

  ghost predicate EveryBlockFits(cells: seq<DspCell>, bound: map<Loc, DspCell>, was: map<DspCell, CellState>)
  {
    forall c :: c in cells && c.isDsp ==> BoardFits(bound, was, BlockOf(c.loc))
  }

  /** The placement check is exactly what the pass needs: it holds of every DSP cell iff every block fits,
      so the pass never runs out of ports on a placement that was checked, and only then. */
  lemma CheckedPlacementRemaps(cells: seq<DspCell>, bound: map<Loc, DspCell>, was: map<DspCell, CellState>)
    requires WellPlaced(cells, bound) && Recorded(bound, was)
    ensures EveryBlockFits(cells, bound, was) <==> forall c :: c in cells && c.isDsp ==> PlacementLegal(bound, c)
  {
    forall b ensures BoardFits(bound, was, b) <==> BoardFits(bound, Snapshot(bound), b) {
      forall cls: PortClass ensures NetsAt(bound, was, b, cls, 7) == NetsAt(bound, Snapshot(bound), b, cls, 7) {}
    }
    hide BoardFits;
  }

  /** What the whole pass promises: in every block with a DSP cell the bound cells share their ports and the block
      has the nets it had; no cell loses its meaning; and cells bound outside those blocks are not touched. */
  ghost predicate EveryBlockRemapped(cells: seq<DspCell>, bound: map<Loc, DspCell>, was: map<DspCell, CellState>, now: map<DspCell, CellState>)
    requires now.Keys == was.Keys
  {
    && (forall c :: c in cells && c.isDsp ==> PortsShared(bound, now, BlockOf(c.loc)))
    && (forall c, cls: PortClass :: c in cells && c.isDsp ==> NetsAt(bound, now, BlockOf(c.loc), cls, 7) == NetsAt(bound, was, BlockOf(c.loc), cls, 7))
    && CellsKept(was, now)
    && (forall c :: c in was && !InSomeBlock(cells, c.loc) ==> now[c] == was[c])
  }

  /** The location is one of the six bels of a block with a DSP cell. */
  predicate InSomeBlock(cells: seq<DspCell>, l: Loc) {
    exists a :: a in cells && a.isDsp && l.z in DSP_Z && l == BelAt(BlockOf(a.loc), l.z)
  }

  lemma EverythingProcessed(cells: seq<DspCell>, bound: map<Loc, DspCell>, was: map<DspCell, CellState>, now: map<DspCell, CellState>,
                            processed: set<BlockLoc>)
    requires Table(bound, was) && now.Keys == was.Keys && Progress(bound, was, now, processed)
    requires AllIn(cells, |cells|, processed) && OnlyDsp(cells, processed)
    ensures EveryBlockFits(cells, bound, was) && EveryBlockRemapped(cells, bound, was, now)
  {
    hide KeepsMeaning, BlockDone, BlockCells, BoardFits, PortsShared, NetsAt, BelAt;
    forall c | c in cells && c.isDsp
      ensures BoardFits(bound, was, BlockOf(c.loc)) && PortsShared(bound, now, BlockOf(c.loc))
      ensures forall cls: PortClass :: NetsAt(bound, now, BlockOf(c.loc), cls, 7) == NetsAt(bound, was, BlockOf(c.loc), cls, 7)
    {
      DoneOnBoard(bound, was, now, BlockOf(c.loc));
    }
    forall c | c in was && !InSomeBlock(cells, c.loc) ensures now[c] == was[c] {
      forall b | b in processed ensures c !in CellsAround(bound, b) {
        NotAround(cells, bound, processed, b, c);
      }
    }
  }

  lemma NotAround(cells: seq<DspCell>, bound: map<Loc, DspCell>, processed: set<BlockLoc>, b: BlockLoc, c: DspCell)
    requires (forall l :: l in bound ==> bound[l].loc == l) && OnlyDsp(cells, processed) && b in processed && !InSomeBlock(cells, c.loc)
    ensures c !in CellsAround(bound, b)
  {
    CellsAroundAre(bound, b, c);
    hide BlockCells;
  }

  lemma DoneOnBoard(bound: map<Loc, DspCell>, was: map<DspCell, CellState>, now: map<DspCell, CellState>, b: BlockLoc)
    requires Table(bound, was) && now.Keys == was.Keys && BlockDone(Start(bound, was, b), Start(bound, now, b))
    ensures BoardFits(bound, was, b) && PortsShared(bound, now, b)
    ensures forall cls: PortClass :: NetsAt(bound, now, b, cls, 7) == NetsAt(bound, was, b, cls, 7)
  {
    hide BlockCells, UnionOf, NetsAt, BoardFits, PortsShared, BlockAligned, PrefixIs;
    FitsOnBoard(bound, was, b);
    SharedOnBoard(bound, now, b);
    WholeBlock(bound, b);
    var ss, tt := Start(bound, was, b), Start(bound, now, b);
    assert ss[..|ss|] == ss && tt[..|tt|] == tt;
    forall cls: PortClass ensures NetsAt(bound, now, b, cls, 7) == NetsAt(bound, was, b, cls, 7) {
      NetsOfPrefix(bound, was, b, cls, |ss|, 7);
      NetsOfPrefix(bound, now, b, cls, |ss|, 7);
    }
  }

  lemma SomeBlockMisfits(cells: seq<DspCell>, bound: map<Loc, DspCell>, was: map<DspCell, CellState>, n: nat)
    requires Table(bound, was) && n < |cells| && cells[n].isDsp
    requires (forall c :: c in CellsAround(bound, BlockOf(cells[n].loc)) ==> c in was)
    requires !BlockFits(Start(bound, was, BlockOf(cells[n].loc)))
    ensures !EveryBlockFits(cells, bound, was)
  {
    hide BlockFits, BlockCells, BoardFits;
    FitsOnBoard(bound, was, BlockOf(cells[n].loc));
    assert cells[n] in cells;
  }

  /** Only blocks with a DSP cell have been processed. */
  ghost predicate OnlyDsp(cells: seq<DspCell>, processed: set<BlockLoc>) {
    forall b :: b in processed ==> exists c :: c in cells && c.isDsp && BlockOf(c.loc) == b
  }

  /** The blocks of the first n cells, as far as those are DSP cells, are in `processed`. */
  predicate AllIn(cells: seq<DspCell>, n: nat, processed: set<BlockLoc>)
    requires n <= |cells|
  {
    forall j :: 0 <= j < n && cells[j].isDsp ==> BlockOf(cells[j].loc) in processed
  }

  lemma AllInNext(cells: seq<DspCell>, n: nat, processed: set<BlockLoc>)
    requires n < |cells| && AllIn(cells, n, processed) && (cells[n].isDsp ==> BlockOf(cells[n].loc) in processed)
    ensures AllIn(cells, n + 1, processed)
  {
  }

  lemma AllInMore(cells: seq<DspCell>, n: nat, processed: set<BlockLoc>, b: BlockLoc)
    requires n <= |cells| && AllIn(cells, n, processed)
    ensures AllIn(cells, n, processed + {b})
  {
  }

  /** One cell of the design: its block is passed over unless that was done before. */
  method VisitCell(cells: seq<DspCell>, n: nat, bound: map<Loc, DspCell>, ghost was: map<DspCell, CellState>, processed: set<BlockLoc>)
    returns (ok: bool, after: set<BlockLoc>)
    requires n < |cells| && Table(bound, was) && Progress(bound, was, Now(was), processed) && AllIn(cells, n, processed)
    modifies was.Keys
    requires OnlyDsp(cells, processed)
    ensures if ok then Progress(bound, was, Now(was), after) && AllIn(cells, n + 1, after) && OnlyDsp(cells, after)
            else !EveryBlockFits(cells, bound, was)
  {
    assert cells[n] in cells;
    hide Progress, Table, BlockFits, CellsAround, EveryBlockFits, Start, AllIn, Now;
    var b := BlockOf(cells[n].loc);
    ok, after := true, processed;
    if cells[n].isDsp && b !in processed {
      CellsRecorded(bound, was, b);
      ok := RemapNextBlock(bound, was, processed, b);
      if !ok {
        SomeBlockMisfits(cells, bound, was, n);
        return;
      }
      AllInMore(cells, n, processed, b);
      after := processed + {b};
    }
    AllInNext(cells, n, after);
  }

  /** remap_dsp_blocks: every block that holds a DSP cell is passed over once.  `was` records the
      cells as they are at the call. */
  method RemapDspBlocks(cells: seq<DspCell>, bound: map<Loc, DspCell>, ghost was: map<DspCell, CellState>) returns (ok: bool)
    requires WellPlaced(cells, bound) && Recorded(bound, was)
    modifies was.Keys
    ensures ok <==> EveryBlockFits(cells, bound, was)
    ensures ok ==> EveryBlockRemapped(cells, bound, was, Now(was))
  {
    hide Progress, Table, WellPlaced, Recorded, CellsAround, EveryBlockFits, EveryBlockRemapped, Now;
    var processed: set<BlockLoc> := {};
    NothingProcessed(cells, bound, was);
    assert AllIn(cells, 0, {}) && OnlyDsp(cells, {});
    hide AllIn, OnlyDsp;
    for n := 0 to |cells|
      invariant AllIn(cells, n, processed) && OnlyDsp(cells, processed) && Progress(bound, was, Now(was), processed)
    {
      ok, processed := VisitCell(cells, n, bound, was, processed);
      if !ok { return; }
    }
    EverythingProcessed(cells, bound, was, Now(was), processed);
    ok := true;
  }
}
