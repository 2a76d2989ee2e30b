/** The two passes of bba, the binary blob assembler (bba/main.cc).

    A program is a list of streams of tokens.  The first pass finds the position of every label; the
    second writes the bytes, turning each reference into the distance from itself to its label. */
module Assembler {
  import opened Basics

  datatype Token = Label(l: nat) | Ref(l: nat) | U8(v: int) | U16(v: int) | U32(v: int) | Align

  type Stream = seq<Token>

  /** The streams one after the other, as both passes walk them. */
  function Flat(streams: seq<Stream>): seq<Token> {
    if streams == [] then [] else Flat(streams[..|streams| - 1]) + streams[|streams| - 1]
  }

  /** Stream s lies in the flat list behind the streams before it. */
  lemma {:induction false} FlatHas(streams: seq<Stream>, s: nat)
    requires s < |streams|
    ensures |Flat(streams[..s])| + |streams[s]| <= |Flat(streams)|
    ensures Flat(streams)[|Flat(streams[..s])|..|Flat(streams[..s])| + |streams[s]|] == streams[s]
  {
    var init := streams[..|streams| - 1];
    if s < |streams| - 1 {
      FlatHas(init, s);
      assert init[..s] == streams[..s];
    } else {
      assert init == streams[..s];
    }
  }

  lemma FlatStep(streams: seq<Stream>, s: nat)
    requires s < |streams|
    ensures |Flat(streams[..s + 1])| == |Flat(streams[..s])| + |streams[s]|
  {
    assert streams[..s + 1][..s] == streams[..s];
  }

  // ----- Layout -----

  function Advance(cursor: nat, t: Token): (next: nat)
    ensures next >= cursor
  {
    match t
    case Label(_) => cursor
    case Ref(_) => cursor + 4
    case U8(_) => cursor + 1
    case U16(_) => cursor + 2
    case U32(_) => cursor + 4
    case Align => if cursor % 4 != 0 then cursor + (4 - cursor % 4) else cursor
  }

  /** Where token k starts. */
  function CursorAt(ts: seq<Token>, k: nat): nat
    requires k <= |ts|
  {
    if k == 0 then 0 else Advance(CursorAt(ts, k - 1), ts[k - 1])
  }

  lemma {:induction false} CursorMonotone(ts: seq<Token>, j: nat, k: nat)
    requires j <= k <= |ts|
    ensures CursorAt(ts, j) <= CursorAt(ts, k)
    decreases k
  {
    if j < k {
      CursorMonotone(ts, j, k - 1);
    }
  }

  predicate WellAligned(t: Token, cursor: nat, offset32: bool) {
    match t
    case Label(_) => offset32 ==> cursor % 4 == 0
    case U16(_) => cursor % 2 == 0
    case U32(_) => cursor % 4 == 0
    case _ => true
  }

  predicate LayoutLegal(ts: seq<Token>, offset32: bool) {
    forall k :: 0 <= k < |ts| ==> WellAligned(ts[k], CursorAt(ts, k), offset32)
  }

  /** The position of the last definition of label l among the first k tokens, or -1. */
  function LabelPos(ts: seq<Token>, k: nat, l: nat): (p: int)
    requires k <= |ts|
    ensures p >= -1
  {
    if k == 0 then -1
    else if ts[k - 1] == Label(l) then CursorAt(ts, k - 1)
    else LabelPos(ts, k - 1, l)
  }

  /** A position found is that of a definition, and no later token redefines the label. */
  lemma {:induction false} LastDefinition(ts: seq<Token>, k: nat, l: nat) returns (d: nat)
    requires k <= |ts| && LabelPos(ts, k, l) != -1
    ensures d < k && ts[d] == Label(l) && LabelPos(ts, k, l) == CursorAt(ts, d)
    ensures forall j :: d < j < k ==> ts[j] != Label(l)
  {
    if ts[k - 1] == Label(l) {
      d := k - 1;
    } else {
      d := LastDefinition(ts, k - 1, l);
    }
  }

  lemma {:induction false} Defined(ts: seq<Token>, k: nat, l: nat, d: nat)
    requires d < k <= |ts| && ts[d] == Label(l)
    ensures LabelPos(ts, k, l) >= 0
  {
    if ts[k - 1] != Label(l) {
      Defined(ts, k - 1, l, d);
    }
  }

  predicate LabelsBelow(ts: seq<Token>, n: nat) {
    forall k :: 0 <= k < |ts| && (ts[k].Label? || ts[k].Ref?) ==> ts[k].l < n
  }

  /** The labels as they stand after the first k tokens. */
  ghost predicate LabelsAt(labels: seq<int>, ts: seq<Token>, k: nat)
    requires k <= |ts|
  {
    forall l: nat :: l < |labels| ==> labels[l] == LabelPos(ts, k, l)
  }

  ghost predicate LegalUpTo(ts: seq<Token>, n: nat, offset32: bool)
    requires n <= |ts|
  {
    forall k :: 0 <= k < n ==> WellAligned(ts[k], CursorAt(ts, k), offset32)
  }

  lemma LegalStep(ts: seq<Token>, n: nat, offset32: bool)
    requires n < |ts| && LegalUpTo(ts, n, offset32)
    ensures LegalUpTo(ts, n + 1, offset32) <==> WellAligned(ts[n], CursorAt(ts, n), offset32)
    ensures !WellAligned(ts[n], CursorAt(ts, n), offset32) ==> !LayoutLegal(ts, offset32)
  {
    hide WellAligned, CursorAt;
  }

  lemma LabelsStep(labels: seq<int>, ts: seq<Token>, k: nat)
    requires k < |ts| && LabelsAt(labels, ts, k) && (ts[k].Label? ==> ts[k].l < |labels|)
    ensures LabelsAt(if ts[k].Label? then labels[ts[k].l := CursorAt(ts, k)] else labels, ts, k + 1)
  {
    hide CursorAt;
  }

  /** The first pass over one stream, which is found in the flat list ts from index base on. */
  method LabelStream(stream: Stream, start: nat, offset32: bool, labels: array<int>, ghost ts: seq<Token>, ghost base: nat)
    returns (ok: bool, cursor: nat)
    requires base + |stream| <= |ts| && ts[base..base + |stream|] == stream && LabelsBelow(ts, labels.Length)
    requires start == CursorAt(ts, base) && LabelsAt(labels[..], ts, base) && LegalUpTo(ts, base, offset32)
    modifies labels
    ensures if !ok then !LayoutLegal(ts, offset32) else
      var end := base + |stream|;
      cursor == CursorAt(ts, end) && LabelsAt(labels[..], ts, end) && LegalUpTo(ts, end, offset32)
  {
    hide LabelsAt, LegalUpTo, LayoutLegal;
    cursor := start;
    for i := 0 to |stream|
      invariant cursor == CursorAt(ts, base + i) && LabelsAt(labels[..], ts, base + i) && LegalUpTo(ts, base + i, offset32)
    {
      var t := stream[i];
      assert t == ts[base + i];
      LegalStep(ts, base + i, offset32);
      if !WellAligned(t, cursor, offset32) { return false, cursor; }
      LabelsStep(labels[..], ts, base + i);
      match t {
        case Label(l) =>
          ghost var before := labels[..];
          labels[l] := cursor;
          assert labels[..] == before[l := cursor];
        case Ref(_) => cursor := cursor + 4;
        case U8(_) => cursor := cursor + 1;
        case U16(_) => cursor := cursor + 2;
        case U32(_) => cursor := cursor + 4;
        case Align => if cursor % 4 != 0 { cursor := cursor + (4 - cursor % 4); }
      }
    }
    return true, cursor;
  }

  /** The first pass has gone through the first s streams of the flat list ts. */
  ghost predicate Laid(streams: seq<Stream>, s: nat, ts: seq<Token>, labels: seq<int>, offset32: bool, total: nat) {
    && s <= |streams| && |Flat(streams[..s])| <= |ts| && total == CursorAt(ts, |Flat(streams[..s])|)
    && LabelsAt(labels, ts, |Flat(streams[..s])|) && LegalUpTo(ts, |Flat(streams[..s])|, offset32)
  }

  lemma PassStart(streams: seq<Stream>, labels: seq<int>, offset32: bool)
    requires forall l :: 0 <= l < |labels| ==> labels[l] == -1
    ensures Laid(streams, 0, Flat(streams), labels, offset32, 0)
  {
    assert streams[..0] == [];
  }

  /** One stream more. */
  method LabelNext(streams: seq<Stream>, s: nat, start: nat, offset32: bool, labels: array<int>) returns (ok: bool, total: nat)
    requires s < |streams| && Laid(streams, s, Flat(streams), labels[..], offset32, start) && LabelsBelow(Flat(streams), labels.Length)
    modifies labels
    ensures if ok then Laid(streams, s + 1, Flat(streams), labels[..], offset32, total) else !LayoutLegal(Flat(streams), offset32)
  {
    hide LabelsAt, CursorAt, LegalUpTo, LayoutLegal, Flat, LabelsBelow;
    FlatStep(streams, s);
    FlatHas(streams, s);
    ok, total := LabelStream(streams[s], start, offset32, labels, Flat(streams), |Flat(streams[..s])|);
  }

  /** First pass.  `labels` starts at -1 everywhere; a misplaced token fails an assertion. */
  method LabelPass(streams: seq<Stream>, offset32: bool, labels: array<int>) returns (ok: bool, total: nat)
    requires LabelsBelow(Flat(streams), labels.Length) && forall l :: 0 <= l < labels.Length ==> labels[l] == -1
    modifies labels
    ensures ok <==> LayoutLegal(Flat(streams), offset32)
    ensures ok ==> total == CursorAt(Flat(streams), |Flat(streams)|) && LabelsAt(labels[..], Flat(streams), |Flat(streams)|)
  {
    total := 0;
    hide LabelsAt, CursorAt, LegalUpTo, LayoutLegal, Flat, LabelsBelow, Laid;
    PassStart(streams, labels[..], offset32);
    for s := 0 to |streams|
      invariant Laid(streams, s, Flat(streams), labels[..], offset32, total)
    {
      ok, total := LabelNext(streams, s, total, offset32, labels);
      if !ok { return; }
    }
    AllLaid(streams, labels[..], offset32, total);
    return true, total;
  }

  lemma AllLaid(streams: seq<Stream>, labels: seq<int>, offset32: bool, total: nat)
    requires Laid(streams, |streams|, Flat(streams), labels, offset32, total)
    ensures LayoutLegal(Flat(streams), offset32)
    ensures total == CursorAt(Flat(streams), |Flat(streams)|) && LabelsAt(labels, Flat(streams), |Flat(streams)|)
  {
    hide LabelsAt, CursorAt, Flat;
    assert streams[..|streams|] == streams;
  }

  // ----- Bytes -----

  /** Byte k of a 32-bit value, least significant first. */
  function ByteOf(v: int, k: nat): Byte
    requires k < 4
  {
    match k
    case 0 => v % 256
    case 1 => v / 0x100 % 256
    case 2 => v / 0x1_0000 % 256
    case _ => v / 0x100_0000 % 256
  }

  /** The n low bytes of v in the given byte order. */
  function Bytes(v: int, n: nat, bigEndian: bool): (b: seq<Byte>)
    requires n <= 4
    ensures |b| == n
  {
    seq(n, i requires 0 <= i < n => ByteOf(v, if bigEndian then n - 1 - i else i))
  }

  /** What a reader of the blob makes of four bytes: a signed 32-bit number. */
  function ReadInt32(b: seq<Byte>, bigEndian: bool): int
    requires |b| == 4
  {
    var b0: int, b1: int, b2: int, b3: int := b[0], b[1], b[2], b[3];
    var u := if bigEndian then b0 * 0x100_0000 + b1 * 0x1_0000 + b2 * 0x100 + b3
             else b3 * 0x100_0000 + b2 * 0x1_0000 + b1 * 0x100 + b0;
    if u < 0x8000_0000 then u else u - 0x1_0000_0000
  }

  /** A number survives the trip through four bytes exactly when it fits 32 signed bits. */
  lemma Int32RoundTrip(q: int, bigEndian: bool)
    ensures ReadInt32(Bytes(q % 0x1_0000_0000, 4, bigEndian), bigEndian) == q <==> -0x8000_0000 <= q < 0x8000_0000
  {
    hide ReadInt32, Bytes;
    ReadBack(q % 0x1_0000_0000, bigEndian);
    Wraps(q);
  }

  lemma Wraps(q: int)
    ensures var v := q % 0x1_0000_0000;
      (if v < 0x8000_0000 then v else v - 0x1_0000_0000) == q <==> -0x8000_0000 <= q < 0x8000_0000
  {
  }

  lemma ReadBack(v: int, bigEndian: bool)
    requires 0 <= v < 0x1_0000_0000
    ensures ReadInt32(Bytes(v, 4, bigEndian), bigEndian) == if v < 0x8000_0000 then v else v - 0x1_0000_0000
  {
    FourBytes(v);
    hide ByteOf;
  }

  lemma FourBytes(v: int)
    requires 0 <= v < 0x1_0000_0000
    ensures v == ByteOf(v, 3) * 0x100_0000 + ByteOf(v, 2) * 0x1_0000 + ByteOf(v, 1) * 0x100 + ByteOf(v, 0)
  {
    var v1, v2, v3 := v / 0x100, v / 0x1_0000, v / 0x100_0000;
    assert v2 == v1 / 0x100;
    assert v3 == v2 / 0x100;
    assert v3 < 256;
  }

  /** The value and number of bytes token t contributes at `cursor`. */
  function Width(t: Token, cursor: nat): (n: nat)
    ensures n <= 4 && cursor + n == Advance(cursor, t)
  {
    match t
    case Label(_) => 0
    case Ref(_) => 4
    case U8(_) => 1
    case U16(_) => 2
    case U32(_) => 4
    case Align => if cursor % 4 == 0 then 0 else 4 - cursor % 4
  }

  /** References count in units of four bytes. */
  function Value(t: Token, cursor: nat, labels: seq<int>): int
    requires t.Ref? ==> t.l < |labels|
  {
    match t
    case Ref(l) => (labels[l] - cursor) / 4 % 0x1_0000_0000
    case U8(v) => v % 0x1_0000_0000
    case U16(v) => v % 0x1_0000_0000
    case U32(v) => v % 0x1_0000_0000
    case _ => 0
  }

  function Emitted(ts: seq<Token>, k: nat, labels: seq<int>, bigEndian: bool): (b: seq<Byte>)
    requires k <= |ts| && LabelsBelow(ts, |labels|)
    ensures |b| == CursorAt(ts, k)
  {
    if k == 0 then []
    else
      var cursor := CursorAt(ts, k - 1);
      Emitted(ts, k - 1, labels, bigEndian) + Bytes(Value(ts[k - 1], cursor, labels), Width(ts[k - 1], cursor), bigEndian)
  }

  /** What token k contributes. */
  function Piece(ts: seq<Token>, k: nat, labels: seq<int>, bigEndian: bool): seq<Byte>
    requires k < |ts| && LabelsBelow(ts, |labels|)
  {
    Bytes(Value(ts[k], CursorAt(ts, k), labels), Width(ts[k], CursorAt(ts, k)), bigEndian)
  }

  lemma EmittedGrows(ts: seq<Token>, k: nat, labels: seq<int>, bigEndian: bool)
    requires k < |ts| && LabelsBelow(ts, |labels|)
    ensures Emitted(ts, k + 1, labels, bigEndian) == Emitted(ts, k, labels, bigEndian) + Piece(ts, k, labels, bigEndian)
    ensures CursorAt(ts, k + 1) == CursorAt(ts, k) + Width(ts[k], CursorAt(ts, k))
  {
    hide Bytes, Value;
  }

  /** Token k's bytes are found where the first pass put it. */
  lemma {:induction false} EmittedAt(ts: seq<Token>, n: nat, labels: seq<int>, bigEndian: bool, k: nat)
    requires k < n <= |ts| && LabelsBelow(ts, |labels|)
    ensures CursorAt(ts, k) <= CursorAt(ts, k + 1) <= CursorAt(ts, n) == |Emitted(ts, n, labels, bigEndian)|
    ensures Emitted(ts, n, labels, bigEndian)[CursorAt(ts, k)..CursorAt(ts, k + 1)] == Piece(ts, k, labels, bigEndian)
  {
    hide Emitted, CursorAt, LabelsBelow, Piece;
    EmittedGrows(ts, n - 1, labels, bigEndian);
    CursorMonotone(ts, k, k + 1);
    CursorMonotone(ts, k + 1, n);
    var e, last := Emitted(ts, n - 1, labels, bigEndian), Piece(ts, n - 1, labels, bigEndian);
    if k + 1 < n {
      EmittedAt(ts, n - 1, labels, bigEndian, k);
      CutFront(e, last, CursorAt(ts, k), CursorAt(ts, k + 1));
    } else {
      CutBack(e, last);
    }
  }

  lemma CutFront(e: seq<Byte>, last: seq<Byte>, i: nat, j: nat)
    requires i <= j <= |e|
    ensures (e + last)[i..j] == e[i..j]
  {
  }

  lemma CutBack(e: seq<Byte>, last: seq<Byte>)
    ensures (e + last)[|e|..|e + last|] == last
  {
  }

  /** The second pass insists on 4-aligned references to 4-aligned labels; in C, -1 % 4 is not 0. */
  predicate RefsLegal(ts: seq<Token>, labels: seq<int>)
    requires LabelsBelow(ts, |labels|)
  {
    forall k :: 0 <= k < |ts| && ts[k].Ref? ==> RefLegal(labels[ts[k].l], CursorAt(ts, k))
  }

  predicate RefLegal(target: int, cursor: nat) { target % 4 == 0 && cursor % 4 == 0 }

  /** The switch statements of the emit pass: the wider cases fall through to the narrower ones. */
  method WriteBigEndian(data: array<Byte>, cursor: nat, v: int, n: nat)
    requires n <= 4 && cursor + n <= data.Length
    modifies data
    ensures data[..cursor] == old(data[..cursor]) && data[cursor + n..] == old(data[cursor + n..])
    ensures data[cursor..cursor + n] == Bytes(v, n, true)
  {
    hide ByteOf;
    var c := cursor;
    if n >= 4 { data[c] := ByteOf(v, 3); c := c + 1; }
    if n >= 3 { data[c] := ByteOf(v, 2); c := c + 1; }
    if n >= 2 { data[c] := ByteOf(v, 1); c := c + 1; }
    if n >= 1 { data[c] := ByteOf(v, 0); }
  }

  method WriteLittleEndian(data: array<Byte>, cursor: nat, v: int, n: nat)
    requires n <= 4 && cursor + n <= data.Length
    modifies data
    ensures data[..cursor] == old(data[..cursor]) && data[cursor + n..] == old(data[cursor + n..])
    ensures data[cursor..cursor + n] == Bytes(v, n, false)
  {
    hide ByteOf;
    if n >= 4 { data[cursor + 3] := ByteOf(v, 3); }
    if n >= 3 { data[cursor + 2] := ByteOf(v, 2); }
    if n >= 2 { data[cursor + 1] := ByteOf(v, 1); }
    if n >= 1 { data[cursor] := ByteOf(v, 0); }
  }

  method WriteBytes(data: array<Byte>, cursor: nat, v: int, n: nat, bigEndian: bool)
    requires n <= 4 && cursor + n <= data.Length
    modifies data
    ensures data[..cursor + n] == old(data[..cursor]) + Bytes(v, n, bigEndian)
    ensures data[cursor + n..] == old(data[cursor + n..])
  {
    hide ByteOf;
    if bigEndian {
      WriteBigEndian(data, cursor, v, n);
    } else {
      WriteLittleEndian(data, cursor, v, n);
    }
    assert data[..cursor + n] == data[..cursor] + data[cursor..cursor + n];
  }

  ghost predicate RefsLegalUpTo(ts: seq<Token>, n: nat, labels: seq<int>)
    requires n <= |ts| && LabelsBelow(ts, |labels|)
  {
    forall k :: 0 <= k < n && ts[k].Ref? ==> RefLegal(labels[ts[k].l], CursorAt(ts, k))
  }

  lemma RefsStep(ts: seq<Token>, n: nat, labels: seq<int>)
    requires n < |ts| && LabelsBelow(ts, |labels|) && RefsLegalUpTo(ts, n, labels)
    ensures RefsLegalUpTo(ts, n + 1, labels) <==> (ts[n].Ref? ==> RefLegal(labels[ts[n].l], CursorAt(ts, n)))
    ensures ts[n].Ref? && !RefLegal(labels[ts[n].l], CursorAt(ts, n)) ==> !RefsLegal(ts, labels)
  {
    hide RefLegal, CursorAt;
  }

  /** The second pass over one stream. */
  method EmitStream(stream: Stream, start: nat, labels: array<int>, bigEndian: bool, data: array<Byte>, ghost ts: seq<Token>, ghost base: nat)
    returns (ok: bool, cursor: nat)
    requires base + |stream| <= |ts| && ts[base..base + |stream|] == stream && LabelsBelow(ts, labels.Length)
    requires data.Length == CursorAt(ts, |ts|) && start == CursorAt(ts, base) <= data.Length
    requires data[..start] == Emitted(ts, base, labels[..], bigEndian) && RefsLegalUpTo(ts, base, labels[..])
    modifies data
    ensures if !ok then !RefsLegal(ts, labels[..]) else
      var end := base + |stream|;
      && cursor == CursorAt(ts, end) <= data.Length && RefsLegalUpTo(ts, end, labels[..])
      && data[..cursor] == Emitted(ts, end, labels[..], bigEndian)
  {
    hide RefsLegalUpTo, RefsLegal, RefLegal, Bytes, Value, Width, Emitted, CursorAt;
    cursor := start;
    for i := 0 to |stream|
      invariant cursor == CursorAt(ts, base + i) <= data.Length && RefsLegalUpTo(ts, base + i, labels[..])
      invariant data[..cursor] == Emitted(ts, base + i, labels[..], bigEndian)
    {
      var t := stream[i];
      assert t == ts[base + i];
      RefsStep(ts, base + i, labels[..]);
      if t.Ref? && !RefLegal(labels[t.l], cursor) { return false, cursor; }
      var value, n := Value(t, cursor, labels[..]), Width(t, cursor);
      CursorMonotone(ts, base + i + 1, |ts|);
      EmittedGrows(ts, base + i, labels[..], bigEndian);
      WriteBytes(data, cursor, value, n, bigEndian);
      assert data[..cursor + n] == Emitted(ts, base + i, labels[..], bigEndian) + Bytes(value, n, bigEndian);
      cursor := cursor + n;
    }
    return true, cursor;
  }

  /** The second pass has gone through the first s streams and filled the buffer up to `cursor`. */
  ghost predicate Written(streams: seq<Stream>, s: nat, ts: seq<Token>, labels: seq<int>, bigEndian: bool, data: seq<Byte>, cursor: nat) {
    && s <= |streams| && |Flat(streams[..s])| <= |ts| && LabelsBelow(ts, |labels|)
    && |data| == CursorAt(ts, |ts|) && cursor == CursorAt(ts, |Flat(streams[..s])|) <= |data|
    && data[..cursor] == Emitted(ts, |Flat(streams[..s])|, labels, bigEndian)
    && RefsLegalUpTo(ts, |Flat(streams[..s])|, labels)
  }

  lemma NothingWritten(streams: seq<Stream>, labels: seq<int>, bigEndian: bool, data: seq<Byte>)
    requires LabelsBelow(Flat(streams), |labels|) && |data| == CursorAt(Flat(streams), |Flat(streams)|)
    ensures Written(streams, 0, Flat(streams), labels, bigEndian, data, 0)
  {
    assert streams[..0] == [];
  }

  lemma AllWritten(streams: seq<Stream>, labels: seq<int>, bigEndian: bool, data: seq<Byte>, cursor: nat)
    requires Written(streams, |streams|, Flat(streams), labels, bigEndian, data, cursor)
    ensures LabelsBelow(Flat(streams), |labels|) && RefsLegal(Flat(streams), labels)
    ensures data == Emitted(Flat(streams), |Flat(streams)|, labels, bigEndian)
  {
    hide Emitted, CursorAt, Flat, LabelsBelow, RefLegal;
    assert streams[..|streams|] == streams && data[..|data|] == data;
  }

  /** One stream more. */
  method EmitNext(streams: seq<Stream>, s: nat, start: nat, labels: array<int>, bigEndian: bool, data: array<Byte>)
    returns (ok: bool, cursor: nat)
    requires s < |streams| && LabelsBelow(Flat(streams), labels.Length)
    requires Written(streams, s, Flat(streams), labels[..], bigEndian, data[..], start)
    modifies data
    ensures if ok then Written(streams, s + 1, Flat(streams), labels[..], bigEndian, data[..], cursor) else !RefsLegal(Flat(streams), labels[..])
  {
    hide Emitted, CursorAt, RefsLegalUpTo, RefsLegal, Flat, LabelsBelow;
    FlatStep(streams, s);
    FlatHas(streams, s);
    assert data[..start] == data[..][..start];
    ok, cursor := EmitStream(streams[s], start, labels, bigEndian, data, Flat(streams), |Flat(streams[..s])|);
    assert ok ==> data[..cursor] == data[..][..cursor];
  }

  /** Second pass, over a buffer of the size the first pass found. */
  method EmitPass(streams: seq<Stream>, labels: array<int>, bigEndian: bool, total: nat) returns (ok: bool, data: array<Byte>)
    requires LabelsBelow(Flat(streams), labels.Length) && total == CursorAt(Flat(streams), |Flat(streams)|)
    ensures fresh(data) && data.Length == total
    ensures ok <==> RefsLegal(Flat(streams), labels[..])
    ensures ok ==> data[..] == Emitted(Flat(streams), |Flat(streams)|, labels[..], bigEndian)
  {
    hide Emitted, CursorAt, RefsLegalUpTo, RefsLegal, Flat, LabelsBelow, Written;
    data := new Byte[total](_ => 0);
    var cursor := 0;
    NothingWritten(streams, labels[..], bigEndian, data[..]);
    for s := 0 to |streams|
      invariant Written(streams, s, Flat(streams), labels[..], bigEndian, data[..], cursor)
    {
      ok, cursor := EmitNext(streams, s, cursor, labels, bigEndian, data);
      if !ok { return; }
    }
    AllWritten(streams, labels[..], bigEndian, data[..], cursor);
    return true, data;
  }

  // ----- What the blob means -----

  /** The program as both passes accept it. */
  ghost predicate Accepted(ts: seq<Token>, labels: seq<int>, offset32: bool) {
    && LabelsBelow(ts, |labels|) && LayoutLegal(ts, offset32)
    && LabelsAt(labels, ts, |ts|) && RefsLegal(ts, labels)
  }

  lemma ReferenceBytes(ts: seq<Token>, labels: seq<int>, bigEndian: bool, k: nat)
    requires LabelsBelow(ts, |labels|) && k < |ts| && ts[k].Ref?
    ensures var p := CursorAt(ts, k);
      && p + 4 <= |Emitted(ts, |ts|, labels, bigEndian)|
      && Emitted(ts, |ts|, labels, bigEndian)[p..p + 4] == Bytes((labels[ts[k].l] - p) / 4 % 0x1_0000_0000, 4, bigEndian)
  {
    hide Emitted, Bytes, CursorAt, Piece;
    RefPiece(ts, labels, bigEndian, k);
    EmittedAt(ts, |ts|, labels, bigEndian, k);
  }

  lemma RefPiece(ts: seq<Token>, labels: seq<int>, bigEndian: bool, k: nat)
    requires LabelsBelow(ts, |labels|) && k < |ts| && ts[k].Ref?
    ensures CursorAt(ts, k + 1) == CursorAt(ts, k) + 4
    ensures Piece(ts, k, labels, bigEndian) == Bytes((labels[ts[k].l] - CursorAt(ts, k)) / 4 % 0x1_0000_0000, 4, bigEndian)
  {
    hide Bytes;
  }

  /** An accepted reference has a defined label, and both are 4-aligned. */
  lemma AcceptedReference(ts: seq<Token>, labels: seq<int>, offset32: bool, k: nat)
    requires Accepted(ts, labels, offset32) && k < |ts| && ts[k].Ref?
    ensures LabelsBelow(ts, |labels|) && labels[ts[k].l] == LabelPos(ts, |ts|, ts[k].l) >= 0
    ensures labels[ts[k].l] % 4 == 0 && CursorAt(ts, k) % 4 == 0
  {
    hide LabelPos, CursorAt, LayoutLegal;
    assert RefLegal(labels[ts[k].l], CursorAt(ts, k));
  }

  lemma FourTimes(target: int, p: int, x: int)
    requires target % 4 == 0 && p % 4 == 0
    ensures x * 4 + p == target <==> x == (target - p) / 4
  {
  }

  /** Every reference of an accepted program leads to the last definition of its label: the four bytes at
      its position, read back as a signed number and multiplied by four, are the distance.  This holds for a
      reference exactly when the distance in words fits 32 signed bits. */
  lemma ReferenceResolves(ts: seq<Token>, labels: seq<int>, offset32: bool, bigEndian: bool, k: nat)
    requires Accepted(ts, labels, offset32) && k < |ts| && ts[k].Ref?
    ensures LabelsBelow(ts, |labels|)
    ensures Resolves(Emitted(ts, |ts|, labels, bigEndian), CursorAt(ts, k), LabelPos(ts, |ts|, ts[k].l), bigEndian)
  {
    hide Bytes, ReadInt32, Emitted, LabelPos, LabelsBelow, CursorAt, Accepted;
    AcceptedReference(ts, labels, offset32, k);
    var p, target := CursorAt(ts, k), LabelPos(ts, |ts|, ts[k].l);
    ReferenceBytes(ts, labels, bigEndian, k);
    Int32RoundTrip((target - p) / 4, bigEndian);
    FourTimes(target, p, ReadInt32(Emitted(ts, |ts|, labels, bigEndian)[p..p + 4], bigEndian));
  }

  /** The four bytes at p, times four, plus p, give the target, exactly when the distance in words fits 32 signed bits. */
  predicate Resolves(data: seq<Byte>, p: nat, target: int, bigEndian: bool) {
    && p + 4 <= |data| && target >= 0
    && (ReadInt32(data[p..p + 4], bigEndian) * 4 + p == target <==> -0x8000_0000 <= (target - p) / 4 < 0x8000_0000)
  }

  /** The smallest accepted program with a reference: a label and a reference to it. */
  lemma SelfReference()
    ensures Accepted([Label(0), Ref(0)], [0], true)
  {
    var ts := [Label(0), Ref(0)];
    assert CursorAt(ts, 0) == 0 && CursorAt(ts, 1) == 0;
    assert LabelPos(ts, 1, 0) == 0 && LabelPos(ts, 2, 0) == 0;
    assert WellAligned(ts[0], 0, true) && WellAligned(ts[1], 0, true);
  }

  /** A reference to a label that is never defined is rejected. */
  lemma UndefinedLabelRejected(ts: seq<Token>, labels: seq<int>, k: nat)
    requires LabelsBelow(ts, |labels|) && LabelsAt(labels, ts, |ts|)
    requires k < |ts| && ts[k].Ref? && forall d :: 0 <= d < |ts| ==> ts[d] != Label(ts[k].l)
    ensures !RefsLegal(ts, labels)
  {
    if LabelPos(ts, |ts|, ts[k].l) != -1 {
      var d := LastDefinition(ts, |ts|, ts[k].l);
    }
    assert !RefLegal(labels[ts[k].l], CursorAt(ts, k));
  }
}
