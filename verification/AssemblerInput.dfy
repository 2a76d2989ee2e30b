/** Reading a bba program: the command loop that fills the token streams (bba/main.cc), and the proof that the two
    passes over those streams give what the commands say.  Splitting the input into lines and words is not modelled. */
module AssemblerInput {
  import opened Assembler
  import opened Basics
  import opened BbaProgram

  datatype State = State(
    streams: seq<Stream>, streamIndex: map<Name, nat>, stack: seq<nat>,
    labelIndex: map<Name, nat>, numLabels: nat, strings: Stream, offset32: bool,
    preText: seq<Name>, postText: seq<Name>)

  const START := State([], map[], [], map[], 0, [], false, [], [])

  /** The label index of a name, new names being numbered in order. */
  function Intern(st: State, n: Name): (r: State)
    ensures n in r.labelIndex
  {
    if n in st.labelIndex then st
    else st.(labelIndex := st.labelIndex[n := st.numLabels], numLabels := st.numLabels + 1)
  }

  /** A token for the stream on top of the stack. */
  function Append(st: State, t: Token): Option<State> {
    if st.stack == [] || st.stack[|st.stack| - 1] >= |st.streams| then None
    else
      var top := st.stack[|st.stack| - 1];
      Some(st.(streams := st.streams[top := st.streams[top] + [t]]))
  }

  /** The tokens of a string and its end mark. */
  function Letters(s: Name): Stream {
    if s == [] then [U8(0)] else [U8(s[0])] + Letters(s[1..])
  }

  function StringTokens(l: nat, s: Name): Stream { [Align, Label(l)] + Letters(s) }

  /** What one command does; None stands for an exception or a failed assertion. */
  function Step(st: State, c: Command): Option<State> {
    match c
    case Offset32 => Some(st.(offset32 := true))
    case Pre(line) => Some(st.(preText := st.preText + [line]))
    case Post(line) => Some(st.(postText := st.postText + [line]))
    case Push(n) =>
      var st' := if n in st.streamIndex then st
                 else st.(streamIndex := st.streamIndex[n := |st.streams|], streams := st.streams + [[]]);
      Some(st'.(stack := st'.stack + [st'.streamIndex[n]]))
    case Pop => if st.stack == [] then None else Some(st.(stack := st.stack[..|st.stack| - 1]))
    case DefLabel(n) => var st' := Intern(st, n); Append(st', Label(st'.labelIndex[n]))
    case RefLabel(n) => var st' := Intern(st, n); Append(st', Ref(st'.labelIndex[n]))
    case Num8(v) => Append(st, U8(v))
    case Num16(v) => Append(st, U16(v))
    case Num32(v) => Append(st, U32(v))
    case AlignHere => Append(st, Align)
    case Str(s) =>
      var st' := Intern(st, STR + s);
      var l := st'.labelIndex[STR + s];
      var r := Append(st', Ref(l));
      if r == None then None else Some(r.value.(strings := r.value.strings + StringTokens(l, s)))
  }

  function Run(cs: seq<Command>): Option<State> {
    if cs == [] then Some(START)
    else
      var before := Run(cs[..|cs| - 1]);
      if before == None then None else Step(before.value, cs[|cs| - 1])
  }

  // ----- What the tables hold -----

  predicate Indexed(st: State) {
    && (forall n :: n in st.labelIndex ==> st.labelIndex[n] < st.numLabels)
    && (forall n, m :: n in st.labelIndex && m in st.labelIndex && st.labelIndex[n] == st.labelIndex[m] ==> n == m)
  }

  /** The token stands for what the command left, labels being numbered. */
  predicate Stands(t: Token, c: Command, labels: map<Name, nat>) {
    match c
    case DefLabel(n) => n in labels && t == Label(labels[n])
    case RefLabel(n) => n in labels && t == Ref(labels[n])
    case Num8(v) => t == U8(v)
    case Num16(v) => t == U16(v)
    case Num32(v) => t == U32(v)
    case AlignHere => t == Align
    case _ => false
  }

  predicate Matches(ts: seq<Token>, items: seq<Command>, labels: map<Name, nat>) {
    |ts| == |items| && forall k :: 0 <= k < |ts| ==> Stands(ts[k], items[k], labels)
  }

  /** The streams are numbered in the order of their names. */
  predicate Numbered(names: seq<Name>, index: map<Name, nat>) {
    && (forall j :: 0 <= j < |names| ==> names[j] in index && index[names[j]] == j)
    && (forall n :: n in index ==> index[n] < |names| && names[index[n]] == n)
  }

  predicate StackShows(stack: seq<nat>, names: seq<Name>, index: map<Name, nat>) {
    |stack| == |names| && forall k :: 0 <= k < |stack| ==> names[k] in index && stack[k] == index[names[k]]
  }

  ghost predicate StreamsShow(streams: seq<Stream>, names: seq<Name>, cs: seq<Command>, labels: map<Name, nat>) {
    |streams| == |names| && forall j :: 0 <= j < |names| ==> Matches(streams[j], StreamOf(cs, names[j]), labels)
  }

  /** The tables hold streams of these names with what cs leaves in them, this stack and these strings. */
  ghost predicate Tables(st: State, names: seq<Name>, stack: seq<Name>, strings: seq<Command>, cs: seq<Command>, offset32: bool) {
    && Indexed(st)
    && Numbered(names, st.streamIndex)
    && StackShows(st.stack, stack, st.streamIndex)
    && StreamsShow(st.streams, names, cs, st.labelIndex)
    && Matches(st.strings, strings, st.labelIndex)
    && (st.offset32 <==> offset32)
  }

  /** After the commands cs the tables show what those commands say. */
  ghost predicate Shows(cs: seq<Command>, st: State) {
    Tables(st, StreamNames(cs), Stacked(cs), Strings(cs), cs, Offset32 in cs)
  }

  predicate Kept(labels: map<Name, nat>, labels': map<Name, nat>) {
    forall n :: n in labels ==> n in labels' && labels'[n] == labels[n]
  }

  lemma MatchesKept(ts: seq<Token>, items: seq<Command>, labels: map<Name, nat>, labels': map<Name, nat>)
    requires Matches(ts, items, labels) && Kept(labels, labels')
    ensures Matches(ts, items, labels')
  {
  }

  lemma MatchesJoin(a: seq<Token>, b: seq<Token>, x: seq<Command>, y: seq<Command>, labels: map<Name, nat>)
    requires Matches(a, x, labels) && Matches(b, y, labels)
    ensures Matches(a + b, x + y, labels)
  {
    hide Stands;
  }

  // ----- One command more -----

  /** It is enough that the tables show the old names, stack and strings changed by the command. */
  lemma ShowsNext(cs: seq<Command>, c: Command, st: State)
    requires Tables(st, NamesAfter(StreamNames(cs), c), StackAfter(Stacked(cs), c),
                    if c.Str? then Strings(cs) + Stored(c.s) else Strings(cs), cs + [c], Offset32 in cs || c.Offset32?)
    ensures Shows(cs + [c], st)
  {
    More(cs, c);
    hide Tables, NamesAfter, StackAfter, Stored;
  }

  lemma {:induction false} NothingBefore(cs: seq<Command>, n: Name)
    requires n !in StreamNames(cs)
    ensures StreamOf(cs, n) == []
  {
    if cs != [] {
      var init := cs[..|cs| - 1];
      NothingBefore(init, n);
      StackNamed(init);
    }
  }

  lemma NumberedMore(names: seq<Name>, index: map<Name, nat>, n: Name)
    requires Numbered(names, index) && n !in index
    ensures n !in names && Numbered(names + [n], index[n := |names|])
  {
  }

  lemma StackKept(stack: seq<nat>, names: seq<Name>, index: map<Name, nat>, index': map<Name, nat>)
    requires StackShows(stack, names, index) && Kept(index, index')
    ensures StackShows(stack, names, index')
  {
  }

  lemma StackPushed(stack: seq<nat>, names: seq<Name>, index: map<Name, nat>, n: Name)
    requires StackShows(stack, names, index) && n in index
    ensures StackShows(stack + [index[n]], names + [n], index)
  {
  }

  lemma StreamsOpened(streams: seq<Stream>, names: seq<Name>, cs: seq<Command>, labels: map<Name, nat>, n: Name)
    requires StreamsShow(streams, names, cs, labels) && StreamOf(cs, n) == []
    ensures StreamsShow(streams + [[]], names + [n], cs, labels)
  {
    hide StreamOf, Stands;
  }

  lemma StreamsQuiet(streams: seq<Stream>, names: seq<Name>, cs: seq<Command>, c: Command, labels: map<Name, nat>)
    requires StreamsShow(streams, names, cs, labels) && !Writes(c)
    ensures StreamsShow(streams, names, cs + [c], labels)
  {
    hide StreamOf, Matches, Writes, OnTop, Left;
    forall n ensures StreamOf(cs + [c], n) == StreamOf(cs, n) { StreamMore(cs, c, n); }
  }

  /** The command neither writes nor pushes nor pops. */
  lemma QuietShows(cs: seq<Command>, st: State, c: Command, st': State)
    requires Shows(cs, st) && (c.Offset32? || c.Pre? || c.Post?)
    requires st' == st.(offset32 := st'.offset32, preText := st'.preText, postText := st'.postText)
    requires st'.offset32 <==> st.offset32 || c.Offset32?
    ensures Shows(cs + [c], st')
  {
    StreamsQuiet(st.streams, StreamNames(cs), cs, c, st.labelIndex);
    hide Indexed, Matches, Stacked, StreamNames, Strings, Numbered, StackShows, StreamsShow;
    ShowsNext(cs, c, st');
  }

  lemma StackPopped(stack: seq<nat>, names: seq<Name>, index: map<Name, nat>)
    requires StackShows(stack, names, index) && names != []
    ensures stack != [] && StackShows(stack[..|stack| - 1], names[..|names| - 1], index)
  {
  }

  lemma PopShows(cs: seq<Command>, st: State)
    requires Shows(cs, st) && Stacked(cs) != []
    ensures st.stack != [] && Shows(cs + [Pop], st.(stack := st.stack[..|st.stack| - 1]))
  {
    StackPopped(st.stack, Stacked(cs), st.streamIndex);
    StreamsQuiet(st.streams, StreamNames(cs), cs, Pop, st.labelIndex);
    hide Indexed, Matches, Stacked, StreamNames, Strings, Numbered, StackShows, StreamsShow;
    ShowsNext(cs, Pop, st.(stack := st.stack[..|st.stack| - 1]));
  }

  lemma InNames(names: seq<Name>, index: map<Name, nat>, n: Name)
    requires Numbered(names, index)
    ensures n in index <==> n in names
  {
  }

  /** Opening stream n if it is new. */
  lemma PushOpens(cs: seq<Command>, st: State, n: Name, st': State)
    requires Shows(cs, st) && st' == Step(st, Push(n)).value
    ensures n in st'.streamIndex && Numbered(NamesAfter(StreamNames(cs), Push(n)), st'.streamIndex)
    ensures StackShows(st.stack, Stacked(cs), st'.streamIndex)
    ensures StreamsShow(st'.streams, NamesAfter(StreamNames(cs), Push(n)), cs, st.labelIndex)
  {
    var names := StreamNames(cs);
    InNames(names, st.streamIndex, n);
    hide Matches, Indexed, Stacked, StreamNames, StreamOf, Strings, Numbered, StackShows, StreamsShow;
    if n !in st.streamIndex {
      NothingBefore(cs, n);
      NumberedMore(names, st.streamIndex, n);
      StreamsCount(st.streams, names, cs, st.labelIndex);
      StackKept(st.stack, Stacked(cs), st.streamIndex, st'.streamIndex);
      StreamsOpened(st.streams, names, cs, st.labelIndex, n);
    }
  }

  lemma StreamsCount(streams: seq<Stream>, names: seq<Name>, cs: seq<Command>, labels: map<Name, nat>)
    requires StreamsShow(streams, names, cs, labels)
    ensures |streams| == |names|
  {
  }

  lemma PushStep(st: State, n: Name)
    ensures n in Step(st, Push(n)).value.streamIndex
    ensures var st' := Step(st, Push(n)).value;
      st' == st.(streams := st'.streams, streamIndex := st'.streamIndex, stack := st.stack + [st'.streamIndex[n]])
  {
  }

  lemma PushShows(cs: seq<Command>, st: State, n: Name)
    requires Shows(cs, st)
    ensures Shows(cs + [Push(n)], Step(st, Push(n)).value)
  {
    var c, st' := Push(n), Step(st, Push(n)).value;
    PushOpens(cs, st, n, st');
    PushStep(st, n);
    hide Matches, Indexed, Stacked, StreamNames, Strings, Numbered, StackShows, StreamsShow, Step, NamesAfter;
    StackPushed(st.stack, Stacked(cs), st'.streamIndex, n);
    StreamsQuiet(st'.streams, NamesAfter(StreamNames(cs), c), cs, c, st.labelIndex);
    ShowsNext(cs, c, st');
  }

  lemma InternFacts(st: State, n: Name)
    requires Indexed(st)
    ensures var st' := Intern(st, n);
      && Indexed(st') && Kept(st.labelIndex, st'.labelIndex) && n in st'.labelIndex
      && st' == st.(labelIndex := st'.labelIndex, numLabels := st'.numLabels)
  {
  }

  /** The labels may grow. */
  lemma ShowsKept(cs: seq<Command>, st: State, n: Name)
    requires Shows(cs, st)
    ensures Shows(cs, Intern(st, n)) && n in Intern(st, n).labelIndex
  {
    InternFacts(st, n);
    var st' := Intern(st, n);
    hide Indexed, Numbered, StackShows, Matches, Kept, Intern, StreamOf, StreamNames, Stacked, Strings;
    forall j | 0 <= j < |st.streams| ensures Matches(st.streams[j], StreamOf(cs, StreamNames(cs)[j]), st'.labelIndex) {
      MatchesKept(st.streams[j], StreamOf(cs, StreamNames(cs)[j]), st.labelIndex, st'.labelIndex);
    }
    MatchesKept(st.strings, Strings(cs), st.labelIndex, st'.labelIndex);
  }

  lemma TopIs(cs: seq<Command>, st: State)
    requires Shows(cs, st) && Stacked(cs) != []
    ensures st.stack != []
    ensures var x := st.stack[|st.stack| - 1]; x < |st.streams| && StreamNames(cs)[x] == Stacked(cs)[|Stacked(cs)| - 1]
    ensures forall j :: 0 <= j < |StreamNames(cs)| ==> (OnTop(cs, StreamNames(cs)[j]) <==> j == st.stack[|st.stack| - 1])
  {
    hide Matches, Indexed, StreamNames, StreamOf, Strings;
  }

  lemma Singles(t: Token, c: Command, labels: map<Name, nat>)
    requires Stands(t, c, labels)
    ensures Matches([t], [c], labels)
  {
  }

  lemma StreamsWritten(cs: seq<Command>, c: Command, st: State, t: Token)
    requires Shows(cs, st) && Writes(c) && Stacked(cs) != [] && Stands(t, Left(c), st.labelIndex)
    ensures st.stack != [] && st.stack[|st.stack| - 1] < |st.streams|
    ensures var x := st.stack[|st.stack| - 1];
      StreamsShow(st.streams[x := st.streams[x] + [t]], StreamNames(cs), cs + [c], st.labelIndex)
  {
    TopIs(cs, st);
    var x, names := st.stack[|st.stack| - 1], StreamNames(cs);
    Singles(t, Left(c), st.labelIndex);
    hide Left, Stands, Stacked, StreamNames, StreamOf, Strings, OnTop, Matches, Indexed, Numbered, StackShows;
    var streams := st.streams[x := st.streams[x] + [t]];
    forall j | 0 <= j < |names| ensures Matches(streams[j], StreamOf(cs + [c], names[j]), st.labelIndex) {
      StreamMore(cs, c, names[j]);
      if j == x { MatchesJoin(st.streams[x], [t], StreamOf(cs, names[x]), [Left(c)], st.labelIndex); }
    }
  }

  /** A token for what the command leaves goes to the stream on top. */
  lemma AppendShows(cs: seq<Command>, c: Command, st: State, t: Token)
    requires Shows(cs, st) && Writes(c) && !c.Str? && Stands(t, c, st.labelIndex)
    ensures Append(st, t) != None <==> Stacked(cs) != []
    ensures Append(st, t) != None ==> Shows(cs + [c], Append(st, t).value)
  {
    if Stacked(cs) != [] {
      StreamsWritten(cs, c, st, t);
      hide Matches, Indexed, Stacked, StreamNames, Strings, Numbered, Stands, StreamsShow, StackShows;
      ShowsNext(cs, c, Append(st, t).value);
    }
  }

  lemma StrShows(cs: seq<Command>, st: State, s: Name)
    requires Shows(cs, st)
    ensures Step(st, Str(s)) != None <==> Stacked(cs) != []
    ensures Step(st, Str(s)) != None ==> Shows(cs + [Str(s)], Step(st, Str(s)).value)
  {
    var mid := Intern(st, STR + s);
    hide Stands, Spelled, Intern, StringTokens, Shows;
    ShowsKept(cs, st, STR + s);
    StoredShows(cs, mid, s);
  }

  /** The reference and the stored string, once the label has its number. */
  lemma StoredShows(cs: seq<Command>, mid: State, s: Name)
    requires Shows(cs, mid) && STR + s in mid.labelIndex
    ensures var l := mid.labelIndex[STR + s]; var r := Append(mid, Ref(l));
      && (r != None <==> Stacked(cs) != [])
      && (r != None ==> Shows(cs + [Str(s)], r.value.(strings := r.value.strings + StringTokens(l, s))))
  {
    var c, l := Str(s), mid.labelIndex[STR + s];
    if Stacked(cs) != [] {
      StreamsWritten(cs, c, mid, Ref(l));
      StringMatches(l, s, mid.labelIndex);
      MatchesJoin(mid.strings, StringTokens(l, s), Strings(cs), Stored(s), mid.labelIndex);
      hide Matches, Indexed, Stacked, StreamNames, Strings, Numbered, StreamsShow, StringTokens, Stored, Stands, StackShows;
      var r := Append(mid, Ref(l)).value;
      ShowsNext(cs, c, r.(strings := r.strings + StringTokens(l, s)));
    }
  }

  lemma StringMatches(l: nat, s: Name, labels: map<Name, nat>)
    requires STR + s in labels && labels[STR + s] == l
    ensures Matches(StringTokens(l, s), Stored(s), labels)
  {
    LettersFacts(s);
    hide Letters;
    var ts, items := StringTokens(l, s), Stored(s);
    forall k | 0 <= k < |ts| ensures Stands(ts[k], items[k], labels) {
      if k >= 2 { assert ts[k] == Letters(s)[k - 2] && items[k] == Spelled(s)[k - 2]; }
    }
  }

  lemma {:induction false} LettersFacts(s: Name)
    ensures |Letters(s)| == |s| + 1
    ensures forall i :: 0 <= i < |s| ==> Letters(s)[i] == U8(s[i])
    ensures Letters(s)[|s|] == U8(0)
  {
    if s != [] {
      LettersFacts(s[1..]);
    }
  }

  /** Each command is carried out as it says; it fails exactly when it needs a stream and none is pushed. */
  lemma StepShows(cs: seq<Command>, st: State, c: Command)
    requires Shows(cs, st)
    ensures Step(st, c) != None <==> ((c.Pop? || Writes(c)) ==> Stacked(cs) != [])
    ensures Step(st, c) != None ==> Shows(cs + [c], Step(st, c).value)
  {
    assert st.stack == [] <==> Stacked(cs) == [];
    hide Shows, Append, Intern, StringTokens, Stacked, Stands, StreamNames;
    match c
    case Offset32 => QuietShows(cs, st, c, Step(st, c).value);
    case Pre(_) => QuietShows(cs, st, c, Step(st, c).value);
    case Post(_) => QuietShows(cs, st, c, Step(st, c).value);
    case Push(n) => PushShows(cs, st, n);
    case Pop => if Stacked(cs) != [] { PopShows(cs, st); }
    case DefLabel(n) =>
      ShowsKept(cs, st, n);
      AppendShows(cs, c, Intern(st, n), Label(Intern(st, n).labelIndex[n]));
    case RefLabel(n) =>
      ShowsKept(cs, st, n);
      AppendShows(cs, c, Intern(st, n), Ref(Intern(st, n).labelIndex[n]));
    case Num8(v) => AppendShows(cs, c, st, U8(v));
    case Num16(v) => AppendShows(cs, c, st, U16(v));
    case Num32(v) => AppendShows(cs, c, st, U32(v));
    case AlignHere => AppendShows(cs, c, st, Align);
    case Str(s) => StrShows(cs, st, s);
  }

  /** Reading succeeds exactly when nothing is written or popped without a stream, and then the tables show what
      all the commands say. */
  lemma {:induction false} RunShows(cs: seq<Command>)
    ensures Run(cs) != None <==> Fed(cs)
    ensures Run(cs) != None ==> Shows(cs, Run(cs).value)
  {
    if cs != [] {
      var init, c := cs[..|cs| - 1], cs[|cs| - 1];
      RunShows(init);
      FedMore(init, c);
      assert init + [c] == cs;
      hide Shows, Step, Fed;
      if Run(init) != None { StepShows(init, Run(init).value, c); }
    }
  }

  // ----- The assembled program -----

  /** The string stream goes last. */
  function Program(st: State): seq<Stream> { st.streams + [st.strings] }

  function Tokens(st: State): (ts: seq<Token>)
    ensures ts == Flat(st.streams) + st.strings
  {
    assert Program(st)[..|st.streams|] == st.streams;
    Flat(Program(st))
  }

  /** The label table after the first pass. */
  function FinalLabels(st: State): (labels: seq<int>)
    ensures |labels| == st.numLabels && LabelsAt(labels, Tokens(st), |Tokens(st)|)
  {
    seq(st.numLabels, l requires 0 <= l < st.numLabels => LabelPos(Tokens(st), |Tokens(st)|, l))
  }

  lemma {:induction false} FlatMatches(streams: seq<Stream>, names: seq<Name>, cs: seq<Command>, labels: map<Name, nat>)
    requires StreamsShow(streams, names, cs, labels)
    ensures Matches(Flat(streams), Chained(cs, names), labels)
  {
    hide StreamOf, Matches;
    if streams == [] {
      assert Matches([], [], labels) by { NothingMatches(labels); }
    } else {
      var x := |streams| - 1;
      FlatMatches(streams[..x], names[..x], cs, labels);
      MatchesJoin(Flat(streams[..x]), streams[x], Chained(cs, names[..x]), StreamOf(cs, names[x]), labels);
    }
  }

  lemma NothingMatches(labels: map<Name, nat>)
    ensures Matches([], [], labels)
  {
  }

  /** The token list of the whole program stands for its items. */
  lemma TokensMatch(cs: seq<Command>, st: State)
    requires Shows(cs, st)
    ensures Matches(Tokens(st), Items(cs), st.labelIndex) && LabelsBelow(Tokens(st), st.numLabels)
  {
    FlatMatches(st.streams, StreamNames(cs), cs, st.labelIndex);
    assert Tokens(st) == Flat(st.streams) + st.strings;
    hide Flat, Chained, StreamNames, Strings, StreamsShow, Numbered, StackShows, Tokens;
    MatchesJoin(Flat(st.streams), st.strings, Chained(cs, StreamNames(cs)), Strings(cs), st.labelIndex);
    BelowWhenMatching(Tokens(st), Items(cs), st);
  }

  lemma BelowWhenMatching(ts: seq<Token>, items: seq<Command>, st: State)
    requires Matches(ts, items, st.labelIndex) && Indexed(st)
    ensures LabelsBelow(ts, st.numLabels)
  {
    forall k | 0 <= k < |ts| && (ts[k].Label? || ts[k].Ref?) ensures ts[k].l < st.numLabels {
      assert Stands(ts[k], items[k], st.labelIndex);
    }
  }

  lemma {:induction false} CursorIsPosition(ts: seq<Token>, items: seq<Command>, labels: map<Name, nat>, k: nat)
    requires Matches(ts, items, labels) && k <= |ts|
    ensures CursorAt(ts, k) == Position(items, k)
  {
    if k > 0 {
      CursorIsPosition(ts, items, labels, k - 1);
      assert Stands(ts[k - 1], items[k - 1], labels);
      hide Matches, CursorAt, Position, Stands;
      OneAdvance(CursorAt(ts, k - 1), ts[k - 1], items[k - 1], labels);
      CursorStep(ts, k - 1);
      PositionStep(items, k - 1);
    }
  }

  lemma OneAdvance(p: nat, t: Token, c: Command, labels: map<Name, nat>)
    requires Stands(t, c, labels)
    ensures Advance(p, t) == Behind(p, c)
  {
  }

  lemma CursorStep(ts: seq<Token>, k: nat)
    requires k < |ts|
    ensures CursorAt(ts, k + 1) == Advance(CursorAt(ts, k), ts[k])
  {
  }

  lemma PositionStep(items: seq<Command>, k: nat)
    requires k < |items|
    ensures Position(items, k + 1) == Behind(Position(items, k), items[k])
  {
  }

  /** A label's token is the definition of its name, and of no other. */
  lemma LabelToken(ts: seq<Token>, items: seq<Command>, st: State, n: Name, k: nat)
    requires Matches(ts, items, st.labelIndex) && Indexed(st) && n in st.labelIndex && k < |ts|
    ensures ts[k] == Label(st.labelIndex[n]) <==> items[k] == DefLabel(n)
  {
    assert Stands(ts[k], items[k], st.labelIndex);
    hide Matches;
  }

  /** The table of labels holds the position of the last definition, or -1 where there is none. */
  lemma LabelIsLast(ts: seq<Token>, items: seq<Command>, st: State, n: Name)
    requires Matches(ts, items, st.labelIndex) && Indexed(st) && n in st.labelIndex
    ensures forall d :: LastDef(items, n, d) ==> LabelPos(ts, |ts|, st.labelIndex[n]) == Position(items, d)
    ensures LabelPos(ts, |ts|, st.labelIndex[n]) != -1 ==> exists d :: LastDef(items, n, d)
  {
    var l := st.labelIndex[n];
    forall k: nat | k < |ts| ensures ts[k] == Label(l) <==> items[k] == DefLabel(n) { LabelToken(ts, items, st, n, k); }
    assert |ts| == |items|;
    forall d | LastDef(items, n, d) ensures LabelPos(ts, |ts|, l) == Position(items, d) {
      Defined(ts, |ts|, l, d);
      var e := LastDefinition(ts, |ts|, l);
      CursorIsPosition(ts, items, st.labelIndex, d);
      hide LabelPos, Position, CursorAt, Matches;
      assert d == e;
    }
    if LabelPos(ts, |ts|, l) != -1 {
      var e := LastDefinition(ts, |ts|, l);
      assert LastDef(items, n, e);
    }
  }

  // ----- Acceptance -----

  predicate LayoutFits(items: seq<Command>, k: nat, offset32: bool)
    requires k < |items|
  {
    var p := Position(items, k);
    match items[k]
    case DefLabel(_) => offset32 ==> p % 4 == 0
    case Num16(_) => p % 2 == 0
    case Num32(_) => p % 4 == 0
    case _ => true
  }

  lemma LayoutMeans(ts: seq<Token>, items: seq<Command>, labels: map<Name, nat>, offset32: bool, k: nat)
    requires Matches(ts, items, labels) && k < |ts|
    ensures WellAligned(ts[k], CursorAt(ts, k), offset32) <==> LayoutFits(items, k, offset32)
  {
    CursorIsPosition(ts, items, labels, k);
    assert Stands(ts[k], items[k], labels);
    hide CursorAt, Position, Matches;
  }

  ghost predicate RefFits(items: seq<Command>, k: nat)
    requires k < |items|
  {
    items[k].RefLabel? ==> Position(items, k) % 4 == 0 && exists d :: LastDef(items, items[k].name, d) && Position(items, d) % 4 == 0
  }

  lemma RefMeans(ts: seq<Token>, items: seq<Command>, st: State, k: nat)
    requires Matches(ts, items, st.labelIndex) && Indexed(st) && k < |ts|
    ensures ts[k].Ref? <==> items[k].RefLabel?
    ensures ts[k].Ref? ==> (RefLegal(LabelPos(ts, |ts|, ts[k].l), CursorAt(ts, k)) <==> RefFits(items, k))
  {
    assert Stands(ts[k], items[k], st.labelIndex);
    CursorIsPosition(ts, items, st.labelIndex, k);
    if ts[k].Ref? {
      var n := items[k].name;
      LabelIsLast(ts, items, st, n);
      hide Matches, Indexed, LastDef, LabelPos, Position, CursorAt;
      if RefLegal(LabelPos(ts, |ts|, ts[k].l), CursorAt(ts, k)) {
        assert LabelPos(ts, |ts|, ts[k].l) != -1;
        var d :| LastDef(items, n, d);
      }
    }
  }

  lemma PlacedIs(items: seq<Command>, k: nat, offset32: bool)
    requires k < |items|
    ensures WellPlaced(items, k, offset32) <==> LayoutFits(items, k, offset32) && RefFits(items, k)
  {
    hide Position, LastDef;
  }

  /** The assertions of both passes hold exactly when every item is well placed. */
  lemma LegalMeans(cs: seq<Command>, st: State)
    requires Shows(cs, st)
    ensures LabelsBelow(Tokens(st), st.numLabels)
    ensures LayoutLegal(Tokens(st), st.offset32) && RefsLegal(Tokens(st), FinalLabels(st))
      <==> forall k :: 0 <= k < |Items(cs)| ==> WellPlaced(Items(cs), k, Offset32 in cs)
  {
    TokensMatch(cs, st);
    var ts, items, labels := Tokens(st), Items(cs), FinalLabels(st);
    hide Tokens, Items, FinalLabels, WellAligned, RefLegal, LayoutFits, RefFits, WellPlaced, CursorAt, LabelPos, Indexed;
    forall k: nat | k < |ts|
      ensures WellAligned(ts[k], CursorAt(ts, k), st.offset32) <==> LayoutFits(items, k, st.offset32)
      ensures ts[k].Ref? <==> items[k].RefLabel?
      ensures ts[k].Ref? ==> (RefLegal(labels[ts[k].l], CursorAt(ts, k)) <==> RefFits(items, k))
      ensures WellPlaced(items, k, st.offset32) <==> LayoutFits(items, k, st.offset32) && RefFits(items, k)
    {
      LayoutMeans(ts, items, st.labelIndex, st.offset32, k);
      RefMeans(ts, items, st, k);
      PlacedIs(items, k, st.offset32);
    }
  }

  // ----- What the bytes say -----

  lemma UnsignedOfTwo(b: seq<Byte>, bigEndian: bool)
    requires |b| == 2
    ensures Unsigned(b, bigEndian) == if bigEndian then 256 * b[0] as int + b[1] as int else b[0] as int + 256 * b[1] as int
  {
    OneByte(b[..1], bigEndian);
    OneByte(b[1..], bigEndian);
  }

  lemma UnsignedOfFour(b: seq<Byte>, bigEndian: bool)
    requires |b| == 4
    ensures var b0: int, b1: int, b2: int, b3: int := b[0], b[1], b[2], b[3];
      Unsigned(b, bigEndian) == if bigEndian then b0 * 0x100_0000 + b1 * 0x1_0000 + b2 * 0x100 + b3
                                else b3 * 0x100_0000 + b2 * 0x1_0000 + b1 * 0x100 + b0
  {
    if bigEndian {
      UnsignedOfTwo(b[..2], true);
      assert b[..3][..2] == b[..2] && b[..4] == b;
      assert Unsigned(b[..3], true) == 256 * Unsigned(b[..2], true) + b[2];
    } else {
      UnsignedOfTwo(b[2..], false);
      assert b[1..][1..] == b[2..];
      assert Unsigned(b[1..], false) == b[1] + 256 * Unsigned(b[2..], false);
    }
  }

  lemma TwoBytes(v: int)
    ensures ByteOf(v, 1) * 0x100 + ByteOf(v, 0) == v % 0x1_0000
  {
    assert v / 0x100 / 0x100 == v / 0x1_0000;
  }

  /** The bytes written for a value denote it again, modulo 2^8, 2^16 or 2^32. */
  lemma BytesBack(v: int, n: nat, bigEndian: bool)
    requires 0 <= v < 0x1_0000_0000 && (n == 1 || n == 2 || n == 4)
    ensures Unsigned(Bytes(v, n, bigEndian), bigEndian) == if n == 1 then v % 0x100 else if n == 2 then v % 0x1_0000 else v
  {
    hide ByteOf, Unsigned, Bytes;
    if n == 1 {
      OneBack(v, bigEndian);
    } else if n == 2 {
      TwoBack(v, bigEndian);
    } else {
      FourBack(v, bigEndian);
    }
  }

  lemma OneBack(v: int, bigEndian: bool)
    ensures Unsigned(Bytes(v, 1, bigEndian), bigEndian) == v % 0x100
  {
    hide Unsigned;
    OneByte(Bytes(v, 1, bigEndian), bigEndian);
  }

  lemma TwoBack(v: int, bigEndian: bool)
    ensures Unsigned(Bytes(v, 2, bigEndian), bigEndian) == v % 0x1_0000
  {
    hide Unsigned, ByteOf;
    UnsignedOfTwo(Bytes(v, 2, bigEndian), bigEndian);
    TwoBytes(v);
  }

  lemma FourBack(v: int, bigEndian: bool)
    requires 0 <= v < 0x1_0000_0000
    ensures Unsigned(Bytes(v, 4, bigEndian), bigEndian) == v
  {
    hide Unsigned, ByteOf;
    UnsignedOfFour(Bytes(v, 4, bigEndian), bigEndian);
    FourBytes(v);
  }

  lemma Wrapped(v: int)
    ensures v % 0x1_0000_0000 % 0x100 == v % 0x100 && v % 0x1_0000_0000 % 0x1_0000 == v % 0x1_0000
  {
    var q, r := v / 0x1_0000_0000, v % 0x1_0000_0000;
    assert v == r + 0x100 * (q * 0x100_0000) && v == r + 0x1_0000 * (q * 0x1_0000);
    Multiple8(r, q * 0x100_0000);
    Multiple16(r, q * 0x1_0000);
  }

  lemma Multiple8(r: int, k: int)
    ensures (r + 0x100 * k) % 0x100 == r % 0x100
  {
    var d, m := r / 0x100, r % 0x100;
    assert r + 0x100 * k == 0x100 * (d + k) + m;
  }

  lemma Multiple16(r: int, k: int)
    ensures (r + 0x1_0000 * k) % 0x1_0000 == r % 0x1_0000
  {
    var d, m := r / 0x1_0000, r % 0x1_0000;
    assert r + 0x1_0000 * k == 0x1_0000 * (d + k) + m;
  }

  /** A number's bytes. */
  lemma NumberPiece(ts: seq<Token>, k: nat, labels: seq<int>, bigEndian: bool)
    requires k < |ts| && LabelsBelow(ts, |labels|) && (ts[k].U8? || ts[k].U16? || ts[k].U32?)
    ensures var b := Piece(ts, k, labels, bigEndian); Unsigned(b, bigEndian) == ts[k].v % match ts[k]
      case U8(_) => 0x100
      case U16(_) => 0x1_0000
      case U32(_) => 0x1_0000_0000
      case _ => 1
  {
    hide Bytes, Unsigned, CursorAt;
    var v := ts[k].v;
    Wrapped(v);
    BytesBack(v % 0x1_0000_0000, Width(ts[k], CursorAt(ts, k)), bigEndian);
  }

  function Distance(target: int, p: int): int { (target - p) / 4 % 0x1_0000_0000 }

  lemma RefBytes(ts: seq<Token>, k: nat, labels: seq<int>, bigEndian: bool)
    requires k < |ts| && LabelsBelow(ts, |labels|) && ts[k].Ref?
    ensures Unsigned(Piece(ts, k, labels, bigEndian), bigEndian) == Distance(labels[ts[k].l], CursorAt(ts, k))
  {
    hide Bytes, Unsigned, CursorAt;
    BytesBack((labels[ts[k].l] - CursorAt(ts, k)) / 4 % 0x1_0000_0000, 4, bigEndian);
  }

  lemma PadPiece(ts: seq<Token>, k: nat, labels: seq<int>, bigEndian: bool)
    requires k < |ts| && LabelsBelow(ts, |labels|) && ts[k].Align?
    ensures forall j :: 0 <= j < |Piece(ts, k, labels, bigEndian)| ==> Piece(ts, k, labels, bigEndian)[j] == 0
  {
    hide CursorAt;
  }

  lemma PieceAt(ts: seq<Token>, items: seq<Command>, names: map<Name, nat>, labels: seq<int>, bigEndian: bool, k: nat)
    requires Matches(ts, items, names) && LabelsBelow(ts, |labels|) && k < |ts|
    ensures CursorAt(ts, k) == Position(items, k)
    ensures var blob, p, q := Emitted(ts, |ts|, labels, bigEndian), Position(items, k), Position(items, k + 1);
      p <= q <= |blob| && blob[p..q] == Piece(ts, k, labels, bigEndian)
  {
    hide Emitted, Position, CursorAt, Piece, LabelsBelow;
    CursorIsPosition(ts, items, names, k);
    CursorIsPosition(ts, items, names, k + 1);
    EmittedAt(ts, |ts|, labels, bigEndian, k);
  }

  /** The table entry that a reference uses is the position of the last definition. */
  lemma TargetOf(ts: seq<Token>, items: seq<Command>, st: State, labels: seq<int>, k: nat) returns (d: nat)
    requires Matches(ts, items, st.labelIndex) && Indexed(st) && |labels| == st.numLabels && LabelsBelow(ts, |labels|) && k < |ts|
    requires LabelsAt(labels, ts, |ts|) && RefsLegal(ts, labels) && items[k].RefLabel?
    ensures ts[k].Ref? && LastDef(items, items[k].name, d) && labels[ts[k].l] == Position(items, d)
  {
    var n := items[k].name;
    RefStands(ts, items, st.labelIndex, k);
    RefEntry(ts, labels, k);
    hide LabelsAt, RefsLegal, LabelsBelow;
    LabelIsLast(ts, items, st, n);
    hide Matches, Indexed, Position, CursorAt, LabelPos, LastDef;
    d :| LastDef(items, n, d);
  }

  lemma RefStands(ts: seq<Token>, items: seq<Command>, names: map<Name, nat>, k: nat)
    requires Matches(ts, items, names) && k < |ts| && items[k].RefLabel?
    ensures items[k].name in names && ts[k] == Ref(names[items[k].name])
  {
    assert Stands(ts[k], items[k], names);
  }

  lemma RefEntry(ts: seq<Token>, labels: seq<int>, k: nat)
    requires LabelsBelow(ts, |labels|) && LabelsAt(labels, ts, |ts|) && RefsLegal(ts, labels) && k < |ts| && ts[k].Ref?
    ensures labels[ts[k].l] == LabelPos(ts, |ts|, ts[k].l) != -1
  {
    hide LabelPos, CursorAt;
    assert RefLegal(labels[ts[k].l], CursorAt(ts, k));
  }

  /** The bytes of a token hold what the item says. */
  ghost predicate PieceSays(piece: seq<Byte>, items: seq<Command>, k: nat, bigEndian: bool)
    requires k < |items|
  {
    match items[k]
    case Num8(v) => Unsigned(piece, bigEndian) == v % 0x100
    case Num16(v) => Unsigned(piece, bigEndian) == v % 0x1_0000
    case Num32(v) => Unsigned(piece, bigEndian) == v % 0x1_0000_0000
    case RefLabel(n) => exists d ::
      LastDef(items, n, d) && Unsigned(piece, bigEndian) == Distance(Position(items, d), Position(items, k))
    case AlignHere => forall j :: 0 <= j < |piece| ==> piece[j] == 0
    case _ => true
  }

  lemma SaysHolds(items: seq<Command>, k: nat, blob: seq<Byte>, bigEndian: bool)
    requires k < |items| && Position(items, k) <= Position(items, k + 1) <= |blob|
    requires PieceSays(blob[Position(items, k)..Position(items, k + 1)], items, k, bigEndian)
    ensures Holds(items, k, blob, bigEndian)
  {
    hide Position, LastDef, Unsigned;
    var p, q := Position(items, k), Position(items, k + 1);
    if items[k].AlignHere? {
      assert forall j :: p <= j < q ==> blob[j] == blob[p..q][j - p];
    }
  }

  lemma RefSays(ts: seq<Token>, items: seq<Command>, st: State, labels: seq<int>, bigEndian: bool, k: nat)
    requires Matches(ts, items, st.labelIndex) && Indexed(st) && |labels| == st.numLabels && LabelsBelow(ts, |labels|) && k < |ts|
    requires LabelsAt(labels, ts, |ts|) && RefsLegal(ts, labels) && CursorAt(ts, k) == Position(items, k) && items[k].RefLabel?
    ensures PieceSays(Piece(ts, k, labels, bigEndian), items, k, bigEndian)
  {
    assert |ts| == |items|;
    hide Matches, Indexed, Position, CursorAt, Piece, Unsigned, LastDef, LabelsAt, RefsLegal, LabelPos, PieceSays, Distance;
    var d := TargetOf(ts, items, st, labels, k);
    RefBytes(ts, k, labels, bigEndian);
    DistanceSays(Piece(ts, k, labels, bigEndian), items, k, d, bigEndian);
  }

  lemma DistanceSays(piece: seq<Byte>, items: seq<Command>, k: nat, d: nat, bigEndian: bool)
    requires k < |items| && items[k].RefLabel? && LastDef(items, items[k].name, d)
    requires Unsigned(piece, bigEndian) == Distance(Position(items, d), Position(items, k))
    ensures PieceSays(piece, items, k, bigEndian)
  {
    hide Position, Unsigned, LastDef, Distance;
  }

  lemma ValueSays(ts: seq<Token>, items: seq<Command>, names: map<Name, nat>, labels: seq<int>, bigEndian: bool, k: nat)
    requires Matches(ts, items, names) && LabelsBelow(ts, |labels|) && k < |ts| && !items[k].RefLabel?
    ensures PieceSays(Piece(ts, k, labels, bigEndian), items, k, bigEndian)
  {
    assert Stands(ts[k], items[k], names) && |ts| == |items|;
    hide Matches, Piece, Unsigned, LabelsBelow, LastDef, Position;
    if ts[k].U8? || ts[k].U16? || ts[k].U32? { NumberPiece(ts, k, labels, bigEndian); }
    if ts[k].Align? { PadPiece(ts, k, labels, bigEndian); }
  }

  /** Item k of the program is held by the bytes of token k. */
  lemma PieceHolds(ts: seq<Token>, items: seq<Command>, st: State, labels: seq<int>, bigEndian: bool, k: nat)
    requires Matches(ts, items, st.labelIndex) && Indexed(st) && |labels| == st.numLabels && LabelsBelow(ts, |labels|) && k < |ts|
    requires LabelsAt(labels, ts, |ts|) && RefsLegal(ts, labels)
    ensures Holds(items, k, Emitted(ts, |ts|, labels, bigEndian), bigEndian)
  {
    assert |ts| == |items|;
    hide Matches, Indexed, Emitted, Position, CursorAt, Piece, LabelsAt, RefsLegal, LabelsBelow, PieceSays, Holds;
    PieceAt(ts, items, st.labelIndex, labels, bigEndian, k);
    if items[k].RefLabel? {
      RefSays(ts, items, st, labels, bigEndian, k);
    } else {
      ValueSays(ts, items, st.labelIndex, labels, bigEndian, k);
    }
    SaysHolds(items, k, Emitted(ts, |ts|, labels, bigEndian), bigEndian);
  }

  /** What both passes write is what the program says. */
  lemma BlobMeans(cs: seq<Command>, st: State, bigEndian: bool)
    requires Shows(cs, st) && LabelsBelow(Tokens(st), st.numLabels) && RefsLegal(Tokens(st), FinalLabels(st))
    ensures Means(cs, Emitted(Tokens(st), |Tokens(st)|, FinalLabels(st), bigEndian), bigEndian)
  {
    TokensMatch(cs, st);
    var ts, items, labels := Tokens(st), Items(cs), FinalLabels(st);
    hide Tokens, Items, FinalLabels, Holds, Emitted;
    CursorIsPosition(ts, items, st.labelIndex, |ts|);
    hide Position, CursorAt;
    forall k: nat | k < |items| ensures Holds(items, k, Emitted(ts, |ts|, labels, bigEndian), bigEndian) {
      PieceHolds(ts, items, st, labels, bigEndian, k);
    }
  }

  // ----- The reading loop and the whole assembler -----

  /** The global tables of the program. */
  class Reader {
    var streams: seq<Stream>
    var streamIndex: map<Name, nat>
    var streamStack: seq<nat>
    var labelIndex: map<Name, nat>
    var numLabels: nat
    var stringStream: Stream
    var offset32: bool
    var preText: seq<Name>
    var postText: seq<Name>

    constructor ()
      ensures View() == START
    {
      streams, streamIndex, streamStack := [], map[], [];
      labelIndex, numLabels, stringStream, offset32 := map[], 0, [], false;
      preText, postText := [], [];
    }

    function View(): State
      reads this
    {
      State(streams, streamIndex, streamStack, labelIndex, numLabels, stringStream, offset32, preText, postText)
    }

    method InternLabel(n: Name) returns (l: nat)
      modifies this
      ensures View() == Intern(old(View()), n) && n in labelIndex && l == labelIndex[n]
    {
      if n !in labelIndex {
        labelIndex := labelIndex[n := numLabels];
        numLabels := numLabels + 1;
      }
      l := labelIndex[n];
    }

    method PushToken(t: Token) returns (ok: bool)
      modifies this
      ensures ok <==> Append(old(View()), t) != None
      ensures View() == if ok then Append(old(View()), t).value else old(View())
    {
      if streamStack == [] || streamStack[|streamStack| - 1] >= |streams| { return false; }
      var top := streamStack[|streamStack| - 1];
      streams := streams[top := streams[top] + [t]];
      return true;
    }

    /** A string goes to the string stream letter by letter, with its end mark. */
    method StoreString(l: nat, s: Name)
      modifies this
      ensures View() == old(View()).(strings := old(stringStream) + StringTokens(l, s))
    {
      stringStream := stringStream + [Align];
      stringStream := stringStream + [Label(l)];
      ghost var before := stringStream;
      var i := 0;
      while i < |s|
        invariant i <= |s|
        invariant View() == old(View()).(strings := stringStream)
        invariant stringStream + Letters(s[i..]) == before + Letters(s)
      {
        assert [U8(s[i])] + Letters(s[i + 1..]) == Letters(s[i..]);
        stringStream := stringStream + [U8(s[i])];
        i := i + 1;
      }
      stringStream := stringStream + [U8(0)];
      assert s[i..] == [];
    }

    method PushStream(n: Name)
      modifies this
      ensures View() == Step(old(View()), Push(n)).value
    {
      if n !in streamIndex {
        streamIndex := streamIndex[n := |streams|];
        streams := streams + [[]];
      }
      streamStack := streamStack + [streamIndex[n]];
    }

    /** A reference to the string, and the string itself behind the others. */
    method ReferString(s: Name) returns (ok: bool)
      modifies this
      ensures ok <==> Step(old(View()), Str(s)) != None
      ensures ok ==> View() == Step(old(View()), Str(s)).value
    {
      hide Intern, Append, StringTokens;
      var l := InternLabel(STR + s);
      ok := PushToken(Ref(l));
      if ok { StoreString(l, s); }
    }

    method PushLabel(n: Name, define: bool) returns (ok: bool)
      modifies this
      ensures var c := if define then DefLabel(n) else RefLabel(n); var next := Step(old(View()), c);
        (ok <==> next != None) && (ok ==> View() == next.value)
    {
      hide Intern, Append;
      var l := InternLabel(n);
      ok := PushToken(if define then Label(l) else Ref(l));
    }

    method Execute(c: Command) returns (ok: bool)
      modifies this
      ensures ok <==> Step(old(View()), c) != None
      ensures ok ==> View() == Step(old(View()), c).value
    {
      hide Intern, Append, StringTokens;
      ok := true;
      match c {
        case Offset32 => offset32 := true;
        case Pre(line) => preText := preText + [line];
        case Post(line) => postText := postText + [line];
        case Push(n) => PushStream(n);
        case Pop =>
          if streamStack == [] { return false; }
          streamStack := streamStack[..|streamStack| - 1];
        case DefLabel(n) => ok := PushLabel(n, true);
        case RefLabel(n) => ok := PushLabel(n, false);
        case Num8(v) => ok := PushToken(U8(v));
        case Num16(v) => ok := PushToken(U16(v));
        case Num32(v) => ok := PushToken(U32(v));
        case AlignHere => ok := PushToken(Align);
        case Str(s) => ok := ReferString(s);
      }
    }
  }

  method ReadAll(cs: seq<Command>) returns (r: Reader, ok: bool)
    ensures fresh(r) && (ok <==> Run(cs) != None) && (ok ==> r.View() == Run(cs).value)
  {
    r := new Reader();
    assert cs[..0] == [];
    hide Step;
    for i := 0 to |cs|
      invariant fresh(r) && Run(cs[..i]) == Some(r.View())
    {
      assert cs[..i + 1][..i] == cs[..i];
      ok := r.Execute(cs[i]);
      if !ok {
        RunStops(cs, i + 1);
        return;
      }
    }
    assert cs[..|cs|] == cs;
    ok := true;
  }

  lemma {:induction false} RunStops(cs: seq<Command>, k: nat)
    requires k <= |cs| && Run(cs[..k]) == None
    ensures Run(cs) == None
  {
    if k < |cs| {
      assert cs[..|cs| - 1][..k] == cs[..k];
      RunStops(cs[..|cs| - 1], k);
    } else {
      assert cs[..k] == cs;
    }
  }

  /** Reading, both passes, and the assertions between them. */
  method Assemble(cs: seq<Command>, bigEndian: bool) returns (ok: bool, blob: seq<Byte>)
    ensures ok <==> Accepts(cs)
    ensures ok ==> Means(cs, blob, bigEndian)
  {
    var r, read := ReadAll(cs);
    RunShows(cs);
    if !read { return false, []; }
    ghost var st := r.View();
    StartsAndEnds(cs, st);
    if r.streams == [] || r.streamStack != [] { return false, []; }
    LegalMeans(cs, st);
    ok, blob := TwoPasses(st, r.streams + [r.stringStream], r.numLabels, r.offset32, bigEndian);
    if ok { BlobMeans(cs, st, bigEndian); }
  }

  lemma StartsAndEnds(cs: seq<Command>, st: State)
    requires Shows(cs, st)
    ensures st.streams == [] <==> StreamNames(cs) == []
    ensures st.stack == [] <==> Stacked(cs) == []
  {
  }

  method TwoPasses(ghost st: State, streams: seq<Stream>, numLabels: nat, offset32: bool, bigEndian: bool) returns (ok: bool, blob: seq<Byte>)
    requires streams == Program(st) && numLabels == st.numLabels && offset32 == st.offset32
    requires LabelsBelow(Tokens(st), st.numLabels)
    ensures ok <==> LayoutLegal(Tokens(st), st.offset32) && RefsLegal(Tokens(st), FinalLabels(st))
    ensures ok ==> blob == Emitted(Tokens(st), |Tokens(st)|, FinalLabels(st), bigEndian)
  {
    hide LayoutLegal, RefsLegal, Emitted, LabelPos, CursorAt;
    var labels := new int[numLabels](_ => -1);
    blob := [];
    var total;
    ok, total := LabelPass(streams, offset32, labels);
    if !ok { return; }
    assert labels[..] == FinalLabels(st);
    var data;
    ok, data := EmitPass(streams, labels, bigEndian, total);
    if ok { blob := data[..]; }
  }
}
