/** The scanner on pages: block collections are read as the tokens that they should be read as. */
module BlockPages {
  import opened Wrappers
  import opened ScannerMoves
  import opened Layout
  import opened FlatPages

  // The levels that end.

  lemma {:induction false} UnrolledFrame(v: View, column: int)
    ensures var w := Unrolled(v, column);
            && w.limit == v.limit && w.started == v.started && w.flowLevel == v.flowLevel && w.keys == v.keys
            && w.allowed == v.allowed && w.mark == v.mark
    decreases |v.indents|
  {
    if !(v.flowLevel > 0 || v.indent <= column || v.indents == []) {
      UnrolledFrame(Made(v, BlockEnd).(indents := v.indents[..|v.indents| - 1], indent := v.indents[|v.indents| - 1]),
                    column);
    }
  }

  lemma {:induction false} UnrolledTwice(v: View, c: int, d: int)
    requires d <= c
    ensures Unrolled(Unrolled(v, c), d) == Unrolled(v, d)
    decreases |v.indents|
  {
    if !(v.flowLevel > 0 || v.indent <= c || v.indents == []) {
      UnrolledTwice(Made(v, BlockEnd).(indents := v.indents[..|v.indents| - 1], indent := v.indents[|v.indents| - 1]),
                    c, d);
    }
  }

  /** Which levels end depends on nothing but the columns. */
  lemma {:induction false} UnrolledWith(v: View, column: int, keys: seq<SimpleKey>, allowed: bool, mark: Mark)
    ensures Unrolled(v.(keys := keys, allowed := allowed, mark := mark), column) ==
            Unrolled(v, column).(keys := keys, allowed := allowed, mark := mark)
    decreases |v.indents|
  {
    if !(v.flowLevel > 0 || v.indent <= column || v.indents == []) {
      UnrolledWith(Made(v, BlockEnd).(indents := v.indents[..|v.indents| - 1], indent := v.indents[|v.indents| - 1]),
                   column, keys, allowed, mark);
    }
  }

  /** It makes no difference to what is read next whether the levels that end before it are ended already. */
  lemma {:induction false} FetchedUnrolled(v: View, input: Input)
    ensures Fetched(Unrolled(v, input.start.column), input) == Fetched(v, input)
  {
    hide LexemeRead, Unrolled, Staled, Overdue;
    var c := input.start.column;
    var w := Unrolled(v, c);
    UnrolledFrame(v, c);
    UnrolledTwice(v, c, c);
    var keys, allowed := Staled(v.keys, input.start), v.allowed || (input.newLine && v.flowLevel == 0);
    UnrolledWith(v, c, keys, allowed, input.start);
    UnrolledWith(w, c, keys, allowed, input.start);
  }

  lemma {:induction false} ScannedUnrolled(v: View, inputs: seq<Input>)
    requires inputs != []
    ensures Scanned(Unrolled(v, inputs[0].start.column), inputs) == Scanned(v, inputs)
  {
    hide Fetched, Unrolled;
    FetchedUnrolled(v, inputs[0]);
  }

  // States of the scanner between lexemes.

  /** Outside of flow collections, with no key that has to be one, and none from after the line. */
  predicate Calm(v: View, line: nat) {
    && v.flowLevel == 0 && |v.keys| == 1
    && (v.keys[0].possible ==> !v.keys[0].required && v.keys[0].mark.line <= line)
  }

  /** At the same levels, tokens further. */
  predicate Flush(v: View, w: View, kinds: seq<Kind>) {
    && w.limit == v.limit && w.started == v.started && w.flowLevel == v.flowLevel && w.indents == v.indents
    && w.indent == v.indent && w.made == v.made + kinds
  }

  /** So it will be, once the deeper levels are ended. */
  predicate Pending(b: View, w: View, kinds: seq<Kind>) {
    Flush(b, Unrolled(w, b.indent), kinds)
  }

  predicate LinesUpTo(inputs: seq<Input>, line: nat) {
    forall k :: 0 <= k < |inputs| ==> inputs[k].start.line <= line
  }

  lemma {:induction false} FlushPends(v: View, w: View, kinds: seq<Kind>)
    requires Flush(v, w, kinds)
    ensures Pending(v, w, kinds)
  {
  }

  lemma {:induction false} FlushThen(v: View, w: View, u: View, a: seq<Kind>, b: seq<Kind>)
    requires Flush(v, w, a) && Flush(w, u, b)
    ensures Flush(v, u, a + b)
  {
    assert v.made + a + b == v.made + (a + b);
  }

  lemma {:induction false} FlushPending(v: View, w: View, u: View, a: seq<Kind>, b: seq<Kind>)
    requires Flush(v, w, a) && Pending(w, u, b)
    ensures Pending(v, u, a + b)
  {
    hide Unrolled;
    FlushThen(v, w, Unrolled(u, w.indent), a, b);
  }

  lemma {:induction false} CalmUnrolled(v: View, column: int, line: nat)
    requires Calm(v, line)
    ensures Calm(Unrolled(v, column), line)
  {
    UnrolledFrame(v, column);
  }

  /** Where a block collection may start at the column: one level deeper, unless it is there already. */
  function Base(v: View, column: int, level: Kind): View {
    if v.indent >= column then v
    else v.(indents := v.indents + [v.indent], indent := column, made := v.made + [level])
  }

  /** The level that was begun ends. */
  lemma {:induction false} LevelEnds(v: View, w: View, column: int, level: Kind, kinds: seq<Kind>)
    requires v.flowLevel == 0 && v.indent < column && Pending(Base(v, column, level), w, kinds)
    ensures Pending(v, w, [level] + kinds + [BlockEnd])
  {
    UnrolledTwice(w, column, v.indent);
    var u := Unrolled(w, column);
    var x := Made(u, BlockEnd).(indents := u.indents[..|u.indents| - 1], indent := u.indents[|u.indents| - 1]);
    assert u.indents[..|u.indents| - 1] == v.indents;
    assert Unrolled(u, v.indent) == Unrolled(x, v.indent) == x;
    assert v.made + [level] + kinds + [BlockEnd] == v.made + ([level] + kinds + [BlockEnd]);
  }

  // Words and flow collections.

  lemma {:induction false} CalmQuiet(v: View, line: nat, first: Mark, allow: bool, last: Mark)
    requires Calm(v, line) && first.column > v.indent
    ensures Quiet(v, first, allow, last)
  {
  }

  lemma {:induction false} CalmUnit(v: View, w: View, line: nat, first: Mark, allow: bool, kinds: seq<Kind>, last: Mark)
    requires Calm(v, line) && Unit(v, w, first, allow, kinds, last) && first.column > v.indent && first.line <= line
    ensures Calm(w, line) && Flush(v, w, kinds)
  {
  }

  lemma {:induction false} CalmWord(v: View, input: Input, line: nat)
    requires Calm(v, line) && IsWord(input) && input.start.column > v.indent && input.start.line <= line
    ensures Fetched(v, input).Some?
    ensures Calm(Fetched(v, input).value, line) && Flush(v, Fetched(v, input).value, [Content])
    ensures input.lexeme == Node ==> !Fetched(v, input).value.allowed
  {
    hide Fetched, Unit, Quiet, Calm;
    CalmQuiet(v, line, input.start, Allows(v, input), input.start);
    WordUnit(v, input);
    CalmUnit(v, Fetched(v, input).value, line, input.start, Allows(v, input), [Content], input.start);
  }

  lemma {:induction false} CalmRemoved(v: View, line: nat)
    requires Calm(v, line)
    ensures KeyRemoved(v) == Some(v.(keys := Impossible(v.keys)))
    ensures |Impossible(v.keys)| == 1 && !Impossible(v.keys)[0].possible
  {
  }

  lemma {:induction false} CalmSettled(v: View, input: Input, line: nat)
    requires Calm(v, line) && v.indent <= input.start.column
    ensures Settled(v, input) ==
            Some(v.(mark := input.start, allowed := Allows(v, input), keys := Staled(v.keys, input.start)))
    ensures Calm(Settled(v, input).value, line)
    ensures TopPossible(Settled(v, input).value) ==> TopPossible(v) && v.keys[0].mark.line >= input.start.line
  {
    SettledLevel(v, input);
  }

  lemma {:induction false} BlockScalarRead(v: View, input: Input, line: nat)
    requires Calm(v, line) && input.lexeme.BlockScalar? && input.start.column > v.indent
    ensures Fetched(v, input).Some?
    ensures Calm(Fetched(v, input).value, line) && Flush(v, Fetched(v, input).value, [Content])
  {
    hide Settled, KeyRemoved, Impossible, Staled;
    CalmSettled(v, input, line);
    CalmRemoved(Settled(v, input).value, line);
  }

  lemma {:induction false} CalmProps(v: View, props: seq<Input>, line: nat)
    requires Calm(v, line) && PropsFit(props) && Deeper(props, v.indent) && LinesUpTo(props, line)
    ensures Scanned(v, props).Some?
    ensures var w := Scanned(v, props).value;
            && Calm(w, line) && Flush(v, w, Contents(|props|)) && (if props == [] then w == v else !w.allowed)
    decreases |props|
  {
    hide Fetched, Calm;
    if props == [] {
      assert v.made + [] == v.made;
    } else {
      CalmWord(v, props[0], line);
      var w := Fetched(v, props[0]).value;
      CalmProps(w, props[1..], line);
      FlushThen(v, w, Scanned(w, props[1..]).value, [Content], Contents(|props| - 1));
    }
  }

  /** A word or a flow collection that is not a key, without its anchor and tag. */
  lemma {:induction false} CalmMain(v: View, p: Page, line: nat)
    requires IsFlat(p) && InBlock(p, v.indent, false, false) && Calm(v, line) && Ordered(MainInputs(p))
    requires LinesUpTo(MainInputs(p), line) && Room(v, Height(p))
    ensures Scanned(v, MainInputs(p)).Some?
    ensures Calm(Scanned(v, MainInputs(p)).value, line) && Flush(v, Scanned(v, MainInputs(p)).value, MainKinds(p))
  {
    hide Fetched, Calm, Quiet, Unit, FlowFits, Height, FlowInputs, FlowKinds;
    if p.Leaf? && p.at.None? {
      ScannedNothing(v);
      assert v.made + [] == v.made;
    } else {
      MainDeeper(p, v.indent);
      if p.Leaf? {
        var word := p.at.value;
        assert MainInputs(p) == [word] && [word][1..] == [] && [word][0] == word;
        if word.lexeme.BlockScalar? {
          BlockScalarRead(v, word, line);
        } else {
          CalmWord(v, word, line);
        }
      } else {
        CalmFlow(v, p, line);
      }
    }
  }

  lemma {:induction false} MainDeeper(p: Page, indent: int)
    requires IsFlat(p) && Deeper(Outermost(p), indent) && (p.Flow? || p.at.Some?)
    ensures MainFirst(p).start.column > indent && Deeper(p.props, indent)
  {
    var all := Outermost(p);
    assert all[|p.props|] == MainFirst(p);
    forall k | 0 <= k < |p.props|
      ensures p.props[k].start.column > indent
    {
      assert all[k] == p.props[k];
    }
  }

  lemma {:induction false} CalmFlow(v: View, p: Page, line: nat)
    requires p.Flow? && FlowFits(p.mapping, p.start, p.parts, p.commas, p.close) && Calm(v, line)
    requires p.start.start.column > v.indent && Ordered(MainInputs(p))
    requires LinesUpTo(MainInputs(p), line) && Room(v, Height(p))
    ensures Scanned(v, MainInputs(p)).Some?
    ensures Calm(Scanned(v, MainInputs(p)).value, line) && Flush(v, Scanned(v, MainInputs(p)).value, MainKinds(p))
  {
    hide Fetched, Scanned, Calm, Quiet, Unit, FlowFits, PartsInputs, PartsKinds, HeightOfParts;
    var start, close := p.start.start, p.close.start;
    CalmQuiet(v, line, start, Allows(v, p.start), close);
    assert Stays(v, p.start);
    FlowUnit(v, p.mapping, p.start, p.parts, p.commas, p.close);
    assert MainInputs(p)[0] == p.start;
    CalmUnit(v, Scanned(v, MainInputs(p)).value, line, start, Allows(v, p.start), MainKinds(p), close);
  }

  /** A node without block collections that is not a key. */
  lemma {:induction false} CalmFlat(v: View, p: Page, line: nat)
    requires IsFlat(p) && InBlock(p, v.indent, false, false) && Calm(v, line) && Ordered(PageInputs(p))
    requires LinesUpTo(PageInputs(p), line) && Room(v, Height(p))
    ensures Scanned(v, PageInputs(p)).Some?
    ensures Calm(Scanned(v, PageInputs(p)).value, line) && Pending(v, Scanned(v, PageInputs(p)).value, PageKinds(p))
  {
    hide Calm, Scanned, PageInputs, PageKinds, MainInputs, MainKinds, Ordered, Contents, Height, Unrolled;
    FlatInputs(p);
    var main := MainInputs(p);
    OrderedParts(p.props, main);
    LinesParts(p.props, main, line);
    FlatProps(p, v.indent);
    CalmProps(v, p.props, line);
    var w := Scanned(v, p.props).value;
    ScannedJoined(v, p.props, main);
    CalmMain(w, p, line);
    var u := Scanned(w, main).value;
    FlushThen(v, w, u, Contents(|p.props|), MainKinds(p));
    FlushPends(v, u, PageKinds(p));
  }

  lemma {:induction false} FlatProps(p: Page, indent: int)
    requires IsFlat(p) && InBlock(p, indent, false, false)
    ensures PropsFit(p.props) && Deeper(p.props, indent)
  {
    var all := Outermost(p);
    forall k | 0 <= k < |p.props|
      ensures p.props[k].start.column > indent
    {
      assert all[k] == p.props[k];
    }
  }

  lemma {:induction false} LinesParts(a: seq<Input>, b: seq<Input>, line: nat)
    requires LinesUpTo(a + b, line)
    ensures LinesUpTo(a, line) && LinesUpTo(b, line)
  {
    var all := a + b;
    forall k | 0 <= k < |a|
      ensures a[k].start.line <= line
    {
      assert all[k] == a[k];
    }
    forall k | 0 <= k < |b|
      ensures b[k].start.line <= line
    {
      assert all[|a| + k] == b[k];
    }
  }

  // The lexemes that make block collections.

  predicate Starts(input: Input, token: Kind, level: Kind) {
    || (input.lexeme == Dash && token == BlockEntry && level == BlockSequenceStart)
    || (input.lexeme == Question && token == Key && level == BlockMappingStart)
  }

  /** A dash or a question mark, where no level ends before it. */
  lemma {:induction false} EntryRead(v: View, input: Input, token: Kind, level: Kind, line: nat)
    requires Calm(v, line) && Starts(input, token, level) && Allows(v, input) && v.indent <= input.start.column
    requires v.indent < input.start.column ==> Room(v, 1)
    ensures Fetched(v, input).Some?
    ensures var w := Fetched(v, input).value;
            && Flush(Base(v, input.start.column, level), w, [token]) && w.allowed && Quieted(w)
  {
    hide Settled, KeyRemoved, Impossible, Staled;
    CalmSettled(v, input, line);
    var u := Settled(v, input).value;
    var b := Base(u, input.start.column, level);
    assert u.made + [level] == u.made[..|u.made|] + [level] + u.made[|u.made|..];
    assert BlockOpened(u, level) == Some(b);
    CalmRemoved(b, line);
  }

  /** No key is possible. */
  predicate Quieted(v: View) {
    v.flowLevel == 0 && |v.keys| == 1 && !v.keys[0].possible
  }

  lemma {:induction false} QuietedCalm(v: View, line: nat)
    requires Quieted(v)
    ensures Calm(v, line)
  {
  }

  /** The same, where deeper levels end before it. */
  lemma {:induction false} NextEntryRead(b: View, y: View, kinds: seq<Kind>, input: Input, token: Kind, level: Kind,
                                         line: nat)
    requires Calm(y, line) && Pending(b, y, kinds) && Starts(input, token, level) && input.newLine
    requires b.indent == input.start.column
    ensures Fetched(y, input).Some?
    ensures var w := Fetched(y, input).value; Flush(b, w, kinds + [token]) && w.allowed && Quieted(w)
  {
    hide Fetched, Unrolled, Calm, Quieted;
    var u := Unrolled(y, b.indent);
    FetchedUnrolled(y, input);
    CalmUnrolled(y, b.indent, line);
    assert Allows(u, input) by { CalmLevel(u, line); }
    EntryRead(u, input, token, level, line);
    FlushThen(b, u, Fetched(y, input).value, kinds, [token]);
  }

  lemma {:induction false} CalmLevel(v: View, line: nat)
    requires Calm(v, line)
    ensures v.flowLevel == 0
  {
  }

  /** The colon of a key and a value that stand below each other. */
  lemma {:induction false} NextColonRead(b: View, y: View, kinds: seq<Kind>, input: Input, line: nat)
    requires Calm(y, line) && Pending(b, y, kinds) && input.lexeme == Colon && input.newLine
    requires b.indent == input.start.column && line < input.start.line
    ensures Fetched(y, input).Some?
    ensures var w := Fetched(y, input).value; Flush(b, w, kinds + [Value]) && w.allowed && Quieted(w)
  {
    hide Settled, Unrolled, Staled;
    var u := Unrolled(y, b.indent);
    FetchedUnrolled(y, input);
    CalmUnrolled(y, b.indent, line);
    CalmSettled(u, input, line);
    var s := Settled(u, input).value;
    assert !TopPossible(s);
    assert b.made + kinds + [Value] == b.made + (kinds + [Value]);
  }

  /** The colon of a simple key: the start of the mapping and KEY go before what the key was saved for. */
  lemma {:induction false} SimpleColonRead(v: View, w: View, first: Input, kinds: seq<Kind>, last: Mark, input: Input)
    requires v.flowLevel == 0 && |v.keys| == 1 && Unit(v, w, first.start, true, kinds, last)
    requires input.lexeme == Colon && Near(first, input) && Later(last, input.start)
    requires v.indent <= first.start.column <= input.start.column
    requires v.indent < first.start.column ==> Room(v, 1)
    ensures Fetched(w, input).Some?
    ensures var x := Fetched(w, input).value;
            Flush(Base(v, first.start.column, BlockMappingStart), x, [Key] + (kinds + [Value])) && Quieted(x)
  {
    hide Settled, Staled, Overdue, Rolled, Inserted;
    var key := NewKey(v, first.start);
    KeyBefore(v, w, first.start, kinds, last, input);
    SettledLevel(w, input);
    var u := Settled(w, input).value;
    assert TopPossible(u) && u.keys == [key];
    var d := first.start.column;
    var x := u.(keys := Impossible(u.keys), made := Inserted(u.made, |v.made|, Key));
    InsertedAt(v.made, kinds, Key);
    InsertedAt(v.made, [Key] + kinds, BlockMappingStart);
    assert v.made + [Key] + kinds == v.made + ([Key] + kinds);
    var rolled := Rolled(x, d, Some(|v.made|), BlockMappingStart);
    KeyRolled(v, x, d, [Key] + kinds);
    assert Fetched(w, input) == Some(Made(rolled.value.(allowed := false), Value).(mark := input.end));
    assert Base(v, d, BlockMappingStart).made + ([Key] + kinds) + [Value] ==
           Base(v, d, BlockMappingStart).made + ([Key] + (kinds + [Value]));
  }

  lemma {:induction false} KeyRolled(v: View, x: View, d: nat, kinds: seq<Kind>)
    requires SameLevel(v, x) && v.flowLevel == 0 && x.made == v.made + kinds && v.indent <= d
    requires v.indent < d ==> Room(v, 1)
    ensures Rolled(x, d, Some(|v.made|), BlockMappingStart).Some?
    ensures var r := Rolled(x, d, Some(|v.made|), BlockMappingStart).value;
            && Flush(Base(v, d, BlockMappingStart), r, kinds) && r.keys == x.keys
  {
    InsertedAt(v.made, kinds, BlockMappingStart);
  }

  lemma {:induction false} InsertedAt(a: seq<Kind>, b: seq<Kind>, token: Kind)
    ensures Inserted(a + b, |a|, token) == a + [token] + b
  {
    assert (a + b)[..|a|] == a && (a + b)[|a|..] == b;
  }

  lemma {:induction false} KeyBefore(v: View, w: View, first: Mark, kinds: seq<Kind>, last: Mark, input: Input)
    requires |v.keys| == 1 && Unit(v, w, first, true, kinds, last)
    requires input.start.line == first.line && input.start.index <= first.index + 1024 && Later(last, input.start)
    ensures w.keys == [NewKey(v, first)] && !Overdue(w.keys, input.start)
    ensures Staled(w.keys, input.start) == [NewKey(v, first)]
  {
    assert !IsStale(NewKey(v, first), input.start);
    assert KeysFrom(v, first, true) == [NewKey(v, first)];
  }

  // Nodes.

  lemma {:induction false} FlatAnyway(p: Page, indent: int, ready: bool, pair: bool)
    requires IsFlat(p) && InBlock(p, indent, ready, pair)
    ensures InBlock(p, indent, false, false)
  {
  }

  predicate Done(v: View, r: Option<View>, kinds: seq<Kind>, line: nat) {
    r.Some? && Calm(r.value, line) && Pending(v, r.value, kinds)
  }

  /** A node is read as its tokens, but that the ends of its levels are made with the next lexeme. */
  lemma {:induction false} BlockRead(v: View, p: Page, ready: bool, pair: bool, line: nat)
    requires Calm(v, line) && InBlock(p, v.indent, ready, pair) && (ready ==> v.allowed) && Ordered(PageInputs(p))
    requires LinesUpTo(PageInputs(p), line) && Room(v, Height(p))
    ensures Done(v, Scanned(v, PageInputs(p)), PageKinds(p), line)
    decreases p, 3
  {
    hide Calm, Scanned, Pending, Ordered, FlowInputs, FlowFits, FlowKinds, ItemsInputs, ItemsKinds, PairsInputs,
         PairsKinds, ItemsInBlock, PairsInBlock, HeightOfParts, HeightOfItems, Contents;
    match p
    case Nothing =>
      ScannedNothing(v);
      assert v.made + [] == v.made;
      FlushPends(v, v, []);
    case Leaf(_, _) =>
      FlatAnyway(p, v.indent, ready, pair);
      CalmFlat(v, p, line);
    case Flow(_, _, _, _, _, _) =>
      FlatAnyway(p, v.indent, ready, pair);
      CalmFlat(v, p, line);
    case Sequence(_, _, _) => SequenceRead(v, p, ready, pair, line);
    case Mapping(_, _) => MappingRead(v, p, ready, pair, line);
  }

  lemma {:induction false} SequenceRead(v: View, p: Page, ready: bool, pair: bool, line: nat)
    requires p.Sequence?
    requires Calm(v, line) && InBlock(p, v.indent, ready, pair) && (ready ==> v.allowed) && Ordered(PageInputs(p))
    requires LinesUpTo(PageInputs(p), line) && Room(v, Height(p))
    ensures Done(v, Scanned(v, PageInputs(p)), PageKinds(p), line)
    decreases p, 2
  {
    hide Calm, Scanned, Pending, Ordered, ItemsInputs, ItemsKinds, ItemsInBlock, HeightOfItems, Contents, LinesUpTo,
         Base;
    var rest := ItemsInputs(p.items);
    OrderedParts(p.props, rest);
    LinesParts(p.props, rest, line);
    CalmProps(v, p.props, line);
    var w := Scanned(v, p.props).value;
    ScannedJoined(v, p.props, rest);
    CalmLevel(w, line);
    FirstItems(w, p.items, line);
    var u := Scanned(w, rest).value;
    SequenceDone(w, u, p.items[0].dash.start.column, p.indented, ItemsKinds(p.items));
    FlushPending(v, w, u, Contents(|p.props|),
                 if p.indented then [BlockSequenceStart] + ItemsKinds(p.items) + [BlockEnd] else ItemsKinds(p.items));
  }

  lemma {:induction false} SequenceDone(v: View, w: View, column: nat, indented: bool, kinds: seq<Kind>)
    requires v.flowLevel == 0 && Pending(Base(v, column, BlockSequenceStart), w, kinds)
    requires if indented then column > v.indent else column == v.indent
    ensures Pending(v, w, if indented then [BlockSequenceStart] + kinds + [BlockEnd] else kinds)
  {
    hide Unrolled;
    if indented {
      LevelEnds(v, w, column, BlockSequenceStart, kinds);
    }
  }

  lemma {:induction false} RoomBase(v: View, column: int, level: Kind, w: View, kinds: seq<Kind>, height: nat)
    requires Room(v, 1 + height) && Flush(Base(v, column, level), w, kinds)
    ensures Room(w, height)
  {
  }

  /** The items of a sequence, from the first on. */
  lemma {:induction false} FirstItems(v: View, items: seq<Item>, line: nat)
    requires items != [] && ItemsInBlock(items, items[0].dash.start.column) && Calm(v, line)
    requires Allows(v, items[0].dash) && v.indent <= items[0].dash.start.column && Room(v, 1 + HeightOfItems(items))
    requires Ordered(ItemsInputs(items)) && LinesUpTo(ItemsInputs(items), line)
    ensures Done(Base(v, items[0].dash.start.column, BlockSequenceStart), Scanned(v, ItemsInputs(items)),
                 ItemsKinds(items), line)
    decreases items, 2
  {
    hide Calm, Scanned, Pending, Ordered, HeightOfItem, LinesUpTo, Base, Fetched, ItemInputs, ItemKinds, ItemInBlock,
         Quieted, Allows;
    var item, rest := items[0], items[1..];
    var d := item.dash.start.column;
    var b := Base(v, d, BlockSequenceStart);
    OrderedParts(ItemInputs(item), ItemsInputs(rest));
    LinesParts(ItemInputs(item), ItemsInputs(rest), line);
    ItemDash(item, d);
    EntryRead(v, item.dash, BlockEntry, BlockSequenceStart, line);
    var x := Fetched(v, item.dash).value;
    BaseIndent(v, d, BlockSequenceStart);
    RoomBase(v, d, BlockSequenceStart, x, [BlockEntry], HeightOfItems(items));
    ItemRead(b, x, [], item, line);
    ItemScanned(v, item);
    var y := Scanned(v, ItemInputs(item)).value;
    assert [] + ItemKinds(item) == ItemKinds(item);
    ItemsRead(b, y, ItemKinds(item), rest, line, HeightOfItems(items));
    ScannedJoined(v, ItemInputs(item), ItemsInputs(rest));
  }

  lemma {:induction false} BaseIndent(v: View, column: int, level: Kind)
    requires v.indent <= column
    ensures Base(v, column, level).indent == column
  {
  }

  lemma {:induction false} ItemDash(item: Item, column: nat)
    requires ItemInBlock(item, column)
    ensures item.dash.lexeme == Dash && item.dash.start.column == column
  {
  }

  lemma {:induction false} ItemScanned(v: View, item: Item)
    requires Fetched(v, item.dash).Some?
    ensures Scanned(v, ItemInputs(item)) == Scanned(Fetched(v, item.dash).value, PageInputs(item.page))
  {
    hide Fetched, PageInputs;
    ScannedCons(v, item.dash, PageInputs(item.page));
  }

  /** What comes after the dash of an item. */
  lemma {:induction false} ItemRead(b: View, x: View, kinds: seq<Kind>, item: Item, line: nat)
    requires Flush(b, x, kinds + [BlockEntry]) && x.allowed && Quieted(x) && b.indent >= 0
    requires ItemInBlock(item, b.indent) && Ordered(ItemInputs(item)) && LinesUpTo(ItemInputs(item), line)
    requires Room(x, HeightOfItem(item))
    ensures Done(b, Scanned(x, PageInputs(item.page)), kinds + ItemKinds(item), line)
    decreases item
  {
    hide Calm, Scanned, Pending, Ordered, Height, LinesUpTo, Fetched, PageInputs, PageKinds, InBlock, Quieted;
    var inputs := PageInputs(item.page);
    OrderedParts([item.dash], inputs);
    LinesParts([item.dash], inputs, line);
    QuietedCalm(x, line);
    BlockRead(x, item.page, true, false, line);
    var y := Scanned(x, inputs).value;
    FlushPending(b, x, y, kinds + [BlockEntry], PageKinds(item.page));
    assert kinds + [BlockEntry] + PageKinds(item.page) == kinds + ([BlockEntry] + PageKinds(item.page));
  }

  /** The items after the first. */
  lemma {:induction false} ItemsRead(b: View, y: View, kinds: seq<Kind>, items: seq<Item>, line: nat, height: nat)
    requires b.indent >= 0 && Calm(y, line) && Pending(b, y, kinds)
    requires forall k :: 0 <= k < |items| ==> ItemInBlock(items[k], b.indent) && items[k].dash.newLine
    requires Ordered(ItemsInputs(items)) && LinesUpTo(ItemsInputs(items), line)
    requires HeightOfItems(items) <= height && Room(b, height)
    ensures Done(b, Scanned(y, ItemsInputs(items)), kinds + ItemsKinds(items), line)
    decreases items, 1
  {
    hide Calm, Scanned, Pending, Ordered, HeightOfItem, LinesUpTo, Fetched, ItemInputs, ItemKinds, ItemInBlock, Quieted;
    if items == [] {
      ScannedNothing(y);
      assert kinds + [] == kinds;
    } else {
      var item, rest := items[0], items[1..];
      OrderedParts(ItemInputs(item), ItemsInputs(rest));
      LinesParts(ItemInputs(item), ItemsInputs(rest), line);
      ItemDash(item, b.indent);
      NextEntryRead(b, y, kinds, item.dash, BlockEntry, BlockSequenceStart, line);
      var x := Fetched(y, item.dash).value;
      ItemRead(b, x, kinds, item, line);
      ItemScanned(y, item);
      var z := Scanned(y, ItemInputs(item)).value;
      ItemsRead(b, z, kinds + ItemKinds(item), rest, line, height);
      ScannedJoined(y, ItemInputs(item), ItemsInputs(rest));
      assert kinds + ItemKinds(item) + ItemsKinds(rest) == kinds + (ItemKinds(item) + ItemsKinds(rest));
    }
  }

  lemma {:induction false} MappingRead(v: View, p: Page, ready: bool, pair: bool, line: nat)
    requires p.Mapping?
    requires Calm(v, line) && InBlock(p, v.indent, ready, pair) && (ready ==> v.allowed) && Ordered(PageInputs(p))
    requires LinesUpTo(PageInputs(p), line) && Room(v, Height(p))
    ensures Done(v, Scanned(v, PageInputs(p)), PageKinds(p), line)
    decreases p, 2
  {
    hide Calm, Scanned, Pending, Ordered, PairsInputs, PairsKinds, PairsInBlock, HeightOfParts, Contents, LinesUpTo,
         Base;
    var rest := PairsInputs(p.parts);
    OrderedParts(p.props, rest);
    LinesParts(p.props, rest, line);
    CalmProps(v, p.props, line);
    var w := Scanned(v, p.props).value;
    ScannedJoined(v, p.props, rest);
    CalmLevel(w, line);
    FirstStarts(p.parts);
    FirstPairs(w, p.parts, line);
    var u := Scanned(w, rest).value;
    LevelEnds(w, u, PartFirst(p.parts[0]).start.column, BlockMappingStart, PairsKinds(p.parts));
    FlushPending(v, w, u, Contents(|p.props|), [BlockMappingStart] + PairsKinds(p.parts) + [BlockEnd]);
  }

  lemma {:induction false} FirstStarts(parts: seq<Part>)
    requires parts != [] && PairsInBlock(parts)
    ensures StartsPair(parts[0])
  {
  }

  /** The pairs of a mapping, from the first on. */
  lemma {:induction false} FirstPairs(v: View, parts: seq<Part>, line: nat)
    requires parts != [] && PairsInBlock(parts) && Calm(v, line)
    requires Allows(v, PartFirst(parts[0])) && v.indent < PartFirst(parts[0]).start.column
    requires Room(v, 1 + HeightOfParts(parts)) && Ordered(PairsInputs(parts)) && LinesUpTo(PairsInputs(parts), line)
    ensures Done(Base(v, PartFirst(parts[0]).start.column, BlockMappingStart), Scanned(v, PairsInputs(parts)),
                 PairsKinds(parts), line)
    decreases parts, 2
  {
    hide Calm, Scanned, Pending, Ordered, HeightOfPart, LinesUpTo, Base, Fetched, PartInputs, PartKinds, PartInBlock,
         Allows;
    var part, rest := parts[0], parts[1..];
    var d := PartFirst(part).start.column;
    var b := Base(v, d, BlockMappingStart);
    OrderedParts(PartInputs(part), PairsInputs(rest));
    LinesParts(PartInputs(part), PairsInputs(rest), line);
    PairRead(v, part, line);
    var y := Scanned(v, PartInputs(part)).value;
    BaseIndent(v, d, BlockMappingStart);
    RoomOfBase(v, d, BlockMappingStart, HeightOfParts(parts));
    PairsRead(b, y, PartKinds(part), rest, line, HeightOfParts(parts));
    ScannedJoined(v, PartInputs(part), PairsInputs(rest));
  }

  lemma {:induction false} RoomOfBase(v: View, column: int, level: Kind, height: nat)
    requires Room(v, 1 + height)
    ensures Room(Base(v, column, level), height)
  {
  }

  /** The pairs after the first. */
  lemma {:induction false} PairsRead(b: View, y: View, kinds: seq<Kind>, parts: seq<Part>, line: nat, height: nat)
    requires b.indent >= 0 && Calm(y, line) && Pending(b, y, kinds)
    requires forall k :: 0 <= k < |parts| ==>
               StartsPair(parts[k]) && PartInBlock(parts[k], b.indent) && PartFirst(parts[k]).newLine
    requires Ordered(PairsInputs(parts)) && LinesUpTo(PairsInputs(parts), line)
    requires HeightOfParts(parts) <= height && Room(b, height)
    ensures Done(b, Scanned(y, PairsInputs(parts)), kinds + PairsKinds(parts), line)
    decreases parts, 1
  {
    hide Calm, Scanned, Pending, Ordered, HeightOfPart, LinesUpTo, Fetched, PartInputs, PartKinds, PartInBlock;
    if parts == [] {
      ScannedNothing(y);
      assert kinds + [] == kinds;
    } else {
      var part, rest := parts[0], parts[1..];
      OrderedParts(PartInputs(part), PairsInputs(rest));
      LinesParts(PartInputs(part), PairsInputs(rest), line);
      NextPairRead(b, y, kinds, part, line);
      var z := Scanned(y, PartInputs(part)).value;
      PairsRead(b, z, kinds + PartKinds(part), rest, line, height);
      ScannedJoined(y, PartInputs(part), PairsInputs(rest));
      assert kinds + PartKinds(part) + PairsKinds(rest) == kinds + (PartKinds(part) + PairsKinds(rest));
    }
  }

  /** A pair, where deeper levels end before it. */
  lemma {:induction false} NextPairRead(b: View, y: View, kinds: seq<Kind>, part: Part, line: nat)
    requires b.indent >= 0 && Calm(y, line) && Pending(b, y, kinds)
    requires StartsPair(part) && PartInBlock(part, b.indent) && PartFirst(part).newLine
    requires Ordered(PartInputs(part)) && LinesUpTo(PartInputs(part), line) && Room(b, HeightOfPart(part))
    ensures Done(b, Scanned(y, PartInputs(part)), kinds + PartKinds(part), line)
    decreases part, 2
  {
    hide Calm, Scanned, Pending, Ordered, HeightOfPart, LinesUpTo, Fetched, PartInputs, PartKinds, PartInBlock,
         Unrolled, Base;
    var u := Unrolled(y, b.indent);
    assert Flush(b, u, kinds) by { PendingFlush(b, y, kinds); }
    CalmUnrolled(y, b.indent, line);
    CalmLevel(u, line);
    PartStarts(part, b.indent);
    ScannedUnrolled(y, PartInputs(part));
    PairRead(u, part, line);
    assert Base(u, b.indent, BlockMappingStart) == u by { BaseStays(u, b.indent, BlockMappingStart); }
    FlushPending(b, u, Scanned(y, PartInputs(part)).value, kinds, PartKinds(part));
  }

  lemma {:induction false} PendingFlush(b: View, y: View, kinds: seq<Kind>)
    requires Pending(b, y, kinds)
    ensures Flush(b, Unrolled(y, b.indent), kinds)
  {
  }

  lemma {:induction false} BaseStays(v: View, column: int, level: Kind)
    requires v.indent == column
    ensures Base(v, column, level) == v
  {
  }

  lemma {:induction false} PartStarts(part: Part, column: nat)
    requires StartsPair(part) && PartInBlock(part, column)
    ensures PartInputs(part) != [] && PartInputs(part)[0] == PartFirst(part) && PartFirst(part).start.column == column
  {
    hide PageInputs, InBlock, InFlow;
    if part.Simple? {
      FlatInputs(part.key);
    }
  }

  /** A pair, where no level ends before it. */
  lemma {:induction false} PairRead(v: View, part: Part, line: nat)
    requires StartsPair(part) && PartInBlock(part, PartFirst(part).start.column) && Calm(v, line)
    requires Allows(v, PartFirst(part)) && v.indent <= PartFirst(part).start.column
    requires Room(v, (if v.indent < PartFirst(part).start.column then 1 else 0) + HeightOfPart(part))
    requires Ordered(PartInputs(part)) && LinesUpTo(PartInputs(part), line)
    ensures Done(Base(v, PartFirst(part).start.column, BlockMappingStart), Scanned(v, PartInputs(part)),
                 PartKinds(part), line)
    decreases part, 1
  {
    hide Calm, Scanned, Pending, Ordered, LinesUpTo, Base, PageInputs, PageKinds, InBlock, Height, InFlow;
    match part
    case Simple(_, _, _) => SimplePairRead(v, part, line);
    case Explicit(_, _, _, _) => ExplicitPairRead(v, part, line);
  }

  lemma {:induction false} RoomAt(v: View, column: nat, w: View, kinds: seq<Kind>, height: nat, h: nat)
    requires Room(v, (if v.indent < column then 1 else 0) + height) && h <= height
    requires Flush(Base(v, column, BlockMappingStart), w, kinds)
    ensures Room(w, h)
  {
  }

  lemma {:induction false} SimplePairRead(v: View, part: Part, line: nat)
    requires part.Simple? && IsFlat(part.key) && PartInBlock(part, FirstOf(part.key).start.column) && Calm(v, line)
    requires Allows(v, FirstOf(part.key)) && v.indent <= FirstOf(part.key).start.column
    requires Room(v, (if v.indent < FirstOf(part.key).start.column then 1 else 0) + HeightOfPart(part))
    requires Ordered(PartInputs(part)) && LinesUpTo(PartInputs(part), line)
    ensures Done(Base(v, FirstOf(part.key).start.column, BlockMappingStart), Scanned(v, PartInputs(part)),
                 PartKinds(part), line)
    decreases part, 0
  {
    hide Calm, Scanned, Fetched, Pending, Ordered, LinesUpTo, Base, PageInputs, PageKinds, InBlock, Height, InFlow,
         Quieted, Unit, Quiet, Near, Allows, Level, Outermost, SameLine, Deeper;
    var key, colon, value := part.key, part.colon, part.value;
    var a, b := PageInputs(key), PageInputs(value);
    var first, d := FirstOf(key), FirstOf(key).start.column;
    OrderedParts(a, [colon] + b);
    OrderedParts([colon], b);
    LinesParts(a, [colon] + b, line);
    LinesParts([colon], b, line);
    var last := LastStart(first.start, a);
    FlatInputs(key);
    LastBefore(first.start, a, colon, b);
    KeyQuiet(v, line, first, last, colon);
    KeyLevel(v, key, line);
    RoomAtKey(v, d, Height(key), HeightOfPart(part));
    FlatUnit(v, key);
    var w := Scanned(v, a).value;
    CalmOne(v, line);
    SimpleColonRead(v, w, first, PageKinds(key), last, colon);
    var x := Fetched(w, colon).value;
    QuietedCalm(x, line);
    BaseIndent(v, d, BlockMappingStart);
    RoomAt(v, d, x, [Key] + (PageKinds(key) + [Value]), HeightOfPart(part), Height(value));
    BlockRead(x, value, false, true, line);
    ScannedJoined(v, a, [colon] + b);
    ScannedCons(w, colon, b);
    var z := Scanned(x, b).value;
    FlushPending(Base(v, d, BlockMappingStart), x, z, [Key] + (PageKinds(key) + [Value]), PageKinds(value));
    SimpleKinds(PageKinds(key), PageKinds(value));
  }

  lemma {:induction false} SimpleKinds(k: seq<Kind>, l: seq<Kind>)
    ensures [Key] + (k + [Value]) + l == [Key] + (k + ([Value] + l))
  {
  }

  lemma {:induction false} RoomAtKey(v: View, column: nat, h: nat, height: nat)
    requires Room(v, (if v.indent < column then 1 else 0) + height) && h <= height
    ensures Room(v, h) && (v.indent < column ==> Room(v, 1))
  {
  }

  lemma {:induction false} CalmOne(v: View, line: nat)
    requires Calm(v, line)
    ensures v.flowLevel == 0 && |v.keys| == 1
  {
  }

  lemma {:induction false} LastBefore(m: Mark, a: seq<Input>, colon: Input, b: seq<Input>)
    requires Ordered(a + ([colon] + b)) && a != []
    ensures Later(LastStart(m, a), colon.start)
  {
    var all := a + ([colon] + b);
    assert all[|a|] == colon && all[|a| - 1] == a[|a| - 1];
  }

  lemma {:induction false} KeyQuiet(v: View, line: nat, first: Input, last: Mark, colon: Input)
    requires Calm(v, line) && Near(first, colon) && Later(last, colon.start)
    ensures Quiet(v, first.start, true, last)
  {
    assert KeysFrom(v, first.start, true) == [NewKey(v, first.start)];
    assert !IsStale(NewKey(v, first.start), last);
  }

  lemma {:induction false} KeyLevel(v: View, key: Page, line: nat)
    requires IsFlat(key) && Calm(v, line) && v.indent <= FirstOf(key).start.column
    requires Deeper(Outermost(key), FirstOf(key).start.column - 1) && SameLine(Outermost(key))
    ensures Level(v, Outermost(key))
  {
    hide Outermost;
  }

  lemma {:induction false} ExplicitPairRead(v: View, part: Part, line: nat)
    requires part.Explicit? && PartInBlock(part, part.question.start.column) && Calm(v, line)
    requires Allows(v, part.question) && v.indent <= part.question.start.column
    requires Room(v, (if v.indent < part.question.start.column then 1 else 0) + HeightOfPart(part))
    requires Ordered(PartInputs(part)) && LinesUpTo(PartInputs(part), line)
    ensures Done(Base(v, part.question.start.column, BlockMappingStart), Scanned(v, PartInputs(part)),
                 PartKinds(part), line)
    decreases part, 0
  {
    hide Calm, Scanned, Fetched, Pending, Ordered, LinesUpTo, Base, PageInputs, PageKinds, InBlock, Height, Quieted,
         Allows, ValueInputs, ValueKinds;
    var q, key, d := part.question, part.key, part.question.start.column;
    var a, b := PageInputs(key), ValueInputs(part.mark, part.value);
    var base := Base(v, d, BlockMappingStart);
    OrderedParts([q], a + b);
    OrderedParts(a, b);
    LinesParts([q], a + b, line);
    LinesParts(a, b, line);
    RoomAtKey(v, d, Height(key), HeightOfPart(part));
    EntryRead(v, q, Key, BlockMappingStart, line);
    var x := Fetched(v, q).value;
    var bound := if part.mark.Some? then part.mark.value.start.line - 1 else line;
    if part.mark.Some? {
      EarlierLines(q, a, part.mark.value.start.line);
    }
    QuietedCalm(x, bound);
    BaseIndent(v, d, BlockMappingStart);
    RoomAt(v, d, x, [Key], HeightOfPart(part), Height(key));
    BlockRead(x, key, true, true, bound);
    var y := Scanned(x, a).value;
    FlushPending(base, x, y, [Key], PageKinds(key));
    RoomAt(v, d, x, [Key], HeightOfPart(part), Height(part.value));
    RoomBack(base, x, [Key], Height(part.value));
    BelowRead(base, y, [Key] + PageKinds(key), part, line, bound);
    ScannedCons(v, q, a + b);
    ScannedJoined(x, a, b);
    assert [Key] + PageKinds(key) + ValueKinds(part.mark, part.value) ==
           [Key] + (PageKinds(key) + ValueKinds(part.mark, part.value));
  }

  lemma {:induction false} RoomBack(v: View, w: View, kinds: seq<Kind>, height: nat)
    requires Flush(v, w, kinds) && Room(w, height)
    ensures Room(v, height)
  {
  }

  lemma {:induction false} EarlierLines(q: Input, a: seq<Input>, line: nat)
    requires EarlierLine([q] + a, line)
    ensures line > 0 && LinesUpTo(a, line - 1)
  {
    var all := [q] + a;
    assert all[0] == q;
    forall k | 0 <= k < |a|
      ensures a[k].start.line <= line - 1
    {
      assert all[1 + k] == a[k];
    }
  }

  /** The value of a pair whose key and value stand below each other, if it has one. */
  lemma {:induction false} BelowRead(b: View, y: View, kinds: seq<Kind>, part: Part, line: nat, bound: nat)
    requires part.Explicit? && b.indent >= 0 && PartInBlock(part, b.indent) && Pending(b, y, kinds) && Calm(y, bound)
    requires bound == if part.mark.Some? then part.mark.value.start.line - 1 else line
    requires Ordered(ValueInputs(part.mark, part.value)) && LinesUpTo(ValueInputs(part.mark, part.value), line)
    requires Room(b, Height(part.value))
    ensures Done(b, Scanned(y, ValueInputs(part.mark, part.value)), kinds + ValueKinds(part.mark, part.value), line)
    decreases part.value, 5
  {
    hide Calm, Scanned, Fetched, Pending, Ordered, LinesUpTo, PageInputs, PageKinds, InBlock, Height, Quieted;
    if part.mark.None? {
      ScannedNothing(y);
      assert kinds + [] == kinds;
    } else {
      var c, value := part.mark.value, part.value;
      var inputs := PageInputs(value);
      OrderedParts([c], inputs);
      LinesParts([c], inputs, line);
      NextColonRead(b, y, kinds, c, bound);
      var x := Fetched(y, c).value;
      QuietedCalm(x, line);
      BlockRead(x, value, true, true, line);
      var z := Scanned(x, inputs).value;
      ScannedCons(y, c, inputs);
      FlushPending(b, x, z, kinds + [Value], PageKinds(value));
      assert kinds + [Value] + PageKinds(value) == kinds + ([Value] + PageKinds(value));
    }
  }
}
