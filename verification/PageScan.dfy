/** The scanner on a whole stream that is laid out on pages, and the parser after it. */
module PageScan {
  import opened ScannerMoves
  import opened Layout
  import opened FlatPages
  import opened BlockPages
  import T = TokenGrammar
  import P = ParserMoves
  import TokenParse
  import TokenSplit

  /** At the start of the stream, or between documents: no level is open once those of the document are ended. */
  predicate Between(b: View) {
    b.flowLevel == 0 && b.indent == -1 && b.indents == []
  }

  predicate IsMarker(lexeme: Lexeme, token: Kind) {
    || (lexeme == Directives && token == Directive)
    || (lexeme == Indicator(true) && token == DocumentStart)
    || (lexeme == Indicator(false) && token == DocumentEnd)
  }

  lemma {:induction false} CalmOverdue(v: View, line: nat, m: Mark)
    requires Calm(v, line)
    ensures !Overdue(v.keys, m)
  {
  }

  lemma {:induction false} MarkerSettled(b: View, y: View, kinds: seq<Kind>, input: Input, line: nat, mark: Mark)
    requires Between(b) && Calm(y, line) && Pending(b, y, kinds)
    ensures Settled(y, input).Some?
    ensures var s := Unrolled(Settled(y, input).value.(mark := mark), -1);
            Flush(b, s, kinds) && Calm(s, line)
  {
    hide Unrolled, Staled, Overdue;
    var c := input.start.column;
    var keys, allowed := Staled(y.keys, input.start), y.allowed || (input.newLine && y.flowLevel == 0);
    CalmOverdue(y, line, input.start);
    UnrolledWith(y, c, keys, allowed, input.start);
    var s := Settled(y, input).value;
    assert s == Unrolled(y, c).(keys := keys, allowed := allowed, mark := input.start);
    UnrolledWith(Unrolled(y, c), -1, keys, allowed, mark);
    UnrolledTwice(y, c, -1);
    StaledTop(y.keys, input.start);
    UnrolledFrame(y, -1);
    assert |keys| == 1 && keys[0] == Fresher(y.keys[0], input.start) by { StaledOne(y.keys, input.start); }
  }

  lemma {:induction false} StaledOne(keys: seq<SimpleKey>, m: Mark)
    requires |keys| == 1
    ensures |Staled(keys, m)| == 1 && Staled(keys, m)[0] == Fresher(keys[0], m)
  {
  }

  lemma {:induction false} MarkerMade(b: View, s: View, kinds: seq<Kind>, token: Kind, line: nat)
    requires Flush(b, s, kinds) && Calm(s, line)
    ensures Finished(s, false, token).Some?
    ensures var w := Finished(s, false, token).value;
            Flush(b, w, kinds + [token]) && Quieted(w)
  {
    hide KeyRemoved, Impossible;
    CalmRemoved(s, line);
    assert b.made + kinds + [token] == b.made + (kinds + [token]);
  }

  /** A directive or a marker ends all levels of the document before it. */
  lemma {:induction false} MarkerRead(b: View, y: View, kinds: seq<Kind>, input: Input, token: Kind, line: nat)
    requires Between(b) && Calm(y, line) && Pending(b, y, kinds) && IsMarker(input.lexeme, token)
    ensures Fetched(y, input).Some?
    ensures Flush(b, Fetched(y, input).value, kinds + [token]) && Quieted(Fetched(y, input).value)
  {
    hide Settled, Unrolled, Finished, Calm, Pending;
    MarkerSettled(b, y, kinds, input, line, input.start);
    MarkerSettled(b, y, kinds, input, line, Settled(y, input).value.mark);
    var s := Settled(y, input).value;
    assert s.(mark := s.mark) == s;
    MarkerMade(b, Unrolled(s, -1), kinds, token, line);
  }

  /** And so does the end of the stream. */
  lemma {:induction false} EndRead(b: View, y: View, kinds: seq<Kind>, input: Input, line: nat)
    requires Between(b) && Calm(y, line) && Pending(b, y, kinds) && input.lexeme == End
    ensures Fetched(y, input).Some?
    ensures Flush(b, Fetched(y, input).value, kinds + [StreamEnd]) && Quieted(Fetched(y, input).value)
  {
    hide Settled, Unrolled, Finished, Calm, Pending;
    MarkerSettled(b, y, kinds, input, line, input.start);
    MarkerSettled(b, y, kinds, input, line, NewLine(Settled(y, input).value.mark));
    var s := Settled(y, input).value;
    MarkerMade(b, Unrolled(s.(mark := NewLine(s.mark)), -1), kinds, StreamEnd, line);
  }

  /** Markers of one kind after each other. */
  lemma {:induction false} MarkersRead(b: View, y: View, kinds: seq<Kind>, inputs: seq<Input>, lexeme: Lexeme,
                                       token: Kind, line: nat)
    requires Between(b) && Calm(y, line) && Pending(b, y, kinds) && IsMarker(lexeme, token) && Reads(inputs, lexeme)
    ensures Done(b, Scanned(y, inputs), kinds + Repeated(token, |inputs|), line)
    decreases |inputs|
  {
    hide Fetched, Calm, Pending, Quieted;
    if inputs == [] {
      assert kinds + [] == kinds;
    } else {
      MarkerRead(b, y, kinds, inputs[0], token, line);
      var w := Fetched(y, inputs[0]).value;
      QuietedCalm(w, line);
      FlushPends(b, w, kinds + [token]);
      MarkersRead(b, w, kinds + [token], inputs[1..], lexeme, token, line);
      assert kinds + [token] + Repeated(token, |inputs| - 1) == kinds + ([token] + Repeated(token, |inputs| - 1));
    }
  }

  /** What comes before a document: nothing, or directives and a marker. */
  lemma {:induction false} HeadRead(b: View, y: View, kinds: seq<Kind>, s: Sheet, line: nat)
    requires Between(b) && Calm(y, line) && Pending(b, y, kinds) && SheetFits(s)
    requires s.marker.None? ==> Flush(b, y, kinds) && y.allowed
    ensures Scanned(y, HeadInputs(s)).Some?
    ensures var w := Scanned(y, HeadInputs(s)).value;
            Calm(w, line) && Flush(b, w, kinds + HeadKinds(s)) && (s.marker.None? ==> w.allowed)
  {
    hide Fetched, Scanned, Calm, Pending, Quieted, InBlock;
    if s.marker.None? {
      ScannedNothing(y);
      assert HeadInputs(s) == [] && HeadKinds(s) == [] && kinds + [] == kinds;
    } else {
      var m, head := s.marker.value, Repeated(Directive, |s.directives|);
      MarkersRead(b, y, kinds, s.directives, Directives, Directive, line);
      var w := Scanned(y, s.directives).value;
      MarkerRead(b, w, kinds + head, m, DocumentStart, line);
      ScannedJoined(y, s.directives, [m]);
      ScannedCons(w, m, []);
      assert [m] + [] == [m];
      var u := Fetched(w, m).value;
      ScannedNothing(u);
      QuietedCalm(u, line);
      assert kinds + head + [DocumentStart] == kinds + (head + [DocumentStart]);
    }
  }

  lemma {:induction false} SheetRead(b: View, y: View, kinds: seq<Kind>, s: Sheet, line: nat)
    requires Between(b) && Calm(y, line) && Pending(b, y, kinds) && SheetFits(s) && Room(b, Height(s.root))
    requires s.marker.None? ==> Flush(b, y, kinds) && y.allowed
    requires Ordered(SheetInputs(s)) && LinesUpTo(SheetInputs(s), line)
    ensures Done(b, Scanned(y, SheetInputs(s)), kinds + SheetKinds(s), line)
  {
    hide Fetched, Scanned, Calm, Pending, Quieted, InBlock, HeadInputs, HeadKinds, PageInputs, PageKinds, Ordered,
         LinesUpTo, Height, Repeated;
    var a, p, n := HeadInputs(s), PageInputs(s.root), Repeated(DocumentEnd, |s.ends|);
    OrderedParts(a, p + s.ends);
    OrderedParts(p, s.ends);
    LinesParts(a, p + s.ends, line);
    LinesParts(p, s.ends, line);
    HeadRead(b, y, kinds, s, line);
    var w := Scanned(y, a).value;
    var before := kinds + HeadKinds(s);
    BlockRead(w, s.root, s.marker.None?, false, line);
    var u := Scanned(w, p).value;
    FlushPending(b, w, u, before, PageKinds(s.root));
    MarkersRead(b, u, before + PageKinds(s.root), s.ends, Indicator(false), DocumentEnd, line);
    ScannedJoined(y, a, p + s.ends);
    ScannedJoined(w, p, s.ends);
    assert before + PageKinds(s.root) + n == kinds + (HeadKinds(s) + (PageKinds(s.root) + n));
  }

  lemma {:induction false} SheetsRead(b: View, y: View, kinds: seq<Kind>, sheets: seq<Sheet>, line: nat)
    requires Between(b) && Calm(y, line) && Pending(b, y, kinds) && SheetsFit(sheets) && Room(b, HeightOfAll(sheets))
    requires sheets != [] && sheets[0].marker.None? ==> Flush(b, y, kinds) && y.allowed
    requires Ordered(SheetsInputs(sheets)) && LinesUpTo(SheetsInputs(sheets), line)
    ensures Done(b, Scanned(y, SheetsInputs(sheets)), kinds + SheetsKinds(sheets), line)
    decreases |sheets|
  {
    hide Scanned, Calm, Pending, SheetInputs, SheetKinds, Ordered, LinesUpTo, Height, SheetFits;
    if sheets == [] {
      ScannedNothing(y);
      assert kinds + [] == kinds;
    } else {
      var s, rest := sheets[0], sheets[1..];
      OrderedParts(SheetInputs(s), SheetsInputs(rest));
      LinesParts(SheetInputs(s), SheetsInputs(rest), line);
      SheetRead(b, y, kinds, s, line);
      var w := Scanned(y, SheetInputs(s)).value;
      assert rest != [] ==> rest[0] == sheets[1];
      SheetsRead(b, w, kinds + SheetKinds(s), rest, line);
      ScannedJoined(y, SheetInputs(s), SheetsInputs(rest));
      assert kinds + SheetKinds(s) + SheetsKinds(rest) == kinds + (SheetKinds(s) + SheetsKinds(rest));
    }
  }

  function LastLine(inputs: seq<Input>): nat {
    if inputs == [] then 0
    else
      var rest := LastLine(inputs[1..]);
      if rest < inputs[0].start.line then inputs[0].start.line else rest
  }

  lemma {:induction false} LinesBefore(inputs: seq<Input>)
    ensures LinesUpTo(inputs, LastLine(inputs))
    decreases |inputs|
  {
    if inputs != [] {
      LinesBefore(inputs[1..]);
      forall k | 0 <= k < |inputs|
        ensures inputs[k].start.line <= LastLine(inputs)
      {
        assert k > 0 ==> inputs[k] == inputs[1..][k - 1];
      }
    }
  }

  /** A stream on pages, with its end. */
  predicate OnPages(sheets: seq<Sheet>, inputs: seq<Input>, limit: int) {
    && SheetsFit(sheets) && HeightOfAll(sheets) < limit && Ordered(SheetsInputs(sheets))
    && inputs != [] && inputs[..|inputs| - 1] == SheetsInputs(sheets) && inputs[|inputs| - 1].lexeme == End
  }

  /** A stream that is laid out on pages is read as the tokens that it should be read as, to its end. */
  lemma {:induction false} PagesScan(sheets: seq<Sheet>, inputs: seq<Input>, limit: int)
    requires OnPages(sheets, inputs, limit)
    ensures Scanned(StreamStarted(Start(limit)), inputs).Some?
    ensures var v := Scanned(StreamStarted(Start(limit)), inputs).value;
            v.made == [StreamStart] + (SheetsKinds(sheets) + [StreamEnd]) && Quieted(v)
  {
    hide Fetched, Scanned, Pending, SheetsInputs, SheetsKinds, Ordered, LinesUpTo, HeightOfAll, SheetsFit, LastLine,
         Quieted;
    var b, all, end := StreamStarted(Start(limit)), SheetsInputs(sheets), inputs[|inputs| - 1];
    var line := LastLine(all);
    LinesBefore(all);
    assert Calm(b, line) && Between(b) && b.allowed;
    assert b.made + [] == b.made;
    FlushPends(b, b, []);
    SheetsRead(b, b, [], sheets, line);
    var w := Scanned(b, all).value;
    assert [] + SheetsKinds(sheets) == SheetsKinds(sheets);
    EndRead(b, w, SheetsKinds(sheets), end, line);
    ScannedMore(b, all, end);
    assert inputs == all + [end];
    assert b.made == [StreamStart];
  }

  // Only the last lexeme is the end of the text.

  predicate NoEnds(inputs: seq<Input>) {
    forall k :: 0 <= k < |inputs| ==> !inputs[k].lexeme.End?
  }

  lemma NoEndsJoined(a: seq<Input>, b: seq<Input>)
    requires NoEnds(a) && NoEnds(b)
    ensures NoEnds(a + b)
  {
  }

  lemma {:induction false} FlowNoEnds(p: Page)
    requires InFlow(p)
    ensures NoEnds(PageInputs(p))
    decreases p, 0
  {
    if p.Flow? {
      PartsNoEnds(p.parts, p.commas);
    }
  }

  lemma {:induction false} PartsNoEnds(parts: seq<Part>, commas: seq<Input>)
    requires PartsInFlow(parts, commas)
    ensures NoEnds(PartsInputs(parts, commas))
    decreases parts
  {
    hide PartInFlow, PartInputs;
    if parts != [] {
      PartNoEnds(parts[0]);
      if commas != [] {
        PartsNoEnds(parts[1..], commas[1..]);
        NoEndsJoined([commas[0]], PartsInputs(parts[1..], commas[1..]));
      }
      NoEndsJoined(PartInputs(parts[0]),
                   if commas == [] then [] else [commas[0]] + PartsInputs(parts[1..], commas[1..]));
    }
  }

  lemma {:induction false} PartNoEnds(part: Part)
    requires PartInFlow(part)
    ensures NoEnds(PartInputs(part))
    decreases part
  {
    hide InFlow, PageInputs;
    match part
    case One(page) => FlowNoEnds(page);
    case Simple(key, _, value) =>
      FlowNoEnds(key);
      FlowNoEnds(value);
    case Explicit(_, key, colon, value) =>
      FlowNoEnds(key);
      if colon.Some? {
        FlowNoEnds(value);
      }
  }

  lemma {:induction false} BlockNoEnds(p: Page, indent: int, ready: bool, pair: bool)
    requires InBlock(p, indent, ready, pair)
    ensures NoEnds(PageInputs(p))
    decreases p, 0
  {
    hide ItemInBlock, PartInBlock, ItemsInputs, PairsInputs, PartsInputs, PartInFlow;
    match p
    case Flow(_, _, _, parts, commas, _) => PartsNoEnds(parts, commas);
    case Sequence(_, _, items) => ItemsNoEnds(items, items[0].dash.start.column);
    case Mapping(_, parts) => PairsNoEnds(parts, parts[0]);
    case _ =>
  }

  lemma {:induction false} ItemsNoEnds(items: seq<Item>, column: nat)
    requires forall k :: 0 <= k < |items| ==> ItemInBlock(items[k], column)
    ensures NoEnds(ItemsInputs(items))
    decreases items
  {
    hide ItemInputs, ItemInBlock;
    if items != [] {
      ItemNoEnds(items[0], column);
      ItemsNoEnds(items[1..], column);
      NoEndsJoined(ItemInputs(items[0]), ItemsInputs(items[1..]));
    }
  }

  lemma {:induction false} ItemNoEnds(item: Item, column: nat)
    requires ItemInBlock(item, column)
    ensures NoEnds(ItemInputs(item))
    decreases item
  {
    hide PageInputs, InBlock;
    BlockNoEnds(item.page, column, true, false);
  }

  lemma {:induction false} PairsNoEnds(parts: seq<Part>, first: Part)
    requires StartsPair(first)
    requires forall k :: 0 <= k < |parts| ==> PartInBlock(parts[k], PartFirst(first).start.column)
    ensures NoEnds(PairsInputs(parts))
    decreases parts
  {
    hide PartInputs, PartInBlock;
    if parts != [] {
      PairNoEnds(parts[0], PartFirst(first).start.column);
      PairsNoEnds(parts[1..], first);
      NoEndsJoined(PartInputs(parts[0]), PairsInputs(parts[1..]));
    }
  }

  lemma {:induction false} PairNoEnds(part: Part, column: nat)
    requires PartInBlock(part, column)
    ensures NoEnds(PartInputs(part))
    decreases part
  {
    hide InBlock, InFlow, PageInputs;
    match part
    case Simple(key, _, value) =>
      FlowNoEnds(key);
      BlockNoEnds(value, column, false, true);
    case Explicit(_, key, colon, value) =>
      BlockNoEnds(key, column, true, true);
      if colon.Some? {
        BlockNoEnds(value, column, true, true);
      }
  }

  lemma {:induction false} SheetsNoEnds(sheets: seq<Sheet>)
    requires forall i :: 0 <= i < |sheets| ==> SheetFits(sheets[i])
    ensures NoEnds(SheetsInputs(sheets))
  {
    hide SheetInputs, SheetFits;
    if sheets != [] {
      SheetNoEnds(sheets[0]);
      SheetsNoEnds(sheets[1..]);
      NoEndsJoined(SheetInputs(sheets[0]), SheetsInputs(sheets[1..]));
    }
  }

  lemma {:induction false} SheetNoEnds(s: Sheet)
    requires SheetFits(s)
    ensures NoEnds(SheetInputs(s))
  {
    hide InBlock, PageInputs;
    BlockNoEnds(s.root, -1, s.marker.None?, false);
  }

  lemma {:induction false} PagesEndLast(sheets: seq<Sheet>, inputs: seq<Input>, limit: int)
    requires OnPages(sheets, inputs, limit)
    ensures EndsLast(inputs) && forall i :: 0 <= i < |inputs| - 1 ==> !inputs[i].lexeme.End?
  {
    hide SheetsInputs, SheetFits;
    SheetsNoEnds(sheets);
    forall i | 0 <= i < |inputs| - 1
      ensures !inputs[i].lexeme.End?
    {
      assert inputs[i] == inputs[..|inputs| - 1][i];
    }
  }

  // The syntax trees.

  lemma {:induction false} RepeatedShown(ts: seq<P.Token>, kind: Kind)
    requires forall k :: 0 <= k < |ts| ==> KindOf(ts[k]) == kind
    ensures KindsOf(ts) == Repeated(kind, |ts|)
  {
    hide KindsOf, KindOf;
    if ts == [] {
      KindsNone();
    } else {
      var rest := ts[1..];
      assert forall k :: 0 <= k < |rest| ==> rest[k] == ts[k + 1];
      RepeatedShown(rest, kind);
      assert ts == [ts[0]] + rest;
      KindsJoined([ts[0]], rest);
      KindsOne(ts[0]);
    }
  }

  lemma {:induction false} EndsShown(n: nat)
    ensures KindsOf(T.Ends(n)) == Repeated(DocumentEnd, n)
  {
    hide KindsOf;
    if n == 0 {
      KindsNone();
    } else {
      EndsShown(n - 1);
      KindsJoined([P.DocumentEndToken], T.Ends(n - 1));
      KindsOne(P.DocumentEndToken);
    }
  }

  lemma {:induction false} DocShown(s: Sheet, d: T.Doc)
    requires ShowsDoc(s, d) && SheetFits(s) && (!d.marked ==> d.directives == [])
    ensures KindsOf(T.DocTokens(d)) == SheetKinds(s)
  {
    hide KindsOf, T.Tokens, PageKinds, Shows, InBlock, T.Ends, Repeated;
    PageShown(s.root, d.root);
    EndsShown(d.ends);
    KindsJoined(T.HeadTokens(d), T.Tokens(d.root) + T.Ends(d.ends));
    KindsJoined(T.Tokens(d.root), T.Ends(d.ends));
    HeadShown(s, d);
  }

  lemma {:induction false} HeadShown(s: Sheet, d: T.Doc)
    requires ShowsDoc(s, d) && SheetFits(s) && (!d.marked ==> d.directives == [])
    ensures KindsOf(T.HeadTokens(d)) == HeadKinds(s)
  {
    hide KindsOf, Shows, InBlock;
    RepeatedShown(d.directives, Directive);
    if d.marked {
      KindsJoined(d.directives, [P.DocumentStartToken]);
      KindsOne(P.DocumentStartToken);
    } else {
      KindsNone();
      assert s.directives == [];
    }
  }

  lemma {:induction false} DocsShown(sheets: seq<Sheet>, docs: seq<T.Doc>)
    requires ShowsAll(sheets, docs) && SheetsFit(sheets) && T.StreamFits(docs)
    ensures KindsOf(T.DocsTokens(docs)) == SheetsKinds(sheets)
    decreases |sheets|
  {
    hide KindsOf, T.DocTokens, SheetKinds, ShowsDoc, SheetFits;
    if sheets == [] {
      KindsNone();
    } else {
      assert T.DocFits(docs[0]);
      Unmarked(docs[0]);
      DocShown(sheets[0], docs[0]);
      DocsShownRest(sheets, docs);
      DocsShown(sheets[1..], docs[1..]);
      KindsJoined(T.DocTokens(docs[0]), T.DocsTokens(docs[1..]));
    }
  }

  lemma {:induction false} Unmarked(d: T.Doc)
    requires T.DocFits(d)
    ensures !d.marked ==> d.directives == []
  {
    hide T.Fits;
  }

  lemma {:induction false} DocsShownRest(sheets: seq<Sheet>, docs: seq<T.Doc>)
    requires sheets != [] && ShowsAll(sheets, docs) && SheetsFit(sheets) && T.StreamFits(docs)
    ensures ShowsAll(sheets[1..], docs[1..]) && SheetsFit(sheets[1..]) && T.StreamFits(docs[1..])
  {
    hide ShowsDoc, SheetFits, T.DocFits;
    forall i | 0 <= i < |docs[1..]|
      ensures T.DocFits(docs[1..][i]) && docs[1..][i].marked
    {
      assert docs[1..][i] == docs[i + 1];
    }
    forall i | 0 <= i < |sheets[1..]|
      ensures SheetFits(sheets[1..][i]) && sheets[1..][i].marker.Some? && ShowsDoc(sheets[1..][i], docs[1..][i])
    {
      assert sheets[1..][i] == sheets[i + 1] && docs[1..][i] == docs[i + 1];
    }
  }

  /**
   A stream of syntax trees that is laid out on pages is read as the tokens of the trees. These are tokens that the
   parser accepts.
   */
  lemma {:induction false} TreesScan(sheets: seq<Sheet>, docs: seq<T.Doc>, inputs: seq<Input>, limit: int)
    requires OnPages(sheets, inputs, limit) && ShowsAll(sheets, docs) && T.StreamFits(docs)
    ensures Scanned(StreamStarted(Start(limit)), inputs).Some?
    ensures Scanned(StreamStarted(Start(limit)), inputs).value.made == KindsOf(T.StreamTokens(docs))
    ensures TokenSplit.InGrammar(T.StreamTokens(docs))
  {
    hide KindsOf, Scanned, SheetsKinds, ShowsAll, T.DocsTokens, T.StreamFits, SheetsFit, Quieted;
    PagesScan(sheets, inputs, limit);
    DocsShown(sheets, docs);
    var body := T.DocsTokens(docs);
    KindsJoined([P.StreamStartToken], body + [P.StreamEndToken]);
    KindsJoined(body, [P.StreamEndToken]);
    KindsOne(P.StreamStartToken);
    KindsOne(P.StreamEndToken);
    assert TokenParse.Has(T.StreamTokens(docs), 0, T.StreamTokens(docs));
  }
}
