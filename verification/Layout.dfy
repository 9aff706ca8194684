/**
 How the lexemes of a stream are laid out on the page: block collections in columns, each deeper than the one around it,
 and flow collections anywhere; and which syntax trees a page shows.
 */
module Layout {
  import opened Wrappers
  import opened ScannerMoves
  import T = TokenGrammar
  import P = ParserMoves

  /**
   A node on the page, with its anchor and tag before it. A block sequence that is not indented stands at the column of
   the mapping around it.
   */
  datatype Page =
    | Nothing
    | Leaf(props: seq<Input>, at: Option<Input>)
    | Flow(props: seq<Input>, mapping: bool, start: Input, parts: seq<Part>, commas: seq<Input>, close: Input)
    | Sequence(props: seq<Input>, indented: bool, items: seq<Item>)
    | Mapping(props: seq<Input>, parts: seq<Part>)

  datatype Item = Item(dash: Input, page: Page)

  /** An entry of a flow collection, or a pair, whose key stands before a colon or after a question mark. */
  datatype Part =
    | One(page: Page)
    | Simple(key: Page, colon: Input, value: Page)
    | Explicit(question: Input, key: Page, mark: Option<Input>, value: Page)

  // The lexemes of a page.

  function PageInputs(p: Page): seq<Input>
    decreases p, 0
  {
    match p
    case Nothing => []
    case Leaf(props, at) => props + AtInputs(at)
    case Flow(props, _, start, parts, commas, close) => props + FlowInputs(start, parts, commas, close)
    case Sequence(props, _, items) => props + ItemsInputs(items)
    case Mapping(props, parts) => props + PairsInputs(parts)
  }

  function AtInputs(at: Option<Input>): seq<Input> {
    match at case None => [] case Some(i) => [i]
  }

  function FlowInputs(start: Input, parts: seq<Part>, commas: seq<Input>, close: Input): seq<Input>
    decreases parts, 1
  {
    [start] + (PartsInputs(parts, commas) + [close])
  }

  function ItemsInputs(items: seq<Item>): seq<Input>
    decreases items
  {
    if items == [] then [] else ItemInputs(items[0]) + ItemsInputs(items[1..])
  }

  function ItemInputs(item: Item): seq<Input>
    decreases item
  {
    [item.dash] + PageInputs(item.page)
  }

  function PartInputs(part: Part): seq<Input>
    decreases part
  {
    match part
    case One(page) => PageInputs(page)
    case Simple(key, colon, value) => PageInputs(key) + ([colon] + PageInputs(value))
    case Explicit(question, key, colon, value) => [question] + (PageInputs(key) + ValueInputs(colon, value))
  }

  function ValueInputs(colon: Option<Input>, value: Page): seq<Input>
    decreases value, 1
  {
    match colon case None => [] case Some(c) => [c] + PageInputs(value)
  }

  function PairsInputs(parts: seq<Part>): seq<Input>
    decreases parts
  {
    if parts == [] then [] else PartInputs(parts[0]) + PairsInputs(parts[1..])
  }

  /** Parts with a comma after each but perhaps the last. */
  function PartsInputs(parts: seq<Part>, commas: seq<Input>): seq<Input>
    decreases parts, 0
  {
    if parts == [] then []
    else PartInputs(parts[0]) + if commas == [] then [] else [commas[0]] + PartsInputs(parts[1..], commas[1..])
  }

  // The tokens that a page should be read as.

  function Contents(n: nat): seq<Kind> {
    if n == 0 then [] else [Content] + Contents(n - 1)
  }

  function PageKinds(p: Page): seq<Kind>
    decreases p, 0
  {
    match p
    case Nothing => []
    case Leaf(props, at) => Contents(|props|) + AtKinds(at)
    case Flow(props, mapping, _, parts, commas, _) => Contents(|props|) + FlowKinds(mapping, parts, commas)
    case Sequence(props, indented, items) =>
      Contents(|props|) + if indented then [BlockSequenceStart] + ItemsKinds(items) + [BlockEnd] else ItemsKinds(items)
    case Mapping(props, parts) => Contents(|props|) + ([BlockMappingStart] + PairsKinds(parts) + [BlockEnd])
  }

  function AtKinds(at: Option<Input>): seq<Kind> {
    match at case None => [] case Some(_) => [Content]
  }

  function FlowKinds(mapping: bool, parts: seq<Part>, commas: seq<Input>): seq<Kind>
    decreases parts, 1
  {
    [FlowStart(mapping)] + (PartsKinds(parts, commas) + [FlowEnd(mapping)])
  }

  function ItemsKinds(items: seq<Item>): seq<Kind>
    decreases items
  {
    if items == [] then [] else ItemKinds(items[0]) + ItemsKinds(items[1..])
  }

  function ItemKinds(item: Item): seq<Kind>
    decreases item
  {
    [BlockEntry] + PageKinds(item.page)
  }

  function PartKinds(part: Part): seq<Kind>
    decreases part
  {
    match part
    case One(page) => PageKinds(page)
    case Simple(key, _, value) => [Key] + (PageKinds(key) + ([Value] + PageKinds(value)))
    case Explicit(_, key, colon, value) => [Key] + (PageKinds(key) + ValueKinds(colon, value))
  }

  function ValueKinds(colon: Option<Input>, value: Page): seq<Kind>
    decreases value, 1
  {
    match colon case None => [] case Some(_) => [Value] + PageKinds(value)
  }

  function PairsKinds(parts: seq<Part>): seq<Kind>
    decreases parts
  {
    if parts == [] then [] else PartKinds(parts[0]) + PairsKinds(parts[1..])
  }

  function PartsKinds(parts: seq<Part>, commas: seq<Input>): seq<Kind>
    decreases parts, 0
  {
    if parts == [] then []
    else PartKinds(parts[0]) + if commas == [] then [] else [FlowEntry] + PartsKinds(parts[1..], commas[1..])
  }

  // What makes a page well laid out.

  predicate IsWord(i: Input) {
    i.lexeme.Node? || i.lexeme.Plain?
  }

  predicate PropsFit(props: seq<Input>) {
    forall k :: 0 <= k < |props| ==> props[k].lexeme == Node
  }

  /** A node that takes at least one lexeme, and no block collection. */
  predicate IsFlat(p: Page) {
    p.Flow? || (p.Leaf? && (p.props != [] || p.at.Some?))
  }

  function FirstOf(p: Page): Input
    requires IsFlat(p)
  {
    if p.props != [] then p.props[0] else if p.Flow? then p.start else p.at.value
  }

  /** A simple key is on one line with its colon, within 1024 characters. */
  predicate Near(key: Input, colon: Input) {
    colon.start.line == key.start.line && colon.start.index <= key.start.index + 1024
  }

  /** A node of a flow collection, or a simple key. */
  predicate InFlow(p: Page)
    decreases p, 0
  {
    match p
    case Nothing => true
    case Leaf(props, at) => PropsFit(props) && IsFlat(p) && (at.Some? ==> IsWord(at.value))
    case Flow(props, mapping, start, parts, commas, close) =>
      PropsFit(props) && FlowFits(mapping, start, parts, commas, close)
    case _ => false
  }

  predicate FlowFits(mapping: bool, start: Input, parts: seq<Part>, commas: seq<Input>, close: Input)
    decreases parts, 1
  {
    start.lexeme == FlowOpen(mapping) && close.lexeme == FlowClose(mapping) && PartsInFlow(parts, commas)
  }

  predicate PartsInFlow(parts: seq<Part>, commas: seq<Input>)
    decreases parts, 0
  {
    && (|commas| == |parts| || |commas| + 1 == |parts|)
    && (forall k :: 0 <= k < |commas| ==> commas[k].lexeme == Comma)
    && (forall k :: 0 <= k < |parts| ==> PartInFlow(parts[k]))
  }

  predicate PartInFlow(part: Part)
    decreases part
  {
    match part
    case One(page) => InFlow(page)
    case Simple(key, colon, value) =>
      InFlow(key) && IsFlat(key) && colon.lexeme == Colon && Near(FirstOf(key), colon) && InFlow(value)
    case Explicit(question, key, colon, value) =>
      && question.lexeme == Question && InFlow(key)
      && match colon case None => value == Nothing case Some(c) => c.lexeme == Colon && InFlow(value)
  }

  predicate Deeper(inputs: seq<Input>, indent: int) {
    forall k :: 0 <= k < |inputs| ==> inputs[k].start.column > indent
  }

  /** The lexemes of a flat node that stand outside of its flow collection. */
  function Outermost(p: Page): seq<Input>
    requires IsFlat(p)
  {
    p.props + if p.Flow? then [p.start] else AtInputs(p.at)
  }

  /**
   A node below something at column `indent`. It is `ready` to start a block collection on the same line, and as a part
   of a `pair` it can be a block sequence that is not indented.
   */
  predicate InBlock(p: Page, indent: int, ready: bool, pair: bool)
    decreases p, 0
  {
    match p
    case Nothing => true
    case Leaf(props, at) =>
      && PropsFit(props) && IsFlat(p) && Deeper(Outermost(p), indent)
      && (at.Some? ==> IsWord(at.value) || at.value.lexeme.BlockScalar?)
    case Flow(props, mapping, start, parts, commas, close) =>
      PropsFit(props) && FlowFits(mapping, start, parts, commas, close) && Deeper(Outermost(p), indent)
    case Sequence(props, indented, items) =>
      && PropsFit(props) && Deeper(props, indent) && items != []
      && (items[0].dash.newLine || (ready && props == []))
      && (if indented then items[0].dash.start.column > indent else pair && items[0].dash.start.column == indent)
      && ItemsInBlock(items, items[0].dash.start.column)
    case Mapping(props, parts) =>
      && PropsFit(props) && Deeper(props, indent) && parts != [] && PairsInBlock(parts)
      && (PartFirst(parts[0]).newLine || (ready && props == []))
      && PartFirst(parts[0]).start.column > indent
  }

  predicate ItemsInBlock(items: seq<Item>, column: nat)
    decreases items
  {
    forall k :: 0 <= k < |items| ==> ItemInBlock(items[k], column) && (k > 0 ==> items[k].dash.newLine)
  }

  predicate ItemInBlock(item: Item, column: nat)
    decreases item
  {
    item.dash.lexeme == Dash && item.dash.start.column == column && InBlock(item.page, column, true, false)
  }

  predicate StartsPair(part: Part) {
    part.Explicit? || (part.Simple? && IsFlat(part.key))
  }

  function PartFirst(part: Part): Input
    requires StartsPair(part)
  {
    if part.Simple? then FirstOf(part.key) else part.question
  }

  /** The pairs of a mapping start in one column, each on a new line. */
  predicate PairsInBlock(parts: seq<Part>)
    decreases parts
  {
    forall k :: 0 <= k < |parts| ==>
      && StartsPair(parts[0]) && StartsPair(parts[k]) && (k > 0 ==> PartFirst(parts[k]).newLine)
      && PartInBlock(parts[k], PartFirst(parts[0]).start.column)
  }

  predicate SameLine(inputs: seq<Input>) {
    forall k :: 0 < k < |inputs| ==> !inputs[k].newLine
  }

  predicate EarlierLine(inputs: seq<Input>, line: nat) {
    forall k :: 0 <= k < |inputs| ==> inputs[k].start.line < line
  }

  /** A pair of a block mapping at a column: a simple key, or a key and a value that stand below each other. */
  predicate PartInBlock(part: Part, column: nat)
    decreases part
  {
    match part
    case One(_) => false
    case Simple(key, colon, value) =>
      && InFlow(key) && IsFlat(key) && FirstOf(key).start.column == column
      && Deeper(Outermost(key), column - 1) && SameLine(Outermost(key))
      && colon.lexeme == Colon && colon.start.column >= column && Near(FirstOf(key), colon)
      && InBlock(value, column, false, true)
    case Explicit(question, key, colon, value) =>
      && question.lexeme == Question && question.start.column == column && InBlock(key, column, true, true)
      && match colon
         case None => value == Nothing
         case Some(c) =>
           && c.lexeme == Colon && c.start.column == column && c.newLine
           && EarlierLine([question] + PageInputs(key), c.start.line) && InBlock(value, column, true, true)
  }

  // How deep a page is nested.

  function Height(p: Page): nat
    decreases p, 0
  {
    match p
    case Nothing => 0
    case Leaf(_, _) => 0
    case Flow(_, _, _, parts, _, _) => 1 + HeightOfParts(parts)
    case Sequence(_, _, items) => 1 + HeightOfItems(items)
    case Mapping(_, parts) => 1 + HeightOfParts(parts)
  }

  function Higher(a: nat, b: nat): nat {
    if a < b then b else a
  }

  function HeightOfItems(items: seq<Item>): nat
    decreases items
  {
    if items == [] then 0 else Higher(HeightOfItem(items[0]), HeightOfItems(items[1..]))
  }

  function HeightOfItem(item: Item): nat
    decreases item
  {
    Height(item.page)
  }

  function HeightOfPart(part: Part): nat
    decreases part
  {
    match part
    case One(page) => Height(page)
    case Simple(key, _, value) => Higher(Height(key), Height(value))
    case Explicit(_, key, _, value) => Higher(Height(key), Height(value))
  }

  function HeightOfParts(parts: seq<Part>): nat
    decreases parts, 0
  {
    if parts == [] then 0 else Higher(HeightOfPart(parts[0]), HeightOfParts(parts[1..]))
  }

  // Streams.

  /** A document on the page: its directives and its marker, the root, and the end markers after it. */
  datatype Sheet = Sheet(directives: seq<Input>, marker: Option<Input>, root: Page, ends: seq<Input>)

  function HeadInputs(s: Sheet): seq<Input> {
    s.directives + AtInputs(s.marker)
  }

  function SheetInputs(s: Sheet): seq<Input> {
    HeadInputs(s) + (PageInputs(s.root) + s.ends)
  }

  function SheetsInputs(sheets: seq<Sheet>): seq<Input> {
    if sheets == [] then [] else SheetInputs(sheets[0]) + SheetsInputs(sheets[1..])
  }

  function Repeated(kind: Kind, n: nat): seq<Kind> {
    if n == 0 then [] else [kind] + Repeated(kind, n - 1)
  }

  function HeadKinds(s: Sheet): seq<Kind> {
    Repeated(Directive, |s.directives|) + if s.marker.Some? then [DocumentStart] else []
  }

  function SheetKinds(s: Sheet): seq<Kind> {
    HeadKinds(s) + (PageKinds(s.root) + Repeated(DocumentEnd, |s.ends|))
  }

  function SheetsKinds(sheets: seq<Sheet>): seq<Kind> {
    if sheets == [] then [] else SheetKinds(sheets[0]) + SheetsKinds(sheets[1..])
  }

  predicate Reads(inputs: seq<Input>, lexeme: Lexeme) {
    forall k :: 0 <= k < |inputs| ==> inputs[k].lexeme == lexeme
  }

  predicate SheetFits(s: Sheet) {
    && Reads(s.directives, Directives) && Reads(s.ends, Indicator(false))
    && (match s.marker case None => s.directives == [] case Some(m) => m.lexeme == Indicator(true))
    && InBlock(s.root, -1, s.marker.None?, false)
  }

  /** Only the first document can do without a marker. */
  predicate SheetsFit(sheets: seq<Sheet>) {
    forall i :: 0 <= i < |sheets| ==> SheetFits(sheets[i]) && (i > 0 ==> sheets[i].marker.Some?)
  }

  function HeightOfAll(sheets: seq<Sheet>): nat {
    if sheets == [] then 0 else Higher(Height(sheets[0].root), HeightOfAll(sheets[1..]))
  }

  /** Each lexeme starts where the ones before it started, or later. */
  predicate Ordered(inputs: seq<Input>) {
    forall i, j :: 0 <= i < j < |inputs| ==> Later(inputs[i].start, inputs[j].start)
  }

  // The syntax trees that a page shows.

  function KindOf(t: P.Token): Kind {
    match t
    case StreamStartToken => StreamStart
    case StreamEndToken => StreamEnd
    case VersionDirectiveToken(_, _) => Directive
    case TagDirectiveToken(_, _) => Directive
    case DocumentStartToken => DocumentStart
    case DocumentEndToken => DocumentEnd
    case BlockSequenceStartToken => BlockSequenceStart
    case BlockMappingStartToken => BlockMappingStart
    case BlockEndToken => BlockEnd
    case FlowSequenceStartToken => FlowStart(false)
    case FlowSequenceEndToken => FlowEnd(false)
    case FlowMappingStartToken => FlowStart(true)
    case FlowMappingEndToken => FlowEnd(true)
    case BlockEntryToken => BlockEntry
    case FlowEntryToken => FlowEntry
    case KeyToken => Key
    case ValueToken => Value
    case AliasToken(_) => Content
    case AnchorToken(_) => Content
    case TagToken(_, _) => Content
    case ScalarToken(_, _) => Content
  }

  function KindsOf(ts: seq<P.Token>): (r: seq<Kind>)
    ensures |r| == |ts| && forall k :: 0 <= k < |ts| ==> r[k] == KindOf(ts[k])
  {
    seq(|ts|, k requires 0 <= k < |ts| => KindOf(ts[k]))
  }

  predicate ShowsProps(props: seq<Input>, p: T.Props) {
    |props| == (if p.anchor.Some? then 1 else 0) + if p.tag.Some? then 1 else 0
  }

  predicate Shows(p: Page, s: T.Syntax)
    decreases p, 0
  {
    match p
    case Nothing => s == T.Missing
    case Leaf(props, at) =>
      || (s.Reference? && props == [] && at.Some?)
      || (s.Text? && ShowsProps(props, s.props) && at.Some?)
      || (s.Hollow? && ShowsProps(props, s.props) && at.None?)
    case Flow(props, mapping, _, parts, commas, _) =>
      && (if mapping then s.FlowMapping? else s.FlowSequence?)
      && ShowsProps(props, s.props) && ShowsParts(parts, s.entries)
      && (|commas| == |parts| || |commas| + 1 == |parts|) && (s.comma <==> parts != [] && |commas| == |parts|)
    case Sequence(props, indented, items) =>
      (if indented then s.BlockSequence? else s.Indentless?) && ShowsProps(props, s.props) && ShowsItems(items, s.items)
    case Mapping(props, parts) => s.BlockMapping? && ShowsProps(props, s.props) && ShowsParts(parts, s.pairs)
  }

  predicate ShowsItems(items: seq<Item>, nodes: seq<T.Syntax>)
    decreases items
  {
    |items| == |nodes| && forall k :: 0 <= k < |items| ==> ShowsItem(items[k], nodes[k])
  }

  predicate ShowsItem(item: Item, node: T.Syntax)
    decreases item
  {
    Shows(item.page, node)
  }

  predicate ShowsParts(parts: seq<Part>, entries: seq<T.Entry>)
    decreases parts
  {
    |parts| == |entries| && forall k :: 0 <= k < |parts| ==> ShowsPart(parts[k], entries[k])
  }

  predicate ShowsPart(part: Part, e: T.Entry)
    decreases part
  {
    match part
    case One(page) => e.One? && Shows(page, e.node)
    case Simple(key, _, value) => e.Pair? && e.skipped == [] && e.colon && Shows(key, e.key) && Shows(value, e.value)
    case Explicit(_, key, colon, value) =>
      e.Pair? && e.skipped == [] && (e.colon <==> colon.Some?) && Shows(key, e.key) && Shows(value, e.value)
  }

  predicate ShowsDoc(s: Sheet, d: T.Doc) {
    && (d.marked <==> s.marker.Some?) && |s.directives| == |d.directives|
    && (forall k :: 0 <= k < |d.directives| ==> KindOf(d.directives[k]) == Directive)
    && Shows(s.root, d.root) && |s.ends| == d.ends
  }

  predicate ShowsAll(sheets: seq<Sheet>, docs: seq<T.Doc>) {
    |sheets| == |docs| && forall i :: 0 <= i < |sheets| ==> ShowsDoc(sheets[i], docs[i])
  }

  // A page that shows a syntax tree should be read as the tokens of the tree.

  lemma {:induction false} KindsJoined(a: seq<P.Token>, b: seq<P.Token>)
    ensures KindsOf(a + b) == KindsOf(a) + KindsOf(b)
  {
  }

  lemma {:induction false} KindsOne(t: P.Token)
    ensures KindsOf([t]) == [KindOf(t)]
  {
  }

  lemma {:induction false} PropsShown(props: seq<Input>, p: T.Props)
    requires ShowsProps(props, p)
    ensures KindsOf(T.PropsTokens(p)) == Contents(|props|)
  {
    assert Contents(0) == [] && Contents(1) == [Content] && Contents(2) == [Content, Content];
  }

  lemma {:induction false} PageShown(p: Page, s: T.Syntax)
    requires Shows(p, s)
    ensures KindsOf(T.Tokens(s)) == PageKinds(p)
    decreases p, 0
  {
    hide Contents, T.PropsTokens, ShowsProps, KindsOf, KindOf;
    StartsShown();
    match p
    case Nothing => KindsNone();
    case Leaf(props, at) =>
      if s.Reference? {
        KindsOne(T.Tokens(s)[0]);
        assert Contents(0) == [] by { NoContents(); }
      } else {
        PropsShown(props, s.props);
        WordShown(s);
      }
    case Flow(props, mapping, _, parts, commas, _) =>
      PropsShown(props, s.props);
      var end := if mapping then P.FlowMappingEndToken else P.FlowSequenceEndToken;
      ListShown(parts, commas, s.entries, s.comma, end);
      var start := if mapping then P.FlowMappingStartToken else P.FlowSequenceStartToken;
      FlowShown(mapping, T.PropsTokens(s.props), T.Listed(s.entries, s.comma, true, end), PartsKinds(parts, commas));
    case Sequence(props, indented, items) =>
      PropsShown(props, s.props);
      ItemsShown(items, s.items);
      BlockShown(T.PropsTokens(s.props), P.BlockSequenceStartToken, T.ItemTokens(s.items));
      KindsJoined(T.PropsTokens(s.props), T.ItemTokens(s.items));
    case Mapping(props, parts) =>
      PropsShown(props, s.props);
      PairsShown(parts, s.pairs);
      BlockShown(T.PropsTokens(s.props), P.BlockMappingStartToken, T.PairTokens(s.pairs));
  }

  lemma NoContents()
    ensures Contents(0) == []
  {
  }

  lemma {:induction false} StartsShown()
    ensures KindOf(P.BlockSequenceStartToken) == BlockSequenceStart
    ensures KindOf(P.BlockMappingStartToken) == BlockMappingStart
    ensures KindOf(P.FlowMappingEndToken) == FlowEnd(true) && KindOf(P.FlowSequenceEndToken) == FlowEnd(false)
    ensures forall name :: KindOf(P.AliasToken(name)) == Content
  {
  }

  lemma {:induction false} WordShown(s: T.Syntax)
    requires s.Text? || s.Hollow?
    ensures KindsOf(T.Tokens(s)) == KindsOf(T.PropsTokens(s.props)) + if s.Text? then [Content] else []
  {
    if s.Text? {
      KindsJoined(T.PropsTokens(s.props), [P.ScalarToken(s.value, s.style)]);
      KindsOne(P.ScalarToken(s.value, s.style));
    }
  }

  lemma {:induction false} FlowShown(mapping: bool, props: seq<P.Token>, list: seq<P.Token>, parts: seq<Kind>)
    requires KindsOf(list) == parts + [FlowEnd(mapping)]
    ensures var start := if mapping then P.FlowMappingStartToken else P.FlowSequenceStartToken;
            KindsOf(props + ([start] + list)) == KindsOf(props) + ([FlowStart(mapping)] + (parts + [FlowEnd(mapping)]))
  {
    var start := if mapping then P.FlowMappingStartToken else P.FlowSequenceStartToken;
    KindsJoined(props, [start] + list);
    KindsJoined([start], list);
    KindsOne(start);
  }

  lemma {:induction false} BlockShown(props: seq<P.Token>, start: P.Token, body: seq<P.Token>)
    ensures KindsOf(props + ([start] + body + [P.BlockEndToken])) ==
            KindsOf(props) + ([KindOf(start)] + KindsOf(body) + [BlockEnd])
  {
    KindsJoined(props, [start] + body + [P.BlockEndToken]);
    KindsJoined([start] + body, [P.BlockEndToken]);
    KindsJoined([start], body);
    KindsOne(start);
    KindsOne(P.BlockEndToken);
  }

  lemma {:induction false} ItemsShown(items: seq<Item>, nodes: seq<T.Syntax>)
    requires ShowsItems(items, nodes)
    ensures KindsOf(T.ItemTokens(nodes)) == ItemsKinds(items)
    decreases items
  {
    hide KindsOf, ShowsItem, T.Tokens, ItemKinds;
    if items == [] {
      KindsNone();
    } else {
      ItemShown(items[0], nodes[0]);
      ItemsShown(items[1..], nodes[1..]);
      var rest := T.ItemTokens(nodes[1..]);
      assert [P.BlockEntryToken] + (T.Tokens(nodes[0]) + rest) == [P.BlockEntryToken] + T.Tokens(nodes[0]) + rest;
      KindsJoined([P.BlockEntryToken] + T.Tokens(nodes[0]), rest);
    }
  }

  lemma {:induction false} ItemShown(item: Item, node: T.Syntax)
    requires ShowsItem(item, node)
    ensures KindsOf([P.BlockEntryToken] + T.Tokens(node)) == ItemKinds(item)
    decreases item
  {
    hide KindsOf, Shows, T.Tokens, PageKinds;
    PageShown(item.page, node);
    KindsJoined([P.BlockEntryToken], T.Tokens(node));
    KindsOne(P.BlockEntryToken);
  }

  lemma {:induction false} KindsNone()
    ensures KindsOf([]) == []
  {
  }

  lemma {:induction false} PartShown(part: Part, e: T.Entry)
    requires ShowsPart(part, e)
    ensures KindsOf(T.EntryTokens(e)) == PartKinds(part)
    decreases part
  {
    hide KindsOf, Shows, T.Tokens, PageKinds, T.ValueTokens, ValueKinds;
    match part
    case One(page) => PageShown(page, e.node);
    case Simple(key, colon, value) =>
      PageShown(key, e.key);
      PageShown(value, e.value);
      ValueShown(true, e.value);
      PairShown(T.Tokens(e.key), T.ValueTokens(true, e.value));
    case Explicit(_, key, colon, value) =>
      PageShown(key, e.key);
      PageShown(value, e.value);
      ValueShown(e.colon, e.value);
      PairShown(T.Tokens(e.key), T.ValueTokens(e.colon, e.value));
      assert ValueKinds(colon, value) == (if e.colon then [Value] + PageKinds(value) else []) by {
        ValueKindsAre(colon, value);
      }
  }

  lemma {:induction false} ValueKindsAre(colon: Option<Input>, value: Page)
    ensures ValueKinds(colon, value) == if colon.Some? then [Value] + PageKinds(value) else []
  {
    hide PageKinds;
  }

  lemma {:induction false} ValueShown(colon: bool, value: T.Syntax)
    ensures KindsOf(T.ValueTokens(colon, value)) == if colon then [Value] + KindsOf(T.Tokens(value)) else []
  {
    hide KindsOf, T.Tokens;
    if colon {
      KindsJoined([P.ValueToken], T.Tokens(value));
      KindsOne(P.ValueToken);
    } else {
      KindsNone();
    }
  }

  lemma {:induction false} PairShown(key: seq<P.Token>, rest: seq<P.Token>)
    ensures KindsOf([P.KeyToken] + (key + ([] + rest))) == [Key] + (KindsOf(key) + KindsOf(rest))
  {
    hide KindsOf;
    assert [] + rest == rest;
    KindsJoined([P.KeyToken], key + rest);
    KindsJoined(key, rest);
    KindsOne(P.KeyToken);
  }

  lemma {:induction false} PairsShown(parts: seq<Part>, entries: seq<T.Entry>)
    requires ShowsParts(parts, entries)
    ensures KindsOf(T.PairTokens(entries)) == PairsKinds(parts)
    decreases parts
  {
    hide KindsOf, ShowsPart, T.EntryTokens, PartKinds;
    if parts == [] {
      KindsNone();
    } else {
      PartShown(parts[0], entries[0]);
      PairsShown(parts[1..], entries[1..]);
      KindsJoined(T.EntryTokens(entries[0]), T.PairTokens(entries[1..]));
    }
  }

  /** The entries of a flow collection, up to its end. */
  lemma {:induction false} ListShown(parts: seq<Part>, commas: seq<Input>, entries: seq<T.Entry>, comma: bool,
                                     end: P.Token)
    requires ShowsParts(parts, entries) && (|commas| == |parts| || |commas| + 1 == |parts|)
    requires comma <==> parts != [] && |commas| == |parts|
    ensures KindsOf(T.Listed(entries, comma, true, end)) == PartsKinds(parts, commas) + [KindOf(end)]
    decreases parts, 2
  {
    hide KindsOf, ShowsPart, T.EntryTokens, PartKinds;
    KindsOne(end);
    if parts != [] {
      PartShown(parts[0], entries[0]);
      MoreShown(parts[1..], commas, entries[1..], comma, end);
      var rest := T.Listed(entries[1..], comma, false, end);
      KindsJoined(T.EntryTokens(entries[0]), rest);
      assert [] + (T.EntryTokens(entries[0]) + rest) == T.EntryTokens(entries[0]) + rest;
      var more := if commas == [] then [] else [FlowEntry] + PartsKinds(parts[1..], commas[1..]);
      assert PartKinds(parts[0]) + more + [KindOf(end)] == PartKinds(parts[0]) + (more + [KindOf(end)]);
    } else {
      assert [] + [end] == [end] && [] + [KindOf(end)] == [KindOf(end)];
    }
  }

  lemma {:induction false} MoreShown(parts: seq<Part>, commas: seq<Input>, entries: seq<T.Entry>, comma: bool,
                                     end: P.Token)
    requires ShowsParts(parts, entries) && (|commas| == |parts| + 1 || |commas| == |parts|)
    requires comma <==> |commas| == |parts| + 1
    ensures KindsOf(T.Listed(entries, comma, false, end)) ==
            (if commas == [] then [] else [FlowEntry] + PartsKinds(parts, commas[1..])) + [KindOf(end)]
    decreases parts, 1
  {
    hide KindsOf, ShowsPart, T.EntryTokens, PartKinds;
    KindsOne(end);
    KindsOne(P.FlowEntryToken);
    if parts == [] {
      KindsJoined([P.FlowEntryToken], [end]);
      assert [] + [end] == [end];
      assert commas != [] ==> PartsKinds(parts, commas[1..]) == [];
      assert [FlowEntry] + [] == [FlowEntry] && [] + [KindOf(end)] == [KindOf(end)];
    } else {
      PartShown(parts[0], entries[0]);
      MoreShown(parts[1..], commas[1..], entries[1..], comma, end);
      var rest := T.Listed(entries[1..], comma, false, end);
      KindsJoined([P.FlowEntryToken], T.EntryTokens(entries[0]) + rest);
      KindsJoined(T.EntryTokens(entries[0]), rest);
      var more := if commas[1..] == [] then [] else [FlowEntry] + PartsKinds(parts[1..], commas[1..][1..]);
      assert [FlowEntry] + (PartKinds(parts[0]) + (more + [KindOf(end)])) ==
             [FlowEntry] + (PartKinds(parts[0]) + more) + [KindOf(end)];
    }
  }
}
