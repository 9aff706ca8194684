/**
 The grammar of tokens that the parser of `parser.c` follows, as syntax trees: the tokens that a tree is written
 with, and the events that it stands for.
 */
module TokenGrammar {
  import opened Wrappers
  import opened YamlEvents
  import opened Tags
  import opened ParserMoves

  /** The anchor and the tag of a node, and which of them comes first. */
  datatype Props = Props(anchor: Option<string>, tag: Option<TagName>, tagFirst: bool)

  datatype TagName = TagName(handle: string, suffix: string)

  /** `Missing` is the node that an optional place of the grammar is left without. */
  datatype Syntax =
    | Missing
    | Reference(name: string)
    | Text(props: Props, value: string, style: Style)
    | Hollow(props: Props)
    | BlockSequence(props: Props, items: seq<Syntax>)
    | Indentless(props: Props, items: seq<Syntax>)
    | BlockMapping(props: Props, pairs: seq<Entry>)
    | FlowSequence(props: Props, entries: seq<Entry>, comma: bool)
    | FlowMapping(props: Props, entries: seq<Entry>, comma: bool)

  /**
   A pair is announced by KEY, or it has no key and starts with VALUE; `skipped` is what the parser passes over where
   a flow sequence has a pair without a key.
   */
  datatype Entry =
    | One(node: Syntax)
    | Pair(key: Syntax, skipped: seq<Token>, colon: bool, value: Syntax)
    | Keyless(value: Syntax)

  function PropsTokens(p: Props): seq<Token> {
    var anchor := if p.anchor.Some? then [AnchorToken(p.anchor.value)] else [];
    var tag := if p.tag.Some? then [TagToken(p.tag.value.handle, p.tag.value.suffix)] else [];
    if p.tagFirst then tag + anchor else anchor + tag
  }

  function Tokens(s: Syntax): seq<Token>
    decreases s, 0
  {
    match s
    case Missing => []
    case Reference(name) => [AliasToken(name)]
    case Text(props, value, style) => PropsTokens(props) + [ScalarToken(value, style)]
    case Hollow(props) => PropsTokens(props)
    case BlockSequence(props, items) =>
      PropsTokens(props) + ([BlockSequenceStartToken] + ItemTokens(items) + [BlockEndToken])
    case Indentless(props, items) => PropsTokens(props) + ItemTokens(items)
    case BlockMapping(props, pairs) =>
      PropsTokens(props) + ([BlockMappingStartToken] + PairTokens(pairs) + [BlockEndToken])
    case FlowSequence(props, entries, comma) =>
      PropsTokens(props) + ([FlowSequenceStartToken] + Listed(entries, comma, true, FlowSequenceEndToken))
    case FlowMapping(props, entries, comma) =>
      PropsTokens(props) + ([FlowMappingStartToken] + Listed(entries, comma, true, FlowMappingEndToken))
  }

  function ItemTokens(items: seq<Syntax>): seq<Token>
    decreases items
  {
    if items == [] then [] else [BlockEntryToken] + (Tokens(items[0]) + ItemTokens(items[1..]))
  }

  function EntryTokens(e: Entry): seq<Token>
    decreases e
  {
    match e
    case One(node) => Tokens(node)
    case Pair(key, skipped, colon, value) =>
      [KeyToken] + (Tokens(key) + (skipped + ValueTokens(colon, value)))
    case Keyless(value) => ValueTokens(true, value)
  }

  function ValueTokens(colon: bool, value: Syntax): seq<Token>
    decreases value, 1
  {
    if colon then [ValueToken] + Tokens(value) else []
  }

  function PairTokens(pairs: seq<Entry>): seq<Token>
    decreases pairs
  {
    if pairs == [] then [] else EntryTokens(pairs[0]) + PairTokens(pairs[1..])
  }

  /** The entries of a flow collection, up to the token that ends it. */
  function Listed(entries: seq<Entry>, comma: bool, first: bool, end: Token): seq<Token>
    decreases entries
  {
    if entries == [] then (if comma then [FlowEntryToken] else []) + [end]
    else (if first then [] else [FlowEntryToken]) + (EntryTokens(entries[0]) + Listed(entries[1..], comma, false, end))
  }

  function TagOf(tags: seq<TagDirective>, p: Props): Option<string> {
    match p.tag case None => None case Some(name) => Resolve(tags, name.handle, name.suffix)
  }

  function Events(s: Syntax, tags: seq<TagDirective>): seq<Event>
    decreases s
  {
    match s
    case Missing => [EMPTY_SCALAR]
    case Reference(name) => [Alias(name)]
    case Text(props, value, style) => [ScalarEvent(props.anchor, TagOf(tags, props), value, style)]
    case Hollow(props) => [Scalar(props.anchor, TagOf(tags, props), "", IsImplicit(TagOf(tags, props)), false, Plain)]
    case BlockSequence(props, items) => [Begin(props, tags, true, Block)] + (ItemEvents(items, tags) + [SequenceEnd])
    case Indentless(props, items) => [Begin(props, tags, true, Block)] + (ItemEvents(items, tags) + [SequenceEnd])
    case BlockMapping(props, pairs) =>
      [Begin(props, tags, false, Block)] + (EntryEvents(pairs, tags, false) + [MappingEnd])
    case FlowSequence(props, entries, _) =>
      [Begin(props, tags, true, Flow)] + (EntryEvents(entries, tags, true) + [SequenceEnd])
    case FlowMapping(props, entries, _) =>
      [Begin(props, tags, false, Flow)] + (EntryEvents(entries, tags, false) + [MappingEnd])
  }

  function Begin(p: Props, tags: seq<TagDirective>, sequence: bool, style: Style): Event {
    var tag := TagOf(tags, p);
    if sequence then SequenceStart(p.anchor, tag, IsImplicit(tag), style)
    else MappingStart(p.anchor, tag, IsImplicit(tag), style)
  }

  function ItemEvents(items: seq<Syntax>, tags: seq<TagDirective>): seq<Event>
    decreases items
  {
    if items == [] then [] else Events(items[0], tags) + ItemEvents(items[1..], tags)
  }

  /** In a sequence a pair is a mapping of its own; in a mapping a single node is a key without a value. */
  function EntryEvent(e: Entry, tags: seq<TagDirective>, sequence: bool): seq<Event>
    decreases e
  {
    match e
    case One(node) => Events(node, tags) + (if sequence then [] else [EMPTY_SCALAR])
    case Pair(key, _, _, value) =>
      if sequence then
        [MappingStart(None, None, true, Flow)] + (Events(key, tags) + (Events(value, tags) + [MappingEnd]))
      else Events(key, tags) + Events(value, tags)
    case Keyless(value) => [EMPTY_SCALAR] + Events(value, tags)
  }

  function EntryEvents(entries: seq<Entry>, tags: seq<TagDirective>, sequence: bool): seq<Event>
    decreases entries
  {
    if entries == [] then [] else EntryEvent(entries[0], tags, sequence) + EntryEvents(entries[1..], tags, sequence)
  }

  /** Where a node stands: in block context, as a part of a block mapping's pair, or in flow context. */
  datatype Where = InBlock | InPair | InFlow

  predicate PropsOk(p: Props, tags: seq<TagDirective>) {
    p.tag.Some? ==> TagOf(tags, p).Some?
  }

  /** The trees of the grammar: what is nested where, and tags whose handles are known. */
  predicate Fits(s: Syntax, tags: seq<TagDirective>, w: Where)
    decreases s, 0
  {
    match s
    case Missing => false
    case Reference(_) => true
    case Text(props, _, _) => PropsOk(props, tags)
    case Hollow(props) => PropsOk(props, tags) && (props.anchor.Some? || props.tag.Some?)
    case BlockSequence(props, items) =>
      PropsOk(props, tags) && w != InFlow && forall i :: 0 <= i < |items| ==> MayFit(items[i], tags, InBlock)
    case Indentless(props, items) =>
      && PropsOk(props, tags) && w == InPair && items != []
      && forall i :: 0 <= i < |items| ==> MayFit(items[i], tags, InBlock)
    case BlockMapping(props, pairs) =>
      && PropsOk(props, tags) && w != InFlow
      && forall i :: 0 <= i < |pairs| ==> pairs[i].Pair? && PairFits(pairs[i], tags, InPair) && pairs[i].skipped == []
    case FlowSequence(props, entries, comma) =>
      && PropsOk(props, tags) && (entries == [] ==> !comma)
      && forall i :: 0 <= i < |entries| ==>
           && EntryFits(entries[i], tags)
           && (entries[i].Pair? ==> SkipFits(entries[i], i == |entries| - 1 && !comma))
    case FlowMapping(props, entries, comma) =>
      && PropsOk(props, tags) && (entries == [] ==> !comma)
      && forall i :: 0 <= i < |entries| ==>
           EntryFits(entries[i], tags) && (entries[i].Pair? ==> entries[i].skipped == [])
  }

  predicate MayFit(s: Syntax, tags: seq<TagDirective>, w: Where)
    decreases s, 1
  {
    s.Missing? || Fits(s, tags, w)
  }

  predicate PairFits(e: Entry, tags: seq<TagDirective>, w: Where)
    requires e.Pair?
    decreases e, 0
  {
    MayFit(e.key, tags, w) && MayFit(e.value, tags, w) && (!e.colon ==> e.value.Missing?)
  }

  /** Pairs of a block mapping that the parser takes. */
  predicate PairsFit(pairs: seq<Entry>, tags: seq<TagDirective>) {
    forall i :: 0 <= i < |pairs| ==> pairs[i].Pair? && PairFits(pairs[i], tags, InPair) && pairs[i].skipped == []
  }

  predicate EntryFits(e: Entry, tags: seq<TagDirective>)
    decreases e, 1
  {
    match e
    case One(node) => Fits(node, tags, InFlow)
    case Pair(_, _, _, _) => PairFits(e, tags, InFlow)
    case Keyless(_) => false
  }

  /** A pair of a flow sequence has its key, or a token in the place of it, or nothing at all before the end. */
  predicate SkipFits(e: Entry, last: bool)
    requires e.Pair?
  {
    if e.key.Missing? then
      e.skipped == [ValueToken] || e.skipped == [FlowEntryToken] || (e.skipped == [] && !e.colon && last)
    else e.skipped == []
  }

  /** A document, with what is before it and the end markers after it. */
  datatype Doc = Doc(marked: bool, directives: seq<Token>, root: Syntax, ends: nat)

  /** The tag directives after these directives, if they may stand together. */
  function TagsAfter(directives: seq<Token>, tags: seq<TagDirective>, versionSeen: bool): Option<seq<TagDirective>>
    decreases |directives|
  {
    if directives == [] then Some(tags)
    else
      match directives[0]
      case VersionDirectiveToken(major, minor) =>
        if versionSeen || major != 1 || (minor != 1 && minor != 2) then None else TagsAfter(directives[1..], tags, true)
      case TagDirectiveToken(handle, prefix) =>
        if HasHandle(tags, handle) then None
        else TagsAfter(directives[1..], tags + [TagDirective(handle, prefix)], versionSeen)
      case _ => None
  }

  /** The tag directives in force in a document. */
  function DocTags(d: Doc): seq<TagDirective> {
    match TagsAfter(d.directives, [], false) case None => [] case Some(tags) => WithDefaults(tags)
  }

  predicate DocFits(d: Doc) {
    if d.marked then TagsAfter(d.directives, [], false).Some? && MayFit(d.root, DocTags(d), InBlock)
    else d.directives == [] && Fits(d.root, DocTags(d), InBlock)
  }

  function Ends(n: nat): seq<Token> {
    if n == 0 then [] else [DocumentEndToken] + Ends(n - 1)
  }

  function HeadTokens(d: Doc): seq<Token> {
    if d.marked then d.directives + [DocumentStartToken] else []
  }

  function DocTokens(d: Doc): seq<Token> {
    HeadTokens(d) + (Tokens(d.root) + Ends(d.ends))
  }

  function StartEvent(directives: seq<Token>, marked: bool): Event {
    DocumentStart(VersionIn(directives, 0), TagsIn(directives, 0), !marked)
  }

  function DocEvents(d: Doc): seq<Event> {
    [StartEvent(d.directives, d.marked)] + (Events(d.root, DocTags(d)) + [DocumentEnd(d.ends == 0)])
  }

  function DocsTokens(docs: seq<Doc>): seq<Token> {
    if docs == [] then [] else DocTokens(docs[0]) + DocsTokens(docs[1..])
  }

  function DocsEvents(docs: seq<Doc>): seq<Event> {
    if docs == [] then [] else DocEvents(docs[0]) + DocsEvents(docs[1..])
  }

  /** Only the first document can do without a marker. */
  predicate StreamFits(docs: seq<Doc>) {
    forall i :: 0 <= i < |docs| ==> DocFits(docs[i]) && (i > 0 ==> docs[i].marked)
  }

  function StreamTokens(docs: seq<Doc>): seq<Token> {
    [StreamStartToken] + (DocsTokens(docs) + [StreamEndToken])
  }

  function StreamEventsOf(docs: seq<Doc>): seq<Event> {
    [StreamStart] + (DocsEvents(docs) + [StreamEnd])
  }
}
