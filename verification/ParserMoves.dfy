/**
 The moves of the parser of `parser.c`: for every state, what the next tokens make of it, as a
 function of the state, the stack of states and the tag directives in force.
 */
module ParserMoves {
  import opened Wrappers
  import opened YamlEvents
  import opened Tags

  datatype Token =
    | StreamStartToken
    | StreamEndToken
    | VersionDirectiveToken(major: int, minor: int)
    | TagDirectiveToken(handle: string, prefix: string)
    | DocumentStartToken
    | DocumentEndToken
    | BlockSequenceStartToken
    | BlockMappingStartToken
    | BlockEndToken
    | FlowSequenceStartToken
    | FlowSequenceEndToken
    | FlowMappingStartToken
    | FlowMappingEndToken
    | BlockEntryToken
    | FlowEntryToken
    | KeyToken
    | ValueToken
    | AliasToken(value: string)
    | AnchorToken(value: string)
    | TagToken(handle: string, suffix: string)
    | ScalarToken(value: string, style: Style)

  datatype State =
    | StreamStartState
    | ImplicitDocumentStartState
    | DocumentStartState
    | DocumentContentState
    | DocumentEndState
    | BlockNodeState
    | BlockSequenceFirstEntryState
    | BlockSequenceEntryState
    | IndentlessSequenceEntryState
    | BlockMappingFirstKeyState
    | BlockMappingKeyState
    | BlockMappingValueState
    | FlowSequenceFirstEntryState
    | FlowSequenceEntryState
    | FlowSequenceEntryMappingKeyState
    | FlowSequenceEntryMappingValueState
    | FlowSequenceEntryMappingEndState
    | FlowMappingFirstKeyState
    | FlowMappingKeyState
    | FlowMappingValueState
    | FlowMappingEmptyValueState
    | EndState

  /** Where a parser is: the tokens before `head` are consumed. */
  datatype Config = Config(state: State, states: seq<State>, head: nat, tags: seq<TagDirective>)

  /** An event, and where the parser is after it. */
  datatype Move = Move(event: Event, next: Config)

  const BARE_START := DocumentStart(None, [], true)

  const EMPTY_SCALAR := Scalar(None, None, "", true, false, Plain)

  /** The token at a place, where the tokens go on that far. */
  function At(ts: seq<Token>, i: nat): Option<Token> {
    if i < |ts| then Some(ts[i]) else None
  }

  /** Back to the state on top of the stack. */
  function Popped(c: Config): Config {
    if c.states == [] then c
    else c.(state := c.states[|c.states| - 1], states := c.states[..|c.states| - 1])
  }

  function Skipped(c: Config): Config {
    c.(head := c.head + 1)
  }

  function Empty(c: Config, next: State): Option<Move> {
    Some(Move(EMPTY_SCALAR, c.(state := next)))
  }

  function Opened(c: Config, first: State, event: Event): Option<Move> {
    Some(Move(event, c.(state := first)))
  }

  function Closed(c: Config, event: Event): Option<Move> {
    Some(Move(event, Popped(c)))
  }

  function FromStreamStart(ts: seq<Token>, c: Config): Option<Move> {
    if At(ts, c.head) == Some(StreamStartToken) then
      Some(Move(StreamStart, Skipped(c).(state := ImplicitDocumentStartState)))
    else None
  }

  predicate IsDirective(t: Token) {
    t.VersionDirectiveToken? || t.TagDirectiveToken?
  }

  /** The directives from a place on: where they end, and the tag directives there are then. */
  function Directives(ts: seq<Token>, head: nat, tags: seq<TagDirective>, versionSeen: bool): Option<Config>
    decreases |ts| - head
  {
    match At(ts, head)
    case None => None
    case Some(VersionDirectiveToken(major, minor)) =>
      if versionSeen || major != 1 || (minor != 1 && minor != 2) then None
      else Directives(ts, head + 1, tags, true)
    case Some(TagDirectiveToken(handle, prefix)) =>
      if HasHandle(tags, handle) then None
      else Directives(ts, head + 1, tags + [TagDirective(handle, prefix)], versionSeen)
    case Some(_) => Some(Config(BlockNodeState, [DocumentEndState], head, WithDefaults(tags)))
  }

  /** The version that the directives from a place on give. */
  function VersionIn(ts: seq<Token>, head: nat): Option<Version>
    decreases |ts| - head
  {
    match At(ts, head)
    case Some(VersionDirectiveToken(major, minor)) => Some(Version(major, minor))
    case Some(TagDirectiveToken(_, _)) => VersionIn(ts, head + 1)
    case _ => None
  }

  /** The tag directives from a place on, in order. */
  function TagsIn(ts: seq<Token>, head: nat): seq<TagDirective>
    decreases |ts| - head
  {
    match At(ts, head)
    case Some(VersionDirectiveToken(_, _)) => TagsIn(ts, head + 1)
    case Some(TagDirectiveToken(handle, prefix)) => [TagDirective(handle, prefix)] + TagsIn(ts, head + 1)
    case _ => []
  }

  /** Past the document end markers. */
  function AfterEnds(ts: seq<Token>, head: nat): (r: nat)
    ensures r >= head
    decreases |ts| - head
  {
    if At(ts, head) == Some(DocumentEndToken) then AfterEnds(ts, head + 1) else head
  }

  /** A document that starts without a marker. */
  function Bare(ts: seq<Token>, c: Config): Option<Move> {
    match Directives(ts, c.head, c.tags, false)
    case None => None
    case Some(d) => Some(Move(BARE_START, d))
  }

  /** A document that starts with directives or a marker. */
  function Marked(ts: seq<Token>, c: Config): Option<Move> {
    match Directives(ts, c.head, c.tags, false)
    case None => None
    case Some(d) =>
      if At(ts, d.head) == Some(DocumentStartToken) then
        Some(Move(DocumentStart(VersionIn(ts, c.head), TagsIn(ts, c.head), false),
                  Skipped(d).(state := DocumentContentState)))
      else None
  }

  function FromDocumentStart(ts: seq<Token>, c: Config, implicit: bool): Option<Move> {
    FromDocument(ts, if implicit then c else c.(head := AfterEnds(ts, c.head)), implicit)
  }

  function FromDocument(ts: seq<Token>, c: Config, implicit: bool): Option<Move> {
    match At(ts, c.head)
    case None => None
    case Some(t) =>
      if implicit && !IsDirective(t) && !t.DocumentStartToken? && !t.StreamEndToken? then Bare(ts, c)
      else if !t.StreamEndToken? then Marked(ts, c)
      else Some(Move(StreamEnd, Skipped(c).(state := EndState)))
  }

  function FromDocumentContent(ts: seq<Token>, c: Config): Option<Move> {
    match At(ts, c.head)
    case None => None
    case Some(t) =>
      if IsDirective(t) || t.DocumentStartToken? || t.DocumentEndToken? || t.StreamEndToken? then
        Some(Move(EMPTY_SCALAR, Popped(c)))
      else FromNode(ts, c, true, false)
  }

  function FromDocumentEnd(ts: seq<Token>, c: Config): Option<Move> {
    match At(ts, c.head)
    case None => None
    case Some(t) =>
      var after := if t.DocumentEndToken? then Skipped(c) else c;
      Some(Move(DocumentEnd(!t.DocumentEndToken?), after.(state := DocumentStartState, tags := [])))
  }

  /** What a node has before its content. */
  datatype Properties = Properties(anchor: Option<string>, tag: Option<Token>, head: nat)

  function ReadProperties(ts: seq<Token>, head: nat): Option<Properties> {
    match At(ts, head)
    case None => None
    case Some(AnchorToken(name)) =>
      (match At(ts, head + 1)
       case None => None
       case Some(t) =>
         if !t.TagToken? then Some(Properties(Some(name), None, head + 1))
         else if head + 2 < |ts| then Some(Properties(Some(name), Some(t), head + 2)) else None)
    case Some(TagToken(handle, suffix)) =>
      (match At(ts, head + 1)
       case None => None
       case Some(t) =>
         if !t.AnchorToken? then Some(Properties(None, Some(TagToken(handle, suffix)), head + 1))
         else if head + 2 < |ts| then Some(Properties(Some(t.value), Some(TagToken(handle, suffix)), head + 2))
           else None)
    case Some(_) => Some(Properties(None, None, head))
  }

  function IsImplicit(tag: Option<string>): bool {
    tag == None || tag.value == ""
  }

  function ScalarEvent(anchor: Option<string>, tag: Option<string>, value: string, style: Style): Event {
    var plain := (style == Plain && tag == None) || tag == Some("!");
    Scalar(anchor, tag, value, plain, !plain && tag == None, style)
  }

  /** A node, from its content on. */
  function FromContent(ts: seq<Token>, c: Config, block: bool, anchor: Option<string>,
                       tag: Option<string>): Option<Move> {
    var implicit := IsImplicit(tag);
    match At(ts, c.head)
    case None => None
    case Some(ScalarToken(value, style)) => Some(Move(ScalarEvent(anchor, tag, value, style), Skipped(Popped(c))))
    case Some(FlowSequenceStartToken) => Opened(c, FlowSequenceFirstEntryState,
                                                SequenceStart(anchor, tag, implicit, Flow))
    case Some(FlowMappingStartToken) => Opened(c, FlowMappingFirstKeyState, MappingStart(anchor, tag, implicit, Flow))
    case Some(t) =>
      if block && t.BlockSequenceStartToken? then
        Opened(c, BlockSequenceFirstEntryState, SequenceStart(anchor, tag, implicit, Block))
      else if block && t.BlockMappingStartToken? then
        Opened(c, BlockMappingFirstKeyState, MappingStart(anchor, tag, implicit, Block))
      else if anchor.Some? || tag.Some? then
        Some(Move(Scalar(anchor, tag, "", implicit, false, Plain), Popped(c)))
      else None
  }

  /** A node, from the end of its properties on. */
  function FromProperties(ts: seq<Token>, c: Config, block: bool, indentless: bool, anchor: Option<string>,
                          tagged: Option<Token>)
    : Option<Move>
  {
    var tag := match tagged case Some(TagToken(handle, suffix)) => Resolve(c.tags, handle, suffix) case _ => None;
    if tagged.Some? && tag == None then None
    else if indentless && At(ts, c.head) == Some(BlockEntryToken) then
      Opened(c, IndentlessSequenceEntryState, SequenceStart(anchor, tag, IsImplicit(tag), Block))
    else FromContent(ts, c, block, anchor, tag)
  }

  /** A node: the state to return to is on the stack. */
  function FromNode(ts: seq<Token>, c: Config, block: bool, indentless: bool): Option<Move> {
    match At(ts, c.head)
    case None => None
    case Some(AliasToken(name)) => Some(Move(Alias(name), Skipped(Popped(c))))
    case Some(_) =>
      match ReadProperties(ts, c.head)
      case None => None
      case Some(p) => FromProperties(ts, c.(head := p.head), block, indentless, p.anchor, p.tag)
  }

  /** A node, and then state `next`. */
  function Node(ts: seq<Token>, c: Config, next: State, block: bool, indentless: bool): Option<Move> {
    FromNode(ts, c.(states := c.states + [next]), block, indentless)
  }

  /** What follows the token that announces a node: the node, unless the next token shows that there is none. */
  function Optional(ts: seq<Token>, c: Config, next: State, block: bool, indentless: bool,
                    none: set<Token>): Option<Move> {
    match At(ts, c.head)
    case None => None
    case Some(t) => if t in none then Empty(c, next) else Node(ts, c, next, block, indentless)
  }

  const NO_BLOCK_ENTRY := {BlockEntryToken, BlockEndToken}
  const NO_INDENTLESS_ENTRY := {BlockEntryToken, KeyToken, ValueToken, BlockEndToken}
  const NO_BLOCK_PART := {KeyToken, ValueToken, BlockEndToken}
  const NO_PAIR_VALUE := {FlowEntryToken, FlowSequenceEndToken}
  const NO_FLOW_KEY := {ValueToken, FlowEntryToken, FlowMappingEndToken}
  const NO_FLOW_VALUE := {FlowEntryToken, FlowMappingEndToken}

  function FromBlockSequence(ts: seq<Token>, c: Config): Option<Move> {
    match At(ts, c.head)
    case Some(BlockEntryToken) => Optional(ts, Skipped(c), BlockSequenceEntryState, true, false, NO_BLOCK_ENTRY)
    case Some(BlockEndToken) => Closed(Skipped(c), SequenceEnd)
    case _ => None
  }

  function FromIndentless(ts: seq<Token>, c: Config): Option<Move> {
    match At(ts, c.head)
    case None => None
    case Some(BlockEntryToken) => Optional(ts, Skipped(c), IndentlessSequenceEntryState, true, false,
                                           NO_INDENTLESS_ENTRY)
    case Some(_) => Closed(c, SequenceEnd)
  }

  function FromBlockKey(ts: seq<Token>, c: Config): Option<Move> {
    match At(ts, c.head)
    case Some(KeyToken) => Optional(ts, Skipped(c), BlockMappingValueState, true, true, NO_BLOCK_PART)
    case Some(BlockEndToken) => Closed(Skipped(c), MappingEnd)
    case _ => None
  }

  function FromBlockValue(ts: seq<Token>, c: Config): Option<Move> {
    match At(ts, c.head)
    case None => None
    case Some(ValueToken) => Optional(ts, Skipped(c), BlockMappingKeyState, true, true, NO_BLOCK_PART)
    case Some(_) => Empty(c, BlockMappingKeyState)
  }

  /** Inside a flow collection, past the comma that every entry but the first needs. */
  function PastComma(ts: seq<Token>, c: Config, first: bool, end: Token): Option<Config> {
    match At(ts, c.head)
    case None => None
    case Some(t) =>
      if first || t == end then Some(c)
      else if t.FlowEntryToken? && c.head + 1 < |ts| then Some(Skipped(c))
      else None
  }

  function FromFlowSequence(ts: seq<Token>, c: Config, first: bool): Option<Move> {
    match PastComma(ts, c, first, FlowSequenceEndToken)
    case None => None
    case Some(d) =>
      match At(ts, d.head)
      case None => None
      case Some(FlowSequenceEndToken) => Closed(Skipped(d), SequenceEnd)
      case Some(KeyToken) =>
        Opened(Skipped(d), FlowSequenceEntryMappingKeyState, MappingStart(None, None, true, Flow))
      case Some(_) => Node(ts, d, FlowSequenceEntryState, false, false)
  }

  /** The key of a pair in a flow sequence; where there is none, a token that shows it is skipped. */
  function FromPairKey(ts: seq<Token>, c: Config): Option<Move> {
    match At(ts, c.head)
    case None => None
    case Some(FlowSequenceEndToken) => Empty(c, FlowSequenceEntryMappingValueState)
    case Some(ValueToken) => Empty(Skipped(c), FlowSequenceEntryMappingValueState)
    case Some(FlowEntryToken) => Empty(Skipped(c), FlowSequenceEntryMappingValueState)
    case Some(_) => Node(ts, c, FlowSequenceEntryMappingValueState, false, false)
  }

  function FromPairValue(ts: seq<Token>, c: Config): Option<Move> {
    match At(ts, c.head)
    case None => None
    case Some(ValueToken) => Optional(ts, Skipped(c), FlowSequenceEntryMappingEndState, false, false, NO_PAIR_VALUE)
    case Some(_) => Empty(c, FlowSequenceEntryMappingEndState)
  }

  function FromPairEnd(ts: seq<Token>, c: Config): Option<Move> {
    match At(ts, c.head)
    case None => None
    case Some(_) => Some(Move(MappingEnd, c.(state := FlowSequenceEntryState)))
  }

  function FromFlowKey(ts: seq<Token>, c: Config, first: bool): Option<Move> {
    match PastComma(ts, c, first, FlowMappingEndToken)
    case None => None
    case Some(d) =>
      match At(ts, d.head)
      case None => None
      case Some(FlowMappingEndToken) => Closed(Skipped(d), MappingEnd)
      case Some(KeyToken) => Optional(ts, Skipped(d), FlowMappingValueState, false, false, NO_FLOW_KEY)
      case Some(_) => Node(ts, d, FlowMappingEmptyValueState, false, false)
  }

  function FromFlowValue(ts: seq<Token>, c: Config, empty: bool): Option<Move> {
    match At(ts, c.head)
    case None => None
    case Some(t) =>
      if !empty && t.ValueToken? then Optional(ts, Skipped(c), FlowMappingKeyState, false, false, NO_FLOW_VALUE)
      else Empty(c, FlowMappingKeyState)
  }

  /** `yaml_parser_state_machine`; no move is an error. */
  function Next(ts: seq<Token>, c: Config): Option<Move> {
    match c.state
    case StreamStartState => FromStreamStart(ts, c)
    case ImplicitDocumentStartState => FromDocumentStart(ts, c, true)
    case DocumentStartState => FromDocumentStart(ts, c, false)
    case DocumentContentState => FromDocumentContent(ts, c)
    case DocumentEndState => FromDocumentEnd(ts, c)
    case BlockNodeState => FromNode(ts, c, true, false)
    case BlockSequenceFirstEntryState => FromBlockSequence(ts, Skipped(c))
    case BlockSequenceEntryState => FromBlockSequence(ts, c)
    case IndentlessSequenceEntryState => FromIndentless(ts, c)
    case BlockMappingFirstKeyState => FromBlockKey(ts, Skipped(c))
    case BlockMappingKeyState => FromBlockKey(ts, c)
    case BlockMappingValueState => FromBlockValue(ts, c)
    case FlowSequenceFirstEntryState => FromFlowSequence(ts, Skipped(c), true)
    case FlowSequenceEntryState => FromFlowSequence(ts, c, false)
    case FlowSequenceEntryMappingKeyState => FromPairKey(ts, c)
    case FlowSequenceEntryMappingValueState => FromPairValue(ts, c)
    case FlowSequenceEntryMappingEndState => FromPairEnd(ts, c)
    case FlowMappingFirstKeyState => FromFlowKey(ts, Skipped(c), true)
    case FlowMappingKeyState => FromFlowKey(ts, c, false)
    case FlowMappingValueState => FromFlowValue(ts, c, false)
    case FlowMappingEmptyValueState => FromFlowValue(ts, c, true)
    case EndState => None
  }

  const FIRST := Config(StreamStartState, [], 0, [])

  /** The moves from `c` give these events, and lead to `d`. */
  ghost predicate Yields(ts: seq<Token>, c: Config, events: seq<Event>, d: Config)
    decreases |events|
  {
    if events == [] then c == d
    else
      match Next(ts, c)
      case None => false
      case Some(m) => m.event == events[0] && Yields(ts, m.next, events[1..], d)
  }

  lemma {:induction false} YieldsOne(ts: seq<Token>, c: Config, m: Move)
    requires Next(ts, c) == Some(m)
    ensures Yields(ts, c, [m.event], m.next)
  {
    hide Next;
    assert [m.event][1..] == [];
  }

  lemma {:induction false} YieldsBoth(ts: seq<Token>, c: Config, a: seq<Event>, d: Config, b: seq<Event>, e: Config)
    requires Yields(ts, c, a, d) && Yields(ts, d, b, e)
    ensures Yields(ts, c, a + b, e)
    decreases |a|
  {
    hide Next;
    if a == [] {
      assert a + b == b;
    } else {
      assert (a + b)[1..] == a[1..] + b;
      YieldsBoth(ts, Next(ts, c).value.next, a[1..], d, b, e);
    }
  }

  lemma {:induction false} YieldsMore(ts: seq<Token>, c: Config, a: seq<Event>, d: Config, m: Move)
    requires Yields(ts, c, a, d) && Next(ts, d) == Some(m)
    ensures Yields(ts, c, a + [m.event], m.next)
  {
    hide Next;
    YieldsOne(ts, d, m);
    YieldsBoth(ts, c, a, d, [m.event], m.next);
  }

  /** A parser that stops has given the events it had to give, and none after them. */
  lemma {:induction false} YieldsUnique(ts: seq<Token>, c: Config, a: seq<Event>, d: Config, b: seq<Event>, e: Config)
    requires Yields(ts, c, a, d) && Yields(ts, c, b, e) && Next(ts, d) == None && Next(ts, e) == None
    ensures a == b && d == e
    decreases |a|
  {
    hide Next;
    if a != [] && b != [] {
      YieldsUnique(ts, Next(ts, c).value.next, a[1..], d, b[1..], e);
      assert a == [a[0]] + a[1..] && b == [b[0]] + b[1..];
    }
  }
}
