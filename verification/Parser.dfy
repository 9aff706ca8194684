/**
 The parser of `parser.c`: a pushdown machine from tokens to events, with a stack of states to
 return to and a stack of marks for error messages.
 */
module Parser {
  import opened Wrappers
  import opened YamlEvents
  import opened Tags
  import opened EventGrammar
  import opened ParserMoves

  /** The collections a state is in the middle of. */
  function FramesOf(s: State): seq<Frame> {
    match s
    case BlockSequenceFirstEntryState => [InSequence]
    case BlockSequenceEntryState => [InSequence]
    case IndentlessSequenceEntryState => [InSequence]
    case BlockMappingFirstKeyState => [AtKey]
    case BlockMappingKeyState => [AtKey]
    case BlockMappingValueState => [AtValue]
    case FlowSequenceFirstEntryState => [InSequence]
    case FlowSequenceEntryState => [InSequence]
    case FlowSequenceEntryMappingKeyState => [InSequence, AtKey]
    case FlowSequenceEntryMappingValueState => [InSequence, AtValue]
    case FlowSequenceEntryMappingEndState => [InSequence, AtKey]
    case FlowMappingFirstKeyState => [AtKey]
    case FlowMappingKeyState => [AtKey]
    case FlowMappingValueState => [AtValue]
    case FlowMappingEmptyValueState => [AtValue]
    case _ => []
  }

  predicate IsFirst(s: State) {
    || s == BlockSequenceFirstEntryState || s == BlockMappingFirstKeyState
    || s == FlowSequenceFirstEntryState || s == FlowMappingFirstKeyState
  }

  /** The states that are pushed to be returned to. */
  predicate IsReturn(s: State) {
    FramesOf(s) != [] && !IsFirst(s) && s != FlowSequenceEntryMappingKeyState
  }

  /** How many marks a state has on the stack of marks. */
  function MarksOf(s: State): nat {
    if FramesOf(s) == [] || IsFirst(s) || s == IndentlessSequenceEntryState then 0 else 1
  }

  ghost function OpenFrames(stack: seq<State>): seq<Frame> {
    if stack == [] then [] else OpenFrames(stack[..|stack| - 1]) + FramesOf(stack[|stack| - 1])
  }

  ghost function MarkCount(stack: seq<State>): nat {
    if stack == [] then 0 else MarkCount(stack[..|stack| - 1]) + MarksOf(stack[|stack| - 1])
  }

  /** An indentless sequence occurs only inside a block mapping. */
  predicate FollowOk(below: State, s: State) {
    s == IndentlessSequenceEntryState ==> below == BlockMappingKeyState || below == BlockMappingValueState
  }

  /** The stack of states while a document is being parsed. */
  ghost predicate StackOk(states: seq<State>) {
    && |states| > 0
    && states[0] == DocumentEndState
    && (forall k :: 1 <= k < |states| ==> IsReturn(states[k]))
    && (forall k :: 1 <= k < |states| ==> FollowOk(states[k - 1], states[k]))
  }

  ghost predicate StateOk(state: State, states: seq<State>) {
    match state
    case StreamStartState => states == []
    case ImplicitDocumentStartState => states == []
    case DocumentStartState => states == []
    case DocumentEndState => states == []
    case EndState => states == []
    case DocumentContentState => states == [DocumentEndState]
    case BlockNodeState => states == [DocumentEndState]
    case _ => StackOk(states) && FollowOk(states[|states| - 1], state)
  }

  /** The point of the event stream that a state and its stack stand for. */
  ghost function PositionOf(state: State, states: seq<State>): (p: Pos)
    ensures PosOk(p)
  {
    match state
    case StreamStartState => AtStart
    case ImplicitDocumentStartState => BetweenDocuments
    case DocumentStartState => BetweenDocuments
    case DocumentContentState => AtRoot
    case BlockNodeState => AtRoot
    case EndState => AtEnd
    case _ => Outside(OpenFrames(states + [state]))
  }

  /** Bounds the number of events until a token is consumed. */
  function Potential(s: State): nat {
    match s
    case ImplicitDocumentStartState => 2
    case DocumentContentState => 2
    case DocumentEndState => 1
    case BlockNodeState => 1
    case IndentlessSequenceEntryState => 2
    case BlockMappingValueState => 1
    case FlowSequenceEntryMappingKeyState => 3
    case FlowSequenceEntryMappingValueState => 2
    case FlowSequenceEntryMappingEndState => 1
    case FlowMappingValueState => 1
    case FlowMappingEmptyValueState => 1
    case _ => 0
  }

  /** A collection that has just been announced has its opening token still ahead. */
  ghost predicate FirstOk(state: State, tokens: seq<Token>, head: nat) {
    IsFirst(state) ==>
      && head < |tokens|
      && (state == BlockSequenceFirstEntryState ==> tokens[head].BlockSequenceStartToken?)
      && (state == BlockMappingFirstKeyState ==> tokens[head].BlockMappingStartToken?)
      && (state == FlowSequenceFirstEntryState ==> tokens[head].FlowSequenceStartToken?)
      && (state == FlowMappingFirstKeyState ==> tokens[head].FlowMappingStartToken?)
  }

  /** The number of marks that go with a state and a stack, if these go together. */
  ghost function Marks(state: State, states: seq<State>): Option<nat> {
    if StateOk(state, states) then Some(MarkCount(states + [state])) else None
  }

  lemma {:induction false} NoFrames(s: State)
    requires FramesOf(s) == []
    ensures MarkCount([] + [s]) == 0 && MarkCount([DocumentEndState] + [s]) == 0
    ensures OpenFrames([] + [s]) == []
  {
    assert [] + [s] == [s] && [s][..0] == [];
    assert MarkCount([s]) == 0;
    assert ([DocumentEndState] + [s])[..1] == [DocumentEndState];
    assert [DocumentEndState][..0] == [];
  }

  /** The stack that goes with a state outside of collections. */
  function OuterStack(s: State): seq<State> {
    if s == DocumentContentState || s == BlockNodeState then [DocumentEndState] else []
  }

  lemma {:induction false} OuterMarks(s: State, states: seq<State>, marks: nat)
    requires FramesOf(s) == []
    ensures Marks(s, states) == Some(marks) <==> states == OuterStack(s) && marks == 0
    ensures s == DocumentEndState ==> PositionOf(s, []) == RootDone
  {
    NoFrames(s);
    hide MarkCount, OpenFrames;
  }

  lemma {:induction false} PushFrames(states: seq<State>, s: State)
    ensures OpenFrames(states + [s]) == OpenFrames(states) + FramesOf(s)
    ensures MarkCount(states + [s]) == MarkCount(states) + MarksOf(s)
  {
    assert (states + [s])[..|states|] == states;
  }

  /** The frames of a state once a node is complete in the innermost of them. */
  function Advanced(frames: seq<Frame>): seq<Frame>
    requires frames != []
  {
    frames[..|frames| - 1] + [Advance(frames[|frames| - 1])]
  }

  predicate InCollection(s: State) {
    FramesOf(s) != [] && !IsFirst(s)
  }

  /** Once a node is complete inside the innermost collection, state `s` gives way to state `next`. */
  predicate Leads(s: State, next: State) {
    && InCollection(s) && IsReturn(next) && MarksOf(s) == MarksOf(next)
    && FramesOf(next) == Advanced(FramesOf(s)) && (next == IndentlessSequenceEntryState ==> s == next)
  }

  /** In state `s` the innermost collection may end with event `e`. */
  predicate EndsWith(s: State, e: Event) {
    && InCollection(s)
    && ((FramesOf(s) == [InSequence] && e == SequenceEnd) || (FramesOf(s) == [AtKey] && e == MappingEnd))
  }

  /** State `s` is the one before the opening token of a collection, state `next` the one past it. */
  predicate Begins(s: State, next: State) {
    IsFirst(s) && InCollection(next) && next != IndentlessSequenceEntryState && FramesOf(s) == FramesOf(next)
  }

  lemma {:induction false} FirstTable()
    ensures Begins(BlockSequenceFirstEntryState, BlockSequenceEntryState)
    ensures Begins(BlockMappingFirstKeyState, BlockMappingKeyState)
    ensures Begins(FlowSequenceFirstEntryState, FlowSequenceEntryState)
    ensures Begins(FlowMappingFirstKeyState, FlowMappingKeyState)
  {
  }

  lemma {:induction false} BlockTable()
    ensures Leads(BlockSequenceEntryState, BlockSequenceEntryState) && EndsWith(BlockSequenceEntryState, SequenceEnd)
    ensures Leads(IndentlessSequenceEntryState, IndentlessSequenceEntryState)
    ensures EndsWith(IndentlessSequenceEntryState, SequenceEnd)
    ensures Leads(BlockMappingKeyState, BlockMappingValueState) && EndsWith(BlockMappingKeyState, MappingEnd)
    ensures Leads(BlockMappingValueState, BlockMappingKeyState)
    ensures MarksOf(BlockSequenceEntryState) == 1 && MarksOf(BlockMappingKeyState) == 1
    ensures MarksOf(IndentlessSequenceEntryState) == 0
  {
    hide Advanced;
    AdvancedTable();
  }

  lemma {:induction false} FlowSequenceTable()
    ensures Leads(FlowSequenceEntryState, FlowSequenceEntryState) && EndsWith(FlowSequenceEntryState, SequenceEnd)
    ensures Leads(FlowSequenceEntryMappingKeyState, FlowSequenceEntryMappingValueState)
    ensures Leads(FlowSequenceEntryMappingValueState, FlowSequenceEntryMappingEndState)
    ensures MarksOf(FlowSequenceEntryState) == 1
  {
    hide Advanced;
    AdvancedTable();
  }

  lemma {:induction false} FlowMappingTable()
    ensures Leads(FlowMappingKeyState, FlowMappingValueState) && Leads(FlowMappingKeyState, FlowMappingEmptyValueState)
    ensures Leads(FlowMappingValueState, FlowMappingKeyState) && Leads(FlowMappingEmptyValueState, FlowMappingKeyState)
    ensures EndsWith(FlowMappingKeyState, MappingEnd) && MarksOf(FlowMappingKeyState) == 1
  {
    hide Advanced;
    AdvancedTable();
  }

  /** The number of marks that go with a stack of states to return to, if it is one. */
  ghost function Depth(stack: seq<State>): Option<nat> {
    if StackOk(stack) then Some(MarkCount(stack)) else None
  }

  /** A node is expected at `p`, and `stack` says where to go when it is complete. */
  ghost predicate Expecting(p: Pos, stack: seq<State>) {
    PosOk(p) && ExpectsNode(p) && Around(p) == OpenFrames(stack)
  }

  lemma {:induction false} InsidePosition(s: State, states: seq<State>, n: nat)
    requires Marks(s, states) == Some(n) && FramesOf(s) != []
    ensures PositionOf(s, states) == Inside(OpenFrames(states) + FramesOf(s))
    ensures StackOk(states) && FollowOk(states[|states| - 1], s) && n == MarkCount(states) + MarksOf(s)
  {
    PushFrames(states, s);
  }

  lemma {:induction false} InsideMarks(s: State, states: seq<State>)
    requires StackOk(states) && FollowOk(states[|states| - 1], s) && FramesOf(s) != []
    ensures Marks(s, states) == Some(MarkCount(states) + MarksOf(s))
    ensures PositionOf(s, states) == Inside(OpenFrames(states) + FramesOf(s))
  {
    PushFrames(states, s);
  }

  /** The opening token of a collection leaves its mark. */
  lemma {:induction false} EnterFirst(s: State, s': State, states: seq<State>, n: nat)
    requires Marks(s, states) == Some(n) && Begins(s, s')
    ensures Marks(s', states) == Some(n + 1) && PositionOf(s', states) == PositionOf(s, states)
  {
    InsidePosition(s, states, n);
    InsideMarks(s', states);
  }

  /** A whole node inside the innermost collection. */
  lemma {:induction false} LeafInside(s: State, s': State, states: seq<State>, n: nat, e: Event)
    requires Marks(s, states) == Some(n) && Leads(s, s') && IsLeaf(e)
    ensures Marks(s', states) == Some(n) && !IsFirst(s')
    ensures PosOk(PositionOf(s, states)) && Accept(PositionOf(s, states), e) == Some(PositionOf(s', states))
  {
    hide Marks, OpenFrames, MarkCount, PositionOf, StackOk, Advanced, Around;
    InsidePosition(s, states, n);
    InsideMarks(s', states);
    AroundInside(OpenFrames(states), FramesOf(s));
  }

  lemma {:induction false} AroundInside(outer: seq<Frame>, frames: seq<Frame>)
    requires frames != []
    ensures outer + frames != [] && Around(Inside(outer + frames)) == outer + Advanced(frames) != []
  {
    assert (outer + frames)[..|outer + frames| - 1] == outer + frames[..|frames| - 1];
  }

  lemma {:induction false} StackPush(states: seq<State>, r: State)
    requires StackOk(states) && IsReturn(r) && FollowOk(states[|states| - 1], r)
    ensures StackOk(states + [r])
  {
    var stack := states + [r];
    forall k | 1 <= k < |stack|
      ensures IsReturn(stack[k]) && FollowOk(stack[k - 1], stack[k])
    {
      if k < |states| {
        assert stack[k - 1] == states[k - 1];
      }
    }
  }

  /** A node is about to be parsed, with `r` to return to. */
  lemma {:induction false} PushReturn(s: State, r: State, states: seq<State>, n: nat)
    requires Marks(s, states) == Some(n) && Leads(s, r)
    ensures Depth(states + [r]) == Some(n) && Expecting(PositionOf(s, states), states + [r])
    ensures (states + [r])[|states|] == r
  {
    hide Marks, OpenFrames, MarkCount, PositionOf, StackOk, Advanced, Around;
    InsidePosition(s, states, n);
    PushFrames(states, r);
    StackPush(states, r);
    AroundInside(OpenFrames(states), FramesOf(s));
  }

  lemma {:induction false} RootReturn()
    ensures Depth([DocumentEndState]) == Some(0) && Expecting(AtRoot, [DocumentEndState])
  {
    assert [DocumentEndState][..0] == [];
  }

  /** Returning from a stack. */
  lemma {:induction false} Returned(stack: seq<State>, n: nat)
    requires Depth(stack) == Some(n)
    ensures stack != []
    ensures var top, rest := stack[|stack| - 1], stack[..|stack| - 1];
            && Marks(top, rest) == Some(n)
            && PositionOf(top, rest) == Outside(OpenFrames(stack))
            && !IsFirst(top) && (top == DocumentEndState || IsReturn(top))
  {
    var top, rest := stack[|stack| - 1], stack[..|stack| - 1];
    assert rest + [top] == stack;
    if |stack| == 1 {
      assert rest == [];
    } else {
      assert StackOk(rest);
      assert IsReturn(top);
    }
  }

  lemma {:induction false} LeafReturns(p: Pos, stack: seq<State>, n: nat, e: Event)
    requires Depth(stack) == Some(n) && Expecting(p, stack) && IsLeaf(e)
    ensures stack != []
    ensures Accept(p, e) == Some(PositionOf(stack[|stack| - 1], stack[..|stack| - 1]))
  {
    hide OpenFrames, Depth, Marks, PositionOf;
    Returned(stack, n);
  }

  /** A collection is announced; its first token is still to be consumed. */
  lemma {:induction false} OpensInside(p: Pos, stack: seq<State>, n: nat, e: Event, s: State)
    requires Depth(stack) == Some(n) && Expecting(p, stack) && Opens(e)
    requires FramesOf(s) == [FirstFrame(e)] && MarksOf(s) == 0 && stack != [] && FollowOk(stack[|stack| - 1], s)
    ensures Marks(s, stack) == Some(n) && Accept(p, e) == Some(PositionOf(s, stack))
  {
    hide Marks, MarkCount, OpenFrames, PositionOf;
    InsideMarks(s, stack);
  }

  /** The innermost collection ends. */
  lemma {:induction false} EndsInside(s: State, states: seq<State>, n: nat, e: Event)
    requires Marks(s, states) == Some(n) && EndsWith(s, e)
    ensures states != [] && n >= MarksOf(s)
    ensures var top, rest := states[|states| - 1], states[..|states| - 1];
            && Marks(top, rest) == Some(n - MarksOf(s))
            && Accept(PositionOf(s, states), e) == Some(PositionOf(top, rest))
            && !IsFirst(top)
            && (s == IndentlessSequenceEntryState ==> top == BlockMappingKeyState || top == BlockMappingValueState)
    ensures Carries(e, []) && Potential(states[|states| - 1]) <= 3
    ensures s == IndentlessSequenceEntryState ==> Potential(states[|states| - 1]) <= 1
  {
    hide Marks, OpenFrames, MarkCount, PositionOf, Around, Accept, Carries, StackOk;
    InsidePosition(s, states, n);
    Returned(states, n - MarksOf(s));
    EndAccepted(OpenFrames(states), FramesOf(s)[0], e);
  }

  lemma {:induction false} EndAccepted(outer: seq<Frame>, frame: Frame, e: Event)
    requires (frame == InSequence && e == SequenceEnd) || (frame == AtKey && e == MappingEnd)
    ensures PosOk(Inside(outer + [frame])) && Accept(Inside(outer + [frame]), e) == Some(Outside(outer))
    ensures Carries(e, [])
  {
    assert (outer + [frame])[..|outer|] == outer;
  }

  /** A mapping of one pair inside a flow sequence starts without touching the stack. */
  lemma {:induction false} PairStarts(states: seq<State>, n: nat)
    requires Marks(FlowSequenceEntryState, states) == Some(n)
    ensures Marks(FlowSequenceEntryMappingKeyState, states) == Some(n)
    ensures Accept(PositionOf(FlowSequenceEntryState, states), MappingStart(None, None, true, Flow)) ==
            Some(PositionOf(FlowSequenceEntryMappingKeyState, states))
  {
    hide Marks, OpenFrames, MarkCount, PositionOf, StackOk, Advanced, Around;
    InsidePosition(FlowSequenceEntryState, states, n);
    InsideMarks(FlowSequenceEntryMappingKeyState, states);
    var outer := OpenFrames(states);
    AroundInside(outer, [InSequence]);
    AdvancedTable();
    assert outer + [InSequence] + [AtKey] == outer + [InSequence, AtKey];
  }

  lemma {:induction false} AdvancedTable()
    ensures Advanced([InSequence]) == [InSequence] && Advanced([AtKey]) == [AtValue] && Advanced([AtValue]) == [AtKey]
    ensures Advanced([InSequence, AtKey]) == [InSequence, AtValue]
    ensures Advanced([InSequence, AtValue]) == [InSequence, AtKey]
  {
    assert [InSequence, AtKey][..1] == [InSequence] && [InSequence, AtValue][..1] == [InSequence];
  }

  /** And it ends without touching it. */
  lemma {:induction false} PairEnds(states: seq<State>, n: nat)
    requires Marks(FlowSequenceEntryMappingEndState, states) == Some(n)
    ensures Marks(FlowSequenceEntryState, states) == Some(n)
    ensures Accept(PositionOf(FlowSequenceEntryMappingEndState, states), MappingEnd) ==
            Some(PositionOf(FlowSequenceEntryState, states))
  {
    hide Marks, OpenFrames, MarkCount, PositionOf, StackOk, Advanced, Around;
    InsidePosition(FlowSequenceEntryMappingEndState, states, n);
    InsideMarks(FlowSequenceEntryState, states);
    var outer := OpenFrames(states);
    assert (outer + [InSequence, AtKey])[..|outer| + 1] == outer + [InSequence];
  }

  /** The names, aliases and scalars that tokens carry into events. */
  datatype Payload = AnAnchor(name: string) | AnAlias(name: string) | AScalar(value: string, style: Style)

  function TokenPayload(t: Token): Option<Payload> {
    match t
    case AliasToken(v) => Some(AnAlias(v))
    case AnchorToken(v) => Some(AnAnchor(v))
    case ScalarToken(v, style) => Some(AScalar(v, style))
    case _ => None
  }

  /** What the tokens from `from` up to `to` carry. */
  function Consumed(tokens: seq<Token>, from: nat, to: nat): seq<Payload>
    requires from <= to <= |tokens|
  {
    if from == to then []
    else
      var before := Consumed(tokens, from, to - 1);
      match TokenPayload(tokens[to - 1])
      case None => before
      case Some(payload) => before + [payload]
  }

  function AnchorPayload(anchor: Option<string>): seq<Payload> {
    if anchor.Some? then [AnAnchor(anchor.value)] else []
  }

  /** What an event says is what the consumed tokens said; an empty plain scalar may be implied. */
  predicate Carries(e: Event, payload: seq<Payload>) {
    match e
    case Alias(name) => payload == [AnAlias(name)]
    case Scalar(anchor, _, value, _, _, style) =>
      || payload == AnchorPayload(anchor) + [AScalar(value, style)]
      || (value == "" && style == Plain && payload == AnchorPayload(anchor))
    case SequenceStart(anchor, _, _, _) => payload == AnchorPayload(anchor)
    case MappingStart(anchor, _, _, _) => payload == AnchorPayload(anchor)
    case _ => payload == []
  }

  lemma {:induction false} ConsumedNothing(tokens: seq<Token>, from: nat)
    requires from <= |tokens|
    ensures Consumed(tokens, from, from) == []
  {
  }

  lemma {:induction false} ConsumedConcat(tokens: seq<Token>, a: nat, b: nat, c: nat)
    requires a <= b <= c <= |tokens|
    ensures Consumed(tokens, a, c) == Consumed(tokens, a, b) + Consumed(tokens, b, c)
  {
    if b < c {
      ConsumedConcat(tokens, a, b, c - 1);
    }
  }

  lemma {:induction false} StreamEnds()
    ensures Marks(EndState, []) == Some(0) && Accept(BetweenDocuments, StreamEnd) == Some(PositionOf(EndState, []))
  {
    hide Marks, MarkCount, OpenFrames, Depth;
    OuterMarks(EndState, [], 0);
  }

  lemma {:induction false} EndPosition(states: seq<State>)
    ensures PositionOf(EndState, states) == AtEnd
  {
  }

  lemma {:induction false} NoDocument(ts: seq<Token>, c: Config, implicit: bool)
    requires c.head >= |ts|
    ensures FromDocument(ts, c, implicit) == None && AfterEnds(ts, c.head) == c.head
  {
  }

  /** The directives between two places: what they say, and what they leave of the directives in force. */
  ghost predicate Seen(ts: seq<Token>, from: nat, to: nat, before: seq<TagDirective>, now: seq<TagDirective>,
                       version: Option<Version>, directives: seq<TagDirective>)
  {
    && from <= to <= |ts| && Consumed(ts, from, to) == [] && (to > from ==> IsDirective(ts[from]))
    && Directives(ts, from, before, false) == Directives(ts, to, now, version.Some?)
    && VersionIn(ts, from) == (if version.Some? then version else VersionIn(ts, to))
    && TagsIn(ts, from) == directives + TagsIn(ts, to)
  }

  lemma {:induction false} SeenNothing(ts: seq<Token>, from: nat, tags: seq<TagDirective>)
    requires from <= |ts|
    ensures Seen(ts, from, from, tags, tags, None, [])
    ensures from == |ts| ==> Directives(ts, from, tags, false) == None
  {
    hide Directives, VersionIn, TagsIn;
    if from == |ts| {
      DirectivesEnd(ts, from, tags, false);
    }
  }

  /** The directive at hand is refused, or it is taken. */
  lemma {:induction false} SeenOne(ts: seq<Token>, from: nat, to: nat, before: seq<TagDirective>,
                                   now: seq<TagDirective>, version: Option<Version>, directives: seq<TagDirective>)
    requires Seen(ts, from, to, before, now, version, directives) && to < |ts| && IsDirective(ts[to])
    ensures match ts[to]
            case VersionDirectiveToken(major, minor) =>
              if version.Some? || major != 1 || (minor != 1 && minor != 2) then
                Directives(ts, from, before, false) == None
              else Seen(ts, from, to + 1, before, now, Some(Version(major, minor)), directives)
            case TagDirectiveToken(handle, prefix) =>
              var tag := TagDirective(handle, prefix);
              if HasHandle(now, handle) then Directives(ts, from, before, false) == None
              else Seen(ts, from, to + 1, before, now + [tag], version, directives + [tag])
            case _ => true
  {
    hide HasHandle;
    if ts[to].TagDirectiveToken? {
      assert directives + TagsIn(ts, to) ==
             directives + [TagDirective(ts[to].handle, ts[to].prefix)] + TagsIn(ts, to + 1);
    }
  }

  lemma {:induction false} SeenEnd(ts: seq<Token>, from: nat, to: nat, before: seq<TagDirective>,
                                   now: seq<TagDirective>, version: Option<Version>, directives: seq<TagDirective>)
    requires Seen(ts, from, to, before, now, version, directives)
    ensures Consumed(ts, from, to) == [] && (to > from ==> IsDirective(ts[from]))
    ensures to == |ts| ==> Directives(ts, from, before, false) == None
    ensures to < |ts| && !IsDirective(ts[to]) ==>
              && Directives(ts, from, before, false) ==
                 Some(Config(BlockNodeState, [DocumentEndState], to, WithDefaults(now)))
              && version == VersionIn(ts, from) && directives == TagsIn(ts, from)
  {
    hide Consumed, Directives;
    DirectivesEnd(ts, to, now, version.Some?);
  }

  lemma {:induction false} DirectivesEnd(ts: seq<Token>, to: nat, tags: seq<TagDirective>, versionSeen: bool)
    ensures to >= |ts| ==> Directives(ts, to, tags, versionSeen) == None
    ensures to < |ts| && !IsDirective(ts[to]) ==>
              Directives(ts, to, tags, versionSeen) ==
              Some(Config(BlockNodeState, [DocumentEndState], to, WithDefaults(tags)))
  {
  }

  lemma {:induction false} PropertyPayloads()
    ensures forall v :: TokenPayload(AnchorToken(v)) == Some(AnAnchor(v))
    ensures forall handle, suffix :: TokenPayload(TagToken(handle, suffix)) == None
  {
  }

  /** The properties at a place, case by case. */
  lemma {:induction false} PropertiesAt(ts: seq<Token>, head: nat)
    ensures head >= |ts| ==> ReadProperties(ts, head) == None
    ensures head < |ts| && !ts[head].AnchorToken? && !ts[head].TagToken? ==>
              ReadProperties(ts, head) == Some(Properties(None, None, head))
    ensures head + 1 == |ts| && (ts[head].AnchorToken? || ts[head].TagToken?) ==> ReadProperties(ts, head) == None
    ensures head + 1 < |ts| && ts[head].AnchorToken? && !ts[head + 1].TagToken? ==>
              ReadProperties(ts, head) == Some(Properties(Some(ts[head].value), None, head + 1))
    ensures head + 1 < |ts| && ts[head].TagToken? && !ts[head + 1].AnchorToken? ==>
              ReadProperties(ts, head) == Some(Properties(None, Some(ts[head]), head + 1))
    ensures head + 1 < |ts| && ts[head].AnchorToken? && ts[head + 1].TagToken? ==>
              ReadProperties(ts, head) ==
              if head + 2 < |ts| then Some(Properties(Some(ts[head].value), Some(ts[head + 1]), head + 2)) else None
    ensures head + 1 < |ts| && ts[head].TagToken? && ts[head + 1].AnchorToken? ==>
              ReadProperties(ts, head) ==
              if head + 2 < |ts| then Some(Properties(Some(ts[head + 1].value), Some(ts[head]), head + 2)) else None
  {
  }

  class EventParser {
    const tokens: seq<Token>
    var head: nat
    var state: State
    var states: seq<State>
    var marks: seq<nat>
    var tagDirectives: seq<TagDirective>
    var error: bool
    var streamEndProduced: bool

    constructor (tokens: seq<Token>)
      ensures this.tokens == tokens && head == 0 && Valid() && Position() == AtStart && !streamEndProduced
      ensures Now() == FIRST
    {
      this.tokens := tokens;
      head, state, states, marks, tagDirectives := 0, StreamStartState, [], [], [];
      error, streamEndProduced := false, false;
      new;
      OuterMarks(StreamStartState, [], 0);
    }

    ghost predicate Valid()
      reads this
    {
      && !error
      && head <= |tokens|
      && Marks(state, states) == Some(|marks|)
      && FirstOk(state, tokens, head)
    }

    ghost function Position(): (p: Pos)
      reads this
      ensures PosOk(p)
    {
      PositionOf(state, states)
    }

    ghost function Rank(): int
      reads this
    {
      4 * (|tokens| - head) + Potential(state)
    }

    ghost function Now(): Config
      reads this
    {
      Config(state, states, head, tagDirectives)
    }

    /** The move was made: its event is the result, and its configuration is the present one. */
    ghost predicate Made(m: Option<Move>, r: Option<Event>)
      reads this
    {
      match m
      case None => r == None
      case Some(move) => r == Some(move.event) && move.next == Now()
    }

    /** `PEEK_TOKEN`; a scanner that has no more to give has set the error. */
    method Peek() returns (token: Option<Token>)
      modifies `error
      ensures head < |tokens| ==> token == Some(tokens[head]) && error == old(error)
      ensures head >= |tokens| ==> token == None && error
    {
      if head < |tokens| {
        return Some(tokens[head]);
      }
      error := true;
      return None;
    }

    /** `SKIP_TOKEN` */
    method Skip(ghost from: nat)
      requires from <= head < |tokens|
      modifies `head, `streamEndProduced
      ensures head == old(head) + 1 && streamEndProduced == tokens[old(head)].StreamEndToken?
      ensures Consumed(tokens, from, head) ==
              match TokenPayload(tokens[old(head)])
              case None => Consumed(tokens, from, old(head))
              case Some(payload) => Consumed(tokens, from, old(head)) + [payload]
    {
      streamEndProduced := tokens[head].StreamEndToken?;
      head := head + 1;
    }

    /** What every state function owes: an event the grammar allows next, or an error. */
    ghost predicate Steps(p: Pos, rank: int, from: nat, e: Event)
      reads this
    {
      && Valid()
      && PosOk(p) && Accept(p, e) == Some(Position())
      && Rank() < rank
      && from <= head
      && Carries(e, Consumed(tokens, from, head))
    }

    /** How a state function shows that it has done its part. */
    lemma {:induction false} Done(p: Pos, rank: int, from: nat, e: Event)
      requires !error && from <= head <= |tokens| && Marks(state, states) == Some(|marks|)
      requires FirstOk(state, tokens, head)
      requires PosOk(p) && Accept(p, e) == Some(PositionOf(state, states))
      requires 4 * (|tokens| - head) + Potential(state) < rank
      requires Carries(e, Consumed(tokens, from, head))
      ensures Steps(p, rank, from, e)
    {
    }

    /** `yaml_parser_parse_stream_start` */
    method ParseStreamStart() returns (r: Option<Event>)
      requires Valid() && state == StreamStartState
      modifies this
      ensures if r.Some? then Steps(AtStart, old(Rank()), old(head), r.value) else error
      ensures Made(FromStreamStart(tokens, old(Now())), r)
    {
      hide Marks, MarkCount, OpenFrames, Steps, Consumed;
      OuterMarks(state, states, |marks|);
      OuterMarks(ImplicitDocumentStartState, states, |marks|);
      ConsumedNothing(tokens, head);
      var token := Peek();
      if token == None {
        return None;
      }
      if !token.value.StreamStartToken? {
        error := true;
        return None;
      }
      state := ImplicitDocumentStartState;
      Skip(head);
      Done(AtStart, old(Rank()), old(head), StreamStart);
      return Some(StreamStart);
    }

    /** `yaml_parser_append_tag_directive` */
    method AppendTagDirective(value: TagDirective, allowDuplicates: bool) returns (ok: bool)
      modifies `tagDirectives, `error
      ensures ok <==> allowDuplicates || !HasHandle(old(tagDirectives), value.handle)
      ensures tagDirectives ==
              if HasHandle(old(tagDirectives), value.handle) then old(tagDirectives) else old(tagDirectives) + [value]
      ensures ok ==> error == old(error)
      ensures !ok ==> error
    {
      for k := 0 to |tagDirectives|
        invariant tagDirectives == old(tagDirectives) && error == old(error)
        invariant forall j :: 0 <= j < k ==> tagDirectives[j].handle != value.handle
      {
        if tagDirectives[k].handle == value.handle {
          if allowDuplicates {
            return true;
          }
          error := true;
          return false;
        }
      }
      tagDirectives := tagDirectives + [value];
      return true;
    }

    /** `yaml_parser_process_directives` */
    method ProcessDirectives() returns (ok: bool, version: Option<Version>, directives: seq<TagDirective>)
      requires !error && head <= |tokens|
      modifies `head, `streamEndProduced, `tagDirectives, `error
      ensures !ok ==> error
      ensures ok ==> !error && old(head) <= head < |tokens|
      ensures ok ==> !tokens[head].VersionDirectiveToken? && !tokens[head].TagDirectiveToken?
      ensures ok ==> Consumed(tokens, old(head), head) == []
      ensures ok && old(head) < |tokens| && !tokens[old(head)].VersionDirectiveToken?
              && !tokens[old(head)].TagDirectiveToken? ==>
                head == old(head)
      ensures Directives(tokens, old(head), old(tagDirectives), false) ==
              if ok then Some(Config(BlockNodeState, [DocumentEndState], head, tagDirectives)) else None
      ensures ok ==> version == VersionIn(tokens, old(head)) && directives == TagsIn(tokens, old(head))
    {
      hide HasHandle, Consumed, Directives, VersionIn, TagsIn, Seen;
      ok, version, directives := false, None, [];
      SeenNothing(tokens, head, tagDirectives);
      var token := Peek();
      if token == None {
        return;
      }
      while token.value.VersionDirectiveToken? || token.value.TagDirectiveToken?
        invariant !error && old(head) <= head < |tokens| && token == Some(tokens[head])
        invariant Seen(tokens, old(head), head, old(tagDirectives), tagDirectives, version, directives)
        decreases |tokens| - head
      {
        SeenOne(tokens, old(head), head, old(tagDirectives), tagDirectives, version, directives);
        match token.value {
          case VersionDirectiveToken(major, minor) =>
            if version.Some? || major != 1 || (minor != 1 && minor != 2) {
              error := true;
              return;
            }
            version := Some(Version(major, minor));
          case TagDirectiveToken(handle, prefix) =>
            var appended := AppendTagDirective(TagDirective(handle, prefix), false);
            if !appended {
              return;
            }
            directives := directives + [TagDirective(handle, prefix)];
        }
        Skip(old(head));
        SeenEnd(tokens, old(head), head, old(tagDirectives), tagDirectives, version, directives);
        token := Peek();
        if token == None {
          return;
        }
      }
      SeenEnd(tokens, old(head), head, old(tagDirectives), tagDirectives, version, directives);
      ok := AppendTagDirective(PRIMARY, true);
      if !ok {
        return;
      }
      ok := AppendTagDirective(SECONDARY, true);
    }

    /** Past the document end markers. */
    method SkipEnds(ghost from: nat) returns (ok: bool)
      requires !error && from <= head < |tokens| && Consumed(tokens, from, head) == []
      modifies `head, `error, `streamEndProduced
      ensures ok ==> !error && head == AfterEnds(tokens, old(head)) < |tokens| && Consumed(tokens, from, head) == []
      ensures ok ==> !tokens[head].DocumentEndToken?
      ensures !ok ==> error && AfterEnds(tokens, old(head)) >= |tokens|
    {
      hide Consumed;
      ok := false;
      var token := Peek();
      while token.value.DocumentEndToken?
        invariant !error && old(head) <= head < |tokens| && token == Some(tokens[head])
        invariant Consumed(tokens, from, head) == [] && AfterEnds(tokens, head) == AfterEnds(tokens, old(head))
        decreases |tokens| - head
      {
        Skip(from);
        token := Peek();
        if token == None {
          return;
        }
      }
      ok := true;
    }

    /** `yaml_parser_parse_document_start` */
    method ParseDocumentStart(implicit: bool) returns (r: Option<Event>)
      requires Valid() && state == (if implicit then ImplicitDocumentStartState else DocumentStartState)
      modifies this
      ensures if r.Some? then Steps(BetweenDocuments, old(Rank()), old(head), r.value) else error
      ensures Made(FromDocumentStart(tokens, old(Now()), implicit), r)
    {
      hide Marks, MarkCount, OpenFrames, Steps, Consumed, Bare, Marked, AfterEnds, FromDocument;
      OuterMarks(state, states, |marks|);
      ConsumedNothing(tokens, head);
      ghost var from := head;
      var token := Peek();
      if token == None {
        NoDocument(tokens, Now(), implicit);
        return None;
      }
      if !implicit {
        var ok := SkipEnds(from);
        if !ok {
          NoDocument(tokens, old(Now()).(head := AfterEnds(tokens, old(head))), implicit);
          return None;
        }
        token := Some(tokens[head]);
      }
      r := OpenDocument(implicit, old(Rank()), from);
    }

    /** Its decision, once the markers before are skipped. */
    method OpenDocument(implicit: bool, ghost rank: int, ghost from: nat) returns (r: Option<Event>)
      requires state == (if implicit then ImplicitDocumentStartState else DocumentStartState) && Rank() <= rank
      requires !error && states == [] && marks == [] && from <= head < |tokens| && Consumed(tokens, from, head) == []
      requires implicit ==> from == head && rank == Rank()
      modifies this
      ensures if r.Some? then Steps(BetweenDocuments, rank, from, r.value) else error
      ensures Made(FromDocument(tokens, old(Now()), implicit), r)
    {
      hide Marks, MarkCount, OpenFrames, Steps, Consumed, Bare, Marked, StateOk, FramesOf, PositionOf, Accept;
      StreamEnds();
      var token := Peek();
      if implicit && !token.value.VersionDirectiveToken? && !token.value.TagDirectiveToken? &&
         !token.value.DocumentStartToken? && !token.value.StreamEndToken?
      {
        r := ParseImplicitDocument();
      } else if !token.value.StreamEndToken? {
        r := ParseExplicitDocument(rank, from);
      } else {
        state := EndState;
        Skip(from);
        Done(BetweenDocuments, rank, from, StreamEnd);
        r := Some(StreamEnd);
      }
    }

    /** Its branch for a document without markers. */
    method ParseImplicitDocument() returns (r: Option<Event>)
      requires !error && state == ImplicitDocumentStartState && states == [] && marks == [] && head < |tokens|
      requires !tokens[head].VersionDirectiveToken? && !tokens[head].TagDirectiveToken?
      modifies this
      ensures if r.Some? then Steps(BetweenDocuments, old(Rank()), old(head), r.value) else error
      ensures Made(Bare(tokens, old(Now())), r)
    {
      hide Marks, MarkCount, OpenFrames, Steps, Consumed, Directives;
      ConsumedNothing(tokens, head);
      var ok, _, _ := ProcessDirectives();
      if !ok {
        return None;
      }
      states := states + [DocumentEndState];
      state := BlockNodeState;
      assert states == [DocumentEndState];
      OuterMarks(state, states, |marks|);
      Done(BetweenDocuments, old(Rank()), old(head), BARE_START);
      return Some(BARE_START);
    }

    /** Its branch for a document that starts with directives or a marker. */
    method ParseExplicitDocument(ghost rank: int, ghost from: nat) returns (r: Option<Event>)
      requires Rank() <= rank
      requires !error && states == [] && marks == [] && from <= head < |tokens| && Consumed(tokens, from, head) == []
      modifies this
      ensures if r.Some? then Steps(BetweenDocuments, rank, from, r.value) else error
      ensures Made(Marked(tokens, old(Now())), r)
    {
      hide Marks, MarkCount, OpenFrames, Steps, Consumed, Directives;
      ghost var first := head;
      var ok, version, directives := ProcessDirectives();
      if !ok {
        return None;
      }
      ConsumedConcat(tokens, from, first, head);
      assert Consumed(tokens, from, head) == [];
      var token := Peek();
      if !token.value.DocumentStartToken? {
        error := true;
        return None;
      }
      states := states + [DocumentEndState];
      state := DocumentContentState;
      Skip(from);
      assert states == [DocumentEndState];
      OuterMarks(state, states, |marks|);
      Done(BetweenDocuments, rank, from, DocumentStart(version, directives, false));
      return Some(DocumentStart(version, directives, false));
    }

    /** `parser->state = POP(parser, parser->states)`, at the end of a node that is one event. */
    method PopState(event: Event, ghost p: Pos)
      requires Depth(states) == Some(|marks|) && Expecting(p, states) && IsLeaf(event)
      modifies `state, `states
      ensures old(states) != [] && state == old(states)[|old(states)| - 1]
      ensures Marks(state, states) == Some(|marks|) && Accept(p, event) == Some(PositionOf(state, states))
      ensures !IsFirst(state)
      ensures Now() == Popped(old(Now()))
    {
      hide Marks, MarkCount, OpenFrames, PositionOf, Accept, StateOk, Depth, StackOk, Around;
      Returned(states, |marks|);
      LeafReturns(p, states, |marks|, event);
      state, states := states[|states| - 1], states[..|states| - 1];
    }

    /** A node that is one event: back to the state on the stack. */
    method Leaf(event: Event, skip: bool, ghost p: Pos, ghost rank: int, ghost from: nat) returns (r: Option<Event>)
      requires !error && from <= head <= |tokens| && IsLeaf(event)
      requires Depth(states) == Some(|marks|) && Expecting(p, states)
      requires skip ==>
                 head < |tokens| && Carries(event, Consumed(tokens, from, head + 1)) && 4 * (|tokens| - head) <= rank
      requires !skip ==> states != [] && Carries(event, Consumed(tokens, from, head))
      requires !skip ==> 4 * (|tokens| - head) + Potential(states[|states| - 1]) < rank
      modifies this
      ensures r == Some(event) && Steps(p, rank, from, event)
      ensures Now() == if skip then Skipped(Popped(old(Now()))) else Popped(old(Now()))
    {
      hide Marks, MarkCount, OpenFrames, Steps, Consumed, PositionOf, Accept, StateOk, Depth, StackOk, Around, Carries;
      PopState(event, p);
      if skip {
        Skip(from);
      }
      Done(p, rank, from, event);
      r := Some(event);
    }

    lemma {:induction false} OneMore(from: nat)
      requires from <= head < |tokens|
      ensures Consumed(tokens, from, head + 1) ==
              match TokenPayload(tokens[head])
              case None => Consumed(tokens, from, head)
              case Some(payload) => Consumed(tokens, from, head) + [payload]
    {
    }

    /** `yaml_parser_parse_document_content` */
    method ParseDocumentContent() returns (r: Option<Event>)
      requires Valid() && state == DocumentContentState
      modifies this
      ensures if r.Some? then Steps(AtRoot, old(Rank()), old(head), r.value) else error
      ensures Made(FromDocumentContent(tokens, old(Now())), r)
    {
      hide Marks, MarkCount, OpenFrames, Steps, Consumed, PositionOf, Accept, StateOk, Depth, StackOk, Around, FromNode;
      ConsumedNothing(tokens, head);
      OuterMarks(state, states, |marks|);
      RootReturn();
      var token := Peek();
      if token == None {
        return None;
      }
      if token.value.VersionDirectiveToken? || token.value.TagDirectiveToken? || token.value.DocumentStartToken? ||
         token.value.DocumentEndToken? || token.value.StreamEndToken?
      {
        r := Leaf(EMPTY_SCALAR, false, AtRoot, old(Rank()), old(head));
        return;
      }
      r := ParseNode(true, false, AtRoot, old(Rank()), old(head));
    }

    /** `yaml_parser_parse_document_end` */
    method ParseDocumentEnd() returns (r: Option<Event>)
      requires Valid() && state == DocumentEndState
      modifies this
      ensures if r.Some? then Steps(RootDone, old(Rank()), old(head), r.value) else error
      ensures Made(FromDocumentEnd(tokens, old(Now())), r)
    {
      hide Marks, MarkCount, OpenFrames, Steps, Consumed, StateOk;
      ConsumedNothing(tokens, head);
      OuterMarks(state, states, |marks|);
      OuterMarks(DocumentStartState, states, |marks|);
      var implicit := true;
      var token := Peek();
      if token == None {
        return None;
      }
      if token.value.DocumentEndToken? {
        Skip(old(head));
        implicit := false;
      }
      tagDirectives := [];
      state := DocumentStartState;
      Done(RootDone, old(Rank()), old(head), DocumentEnd(implicit));
      return Some(DocumentEnd(implicit));
    }

    /** The properties of a node: `properties ::= TAG ANCHOR? | ANCHOR TAG?` */
    method ParseProperties(ghost from: nat) returns (ok: bool, anchor: Option<string>, tagToken: Option<Token>)
      requires !error && from <= head <= |tokens| && Consumed(tokens, from, head) == []
      modifies `head, `streamEndProduced, `error
      ensures !ok ==> error
      ensures ok ==> !error && old(head) <= head < |tokens| && Consumed(tokens, from, head) == AnchorPayload(anchor)
      ensures ok ==> ((anchor.Some? || tagToken.Some?) <==> head > old(head))
      ensures tagToken.Some? ==> tagToken.value.TagToken?
      ensures ReadProperties(tokens, old(head)) == if ok then Some(Properties(anchor, tagToken, head)) else None
    {
      hide Consumed, ReadProperties, TokenPayload;
      PropertiesAt(tokens, head);
      PropertyPayloads();
      ok, anchor, tagToken := false, None, None;
      var token := Peek();
      if token == None {
        return;
      }
      if token.value.AnchorToken? {
        anchor := Some(token.value.value);
        Skip(from);
        token := Peek();
        if token == None {
          return;
        }
        if token.value.TagToken? {
          tagToken := token;
          Skip(from);
          token := Peek();
          if token == None {
            return;
          }
        }
      } else if token.value.TagToken? {
        tagToken := token;
        Skip(from);
        token := Peek();
        if token == None {
          return;
        }
        if token.value.AnchorToken? {
          anchor := Some(token.value.value);
          Skip(from);
          token := Peek();
          if token == None {
            return;
          }
        }
      }
      ok := true;
    }

    /** The tag a handle and a suffix stand for, under the directives in force. */
    method ResolveTag(handle: string, suffix: string) returns (tag: Option<string>)
      modifies `error
      ensures tag == None ==> error
      ensures tag.Some? ==> error == old(error)
      ensures handle == "" ==> tag == Some(suffix)
      ensures handle != "" && tag.Some? ==>
                exists k :: 0 <= k < |tagDirectives| && tagDirectives[k].handle == handle &&
                            tag.value == tagDirectives[k].prefix + suffix
      ensures handle != "" && tag == None ==> forall k :: 0 <= k < |tagDirectives| ==> tagDirectives[k].handle != handle
      ensures tag == Resolve(tagDirectives, handle, suffix)
    {
      if handle == "" {
        return Some(suffix);
      }
      assert tagDirectives[0..] == tagDirectives;
      for k := 0 to |tagDirectives|
        invariant error == old(error) && forall j :: 0 <= j < k ==> tagDirectives[j].handle != handle
        invariant Expanded(tagDirectives, handle, suffix) == Expanded(tagDirectives[k..], handle, suffix)
      {
        assert tagDirectives[k..][1..] == tagDirectives[k + 1..];
        if tagDirectives[k].handle == handle {
          return Some(tagDirectives[k].prefix + suffix);
        }
      }
      error := true;
      return None;
    }

    /** `yaml_parser_parse_node` */
    method ParseNode(block: bool, indentless: bool, ghost p: Pos, ghost rank: int,
                     ghost from: nat)
      returns (r: Option<Event>)
      requires !error && from <= head <= |tokens| && Consumed(tokens, from, head) == []
      requires Depth(states) == Some(|marks|) && Expecting(p, states)
      requires 4 * (|tokens| - head) + (if indentless then 2 else 0) < rank
      requires states != [] && (indentless ==> FollowOk(states[|states| - 1], IndentlessSequenceEntryState))
      modifies this
      ensures if r.Some? then Steps(p, rank, from, r.value) else error
      ensures Made(FromNode(tokens, old(Now()), block, indentless), r)
    {
      hide Marks, MarkCount, OpenFrames, Steps, Consumed, PositionOf, Accept, StateOk, Depth, StackOk, Around,
           ReadProperties, FromProperties;
      var token := Peek();
      if token == None {
        return None;
      }
      if token.value.AliasToken? {
        OneMore(from);
        r := Leaf(Alias(token.value.value), true, p, rank, from);
        return;
      }
      var ok, anchor, tagToken := ParseProperties(from);
      if !ok {
        return None;
      }
      r := ParseTagged(block, indentless, anchor, tagToken, p, rank, from);
    }

    /** A node after its properties: its tag, and then its content. */
    method ParseTagged(block: bool, indentless: bool, anchor: Option<string>, tagToken: Option<Token>,
                       ghost p: Pos, ghost rank: int, ghost from: nat) returns (r: Option<Event>)
      requires !error && from <= head < |tokens| && Consumed(tokens, from, head) == AnchorPayload(anchor)
      requires Depth(states) == Some(|marks|) && Expecting(p, states)
      requires 4 * (|tokens| - head) +
               (if anchor.Some? || tagToken.Some? then 3 else if indentless then 2 else 0) < rank
      requires states != [] && (indentless ==> FollowOk(states[|states| - 1], IndentlessSequenceEntryState))
      requires tagToken.Some? ==> tagToken.value.TagToken?
      modifies this
      ensures if r.Some? then Steps(p, rank, from, r.value) else error
      ensures Made(FromProperties(tokens, old(Now()), block, indentless, anchor, tagToken), r)
    {
      hide Marks, MarkCount, OpenFrames, Steps, Consumed, PositionOf, Accept, StateOk, Depth, StackOk, Around,
           ReadProperties, FromContent, Resolve;
      var tag := None;
      if tagToken.Some? {
        tag := ResolveTag(tagToken.value.handle, tagToken.value.suffix);
        if tag == None {
          return None;
        }
      }
      var implicit := tag == None || tag.value == "";
      if indentless && tokens[head].BlockEntryToken? {
        r := OpenAs(IndentlessSequenceEntryState, SequenceStart(anchor, tag, implicit, Block), p, rank, from);
      } else {
        r := ParseContent(block, anchor, tag, implicit, p, rank, from);
      }
    }

    /** Announces a collection and moves to the state that parses its first entry. */
    method OpenAs(s: State, event: Event, ghost p: Pos, ghost rank: int, ghost from: nat) returns (r: Option<Event>)
      requires !error && from <= head < |tokens| && Carries(event, Consumed(tokens, from, head))
      requires Depth(states) == Some(|marks|) && Expecting(p, states)
      requires Opens(event) && FramesOf(s) == [FirstFrame(event)] && MarksOf(s) == 0
      requires states != [] && FollowOk(states[|states| - 1], s) && FirstOk(s, tokens, head)
      requires 4 * (|tokens| - head) + Potential(s) < rank
      modifies `state
      ensures r == Some(event) && Steps(p, rank, from, event)
      ensures Now() == old(Now()).(state := s)
    {
      hide Marks, MarkCount, OpenFrames, Steps, Consumed, PositionOf, Accept, StateOk, Depth, StackOk;
      OpensInside(p, states, |marks|, event, s);
      state := s;
      Done(p, rank, from, event);
      return Some(event);
    }

    lemma {:induction false} CarriesAnchor(anchor: Option<string>, tag: Option<string>, implicit: bool, style: Style)
      ensures Carries(SequenceStart(anchor, tag, implicit, style), AnchorPayload(anchor))
      ensures Carries(MappingStart(anchor, tag, implicit, style), AnchorPayload(anchor))
      ensures Carries(Scalar(anchor, tag, "", implicit, false, Plain), AnchorPayload(anchor))
    {
    }

    lemma {:induction false} CarriesScalar(event: Event)
      requires event.Scalar?
      ensures Carries(event, AnchorPayload(event.anchor) + [AScalar(event.value, event.style)])
    {
    }

    /** The content of a node, after its properties. */
    method ParseContent(block: bool, anchor: Option<string>, tag: Option<string>, implicit: bool,
                        ghost p: Pos, ghost rank: int, ghost from: nat) returns (r: Option<Event>)
      requires !error && from <= head < |tokens| && Consumed(tokens, from, head) == AnchorPayload(anchor)
      requires Depth(states) == Some(|marks|) && Expecting(p, states) && states != []
      requires 4 * (|tokens| - head) + (if anchor.Some? || tag.Some? then 3 else 0) < rank
      requires implicit == IsImplicit(tag)
      modifies this
      ensures if r.Some? then Steps(p, rank, from, r.value) else error
      ensures Made(FromContent(tokens, old(Now()), block, anchor, tag), r)
    {
      hide Marks, MarkCount, OpenFrames, Steps, Consumed, PositionOf, Accept, StateOk, Depth, StackOk, Around, Carries,
           AnchorPayload;
      var token := tokens[head];
      CarriesAnchor(anchor, tag, implicit, Flow);
      match token {
        case ScalarToken(value, style) =>
          var plainImplicit := (style == Plain && tag == None) || tag == Some("!");
          var quotedImplicit := !plainImplicit && tag == None;
          var event := Scalar(anchor, tag, value, plainImplicit, quotedImplicit, style);
          OneMore(from);
          CarriesScalar(event);
          r := Leaf(event, true, p, rank, from);
          return;
        case FlowSequenceStartToken =>
          r := OpenAs(FlowSequenceFirstEntryState, SequenceStart(anchor, tag, implicit, Flow), p, rank, from);
          return;
        case FlowMappingStartToken =>
          r := OpenAs(FlowMappingFirstKeyState, MappingStart(anchor, tag, implicit, Flow), p, rank, from);
          return;
        case _ =>
      }
      r := ParseBlockContent(block, anchor, tag, implicit, p, rank, from);
    }

    /** Content that is not a scalar or a flow collection. */
    method ParseBlockContent(block: bool, anchor: Option<string>, tag: Option<string>, implicit: bool,
                             ghost p: Pos, ghost rank: int, ghost from: nat) returns (r: Option<Event>)
      requires !error && from <= head < |tokens| && Consumed(tokens, from, head) == AnchorPayload(anchor)
      requires Depth(states) == Some(|marks|) && Expecting(p, states) && states != []
      requires 4 * (|tokens| - head) + (if anchor.Some? || tag.Some? then 3 else 0) < rank
      requires implicit == IsImplicit(tag)
      requires !tokens[head].ScalarToken? && !tokens[head].FlowSequenceStartToken?
      requires !tokens[head].FlowMappingStartToken?
      modifies this
      ensures if r.Some? then Steps(p, rank, from, r.value) else error
      ensures Made(FromContent(tokens, old(Now()), block, anchor, tag), r)
    {
      hide Marks, MarkCount, OpenFrames, Steps, Consumed, PositionOf, Accept, StateOk, Depth, StackOk, Around, Carries,
           AnchorPayload;
      var token := tokens[head];
      CarriesAnchor(anchor, tag, implicit, Block);
      if block && token.BlockSequenceStartToken? {
        r := OpenAs(BlockSequenceFirstEntryState, SequenceStart(anchor, tag, implicit, Block), p, rank, from);
      } else if block && token.BlockMappingStartToken? {
        r := OpenAs(BlockMappingFirstKeyState, MappingStart(anchor, tag, implicit, Block), p, rank, from);
      } else if anchor.Some? || tag.Some? {
        r := Leaf(Scalar(anchor, tag, "", implicit, false, Plain), false, p, rank, from);
      } else {
        error := true;
        return None;
      }
    }

    /** An empty scalar inside a collection, and on to state `next`. */
    method EmptyAt(ghost s: State, next: State, ghost p: Pos, ghost rank: int,
                   ghost from: nat)
      returns (r: Option<Event>)
      requires !error && from <= head <= |tokens| && Consumed(tokens, from, head) == []
      requires Marks(s, states) == Some(|marks|) && Leads(s, next)
      requires p == PositionOf(s, states) && 4 * (|tokens| - head) + Potential(next) < rank
      modifies `state
      ensures r.Some? && Steps(p, rank, from, r.value)
      ensures Made(Empty(old(Now()), next), r)
    {
      hide Marks, MarkCount, OpenFrames, Steps, Consumed, PositionOf, Accept, StateOk, Depth, StackOk, Around, Leads;
      LeafInside(s, next, states, |marks|, EMPTY_SCALAR);
      state := next;
      Done(p, rank, from, EMPTY_SCALAR);
      return Some(EMPTY_SCALAR);
    }

    /** A node inside a collection, to be followed by state `next`. */
    method NodeAt(ghost s: State, next: State, block: bool, indentless: bool, ghost p: Pos, ghost rank: int,
                  ghost from: nat)
      returns (r: Option<Event>)
      requires !error && from <= head <= |tokens| && Consumed(tokens, from, head) == []
      requires Marks(s, states) == Some(|marks|) && Leads(s, next)
      requires p == PositionOf(s, states) && 4 * (|tokens| - head) + (if indentless then 2 else 0) < rank
      requires indentless ==> FollowOk(next, IndentlessSequenceEntryState)
      modifies this
      ensures if r.Some? then Steps(p, rank, from, r.value) else error
      ensures Made(Node(tokens, old(Now()), next, block, indentless), r)
    {
      hide Marks, MarkCount, OpenFrames, Steps, Consumed, PositionOf, Accept, StateOk, Depth, StackOk, Around, Leads,
           FromNode;
      PushReturn(s, next, states, |marks|);
      states := states + [next];
      r := ParseNode(block, indentless, p, rank, from);
    }

    /** The token that announces a node inside a collection, and the node if there is one. */
    method OptionalAt(ghost s: State, next: State, block: bool, indentless: bool, none: set<Token>,
                      ghost p: Pos, ghost rank: int, ghost from: nat) returns (r: Option<Event>)
      requires !error && from <= head < |tokens| && Consumed(tokens, from, head) == []
      requires TokenPayload(tokens[head]) == None
      requires Marks(s, states) == Some(|marks|) && Leads(s, next)
      requires p == PositionOf(s, states) && 4 * (|tokens| - head) <= rank
      requires indentless ==> FollowOk(next, IndentlessSequenceEntryState)
      modifies this
      ensures if r.Some? then Steps(p, rank, from, r.value) else error
      ensures Made(Optional(tokens, Skipped(old(Now())), next, block, indentless, none), r)
    {
      hide Marks, MarkCount, OpenFrames, Steps, Consumed, PositionOf, Accept, StateOk, Depth, StackOk, Around, Leads,
           TokenPayload, Node;
      Skip(from);
      var token := Peek();
      if token == None {
        return None;
      }
      if token.value in none {
        r := EmptyAt(s, next, p, rank, from);
      } else {
        r := NodeAt(s, next, block, indentless, p, rank, from);
      }
    }

    /** The end of a collection; its mark, if it has one, goes with it. */
    method EndAt(ghost s: State, event: Event, marked: bool, skip: bool, ghost p: Pos, ghost rank: int, ghost from: nat)
      returns (r: Option<Event>)
      requires !error && from <= head <= |tokens| && Consumed(tokens, from, head) == []
      requires Marks(s, states) == Some(|marks|) && EndsWith(s, event) && p == PositionOf(s, states)
      requires MarksOf(s) == (if marked then 1 else 0) && (!skip ==> s == IndentlessSequenceEntryState)
      requires skip ==> head < |tokens| && TokenPayload(tokens[head]) == None
      requires if skip then 4 * (|tokens| - head) <= rank else 4 * (|tokens| - head) + 1 < rank
      modifies this
      ensures r == Some(event) && Steps(p, rank, from, event)
      ensures Made(Closed(if skip then Skipped(old(Now())) else old(Now()), event), r)
    {
      hide Marks, MarkCount, OpenFrames, Steps, Consumed, PositionOf, Accept, StateOk, Depth, StackOk, Around,
           TokenPayload, EndsWith, MarksOf, Carries, Potential, PosOk;
      EndsInside(s, states, |marks|, event);
      state, states := states[|states| - 1], states[..|states| - 1];
      if marked {
        marks := marks[..|marks| - 1];
      }
      if skip {
        Skip(from);
      }
      Done(p, rank, from, event);
      return Some(event);
    }

    /** The opening token of a collection; where it is, is kept in `marks`. */
    method EnterCollection(ghost s: State, ghost next: State)
      requires Valid() && state == s && Begins(s, next)
      modifies `marks, `head, `streamEndProduced
      ensures head == old(head) + 1 <= |tokens| && Consumed(tokens, old(head), head) == []
      ensures Marks(next, states) == Some(|marks|) && PositionOf(next, states) == PositionOf(s, states)
    {
      hide Marks, MarkCount, OpenFrames, Consumed, PositionOf, StateOk, FramesOf, InCollection;
      ConsumedNothing(tokens, head);
      EnterFirst(s, next, states, |marks|);
      marks := marks + [head];
      Skip(head);
    }

    /** `yaml_parser_parse_block_sequence_entry` */
    method ParseBlockSequenceEntry(first: bool) returns (r: Option<Event>)
      requires Valid() && state == (if first then BlockSequenceFirstEntryState else BlockSequenceEntryState)
      modifies this
      ensures if r.Some? then Steps(old(Position()), old(Rank()), old(head), r.value) else error
      ensures Made(FromBlockSequence(tokens, if first then Skipped(old(Now())) else old(Now())), r)
    {
      hide Marks, MarkCount, OpenFrames, Steps, Consumed, PositionOf, Accept, StateOk, FromBlockSequence, FirstOk,
           Begins, FramesOf;
      FirstTable();
      ghost var p, rank, from := Position(), Rank(), head;
      ConsumedNothing(tokens, from);
      if first {
        EnterCollection(BlockSequenceFirstEntryState, BlockSequenceEntryState);
      }
      r := BlockSequenceEntry(p, rank, from);
    }

    method BlockSequenceEntry(ghost p: Pos, ghost rank: int, ghost from: nat) returns (r: Option<Event>)
      requires !error && from <= head <= |tokens| && Consumed(tokens, from, head) == []
      requires Marks(BlockSequenceEntryState, states) == Some(|marks|)
      requires p == PositionOf(BlockSequenceEntryState, states)
      requires 4 * (|tokens| - head) <= rank
      modifies this
      ensures if r.Some? then Steps(p, rank, from, r.value) else error
      ensures Made(FromBlockSequence(tokens, old(Now())), r)
    {
      hide Marks, MarkCount, OpenFrames, Steps, Consumed, PositionOf, Accept, StateOk, Depth, StackOk, Around, Leads,
           EndsWith, FramesOf, MarksOf, InCollection, Optional;
      BlockTable();
      var token := Peek();
      if token == None {
        return None;
      }
      if token.value.BlockEntryToken? {
        r := OptionalAt(BlockSequenceEntryState, BlockSequenceEntryState, true, false, NO_BLOCK_ENTRY, p, rank, from);
      } else if token.value.BlockEndToken? {
        r := EndAt(BlockSequenceEntryState, SequenceEnd, true, true, p, rank, from);
      } else {
        r := FailAt(BlockSequenceEntryState);
      }
    }

    /** A collection that does not continue as it should: an error, with the mark of its start. */
    method FailAt(ghost s: State) returns (r: Option<Event>)
      requires Marks(s, states) == Some(|marks|) && MarksOf(s) == 1
      modifies this
      ensures r == None && error
    {
      hide OpenFrames, Steps, Consumed, PositionOf, Accept;
      InsidePosition(s, states, |marks|);
      marks := marks[..|marks| - 1];
      error := true;
      return None;
    }

    /** `yaml_parser_parse_indentless_sequence_entry` */
    method ParseIndentlessSequenceEntry() returns (r: Option<Event>)
      requires Valid() && state == IndentlessSequenceEntryState
      modifies this
      ensures if r.Some? then Steps(old(Position()), old(Rank()), old(head), r.value) else error
      ensures Made(FromIndentless(tokens, old(Now())), r)
    {
      hide Marks, MarkCount, OpenFrames, Steps, Consumed, PositionOf, Accept, StateOk, Depth, StackOk, Around, Leads,
           EndsWith, FramesOf, MarksOf, InCollection, Optional;
      BlockTable();
      ghost var p, rank, from := Position(), Rank(), head;
      ConsumedNothing(tokens, from);
      var token := Peek();
      if token == None {
        return None;
      }
      if token.value.BlockEntryToken? {
        r := OptionalAt(IndentlessSequenceEntryState, IndentlessSequenceEntryState, true, false, NO_INDENTLESS_ENTRY, p,
                        rank, from);
      } else {
        r := EndAt(IndentlessSequenceEntryState, SequenceEnd, false, false, p, rank, from);
      }
    }

    /** `yaml_parser_parse_block_mapping_key` */
    method ParseBlockMappingKey(first: bool) returns (r: Option<Event>)
      requires Valid() && state == (if first then BlockMappingFirstKeyState else BlockMappingKeyState)
      modifies this
      ensures if r.Some? then Steps(old(Position()), old(Rank()), old(head), r.value) else error
      ensures Made(FromBlockKey(tokens, if first then Skipped(old(Now())) else old(Now())), r)
    {
      hide Marks, MarkCount, OpenFrames, Steps, Consumed, PositionOf, Accept, StateOk, FromBlockKey, FirstOk, Begins,
           FramesOf;
      FirstTable();
      ghost var p, rank, from := Position(), Rank(), head;
      ConsumedNothing(tokens, from);
      if first {
        EnterCollection(BlockMappingFirstKeyState, BlockMappingKeyState);
      }
      r := BlockMappingKey(p, rank, from);
    }

    method BlockMappingKey(ghost p: Pos, ghost rank: int, ghost from: nat) returns (r: Option<Event>)
      requires !error && from <= head <= |tokens| && Consumed(tokens, from, head) == []
      requires Marks(BlockMappingKeyState, states) == Some(|marks|) && p == PositionOf(BlockMappingKeyState, states)
      requires 4 * (|tokens| - head) <= rank
      modifies this
      ensures if r.Some? then Steps(p, rank, from, r.value) else error
      ensures Made(FromBlockKey(tokens, old(Now())), r)
    {
      hide Marks, MarkCount, OpenFrames, Steps, Consumed, PositionOf, Accept, StateOk, Depth, StackOk, Around, Leads,
           EndsWith, FramesOf, MarksOf, InCollection, Optional;
      BlockTable();
      var token := Peek();
      if token == None {
        return None;
      }
      if token.value.KeyToken? {
        r := OptionalAt(BlockMappingKeyState, BlockMappingValueState, true, true, NO_BLOCK_PART, p, rank, from);
      } else if token.value.BlockEndToken? {
        r := EndAt(BlockMappingKeyState, MappingEnd, true, true, p, rank, from);
      } else {
        r := FailAt(BlockMappingKeyState);
      }
    }

    /** `yaml_parser_parse_block_mapping_value` */
    method ParseBlockMappingValue() returns (r: Option<Event>)
      requires Valid() && state == BlockMappingValueState
      modifies this
      ensures if r.Some? then Steps(old(Position()), old(Rank()), old(head), r.value) else error
      ensures Made(FromBlockValue(tokens, old(Now())), r)
    {
      hide Marks, MarkCount, OpenFrames, Steps, Consumed, PositionOf, Accept, StateOk, Depth, StackOk, Around, Leads,
           EndsWith, FramesOf, MarksOf, InCollection, Optional;
      BlockTable();
      ghost var p, rank, from := Position(), Rank(), head;
      ConsumedNothing(tokens, from);
      var token := Peek();
      if token == None {
        return None;
      }
      if token.value.ValueToken? {
        r := OptionalAt(BlockMappingValueState, BlockMappingKeyState, true, true, NO_BLOCK_PART, p, rank, from);
      } else {
        r := EmptyAt(BlockMappingValueState, BlockMappingKeyState, p, rank, from);
      }
    }

    /** The comma that every entry of a flow collection but the first needs. */
    method PassComma(ghost s: State, first: bool, end: Token, ghost from: nat) returns (ok: bool)
      requires !error && from <= head <= |tokens| && Consumed(tokens, from, head) == []
      requires Marks(s, states) == Some(|marks|) && MarksOf(s) == 1
      modifies this
      ensures ok ==> !error && old(head) <= head < |tokens| && Consumed(tokens, from, head) == []
      ensures ok ==> states == old(states) && marks == old(marks) && state == old(state)
      ensures ok && !first && tokens[head] != end ==> head > old(head)
      ensures !ok ==> error
      ensures PastComma(tokens, old(Now()), first, end) == if ok then Some(Now()) else None
    {
      hide Marks, MarkCount, OpenFrames, Consumed, PositionOf, Accept, StateOk, FramesOf, MarksOf;
      ok := false;
      var token := Peek();
      if token == None {
        return;
      }
      if !first && token.value != end {
        if !token.value.FlowEntryToken? {
          var failed := FailAt(s);
          return;
        }
        Skip(from);
        token := Peek();
        if token == None {
          return;
        }
      }
      ok := true;
    }

    /** `yaml_parser_parse_flow_sequence_entry` */
    method ParseFlowSequenceEntry(first: bool) returns (r: Option<Event>)
      requires Valid() && state == (if first then FlowSequenceFirstEntryState else FlowSequenceEntryState)
      modifies this
      ensures if r.Some? then Steps(old(Position()), old(Rank()), old(head), r.value) else error
      ensures Made(FromFlowSequence(tokens, if first then Skipped(old(Now())) else old(Now()), first), r)
    {
      hide Marks, MarkCount, OpenFrames, Steps, Consumed, PositionOf, Accept, StateOk, FromFlowSequence, FirstOk,
           Begins, FramesOf;
      FirstTable();
      ghost var p, rank, from := Position(), Rank(), head;
      ConsumedNothing(tokens, from);
      if first {
        EnterCollection(FlowSequenceFirstEntryState, FlowSequenceEntryState);
      }
      r := FlowSequenceEntry(first, p, rank, from);
    }

    method FlowSequenceEntry(first: bool, ghost p: Pos, ghost rank: int, ghost from: nat) returns (r: Option<Event>)
      requires !error && from <= head <= |tokens| && Consumed(tokens, from, head) == []
      requires Marks(FlowSequenceEntryState, states) == Some(|marks|) && p == PositionOf(FlowSequenceEntryState, states)
      requires 4 * (|tokens| - head) + (if first then 4 else 0) <= rank
      modifies this
      ensures if r.Some? then Steps(p, rank, from, r.value) else error
      ensures Made(FromFlowSequence(tokens, old(Now()), first), r)
    {
      hide Marks, MarkCount, OpenFrames, Steps, Consumed, PositionOf, Accept, StateOk, Depth, StackOk, Around, Leads,
           EndsWith, FramesOf, MarksOf, InCollection, FromNode, Node, PastComma;
      FlowSequenceTable();
      var ok := PassComma(FlowSequenceEntryState, first, FlowSequenceEndToken, from);
      if !ok {
        return None;
      }
      if tokens[head].FlowSequenceEndToken? {
        r := EndAt(FlowSequenceEntryState, SequenceEnd, true, true, p, rank, from);
      } else if tokens[head].KeyToken? {
        PairStarts(states, |marks|);
        state := FlowSequenceEntryMappingKeyState;
        Skip(from);
        var event := MappingStart(None, None, true, Flow);
        Done(p, rank, from, event);
        r := Some(event);
      } else {
        r := NodeAt(FlowSequenceEntryState, FlowSequenceEntryState, false, false, p, rank, from);
      }
    }

    /** `yaml_parser_parse_flow_sequence_entry_mapping_key` */
    method ParseFlowSequenceEntryMappingKey() returns (r: Option<Event>)
      requires Valid() && state == FlowSequenceEntryMappingKeyState
      modifies this
      ensures if r.Some? then Steps(old(Position()), old(Rank()), old(head), r.value) else error
      ensures Made(FromPairKey(tokens, old(Now())), r)
    {
      hide Marks, MarkCount, OpenFrames, Steps, Consumed, PositionOf, Accept, StateOk, Depth, StackOk, Around, Leads,
           EndsWith, FramesOf, MarksOf, InCollection, FromNode, Node;
      FlowSequenceTable();
      ghost var p, rank, from := Position(), Rank(), head;
      ConsumedNothing(tokens, from);
      var token := Peek();
      if token == None {
        return None;
      }
      if !token.value.ValueToken? && !token.value.FlowEntryToken? && !token.value.FlowSequenceEndToken? {
        r := NodeAt(FlowSequenceEntryMappingKeyState, FlowSequenceEntryMappingValueState, false, false, p, rank, from);
      } else if token.value.FlowSequenceEndToken? {
        r := EmptyAt(FlowSequenceEntryMappingKeyState, FlowSequenceEntryMappingValueState, p, rank, from);
      } else {
        Skip(from);
        r := EmptyAt(FlowSequenceEntryMappingKeyState, FlowSequenceEntryMappingValueState, p, rank, from);
      }
    }

    /** `yaml_parser_parse_flow_sequence_entry_mapping_value` */
    method ParseFlowSequenceEntryMappingValue() returns (r: Option<Event>)
      requires Valid() && state == FlowSequenceEntryMappingValueState
      modifies this
      ensures if r.Some? then Steps(old(Position()), old(Rank()), old(head), r.value) else error
      ensures Made(FromPairValue(tokens, old(Now())), r)
    {
      hide Marks, MarkCount, OpenFrames, Steps, Consumed, PositionOf, Accept, StateOk, Depth, StackOk, Around, Leads,
           EndsWith, FramesOf, MarksOf, InCollection, Optional;
      FlowSequenceTable();
      ghost var p, rank, from := Position(), Rank(), head;
      ConsumedNothing(tokens, from);
      var token := Peek();
      if token == None {
        return None;
      }
      if token.value.ValueToken? {
        r := OptionalAt(FlowSequenceEntryMappingValueState, FlowSequenceEntryMappingEndState, false, false,
                        NO_PAIR_VALUE,
                        p, rank, from);
      } else {
        r := EmptyAt(FlowSequenceEntryMappingValueState, FlowSequenceEntryMappingEndState, p, rank, from);
      }
    }

    /** `yaml_parser_parse_flow_sequence_entry_mapping_end` */
    method ParseFlowSequenceEntryMappingEnd() returns (r: Option<Event>)
      requires Valid() && state == FlowSequenceEntryMappingEndState
      modifies this
      ensures if r.Some? then Steps(old(Position()), old(Rank()), old(head), r.value) else error
      ensures Made(FromPairEnd(tokens, old(Now())), r)
    {
      hide Marks, MarkCount, OpenFrames, Steps, Consumed, PositionOf, Accept, StateOk, Depth, StackOk, Around;
      ConsumedNothing(tokens, head);
      PairEnds(states, |marks|);
      var token := Peek();
      if token == None {
        return None;
      }
      state := FlowSequenceEntryState;
      Done(old(Position()), old(Rank()), old(head), MappingEnd);
      return Some(MappingEnd);
    }

    /** `yaml_parser_parse_flow_mapping_key` */
    method ParseFlowMappingKey(first: bool) returns (r: Option<Event>)
      requires Valid() && state == (if first then FlowMappingFirstKeyState else FlowMappingKeyState)
      modifies this
      ensures if r.Some? then Steps(old(Position()), old(Rank()), old(head), r.value) else error
      ensures Made(FromFlowKey(tokens, if first then Skipped(old(Now())) else old(Now()), first), r)
    {
      hide Marks, MarkCount, OpenFrames, Steps, Consumed, PositionOf, Accept, StateOk, FromFlowKey, FirstOk, Begins,
           FramesOf;
      FirstTable();
      ghost var p, rank, from := Position(), Rank(), head;
      ConsumedNothing(tokens, from);
      if first {
        EnterCollection(FlowMappingFirstKeyState, FlowMappingKeyState);
      }
      r := FlowMappingKey(first, p, rank, from);
    }

    method FlowMappingKey(first: bool, ghost p: Pos, ghost rank: int, ghost from: nat) returns (r: Option<Event>)
      requires !error && from <= head <= |tokens| && Consumed(tokens, from, head) == []
      requires Marks(FlowMappingKeyState, states) == Some(|marks|) && p == PositionOf(FlowMappingKeyState, states)
      requires 4 * (|tokens| - head) + (if first then 4 else 0) <= rank
      modifies this
      ensures if r.Some? then Steps(p, rank, from, r.value) else error
      ensures Made(FromFlowKey(tokens, old(Now()), first), r)
    {
      hide Marks, MarkCount, OpenFrames, Steps, Consumed, PositionOf, Accept, StateOk, Depth, StackOk, Around, Leads,
           EndsWith, FramesOf, MarksOf, InCollection, Node, PastComma, Optional;
      FlowMappingTable();
      var ok := PassComma(FlowMappingKeyState, first, FlowMappingEndToken, from);
      if !ok {
        return None;
      }
      if tokens[head].FlowMappingEndToken? {
        r := EndAt(FlowMappingKeyState, MappingEnd, true, true, p, rank, from);
      } else if tokens[head].KeyToken? {
        r := OptionalAt(FlowMappingKeyState, FlowMappingValueState, false, false, NO_FLOW_KEY, p, rank, from);
      } else {
        r := NodeAt(FlowMappingKeyState, FlowMappingEmptyValueState, false, false, p, rank, from);
      }
    }

    /** `yaml_parser_parse_flow_mapping_value` */
    method ParseFlowMappingValue(empty: bool) returns (r: Option<Event>)
      requires Valid() && state == (if empty then FlowMappingEmptyValueState else FlowMappingValueState)
      modifies this
      ensures if r.Some? then Steps(old(Position()), old(Rank()), old(head), r.value) else error
      ensures Made(FromFlowValue(tokens, old(Now()), empty), r)
    {
      hide Marks, MarkCount, OpenFrames, Steps, Consumed, PositionOf, Accept, StateOk, Depth, StackOk, Around, Leads,
           EndsWith, FramesOf, MarksOf, InCollection, Optional;
      FlowMappingTable();
      ghost var s, p, rank, from := state, Position(), Rank(), head;
      ConsumedNothing(tokens, from);
      var token := Peek();
      if token == None {
        return None;
      }
      if !empty && token.value.ValueToken? {
        r := OptionalAt(s, FlowMappingKeyState, false, false, NO_FLOW_VALUE, p, rank, from);
      } else {
        r := EmptyAt(s, FlowMappingKeyState, p, rank, from);
      }
    }

    /** `yaml_parser_parse_node` for the root of a document without markers. */
    method ParseRootNode() returns (r: Option<Event>)
      requires Valid() && state == BlockNodeState
      modifies this
      ensures if r.Some? then Steps(AtRoot, old(Rank()), old(head), r.value) else error
      ensures Made(FromNode(tokens, old(Now()), true, false), r)
    {
      hide Marks, MarkCount, OpenFrames, Steps, Consumed, PositionOf, Accept, StateOk, Depth, StackOk, Around, FromNode;
      ConsumedNothing(tokens, head);
      OuterMarks(state, states, |marks|);
      RootReturn();
      r := ParseNode(true, false, AtRoot, Rank(), head);
    }

    /** `yaml_parser_state_machine`: every event is one the grammar allows next. */
    method Step() returns (r: Option<Event>)
      requires Valid() && state != EndState
      modifies this
      ensures if r.Some? then Steps(old(Position()), old(Rank()), old(head), r.value) else error
      ensures Made(Next(tokens, old(Now())), r)
    {
      hide Marks, MarkCount, OpenFrames, Steps, Consumed, StateOk, FromStreamStart, FromDocumentStart,
           FromDocumentContent, FromDocumentEnd, FromNode, FromBlockSequence, FromIndentless, FromBlockKey,
           FromBlockValue, FromFlowSequence, FromPairKey, FromPairValue, FromPairEnd, FromFlowKey, FromFlowValue;
      match state {
        case StreamStartState => r := ParseStreamStart();
        case ImplicitDocumentStartState => r := ParseDocumentStart(true);
        case DocumentStartState => r := ParseDocumentStart(false);
        case DocumentContentState => r := ParseDocumentContent();
        case DocumentEndState =>
          OuterMarks(state, states, |marks|);
          r := ParseDocumentEnd();
        case BlockNodeState => r := ParseRootNode();
        case BlockSequenceFirstEntryState => r := ParseBlockSequenceEntry(true);
        case BlockSequenceEntryState => r := ParseBlockSequenceEntry(false);
        case IndentlessSequenceEntryState => r := ParseIndentlessSequenceEntry();
        case BlockMappingFirstKeyState => r := ParseBlockMappingKey(true);
        case BlockMappingKeyState => r := ParseBlockMappingKey(false);
        case BlockMappingValueState => r := ParseBlockMappingValue();
        case FlowSequenceFirstEntryState => r := ParseFlowSequenceEntry(true);
        case FlowSequenceEntryState => r := ParseFlowSequenceEntry(false);
        case FlowSequenceEntryMappingKeyState => r := ParseFlowSequenceEntryMappingKey();
        case FlowSequenceEntryMappingValueState => r := ParseFlowSequenceEntryMappingValue();
        case FlowSequenceEntryMappingEndState => r := ParseFlowSequenceEntryMappingEnd();
        case FlowMappingFirstKeyState => r := ParseFlowMappingKey(true);
        case FlowMappingKeyState => r := ParseFlowMappingKey(false);
        case FlowMappingValueState => r := ParseFlowMappingValue(false);
        case FlowMappingEmptyValueState => r := ParseFlowMappingValue(true);
      }
    }
  }

  /** Event k says what the tokens from cuts[k] up to cuts[k + 1] said: none is lost, copied or reordered. */
  ghost predicate Delivers(tokens: seq<Token>, cuts: seq<nat>, events: seq<Event>) {
    && |cuts| == |events| + 1
    && cuts[0] == 0
    && (forall k :: 0 <= k < |cuts| ==> cuts[k] <= |tokens|)
    && (forall k :: 0 <= k < |events| ==>
          cuts[k] <= cuts[k + 1] && Carries(events[k], Consumed(tokens, cuts[k], cuts[k + 1])))
  }

  lemma {:induction false} DeliversOne(tokens: seq<Token>, cuts: seq<nat>, events: seq<Event>, cut: nat, e: Event)
    requires Delivers(tokens, cuts, events) && cuts[|events|] <= cut <= |tokens|
    requires Carries(e, Consumed(tokens, cuts[|events|], cut))
    ensures Delivers(tokens, cuts + [cut], events + [e])
  {
    hide Carries, Consumed;
    var cuts', events' := cuts + [cut], events + [e];
    forall k | 0 <= k < |events'|
      ensures cuts'[k] <= cuts'[k + 1] && Carries(events'[k], Consumed(tokens, cuts'[k], cuts'[k + 1]))
    {
      if k < |events| {
        assert cuts'[k + 1] == cuts[k + 1];
      }
    }
  }

  /**
   Calling `yaml_parser_parse` until the stream ends or fails: the events are those of the moves from the
   first configuration to the last, and it fails only where there is no move.
   */
  method ParseAll(tokens: seq<Token>) returns (events: seq<Event>, ok: bool, ghost cuts: seq<nat>, ghost last: Config)
    ensures Yields(tokens, FIRST, events, last)
    ensures if ok then last.state == EndState else last.state != EndState && Next(tokens, last) == None
    ensures Run(AtStart, events).Some? && exists rest :: IsStream(events + rest)
    ensures ok ==> IsStream(events)
    ensures Delivers(tokens, cuts, events)
    ensures |events| <= 4 * |tokens|
  {
    hide Marks, MarkCount, OpenFrames, PositionOf, Accept, StateOk, Next, Carries, Consumed;
    var parser := new EventParser(tokens);
    events, cuts := [], [0];
    while parser.state != EndState
      invariant parser.Valid() && parser.tokens == tokens
      invariant Yields(tokens, FIRST, events, parser.Now())
      invariant Run(AtStart, events) == Some(parser.Position())
      invariant Delivers(tokens, cuts, events) && cuts[|events|] == parser.head
      invariant |events| + parser.Rank() <= 4 * |tokens|
      decreases parser.Rank()
    {
      ghost var p := parser.Position();
      last := parser.Now();
      var r := parser.Step();
      if r == None {
        AcceptedIffPrefix(events);
        return events, false, cuts, last;
      }
      RunConcat(AtStart, events, [r.value]);
      RunOne(p, r.value);
      DeliversOne(tokens, cuts, events, parser.head, r.value);
      YieldsMore(tokens, FIRST, events, last, Move(r.value, parser.Now()));
      events, cuts := events + [r.value], cuts + [parser.head];
    }
    EndPosition(parser.states);
    AcceptedIffPrefix(events);
    AcceptedIffStream(events);
    return events, true, cuts, parser.Now();
  }
}
