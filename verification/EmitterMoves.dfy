/**
 The moves of the emitter of `emitter.c`: what it checks of the data of an event, and for every state what an event
 makes of the state, the stacks of states and of indents, the flow level and the tag directives in force.
 */
module EmitterMoves {
  import opened Wrappers
  import opened YamlEvents
  import opened EventGrammar
  import opened Tags

  datatype State =
    | StreamStartState
    | FirstDocumentStartState
    | DocumentStartState
    | DocumentContentState
    | DocumentEndState
    | FlowSequenceFirstItemState
    | FlowSequenceItemState
    | FlowMappingFirstKeyState
    | FlowMappingKeyState
    | FlowMappingSimpleValueState
    | FlowMappingValueState
    | BlockSequenceFirstItemState
    | BlockSequenceItemState
    | BlockMappingFirstKeyState
    | BlockMappingKeyState
    | BlockMappingSimpleValueState
    | BlockMappingValueState
    | EndState

  /** The innermost collection of a state, and what the state expects of it. */
  function FrameOf(s: State): Option<Frame> {
    match s
    case FlowSequenceFirstItemState => Some(InSequence)
    case FlowSequenceItemState => Some(InSequence)
    case FlowMappingFirstKeyState => Some(AtKey)
    case FlowMappingKeyState => Some(AtKey)
    case FlowMappingSimpleValueState => Some(AtValue)
    case FlowMappingValueState => Some(AtValue)
    case BlockSequenceFirstItemState => Some(InSequence)
    case BlockSequenceItemState => Some(InSequence)
    case BlockMappingFirstKeyState => Some(AtKey)
    case BlockMappingKeyState => Some(AtKey)
    case BlockMappingSimpleValueState => Some(AtValue)
    case BlockMappingValueState => Some(AtValue)
    case _ => None
  }

  predicate IsFirst(s: State) {
    || s == FlowSequenceFirstItemState || s == FlowMappingFirstKeyState
    || s == BlockSequenceFirstItemState || s == BlockMappingFirstKeyState
  }

  predicate IsFlow(s: State) {
    || s == FlowSequenceFirstItemState || s == FlowSequenceItemState || s == FlowMappingFirstKeyState
    || s == FlowMappingKeyState || s == FlowMappingSimpleValueState || s == FlowMappingValueState
  }

  /** A state that a node may return to, and the indents it has saved. */
  predicate IsReturn(s: State) {
    FrameOf(s).Some? && !IsFirst(s)
  }

  // What the emitter asks of the data of an event.

  predicate AnchorOk(anchor: Option<string>) {
    anchor.Some? ==> NameOk(anchor.value)
  }

  /** Whether the tag of an event has to be written. */
  predicate WritesTag(e: Event, canonical: bool) {
    match e
    case Scalar(_, tag, _, plain, quoted, _) => tag.Some? && (canonical || (!plain && !quoted))
    case SequenceStart(_, tag, implicit, _) => tag.Some? && (canonical || !implicit)
    case MappingStart(_, tag, implicit, _) => tag.Some? && (canonical || !implicit)
    case _ => false
  }

  function TagValue(e: Event): string {
    match e
    case Scalar(_, Some(tag), _, _, _, _) => tag
    case SequenceStart(_, Some(tag), _, _) => tag
    case MappingStart(_, Some(tag), _, _) => tag
    case _ => ""
  }

  /** The names and the tag of an event. */
  predicate DataOk(e: Event, canonical: bool) {
    && (WritesTag(e, canonical) ==> TagValue(e) != "")
    && match e
       case Alias(name) => NameOk(name)
       case Scalar(anchor, _, _, _, _, _) => AnchorOk(anchor)
       case SequenceStart(anchor, _, _, _) => AnchorOk(anchor)
       case MappingStart(anchor, _, _, _) => AnchorOk(anchor)
       case _ => true
  }

  /** The directives of a document, and that a scalar has a tag or may do without one. */
  predicate Carried(e: Event) {
    match e
    case DocumentStart(version, directives, _) => DirectivesOk(version, directives)
    case Scalar(_, tag, _, plain, quoted, _) => tag.Some? || plain || quoted
    case _ => true
  }

  predicate Analyzed(e: Event, canonical: bool) {
    DataOk(e, canonical) && Carried(e)
  }

  ghost predicate AllAnalyzed(events: seq<Event>, canonical: bool) {
    forall i :: 0 <= i < |events| ==> Analyzed(events[i], canonical)
  }

  /** The indent inside a collection: the outermost starts at the margin, unless it is a flow collection. */
  function Deeper(indent: int, best: int, flow: bool, indentless: bool): int {
    if indent < 0 then (if flow then best else 0) else if indentless then indent else indent + best
  }

  // The moves of the machine.

  datatype Machine = Machine(state: State, states: seq<State>, indents: seq<int>, indent: int, flowLevel: nat,
                             directives: seq<TagDirective>)

  function Back(m: Machine): Machine {
    if m.states == [] then m else m.(state := m.states[|m.states| - 1], states := m.states[..|m.states| - 1])
  }

  function Closed(m: Machine): Machine {
    if m.indents == [] then Back(m)
    else Back(m).(indent := m.indents[|m.indents| - 1], indents := m.indents[..|m.indents| - 1])
  }

  function Entered(m: Machine, best: int, flow: bool, indentless: bool): Machine {
    m.(indents := m.indents + [m.indent], indent := Deeper(m.indent, best, flow, indentless))
  }

  /** A node, in flow style if it is a collection and that is so decided. */
  function NodeMove(m: Machine, event: Event, flow: bool): Option<Machine> {
    match event
    case Alias(_) => Some(Back(m))
    case Scalar(_, _, _, _, _, _) => if Carried(event) then Some(Back(m)) else None
    case SequenceStart(_, _, _, _) =>
      Some(m.(state := if flow then FlowSequenceFirstItemState else BlockSequenceFirstItemState))
    case MappingStart(_, _, _, _) =>
      Some(m.(state := if flow then FlowMappingFirstKeyState else BlockMappingFirstKeyState))
    case _ => None
  }

  function InsideMove(m: Machine, event: Event, flow: bool, next: State): Option<Machine> {
    NodeMove(m.(states := m.states + [next]), event, flow)
  }

  /** A part of a flow collection, or its end; `inside` is the machine once the collection is entered. */
  function FlowMove(inside: Machine, event: Event, flow: bool, end: Event, next: State): Option<Machine> {
    if event == end then Some(Closed(inside.(flowLevel := if inside.flowLevel > 0 then inside.flowLevel - 1 else 0)))
    else InsideMove(inside, event, flow, next)
  }

  function BlockMove(inside: Machine, event: Event, flow: bool, end: Event, next: State): Option<Machine> {
    if event == end then Some(Closed(inside)) else InsideMove(inside, event, flow, next)
  }

  function FlowInside(m: Machine, best: int, first: bool): Machine {
    if first then Entered(m, best, true, false).(flowLevel := m.flowLevel + 1) else m
  }

  function BlockInside(m: Machine, best: int, first: bool, indentless: bool): Machine {
    if first then Entered(m, best, false, indentless) else m
  }

  /** How the emitter is set up. */
  datatype Setup = Setup(canonical: bool, best: nat)

  /** The indent that is used: the one that is asked for, from two to nine. */
  function BestIndent(indent: int): nat {
    if 2 <= indent <= 9 then indent else 2
  }

  /**
   What the state and the event leave open: flow style for a collection, whether a key is written as a simple one,
   and whether a sequence is written without an indent of its own.
   */
  datatype Choice = Choice(flow: bool, simpleKey: bool, indentless: bool)

  /** `yaml_emitter_state_machine`; no move is an error. */
  function Moved(m: Machine, event: Event, setup: Setup, ch: Choice): Option<Machine> {
    match m.state
    case StreamStartState =>
      if event.StreamStart? then Some(m.(state := FirstDocumentStartState, indent := -1)) else None
    case FirstDocumentStartState => DocumentMove(m, event)
    case DocumentStartState => DocumentMove(m, event)
    case DocumentContentState => InsideMove(m, event, ch.flow, DocumentEndState)
    case DocumentEndState =>
      if event.DocumentEnd? then Some(m.(state := DocumentStartState, directives := [])) else None
    case FlowSequenceFirstItemState =>
      FlowMove(FlowInside(m, setup.best, true), event, true, SequenceEnd, FlowSequenceItemState)
    case FlowSequenceItemState => FlowMove(m, event, true, SequenceEnd, FlowSequenceItemState)
    case FlowMappingFirstKeyState =>
      FlowMove(FlowInside(m, setup.best, true), event, true, MappingEnd, FlowValueState(setup.canonical, ch.simpleKey))
    case FlowMappingKeyState => FlowMove(m, event, true, MappingEnd, FlowValueState(setup.canonical, ch.simpleKey))
    case FlowMappingSimpleValueState => InsideMove(m, event, true, FlowMappingKeyState)
    case FlowMappingValueState => InsideMove(m, event, true, FlowMappingKeyState)
    case BlockSequenceFirstItemState =>
      BlockMove(BlockInside(m, setup.best, true, ch.indentless), event, ch.flow, SequenceEnd, BlockSequenceItemState)
    case BlockSequenceItemState => BlockMove(m, event, ch.flow, SequenceEnd, BlockSequenceItemState)
    case BlockMappingFirstKeyState =>
      BlockMove(BlockInside(m, setup.best, true, false), event, ch.flow, MappingEnd, BlockValueState(ch.simpleKey))
    case BlockMappingKeyState => BlockMove(m, event, ch.flow, MappingEnd, BlockValueState(ch.simpleKey))
    case BlockMappingSimpleValueState => InsideMove(m, event, ch.flow, BlockMappingKeyState)
    case BlockMappingValueState => InsideMove(m, event, ch.flow, BlockMappingKeyState)
    case EndState => None
  }

  lemma {:induction false} NotFirst(m: Machine, best: int, indentless: bool)
    ensures FlowInside(m, best, false) == m
    ensures BlockInside(m, best, false, indentless) == m && BlockInside(m, best, false, false) == m
  {
  }

  function DocumentMove(m: Machine, event: Event): Option<Machine> {
    if event.DocumentStart? then
      if Carried(event) then Some(m.(state := DocumentContentState, directives := WithDefaults(event.directives)))
      else None
    else if event.StreamEnd? then Some(m.(state := EndState))
    else None
  }

  function FlowValueState(canonical: bool, simpleKey: bool): State {
    if !canonical && simpleKey then FlowMappingSimpleValueState else FlowMappingValueState
  }

  function BlockValueState(simpleKey: bool): State {
    if simpleKey then BlockMappingSimpleValueState else BlockMappingValueState
  }
}
