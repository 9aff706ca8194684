/**
 The emitter of `emitter.c` as it runs: its queue, its stacks of states and of indents, and the tag directives in
 force.  What is written is left out.
 */
module Emitter {
  import opened Wrappers
  import opened YamlEvents
  import opened EventGrammar
  import opened Tags
  import opened EmitterMoves
  import opened EmitterRuns

  /** Outside of a document no directives are in force. */
  predicate BetweenStates(s: State) {
    s == StreamStartState || s == FirstDocumentStartState || s == DocumentStartState || s == EndState
  }

  /** What goes with a stack: open collections, saved indents and the flow level. */
  datatype Shape = Shape(open: seq<Frame>, indents: nat, flow: nat)

  /** Nothing if the stack is not one that occurs while a document is written. */
  ghost function ShapeOf(stack: seq<State>): Option<Shape> {
    if |stack| == 0 then None
    else if |stack| == 1 then (if stack[0] == DocumentEndState then Some(Shape([], 0, 0)) else None)
    else
      match ShapeOf(stack[..|stack| - 1])
      case None => None
      case Some(below) =>
        var top := stack[|stack| - 1];
        if IsReturn(top) && Nests(below, top) then Some(Pushed(below, top)) else None
  }

  /** Inside a flow collection there are only flow collections. */
  ghost predicate Nests(below: Shape, s: State) {
    below.flow > 0 ==> IsFlow(s)
  }

  ghost function Pushed(below: Shape, s: State): Shape
    requires FrameOf(s).Some?
  {
    Shape(below.open + [FrameOf(s).value],
          below.indents + (if IsFirst(s) then 0 else 1),
          below.flow + (if IsFlow(s) && !IsFirst(s) then 1 else 0))
  }

  /** The point of the stream, the saved indents and the flow level that a state and its stack stand for. */
  ghost function Standing(state: State, states: seq<State>): Option<(Pos, nat, nat)> {
    match state
    case StreamStartState => if states == [] then Some((AtStart, 0, 0)) else None
    case FirstDocumentStartState => if states == [] then Some((BetweenDocuments, 0, 0)) else None
    case DocumentStartState => if states == [] then Some((BetweenDocuments, 0, 0)) else None
    case DocumentContentState => if states == [] then Some((AtRoot, 0, 0)) else None
    case DocumentEndState => if states == [] then Some((RootDone, 0, 0)) else None
    case EndState => if states == [] then Some((AtEnd, 0, 0)) else None
    case _ =>
      match ShapeOf(states)
      case None => None
      case Some(below) =>
        if !Nests(below, state) then None
        else
          var shape := Pushed(below, state);
          Some((Inside(shape.open), shape.indents, shape.flow))
  }

  /** Returning from a stack. */
  lemma {:induction false} Returned(stack: seq<State>, shape: Shape)
    requires ShapeOf(stack) == Some(shape)
    ensures stack != [] && !BetweenStates(stack[|stack| - 1])
    ensures Standing(stack[|stack| - 1], stack[..|stack| - 1]) == Some((Outside(shape.open), shape.indents, shape.flow))
  {
    if |stack| == 1 {
      assert stack[..0] == [];
    }
  }

  lemma {:induction false} PushShape(states: seq<State>, below: Shape, r: State)
    requires ShapeOf(states) == Some(below) && IsReturn(r) && Nests(below, r)
    ensures ShapeOf(states + [r]) == Some(Pushed(below, r))
  {
    assert (states + [r])[..|states|] == states;
  }

  lemma {:induction false} RootShape()
    ensures ShapeOf([] + [DocumentEndState]) == Some(Shape([], 0, 0))
  {
  }

  /** Standing inside a collection. */
  lemma {:induction false} StandingInside(s: State, states: seq<State>)
    requires FrameOf(s).Some?
    ensures Standing(s, states).Some? <==> ShapeOf(states).Some? && Nests(ShapeOf(states).value, s)
    ensures ShapeOf(states).Some? && Nests(ShapeOf(states).value, s) ==>
              var shape := Pushed(ShapeOf(states).value, s);
              Standing(s, states) == Some((Inside(shape.open), shape.indents, shape.flow))
  {
  }

  lemma {:induction false} OneAnalyzed(events: seq<Event>, e: Event, canonical: bool)
    requires AllAnalyzed(events, canonical) && Analyzed(e, canonical)
    ensures AllAnalyzed(events + [e], canonical)
  {
    hide Analyzed;
  }

  /** How an event changes the nesting. */
  function Weight(e: Event): int {
    if e.StreamStart? || e.DocumentStart? || e.SequenceStart? || e.MappingStart? then 1
    else if e.StreamEnd? || e.DocumentEnd? || e.SequenceEnd? || e.MappingEnd? then -1
    else 0
  }

  function Level(queue: seq<Event>, n: nat): int
    requires n <= |queue|
  {
    if n == 0 then 0 else Level(queue, n - 1) + Weight(queue[n - 1])
  }

  /** How many events to look ahead. */
  function Lookahead(e: Event): nat {
    if e.DocumentStart? then 1 else if e.SequenceStart? then 2 else if e.MappingStart? then 3 else 0
  }

  /** An opening event waits for enough others, unless what it opens is already closed. */
  ghost predicate NeedMore(queue: seq<Event>) {
    queue == [] || (Lookahead(queue[0]) > 0 && |queue| <= Lookahead(queue[0]) && AllOpen(queue))
  }

  ghost predicate AllOpen(queue: seq<Event>) {
    forall n :: 1 <= n <= |queue| ==> Level(queue, n) != 0
  }

  /** The number of events any stream still needs. */
  function Distance(p: Pos): nat {
    match p
    case AtStart => 2
    case BetweenDocuments => 1
    case AtRoot => 3
    case Inside(open) => |open| + 2
    case RootDone => 2
    case AtEnd => 0
  }

  lemma {:induction false} StreamsAreLongEnough(p: Pos, events: seq<Event>)
    requires PosOk(p) && Run(p, events) == Some(AtEnd)
    ensures |events| >= Distance(p)
    decreases |events|
  {
    if events != [] {
      StreamsAreLongEnough(Accept(p, events[0]).value, events[1..]);
    }
  }

  /** At the end of a stream nothing is held back. */
  lemma {:induction false} NothingHeldBack(p: Pos, queue: seq<Event>)
    requires PosOk(p) && Run(p, queue) == Some(AtEnd) && NeedMore(queue)
    ensures queue == []
  {
    if queue != [] {
      StreamsAreLongEnough(Accept(p, queue[0]).value, queue[1..]);
    }
  }

  /** What a collection looks like to the grammar, from inside. */
  lemma {:induction false} AroundInside(outer: seq<Frame>, f: Frame)
    ensures outer + [f] != [] && Around(Inside(outer + [f])) == outer + [Advance(f)]
    ensures (outer + [f])[..|outer|] == outer
  {
  }

  /** A node is expected at `p`, and `shape` is what the stack says once it is complete. */
  ghost predicate Expecting(p: Pos, shape: Shape) {
    PosOk(p) && ExpectsNode(p) && Around(p) == shape.open
  }

  /** A node about to be written inside a collection in state `s`, with `r` to return to. */
  lemma {:induction false} ExpectInside(s: State, r: State, states: seq<State>)
    requires ShapeOf(states).Some? && FrameOf(s).Some? && IsReturn(r) && IsFlow(r) == IsFlow(s)
    requires Nests(ShapeOf(states).value, s)
    requires FrameOf(r).value == Advance(FrameOf(s).value)
    ensures ShapeOf(states + [r]).Some?
    ensures var below, shape := ShapeOf(states).value, ShapeOf(states + [r]).value;
            && Standing(s, states).Some? && Expecting(Standing(s, states).value.0, shape)
            && shape.indents == below.indents + 1 && shape.flow == below.flow + (if IsFlow(s) then 1 else 0)
  {
    hide ShapeOf, Around;
    var below := ShapeOf(states).value;
    PushShape(states, below, r);
    StandingInside(s, states);
    AroundInside(below.open, FrameOf(s).value);
  }

  lemma {:induction false} WholeNode(p: Pos, stack: seq<State>, e: Event)
    requires ShapeOf(stack).Some? && Expecting(p, ShapeOf(stack).value) && IsLeaf(e)
    ensures stack != [] && !BetweenStates(stack[|stack| - 1])
    ensures var shape := ShapeOf(stack).value;
            && Accept(p, e).Some?
            && Standing(stack[|stack| - 1], stack[..|stack| - 1]) ==
               Some((Accept(p, e).value, shape.indents, shape.flow))
  {
    hide ShapeOf, Around, Standing;
    Returned(stack, ShapeOf(stack).value);
  }

  lemma {:induction false} OpenNode(p: Pos, stack: seq<State>, e: Event, s: State)
    requires ShapeOf(stack).Some? && Expecting(p, ShapeOf(stack).value) && Opens(e)
    requires IsFirst(s) && FrameOf(s) == Some(FirstFrame(e)) && Nests(ShapeOf(stack).value, s)
    ensures var shape := ShapeOf(stack).value;
            && Accept(p, e).Some?
            && Standing(s, stack) == Some((Accept(p, e).value, shape.indents, shape.flow))
  {
    hide ShapeOf, Around, Standing;
    StandingInside(s, stack);
  }

  /** The end of a collection. */
  lemma {:induction false} EndInside(s: State, states: seq<State>, e: Event)
    requires ShapeOf(states).Some? && FrameOf(s).Some? && Nests(ShapeOf(states).value, s)
    requires (FrameOf(s) == Some(InSequence) && e == SequenceEnd) || (FrameOf(s) == Some(AtKey) && e == MappingEnd)
    ensures states != [] && !BetweenStates(states[|states| - 1])
    ensures var below, p := ShapeOf(states).value, Standing(s, states);
            && p.Some? && PosOk(p.value.0)
            && Accept(p.value.0, e).Some?
            && Standing(states[|states| - 1], states[..|states| - 1]) ==
               Some((Accept(p.value.0, e).value, below.indents, below.flow))
  {
    hide ShapeOf, Around, Standing;
    var below := ShapeOf(states).value;
    StandingInside(s, states);
    AroundInside(below.open, FrameOf(s).value);
    Returned(states, below);
  }

  /** Inside a collection, apart from its own end, exactly the nodes are accepted. */
  lemma {:induction false} OnlyNodes(s: State, states: seq<State>, e: Event)
    requires ShapeOf(states).Some? && FrameOf(s).Some? && Nests(ShapeOf(states).value, s)
    requires e == SequenceEnd ==> FrameOf(s) != Some(InSequence)
    requires e == MappingEnd ==> FrameOf(s) != Some(AtKey)
    ensures Standing(s, states).Some? && PosOk(Standing(s, states).value.0)
    ensures Accept(Standing(s, states).value.0, e).Some? <==> IsLeaf(e) || Opens(e)
  {
    hide ShapeOf, Around, Standing;
    StandingInside(s, states);
  }

  /** The points of the stream outside of collections. */
  lemma {:induction false} OuterStanding(state: State, states: seq<State>)
    requires Standing(state, states).Some?
    ensures var p := Standing(state, states).value.0;
            && (state == StreamStartState ==> p == AtStart)
            && (state == FirstDocumentStartState || state == DocumentStartState ==> p == BetweenDocuments)
            && (state == DocumentContentState ==> p == AtRoot) && (state == DocumentEndState ==> p == RootDone)
            && (state == EndState ==> p == AtEnd)
  {
    hide ShapeOf;
  }

  lemma {:induction false} FirstIsInside(s: State)
    requires IsFirst(s)
    ensures !BetweenStates(s)
  {
  }

  lemma {:induction false} NoneOk(version: Option<Version>, directives: seq<TagDirective>)
    ensures DirectivesOk(version, directives) <==> VersionOk(version) && DirectivesOk(None, directives)
    ensures DirectivesOk(None, directives) ==> Sound(directives)
  {
  }

  class EventEmitter {
    const canonical: bool
    var queue: seq<Event>
    var state: State
    var states: seq<State>
    var indents: seq<int>
    var indent: int
    const bestIndent: nat
    var flowLevel: nat
    var tagDirectives: seq<TagDirective>
    var tagHandle: Option<string>
    var tagSuffix: Option<string>

    constructor (canonical: bool, indent: int)
      ensures Valid() && Position() == AtStart && queue == [] && this.canonical == canonical
      ensures bestIndent == BestIndent(indent) && Now() == FIRST
    {
      this.canonical, bestIndent := canonical, BestIndent(indent);
      queue, state, states, indents, this.indent, flowLevel := [], StreamStartState, [], [], 0, 0;
      tagDirectives, tagHandle, tagSuffix := [], None, None;
    }

    ghost predicate Valid()
      reads this
    {
      && Standing(state, states).Some?
      && Standing(state, states).value.1 == |indents|
      && Standing(state, states).value.2 == flowLevel
      && Sound(tagDirectives) && (BetweenStates(state) ==> tagDirectives == [])
    }

    ghost function Position(): (p: Pos)
      requires Valid()
      reads this
      ensures PosOk(p)
    {
      Standing(state, states).value.0
    }

    ghost function Now(): Machine
      reads this
    {
      Machine(state, states, indents, indent, flowLevel, tagDirectives)
    }

    ghost predicate Did(m: Option<Machine>, ok: bool)
      reads this
    {
      ok == m.Some? && (ok ==> Now() == m.value)
    }

    /** The machine has moved as the grammar does, or has refused as the grammar does, or because of the data. */
    ghost predicate Follows(p: Pos, event: Event, ok: bool)
      reads this
    {
      && PosOk(p)
      && (ok <==> Accept(p, event).Some? && Carried(event))
      && (ok ==> Valid() && Position() == Accept(p, event).value)
    }

    /** What is known of the tag of the event at hand: it is read back as it is, if it has to be written. */
    ghost predicate Examined(event: Event)
      reads `tagSuffix, `tagHandle, `tagDirectives
    {
      && (tagSuffix.Some? <==> WritesTag(event, canonical)) && (tagHandle.Some? ==> tagSuffix.Some?)
      && (tagSuffix.Some? ==> Read(tagDirectives, Short(tagHandle, tagSuffix.value)) == Some(TagValue(event)))
    }

    /** `yaml_emitter_analyze_anchor` */
    method AnalyzeAnchor(anchor: string) returns (ok: bool)
      ensures ok <==> NameOk(anchor)
    {
      if anchor == "" {
        return false;
      }
      for k := 0 to |anchor|
        invariant forall i :: 0 <= i < k ==> IsAlpha(anchor[i])
      {
        if !IsAlpha(anchor[k]) {
          return false;
        }
      }
      return true;
    }

    /** `yaml_emitter_analyze_tag`: the first directive whose prefix the tag begins with gives the handle. */
    method AnalyzeTag(tag: string) returns (ok: bool)
      requires Sound(tagDirectives)
      modifies `tagHandle, `tagSuffix
      ensures ok <==> tag != ""
      ensures ok ==> tagSuffix.Some? && Short(tagHandle, tagSuffix.value) == Shortened(tagDirectives, tag)
      ensures ok ==> Read(tagDirectives, Short(tagHandle, tagSuffix.value)) == Some(tag)
    {
      if tag == "" {
        return false;
      }
      ReadAfterShortened(tagDirectives, tag);
      assert tagDirectives[0..] == tagDirectives;
      for k := 0 to |tagDirectives|
        invariant Shortened(tagDirectives, tag) == Shortened(tagDirectives[k..], tag)
      {
        var d := tagDirectives[k];
        assert tagDirectives[k..][1..] == tagDirectives[k + 1..];
        if |d.prefix| < |tag| && d.prefix <= tag {
          tagHandle, tagSuffix := Some(d.handle), Some(tag[|d.prefix|..]);
          return true;
        }
      }
      tagHandle, tagSuffix := None, Some(tag);
      return true;
    }

    /** `yaml_emitter_analyze_event` */
    method AnalyzeEvent(event: Event) returns (ok: bool)
      requires Sound(tagDirectives)
      modifies `tagHandle, `tagSuffix
      ensures ok <==> DataOk(event, canonical)
      ensures ok ==> Examined(event)
    {
      hide NameOk, Shortened, Read, Sound;
      tagHandle, tagSuffix := None, None;
      match event {
        case Alias(name) =>
          ok := AnalyzeAnchor(name);
        case Scalar(anchor, tag, _, plain, quoted, _) =>
          ok := AnalyzeProperties(anchor, tag, canonical || (!plain && !quoted));
        case SequenceStart(anchor, tag, implicit, _) =>
          ok := AnalyzeProperties(anchor, tag, canonical || !implicit);
        case MappingStart(anchor, tag, implicit, _) =>
          ok := AnalyzeProperties(anchor, tag, canonical || !implicit);
        case _ =>
          ok := true;
      }
    }

    /** The anchor and the tag of a node; the tag counts only if it has to be written. */
    method AnalyzeProperties(anchor: Option<string>, tag: Option<string>, written: bool) returns (ok: bool)
      requires Sound(tagDirectives) && tagHandle == None && tagSuffix == None
      modifies `tagHandle, `tagSuffix
      ensures ok <==> AnchorOk(anchor) && (written && tag.Some? ==> tag.value != "")
      ensures ok ==> (tagSuffix.Some? <==> written && tag.Some?) && (tagHandle.Some? ==> tagSuffix.Some?)
      ensures ok && tagSuffix.Some? ==> Read(tagDirectives, Short(tagHandle, tagSuffix.value)) == tag
    {
      hide NameOk, Shortened, Read, Sound;
      if anchor.Some? {
        ok := AnalyzeAnchor(anchor.value);
        if !ok {
          return;
        }
      }
      if tag.Some? && written {
        ok := AnalyzeTag(tag.value);
        if !ok {
          return;
        }
      }
      return true;
    }

    /** `yaml_emitter_analyze_version_directive` */
    method AnalyzeVersion(version: Version) returns (ok: bool)
      ensures ok <==> VersionOk(Some(version))
    {
      ok := !(version.major != 1 || (version.minor != 1 && version.minor != 2));
    }

    /** `yaml_emitter_analyze_tag_directive` */
    method AnalyzeTagDirective(d: TagDirective) returns (ok: bool)
      ensures ok <==> DirectiveOk(d)
    {
      var n := |d.handle|;
      if n == 0 || d.handle[0] != '!' || d.handle[n - 1] != '!' {
        return false;
      }
      var k := 1;
      while k < n - 1
        invariant 1 <= k && forall i :: 1 <= i < k && i < n - 1 ==> IsAlpha(d.handle[i])
      {
        if !IsAlpha(d.handle[k]) {
          return false;
        }
        k := k + 1;
      }
      return d.prefix != "";
    }

    /** `yaml_emitter_append_tag_directive` */
    method AppendTagDirective(value: TagDirective, allowDuplicates: bool) returns (ok: bool)
      modifies `tagDirectives
      ensures ok <==> allowDuplicates || !HasHandle(old(tagDirectives), value.handle)
      ensures tagDirectives == WithDefault(old(tagDirectives), value)
    {
      for k := 0 to |tagDirectives|
        invariant tagDirectives == old(tagDirectives)
        invariant forall j :: 0 <= j < k ==> tagDirectives[j].handle != value.handle
      {
        if tagDirectives[k].handle == value.handle {
          return allowDuplicates;
        }
      }
      tagDirectives := tagDirectives + [value];
      return true;
    }

    /** The directives of a document, with the defaults. */
    method AppendDirectives(version: Option<Version>, directives: seq<TagDirective>) returns (ok: bool)
      requires tagDirectives == []
      modifies `tagDirectives
      ensures ok <==> DirectivesOk(version, directives)
      ensures ok ==> tagDirectives == WithDefaults(directives) && Sound(tagDirectives)
    {
      hide DirectivesOk, HasHandle, Sound;
      NoneOk(version, directives);
      if version.Some? {
        ok := AnalyzeVersion(version.value);
        if !ok {
          return;
        }
      }
      ok := AppendAll(directives);
      if !ok {
        return;
      }
      DefaultsSound(directives);
      var _ := AppendTagDirective(PRIMARY, true);
      var _ := AppendTagDirective(SECONDARY, true);
    }

    method AppendAll(directives: seq<TagDirective>) returns (ok: bool)
      requires tagDirectives == []
      modifies `tagDirectives
      ensures ok <==> DirectivesOk(None, directives)
      ensures ok ==> tagDirectives == directives
    {
      hide DirectiveOk;
      for k := 0 to |directives|
        invariant tagDirectives == directives[..k] && DirectivesOk(None, directives[..k])
      {
        ok := AnalyzeTagDirective(directives[k]);
        if !ok {
          return;
        }
        ghost var was := tagDirectives;
        ok := AppendTagDirective(directives[k], false);
        if !ok {
          ghost var j :| 0 <= j < |was| && was[j].handle == directives[k].handle;
          assert directives[j].handle == directives[k].handle;
          return;
        }
        assert directives[..k + 1] == directives[..k] + [directives[k]];
      }
      assert directives[..|directives|] == directives;
      return true;
    }

    /** `yaml_emitter_increase_indent` */
    method IncreaseIndent(flow: bool, indentless: bool)
      modifies `indents, `indent
      ensures indents == old(indents) + [old(indent)] && indent == Deeper(old(indent), bestIndent, flow, indentless)
    {
      indents := indents + [indent];
      if indent < 0 {
        indent := if flow then bestIndent else 0;
      } else if !indentless {
        indent := indent + bestIndent;
      }
    }

    /** `yaml_emitter_emit_stream_start` */
    method EmitStreamStart(event: Event) returns (ok: bool)
      requires Valid() && state == StreamStartState
      modifies `state, `states, `indents, `indent, `flowLevel
      ensures Follows(AtStart, event, ok)
      ensures Did(if event.StreamStart? then Some(old(Now()).(state := FirstDocumentStartState, indent := -1))
                  else None, ok)
    {
      if event.StreamStart? {
        indent := -1;
        state := FirstDocumentStartState;
        return true;
      }
      return false;
    }

    /** `yaml_emitter_emit_document_start` */
    method EmitDocumentStart(event: Event) returns (ok: bool)
      requires Valid() && (state == FirstDocumentStartState || state == DocumentStartState)
      modifies `state, `tagDirectives
      ensures Follows(BetweenDocuments, event, ok)
      ensures Did(DocumentMove(old(Now()), event), ok)
    {
      hide Sound, DirectivesOk, WithDefaults;
      if event.DocumentStart? {
        ok := AppendDirectives(event.version, event.directives);
        if !ok {
          return;
        }
        state := DocumentContentState;
        return true;
      } else if event.StreamEnd? {
        state := EndState;
        return true;
      }
      return false;
    }

    /** `yaml_emitter_emit_document_content` */
    method EmitDocumentContent(event: Event) returns (ok: bool)
      requires Valid() && state == DocumentContentState && Examined(event)
      modifies `state, `states, `indents, `indent, `flowLevel
      ensures Follows(AtRoot, event, ok)
      ensures Did(InsideMove(old(Now()), event, old(WritesFlow(event)), DocumentEndState), ok)
    {
      hide Sound, Read, Carried, WritesTag, TagValue, ShapeOf;
      RootShape();
      states := states + [DocumentEndState];
      ok := EmitNode(event, AtRoot);
    }

    /** `yaml_emitter_emit_document_end` */
    method EmitDocumentEnd(event: Event) returns (ok: bool)
      requires Valid() && state == DocumentEndState
      modifies `state, `tagDirectives
      ensures Follows(RootDone, event, ok)
      ensures Did(if event.DocumentEnd? then Some(old(Now()).(state := DocumentStartState, directives := [])) else None,
                  ok)
    {
      if event.DocumentEnd? {
        state := DocumentStartState;
        tagDirectives := [];
        return true;
      }
      return false;
    }

    /** A node may be written, to be followed by the state on the stack. */
    ghost predicate AtNode(p: Pos)
      reads this
    {
      && ShapeOf(states).Some? && Expecting(p, ShapeOf(states).value) && Sound(tagDirectives)
      && |indents| == ShapeOf(states).value.indents && flowLevel == ShapeOf(states).value.flow
    }

    /** `yaml_emitter_emit_alias` */
    method EmitAlias(event: Event, ghost p: Pos)
      requires AtNode(p) && event.Alias?
      modifies `state, `states
      ensures Follows(p, event, true) && Now() == Back(old(Now()))
    {
      hide Sound, ShapeOf, Standing, Accept, Around;
      WholeNode(p, states, event);
      state, states := states[|states| - 1], states[..|states| - 1];
    }

    /** `yaml_emitter_emit_scalar`, from the refusal in `yaml_emitter_select_scalar_style` on. */
    method EmitScalar(event: Event, ghost p: Pos) returns (ok: bool)
      requires AtNode(p) && event.Scalar? && Examined(event)
      modifies `state, `states, `indents, `indent
      ensures ok <==> Carried(event)
      ensures ok ==> Follows(p, event, true) && Now() == Back(old(Now()))
    {
      hide Sound, Read, TagValue, ShapeOf, Standing, Accept, Around;
      if tagHandle == None && tagSuffix == None && !event.plainImplicit && !event.quotedImplicit {
        return false;
      }
      WholeNode(p, states, event);
      IncreaseIndent(true, false);
      indent, indents := indents[|indents| - 1], indents[..|indents| - 1];
      state, states := states[|states| - 1], states[..|states| - 1];
      return true;
    }

    /** `yaml_emitter_emit_sequence_start` and `yaml_emitter_emit_mapping_start`. */
    method EmitStart(event: Event, flow: State, block: State, ghost p: Pos)
      requires AtNode(p) && Opens(event) && IsFirst(flow) && IsFlow(flow) && IsFirst(block)
      requires FrameOf(flow) == Some(FirstFrame(event)) && FrameOf(block) == Some(FirstFrame(event))
      modifies `state
      ensures Follows(p, event, true)
      ensures Now() == old(Now()).(state := if old(WritesFlow(event)) then flow else block)
    {
      hide Sound, ShapeOf, Standing, Accept, Around, FrameOf;
      var s := if WritesFlow(event) then flow else block;
      OpenNode(p, states, event, s);
      FirstIsInside(s);
      state := s;
    }

    /** `yaml_emitter_emit_node`; a collection is written in flow style if it must be or if it is empty. */
    method EmitNode(event: Event, ghost p: Pos) returns (ok: bool)
      requires AtNode(p) && Examined(event)
      modifies `state, `states, `indents, `indent, `flowLevel
      ensures ok <==> (IsLeaf(event) || Opens(event)) && Carried(event)
      ensures ok ==> Follows(p, event, true)
      ensures Did(NodeMove(old(Now()), event, old(WritesFlow(event))), ok)
    {
      hide Sound, Read, TagValue, ShapeOf, Standing, Accept, Around, AtNode, Follows, Back, Examined, WritesFlow;
      match event {
        case Alias(_) =>
          EmitAlias(event, p);
          ok := true;
        case Scalar(_, _, _, _, _, _) =>
          ok := EmitScalar(event, p);
        case SequenceStart(_, _, _, _) =>
          EmitStart(event, FlowSequenceFirstItemState, BlockSequenceFirstItemState, p);
          ok := true;
        case MappingStart(_, _, _, _) =>
          EmitStart(event, FlowMappingFirstKeyState, BlockMappingFirstKeyState, p);
          ok := true;
        case _ =>
          ok := false;
      }
    }

    /** A collection is written in flow style inside another, on demand, in canonical form and where it is empty. */
    predicate WritesFlow(event: Event)
      reads `flowLevel, `queue
    {
      || flowLevel > 0 || canonical
      || (event.SequenceStart? && (event.style == Flow || EmptyAhead(SequenceEnd)))
      || (event.MappingStart? && (event.style == Flow || EmptyAhead(MappingEnd)))
    }

    /** `yaml_emitter_check_empty_sequence` and `yaml_emitter_check_empty_mapping` */
    predicate EmptyAhead(end: Event)
      reads `queue
    {
      |queue| >= 2 && queue[1] == end
    }

    /** A node inside the collection that state `s` is in, to be followed by state `next`. */
    method EmitInside(event: Event, ghost s: State, next: State) returns (ok: bool)
      requires ShapeOf(states).Some? && FrameOf(s).Some? && IsReturn(next) && IsFlow(next) == IsFlow(s)
      requires Nests(ShapeOf(states).value, s)
      requires FrameOf(next).value == Advance(FrameOf(s).value)
      requires event == SequenceEnd ==> FrameOf(s) != Some(InSequence)
      requires (event == MappingEnd ==> FrameOf(s) != Some(AtKey)) && Examined(event)
      requires |indents| == ShapeOf(states).value.indents + 1 && Sound(tagDirectives)
      requires flowLevel == ShapeOf(states).value.flow + (if IsFlow(s) then 1 else 0)
      modifies `state, `states, `indents, `indent, `flowLevel
      ensures old(Standing(s, states)).Some? && Follows(old(Standing(s, states)).value.0, event, ok)
      ensures Did(InsideMove(old(Now()), event, old(WritesFlow(event)), next), ok)
    {
      hide Sound, Carried, ShapeOf, Standing, Accept, Around, FrameOf, Follows, Examined, NodeMove, WritesFlow, Opens,
           IsLeaf;
      OnlyNodes(s, states, event);
      ExpectInside(s, next, states);
      ghost var p := Standing(s, states).value.0;
      states := states + [next];
      ok := EmitNode(event, p);
      if !ok {
        RefusedAt(p, event);
      }
    }

    lemma {:induction false} RefusedAt(p: Pos, event: Event)
      requires PosOk(p) && !(Accept(p, event).Some? && Carried(event))
      ensures Follows(p, event, false)
    {
      hide Accept, Carried;
    }

    lemma {:induction false} EndedAt(p: Pos, event: Event)
      requires PosOk(p) && Accept(p, event).Some? && (event == SequenceEnd || event == MappingEnd)
      requires Standing(state, states) == Some((Accept(p, event).value, |indents|, flowLevel))
      requires Sound(tagDirectives) && !BetweenStates(state)
      ensures Follows(p, event, true)
    {
      hide Accept, Standing, Sound;
    }

    /** The end of the collection that state `s` is in. */
    method EmitEnd(event: Event, ghost s: State) returns (ok: bool)
      requires ShapeOf(states).Some? && FrameOf(s).Some? && Nests(ShapeOf(states).value, s)
      requires (FrameOf(s) == Some(InSequence) && event == SequenceEnd)
               || (FrameOf(s) == Some(AtKey) && event == MappingEnd)
      requires |indents| == ShapeOf(states).value.indents + 1 && Sound(tagDirectives)
      requires flowLevel == ShapeOf(states).value.flow
      modifies `state, `states, `indents, `indent, `flowLevel
      ensures ok && old(Standing(s, states)).Some? && Follows(old(Standing(s, states)).value.0, event, ok)
      ensures Did(Some(Closed(old(Now()))), ok)
    {
      hide Sound, ShapeOf, Standing, Accept, Around, FrameOf, Follows, BetweenStates, PosOk;
      EndInside(s, states, event);
      ghost var p := Standing(s, states).value.0;
      indent, indents := indents[|indents| - 1], indents[..|indents| - 1];
      state, states := states[|states| - 1], states[..|states| - 1];
      EndedAt(p, event);
      return true;
    }

    /** The first part of a flow collection. */
    method EnterFlow()
      modifies `indents, `indent, `flowLevel
      ensures Now() == FlowInside(old(Now()), bestIndent, true)
    {
      IncreaseIndent(true, false);
      flowLevel := flowLevel + 1;
    }

    /** `yaml_emitter_emit_flow_sequence_item` */
    method EmitFlowSequenceItem(event: Event, first: bool) returns (ok: bool)
      requires Valid() && state == (if first then FlowSequenceFirstItemState else FlowSequenceItemState)
      requires Examined(event)
      modifies `state, `states, `indents, `indent, `flowLevel
      ensures Follows(old(Position()), event, ok)
      ensures Did(FlowMove(FlowInside(old(Now()), bestIndent, first), event, true, SequenceEnd, FlowSequenceItemState),
                  ok)
    {
      hide Sound, Read, Carried, WritesTag, TagValue, ShapeOf, Standing, Accept, Around;
      StandingInside(state, states);
      if first {
        EnterFlow();
      }
      if event.SequenceEnd? {
        flowLevel := flowLevel - 1;
        ok := EmitEnd(event, state);
        return;
      }
      ok := EmitInside(event, state, FlowSequenceItemState);
    }

    /** `yaml_emitter_emit_flow_mapping_key` */
    method EmitFlowMappingKey(event: Event, first: bool, simpleKey: bool) returns (ok: bool)
      requires Valid() && state == (if first then FlowMappingFirstKeyState else FlowMappingKeyState) && Examined(event)
      modifies `state, `states, `indents, `indent, `flowLevel
      ensures Follows(old(Position()), event, ok)
      ensures Did(FlowMove(FlowInside(old(Now()), bestIndent, first), event, true, MappingEnd,
                           FlowValueState(canonical, simpleKey)), ok)
    {
      hide Sound, Read, Carried, WritesTag, TagValue, ShapeOf, Standing, Accept, Around;
      StandingInside(state, states);
      if first {
        EnterFlow();
      }
      if event.MappingEnd? {
        flowLevel := flowLevel - 1;
        ok := EmitEnd(event, state);
        return;
      }
      ok := EmitInside(event, state,
                       if !canonical && simpleKey then FlowMappingSimpleValueState else FlowMappingValueState);
    }

    /** `yaml_emitter_emit_flow_mapping_value` */
    method EmitFlowMappingValue(event: Event) returns (ok: bool)
      requires Valid() && (state == FlowMappingSimpleValueState || state == FlowMappingValueState) && Examined(event)
      modifies `state, `states, `indents, `indent, `flowLevel
      ensures Follows(old(Position()), event, ok)
      ensures Did(InsideMove(old(Now()), event, true, FlowMappingKeyState), ok)
    {
      hide Sound, Read, Carried, WritesTag, TagValue, ShapeOf, Standing, Accept, Around;
      StandingInside(state, states);
      ok := EmitInside(event, state, FlowMappingKeyState);
    }

    /** `yaml_emitter_emit_block_sequence_item` */
    method EmitBlockSequenceItem(event: Event, first: bool, indentless: bool) returns (ok: bool)
      requires Valid() && state == (if first then BlockSequenceFirstItemState else BlockSequenceItemState)
      requires Examined(event)
      modifies `state, `states, `indents, `indent, `flowLevel
      ensures Follows(old(Position()), event, ok)
      ensures Did(BlockMove(BlockInside(old(Now()), bestIndent, first, indentless), event, old(WritesFlow(event)),
                            SequenceEnd, BlockSequenceItemState), ok)
    {
      hide Sound, Read, Carried, WritesTag, TagValue, ShapeOf, Standing, Accept, Around;
      StandingInside(state, states);
      if first {
        IncreaseIndent(false, indentless);
      }
      if event.SequenceEnd? {
        ok := EmitEnd(event, state);
        return;
      }
      ok := EmitInside(event, state, BlockSequenceItemState);
    }

    /** `yaml_emitter_emit_block_mapping_key` */
    method EmitBlockMappingKey(event: Event, first: bool, simpleKey: bool) returns (ok: bool)
      requires Valid() && state == (if first then BlockMappingFirstKeyState else BlockMappingKeyState)
      requires Examined(event)
      modifies `state, `states, `indents, `indent, `flowLevel
      ensures Follows(old(Position()), event, ok)
      ensures Did(BlockMove(BlockInside(old(Now()), bestIndent, first, false), event, old(WritesFlow(event)),
                            MappingEnd,
                            BlockValueState(simpleKey)), ok)
    {
      hide Sound, Read, Carried, WritesTag, TagValue, ShapeOf, Standing, Accept, Around;
      StandingInside(state, states);
      if first {
        IncreaseIndent(false, false);
      }
      if event.MappingEnd? {
        ok := EmitEnd(event, state);
        return;
      }
      ok := EmitInside(event, state, if simpleKey then BlockMappingSimpleValueState else BlockMappingValueState);
    }

    /** `yaml_emitter_emit_block_mapping_value` */
    method EmitBlockMappingValue(event: Event) returns (ok: bool)
      requires Valid() && (state == BlockMappingSimpleValueState || state == BlockMappingValueState) && Examined(event)
      modifies `state, `states, `indents, `indent, `flowLevel
      ensures Follows(old(Position()), event, ok)
      ensures Did(InsideMove(old(Now()), event, old(WritesFlow(event)), BlockMappingKeyState), ok)
    {
      hide Sound, Read, Carried, WritesTag, TagValue, ShapeOf, Standing, Accept, Around;
      StandingInside(state, states);
      ok := EmitInside(event, state, BlockMappingKeyState);
    }

    /**
     `yaml_emitter_state_machine`: an event is refused exactly when the grammar refuses it, or when its directives or
     the flags of a scalar do not allow it.  Whether a key is simple and whether a sequence is indentless depend on
     the text written; they are parameters.
     */
    method Step(event: Event, simpleKey: bool, indentless: bool) returns (ok: bool)
      requires Valid() && Examined(event)
      modifies `state, `states, `indents, `indent, `flowLevel, `tagDirectives
      ensures Follows(old(Position()), event, ok)
      ensures Did(Moved(old(Now()), event, Setup(canonical, bestIndent),
                        Choice(old(WritesFlow(event)), simpleKey, indentless)), ok)
    {
      hide Sound, ShapeOf, Standing, InsideMove, FlowMove, BlockMove, FlowValueState, BlockValueState, DocumentMove,
           BlockInside, FlowInside, Follows, Examined, WritesFlow, Accept, Carried, PosOk, FrameOf, IsFlow;
      NotFirst(Now(), bestIndent, indentless);
      OuterStanding(state, states);
      match state {
        case StreamStartState => ok := EmitStreamStart(event);
        case FirstDocumentStartState => ok := EmitDocumentStart(event);
        case DocumentStartState => ok := EmitDocumentStart(event);
        case DocumentContentState => ok := EmitDocumentContent(event);
        case DocumentEndState => ok := EmitDocumentEnd(event);
        case FlowSequenceFirstItemState => ok := EmitFlowSequenceItem(event, true);
        case FlowSequenceItemState => ok := EmitFlowSequenceItem(event, false);
        case FlowMappingFirstKeyState => ok := EmitFlowMappingKey(event, true, simpleKey);
        case FlowMappingKeyState => ok := EmitFlowMappingKey(event, false, simpleKey);
        case FlowMappingSimpleValueState => ok := EmitFlowMappingValue(event);
        case FlowMappingValueState => ok := EmitFlowMappingValue(event);
        case BlockSequenceFirstItemState => ok := EmitBlockSequenceItem(event, true, indentless);
        case BlockSequenceItemState => ok := EmitBlockSequenceItem(event, false, indentless);
        case BlockMappingFirstKeyState => ok := EmitBlockMappingKey(event, true, simpleKey);
        case BlockMappingKeyState => ok := EmitBlockMappingKey(event, false, simpleKey);
        case BlockMappingSimpleValueState => ok := EmitBlockMappingValue(event);
        case BlockMappingValueState => ok := EmitBlockMappingValue(event);
        case EndState =>
          AfterEnd(event);
          ok := false;
      }
    }

    lemma {:induction false} AfterEnd(event: Event)
      requires Valid() && Position() == AtEnd
      ensures Follows(AtEnd, event, false)
    {
    }

    /** `yaml_emitter_need_more_events` */
    method NeedMoreEvents() returns (more: bool)
      ensures more <==> NeedMore(queue)
      ensures queue == [] ==> more
    {
      if queue == [] {
        return true;
      }
      var accumulate := Lookahead(queue[0]);
      if accumulate == 0 || |queue| > accumulate {
        return false;
      }
      var level := 0;
      for n := 0 to |queue|
        invariant level == Level(queue, n)
        invariant forall j :: 1 <= j <= n ==> Level(queue, j) != 0
      {
        level := level + Weight(queue[n]);
        if level == 0 {
          assert Level(queue, n + 1) == 0;
          return false;
        }
      }
      return true;
    }

    /**
     `yaml_emitter_emit`: events are taken from the queue until more are needed, or until one is refused, by the
     grammar or because of its data.
     */
    method Emit(event: Event) returns (ok: bool, ghost taken: nat, ghost choices: seq<Choice>)
      requires Valid()
      modifies this
      ensures ok ==> Valid() && NeedMore(queue)
      ensures ok ==> && |choices| == taken <= |old(queue) + [event]|
                     && Ran(old(Now()), (old(queue) + [event])[..taken], Setup(canonical, bestIndent), choices) ==
                        Some(Now())
      ensures var all := old(queue) + [event];
              && taken <= |all| && AllAnalyzed(all[..taken], canonical)
              && if ok then queue == all[taken..] && Run(old(Position()), all[..taken]) == Some(Position())
                 else
                   && taken < |all| && Run(old(Position()), all[..taken]).Some?
                   && (Run(old(Position()), all[..taken + 1]) == None || !Analyzed(all[taken], canonical))
    {
      hide NeedMore, Accept, Standing, ShapeOf, Run, DataOk, Carried, Sound, Ran, Moved;
      queue := queue + [event];
      ghost var all := queue;
      taken, choices := 0, [];
      RunNothing(Position());
      RanNothing(Now(), Setup(canonical, bestIndent));
      assert all[..0] == [];
      var more := NeedMoreEvents();
      while !more
        invariant Valid() && (more <==> NeedMore(queue)) && (queue == [] ==> more)
        invariant taken <= |all| && queue == all[taken..] && Run(old(Position()), all[..taken]) == Some(Position())
        invariant AllAnalyzed(all[..taken], canonical) && |choices| == taken
        invariant Ran(old(Now()), all[..taken], Setup(canonical, bestIndent), choices) == Some(Now())
        decreases |queue|
      {
        var simpleKey: bool, indentless: bool := *, *;
        assert all[..taken + 1] == all[..taken] + [queue[0]];
        RunConcat(old(Position()), all[..taken], [queue[0]]);
        RunOne(Position(), queue[0]);
        ok := AnalyzeEvent(queue[0]);
        if !ok {
          return;
        }
        ghost var ch := Choice(WritesFlow(queue[0]), simpleKey, indentless);
        RanOne(Now(), queue[0], Setup(canonical, bestIndent), ch);
        RanConcat(old(Now()), all[..taken], [queue[0]], Setup(canonical, bestIndent), choices, [ch]);
        ok := Step(queue[0], simpleKey, indentless);
        if !ok {
          return;
        }
        choices := choices + [ch];
        OneAnalyzed(all[..taken], queue[0], canonical);
        queue, taken := queue[1..], taken + 1;
        more := NeedMoreEvents();
      }
      ok := true;
    }
  }

  /**
   Emitting a sequence of events one by one: the events are taken in order, each as the grammar says, and the
   first that the grammar refuses, or whose data is not allowed, is refused.  A whole stream is taken exactly if
   the data of all its events is allowed, and then nothing is left in the queue.
   */
  method EmitAll(events: seq<Event>, canonical: bool, indent: int)
    returns (ok: bool, left: seq<Event>, ghost taken: nat, ghost choices: seq<Choice>, ghost last: Machine)
    ensures taken <= |events| && Run(AtStart, events[..taken]).Some? && AllAnalyzed(events[..taken], canonical)
    ensures ok ==> left == events[taken..] && NeedMore(left)
    ensures !ok ==> && taken < |events|
                    && (Run(AtStart, events[..taken + 1]) == None || !Analyzed(events[taken], canonical))
    ensures Run(AtStart, events).Some? && AllAnalyzed(events, canonical) ==> ok
    ensures IsStream(events) ==> (ok <==> AllAnalyzed(events, canonical)) && (ok ==> left == [] && last == LAST)
    ensures ok ==> |choices| == taken
    ensures ok ==> Ran(FIRST, events[..taken], Setup(canonical, BestIndent(indent)), choices) == Some(last)
  {
    hide Accept, IsStream, Standing, ShapeOf, Run, NeedMore, Analyzed, AllAnalyzed, Sound, Ran, Progress, BestIndent,
         PosOk, BetweenStates;
    var emitter := new EventEmitter(canonical, indent);
    ghost var setup := Setup(canonical, BestIndent(indent));
    taken, choices, last := 0, [], emitter.Now();
    NoProgress(events, setup);
    for n := 0 to |events|
      invariant emitter.Valid() && fresh(emitter) && emitter.canonical == canonical && NeedMore(emitter.queue)
      invariant taken <= n && emitter.bestIndent == setup.best && emitter.queue == events[taken..n]
      invariant Progress(events, setup, taken, choices, emitter.Now(), emitter.Position())
    {
      ghost var p, m := emitter.Position(), emitter.Now();
      assert events[taken..n] + [events[n]] == events[taken..n + 1];
      ghost var more, chosen;
      ok, more, chosen := emitter.Emit(events[n]);
      if !ok {
        Stopped(events, setup, taken, choices, m, p, n + 1, more);
        return false, emitter.queue, taken + more, choices, last;
      }
      MoreProgress(events, setup, taken, choices, m, p, n + 1, more, chosen, emitter.Now(), emitter.Position());
      taken, choices := taken + more, choices + chosen;
    }
    assert events[taken..|events|] == events[taken..];
    Finished(events, setup, taken, choices, emitter.Now(), emitter.Position());
    return true, emitter.queue, taken, choices, emitter.Now();
  }

  /** The first events are taken: by the grammar, by their data, and by the moves of the machine. */
  ghost predicate Progress(events: seq<Event>, setup: Setup, taken: nat, choices: seq<Choice>, m: Machine, p: Pos) {
    && taken <= |events| && AllAnalyzed(events[..taken], setup.canonical) && |choices| == taken
    && PosOk(p) && Run(AtStart, events[..taken]) == Some(p)
    && Ran(FIRST, events[..taken], setup, choices) == Some(m)
  }

  lemma {:induction false} NoProgress(events: seq<Event>, setup: Setup)
    ensures Progress(events, setup, 0, [], FIRST, AtStart) && NeedMore([])
  {
    hide Analyzed;
    assert events[..0] == [];
  }

  lemma {:induction false} MoreProgress(events: seq<Event>, setup: Setup, taken: nat, choices: seq<Choice>,
                                        m: Machine, p: Pos,
                                        to: nat, more: nat, chosen: seq<Choice>, m': Machine, p': Pos)
    requires Progress(events, setup, taken, choices, m, p) && taken <= to <= |events| && more <= to - taken
    requires |chosen| == more
    requires var all := events[taken..to];
             && AllAnalyzed(all[..more], setup.canonical) && PosOk(p') && Run(p, all[..more]) == Some(p')
             && Ran(m, all[..more], setup, chosen) == Some(m')
    ensures Progress(events, setup, taken + more, choices + chosen, m', p')
    ensures events[taken..to][more..] == events[taken + more..to]
  {
    hide Run, Ran, Analyzed;
    Onwards(events, taken, to, more, p);
    AnalyzedOn(events, taken, taken + more, setup.canonical);
    assert events[..taken + more] == events[..taken] + events[taken..taken + more];
    RanConcat(FIRST, events[..taken], events[taken..taken + more], setup, choices, chosen);
  }

  lemma {:induction false} Stopped(events: seq<Event>, setup: Setup, taken: nat, choices: seq<Choice>, m: Machine,
                                   p: Pos, to: nat, more: nat)
    requires Progress(events, setup, taken, choices, m, p) && taken <= to <= |events| && more < to - taken
    requires var all := events[taken..to];
             && AllAnalyzed(all[..more], setup.canonical) && Run(p, all[..more]).Some?
             && (Run(p, all[..more + 1]) == None || !Analyzed(all[more], setup.canonical))
    ensures Run(AtStart, events[..taken + more]).Some? && AllAnalyzed(events[..taken + more], setup.canonical)
    ensures Run(AtStart, events[..taken + more + 1]) == None || !Analyzed(events[taken + more], setup.canonical)
    ensures !(Run(AtStart, events).Some? && AllAnalyzed(events, setup.canonical))
    ensures IsStream(events) ==> !AllAnalyzed(events, setup.canonical)
  {
    hide Run, Ran, Analyzed, IsStream;
    Onwards(events, taken, to, more, p);
    Onwards(events, taken, to, more + 1, p);
    AnalyzedOn(events, taken, taken + more, setup.canonical);
    if Run(AtStart, events[..taken + more + 1]) == None {
      Refused(events, taken + more + 1);
    }
    AcceptedIffStream(events);
  }

  lemma {:induction false} Finished(events: seq<Event>, setup: Setup, taken: nat, choices: seq<Choice>, m: Machine,
                                    p: Pos)
    requires Progress(events, setup, taken, choices, m, p) && NeedMore(events[taken..])
    ensures IsStream(events) ==> AllAnalyzed(events, setup.canonical) && events[taken..] == [] && m == LAST
    ensures Run(AtStart, events[..taken]).Some? && AllAnalyzed(events[..taken], setup.canonical)
    ensures |choices| == taken && Ran(FIRST, events[..taken], setup, choices) == Some(m)
  {
    hide Run, Ran, Analyzed, IsStream, NeedMore;
    AcceptedIffStream(events);
    if Run(AtStart, events) == Some(AtEnd) {
      assert events == events[..taken] + events[taken..];
      RunConcat(AtStart, events[..taken], events[taken..]);
      NothingHeldBack(p, events[taken..]);
      assert events[..taken] == events;
      AnalyzedCarried(events, setup.canonical);
      StreamRestores(events, setup, choices);
    }
  }

  lemma {:induction false} AnalyzedCarried(events: seq<Event>, canonical: bool)
    requires AllAnalyzed(events, canonical)
    ensures AllCarried(events)
  {
    hide DataOk, Carried;
  }

  /** A run over a part of the events, after a run over those before it. */
  lemma {:induction false} Onwards(events: seq<Event>, from: nat, to: nat, n: nat, p: Pos)
    requires from <= to <= |events| && n <= to - from && PosOk(p) && Run(AtStart, events[..from]) == Some(p)
    ensures events[from..to][..n] == events[from..from + n]
    ensures Run(AtStart, events[..from + n]) == Run(p, events[from..from + n])
    ensures events[from..to][n..] == events[from + n..to]
  {
    hide Run;
    assert events[..from + n] == events[..from] + events[from..from + n];
    RunConcat(AtStart, events[..from], events[from..from + n]);
  }

  lemma {:induction false} AnalyzedOn(events: seq<Event>, from: nat, to: nat, canonical: bool)
    requires from <= to <= |events| && AllAnalyzed(events[..from], canonical)
    requires AllAnalyzed(events[from..to], canonical)
    ensures AllAnalyzed(events[..to], canonical)
  {
    hide Analyzed;
    assert events[..to] == events[..from] + events[from..to];
  }

  lemma {:induction false} Refused(events: seq<Event>, n: nat)
    requires n <= |events| && Run(AtStart, events[..n]) == None
    ensures Run(AtStart, events) == None
  {
    hide Run;
    assert events == events[..n] + events[n..];
    RunConcat(AtStart, events[..n], events[n..]);
  }
}
