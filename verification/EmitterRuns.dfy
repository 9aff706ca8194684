/**
 Whole runs of the emitter's moves: whatever styles are chosen on the way, a node that is written leaves the stacks of
 states and of indents, the indent and the flow level as they were before it.
 */
module EmitterRuns {
  import opened Wrappers
  import opened YamlEvents
  import opened EventGrammar
  import opened Tags
  import opened EmitterMoves

  /** The moves over some events, with a choice for each. */
  function Ran(m: Machine, events: seq<Event>, setup: Setup, choices: seq<Choice>): Option<Machine>
    requires |choices| == |events|
    decreases |events|
  {
    if events == [] then Some(m)
    else
      match Moved(m, events[0], setup, choices[0])
      case None => None
      case Some(n) => Ran(n, events[1..], setup, choices[1..])
  }

  lemma {:induction false} RanConcat(m: Machine, a: seq<Event>, b: seq<Event>, setup: Setup, x: seq<Choice>,
                                     y: seq<Choice>)
    requires |x| == |a| && |y| == |b|
    ensures Ran(m, a + b, setup, x + y) ==
            match Ran(m, a, setup, x) case None => None case Some(n) => Ran(n, b, setup, y)
    decreases |a|
  {
    hide Moved;
    if a == [] {
      assert a + b == b && x + y == y;
    } else {
      assert (a + b)[1..] == a[1..] + b && (x + y)[1..] == x[1..] + y;
      var n := Moved(m, a[0], setup, x[0]);
      if n.Some? {
        RanConcat(n.value, a[1..], b, setup, x[1..], y);
      }
    }
  }

  lemma {:induction false} RanNothing(m: Machine, setup: Setup)
    ensures Ran(m, [], setup, []) == Some(m)
  {
  }

  lemma {:induction false} RanOne(m: Machine, e: Event, setup: Setup, ch: Choice)
    ensures Ran(m, [e], setup, [ch]) == Moved(m, e, setup, ch)
  {
    hide Moved;
    assert [e][1..] == [] && [ch][1..] == [];
  }

  predicate AllCarried(events: seq<Event>) {
    forall i :: 0 <= i < |events| ==> Carried(events[i])
  }

  // A node inside a collection.

  /** The machine once the collection that its state is in is entered. */
  function Inner(m: Machine, setup: Setup, ch: Choice): Machine {
    if !IsFirst(m.state) then m
    else if IsFlow(m.state) then FlowInside(m, setup.best, true)
    else BlockInside(m, setup.best, true, ch.indentless && m.state == BlockSequenceFirstItemState)
  }

  /** The state after a node. */
  function After(s: State, setup: Setup, ch: Choice): State {
    match s
    case FlowSequenceFirstItemState => FlowSequenceItemState
    case FlowSequenceItemState => FlowSequenceItemState
    case FlowMappingFirstKeyState => FlowValueState(setup.canonical, ch.simpleKey)
    case FlowMappingKeyState => FlowValueState(setup.canonical, ch.simpleKey)
    case FlowMappingSimpleValueState => FlowMappingKeyState
    case FlowMappingValueState => FlowMappingKeyState
    case BlockSequenceFirstItemState => BlockSequenceItemState
    case BlockSequenceItemState => BlockSequenceItemState
    case BlockMappingFirstKeyState => BlockValueState(ch.simpleKey)
    case BlockMappingKeyState => BlockValueState(ch.simpleKey)
    case BlockMappingSimpleValueState => BlockMappingKeyState
    case BlockMappingValueState => BlockMappingKeyState
    case _ => s
  }

  lemma {:induction false} AfterAdvances(s: State, setup: Setup, ch: Choice)
    requires FrameOf(s).Some?
    ensures var r := After(s, setup, ch);
            IsReturn(r) && IsFlow(r) == IsFlow(s) && FrameOf(r) == Some(Advance(FrameOf(s).value))
  {
  }

  lemma {:induction false} NodeInside(m: Machine, e: Event, setup: Setup, ch: Choice)
    requires FrameOf(m.state).Some? && (IsLeaf(e) || Opens(e))
    ensures Moved(m, e, setup, ch) ==
            InsideMove(Inner(m, setup, ch), e, ch.flow || IsFlow(m.state), After(m.state, setup, ch))
  {
    hide InsideMove, FlowInside, BlockInside, FlowValueState, BlockValueState;
  }

  /** The machine once the collection that it is in is left. */
  function Left(m: Machine): Machine {
    Closed(if IsFlow(m.state) then m.(flowLevel := if m.flowLevel > 0 then m.flowLevel - 1 else 0) else m)
  }

  lemma {:induction false} EndLeaves(m: Machine, e: Event, setup: Setup, ch: Choice)
    requires FrameOf(m.state) == Some(FirstFrame(e)) && Opens(e)
    ensures Moved(m, EndEvent(e), setup, ch) == Some(Left(Inner(m, setup, ch)))
  {
    hide Closed, InsideMove, FlowValueState, BlockValueState;
  }

  /** The node at the place where the state to return to is on the stack. */
  predicate Restores(m: Machine, events: seq<Event>, setup: Setup, flow: bool, choices: seq<Choice>)
    requires |choices| == |events| > 0
  {
    match NodeMove(m, events[0], flow)
    case None => false
    case Some(n) => Ran(n, events[1..], setup, choices[1..]) == Some(Back(m))
  }

  lemma {:induction false} TreeFirst(t: Tree)
    requires IsTree(t)
    ensures |TreeEvents(t)| > 0 && (IsLeaf(TreeEvents(t)[0]) || Opens(TreeEvents(t)[0]))
  {
  }

  /** Whatever is chosen on the way, a node gives everything back but the state to return to. */
  lemma {:induction false} TreeRestores(m: Machine, t: Tree, setup: Setup, flow: bool, choices: seq<Choice>)
    requires IsTree(t) && AllCarried(TreeEvents(t)) && |choices| == |TreeEvents(t)| && m.states != []
    ensures |TreeEvents(t)| > 0 && Restores(m, TreeEvents(t), setup, flow, choices)
    decreases t, 0
  {
    hide Moved, Back, Carried;
    match t
    case Leaf(e) =>
      assert TreeEvents(t) == [e] && [e][0] == e;
      LeafMove(m, e, flow);
    case Branch(e, children) =>
      var middle := ForestEvents(children);
      var events := [e] + middle + [EndEvent(e)];
      var k := |middle| + 1;
      assert events[1..] == middle + [EndEvent(e)] && events[0] == e;
      assert choices[1..] == choices[1..k] + [choices[k]];
      assert AllCarried(middle) by {
        assert forall i :: 0 <= i < |middle| ==> middle[i] == events[i + 1];
      }
      OpenMove(m, e, flow);
      var n := NodeMove(m, e, flow).value;
      var s := ForestRestores(n, children, setup, choices[1..k]);
      BranchRestores(m, e, flow, setup, choices[1..], s, |children|);
      RanConcat(n, middle, [EndEvent(e)], setup, choices[1..k], [choices[k]]);
      var last := Ran(n, middle, setup, choices[1..k]).value;
      RanOne(last, EndEvent(e), setup, choices[k]);
  }

  lemma {:induction false} LeafMove(m: Machine, e: Event, flow: bool)
    requires IsLeaf(e) && Carried(e)
    ensures NodeMove(m, e, flow) == Some(Back(m))
  {
  }

  /** A collection that is opened is in the state for its first part. */
  lemma {:induction false} OpenMove(m: Machine, e: Event, flow: bool)
    requires Opens(e)
    ensures var n := NodeMove(m, e, flow);
            && n.Some? && n.value == m.(state := n.value.state) && IsFirst(n.value.state)
            && FrameOf(n.value.state) == Some(FirstFrame(e))
  {
  }

  /** The end of a collection gives back what its opening took. */
  lemma {:induction false} BranchRestores(m: Machine, e: Event, flow: bool, setup: Setup, choices: seq<Choice>,
                                          s: State, n: nat)
    requires Opens(e) && (e.MappingStart? ==> Even(n)) && m.states != [] && choices != []
    requires n > 0 ==> && IsReturn(s) && IsFlow(s) == IsFlow(NodeMove(m, e, flow).value.state)
                       && FrameOf(s) == Some(if Even(n) then FirstFrame(e) else Advance(FirstFrame(e)))
    ensures var first := NodeMove(m, e, flow).value;
            var last := if n == 0 then first else Inner(first, setup, choices[0]).(state := s);
            forall ch :: Moved(last, EndEvent(e), setup, ch) == Some(Back(m))
  {
    hide Moved;
    OpenMove(m, e, flow);
    var first := NodeMove(m, e, flow).value;
    var last := if n == 0 then first else Inner(first, setup, choices[0]).(state := s);
    forall ch
      ensures Moved(last, EndEvent(e), setup, ch) == Some(Back(m))
    {
      EndLeaves(last, e, setup, ch);
      var inner := Inner(last, setup, ch);
      assert (m.indents + [m.indent])[..|m.indents|] == m.indents;
    }
  }

  /** The nodes of a collection: nothing changes but the state, once the collection is entered. */
  lemma {:induction false} ForestRestores(m: Machine, ts: seq<Tree>, setup: Setup,
                                          choices: seq<Choice>) returns (s: State)
    requires forall k :: 0 <= k < |ts| ==> IsTree(ts[k])
    requires FrameOf(m.state).Some? && AllCarried(ForestEvents(ts)) && |choices| == |ForestEvents(ts)|
    ensures ts == [] ==> Ran(m, ForestEvents(ts), setup, choices) == Some(m)
    ensures ts != [] ==>
              && |choices| > 0 && IsReturn(s) && IsFlow(s) == IsFlow(m.state)
              && FrameOf(s) == Some(if Even(|ts|) then FrameOf(m.state).value else Advance(FrameOf(m.state).value))
              && Ran(m, ForestEvents(ts), setup, choices) == Some(Inner(m, setup, choices[0]).(state := s))
    decreases ts, 1
  {
    hide Moved, Back, Carried, Inner, After, FrameOf, IsFlow, IsFirst;
    s := m.state;
    if ts != [] {
      var a, b := TreeEvents(ts[0]), ForestEvents(ts[1..]);
      var x, y := choices[..|a|], choices[|a|..];
      assert ForestEvents(ts) == a + b && choices == x + y;
      TreeFirst(ts[0]);
      assert AllCarried(a) && AllCarried(b) by {
        assert forall i :: 0 <= i < |a| ==> a[i] == (a + b)[i];
        assert forall i :: 0 <= i < |b| ==> b[i] == (a + b)[i + |a|];
      }
      var inner, next := Inner(m, setup, x[0]), After(m.state, setup, x[0]);
      var pushed := inner.(states := inner.states + [next]);
      TreeRestores(pushed, ts[0], setup, x[0].flow || IsFlow(m.state), x);
      NodeInside(m, a[0], setup, x[0]);
      BackAgain(inner, next);
      AfterAdvances(m.state, setup, x[0]);
      assert Ran(m, a, setup, x) == Some(inner.(state := next));
      RanConcat(m, a, b, setup, x, y);
      s := ForestRestores(inner.(state := next), ts[1..], setup, y);
      if ts[1..] == [] {
        s := next;
      } else {
        NotFirstInner(inner.(state := next), setup, y[0]);
      }
    }
  }

  // Documents and streams.

  /** Between documents: nothing is open, and no directives are in force. */
  predicate Resting(m: Machine) {
    (m.state == FirstDocumentStartState || m.state == DocumentStartState) && m.directives == []
  }

  lemma {:induction false} DocumentRestores(m: Machine, d: Document, setup: Setup, choices: seq<Choice>)
    requires Resting(m) && IsTree(d.root) && AllCarried(DocumentEvents(d)) && |choices| == |DocumentEvents(d)|
    ensures Ran(m, DocumentEvents(d), setup, choices) == Some(m.(state := DocumentStartState))
  {
    hide Moved, Back, Carried, NodeMove, WithDefaults;
    var start, body, end := DocumentStart(d.version, d.directives, d.startImplicit), TreeEvents(d.root),
        DocumentEnd(d.endImplicit);
    var k := |body| + 1;
    var x := choices[1..k];
    var events := [start] + body + [end];
    assert choices == [choices[0]] + x + [choices[k]];
    assert events[0] == start && AllCarried(body) by {
      assert forall i :: 0 <= i < |body| ==> body[i] == events[i + 1];
    }
    TreeFirst(d.root);
    var content := m.(state := DocumentContentState, directives := WithDefaults(d.directives));
    var done := content.(state := DocumentEndState);
    var pushed := content.(states := content.states + [DocumentEndState]);
    TreeRestores(pushed, d.root, setup, x[0].flow, x);
    BackAgain(content, DocumentEndState);
    DocumentMoves(m, start, body[0], end, content, done, setup, choices[0], x[0], choices[k]);
    assert Ran(content, body, setup, x) == Some(done);
    RanOne(m, start, setup, choices[0]);
    RanConcat(m, [start], body, setup, [choices[0]], x);
    RanOne(done, end, setup, choices[k]);
    RanConcat(m, [start] + body, [end], setup, [choices[0]] + x, [choices[k]]);
  }

  lemma {:induction false} DocumentMoves(m: Machine, start: Event, root: Event, end: Event, content: Machine,
                                         done: Machine, setup: Setup, x: Choice, y: Choice, z: Choice)
    requires Resting(m) && start.DocumentStart? && Carried(start) && end.DocumentEnd?
    requires content == m.(state := DocumentContentState, directives := WithDefaults(start.directives))
    requires done == content.(state := DocumentEndState)
    ensures Moved(m, start, setup, x) == Some(content)
    ensures Moved(content, root, setup, y) ==
            NodeMove(content.(states := content.states + [DocumentEndState]), root, y.flow)
    ensures Moved(done, end, setup, z) == Some(m.(state := DocumentStartState))
  {
    hide Carried, NodeMove, WithDefaults;
  }

  lemma {:induction false} DocumentsRestore(m: Machine, ds: seq<Document>, setup: Setup, choices: seq<Choice>)
    requires Resting(m) && (forall k :: 0 <= k < |ds| ==> IsTree(ds[k].root))
    requires AllCarried(DocumentsEvents(ds)) && |choices| == |DocumentsEvents(ds)|
    ensures Ran(m, DocumentsEvents(ds), setup, choices) == Some(if ds == [] then m else m.(state := DocumentStartState))
    decreases |ds|
  {
    hide Moved, Carried, DocumentEvents;
    if ds != [] {
      var a, b := DocumentEvents(ds[0]), DocumentsEvents(ds[1..]);
      var x, y := choices[..|a|], choices[|a|..];
      assert choices == x + y;
      assert AllCarried(a) && AllCarried(b) by {
        assert forall i :: 0 <= i < |a| ==> a[i] == (a + b)[i];
        assert forall i :: 0 <= i < |b| ==> b[i] == (a + b)[i + |a|];
      }
      DocumentRestores(m, ds[0], setup, x);
      RanConcat(m, a, b, setup, x, y);
      DocumentsRestore(m.(state := DocumentStartState), ds[1..], setup, y);
    }
  }

  const FIRST := Machine(StreamStartState, [], [], 0, 0, [])

  const LAST := Machine(EndState, [], [], -1, 0, [])

  /** After a whole stream everything that was opened is closed, whatever was chosen on the way. */
  lemma {:induction false} StreamRestores(events: seq<Event>, setup: Setup, choices: seq<Choice>)
    requires IsStream(events) && AllCarried(events) && |choices| == |events|
    ensures Ran(FIRST, events, setup, choices) == Some(LAST)
  {
    hide Moved, Carried, DocumentsEvents;
    var ds: seq<Document> :| Serializes(ds, events);
    var body := DocumentsEvents(ds);
    var k := |body| + 1;
    var x := choices[1..k];
    assert choices == [choices[0]] + x + [choices[k]];
    assert AllCarried(body) by {
      assert forall i :: 0 <= i < |body| ==> body[i] == events[i + 1];
    }
    var m := FIRST.(state := FirstDocumentStartState, indent := -1);
    StreamMoves(setup, choices[0], choices[k]);
    RanOne(FIRST, StreamStart, setup, choices[0]);
    RanConcat(FIRST, [StreamStart], body, setup, [choices[0]], x);
    DocumentsRestore(m, ds, setup, x);
    var last := Ran(m, body, setup, x).value;
    RanOne(last, StreamEnd, setup, choices[k]);
    RanConcat(FIRST, [StreamStart] + body, [StreamEnd], setup, [choices[0]] + x, [choices[k]]);
  }

  lemma {:induction false} StreamMoves(setup: Setup, x: Choice, y: Choice)
    ensures var m := FIRST.(state := FirstDocumentStartState, indent := -1);
            && Moved(FIRST, StreamStart, setup, x) == Some(m)
            && Moved(m, StreamEnd, setup, y) == Some(LAST)
            && Moved(m.(state := DocumentStartState), StreamEnd, setup, y) == Some(LAST)
  {
  }

  lemma {:induction false} BackAgain(m: Machine, next: State)
    ensures Back(m.(states := m.states + [next])) == m.(state := next)
  {
    assert (m.states + [next])[..|m.states|] == m.states;
  }

  lemma {:induction false} NotFirstInner(m: Machine, setup: Setup, ch: Choice)
    requires IsReturn(m.state)
    ensures Inner(m, setup, ch) == m
  {
  }
}
