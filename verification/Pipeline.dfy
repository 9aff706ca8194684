/** The events of the grammar as input of the loader, and a dump as a document of the grammar. */
module Pipeline {
  import opened Wrappers
  import opened YamlEvents
  import opened EventGrammar
  import NodeGraph
  import Traversal
  import DumpLoad
  import Loader
  import Compose

  // The loader on events that the grammar allows.

  /** Frame `f` is the state of a collection with `shape` in the loader. */
  ghost predicate FrameFits(f: Frame, shape: Loader.Shape) {
    match f
    case InSequence => shape.kind == Loader.ASequence
    case AtKey => shape.kind == Loader.AMapping && Even(|shape.kids|)
    case AtValue => shape.kind == Loader.AMapping && !Even(|shape.kids|)
  }

  ghost predicate FitsAt(open: seq<Frame>, st: Loader.Loading, k: nat)
    requires |open| == |st.ctx| && k < |open|
  {
    1 <= st.ctx[k] <= |st.nodes| && FrameFits(open[k], st.nodes[st.ctx[k] - 1])
  }

  /** A mapping that is not open has a value for every key. */
  ghost predicate PairedAt(st: Loader.Loading, k: nat)
    requires k < |st.nodes|
  {
    k + 1 in st.ctx || st.nodes[k].kind != Loader.AMapping || Even(|st.nodes[k].kids|)
  }

  ghost predicate DistinctCtx(ctx: seq<nat>) {
    forall j, k :: 0 <= j < k < |ctx| ==> ctx[j] != ctx[k]
  }

  /** The loader's stack of open collections is the grammar's. */
  ghost predicate Fits(open: seq<Frame>, st: Loader.Loading) {
    && |open| == |st.ctx|
    && Loader.CtxOk(st)
    && DistinctCtx(st.ctx)
    && (forall k :: 0 <= k < |open| ==> FitsAt(open, st, k))
    && (forall k :: 0 <= k < |st.nodes| ==> PairedAt(st, k))
  }

  /** The collections open at a point inside a document. */
  function OpenAt(p: Pos): seq<Frame> {
    if p.Inside? then p.open else []
  }

  predicate InDocument(p: Pos) {
    p.AtRoot? || p.RootDone? || p.Inside?
  }

  /** An edge more: the innermost collection moves on as the grammar's does. */
  lemma {:induction false} AttachFits(open: seq<Frame>, st: Loader.Loading, index: nat)
    requires Fits(open, st) && open != []
    ensures Fits(open[..|open| - 1] + [Advance(Top(open))], Loader.Attach(st, index))
  {
    Loader.AttachKeepsCtx(st, index);
    var n := |open| - 1;
    var top := st.ctx[n] - 1;
    var open' := open[..n] + [Advance(Top(open))];
    var st' := Loader.Attach(st, index);
    assert FitsAt(open, st, n);
    forall k | 0 <= k < |open'|
      ensures FitsAt(open', st', k)
    {
      assert FitsAt(open, st, k);
    }
    forall k | 0 <= k < |st'.nodes|
      ensures PairedAt(st', k)
    {
      assert PairedAt(st, k);
      if k == top {
        assert st.ctx[n] == k + 1;
      }
    }
  }

  /** A new node, with nothing below it yet. */
  lemma {:induction false} AppendFits(open: seq<Frame>, st: Loader.Loading, shape: Loader.Shape, anchors: map<string,
                                      nat>)
    requires Fits(open, st) && shape.kids == []
    ensures Fits(open, Loader.Loading(st.nodes + [shape], anchors, st.ctx))
  {
    Loader.AppendKeepsCtx(st, shape, anchors);
    var st' := Loader.Loading(st.nodes + [shape], anchors, st.ctx);
    forall k | 0 <= k < |open|
      ensures FitsAt(open, st', k)
    {
      assert FitsAt(open, st, k);
    }
    forall k | 0 <= k < |st'.nodes|
      ensures PairedAt(st', k)
    {
      if k < |st.nodes| {
        assert PairedAt(st, k);
      }
    }
  }

  /** A node is added where the grammar allows one. */
  lemma {:induction false} AddFits(p: Pos, st: Loader.Loading, shape: Loader.Shape, anchor: Option<string>)
    requires PosOk(p) && ExpectsNode(p) && Fits(OpenAt(p), st) && shape.kids == []
    ensures match Loader.AddNode(st, shape, anchor)
            case Ok(st') => Fits(Around(p), st') && |st'.nodes| == |st.nodes| + 1 && st'.ctx == st.ctx
            case Err(e) => e == Loader.DuplicateAnchor
    ensures Loader.AddNode(st, shape, anchor).Ok? ==>
              Loader.AddNode(st, shape, anchor).value.nodes[|st.nodes|] == shape
  {
    hide Fits;
    var open := OpenAt(p);
    var index := |st.nodes| + 1;
    var anchors := if anchor.Some? then st.anchors[anchor.value := index] else st.anchors;
    AppendFits(open, st, shape, anchors);
    FitsBasics(open, st);
    FitsBasics(open, Loader.Loading(st.nodes + [shape], anchors, st.ctx));
    if open != [] {
      AttachFits(open, Loader.Loading(st.nodes + [shape], anchors, st.ctx), index);
    }
  }

  lemma {:induction false} FitsBasics(open: seq<Frame>, st: Loader.Loading)
    requires Fits(open, st)
    ensures |open| == |st.ctx| && Loader.CtxOk(st)
  {
  }

  /** The node just added is opened. */
  lemma {:induction false} OpenedFits(open: seq<Frame>, st: Loader.Loading, f: Frame)
    requires Fits(open, st) && st.nodes != [] && |st.nodes| !in st.ctx
    requires f != AtValue && st.nodes[|st.nodes| - 1].kids == []
    requires st.nodes[|st.nodes| - 1].kind == if f == InSequence then Loader.ASequence else Loader.AMapping
    ensures Fits(open + [f], st.(ctx := st.ctx + [|st.nodes|]))
  {
    var st' := st.(ctx := st.ctx + [|st.nodes|]);
    var open' := open + [f];
    forall k | 0 <= k < |open'|
      ensures FitsAt(open', st', k)
    {
      if k < |open| {
        assert FitsAt(open, st, k);
      }
    }
    forall k | 0 <= k < |st'.nodes|
      ensures PairedAt(st', k)
    {
      assert PairedAt(st, k);
      if k + 1 in st.ctx {
        var t :| 0 <= t < |st.ctx| && st.ctx[t] == k + 1;
        assert st'.ctx[t] == k + 1;
      }
    }
  }

  /** The innermost collection is closed. */
  lemma {:induction false} ClosedFits(open: seq<Frame>, st: Loader.Loading)
    requires Fits(open, st) && open != [] && Top(open) != AtValue
    ensures Fits(open[..|open| - 1], st.(ctx := st.ctx[..|st.ctx| - 1]))
    ensures st.nodes[st.ctx[|st.ctx| - 1] - 1].kind == if Top(open) == InSequence then Loader.ASequence
            else Loader.AMapping
  {
    var n := |open| - 1;
    var st' := st.(ctx := st.ctx[..n]);
    assert FitsAt(open, st, n);
    forall k | 0 <= k < n
      ensures FitsAt(open[..n], st', k)
    {
      assert FitsAt(open, st, k);
    }
    forall k | 0 <= k < |st'.nodes|
      ensures PairedAt(st', k)
    {
      assert PairedAt(st, k);
      if k + 1 in st.ctx && k + 1 != st.ctx[n] {
        assert k + 1 in st'.ctx;
      }
    }
  }

  ghost predicate Outcome(q: Pos, r: Loader.Result<Loader.Loading>) {
    match r
    case Ok(st) => Fits(OpenAt(q), st)
    case Err(e) => e == Loader.DuplicateAnchor || e == Loader.UndefinedAlias
  }

  /** One event that the grammar allows inside a document: no assertion of the loader fails. */
  lemma {:induction false} LoadFits(p: Pos, e: Event, st: Loader.Loading)
    requires PosOk(p) && InDocument(p) && Fits(OpenAt(p), st)
    requires Accept(p, e).Some? && InDocument(Accept(p, e).value)
    ensures Loader.CtxOk(st) && Outcome(Accept(p, e).value, Loader.LoadEvent(st, e))
  {
    hide Fits;
    var open := OpenAt(p);
    FitsBasics(open, st);
    match e {
      case Alias(name) =>
        if name in st.anchors && open != [] {
          AttachFits(open, st, st.anchors[name]);
        }
      case Scalar(anchor, tag, value, _, _, style) =>
        AddFits(p, st, Loader.Shape(Loader.AScalar, Loader.LoadedTag(tag, DEFAULT_SCALAR_TAG), value, style, []),
                anchor);
      case SequenceStart(anchor, tag, _, style) =>
        OpenFits(p, st, Loader.Shape(Loader.ASequence, Loader.LoadedTag(tag, DEFAULT_SEQUENCE_TAG), "", style, []),
                 anchor, InSequence);
      case MappingStart(anchor, tag, _, style) =>
        OpenFits(p, st, Loader.Shape(Loader.AMapping, Loader.LoadedTag(tag, DEFAULT_MAPPING_TAG), "", style, []),
                 anchor, AtKey);
      case SequenceEnd =>
        ClosedFits(open, st);
      case MappingEnd =>
        ClosedFits(open, st);
      case _ =>
    }
  }

  lemma {:induction false} OpenFits(p: Pos, st: Loader.Loading, shape: Loader.Shape, anchor: Option<string>, f: Frame)
    requires PosOk(p) && ExpectsNode(p) && Fits(OpenAt(p), st) && shape.kids == []
    requires shape.kind == (if f == InSequence then Loader.ASequence else Loader.AMapping) && f != AtValue
    ensures Loader.CtxOk(st) && Outcome(Inside(Around(p) + [f]), Loader.Opened(Loader.AddNode(st, shape, anchor)))
  {
    hide Fits;
    FitsBasics(OpenAt(p), st);
    AddFits(p, st, shape, anchor);
    var r := Loader.AddNode(st, shape, anchor);
    if r.Ok? {
      FitsBasics(Around(p), r.value);
      OpenedFits(Around(p), r.value, f);
    }
  }

  function AnchorOf(e: Event): Option<string> {
    match e
    case Scalar(anchor, _, _, _, _, _) => anchor
    case SequenceStart(anchor, _, _, _) => anchor
    case MappingStart(anchor, _, _, _) => anchor
    case _ => None
  }

  /** No anchor is defined twice, and every alias comes after its anchor. */
  ghost predicate AnchorsFine(known: set<string>, events: seq<Event>)
    decreases |events|
  {
    events == [] ||
    (var e := events[0];
     && (e.Alias? ==> e.name in known)
     && (AnchorOf(e).Some? ==> AnchorOf(e).value !in known)
     && AnchorsFine(if AnchorOf(e).Some? then known + {AnchorOf(e).value} else known, events[1..]))
  }

  lemma {:induction false} AddAnchors(st: Loader.Loading, shape: Loader.Shape, anchor: Option<string>)
    requires Loader.CtxOk(st)
    ensures Loader.AddNode(st, shape, anchor).Ok? <==> (anchor.Some? ==> anchor.value !in st.anchors)
    ensures Loader.AddNode(st, shape, anchor).Ok? ==>
              Loader.AddNode(st, shape, anchor).value.anchors.Keys ==
              if anchor.Some? then st.anchors.Keys + {anchor.value} else st.anchors.Keys
  {
    hide Loader.CtxOk;
  }

  /** The anchors known after one event, and whether the event is refused. */
  lemma {:induction false} LoadAnchors(p: Pos, e: Event, st: Loader.Loading)
    requires PosOk(p) && InDocument(p) && Fits(OpenAt(p), st)
    requires Accept(p, e).Some? && InDocument(Accept(p, e).value)
    ensures Loader.CtxOk(st)
    ensures Loader.LoadEvent(st, e).Ok? <==>
              (e.Alias? ==> e.name in st.anchors) && (AnchorOf(e).Some? ==> AnchorOf(e).value !in st.anchors)
    ensures Loader.LoadEvent(st, e).Ok? ==>
              Loader.LoadEvent(st, e).value.anchors.Keys ==
              if AnchorOf(e).Some? then st.anchors.Keys + {AnchorOf(e).value} else st.anchors.Keys
  {
    hide Fits, Loader.AddNode, Loader.CtxOk, Around, Top;
    FitsBasics(OpenAt(p), st);
    match e {
      case Scalar(anchor, tag, value, _, _, style) =>
        AddAnchors(st, Loader.Shape(Loader.AScalar, Loader.LoadedTag(tag, DEFAULT_SCALAR_TAG), value, style, []),
                   anchor);
      case SequenceStart(anchor, tag, _, style) =>
        AddAnchors(st, Loader.Shape(Loader.ASequence, Loader.LoadedTag(tag, DEFAULT_SEQUENCE_TAG), "", style, []),
                   anchor);
      case MappingStart(anchor, tag, _, style) =>
        AddAnchors(st, Loader.Shape(Loader.AMapping, Loader.LoadedTag(tag, DEFAULT_MAPPING_TAG), "", style, []),
                   anchor);
      case SequenceEnd =>
        ClosedFits(OpenAt(p), st);
      case MappingEnd =>
        ClosedFits(OpenAt(p), st);
      case _ =>
    }
  }

  /**
   The loader on the events of a document: it fails exactly for an anchor defined twice or an alias before
   its anchor, never by an assertion, and where it succeeds its stack is the grammar's and every mapping that
   is closed has a value for every key.
   */
  lemma {:induction false} LoadsExactly(p: Pos, events: seq<Event>, st: Loader.Loading)
    requires PosOk(p) && InDocument(p) && Fits(OpenAt(p), st) && Run(p, events).Some?
    requires forall k :: 0 <= k < |events| ==> !events[k].DocumentEnd?
    ensures Loader.CtxOk(st) && Outcome(Run(p, events).value, Loader.LoadEvents(st, events))
    ensures Loader.LoadEvents(st, events).Ok? <==> AnchorsFine(st.anchors.Keys, events)
    decreases |events|
  {
    hide Fits;
    FitsBasics(OpenAt(p), st);
    if events != [] {
      var e, q := events[0], Accept(p, events[0]).value;
      assert InDocument(q);
      LoadFits(p, e, st);
      LoadAnchors(p, e, st);
      var r := Loader.LoadEvent(st, e);
      if r.Ok? {
        LoadsExactly(q, events[1..], r.value);
      }
    }
  }

  lemma {:induction false} NothingFits()
    ensures Fits([], Loader.NOTHING)
  {
  }

  /**
   In particular for the root of any document of any stream: its nodes are the ones that its events announce, in order,
   each with the kind, the value, the style and the tag of its event.
   */
  lemma {:induction false} DocumentLoads(root: Tree)
    requires IsTree(root)
    ensures match Loader.LoadEvents(Loader.NOTHING, TreeEvents(root))
            case Ok(st) =>
              && st.ctx == []
              && (forall k :: 0 <= k < |st.nodes| && st.nodes[k].kind == Loader.AMapping ==> Even(|st.nodes[k].kids|))
              && Compose.Announced(st.nodes, Compose.Announcing(TreeEvents(root)))
            case Err(e) => e == Loader.DuplicateAnchor || e == Loader.UndefinedAlias
    ensures Loader.LoadEvents(Loader.NOTHING, TreeEvents(root)).Ok? <==> AnchorsFine({}, TreeEvents(root))
  {
    AcceptTree(AtRoot, root);
    NothingFits();
    TreeHasNoDocumentEnd(root);
    assert Loader.NOTHING.anchors.Keys == {};
    LoadsExactly(AtRoot, TreeEvents(root), Loader.NOTHING);
    var r := Loader.LoadEvents(Loader.NOTHING, TreeEvents(root));
    if r.Ok? {
      Compose.DocumentComposes(root);
      forall k | 0 <= k < |r.value.nodes| && r.value.nodes[k].kind == Loader.AMapping
        ensures Even(|r.value.nodes[k].kids|)
      {
        assert PairedAt(r.value, k);
      }
    }
  }

  lemma {:induction false} TreeHasNoDocumentEnd(t: Tree)
    requires IsTree(t)
    ensures forall k :: 0 <= k < |TreeEvents(t)| ==> !TreeEvents(t)[k].DocumentEnd?
    decreases t, 0
  {
    if t.Branch? {
      ForestHasNoDocumentEnd(t.children);
    }
  }

  lemma {:induction false} ForestHasNoDocumentEnd(ts: seq<Tree>)
    requires forall k :: 0 <= k < |ts| ==> IsTree(ts[k])
    ensures forall k :: 0 <= k < |ForestEvents(ts)| ==> !ForestEvents(ts)[k].DocumentEnd?
    decreases ts, 1
  {
    if ts != [] {
      TreeHasNoDocumentEnd(ts[0]);
      ForestHasNoDocumentEnd(ts[1..]);
    }
  }

  // The dumper's events are events that the grammar allows.

  /** What an open collection of the dumper is to the grammar. */
  function GrammarFrame(f: DumpLoad.Frame): Frame {
    if f.end == SequenceEnd then InSequence else if Even(|f.left|) then AtKey else AtValue
  }

  function GrammarFrames(frames: seq<DumpLoad.Frame>): (open: seq<Frame>)
    ensures |open| == |frames|
    ensures forall k :: 0 <= k < |frames| ==> open[k] == GrammarFrame(frames[k])
  {
    seq(|frames|, k requires 0 <= k < |frames| => GrammarFrame(frames[k]))
  }

  ghost predicate EndsOk(frames: seq<DumpLoad.Frame>) {
    forall k :: 0 <= k < |frames| ==> frames[k].end == SequenceEnd || frames[k].end == MappingEnd
  }

  lemma {:induction false} EvenPairs(pairs: seq<NodeGraph.Pair>)
    ensures Even(|NodeGraph.Flatten(pairs)|)
  {
    if pairs != [] {
      EvenPairs(pairs[..|pairs| - 1]);
    }
  }

  /** A collection just opened. */
  lemma {:induction false} NewGrammarFrame(node: NodeGraph.Node, name: Option<string>)
    requires !node.ScalarNode?
    ensures Opens(Traversal.Announce(node, name))
    ensures GrammarFrame(DumpLoad.NewFrame(node)) == FirstFrame(Traversal.Announce(node, name))
  {
    if node.MappingNode? {
      EvenPairs(node.pairs);
    }
  }

  lemma {:induction false} ShorterFrame(frames: seq<DumpLoad.Frame>)
    requires frames != [] && frames[|frames| - 1].left != []
    ensures var n := |frames| - 1;
            && GrammarFrames(frames[n := DumpLoad.Shorter(frames[n])]) == Around(Inside(GrammarFrames(frames)))
            && Inside(GrammarFrames(frames)) == Outside(GrammarFrames(frames))
  {
  }

  lemma {:induction false} CloseFrame(frames: seq<DumpLoad.Frame>)
    requires frames != [] && frames[|frames| - 1].left == [] && EndsOk(frames)
    ensures var n := |frames| - 1;
            && GrammarFrames(frames) != []
            && Accept(Inside(GrammarFrames(frames)), frames[n].end) == Some(Outside(GrammarFrames(frames[..n])))
            && EndsOk(frames[..n])
  {
    var n := |frames| - 1;
    assert GrammarFrames(frames)[..n] == GrammarFrames(frames[..n]);
  }

  /** What is open after a node is met for the first time. */
  lemma {:induction false} AnnouncedFrames(p: Pos, frames: seq<DumpLoad.Frame>, node: NodeGraph.Node,
                                           name: Option<string>)
    requires PosOk(p) && EndsOk(frames) && (frames == [] ==> p == AtRoot)
    requires frames != [] ==> frames[|frames| - 1].left != [] && p == Inside(GrammarFrames(frames))
    ensures EndsOk(DumpLoad.FramesAfter(frames, node))
    ensures Accept(p, Traversal.Announce(node, name)) ==
            Some(Outside(GrammarFrames(DumpLoad.FramesAfter(frames, node))))
  {
    var shorter := if frames == [] then [] else frames[|frames| - 1 := DumpLoad.Shorter(frames[|frames| - 1])];
    if frames != [] {
      ShorterFrame(frames);
    }
    assert GrammarFrames(shorter) == Around(p);
    if !node.ScalarNode? {
      NewGrammarFrame(node, name);
      assert GrammarFrames(shorter + [DumpLoad.NewFrame(node)]) == Around(p) + [GrammarFrame(DumpLoad.NewFrame(node))];
    }
  }

  /** The rest of a dump is accepted to the end of the root. */
  lemma {:induction false} DumpAccepted(g: NodeGraph.Graph, names: seq<Option<string>>, frames: seq<DumpLoad.Frame>,
                                        q: Traversal.Point)
    requires Traversal.Ok(g, q) && |names| == |g| && q.work == DumpLoad.OpenWork(frames) && EndsOk(frames)
    ensures Run(Outside(GrammarFrames(frames)), Traversal.Emit(g, names, q)) == Some(RootDone)
    decreases Traversal.Unseen(|g|, q.seen), |q.work|
  {
    hide GrammarFrames, DumpLoad.FramesAfter, Traversal.Expand, NodeGraph.WellFormed, Accept, Traversal.Announce;
    var p := Outside(GrammarFrames(frames));
    if q.work == [] {
      if frames != [] {
        DumpLoad.WorkOfTop(frames);
        assert false;
      }
    } else {
      assert frames != [];
      var next := Traversal.Next(g, q);
      var e := Traversal.StepEvent(g, names, q);
      var frames' := frames;
      if q.work[0].Close? {
        DumpLoad.WorkOfTop(frames);
        CloseFrame(frames);
        frames' := frames[..|frames| - 1];
        assert next.work == DumpLoad.OpenWork(frames');
      } else {
        DumpLoad.WorkAfterVisit(frames, q.work);
        ShorterFrame(frames);
        if q.work[0].id in q.seen {
          AliasAccepted(p, e);
          frames' := frames[|frames| - 1 := DumpLoad.Shorter(frames[|frames| - 1])];
        } else {
          var node := g[q.work[0].id - 1];
          DumpLoad.FirstWork(frames, [1], q.work, node);
          AnnouncedFrames(p, frames, node, names[q.work[0].id - 1]);
          frames' := DumpLoad.FramesAfter(frames, node);
        }
      }
      DumpAccepted(g, names, frames', next);
      RunCons(p, e, Traversal.Emit(g, names, next));
    }
  }

  lemma {:induction false} AliasAccepted(p: Pos, e: Event)
    requires PosOk(p) && ExpectsNode(p) && e.Alias?
    ensures Accept(p, e) == Some(Outside(Around(p)))
  {
  }

  /** A dump is a document of the grammar, whatever its graph. */
  lemma {:induction false} DumpIsDocument(g: NodeGraph.Graph, names: seq<Option<string>>, start: Event,
                                          endImplicit: bool)
    requires NodeGraph.WellFormed(g) && |g| > 0 && |names| == |g| && start.DocumentStart?
    ensures Traversal.Ok(g, Traversal.START)
    ensures Run(BetweenDocuments, [start] +
                                  (Traversal.Emit(g, names, Traversal.START) + [DocumentEnd(endImplicit)])) ==
                                    Some(BetweenDocuments)
  {
    var from, node := Traversal.START, g[0];
    var body := Traversal.Emit(g, names, from);
    var next := Traversal.Next(g, from);
    DumpLoad.FirstWork([], [], from.work, node);
    AnnouncedFrames(AtRoot, [], node, names[0]);
    DumpAccepted(g, names, DumpLoad.FramesAfter([], node), next);
    RunCons(AtRoot, Traversal.Announce(node, names[0]), Traversal.Emit(g, names, next));
    assert Run(AtRoot, body) == Some(RootDone);
    hide Accept;
    RunConcat(AtRoot, body, [DocumentEnd(endImplicit)]);
    DocumentEdges(start, endImplicit);
    RunCons(BetweenDocuments, start, body + [DocumentEnd(endImplicit)]);
  }

  lemma {:induction false} DocumentEdges(start: Event, endImplicit: bool)
    requires start.DocumentStart?
    ensures Accept(BetweenDocuments, start) == Some(AtRoot)
    ensures Run(RootDone, [DocumentEnd(endImplicit)]) == Some(BetweenDocuments)
  {
    RunOne(RootDone, DocumentEnd(endImplicit));
  }

  lemma {:induction false} WrapStream(events: seq<Event>)
    requires Run(BetweenDocuments, events) == Some(BetweenDocuments)
    ensures IsStream([StreamStart] + (events + [StreamEnd]))
  {
    RunConcat(BetweenDocuments, events, [StreamEnd]);
    RunOne(BetweenDocuments, StreamEnd);
    RunCons(AtStart, StreamStart, events + [StreamEnd]);
    AcceptedIffStream([StreamStart] + (events + [StreamEnd]));
  }
}
