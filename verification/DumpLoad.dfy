/** Feeding the dumper's events to the loader rebuilds the graph. */
module DumpLoad {
  import opened Wrappers
  import opened YamlEvents
  import opened NodeGraph
  import opened Traversal
  import Loader
  import Dumper

  function KindOf(node: Node): Loader.Kind {
    match node
    case ScalarNode(_, _, _) => Loader.AScalar
    case SequenceNode(_, _, _) => Loader.ASequence
    case MappingNode(_, _, _) => Loader.AMapping
  }

  /** The tag a node has after a round trip: only the non-specific tag "!" is lost. */
  function TagAfter(node: Node): string {
    if node.tag != "!" then node.tag
    else if node.ScalarNode? then DEFAULT_SCALAR_TAG
    else if node.SequenceNode? then DEFAULT_SEQUENCE_TAG
    else DEFAULT_MAPPING_TAG
  }

  function Blank(node: Node): Loader.Shape {
    Loader.Shape(KindOf(node), TagAfter(node), if node.ScalarNode? then node.value else "", node.style, [])
  }

  /** `shape` is `node` so far: its first edges, renumbered through `order`. */
  ghost predicate PartOf(node: Node, order: seq<nat>, shape: Loader.Shape) {
    && shape == Blank(node).(kids := shape.kids)
    && |shape.kids| <= |Children(node)|
    && forall j :: 0 <= j < |shape.kids| ==>
         1 <= shape.kids[j] <= |order| && order[shape.kids[j] - 1] == Children(node)[j]
  }

  ghost predicate DistinctIds(ids: seq<nat>) {
    forall j, k :: 0 <= j < k < |ids| ==> ids[j] != ids[k]
  }

  ghost predicate Parts(g: Graph, order: seq<nat>, nodes: seq<Loader.Shape>) {
    && InRange(g, order)
    && |nodes| == |order|
    && forall k :: 0 <= k < |order| ==> PartAt(g, order, nodes, k)
  }

  ghost predicate PartAt(g: Graph, order: seq<nat>, nodes: seq<Loader.Shape>, k: nat)
    requires InRange(g, order) && |nodes| == |order| && k < |order|
  {
    PartOf(g[order[k] - 1], order, nodes[k])
  }

  /** An open collection: the edges it still lacks, and the event that closes it. */
  datatype Frame = Frame(left: seq<nat>, end: Event)

  function EndOf(node: Node): Event {
    if node.SequenceNode? then SequenceEnd else MappingEnd
  }

  /** What the dumper still has to write for the open collections, innermost last. */
  ghost function OpenWork(frames: seq<Frame>): seq<Work> {
    if frames == [] then []
    else
      var top := frames[|frames| - 1];
      Visits(top.left) + ([Close(top.end)] + OpenWork(frames[..|frames| - 1]))
  }

  ghost predicate FrameOf(node: Node, shape: Loader.Shape, frame: Frame) {
    && !node.ScalarNode?
    && frame.end == EndOf(node)
    && |shape.kids| <= |Children(node)|
    && frame.left == Children(node)[|shape.kids|..]
  }

  /** The open collections are the incomplete ones, and `frames` is what they lack. */
  ghost predicate Open(g: Graph, order: seq<nat>, nodes: seq<Loader.Shape>, ctx: seq<nat>, frames: seq<Frame>)
    requires InRange(g, order) && |nodes| == |order|
  {
    && |frames| == |ctx|
    && DistinctIds(ctx)
    && (forall k :: 0 <= k < |ctx| ==> 1 <= ctx[k] <= |order|)
    && (forall k :: 0 <= k < |ctx| ==> FrameAt(g, order, nodes, ctx[k] - 1, frames[k]))
    && (forall k :: 0 <= k < |order| ==> CompleteOrOpen(g, order, nodes, ctx, k))
  }

  ghost predicate FrameAt(g: Graph, order: seq<nat>, nodes: seq<Loader.Shape>, k: nat, frame: Frame)
    requires InRange(g, order) && |nodes| == |order| && k < |order|
  {
    FrameOf(g[order[k] - 1], nodes[k], frame)
  }

  ghost predicate CompleteOrOpen(g: Graph, order: seq<nat>, nodes: seq<Loader.Shape>, ctx: seq<nat>, k: nat)
    requires InRange(g, order) && |nodes| == |order| && k < |order|
  {
    k + 1 in ctx || |nodes[k].kids| == |Children(g[order[k] - 1])|
  }

  /** The loader knows each anchor written so far, and no other. */
  ghost predicate AnchorsKnown(names: seq<Option<string>>, order: seq<nat>, known: map<string, nat>) {
    && (forall i :: 1 <= i <= |names| && i in order && names[i - 1].Some? ==> Known(names, i, order, known))
    && (forall name :: name in known ==> Carried(names, order, name))
  }

  ghost predicate Known(names: seq<Option<string>>, i: nat, order: seq<nat>, known: map<string, nat>)
    requires 1 <= i <= |names| && names[i - 1].Some?
  {
    var name := names[i - 1].value;
    name in known && 1 <= known[name] <= |order| && order[known[name] - 1] == i
  }

  ghost predicate Carried(names: seq<Option<string>>, order: seq<nat>, name: string) {
    exists i :: 1 <= i <= |names| && i in order && names[i - 1] == Some(name)
  }

  ghost predicate Listed(order: seq<nat>, seen: set<nat>) {
    && DistinctIds(order)
    && (order != [] ==> order[0] == 1)
    && forall i :: i in seen <==> i in order
  }

  ghost function WorkLeft(order: seq<nat>, frames: seq<Frame>): seq<Work> {
    if order == [] then [Visit(1)] else OpenWork(frames)
  }

  /** The loader has built the nodes in `order` as far as the dumper has got. */
  ghost predicate InStep(g: Graph, names: seq<Option<string>>, order: seq<nat>, frames: seq<Frame>, p: Point,
                         st: Loader.Loading) {
    && Ok(g, p) && |names| == |g| > 0
    && Loader.CtxOk(st)
    && Parts(g, order, st.nodes)
    && Listed(order, p.seen)
    && Open(g, order, st.nodes, st.ctx, frames)
    && p.work == WorkLeft(order, frames)
    && AnchorsKnown(names, order, st.anchors)
  }

  lemma {:induction false} NothingLeft(node: Node, shape: Loader.Shape, frame: Frame)
    requires FrameOf(node, shape, frame) && frame.left == []
    ensures |shape.kids| == |Children(node)|
  {
  }

  lemma {:induction false} CloseTop(g: Graph, order: seq<nat>, nodes: seq<Loader.Shape>, ctx: seq<nat>,
                                    frames: seq<Frame>)
    requires InRange(g, order) && |nodes| == |order|
    requires Open(g, order, nodes, ctx, frames) && frames != [] && frames[|frames| - 1].left == []
    ensures Open(g, order, nodes, ctx[..|ctx| - 1], frames[..|frames| - 1])
  {
    hide FrameOf, Children;
    var below := ctx[..|ctx| - 1];
    var top := ctx[|ctx| - 1] - 1;
    assert FrameAt(g, order, nodes, top, frames[|frames| - 1]);
    NothingLeft(g[order[top] - 1], nodes[top], frames[|frames| - 1]);
    forall k | 0 <= k < |order|
      ensures CompleteOrOpen(g, order, nodes, below, k)
    {
      assert CompleteOrOpen(g, order, nodes, ctx, k);
      if k + 1 in ctx && k != top {
        assert k + 1 in below;
      }
    }
  }

  lemma {:induction false} WorkOfTop(frames: seq<Frame>)
    requires frames != []
    ensures var top := frames[|frames| - 1];
            OpenWork(frames) ==
            if top.left == [] then [Close(top.end)] + OpenWork(frames[..|frames| - 1])
            else [Visit(top.left[0])] + OpenWork(frames[..|frames| - 1] + [top.(left := top.left[1..])])
  {
    var top := frames[|frames| - 1];
    var below := OpenWork(frames[..|frames| - 1]);
    if top.left != [] {
      var frames' := frames[..|frames| - 1] + [top.(left := top.left[1..])];
      assert frames'[..|frames'| - 1] == frames[..|frames| - 1];
      assert top.left[0..] == top.left;
      VisitsSplit(top.left, 0, [Close(top.end)] + below);
    } else {
      assert Visits(top.left) + ([Close(top.end)] + below) == [Close(top.end)] + below;
    }
  }

  /** The loader accepts the end of the innermost collection. */
  lemma {:induction false} LoadClose(g: Graph, order: seq<nat>, frames: seq<Frame>, st: Loader.Loading)
    requires InRange(g, order) && Parts(g, order, st.nodes) && Loader.CtxOk(st)
    requires Open(g, order, st.nodes, st.ctx, frames) && frames != []
    ensures Loader.LoadEvent(st, frames[|frames| - 1].end) == Loader.Ok(st.(ctx := st.ctx[..|st.ctx| - 1]))
  {
    hide PartOf, FrameOf, CompleteOrOpen, DistinctIds;
    var top := st.ctx[|st.ctx| - 1] - 1;
    assert FrameAt(g, order, st.nodes, top, frames[|frames| - 1]);
    EndKnown(g, order, st.nodes, top, frames[|frames| - 1]);
  }

  lemma {:induction false} EndKnown(g: Graph, order: seq<nat>, nodes: seq<Loader.Shape>, k: nat, frame: Frame)
    requires InRange(g, order) && |nodes| == |order| && k < |order|
    requires PartAt(g, order, nodes, k) && FrameAt(g, order, nodes, k, frame)
    ensures frame.end == if nodes[k].kind == Loader.ASequence then SequenceEnd else MappingEnd
    ensures nodes[k].kind != Loader.AScalar
  {
  }

  lemma {:induction false} StepClose(g: Graph, names: seq<Option<string>>, order: seq<nat>, frames: seq<Frame>,
                                     p: Point, st: Loader.Loading)
    requires InStep(g, names, order, frames, p, st) && p.work != [] && p.work[0].Close?
    ensures frames != []
    ensures var r := Loader.LoadEvent(st, StepEvent(g, names, p));
            r.Ok? && InStep(g, names, order, frames[..|frames| - 1], Next(g, p), r.value)
  {
    WorkOfTop(frames);
    var top := frames[|frames| - 1];
    CloseTop(g, order, st.nodes, st.ctx, frames);
    LoadClose(g, order, frames, st);
    assert p.work == [Close(top.end)] + OpenWork(frames[..|frames| - 1]);
    assert p.work[1..] == OpenWork(frames[..|frames| - 1]);
  }

  function WithKid(shape: Loader.Shape, index: nat): Loader.Shape {
    shape.(kids := shape.kids + [index])
  }

  function Shorter(frame: Frame): Frame
    requires frame.left != []
  {
    frame.(left := frame.left[1..])
  }

  lemma {:induction false} ExtendPart(node: Node, order: seq<nat>, shape: Loader.Shape, frame: Frame, index: nat)
    requires PartOf(node, order, shape) && FrameOf(node, shape, frame) && frame.left != []
    requires 1 <= index <= |order| && order[index - 1] == frame.left[0]
    ensures PartOf(node, order, WithKid(shape, index)) && FrameOf(node, WithKid(shape, index), Shorter(frame))
  {
    hide Children, Blank;
    assert Children(node)[|shape.kids|] == frame.left[0];
  }

  lemma {:induction false} AttachParts(g: Graph, order: seq<nat>, nodes: seq<Loader.Shape>, top: nat,
                                       shape: Loader.Shape)
    requires Parts(g, order, nodes) && top < |order| && PartOf(g[order[top] - 1], order, shape)
    ensures Parts(g, order, nodes[top := shape])
  {
    var nodes' := nodes[top := shape];
    forall k | 0 <= k < |order|
      ensures PartAt(g, order, nodes', k)
    {
      if k != top {
        assert PartAt(g, order, nodes, k);
      }
    }
  }

  lemma {:induction false} AttachOpen(g: Graph, order: seq<nat>, nodes: seq<Loader.Shape>, ctx: seq<nat>,
                                      frames: seq<Frame>, t: nat, shape: Loader.Shape, frame: Frame)
    requires InRange(g, order) && |nodes| == |order| && Open(g, order, nodes, ctx, frames)
    requires t < |ctx| && FrameOf(g[order[ctx[t] - 1] - 1], shape, frame)
    ensures Open(g, order, nodes[ctx[t] - 1 := shape], ctx, frames[t := frame])
  {
    hide FrameOf, Children;
    var top := ctx[t] - 1;
    var nodes' := nodes[top := shape];
    forall k | 0 <= k < |ctx|
      ensures FrameAt(g, order, nodes', ctx[k] - 1, frames[t := frame][k])
    {
      if k != t {
        assert FrameAt(g, order, nodes, ctx[k] - 1, frames[k]);
      }
    }
    forall k | 0 <= k < |order|
      ensures CompleteOrOpen(g, order, nodes', ctx, k)
    {
      assert CompleteOrOpen(g, order, nodes, ctx, k);
      assert k == top ==> ctx[t] == k + 1;
    }
  }

  /** An edge added to an open collection. */
  lemma {:induction false} AttachAt(g: Graph, order: seq<nat>, nodes: seq<Loader.Shape>, ctx: seq<nat>,
                                    frames: seq<Frame>, t: nat, index: nat)
    requires Parts(g, order, nodes) && Open(g, order, nodes, ctx, frames)
    requires t < |ctx| && frames[t].left != []
    requires 1 <= index <= |order| && order[index - 1] == frames[t].left[0]
    ensures var nodes' := nodes[ctx[t] - 1 := WithKid(nodes[ctx[t] - 1], index)];
            && Parts(g, order, nodes')
            && Open(g, order, nodes', ctx, frames[t := Shorter(frames[t])])
  {
    hide PartOf, FrameOf, CompleteOrOpen, DistinctIds, WithKid, Shorter;
    var top := ctx[t] - 1;
    assert PartAt(g, order, nodes, top) && FrameAt(g, order, nodes, top, frames[t]);
    ExtendPart(g[order[top] - 1], order, nodes[top], frames[t], index);
    AttachParts(g, order, nodes, top, WithKid(nodes[top], index));
    AttachOpen(g, order, nodes, ctx, frames, t, WithKid(nodes[top], index), Shorter(frames[t]));
  }

  /** The traversal after one visit, in terms of the innermost open collection. */
  lemma {:induction false} WorkAfterVisit(frames: seq<Frame>, work: seq<Work>)
    requires work == OpenWork(frames) && work != [] && work[0].Visit?
    ensures frames != [] && frames[|frames| - 1].left != [] && frames[|frames| - 1].left[0] == work[0].id
    ensures work[1..] == OpenWork(frames[|frames| - 1 := Shorter(frames[|frames| - 1])])
  {
    WorkOfTop(frames);
    var n := |frames| - 1;
    assert frames[n := Shorter(frames[n])] == frames[..n] + [Shorter(frames[n])];
    assert work == [Visit(work[0].id)] + OpenWork(frames[..n] + [Shorter(frames[n])]);
  }

  lemma {:induction false} AliasKnown(names: seq<Option<string>>, order: seq<nat>, st: Loader.Loading, i: nat)
    requires AnchorsKnown(names, order, st.anchors) && 1 <= i <= |names| && i in order && names[i - 1].Some?
    ensures Known(names, i, order, st.anchors)
  {
  }

  lemma {:induction false} AttachIs(st: Loader.Loading, index: nat)
    requires Loader.CtxOk(st) && st.ctx != []
    ensures var top := st.ctx[|st.ctx| - 1] - 1;
            Loader.Attach(st, index) == Loader.Loading(st.nodes[top := WithKid(st.nodes[top], index)], st.anchors,
                                                       st.ctx)
  {
  }

  /** The next edge of the innermost open collection. */
  lemma {:induction false} AttachTop(g: Graph, order: seq<nat>, frames: seq<Frame>, st: Loader.Loading, index: nat)
    requires Parts(g, order, st.nodes) && Open(g, order, st.nodes, st.ctx, frames) && Loader.CtxOk(st)
    requires frames != [] && frames[|frames| - 1].left != []
    requires 1 <= index <= |order| && order[index - 1] == frames[|frames| - 1].left[0]
    ensures var st' := Loader.Attach(st, index);
            Parts(g, order, st'.nodes) &&
            Open(g, order, st'.nodes, st.ctx, frames[|frames| - 1 := Shorter(frames[|frames| - 1])])
  {
    hide PartAt, FrameAt, CompleteOrOpen;
    AttachIs(st, index);
    AttachAt(g, order, st.nodes, st.ctx, frames, |frames| - 1, index);
  }

  lemma {:induction false} AliasLoads(g: Graph, names: seq<Option<string>>, order: seq<nat>, p: Point,
                                      st: Loader.Loading)
    returns (index: nat)
    requires Ok(g, p) && |names| == |g| && Loader.CtxOk(st)
    requires Listed(order, p.seen) && AnchorsKnown(names, order, st.anchors)
    requires p.work != [] && p.work[0].Visit? && p.work[0].id in p.seen && names[p.work[0].id - 1].Some?
    ensures order != [] && 1 <= index <= |order| && order[index - 1] == p.work[0].id
    ensures Loader.LoadEvent(st, StepEvent(g, names, p)) == Loader.Ok(Loader.Attach(st, index))
    ensures Next(g, p) == Point(p.seen, p.work[1..])
  {
    var i := p.work[0].id;
    AliasKnown(names, order, st, i);
    index := st.anchors[names[i - 1].value];
  }

  lemma {:induction false} StepAlias(g: Graph, names: seq<Option<string>>, order: seq<nat>, frames: seq<Frame>,
                                     p: Point, st: Loader.Loading)
    returns (frames': seq<Frame>)
    requires InStep(g, names, order, frames, p, st)
    requires p.work != [] && p.work[0].Visit? && p.work[0].id in p.seen && names[p.work[0].id - 1].Some?
    ensures var r := Loader.LoadEvent(st, StepEvent(g, names, p));
            r.Ok? && InStep(g, names, order, frames', Next(g, p), r.value)
  {
    var index := AliasLoads(g, names, order, p, st);
    WorkAfterVisit(frames, p.work);
    frames' := frames[|frames| - 1 := Shorter(frames[|frames| - 1])];
    AttachTop(g, order, frames, st, index);
    AttachIs(st, index);
    Loader.AttachKeepsCtx(st, index);
  }

  lemma {:induction false} GrowParts(g: Graph, order: seq<nat>, nodes: seq<Loader.Shape>, i: nat)
    requires Parts(g, order, nodes) && 1 <= i <= |g|
    ensures Parts(g, order + [i], nodes + [Blank(g[i - 1])])
  {
    var order' := order + [i];
    var nodes' := nodes + [Blank(g[i - 1])];
    forall k | 0 <= k < |order'|
      ensures PartAt(g, order', nodes', k)
    {
      if k < |order| {
        assert PartAt(g, order, nodes, k);
      }
    }
  }

  lemma {:induction false} GrowFrames(g: Graph, order: seq<nat>, nodes: seq<Loader.Shape>, ctx: seq<nat>,
                                      frames: seq<Frame>, i: nat, shape: Loader.Shape)
    requires InRange(g, order) && |nodes| == |order| && Open(g, order, nodes, ctx, frames) && 1 <= i <= |g|
    ensures forall k :: 0 <= k < |ctx| ==> FrameAt(g, order + [i], nodes + [shape], ctx[k] - 1, frames[k])
  {
    hide FrameOf;
    forall k | 0 <= k < |ctx|
      ensures FrameAt(g, order + [i], nodes + [shape], ctx[k] - 1, frames[k])
    {
      assert FrameAt(g, order, nodes, ctx[k] - 1, frames[k]);
    }
  }

  lemma {:induction false} GrowComplete(g: Graph, order: seq<nat>, nodes: seq<Loader.Shape>, ctx: seq<nat>,
                                        more: seq<nat>, i: nat, shape: Loader.Shape)
    requires InRange(g, order) && |nodes| == |order| && 1 <= i <= |g|
    requires forall k :: 0 <= k < |order| ==> CompleteOrOpen(g, order, nodes, ctx, k)
    ensures forall k :: 0 <= k < |order| ==> CompleteOrOpen(g, order + [i], nodes + [shape], ctx + more, k)
  {
    hide Children;
    forall k | 0 <= k < |order|
      ensures CompleteOrOpen(g, order + [i], nodes + [shape], ctx + more, k)
    {
      assert CompleteOrOpen(g, order, nodes, ctx, k);
    }
  }

  /** A new scalar is complete at once. */
  lemma {:induction false} GrowScalar(g: Graph, order: seq<nat>, nodes: seq<Loader.Shape>, ctx: seq<nat>,
                                      frames: seq<Frame>, i: nat)
    requires InRange(g, order) && |nodes| == |order| && Open(g, order, nodes, ctx, frames) && 1 <= i <= |g|
    requires g[i - 1].ScalarNode?
    ensures Open(g, order + [i], nodes + [Blank(g[i - 1])], ctx, frames)
  {
    var order' := order + [i];
    var nodes' := nodes + [Blank(g[i - 1])];
    assert CompleteOrOpen(g, order', nodes', ctx, |order|);
    hide FrameAt, CompleteOrOpen, Blank;
    GrowFrames(g, order, nodes, ctx, frames, i, Blank(g[i - 1]));
    GrowComplete(g, order, nodes, ctx, [], i, Blank(g[i - 1]));
    assert ctx + [] == ctx;
  }

  /** A collection that was just added is open, with all its children left. */
  lemma {:induction false} NewIsOpen(g: Graph, order: seq<nat>, nodes: seq<Loader.Shape>, ctx: seq<nat>, i: nat)
    requires InRange(g, order) && |nodes| == |order| && 1 <= i <= |g| && !g[i - 1].ScalarNode?
    ensures InRange(g, order + [i])
    ensures CompleteOrOpen(g, order + [i], nodes + [Blank(g[i - 1])], ctx + [|order| + 1], |order|)
    ensures FrameAt(g, order + [i], nodes + [Blank(g[i - 1])], |order|, NewFrame(g[i - 1]))
  {
    hide Children;
    var ctx' := ctx + [|order| + 1];
    assert ctx'[|ctx|] == |order| + 1;
  }

  lemma {:induction false} GrowCollection(g: Graph, order: seq<nat>, nodes: seq<Loader.Shape>, ctx: seq<nat>,
                                          frames: seq<Frame>, i: nat)
    requires InRange(g, order) && |nodes| == |order| && Open(g, order, nodes, ctx, frames) && 1 <= i <= |g|
    requires !g[i - 1].ScalarNode?
    ensures Open(g, order + [i], nodes + [Blank(g[i - 1])], ctx + [|order| + 1], frames + [NewFrame(g[i - 1])])
  {
    hide FrameAt, CompleteOrOpen, Blank, NewFrame;
    NewIsOpen(g, order, nodes, ctx, i);
    GrowFrames(g, order, nodes, ctx, frames, i, Blank(g[i - 1]));
    GrowComplete(g, order, nodes, ctx, [|order| + 1], i, Blank(g[i - 1]));
  }

  function NewFrame(node: Node): Frame {
    Frame(Children(node), EndOf(node))
  }

  /** The anchors known once node i is added. */
  function KnownAfter(known: map<string, nat>, name: Option<string>, index: nat): map<string, nat> {
    if name.Some? then known[name.value := index] else known
  }

  lemma {:induction false} GrowAnchors(names: seq<Option<string>>, order: seq<nat>, known: map<string, nat>, i: nat)
    requires AnchorsKnown(names, order, known) && DistinctNames(names) && 1 <= i <= |names| && i !in order
    ensures names[i - 1].Some? ==> names[i - 1].value !in known
    ensures AnchorsKnown(names, order + [i], KnownAfter(known, names[i - 1], |order| + 1))
  {
    var order' := order + [i];
    var known' := KnownAfter(known, names[i - 1], |order| + 1);
    forall j | 1 <= j <= |names| && j in order' && names[j - 1].Some?
      ensures Known(names, j, order', known')
    {
      if j != i {
        assert j in order;
        assert Known(names, j, order, known);
      }
    }
    forall name | name in known'
      ensures Carried(names, order', name)
    {
      if name in known {
        assert Carried(names, order, name);
        var j :| 1 <= j <= |names| && j in order && names[j - 1] == Some(name);
        assert j in order';
      } else {
        assert order'[|order|] == i && i in order';
      }
    }
  }

  lemma {:induction false} GrowListed(order: seq<nat>, seen: set<nat>, i: nat)
    requires Listed(order, seen) && i !in seen && (order == [] ==> i == 1)
    ensures Listed(order + [i], seen + {i})
  {
    assert (order + [i])[|order|] == i;
    assert forall j :: j in order + [i] <==> j in order || j == i;
  }

  /** The node table after a new node is added below the innermost open collection. */
  function NodesAfter(st: Loader.Loading, shape: Loader.Shape): seq<Loader.Shape>
    requires Loader.CtxOk(st)
  {
    var nodes := st.nodes + [shape];
    if st.ctx == [] then nodes
    else
      var parent := st.ctx[|st.ctx| - 1] - 1;
      nodes[parent := WithKid(nodes[parent], |nodes|)]
  }

  function CtxAfter(st: Loader.Loading, node: Node): seq<nat> {
    if node.ScalarNode? then st.ctx else st.ctx + [|st.nodes| + 1]
  }

  lemma {:induction false} AddNodeIs(st: Loader.Loading, shape: Loader.Shape, name: Option<string>)
    requires Loader.CtxOk(st) && (name.Some? ==> name.value !in st.anchors)
    ensures Loader.AddNode(st, shape, name) ==
            Loader.Ok(Loader.Loading(NodesAfter(st, shape), KnownAfter(st.anchors, name, |st.nodes| + 1), st.ctx))
  {
    Loader.AppendKeepsCtx(st, shape, KnownAfter(st.anchors, name, |st.nodes| + 1));
  }

  lemma {:induction false} FirstLoads(node: Node, name: Option<string>, st: Loader.Loading)
    requires Loader.CtxOk(st) && (name.Some? ==> name.value !in st.anchors)
    ensures Loader.LoadEvent(st, Announce(node, name)) ==
            Loader.Ok(Loader.Loading(NodesAfter(st, Blank(node)), KnownAfter(st.anchors, name, |st.nodes| + 1),
                                     CtxAfter(st, node)))
  {
    hide Loader.AddNode, NodesAfter, KnownAfter, Loader.CtxOk;
    AddNodeIs(st, Blank(node), name);
  }

  ghost function FramesAfter(frames: seq<Frame>, node: Node): seq<Frame>
    requires frames == [] || frames[|frames| - 1].left != []
  {
    var shorter := if frames == [] then [] else frames[|frames| - 1 := Shorter(frames[|frames| - 1])];
    if node.ScalarNode? then shorter else shorter + [NewFrame(node)]
  }

  lemma {:induction false} FirstWork(frames: seq<Frame>, order: seq<nat>, work: seq<Work>, node: Node)
    requires work == WorkLeft(order, frames) && work != [] && work[0].Visit? && (order == [] ==> frames == [])
    ensures frames == [] <==> order == []
    ensures frames != [] ==> frames[|frames| - 1].left != [] && frames[|frames| - 1].left[0] == work[0].id
    ensures Expand(node) + work[1..] == OpenWork(FramesAfter(frames, node))
  {
    if order != [] {
      WorkAfterVisit(frames, work);
    }
    var after := FramesAfter(frames, node);
    if !node.ScalarNode? {
      assert after[..|after| - 1] == if frames == [] then [] else frames[|frames| - 1 := Shorter(frames[|frames| - 1])];
    }
  }

  lemma {:induction false} FirstBuilt(g: Graph, order: seq<nat>, frames: seq<Frame>, st: Loader.Loading, i: nat)
    requires Parts(g, order, st.nodes) && Open(g, order, st.nodes, st.ctx, frames) && Loader.CtxOk(st) && 1 <= i <= |g|
    requires frames != [] ==> frames[|frames| - 1].left != [] && frames[|frames| - 1].left[0] == i
    ensures Parts(g, order + [i], NodesAfter(st, Blank(g[i - 1])))
    ensures Open(g, order + [i], NodesAfter(st, Blank(g[i - 1])), CtxAfter(st, g[i - 1]), FramesAfter(frames, g[i - 1]))
  {
    hide Blank, Children, Parts, NewFrame, Shorter, Open, WithKid;
    var node := g[i - 1];
    PartsRange(g, order, st.nodes);
    OpenSize(g, order, st.nodes, st.ctx, frames);
    GrowParts(g, order, st.nodes, i);
    PartsRange(g, order + [i], st.nodes + [Blank(node)]);
    if node.ScalarNode? {
      GrowScalar(g, order, st.nodes, st.ctx, frames, i);
    } else {
      GrowCollection(g, order, st.nodes, st.ctx, frames, i);
    }
    if frames != [] {
      var t := |frames| - 1;
      var frames1 := if node.ScalarNode? then frames else frames + [NewFrame(node)];
      AttachAt(g, order + [i], st.nodes + [Blank(node)], CtxAfter(st, node), frames1, t, |order| + 1);
      ShorterTop(frames, node);
    }
  }

  lemma {:induction false} OpenSize(g: Graph, order: seq<nat>, nodes: seq<Loader.Shape>, ctx: seq<nat>,
                                    frames: seq<Frame>)
    requires InRange(g, order) && |nodes| == |order| && Open(g, order, nodes, ctx, frames)
    ensures |frames| == |ctx| && forall k :: 0 <= k < |ctx| ==> 1 <= ctx[k] <= |order|
  {
  }

  lemma {:induction false} PartsRange(g: Graph, order: seq<nat>, nodes: seq<Loader.Shape>)
    requires Parts(g, order, nodes)
    ensures InRange(g, order) && |nodes| == |order|
  {
  }

  lemma {:induction false} ShorterTop(frames: seq<Frame>, node: Node)
    requires frames != [] && frames[|frames| - 1].left != []
    ensures var t := |frames| - 1;
            var frames1 := if node.ScalarNode? then frames else frames + [NewFrame(node)];
            frames1[t := Shorter(frames1[t])] == FramesAfter(frames, node)
  {
    hide NewFrame, Shorter;
  }

  lemma {:induction false} NoneOpen(g: Graph, order: seq<nat>, frames: seq<Frame>, st: Loader.Loading)
    requires InRange(g, order) && |st.nodes| == |order| && Open(g, order, st.nodes, st.ctx, frames)
    ensures order == [] ==> frames == []
  {
    hide FrameAt, CompleteOrOpen;
    if frames != [] {
      assert 1 <= st.ctx[0] <= |order|;
    }
  }

  lemma {:induction false} StepFirst(g: Graph, names: seq<Option<string>>, order: seq<nat>, frames: seq<Frame>,
                                     p: Point, st: Loader.Loading)
    returns (frames': seq<Frame>)
    requires InStep(g, names, order, frames, p, st) && FirstVisit(p) && DistinctNames(names)
    ensures var r := Loader.LoadEvent(st, StepEvent(g, names, p));
            r.Ok? && InStep(g, names, order + [p.work[0].id], frames', Next(g, p), r.value)
  {
    hide PartAt, FrameAt, CompleteOrOpen, Blank, Children, Known, Carried;
    hide NodesAfter, CtxAfter, FramesAfter, KnownAfter, OpenWork, Expand, Announce, Loader.LoadEvent;
    var i := p.work[0].id;
    var node := g[i - 1];
    NoneOpen(g, order, frames, st);
    FirstWork(frames, order, p.work, node);
    GrowAnchors(names, order, st.anchors, i);
    GrowListed(order, p.seen, i);
    FirstLoads(node, names[i - 1], st);
    FirstBuilt(g, order, frames, st, i);
    frames' := FramesAfter(frames, node);
  }

  /** The loader follows the dumper to the end. */
  lemma {:induction false} Follow(g: Graph, names: seq<Option<string>>, order: seq<nat>, frames: seq<Frame>, p: Point,
                                  st: Loader.Loading)
    returns (frames': seq<Frame>, q: Point, st': Loader.Loading)
    requires InStep(g, names, order, frames, p, st) && Covered(g, names, p) && DistinctNames(names)
    ensures Loader.LoadEvents(st, Emit(g, names, p)) == Loader.Ok(st')
    ensures q.work == [] && InStep(g, names, order + Order(g, p), frames', q, st')
    decreases Unseen(|g|, p.seen), |p.work|
  {
    hide Parts, Open, Listed, AnchorsKnown, OpenWork, WorkLeft, Loader.LoadEvent, StepEvent, Covered, DistinctNames;
    hide Loader.CtxOk, WellFormed, Calls, Unseen, Expand;
    if p.work == [] {
      assert order + Order(g, p) == order;
      frames', q, st' := frames, p, st;
    } else {
      CoveredStep(g, names, p);
      var r := Loader.LoadEvent(st, StepEvent(g, names, p));
      var order1, frames1 := order, frames;
      if p.work[0].Close? {
        StepClose(g, names, order, frames, p, st);
        frames1 := frames[..|frames| - 1];
      } else if p.work[0].id in p.seen {
        frames1 := StepAlias(g, names, order, frames, p, st);
      } else {
        frames1 := StepFirst(g, names, order, frames, p, st);
        order1 := order + [p.work[0].id];
      }
      frames', q, st' := Follow(g, names, order1, frames1, Next(g, p), r.value);
      assert order1 + Order(g, Next(g, p)) == order + Order(g, p);
      assert Emit(g, names, p)[1..] == Emit(g, names, Next(g, p));
    }
  }

  /** `nodes` is the part of g reachable from node 1, renumbered through `order`, with nothing missing. */
  ghost predicate Rebuilt(g: Graph, order: seq<nat>, nodes: seq<Loader.Shape>) {
    && Parts(g, order, nodes)
    && (forall k :: 0 <= k < |order| ==> CompleteOrOpen(g, order, nodes, [], k))
    && |order| > 0 && order[0] == 1
    && DistinctIds(order)
    && (forall id :: id in order <==> Reachable(g, 1, id))
  }

  lemma {:induction false} StartInStep(g: Graph, names: seq<Option<string>>)
    requires WellFormed(g) && |g| > 0 && |names| == |g|
    ensures InStep(g, names, [], [], START, Loader.NOTHING)
  {
  }

  lemma {:induction false} ChildListed(g: Graph, order: seq<nat>, nodes: seq<Loader.Shape>, k: nat, c: nat)
    requires InRange(g, order) && |nodes| == |order| && k < |order|
    requires PartAt(g, order, nodes, k) && CompleteOrOpen(g, order, nodes, [], k) && c in Children(g[order[k] - 1])
    ensures c in order
  {
    hide Children, Blank;
    var children := Children(g[order[k] - 1]);
    var j :| 0 <= j < |children| && children[j] == c;
    assert order[nodes[k].kids[j] - 1] == c;
  }

  /** A closed list of ids that contains the root contains everything reachable. */
  lemma {:induction false} CompleteIsClosed(g: Graph, order: seq<nat>, nodes: seq<Loader.Shape>, id: nat)
    requires WellFormed(g) && Parts(g, order, nodes) && 1 in order
    requires forall k :: 0 <= k < |order| ==> CompleteOrOpen(g, order, nodes, [], k)
    requires Reachable(g, 1, id)
    ensures id in order
  {
    hide Children, PartAt, CompleteOrOpen;
    var ids := set i | i in order;
    forall i, c | i in ids && 1 <= i <= |g| && c in Children(g[i - 1])
      ensures c in ids
    {
      var k :| 0 <= k < |order| && order[k] == i;
      ChildListed(g, order, nodes, k, c);
    }
    var path :| PathBetween(g, path, 1, id);
    ClosedContainsPath(g, ids, path);
  }

  /** Feeding the dumper's events to the loader rebuilds what is reachable from the root. */
  lemma {:induction false} LoadAfterDump(g: Graph, names: seq<Option<string>>)
    requires WellFormed(g) && |g| > 0 && NamesOk(g, names)
    ensures Ok(g, START)
    ensures var r := Loader.LoadEvents(Loader.NOTHING, Emit(g, names, START));
            r.Ok? && r.value.ctx == [] && Rebuilt(g, Order(g, START), r.value.nodes)
  {
    StartInStep(g, names);
    var frames, q, st := Follow(g, names, [], [], START, Loader.NOTHING);
    var order := Order(g, START);
    assert [] + order == order;
    assert order != [] by {
      assert FirstVisit(START);
    }
    assert frames == [] by {
      if frames != [] {
        WorkOfTop(frames);
        assert false;
      }
    }
    OrderIsReachable(g, START) by {
      ReachableSelf(g, 1);
    }
    forall id
      ensures id in order <==> Reachable(g, 1, id)
    {
      if Reachable(g, 1, id) {
        CompleteIsClosed(g, order, st.nodes, id);
      }
    }
  }

  lemma {:induction false} LoadedBody(events: seq<Event>, rest: seq<Event>)
    requires forall k :: 0 <= k < |events| ==> !events[k].DocumentEnd?
    requires rest != [] && rest[0].DocumentEnd?
    ensures Loader.Body(events + rest) == events
  {
    if events == [] {
      assert events + rest == rest;
    } else {
      LoadedBody(events[1..], rest);
      assert (events + rest)[1..] == events[1..] + rest;
    }
  }

  lemma {:induction false} EmitHasNoDocumentEnd(g: Graph, names: seq<Option<string>>, p: Point)
    requires Ok(g, p) && |names| == |g|
    requires forall k :: 0 <= k < |p.work| && p.work[k].Close? ==> p.work[k].event in {SequenceEnd, MappingEnd}
    ensures forall k :: 0 <= k < |Emit(g, names, p)| ==> !Emit(g, names, p)[k].DocumentEnd?
    decreases Unseen(|g|, p.seen), |p.work|
  {
    if p.work != [] {
      EmitHasNoDocumentEnd(g, names, Next(g, p));
    }
  }

  /** Once no value is missing, the shape of a node shows all its edges. */
  lemma {:induction false} ShapeOfComplete(node: Node, original: Node)
    requires Loader.ShapeOf(node).kind == KindOf(original)
    requires |Loader.ShapeOf(node).kids| == |Children(original)|
    ensures Children(node) == Loader.ShapeOf(node).kids
  {
    if original.MappingNode? {
      FlattenAt(original.pairs, 0);
      FlattenAt(node.pairs, 0);
      if node.pairs != [] {
        FlattenAt(node.pairs[..|node.pairs| - 1], 0);
      }
    }
  }

  lemma {:induction false} RebuiltIsIsomorphic(g: Graph, order: seq<nat>, copy: Graph)
    requires Rebuilt(g, order, Loader.Shapes(copy))
    ensures Isomorphic(g, order, copy, TagAfter)
  {
    hide SameNode, PartAt, CompleteOrOpen, Reachable;
    forall k | 0 <= k < |order|
      ensures SameNode(g[order[k] - 1], order, copy[k], TagAfter)
    {
      RebuiltNode(g, order, copy, k);
    }
  }

  lemma {:induction false} RebuiltNode(g: Graph, order: seq<nat>, copy: Graph, k: nat)
    requires InRange(g, order) && |copy| == |order| && k < |order|
    requires PartAt(g, order, Loader.Shapes(copy), k) && CompleteOrOpen(g, order, Loader.Shapes(copy), [], k)
    ensures SameNode(g[order[k] - 1], order, copy[k], TagAfter)
  {
    ShapeOfComplete(copy[k], g[order[k] - 1]);
  }

  lemma {:induction false} SameTag(node: Node, order: seq<nat>, image: Node)
    requires SameNode(node, order, image, TagAfter)
    ensures SameNode(node, order, image, OwnTag) <==> node.tag != "!"
  {
  }

  function OwnTag(node: Node): string {
    node.tag
  }

  /** The tags survive exactly when none of the reachable nodes has the non-specific tag "!". */
  lemma {:induction false} TagsSurvive(g: Graph, order: seq<nat>, copy: Graph)
    requires Isomorphic(g, order, copy, TagAfter)
    ensures Isomorphic(g, order, copy, OwnTag) <==>
            forall id: nat :: Reachable(g, 1, id) && 1 <= id <= |g| ==> g[id - 1].tag != "!"
  {
    hide SameNode;
    forall k | 0 <= k < |order|
      ensures SameNode(g[order[k] - 1], order, copy[k], OwnTag) <==> g[order[k] - 1].tag != "!"
    {
      SameTag(g[order[k] - 1], order, copy[k]);
    }
    if Isomorphic(g, order, copy, OwnTag) {
      forall id: nat | Reachable(g, 1, id) && 1 <= id <= |g|
        ensures g[id - 1].tag != "!"
      {
        var k :| 0 <= k < |order| && order[k] == id;
        assert SameNode(g[order[k] - 1], order, copy[k], OwnTag);
      }
    } else {
      var k :| 0 <= k < |order| && !SameNode(g[order[k] - 1], order, copy[k], OwnTag);
      assert order[k] in order;
    }
  }

  /** A document whose root has the tag "!". */
  const BANG := [ScalarNode("!", "x", Plain)]

  /** It is loaded with the default tag, whatever is loaded after its dump. */
  lemma {:induction false} BangIsLost(copy: Graph)
    ensures WellFormed(BANG) && Ok(BANG, START) && Order(BANG, START) == [1]
    ensures Isomorphic(BANG, [1], copy, TagAfter) ==>
              copy == [ScalarNode(DEFAULT_SCALAR_TAG, "x", Plain)] && !Isomorphic(BANG, [1], copy, OwnTag)
  {
    var next := Next(BANG, START);
    assert FirstVisit(START) && next.work == [] && Order(BANG, next) == [];
    if Isomorphic(BANG, [1], copy, TagAfter) {
      ReachableSelf(BANG, 1);
      TagsSurvive(BANG, [1], copy);
      assert SameNode(BANG[[1][0] - 1], [1], copy[0], TagAfter);
    }
  }

  /** Dumping a document and loading its events: a copy of what is reachable from the root. */
  method DumpThenLoad(g: Graph, start: Event, endImplicit: bool) returns (copy: Graph)
    requires WellFormed(g) && |g| > 0 && start.DocumentStart?
    ensures Ok(g, START) && Isomorphic(g, Order(g, START), copy, TagAfter)
  {
    hide Emit, Order, NamesOk, WellFormed, Isomorphic, Rebuilt, Loader.LoadEvents;
    var dumper := new Dumper.GraphDumper(g);
    dumper.Dump(start, endImplicit);
    ghost var names := Dumper.Names(dumper.anchors[..]);
    ghost var body := Emit(g, names, START);
    assert dumper.events == [StreamStart] + ([start] + body + [DocumentEnd(endImplicit)]);
    var events := dumper.events[2..];
    assert events == body + [DocumentEnd(endImplicit)];
    EmitHasNoDocumentEnd(g, names, START);
    LoadedBody(body, [DocumentEnd(endImplicit)]);
    LoadAfterDump(g, names);
    var composer := new Loader.Composer();
    var r := composer.LoadNodes(events);
    copy := composer.nodes;
    RebuiltIsIsomorphic(g, Order(g, START), copy);
  }
}
