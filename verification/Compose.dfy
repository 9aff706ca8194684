/**
 The node table that a document stands for: its nodes in the order in which they are announced, with the kind, the
 value, the style and the tag of the event that announces them, and with edges to the nodes below them.
 */
module Compose {
  import opened Wrappers
  import opened YamlEvents
  import opened EventGrammar
  import opened Loader

  predicate Announces(e: Event) {
    e.Scalar? || e.SequenceStart? || e.MappingStart?
  }

  /** The events that announce nodes. */
  function Announcing(events: seq<Event>): (r: seq<Event>)
    ensures forall k :: 0 <= k < |r| ==> Announces(r[k])
  {
    if events == [] then []
    else (if Announces(events[0]) then [events[0]] else []) + Announcing(events[1..])
  }

  /** The tag of an event, unless it has none of its own. */
  function TagOr(tag: Option<string>, kind: string): string {
    match tag
    case None => kind
    case Some(t) => if t == "!" then kind else t
  }

  /** The node that an event announces, with edges to its children. */
  function NodeOf(e: Event, kids: seq<nat>): Shape
    requires Announces(e)
  {
    match e
    case Scalar(_, tag, value, _, _, style) => Shape(AScalar, TagOr(tag, "tag:yaml.org,2002:str"), value, style, kids)
    case SequenceStart(_, tag, _, style) => Shape(ASequence, TagOr(tag, "tag:yaml.org,2002:seq"), "", style, kids)
    case MappingStart(_, tag, _, style) => Shape(AMapping, TagOr(tag, "tag:yaml.org,2002:map"), "", style, kids)
  }

  function MarkOf(e: Event): Option<string>
    requires Announces(e)
  {
    e.anchor
  }

  /** How many nodes of its own a tree has. */
  function Size(t: Tree): nat
    decreases t, 0
  {
    match t
    case Leaf(e) => if e.Scalar? then 1 else 0
    case Branch(_, children) => 1 + SizeAll(children)
  }

  function SizeAll(ts: seq<Tree>): nat
    decreases ts, 1
  {
    if ts == [] then 0 else Size(ts[0]) + SizeAll(ts[1..])
  }

  /** The number of a tree that comes after `n` nodes: an alias has the number of the node it names. */
  function NumberOf(t: Tree, n: nat, at: map<string, nat>): nat {
    if t.Leaf? && t.event.Alias? then (if t.event.name in at then at[t.event.name] else 0) else n + 1
  }

  function Numbers(ts: seq<Tree>, n: nat, at: map<string, nat>): seq<nat> {
    if ts == [] then [] else [NumberOf(ts[0], n, at)] + Numbers(ts[1..], n + Size(ts[0]), at)
  }

  /** The nodes of a tree that comes after `n` nodes. */
  function Rows(t: Tree, n: nat, at: map<string, nat>): seq<Shape>
    requires IsTree(t)
    decreases t, 0
  {
    match t
    case Leaf(e) => if e.Scalar? then [NodeOf(e, [])] else []
    case Branch(e, children) => [NodeOf(e, Numbers(children, n + 1, at))] + RowsOfAll(children, n + 1, at)
  }

  function RowsOfAll(ts: seq<Tree>, n: nat, at: map<string, nat>): seq<Shape>
    requires forall k :: 0 <= k < |ts| ==> IsTree(ts[k])
    decreases ts, 1
  {
    if ts == [] then [] else Rows(ts[0], n, at) + RowsOfAll(ts[1..], n + Size(ts[0]), at)
  }

  function Mark(e: Event, n: nat, at: map<string, nat>): map<string, nat>
    requires Announces(e)
  {
    match MarkOf(e) case None => at case Some(name) => at[name := n + 1]
  }

  /** The numbers of the anchors, after a tree that comes after `n` nodes. */
  function Marks(t: Tree, n: nat, at: map<string, nat>): map<string, nat>
    requires IsTree(t)
    decreases t, 0
  {
    match t
    case Leaf(e) => if e.Scalar? then Mark(e, n, at) else at
    case Branch(e, children) => MarksOfAll(children, n + 1, Mark(e, n, at))
  }

  function MarksOfAll(ts: seq<Tree>, n: nat, at: map<string, nat>): map<string, nat>
    requires forall k :: 0 <= k < |ts| ==> IsTree(ts[k])
    decreases ts, 1
  {
    if ts == [] then at else MarksOfAll(ts[1..], n + Size(ts[0]), Marks(ts[0], n, at))
  }

  lemma {:induction false} RowsSize(t: Tree, n: nat, at: map<string, nat>)
    requires IsTree(t)
    ensures |Rows(t, n, at)| == Size(t)
    decreases t, 0
  {
    if t.Branch? {
      RowsSizeAll(t.children, n + 1, at);
    }
  }

  lemma {:induction false} RowsSizeAll(ts: seq<Tree>, n: nat, at: map<string, nat>)
    requires forall k :: 0 <= k < |ts| ==> IsTree(ts[k])
    ensures |RowsOfAll(ts, n, at)| == SizeAll(ts)
    decreases ts, 1
  {
    if ts != [] {
      RowsSize(ts[0], n, at);
      RowsSizeAll(ts[1..], n + Size(ts[0]), at);
    }
  }

  // The events that announce the rows.

  lemma {:induction false} AnnouncingJoined(a: seq<Event>, b: seq<Event>)
    ensures Announcing(a + b) == Announcing(a) + Announcing(b)
  {
    if a == [] {
      assert a + b == b;
    } else {
      AnnouncingJoined(a[1..], b);
      assert (a + b)[1..] == a[1..] + b;
      var first := if Announces(a[0]) then [a[0]] else [];
      assert first + (Announcing(a[1..]) + Announcing(b)) == first + Announcing(a[1..]) + Announcing(b);
    }
  }

  /** The rows are the announced nodes. */
  ghost predicate Announced(rows: seq<Shape>, events: seq<Event>) {
    && |rows| == |events|
    && forall k :: 0 <= k < |rows| ==> Announces(events[k]) && rows[k] == NodeOf(events[k], rows[k].kids)
  }

  lemma {:induction false} AnnouncedJoined(a: seq<Shape>, b: seq<Shape>, x: seq<Event>, y: seq<Event>)
    requires Announced(a, x) && Announced(b, y)
    ensures Announced(a + b, x + y)
  {
  }

  lemma {:induction false} RowsAnnounced(t: Tree, n: nat, at: map<string, nat>)
    requires IsTree(t)
    ensures Announced(Rows(t, n, at), Announcing(TreeEvents(t)))
    decreases t, 0
  {
    hide Announced, NodeOf, Numbers;
    match t
    case Leaf(e) => LeafAnnounced(e);
    case Branch(e, children) =>
      RowsAnnouncedAll(children, n + 1, at);
      var row := NodeOf(e, Numbers(children, n + 1, at));
      BranchAnnounced(e, ForestEvents(children), row, RowsOfAll(children, n + 1, at), Numbers(children, n + 1, at));
  }

  lemma {:induction false} LeafAnnounced(e: Event)
    requires IsLeaf(e)
    ensures Announced(if e.Scalar? then [NodeOf(e, [])] else [], Announcing([e]))
  {
    assert [e][1..] == [];
    assert Announcing([e]) == if e.Scalar? then [e] else [];
  }

  lemma {:induction false} AnnouncingBranch(e: Event, middle: seq<Event>)
    requires Opens(e)
    ensures Announcing([e] + middle + [EndEvent(e)]) == [e] + Announcing(middle)
  {
    var end := [EndEvent(e)];
    assert [e] + middle + end == [e] + (middle + end) && ([e] + (middle + end))[1..] == middle + end;
    AnnouncingJoined(middle, end);
    assert end[1..] == [] && Announcing(end) == [];
  }

  lemma {:induction false} BranchAnnounced(e: Event, middle: seq<Event>, row: Shape, rows: seq<Shape>, kids: seq<nat>)
    requires Opens(e) && Announced(rows, Announcing(middle)) && row == NodeOf(e, kids)
    ensures Announced([row] + rows, Announcing([e] + middle + [EndEvent(e)]))
  {
    AnnouncingBranch(e, middle);
    AnnouncedJoined([row], rows, [e], Announcing(middle));
  }

  lemma {:induction false} RowsAnnouncedAll(ts: seq<Tree>, n: nat, at: map<string, nat>)
    requires forall k :: 0 <= k < |ts| ==> IsTree(ts[k])
    ensures Announced(RowsOfAll(ts, n, at), Announcing(ForestEvents(ts)))
    decreases ts, 1
  {
    hide IsTree, Rows, TreeEvents, NodeOf;
    if ts != [] {
      RowsAnnounced(ts[0], n, at);
      RowsAnnouncedAll(ts[1..], n + Size(ts[0]), at);
      var m := n + Size(ts[0]);
      AnnouncingJoined(TreeEvents(ts[0]), ForestEvents(ts[1..]));
      AnnouncedJoined(Rows(ts[0], n, at), RowsOfAll(ts[1..], m, at), Announcing(TreeEvents(ts[0])),
                      Announcing(ForestEvents(ts[1..])));
    }
  }

  // The anchors.

  /** Where a name is found: among the nodes of a tree that comes after `n` nodes, or from before. */
  ghost predicate Found(name: string, k: nat, n: nat, events: seq<Event>, before: map<string, nat>) {
    || (n < k <= n + |events| && Announces(events[k - n - 1]) && MarkOf(events[k - n - 1]) == Some(name))
    || (name in before && before[name] == k)
  }

  lemma {:induction false} MarksFound(t: Tree, n: nat, at: map<string, nat>, name: string)
    requires IsTree(t) && name in Marks(t, n, at)
    ensures Found(name, Marks(t, n, at)[name], n, Announcing(TreeEvents(t)), at)
    decreases t, 0
  {
    match t
    case Leaf(e) => assert [e][1..] == [];
    case Branch(e, children) =>
      MarksFoundAll(children, n + 1, Mark(e, n, at), name);
      AnnouncingBranch(e, ForestEvents(children));
  }

  lemma {:induction false} MarksFoundAll(ts: seq<Tree>, n: nat, at: map<string, nat>, name: string)
    requires (forall k :: 0 <= k < |ts| ==> IsTree(ts[k])) && name in MarksOfAll(ts, n, at)
    ensures Found(name, MarksOfAll(ts, n, at)[name], n, Announcing(ForestEvents(ts)), at)
    decreases ts, 1
  {
    hide IsTree, Marks, Rows, NodeOf, TreeEvents, Size, Found, Announced;
    if ts == [] {
      FoundBefore(name, n, at);
    } else {
      var m, first := n + Size(ts[0]), Marks(ts[0], n, at);
      MarksFoundAll(ts[1..], m, first, name);
      AnnouncedSize(ts[0], n, at);
      AnnouncingJoined(TreeEvents(ts[0]), ForestEvents(ts[1..]));
      if name in first {
        MarksFound(ts[0], n, at, name);
      }
      FoundLater(name, MarksOfAll(ts, n, at)[name], n, Announcing(TreeEvents(ts[0])), Announcing(ForestEvents(ts[1..])),
                 first, at);
    }
  }

  lemma {:induction false} FoundBefore(name: string, n: nat, at: map<string, nat>)
    requires name in at
    ensures Found(name, at[name], n, Announcing([]), at)
  {
  }

  lemma {:induction false} AnnouncedSize(t: Tree, n: nat, at: map<string, nat>)
    requires IsTree(t)
    ensures |Announcing(TreeEvents(t))| == Size(t)
  {
    hide Rows, Size, TreeEvents, IsTree, Announcing, NodeOf;
    RowsAnnounced(t, n, at);
    RowsSize(t, n, at);
  }

  lemma {:induction false} FoundLater(name: string, k: nat, n: nat, a: seq<Event>, b: seq<Event>, mid: map<string, nat>,
                                      at: map<string, nat>)
    requires Found(name, k, n + |a|, b, mid) && (name in mid ==> Found(name, mid[name], n, a, at))
    ensures Found(name, k, n, a + b, at)
  {
    hide MarkOf;
    assert forall i :: 0 <= i < |b| ==> (a + b)[|a| + i] == b[i];
  }

  // Loading.

  lemma {:induction false} LoadJoined(st: Loading, a: seq<Event>, b: seq<Event>)
    requires CtxOk(st)
    ensures LoadEvents(st, a).Ok? ==> CtxOk(LoadEvents(st, a).value)
    ensures LoadEvents(st, a + b) ==
            match LoadEvents(st, a) case Ok(mid) => LoadEvents(mid, b) case Err(e) => Err(e)
    decreases |a|
  {
    hide LoadEvent, CtxOk;
    if a == [] {
      assert a + b == b;
    } else {
      assert (a + b)[1..] == a[1..] + b;
      var r := LoadEvent(st, a[0]);
      if r.Ok? {
        LoadJoined(r.value, a[1..], b);
      }
    }
  }

  ghost predicate Sub(a: map<string, nat>, b: map<string, nat>) {
    forall name :: name in a ==> name in b && a[name] == b[name]
  }

  /** No anchor is forgotten. */
  lemma {:induction false} AnchorsStay(st: Loading, events: seq<Event>)
    requires CtxOk(st) && LoadEvents(st, events).Ok?
    ensures Sub(st.anchors, LoadEvents(st, events).value.anchors)
    decreases |events|
  {
    hide CtxOk, LoadEvent;
    if events != [] {
      AnchorsStayOnce(st, events[0]);
      AnchorsStay(LoadEvent(st, events[0]).value, events[1..]);
    }
  }

  lemma {:induction false} AnchorsStayOnce(st: Loading, e: Event)
    requires CtxOk(st) && LoadEvent(st, e).Ok?
    ensures Sub(st.anchors, LoadEvent(st, e).value.anchors)
  {
    hide CtxOk;
  }

  /** The nodes, with edges to these from the innermost open collection. */
  function With(nodes: seq<Shape>, ctx: seq<nat>, ids: seq<nat>): seq<Shape>
    requires ctx != [] ==> 1 <= ctx[|ctx| - 1] <= |nodes|
  {
    if ctx == [] then nodes
    else
      var top := ctx[|ctx| - 1] - 1;
      nodes[top := nodes[top].(kids := nodes[top].kids + ids)]
  }

  lemma {:induction false} WithMore(nodes: seq<Shape>, ctx: seq<nat>, rows: seq<Shape>, a: seq<nat>, b: seq<nat>)
    requires ctx != [] ==> 1 <= ctx[|ctx| - 1] <= |nodes|
    ensures With(With(nodes, ctx, a) + rows, ctx, b) == With(nodes, ctx, a + b) + rows
  {
    if ctx != [] {
      var kids := nodes[ctx[|ctx| - 1] - 1].kids;
      assert kids + a + b == kids + (a + b);
    }
  }

  /** Edges from the last node. */
  lemma {:induction false} WithLast(nodes: seq<Shape>, row: Shape, ctx: seq<nat>, ids: seq<nat>)
    ensures With(nodes + [row], ctx + [|nodes| + 1], ids) == nodes + [row.(kids := row.kids + ids)]
  {
  }

  lemma {:induction false} WithNothing(nodes: seq<Shape>, ctx: seq<nat>)
    requires ctx != [] ==> 1 <= ctx[|ctx| - 1] <= |nodes|
    ensures With(nodes, ctx, []) == nodes
  {
    if ctx != [] {
      var top := nodes[ctx[|ctx| - 1] - 1];
      assert top.(kids := top.kids + []) == top;
    }
  }

  lemma {:induction false} TopIsNode(st: Loading)
    requires CtxOk(st)
    ensures st.ctx != [] ==> 1 <= st.ctx[|st.ctx| - 1] <= |st.nodes|
  {
  }

  /** Loading the tree adds its rows, and an edge to it. */
  ghost predicate Composed(st: Loading, t: Tree, r: Result<Loading>, at: map<string, nat>)
    requires CtxOk(st) && IsTree(t)
  {
    TopIsNode(st);
    var n := |st.nodes|;
    r == Ok(Loading(With(st.nodes, st.ctx, [NumberOf(t, n, at)]) + Rows(t, n, at), Marks(t, n, st.anchors), st.ctx))
  }

  ghost predicate ComposedAll(st: Loading, ts: seq<Tree>, r: Result<Loading>, at: map<string, nat>)
    requires CtxOk(st) && forall k :: 0 <= k < |ts| ==> IsTree(ts[k])
  {
    TopIsNode(st);
    var n := |st.nodes|;
    r == Ok(Loading(With(st.nodes, st.ctx, Numbers(ts, n, at)) + RowsOfAll(ts, n, at), MarksOfAll(ts, n, st.anchors),
                    st.ctx))
  }

  lemma {:induction false} LoadLeaf(st: Loading, e: Event, at: map<string, nat>)
    requires CtxOk(st) && IsLeaf(e) && LoadEvent(st, e).Ok?
    requires Sub(LoadEvent(st, e).value.anchors, at)
    ensures Composed(st, Leaf(e), LoadEvent(st, e), at)
  {
    TopIsNode(st);
    if e.Alias? {
      assert e.name in at && at[e.name] == st.anchors[e.name];
      assert Rows(Leaf(e), |st.nodes|, at) == [];
      assert With(st.nodes, st.ctx, [st.anchors[e.name]]) + [] == Attach(st, st.anchors[e.name]).nodes;
    } else {
      NodeAdded(st, e);
    }
  }

  lemma {:induction false} RowAdded(st: Loading, row: Shape, anchor: Option<string>)
    requires CtxOk(st) && AddNode(st, row, anchor).Ok?
    ensures st.ctx != [] ==> 1 <= st.ctx[|st.ctx| - 1] <= |st.nodes|
    ensures AddNode(st, row, anchor).value ==
            Loading(With(st.nodes, st.ctx, [|st.nodes| + 1]) + [row],
                    (match anchor case None => st.anchors case Some(name) => st.anchors[name := |st.nodes| + 1]),
                    st.ctx)
  {
    TopIsNode(st);
    if st.ctx != [] {
      var top := st.ctx[|st.ctx| - 1] - 1;
      var more := st.nodes[top].(kids := st.nodes[top].kids + [|st.nodes| + 1]);
      assert (st.nodes + [row])[top := more] == st.nodes[top := more] + [row];
    }
  }

  /** A node that is added, without what is below it. */
  lemma {:induction false} NodeAdded(st: Loading, e: Event)
    requires CtxOk(st) && Announces(e) && LoadEvent(st, e).Ok?
    ensures st.ctx != [] ==> 1 <= st.ctx[|st.ctx| - 1] <= |st.nodes|
    ensures LoadEvent(st, e).value ==
            Loading(With(st.nodes, st.ctx, [|st.nodes| + 1]) + [NodeOf(e, [])], Mark(e, |st.nodes|, st.anchors),
                    if e.Scalar? then st.ctx else st.ctx + [|st.nodes| + 1])
  {
    hide AddNode, CtxOk, With;
    TopIsNode(st);
    assert AddNode(st, NodeOf(e, []), e.anchor).Ok?;
    RowAdded(st, NodeOf(e, []), e.anchor);
    WithSize(st.nodes, st.ctx, [|st.nodes| + 1]);
  }

  lemma {:induction false} WithSize(nodes: seq<Shape>, ctx: seq<nat>, ids: seq<nat>)
    requires ctx != [] ==> 1 <= ctx[|ctx| - 1] <= |nodes|
    ensures |With(nodes, ctx, ids)| == |nodes|
  {
  }

  lemma {:induction false} LoadTree(st: Loading, t: Tree, at: map<string, nat>)
    requires CtxOk(st) && IsTree(t) && LoadEvents(st, TreeEvents(t)).Ok?
    requires Sub(LoadEvents(st, TreeEvents(t)).value.anchors, at)
    ensures Composed(st, t, LoadEvents(st, TreeEvents(t)), at)
    decreases t, 0
  {
    hide CtxOk, LoadEvent, Composed, Sub;
    match t
    case Leaf(e) =>
      LoadOne(st, e);
      LoadLeaf(st, e, at);
    case Branch(e, children) =>
      LoadBranch(st, e, ForestEvents(children));
      var inside := LoadEvent(st, e).value;
      var filled := LoadEvents(inside, ForestEvents(children));
      AnchorsStay(filled.value, [EndEvent(e)]);
      ClosingKeeps(filled.value, e);
      LoadForest(inside, children, at);
      BranchComposed(st, e, children, at);
  }

  lemma {:induction false} LoadOne(st: Loading, e: Event)
    requires CtxOk(st)
    ensures LoadEvents(st, [e]) == LoadEvent(st, e)
  {
    hide CtxOk, LoadEvent;
    assert [e][1..] == [];
  }

  lemma {:induction false} LoadBranch(st: Loading, e: Event, middle: seq<Event>)
    requires CtxOk(st) && Opens(e) && LoadEvents(st, [e] + middle + [EndEvent(e)]).Ok?
    ensures LoadEvent(st, e).Ok?
    ensures LoadEvents(LoadEvent(st, e).value, middle).Ok?
    ensures CtxOk(LoadEvents(LoadEvent(st, e).value, middle).value)
    ensures LoadEvents(st, [e] + middle + [EndEvent(e)]) ==
            LoadEvent(LoadEvents(LoadEvent(st, e).value, middle).value, EndEvent(e))
  {
    hide CtxOk, LoadEvent;
    LoadJoined(st, [e] + middle, [EndEvent(e)]);
    LoadJoined(st, [e], middle);
    LoadOne(st, e);
    LoadOne(LoadEvents(LoadEvent(st, e).value, middle).value, EndEvent(e));
  }

  lemma {:induction false} ClosingKeeps(st: Loading, e: Event)
    requires CtxOk(st) && Opens(e) && LoadEvent(st, EndEvent(e)).Ok?
    ensures st.ctx != [] && LoadEvent(st, EndEvent(e)).value == st.(ctx := st.ctx[..|st.ctx| - 1])
  {
    hide CtxOk;
  }

  lemma {:induction false} BranchComposed(st: Loading, e: Event, children: seq<Tree>, at: map<string, nat>)
    requires CtxOk(st) && Opens(e) && IsTree(Branch(e, children)) && LoadEvent(st, e).Ok?
    requires ComposedAll(LoadEvent(st, e).value, children,
                         LoadEvents(LoadEvent(st, e).value, ForestEvents(children)), at)
    requires LoadEvents(st, TreeEvents(Branch(e, children))).Ok?
    requires LoadEvents(st, TreeEvents(Branch(e, children))).value ==
             var filled := LoadEvents(LoadEvent(st, e).value, ForestEvents(children)).value;
             if filled.ctx == [] then filled else filled.(ctx := filled.ctx[..|filled.ctx| - 1])
    ensures Composed(st, Branch(e, children), LoadEvents(st, TreeEvents(Branch(e, children))), at)
  {
    hide LoadEvent, LoadEvents, CtxOk, NodeOf, With, TreeEvents;
    NodeAdded(st, e);
    var n := |st.nodes|;
    var parents := With(st.nodes, st.ctx, [n + 1]);
    WithSize(st.nodes, st.ctx, [n + 1]);
    var row, ids := NodeOf(e, []), Numbers(children, n + 1, at);
    NodeOfKids(e, ids);
    WithLast(parents, row, st.ctx, ids);
    assert (st.ctx + [n + 1])[..|st.ctx|] == st.ctx;
    var below := RowsOfAll(children, n + 1, at);
    assert parents + [NodeOf(e, ids)] + below == parents + ([NodeOf(e, ids)] + below);
  }

  lemma {:induction false} NodeOfKids(e: Event, ids: seq<nat>)
    requires Announces(e)
    ensures NodeOf(e, ids) == NodeOf(e, []).(kids := NodeOf(e, []).kids + ids)
  {
    assert [] + ids == ids;
  }

  lemma {:induction false} LoadForest(st: Loading, ts: seq<Tree>, at: map<string, nat>)
    requires CtxOk(st) && (forall k :: 0 <= k < |ts| ==> IsTree(ts[k])) && LoadEvents(st, ForestEvents(ts)).Ok?
    requires Sub(LoadEvents(st, ForestEvents(ts)).value.anchors, at)
    ensures ComposedAll(st, ts, LoadEvents(st, ForestEvents(ts)), at)
    decreases ts, 1
  {
    hide CtxOk, IsTree, Sub, Composed, TreeEvents, Rows, Marks, NumberOf, Size;
    if ts == [] {
      TopIsNode(st);
      WithNothing(st.nodes, st.ctx);
      assert st.nodes + [] == st.nodes;
    } else {
      var a, b := TreeEvents(ts[0]), ForestEvents(ts[1..]);
      LoadJoined(st, a, b);
      var mid := LoadEvents(st, a).value;
      AnchorsStay(mid, b);
      SubSub(mid.anchors, LoadEvents(mid, b).value.anchors, at);
      LoadTree(st, ts[0], at);
      LoadForest(mid, ts[1..], at);
      ForestComposed(st, ts, mid, LoadEvents(mid, b), at);
    }
  }

  lemma {:induction false} SubSub(a: map<string, nat>, b: map<string, nat>, c: map<string, nat>)
    requires Sub(a, b) && Sub(b, c)
    ensures Sub(a, c)
  {
  }

  lemma {:induction false} ForestComposed(st: Loading, ts: seq<Tree>, mid: Loading, r: Result<Loading>,
                                          at: map<string, nat>)
    requires CtxOk(st) && ts != [] && (forall k :: 0 <= k < |ts| ==> IsTree(ts[k])) && CtxOk(mid)
    requires Composed(st, ts[0], Ok(mid), at) && ComposedAll(mid, ts[1..], r, at)
    ensures ComposedAll(st, ts, r, at)
  {
    hide CtxOk, IsTree, Rows, Marks, NumberOf, Size;
    TopIsNode(st);
    var n := |st.nodes|;
    RowsSize(ts[0], n, at);
    var rows, more := Rows(ts[0], n, at), Numbers(ts[1..], n + Size(ts[0]), at);
    WithMore(st.nodes, st.ctx, rows, [NumberOf(ts[0], n, at)], more);
    WithSize(st.nodes, st.ctx, [NumberOf(ts[0], n, at)]);
    var nodes, below := With(st.nodes, st.ctx, Numbers(ts, n, at)), RowsOfAll(ts[1..], n + Size(ts[0]), at);
    assert nodes + rows + below == nodes + (rows + below);
  }

  /** What a document that loads is: its rows, with every alias leading to the node that has the name for its anchor. */
  lemma {:induction false} DocumentComposes(root: Tree)
    requires IsTree(root) && LoadEvents(NOTHING, TreeEvents(root)).Ok?
    ensures var at := Marks(root, 0, map[]);
            && LoadEvents(NOTHING, TreeEvents(root)).value == Loading(Rows(root, 0, at), at, [])
            && Announced(Rows(root, 0, at), Announcing(TreeEvents(root)))
            && forall name :: name in at ==> Found(name, at[name], 0, Announcing(TreeEvents(root)), map[])
  {
    hide LoadEvents, TreeEvents, Rows, Marks, IsTree, Announced, Found, Announcing;
    var st := LoadEvents(NOTHING, TreeEvents(root)).value;
    LoadTree(NOTHING, root, st.anchors);
    assert st.anchors == Marks(root, 0, map[]);
    assert With([], [], [NumberOf(root, 0, st.anchors)]) == [];
    RowsAnnounced(root, 0, st.anchors);
    forall name | name in st.anchors
      ensures Found(name, st.anchors[name], 0, Announcing(TreeEvents(root)), map[])
    {
      MarksFound(root, 0, map[], name);
    }
  }
}
