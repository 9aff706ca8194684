/** The linked nodes that `cfg.c` keeps a configuration in, and the tree that they stand for. */
module CfgNodes {
  import opened Wrappers
  import opened CfgTree

  datatype Kind = StrKind | ArrKind | ObjKind

  /** `struct cfg_node` */
  class Node {
    const kind: Kind
    const name: string
    var val: string
    var parent: Node?
    var next: Node?
    var child: Node?
    var tail: Node?
    var count: nat

    constructor (kind: Kind, name: string)
      ensures this.kind == kind && this.name == name && val == ""
      ensures parent == null && next == null && child == null && tail == null && count == 0
    {
      this.kind, this.name := kind, name;
      val, parent, next, child, tail, count := "", null, null, null, null, 0;
    }
  }

  /** What the links between the nodes mean: the children of each in order, its parent and depth, and the tree at it. */
  datatype Model = Model(kids: map<Node, seq<Node>>, up: map<Node, Node>, depth: map<Node, nat>, trees: map<Node, Tree>)

  ghost predicate KidOk(m: Model, n: Node, k: Node)
    requires n in m.depth
  {
    k in m.kids && k in m.depth && k in m.trees && k in m.up && m.up[k] == n && m.depth[k] == m.depth[n] + 1
  }

  ghost predicate KidsOk(m: Model, n: Node) {
    && n in m.kids && n in m.depth && n in m.trees
    && (forall i :: 0 <= i < |m.kids[n]| ==> KidOk(m, n, m.kids[n][i]))
    && (forall i, j :: 0 <= i < j < |m.kids[n]| ==> m.kids[n][i] != m.kids[n][j])
    && (n.kind.StrKind? ==> m.kids[n] == [])
    && (n.kind.ArrKind? ==> forall i :: 0 <= i < |m.kids[n]| ==> m.kids[n][i].kind.StrKind?)
  }

  ghost function FieldsOf(m: Model, ks: seq<Node>): (fields: seq<Field>)
    requires forall i :: 0 <= i < |ks| ==> ks[i] in m.trees
    ensures |fields| == |ks|
    ensures forall i :: 0 <= i < |ks| ==> fields[i] == Field(ks[i].name, m.trees[ks[i]])
  {
    seq(|ks|, i requires 0 <= i < |ks| => Field(ks[i].name, m.trees[ks[i]]))
  }

  ghost function StringOf(t: Tree): string {
    if t.Str? then t.val else ""
  }

  ghost function ItemsOf(m: Model, ks: seq<Node>): (items: seq<string>)
    requires forall i :: 0 <= i < |ks| ==> ks[i] in m.trees
    ensures |items| == |ks|
    ensures forall i :: 0 <= i < |ks| ==> items[i] == StringOf(m.trees[ks[i]])
  {
    seq(|ks|, i requires 0 <= i < |ks| => StringOf(m.trees[ks[i]]))
  }

  /** The tree that a node stands for, given the trees of its children. */
  ghost function TreeAt(m: Model, n: Node): Tree
    requires KidsOk(m, n)
  {
    match n.kind
    case StrKind => if m.trees[n].Str? then m.trees[n] else Str("")
    case ArrKind => Arr(ItemsOf(m, m.kids[n]))
    case ObjKind => Obj(FieldsOf(m, m.kids[n]))
  }

  ghost predicate NodeOk(m: Model, n: Node) {
    KidsOk(m, n) && m.trees[n] == TreeAt(m, n)
  }

  /** Every node but perhaps one stands for the tree recorded for it. */
  ghost predicate BuiltBut(m: Model, cur: Node) {
    && KidsOk(m, cur)
    && forall n :: n in m.kids && n != cur ==> NodeOk(m, n)
  }

  ghost predicate Built(m: Model) {
    forall n :: n in m.kids ==> NodeOk(m, n)
  }

  /** The way from the root to a node: the nodes above it, and which child of each is next. */
  ghost predicate Way(m: Model, root: Node, above: seq<Node>, at: seq<nat>, cur: Node)
    decreases |above|
  {
    && |above| == |at|
    && cur in m.kids && cur in m.trees
    && if above == [] then cur == root
       else
         var p, i := above[|above| - 1], at[|at| - 1];
         && p in m.kids && i < |m.kids[p]| && m.kids[p][i] == cur
         && Way(m, root, above[..|above| - 1], at[..|at| - 1], p)
  }

  /** A tree with its child at that place replaced. */
  ghost function Wrap(parent: Tree, i: nat, t: Tree): Tree {
    match parent
    case Str(_) => parent
    case Arr(items) => if i < |items| then Arr(items[i := StringOf(t)]) else parent
    case Obj(fields) => if i < |fields| then Obj(fields[i := Field(fields[i].name, t)]) else parent
  }

  /** The tree at the root, once the tree at the end of the way is replaced. */
  ghost function Plug(m: Model, above: seq<Node>, at: seq<nat>, t: Tree): Tree
    requires |above| == |at| && forall i :: 0 <= i < |above| ==> above[i] in m.trees
    decreases |above|
  {
    if above == [] then t
    else
      Plug(m, above[..|above| - 1], at[..|at| - 1], Wrap(m.trees[above[|above| - 1]], at[|at| - 1], t))
  }

  ghost function Replace(m: Model, n: Node, t: Tree): Model {
    m.(trees := m.trees[n := t])
  }

  /** The model with the trees on the way brought up to date. */
  ghost function Refresh(m: Model, above: seq<Node>, at: seq<nat>, cur: Node, t: Tree): Model
    requires |above| == |at| && forall i :: 0 <= i < |above| ==> above[i] in m.trees
    decreases |above|
  {
    if above == [] then Replace(m, cur, t)
    else
      var p := above[|above| - 1];
      Refresh(Replace(m, cur, t), above[..|above| - 1], at[..|at| - 1], p, Wrap(m.trees[p], at[|at| - 1], t))
  }

  lemma {:induction false} WayInTrees(m: Model, root: Node, above: seq<Node>, at: seq<nat>, cur: Node)
    requires Way(m, root, above, at, cur)
    ensures forall i :: 0 <= i < |above| ==> above[i] in m.trees && above[i] in m.kids
    decreases |above|
  {
    if above != [] {
      WayInTrees(m, root, above[..|above| - 1], at[..|at| - 1], above[|above| - 1]);
    }
  }

  /** Only the parent of a node depends on the tree at it. */
  lemma {:induction false} ReplaceKeeps(m: Model, cur: Node, t: Tree, n: Node)
    requires NodeOk(m, n) && n != cur && KidsOk(m, cur) && (cur in m.up ==> m.up[cur] != n)
    requires forall i :: 0 <= i < |m.kids[n]| ==> m.kids[n][i] in m.up
    ensures NodeOk(Replace(m, cur, t), n)
  {
    var r := Replace(m, cur, t);
    assert forall i :: 0 <= i < |m.kids[n]| ==> m.kids[n][i] != cur;
    assert KidsOk(r, n);
    assert FieldsOf(r, m.kids[n]) == FieldsOf(m, m.kids[n]);
    assert ItemsOf(r, m.kids[n]) == ItemsOf(m, m.kids[n]);
  }

  /** The nodes above a node are less deep than it. */
  lemma {:induction false} WayDepth(m: Model, root: Node, above: seq<Node>, at: seq<nat>, cur: Node)
    requires Way(m, root, above, at, cur) && (forall n :: n in m.kids ==> KidsOk(m, n))
    ensures cur in m.depth
    ensures forall i :: 0 <= i < |above| ==> above[i] in m.depth && m.depth[above[i]] < m.depth[cur]
    decreases |above|
  {
    if above != [] {
      var p := above[|above| - 1];
      assert KidsOk(m, p) && KidOk(m, p, m.kids[p][at[|at| - 1]]);
      WayDepth(m, root, above[..|above| - 1], at[..|at| - 1], p);
    }
  }

  lemma {:induction false} NotAbove(m: Model, root: Node, above: seq<Node>, at: seq<nat>, cur: Node)
    requires Way(m, root, above, at, cur) && BuiltBut(m, cur)
    ensures forall i :: 0 <= i < |above| ==> above[i] != cur
  {
    forall n | n in m.kids
      ensures KidsOk(m, n)
    {
      assert n != cur ==> NodeOk(m, n);
    }
    WayDepth(m, root, above, at, cur);
  }

  lemma {:induction false} WaySame(m: Model, r: Model, root: Node, above: seq<Node>, at: seq<nat>, cur: Node)
    requires Way(m, root, above, at, cur) && cur in r.kids && cur in r.trees
    requires forall i :: 0 <= i < |above| ==>
               above[i] in m.kids && above[i] in r.kids && above[i] in r.trees && r.kids[above[i]] == m.kids[above[i]]
    ensures Way(r, root, above, at, cur)
    decreases |above|
  {
    if above != [] {
      var p := above[|above| - 1];
      assert p in above;
      WaySame(m, r, root, above[..|above| - 1], at[..|at| - 1], p);
    }
  }

  lemma {:induction false} PlugSame(m: Model, r: Model, above: seq<Node>, at: seq<nat>, t: Tree)
    requires |above| == |at|
    requires forall i :: 0 <= i < |above| ==>
               above[i] in m.trees && above[i] in r.trees && r.trees[above[i]] == m.trees[above[i]]
    ensures Plug(r, above, at, t) == Plug(m, above, at, t)
    decreases |above|
  {
    if above != [] {
      var p := above[|above| - 1];
      assert p in above;
      PlugSame(m, r, above[..|above| - 1], at[..|at| - 1], Wrap(m.trees[p], at[|at| - 1], t));
    }
  }

  /** The tree at the parent, once the tree at one of its children is replaced. */
  lemma {:induction false} ParentTree(m: Model, p: Node, i: nat, t: Tree)
    requires NodeOk(m, p) && i < |m.kids[p]| && m.kids[p][i] != p && (p.kind.ArrKind? ==> t.Str?)
    requires forall j :: 0 <= j < |m.kids[p]| ==> m.kids[p][j] != p
    ensures var r := Replace(m, m.kids[p][i], t);
            NodeOk(Replace(r, p, Wrap(m.trees[p], i, t)), p)
  {
    var ks, cur := m.kids[p], m.kids[p][i];
    var r := Replace(m, cur, t);
    var w := Wrap(m.trees[p], i, t);
    var u := Replace(r, p, w);
    assert KidsOk(u, p);
    if p.kind.ObjKind? {
      assert FieldsOf(u, ks) == FieldsOf(m, ks)[i := Field(cur.name, t)];
    } else {
      assert ItemsOf(u, ks) == ItemsOf(m, ks)[i := StringOf(t)];
    }
  }

  /** After the tree at a node is replaced, the one that is out of date is its parent's. */
  lemma {:induction false} ReplaceMoves(m: Model, p: Node, i: nat, t: Tree)
    requires p in m.kids && i < |m.kids[p]|
    requires BuiltBut(m, m.kids[p][i]) && m.kids[p][i] != p
    requires NodeOk(Replace(m, m.kids[p][i], t), m.kids[p][i])
    ensures BuiltBut(Replace(m, m.kids[p][i], t), p)
  {
    var cur := m.kids[p][i];
    var r := Replace(m, cur, t);
    assert NodeOk(m, p) && KidOk(m, p, cur);
    assert KidsOk(r, p);
    forall n | n in r.kids && n != p
      ensures NodeOk(r, n)
    {
      if n != cur {
        assert NodeOk(m, n);
        ReplaceKeeps(m, cur, t, n);
      }
    }
  }

  /** What bringing the trees on the way up to date achieves. */
  ghost predicate Refreshed(m: Model, r: Model, root: Node, cur: Node, t: Tree, whole: Tree) {
    && Built(r) && root in r.trees && r.trees[root] == whole
    && r.kids == m.kids && r.up == m.up && r.depth == m.depth && r.trees.Keys == m.trees.Keys
    && cur in r.trees
    && (forall n :: n in m.trees && n != cur && n.kind.StrKind? ==> r.trees[n] == m.trees[n])
    && (cur.kind.StrKind? ==> r.trees[cur] == t)
  }

  lemma {:induction false} RefreshRoot(m: Model, root: Node, t: Tree)
    requires BuiltBut(m, root) && NodeOk(Replace(m, root, t), root)
    requires forall n :: n in m.kids && n != root ==> root !in m.kids[n]
    ensures Refreshed(m, Replace(m, root, t), root, root, t, t)
  {
    var r := Replace(m, root, t);
    forall n | n in r.kids
      ensures NodeOk(r, n)
    {
      if n != root {
        assert NodeOk(m, n);
        assert KidsOk(r, n);
        assert FieldsOf(r, m.kids[n]) == FieldsOf(m, m.kids[n]);
        assert ItemsOf(r, m.kids[n]) == ItemsOf(m, m.kids[n]);
      }
    }
  }

  /** The node is no child of another. */
  ghost predicate IsTop(m: Model, root: Node) {
    root !in m.up
  }

  lemma {:induction false} TopIsNoKid(m: Model, root: Node)
    requires IsTop(m, root) && BuiltBut(m, root)
    ensures forall n :: n in m.kids && n != root ==> root !in m.kids[n]
  {
    forall n | n in m.kids && n != root
      ensures root !in m.kids[n]
    {
      assert NodeOk(m, n);
    }
  }

  /** Bringing the trees on the way up to date makes every node stand for the tree recorded for it. */
  lemma {:induction false} RefreshWorks(m: Model, root: Node, above: seq<Node>, at: seq<nat>, cur: Node, t: Tree)
    requires BuiltBut(m, cur) && IsTop(m, root) && Way(m, root, above, at, cur)
    requires NodeOk(Replace(m, cur, t), cur) && (t.Str? <==> cur.kind.StrKind?)
    requires forall i :: 0 <= i < |above| ==> above[i] in m.trees
    ensures Refreshed(m, Refresh(m, above, at, cur, t), root, cur, t, Plug(m, above, at, t))
    decreases |above|
  {
    if above == [] {
      TopIsNoKid(m, root);
      RefreshRoot(m, root, t);
    } else {
      RefreshUp(m, root, above, at, cur, t);
    }
  }

  lemma {:induction false} RefreshUp(m: Model, root: Node, above: seq<Node>, at: seq<nat>, cur: Node, t: Tree)
    requires BuiltBut(m, cur) && IsTop(m, root) && Way(m, root, above, at, cur) && above != []
    requires NodeOk(Replace(m, cur, t), cur) && (t.Str? <==> cur.kind.StrKind?)
    requires forall i :: 0 <= i < |above| ==> above[i] in m.trees
    ensures Refreshed(m, Refresh(m, above, at, cur, t), root, cur, t, Plug(m, above, at, t))
    decreases |above|, 0
  {
    hide NodeOk, BuiltBut, Built;
    var last := |above| - 1;
    var p, i := above[last], at[last];
    var r := Replace(m, cur, t);
    var w := Wrap(m.trees[p], i, t);
    NotAbove(m, root, above, at, cur);
    ReplaceMoves(m, p, i, t);
    ParentFits(m, p, i, t);
    WayInTrees(m, root, above, at, cur);
    WaySame(m, r, root, above[..last], at[..last], p);
    RefreshWorks(r, root, above[..last], at[..last], p, w);
    PlugSame(m, r, above[..last], at[..last], w);
    var u := Refresh(r, above[..last], at[..last], p, w);
    assert u == Refresh(m, above, at, cur, t);
    RefreshedAbove(m, r, u, root, cur, p, t, w, Plug(m, above, at, t));
  }

  lemma {:induction false} ParentFits(m: Model, p: Node, i: nat, t: Tree)
    requires p in m.kids && i < |m.kids[p]| && BuiltBut(m, m.kids[p][i]) && m.kids[p][i] != p
    requires t.Str? <==> m.kids[p][i].kind.StrKind?
    ensures p in m.trees
    ensures var r := Replace(m, m.kids[p][i], t);
            var w := Wrap(m.trees[p], i, t);
            NodeOk(Replace(r, p, w), p) && !w.Str? && !p.kind.StrKind?
  {
    assert NodeOk(m, p);
    forall j | 0 <= j < |m.kids[p]|
      ensures m.kids[p][j] != p
    {
      assert KidOk(m, p, m.kids[p][j]);
    }
    ParentTree(m, p, i, t);
  }

  lemma {:induction false} RefreshedAbove(m: Model, r: Model, u: Model, root: Node, cur: Node, p: Node, t: Tree,
                                          w: Tree, whole: Tree)
    requires cur in m.trees && r == Replace(m, cur, t) && Refreshed(r, u, root, p, w, whole)
    requires !p.kind.StrKind?
    ensures Refreshed(m, u, root, cur, t, whole)
  {
    hide Built;
    assert u.trees.Keys == m.trees.Keys;
  }

  /** The maps of the model know the same nodes. */
  ghost predicate Scoped(m: Model) {
    m.up.Keys <= m.kids.Keys && m.depth.Keys == m.kids.Keys && m.trees.Keys == m.kids.Keys
  }

  /** The model with a node added as the last child of another. */
  ghost function Grow(m: Model, cur: Node, added: Node, t: Tree): Model
    requires cur in m.kids && cur in m.depth
  {
    Model(m.kids[cur := m.kids[cur] + [added]][added := []], m.up[added := cur],
          m.depth[added := m.depth[cur] + 1], m.trees[added := t])
  }

  /** The tree at a node after a child is added. */
  ghost function Added(parent: Tree, name: string, t: Tree): Tree {
    match parent
    case Str(_) => parent
    case Arr(items) => Arr(items + [StringOf(t)])
    case Obj(fields) => Obj(fields + [Field(name, t)])
  }

  /** The trees that a node without children can stand for. */
  ghost predicate Childless(kind: Kind, t: Tree) {
    match kind
    case StrKind => t.Str?
    case ArrKind => t == Arr([])
    case ObjKind => t == Obj([])
  }

  lemma {:induction false} GrowNew(m: Model, cur: Node, added: Node, t: Tree)
    requires cur in m.kids && cur in m.depth && added !in m.kids && Childless(added.kind, t)
    ensures NodeOk(Grow(m, cur, added, t), added)
  {
    var g := Grow(m, cur, added, t);
    assert KidsOk(g, added);
    assert FieldsOf(g, []) == [] && ItemsOf(g, []) == [];
  }

  lemma {:induction false} GrowKeeps(m: Model, cur: Node, added: Node, t: Tree, n: Node)
    requires cur in m.kids && Scoped(m) && added !in m.kids && NodeOk(m, n) && n != cur
    ensures NodeOk(Grow(m, cur, added, t), n)
  {
    var g := Grow(m, cur, added, t);
    assert forall i :: 0 <= i < |m.kids[n]| ==> KidOk(m, n, m.kids[n][i]);
    assert forall i :: 0 <= i < |m.kids[n]| ==> KidOk(g, n, m.kids[n][i]);
    assert KidsOk(g, n);
    assert FieldsOf(g, m.kids[n]) == FieldsOf(m, m.kids[n]);
    assert ItemsOf(g, m.kids[n]) == ItemsOf(m, m.kids[n]);
  }

  lemma {:induction false} GrowKids(m: Model, cur: Node, added: Node, t: Tree)
    requires NodeOk(m, cur) && Scoped(m) && added !in m.kids
    requires cur.kind.ObjKind? || (cur.kind.ArrKind? && added.kind.StrKind?)
    ensures KidsOk(Grow(m, cur, added, t), cur)
  {
    var g, ks := Grow(m, cur, added, t), m.kids[cur];
    assert forall i :: 0 <= i < |ks| ==> KidOk(m, cur, ks[i]);
    assert g.kids[cur] == ks + [added];
    assert forall i :: 0 <= i < |ks| ==> (ks + [added])[i] == ks[i] && KidOk(g, cur, ks[i]);
    assert KidOk(g, cur, added);
  }

  lemma {:induction false} GrowTree(m: Model, cur: Node, added: Node, t: Tree)
    requires NodeOk(m, cur) && Scoped(m) && added !in m.kids
    requires cur.kind.ObjKind? || (cur.kind.ArrKind? && added.kind.StrKind?)
    ensures var g := Grow(m, cur, added, t);
            NodeOk(Replace(g, cur, Added(m.trees[cur], added.name, t)), cur)
  {
    var g, ks := Grow(m, cur, added, t), m.kids[cur];
    GrowKids(m, cur, added, t);
    var u := Replace(g, cur, Added(m.trees[cur], added.name, t));
    assert forall i :: 0 <= i < |ks| ==> KidOk(m, cur, ks[i]);
    assert KidsOk(u, cur);
    assert g.kids[cur] == ks + [added];
    if cur.kind.ObjKind? {
      assert FieldsOf(u, ks + [added]) == FieldsOf(m, ks) + [Field(added.name, t)];
    } else {
      assert ItemsOf(u, ks + [added]) == ItemsOf(m, ks) + [StringOf(t)];
    }
  }

  /** Adding a child, and then bringing the trees above up to date. */
  ghost function Attached(m: Model, above: seq<Node>, at: seq<nat>, cur: Node, added: Node, t: Tree): Model
    requires cur in m.kids && cur in m.depth && cur in m.trees
    requires |above| == |at| && forall i :: 0 <= i < |above| ==> above[i] in m.trees
  {
    Refresh(Grow(m, cur, added, t), above, at, cur, Added(m.trees[cur], added.name, t))
  }

  lemma {:induction false} AttachAt(m: Model, root: Node, above: seq<Node>, at: seq<nat>, cur: Node, added: Node,
                                    t: Tree)
    requires Built(m) && Scoped(m) && IsTop(m, root) && root in m.kids
    requires Way(m, root, above, at, cur) && NodeOk(m, cur)
    requires added !in m.kids && Childless(added.kind, t)
    requires cur.kind.ObjKind? || (cur.kind.ArrKind? && added.kind.StrKind?)
    requires forall i :: 0 <= i < |above| ==> above[i] in m.trees
    ensures var g := Grow(m, cur, added, t);
            Refreshed(g, Attached(m, above, at, cur, added, t), root, cur, Added(m.trees[cur], added.name, t),
                      Plug(m, above, at, Added(m.trees[cur], added.name, t)))
  {
    hide NodeOk, KidsOk;
    var g := Grow(m, cur, added, t);
    var w := Added(m.trees[cur], added.name, t);
    GrowNew(m, cur, added, t);
    GrowKids(m, cur, added, t);
    GrowTree(m, cur, added, t);
    forall n | n in g.kids && n != cur
      ensures NodeOk(g, n)
    {
      if n != added {
        GrowKeeps(m, cur, added, t, n);
      }
    }
    BuiltNotAbove(m, root, above, at, cur);
    WayInTrees(m, root, above, at, cur);
    assert forall i :: 0 <= i < |above| ==> above[i] in g.kids && g.kids[above[i]] == m.kids[above[i]];
    WaySame(m, g, root, above, at, cur);
    KindOfTree(m, cur);
    RefreshWorks(g, root, above, at, cur, w);
    PlugSame(m, g, above, at, w);
  }

  lemma {:induction false} AttachWorks(m: Model, root: Node, above: seq<Node>, at: seq<nat>, cur: Node, added: Node,
                                       t: Tree)
    requires Built(m) && Scoped(m) && IsTop(m, root) && root in m.kids && Way(m, root, above, at, cur)
    requires added !in m.kids && Childless(added.kind, t)
    requires cur.kind.ObjKind? || (cur.kind.ArrKind? && added.kind.StrKind?)
    requires forall i :: 0 <= i < |above| ==> above[i] in m.trees
    ensures var g := Grow(m, cur, added, t);
            Refreshed(g, Attached(m, above, at, cur, added, t), root, cur, Added(m.trees[cur], added.name, t),
                      Plug(m, above, at, Added(m.trees[cur], added.name, t)))
  {
    hide Plug, Refresh;
    assert NodeOk(m, cur);
    AttachAt(m, root, above, at, cur, added, t);
  }

  lemma {:induction false} BuiltNotAbove(m: Model, root: Node, above: seq<Node>, at: seq<nat>, cur: Node)
    requires Built(m) && Way(m, root, above, at, cur)
    ensures forall i :: 0 <= i < |above| ==> above[i] != cur
  {
    assert NodeOk(m, cur);
    NotAbove(m, root, above, at, cur);
  }

  lemma {:induction false} KindOfTree(m: Model, n: Node)
    requires NodeOk(m, n)
    ensures m.trees[n].Str? <==> n.kind.StrKind?
    ensures m.trees[n].Arr? <==> n.kind.ArrKind?
    ensures m.trees[n].Obj? <==> n.kind.ObjKind?
  {
  }

  /** The model with a child taken from its parent. */
  ghost function Shrink(m: Model, cur: Node, k: nat): Model
    requires cur in m.kids && k < |m.kids[cur]|
  {
    m.(kids := m.kids[cur := Without(m.kids[cur], k)])
  }

  ghost function Removed(parent: Tree, k: nat): Tree {
    match parent
    case Str(_) => parent
    case Arr(items) => if k < |items| then Arr(Without(items, k)) else parent
    case Obj(fields) => if k < |fields| then Obj(Without(fields, k)) else parent
  }

  lemma {:induction false} ShrinkKids(m: Model, cur: Node, k: nat)
    requires NodeOk(m, cur) && k < |m.kids[cur]|
    ensures KidsOk(Shrink(m, cur, k), cur)
  {
    var g, ks, rest := Shrink(m, cur, k), m.kids[cur], Without(m.kids[cur], k);
    assert forall i :: 0 <= i < |rest| ==> rest[i] == ks[if i < k then i else i + 1];
    assert forall i :: 0 <= i < |ks| ==> KidOk(m, cur, ks[i]);
    assert forall i :: 0 <= i < |rest| ==> KidOk(g, cur, rest[i]);
  }

  lemma {:induction false} ShrinkTree(m: Model, cur: Node, k: nat)
    requires NodeOk(m, cur) && k < |m.kids[cur]|
    ensures NodeOk(Replace(Shrink(m, cur, k), cur, Removed(m.trees[cur], k)), cur)
  {
    var ks, rest := m.kids[cur], Without(m.kids[cur], k);
    ShrinkKids(m, cur, k);
    var u := Replace(Shrink(m, cur, k), cur, Removed(m.trees[cur], k));
    assert forall i :: 0 <= i < |ks| ==> KidOk(m, cur, ks[i]);
    assert forall i :: 0 <= i < |rest| ==> rest[i] == ks[if i < k then i else i + 1];
    assert KidsOk(u, cur);
    if cur.kind.ObjKind? {
      assert FieldsOf(u, rest) == Without(FieldsOf(m, ks), k);
    } else {
      assert ItemsOf(u, rest) == Without(ItemsOf(m, ks), k);
    }
  }

  lemma {:induction false} ShrinkKeeps(m: Model, cur: Node, k: nat, n: Node)
    requires cur in m.kids && k < |m.kids[cur]| && NodeOk(m, n) && n != cur
    ensures NodeOk(Shrink(m, cur, k), n)
  {
    var g := Shrink(m, cur, k);
    assert forall i :: 0 <= i < |m.kids[n]| ==> KidOk(m, n, m.kids[n][i]);
    assert forall i :: 0 <= i < |m.kids[n]| ==> KidOk(g, n, m.kids[n][i]);
    assert KidsOk(g, n);
    assert FieldsOf(g, m.kids[n]) == FieldsOf(m, m.kids[n]);
    assert ItemsOf(g, m.kids[n]) == ItemsOf(m, m.kids[n]);
  }

  ghost function Detached(m: Model, above: seq<Node>, at: seq<nat>, cur: Node, k: nat): Model
    requires cur in m.kids && cur in m.trees && k < |m.kids[cur]|
    requires |above| == |at| && forall i :: 0 <= i < |above| ==> above[i] in m.trees
  {
    Refresh(Shrink(m, cur, k), above, at, cur, Removed(m.trees[cur], k))
  }

  lemma {:induction false} DetachWorks(m: Model, root: Node, above: seq<Node>, at: seq<nat>, cur: Node, k: nat)
    requires Built(m) && IsTop(m, root) && Way(m, root, above, at, cur) && k < |m.kids[cur]|
    requires forall i :: 0 <= i < |above| ==> above[i] in m.trees
    ensures Refreshed(Shrink(m, cur, k), Detached(m, above, at, cur, k), root, cur, Removed(m.trees[cur], k),
                      Plug(m, above, at, Removed(m.trees[cur], k)))
  {
    hide KidsOk;
    assert NodeOk(m, cur);
    var g := Shrink(m, cur, k);
    ShrinkKids(m, cur, k);
    ShrinkTree(m, cur, k);
    forall n | n in g.kids && n != cur
      ensures NodeOk(g, n)
    {
      ShrinkKeeps(m, cur, k, n);
    }
    BuiltNotAbove(m, root, above, at, cur);
    WayInTrees(m, root, above, at, cur);
    WaySame(m, g, root, above, at, cur);
    KindOfTree(m, cur);
    RefreshWorks(g, root, above, at, cur, Removed(m.trees[cur], k));
    PlugSame(m, g, above, at, Removed(m.trees[cur], k));
  }

  /** Giving a string node another value, and then bringing the trees above up to date. */
  lemma {:induction false} AssignWorks(m: Model, root: Node, above: seq<Node>, at: seq<nat>, cur: Node, val: string)
    requires Built(m) && IsTop(m, root) && Way(m, root, above, at, cur) && cur.kind.StrKind?
    requires forall i :: 0 <= i < |above| ==> above[i] in m.trees
    ensures Refreshed(m, Refresh(m, above, at, cur, Str(val)), root, cur, Str(val), Plug(m, above, at, Str(val)))
  {
    assert NodeOk(m, cur);
    assert KidsOk(Replace(m, cur, Str(val)), cur);
    RefreshWorks(m, root, above, at, cur, Str(val));
  }

  /** What adding a child does to the model. */
  ghost predicate AttachedOk(m: Model, r: Model, root: Node, cur: Node, added: Node, t: Tree, whole: Tree) {
    && Scoped(r) && Built(r) && IsTop(r, root) && root in r.trees && r.trees[root] == whole
    && cur in m.kids && r.kids == m.kids[cur := m.kids[cur] + [added]][added := []]
    && added in r.trees && r.trees[added] == t
    && forall n :: n in m.trees && n.kind.StrKind? ==> n in r.trees && r.trees[n] == m.trees[n]
  }

  lemma {:induction false} AttachModel(m: Model, root: Node, above: seq<Node>, at: seq<nat>, cur: Node, added: Node,
                                       t: Tree)
    requires Built(m) && Scoped(m) && IsTop(m, root) && root in m.kids && Way(m, root, above, at, cur)
    requires added !in m.kids && Childless(added.kind, t)
    requires cur.kind.ObjKind? || (cur.kind.ArrKind? && added.kind.StrKind?)
    requires forall i :: 0 <= i < |above| ==> above[i] in m.trees
    ensures cur in m.kids && cur in m.trees && |above| == |at|
    ensures AttachedOk(m, Attached(m, above, at, cur, added, t), root, cur, added, t,
                       Plug(m, above, at, Added(m.trees[cur], added.name, t)))
  {
    hide NodeOk, Plug, Refresh;
    AttachWorks(m, root, above, at, cur, added, t);
    var g, r := Grow(m, cur, added, t), Attached(m, above, at, cur, added, t);
    assert r.trees.Keys == g.trees.Keys;
    NewNodeTree(g, r, root, cur, added, t, Added(m.trees[cur], added.name, t), r.trees[root]);
  }

  lemma {:induction false} NewNodeTree(g: Model, r: Model, root: Node, cur: Node, added: Node, t: Tree, w: Tree,
                                       whole: Tree)
    requires Refreshed(g, r, root, cur, w, whole) && added in g.kids && added in g.trees && added != cur
    requires g.kids[added] == [] && g.trees[added] == t && Childless(added.kind, t)
    ensures r.trees[added] == t
  {
    assert NodeOk(r, added);
    assert FieldsOf(r, []) == [] && ItemsOf(r, []) == [];
  }

  /** What taking a child away does to the model. */
  ghost predicate DetachedOk(m: Model, r: Model, root: Node, cur: Node, k: nat, whole: Tree) {
    && Scoped(r) && Built(r) && IsTop(r, root) && root in r.trees && r.trees[root] == whole
    && cur in m.kids && k < |m.kids[cur]| && r.kids == m.kids[cur := Without(m.kids[cur], k)]
    && forall n :: n in m.trees && n.kind.StrKind? ==> n in r.trees && r.trees[n] == m.trees[n]
  }

  lemma {:induction false} DetachModel(m: Model, root: Node, above: seq<Node>, at: seq<nat>, cur: Node, k: nat)
    requires Built(m) && Scoped(m) && IsTop(m, root) && root in m.kids && Way(m, root, above, at, cur)
    requires k < |m.kids[cur]| && !cur.kind.StrKind?
    requires forall i :: 0 <= i < |above| ==> above[i] in m.trees
    ensures cur in m.kids && cur in m.trees && |above| == |at|
    ensures DetachedOk(m, Detached(m, above, at, cur, k), root, cur, k, Plug(m, above, at, Removed(m.trees[cur], k)))
  {
    hide NodeOk, Plug, Refresh;
    DetachWorks(m, root, above, at, cur, k);
    assert Detached(m, above, at, cur, k).trees.Keys == m.trees.Keys;
  }

  /** What giving a string another value does to the model. */
  ghost predicate AssignedOk(m: Model, r: Model, root: Node, cur: Node, val: string, whole: Tree) {
    && Scoped(r) && Built(r) && IsTop(r, root) && root in r.trees && r.trees[root] == whole
    && r.kids == m.kids && cur in r.trees && r.trees[cur] == Str(val)
    && forall n :: n in m.trees && n != cur && n.kind.StrKind? ==> n in r.trees && r.trees[n] == m.trees[n]
  }

  lemma {:induction false} AssignModel(m: Model, root: Node, above: seq<Node>, at: seq<nat>, cur: Node, val: string)
    requires Built(m) && Scoped(m) && IsTop(m, root) && root in m.kids
    requires Way(m, root, above, at, cur) && cur.kind.StrKind?
    requires forall i :: 0 <= i < |above| ==> above[i] in m.trees
    ensures |above| == |at|
    ensures AssignedOk(m, Refresh(m, above, at, cur, Str(val)), root, cur, val, Plug(m, above, at, Str(val)))
  {
    AssignWorks(m, root, above, at, cur, val);
  }

  lemma {:induction false} WayOn(m: Model, root: Node, above: seq<Node>, at: seq<nat>, cur: Node, i: nat)
    requires Built(m) && Way(m, root, above, at, cur) && i < |m.kids[cur]|
    ensures Way(m, root, above + [cur], at + [i], m.kids[cur][i])
  {
    assert NodeOk(m, cur) && KidOk(m, cur, m.kids[cur][i]);
    assert (above + [cur])[..|above|] == above && (at + [i])[..|at|] == at;
  }

  lemma {:induction false} PlugOn(m: Model, above: seq<Node>, at: seq<nat>, cur: Node, i: nat, t: Tree)
    requires |above| == |at| && cur in m.trees && forall j :: 0 <= j < |above| ==> above[j] in m.trees
    ensures Plug(m, above + [cur], at + [i], t) == Plug(m, above, at, Wrap(m.trees[cur], i, t))
  {
    assert (above + [cur])[..|above|] == above && (at + [i])[..|at|] == at;
  }

  lemma {:induction false} WrapSelf(m: Model, p: Node, i: nat)
    requires NodeOk(m, p) && i < |m.kids[p]|
    ensures Wrap(m.trees[p], i, m.trees[m.kids[p][i]]) == m.trees[p]
  {
    assert KidOk(m, p, m.kids[p][i]);
    match p.kind
    case StrKind =>
    case ArrKind => assert ItemsOf(m, m.kids[p])[i := ItemsOf(m, m.kids[p])[i]] == ItemsOf(m, m.kids[p]);
    case ObjKind => assert FieldsOf(m, m.kids[p])[i := FieldsOf(m, m.kids[p])[i]] == FieldsOf(m, m.kids[p]);
  }

  /** Putting back the tree that is there changes nothing. */
  lemma {:induction false} PlugSelf(m: Model, root: Node, above: seq<Node>, at: seq<nat>, cur: Node)
    requires Built(m) && Way(m, root, above, at, cur)
    requires forall i :: 0 <= i < |above| ==> above[i] in m.trees
    ensures root in m.trees && Plug(m, above, at, m.trees[cur]) == m.trees[root]
    decreases |above|
  {
    if above != [] {
      var p, i := above[|above| - 1], at[|at| - 1];
      assert NodeOk(m, p);
      WrapSelf(m, p, i);
      PlugSelf(m, root, above[..|above| - 1], at[..|at| - 1], p);
    }
  }

  ghost predicate NoneTwice(nodes: seq<Node>) {
    forall i, j :: 0 <= i < j < |nodes| ==> nodes[i] != nodes[j]
  }

  lemma {:induction false} WayNoneTwice(m: Model, root: Node, above: seq<Node>, at: seq<nat>, cur: Node)
    requires Built(m) && Way(m, root, above, at, cur)
    ensures NoneTwice(above + [cur])
    decreases |above|
  {
    if above != [] {
      var last := |above| - 1;
      WayNoneTwice(m, root, above[..last], at[..last], above[last]);
      assert above[..last] + [above[last]] == above;
      BuiltNotAbove(m, root, above, at, cur);
    }
  }

  lemma {:induction false} RefreshKeeps(m: Model, above: seq<Node>, at: seq<nat>, cur: Node, t: Tree, n: Node)
    requires |above| == |at| && (forall i :: 0 <= i < |above| ==> above[i] in m.trees)
    requires n in m.trees && n !in above && n != cur
    ensures n in Refresh(m, above, at, cur, t).trees && Refresh(m, above, at, cur, t).trees[n] == m.trees[n]
    decreases |above|
  {
    if above != [] {
      var last := |above| - 1;
      var p := above[last];
      RefreshKeeps(Replace(m, cur, t), above[..last], at[..last], p, Wrap(m.trees[p], at[last], t), n);
    }
  }

  lemma {:induction false} RefreshSets(m: Model, above: seq<Node>, at: seq<nat>, cur: Node, t: Tree)
    requires |above| == |at| && (forall i :: 0 <= i < |above| ==> above[i] in m.trees)
    requires NoneTwice(above + [cur])
    ensures cur in Refresh(m, above, at, cur, t).trees && Refresh(m, above, at, cur, t).trees[cur] == t
  {
    if above != [] {
      var last := |above| - 1;
      var p := above[last];
      assert (above + [cur])[|above|] == cur && forall i :: 0 <= i < |above| ==> (above + [cur])[i] == above[i];
      assert cur !in above[..last] && p != cur;
      RefreshKeeps(Replace(m, cur, t), above[..last], at[..last], p, Wrap(m.trees[p], at[last], t), cur);
    }
  }

  lemma {:induction false} WrapTwice(p: Tree, i: nat, a: Tree, b: Tree)
    ensures Wrap(Wrap(p, i, a), i, b) == Wrap(p, i, b)
  {
    match p
    case Str(_) =>
    case Arr(items) =>
      assert i < |items| ==> items[i := StringOf(a)][i := StringOf(b)] == items[i := StringOf(b)];
    case Obj(fields) =>
      assert i < |fields| ==>
        fields[i := Field(fields[i].name, a)][i := Field(fields[i].name, b)] == fields[i := Field(fields[i].name, b)];
  }

  /** What is put at the end of a way replaces what was put there before. */
  lemma {:induction false} PlugAfterRefresh(m: Model, above: seq<Node>, at: seq<nat>, cur: Node, t: Tree, x: Tree)
    requires |above| == |at| && (forall i :: 0 <= i < |above| ==> above[i] in m.trees)
    requires NoneTwice(above + [cur])
    ensures var r := Refresh(m, above, at, cur, t);
            && (forall i :: 0 <= i < |above| ==> above[i] in r.trees)
            && Plug(r, above, at, x) == Plug(m, above, at, x)
    decreases |above|
  {
    if above != [] {
      var last := |above| - 1;
      var p, i := above[last], at[last];
      var u := Replace(m, cur, t);
      var w := Wrap(m.trees[p], i, t);
      NoneTwiceInit(above, cur);
      PlugAfterRefresh(u, above[..last], at[..last], p, w, Wrap(m.trees[p], i, x));
      RefreshSets(u, above[..last], at[..last], p, w);
      WrapTwice(m.trees[p], i, t, x);
      PlugSame(m, u, above[..last], at[..last], Wrap(m.trees[p], i, x));
      var r := Refresh(m, above, at, cur, t);
      assert r == Refresh(u, above[..last], at[..last], p, w);
      assert forall j :: 0 <= j < |above| ==> above[j] == if j < last then above[..last][j] else p;
    }
  }

  lemma {:induction false} NoneTwiceInit(above: seq<Node>, cur: Node)
    requires NoneTwice(above + [cur]) && above != []
    ensures NoneTwice(above[..|above| - 1] + [above[|above| - 1]])
    ensures cur !in above
  {
    assert above[..|above| - 1] + [above[|above| - 1]] == above;
    var all := above + [cur];
    assert all[|above|] == cur && forall i :: 0 <= i < |above| ==> all[i] == above[i];
  }

  /** The way to a child that was just added, and what putting a tree there makes of the whole. */
  lemma {:induction false} AttachedWay(m: Model, root: Node, above: seq<Node>, at: seq<nat>, cur: Node, added: Node,
                                       t: Tree, x: Tree)
    requires Built(m) && Scoped(m) && IsTop(m, root) && root in m.kids && Way(m, root, above, at, cur)
    requires added !in m.kids && cur in m.depth && cur in m.trees && |above| == |at|
    requires forall i :: 0 <= i < |above| ==> above[i] in m.trees
    requires var r := Attached(m, above, at, cur, added, t);
             Scoped(r) && r.kids == m.kids[cur := m.kids[cur] + [added]][added := []]
    ensures var r := Attached(m, above, at, cur, added, t);
            && Way(r, root, above, at, cur)
            && (forall i :: 0 <= i < |above| ==> above[i] in r.trees)
            && Plug(r, above, at, x) == Plug(m, above, at, x)
            && cur in r.trees && r.trees[cur] == Added(m.trees[cur], added.name, t)
  {
    hide NodeOk, Refresh, Plug;
    var g, r := Grow(m, cur, added, t), Attached(m, above, at, cur, added, t);
    WayInTrees(m, root, above, at, cur);
    BuiltNotAbove(m, root, above, at, cur);
    WayNoneTwice(m, root, above, at, cur);
    PlugAfterRefresh(g, above, at, cur, Added(m.trees[cur], added.name, t), x);
    RefreshSets(g, above, at, cur, Added(m.trees[cur], added.name, t));
    PlugSame(m, g, above, at, x);
    WaySame(m, r, root, above, at, cur);
  }

  /** A way to a node, all of it in the model. */
  ghost predicate OnWay(m: Model, root: Node, above: seq<Node>, at: seq<nat>, cur: Node) {
    && |above| == |at| && cur in m.kids && cur in m.trees && Way(m, root, above, at, cur)
    && forall i :: 0 <= i < |above| ==> above[i] in m.trees
  }

  /** The way to a child, and what putting a tree there makes of the whole. */
  lemma {:induction false} OnWayKid(m: Model, root: Node, above: seq<Node>, at: seq<nat>, cur: Node, i: nat, t: Tree)
    requires Built(m) && OnWay(m, root, above, at, cur) && i < |m.kids[cur]|
    ensures OnWay(m, root, above + [cur], at + [i], m.kids[cur][i])
    ensures Plug(m, above + [cur], at + [i], t) == Plug(m, above, at, Wrap(m.trees[cur], i, t))
  {
    hide Plug, Way, NodeOk;
    WayOn(m, root, above, at, cur, i);
    PlugOn(m, above, at, cur, i, t);
    InTrees(m, cur, i);
  }

  lemma {:induction false} InTrees(m: Model, n: Node, i: nat)
    requires Built(m) && n in m.kids && i < |m.kids[n]|
    ensures m.kids[n][i] in m.kids && m.kids[n][i] in m.trees
  {
    assert NodeOk(m, n) && KidOk(m, n, m.kids[n][i]);
  }

  /** A child of an object, or of an array, stands for a part of its tree. */
  lemma {:induction false} KidTree(m: Model, n: Node, k: nat)
    requires Built(m) && n in m.kids && n in m.trees && k < |m.kids[n]|
    ensures m.kids[n][k] in m.kids && m.kids[n][k] in m.trees
    ensures n.kind.ObjKind? ==> m.trees[n].Obj? && |m.trees[n].fields| == |m.kids[n]|
                                && m.trees[n].fields[k] == Field(m.kids[n][k].name, m.trees[m.kids[n][k]])
    ensures n.kind.ArrKind? ==> m.trees[n].Arr? && |m.trees[n].items| == |m.kids[n]| && m.kids[n][k].kind.StrKind?
                                && m.trees[m.kids[n][k]] == Str(m.trees[n].items[k])
  {
    assert NodeOk(m, n) && KidOk(m, n, m.kids[n][k]);
    assert NodeOk(m, m.kids[n][k]);
  }

  lemma {:induction false} TreeKind(m: Model, n: Node)
    requires Built(m) && n in m.kids && n in m.trees
    ensures n.kind.StrKind? <==> m.trees[n].Str?
    ensures n.kind.ArrKind? <==> m.trees[n].Arr?
    ensures n.kind.ObjKind? <==> m.trees[n].Obj?
    ensures n.kind.ArrKind? ==> |m.trees[n].items| == |m.kids[n]|
    ensures n.kind.ObjKind? ==> |m.trees[n].fields| == |m.kids[n]|
  {
    assert NodeOk(m, n);
  }

  /** What setting a field comes to, when there is none of that name and when there is one. */
  lemma {:induction false} SetFieldIs(parent: Tree, name: string, val: string)
    requires parent.Obj?
    ensures var k := Find(parent.fields, name);
            SetLast(parent, Key(name), val) ==
            if k == |parent.fields| then Outcome(Added(parent, name, Str(val)), None)
            else if parent.fields[k].value.Str? then Outcome(Wrap(parent, k, Str(val)), None)
            else Outcome(parent, Some(EISDIR))
  {
  }

  lemma {:induction false} SetElementIs(parent: Tree, last: Tok, val: string)
    requires parent.Arr? && !last.Key?
    ensures SetLast(parent, last, val) ==
            if last.Append? then Outcome(Added(parent, "", Str(val)), None)
            else
              match Element(|parent.items|, last.idx)
              case None => Outcome(parent, Some(ENOENT))
              case Some(k) => Outcome(Wrap(parent, k, Str(val)), None)
  {
  }

  lemma {:induction false} DeleteFieldIs(parent: Tree, name: string)
    requires parent.Obj?
    ensures var k := Find(parent.fields, name);
            Delete(parent, [Key(name)]) ==
            if k == |parent.fields| then Outcome(parent, Some(ENOENT)) else Outcome(Removed(parent, k), None)
  {
  }

  lemma {:induction false} DeleteElementIs(parent: Tree, idx: int)
    requires parent.Arr?
    ensures Delete(parent, [Index(idx)]) ==
            match Element(|parent.items|, idx)
            case None => Outcome(parent, Some(ENOENT))
            case Some(k) => Outcome(Removed(parent, k), None)
  {
  }

  /** The outcome of an operation at the end of a way, seen from the root. */
  ghost function Lift(m: Model, above: seq<Node>, at: seq<nat>, o: Outcome): Outcome
    requires |above| == |at| && forall i :: 0 <= i < |above| ==> above[i] in m.trees
  {
    Outcome(Plug(m, above, at, o.tree), o.error)
  }

  /** A set that goes on into a field or an element that is there. */
  lemma {:induction false} SetGoesOn(t: Tree, path: seq<Tok>, val: string, k: nat, child: Tree)
    requires |path| > 1
    requires match t
             case Str(_) => false
             case Arr(items) => path[0].Index? && Element(|items|, path[0].idx) == Some(k) && child == Str(items[k])
             case Obj(fields) =>
               && path[0].Key? && k == Find(fields, path[0].name) && k < |fields| && child == fields[k].value
               && SameKind(child, Container(path[1]))
    ensures var o := Set(child, path[1..], val);
            Set(t, path, val) == Outcome(Wrap(t, k, o.tree), o.error)
  {
    if t.Arr? {
      SetString(t.items[k], path[1..], val);
      assert t.items[k := t.items[k]] == t.items;
    }
  }

  /** A set that goes on into a container that it has to create. */
  lemma {:induction false} SetGoesOnNew(t: Tree, path: seq<Tok>, val: string)
    requires |path| > 1 && t.Obj? && path[0].Key? && Find(t.fields, path[0].name) == |t.fields|
    ensures var o := Set(Container(path[1]), path[1..], val);
            Set(t, path, val) ==
            Outcome(Wrap(Added(t, path[0].name, Container(path[1])), |t.fields|, o.tree), o.error)
  {
    var o := Set(Container(path[1]), path[1..], val);
    var name := path[0].name;
    assert (t.fields + [Field(name, Container(path[1]))])[|t.fields| := Field(name, o.tree)] ==
           t.fields + [Field(name, o.tree)];
  }

  /** When a set stops before its last step, and why. */
  ghost function SetStops(t: Tree, tok: Tok, next: Tok): Option<Error> {
    match tok
    case Append => Some(EINVAL)
    case Index(idx) =>
      if !t.Arr? then Some(ENOTDIR) else if Element(|t.items|, idx).None? then Some(ENOENT) else None
    case Key(name) =>
      if !t.Obj? then Some(ENOTDIR)
      else
        var k := Find(t.fields, name);
        if k < |t.fields| && !SameKind(t.fields[k].value, Container(next)) then Some(ENOTDIR) else None
  }

  lemma {:induction false} SetStopped(t: Tree, path: seq<Tok>, val: string)
    requires |path| > 1 && SetStops(t, path[0], path[1]).Some?
    ensures Set(t, path, val) == Fails(t, SetStops(t, path[0], path[1]).value)
  {
  }

  /** The rest of a set, from a child on in one model, comes to what the set comes to in another. */
  ghost predicate GoesOn(m: Model, r: Model, root: Node, above: seq<Node>, at: seq<nat>, cur: Node, k: nat, child: Node,
                         path: seq<Tok>, val: string)
  {
    && |path| > 1 && OnWay(m, root, above, at, cur) && OnWay(r, root, above + [cur], at + [k], child)
    && Lift(r, above + [cur], at + [k], Set(r.trees[child], path[1..], val)) ==
       Lift(m, above, at, Set(m.trees[cur], path, val))
  }

  lemma {:induction false} GoesOnKid(m: Model, root: Node, above: seq<Node>, at: seq<nat>, cur: Node, k: nat,
                                     path: seq<Tok>, val: string)
    requires Built(m) && OnWay(m, root, above, at, cur) && |path| > 1 && k < |m.kids[cur]|
    requires SetStops(m.trees[cur], path[0], path[1]).None?
    requires path[0].Key? ==> m.trees[cur].Obj? && k == Find(m.trees[cur].fields, path[0].name)
    requires path[0].Index? ==> m.trees[cur].Arr? && Element(|m.trees[cur].items|, path[0].idx) == Some(k)
    ensures GoesOn(m, m, root, above, at, cur, k, m.kids[cur][k], path, val)
  {
    hide NodeOk, Plug, Way, Set, Wrap;
    TreeKind(m, cur);
    KidTree(m, cur, k);
    var child := m.trees[m.kids[cur][k]];
    OnWayKid(m, root, above, at, cur, k, Set(child, path[1..], val).tree);
    SetGoesOn(m.trees[cur], path, val, k, child);
  }

  lemma {:induction false} SetOne(t: Tree, path: seq<Tok>, val: string)
    requires |path| == 1
    ensures Set(t, path, val) == SetLast(t, path[0], val)
  {
  }

  /** When a walk that creates nothing cannot take a step, and why. */
  ghost function WalkStops(t: Tree, tok: Tok): Option<Error> {
    match tok
    case Append => Some(EINVAL)
    case Index(idx) =>
      if !t.Arr? then Some(ENOTDIR) else if Element(|t.items|, idx).None? then Some(ENOENT) else None
    case Key(name) =>
      if !t.Obj? then Some(ENOTDIR) else if Find(t.fields, name) == |t.fields| then Some(ENOENT) else None
  }

  /** The child that such a step leads to. */
  ghost function WalkTo(t: Tree, tok: Tok): nat
    requires WalkStops(t, tok).None?
  {
    if tok.Key? then Find(t.fields, tok.name) else Element(|t.items|, tok.idx).value
  }

  ghost function ChildOf(t: Tree, k: nat): Tree {
    match t
    case Str(_) => t
    case Arr(items) => if k < |items| then Str(items[k]) else t
    case Obj(fields) => if k < |fields| then fields[k].value else t
  }

  lemma {:induction false} DeleteGoesOn(t: Tree, path: seq<Tok>)
    requires |path| > 1
    ensures match WalkStops(t, path[0])
            case Some(e) => Delete(t, path) == Fails(t, e)
            case None =>
              var k := WalkTo(t, path[0]);
              var o := Delete(ChildOf(t, k), path[1..]);
              Delete(t, path) == Outcome(Wrap(t, k, o.tree), o.error)
  {
    if t.Arr? && path[0].Index? {
      match Element(|t.items|, path[0].idx)
      case None =>
      case Some(k) =>
        DeleteOfString(t.items[k], path[1..]);
        assert t.items[k := t.items[k]] == t.items;
    }
  }

  lemma {:induction false} DeleteOfString(s: string, path: seq<Tok>)
    requires path != []
    ensures Delete(Str(s), path).tree == Str(s)
  {
  }

  lemma {:induction false} GetGoesOn(t: Tree, path: seq<Tok>)
    requires path != []
    ensures match WalkStops(t, path[0])
            case Some(e) => Get(t, path) == Err(e)
            case None => Get(t, path) == Get(ChildOf(t, WalkTo(t, path[0])), path[1..])
  {
  }

  lemma {:induction false} ChildIs(m: Model, n: Node, k: nat)
    requires Built(m) && n in m.kids && n in m.trees && k < |m.kids[n]|
    ensures m.kids[n][k] in m.kids && m.kids[n][k] in m.trees
    ensures m.trees[m.kids[n][k]] == ChildOf(m.trees[n], k)
  {
    assert NodeOk(m, n);
    KidTree(m, n, k);
  }

  lemma {:induction false} DeleteStep(m: Model, root: Node, above: seq<Node>, at: seq<nat>, cur: Node, path: seq<Tok>)
    requires Built(m) && OnWay(m, root, above, at, cur) && |path| > 1
    requires WalkStops(m.trees[cur], path[0]).None? && WalkTo(m.trees[cur], path[0]) < |m.kids[cur]|
    ensures var k := WalkTo(m.trees[cur], path[0]);
            && OnWay(m, root, above + [cur], at + [k], m.kids[cur][k])
            && Lift(m, above + [cur], at + [k], Delete(m.trees[m.kids[cur][k]], path[1..])) ==
               Lift(m, above, at, Delete(m.trees[cur], path))
  {
    hide NodeOk, Plug, Way, Delete, Wrap;
    var k := WalkTo(m.trees[cur], path[0]);
    ChildIs(m, cur, k);
    DeleteGoesOn(m.trees[cur], path);
    OnWayKid(m, root, above, at, cur, k, Delete(ChildOf(m.trees[cur], k), path[1..]).tree);
  }

  /** Deleting the last step, by the kind of the node and of the step. */
  lemma {:induction false} DeleteOne(t: Tree, path: seq<Tok>)
    requires |path| == 1
    ensures path == [path[0]]
    ensures path[0].Append? ==> Delete(t, path) == Fails(t, EINVAL)
    ensures path[0].Index? && !t.Arr? ==> Delete(t, path) == Fails(t, ENOENT)
    ensures path[0].Key? && !t.Obj? ==> Delete(t, path) == Fails(t, ENOTDIR)
  {
  }
}
