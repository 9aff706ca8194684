/** The configuration store of `cfg.c`: linked nodes that are changed in place. */
module CfgStore {
  import opened Wrappers
  import opened Characters
  import opened CfgTree
  import opened CfgPath
  import opened CfgDump
  import opened CfgText
  import opened CfgLines
  import opened CfgNodes

  ghost predicate LinkAt(n: Node, ks: seq<Node>, i: nat)
    requires i < |ks|
    reads ks`parent, ks`next
  {
    ks[i].parent == n && ks[i].next == if i + 1 < |ks| then ks[i + 1] else null
  }

  /** The links of a node to and among its children. */
  ghost predicate Chained(n: Node, ks: seq<Node>)
    reads n`count, n`child, n`tail, ks`parent, ks`next
  {
    && n.count == |ks|
    && n.child == (if ks == [] then null else ks[0])
    && n.tail == (if ks == [] then null else ks[|ks| - 1])
    && forall i :: 0 <= i < |ks| ==> LinkAt(n, ks, i)
  }

  ghost predicate Apart(n: Node, ks: seq<Node>) {
    n !in ks && forall i, j :: 0 <= i < j < |ks| ==> ks[i] != ks[j]
  }

  /** `child_add` */
  method ChildAdd(parent: Node, node: Node, ghost ks: seq<Node>)
    requires Chained(parent, ks) && Apart(parent, ks + [node]) && node.next == null
    modifies parent`child, parent`tail, parent`count, node`parent, ks`next
    ensures Chained(parent, ks + [node])
  {
    assert forall i :: 0 <= i < |ks| ==> (ks + [node])[i] == ks[i];
    assert (ks + [node])[|ks|] == node;
    node.parent := parent;
    if parent.child == null {
      parent.child := node;
    } else {
      parent.tail.next := node;
    }
    parent.tail := node;
    parent.count := parent.count + 1;
    forall i | 0 <= i < |ks + [node]|
      ensures LinkAt(parent, ks + [node], i)
    {
      if i < |ks| {
        assert old(LinkAt(parent, ks, i));
      }
    }
  }

  /** The unlinking of a child in `del_arr` and `del_plain`. */
  method Unlink(parent: Node, prev: Node?, node: Node, ghost ks: seq<Node>, ghost k: nat)
    requires Chained(parent, ks) && Apart(parent, ks) && k < |ks| && ks[k] == node
    requires prev == if k == 0 then null else ks[k - 1]
    modifies parent`child, parent`tail, parent`count, ks`next
    ensures Chained(parent, Without(ks, k))
  {
    assert LinkAt(parent, ks, k);
    if prev != null {
      prev.next := node.next;
    } else {
      parent.child := node.next;
    }
    if parent.tail == node {
      parent.tail := prev;
    }
    parent.count := parent.count - 1;
    node.next := null;
    ghost var rest := Without(ks, k);
    forall i | 0 <= i < |rest|
      ensures LinkAt(parent, rest, i)
    {
      assert old(LinkAt(parent, ks, if i < k then i else i + 1));
    }
  }

  /** The first of the children with that name. */
  ghost predicate FirstNamed(ks: seq<Node>, name: string, k: nat) {
    && k <= |ks|
    && (k < |ks| ==> ks[k].name == name)
    && forall i :: 0 <= i < k ==> ks[i].name != name
  }

  /** The search loop of `obj_find` and `del_plain`. */
  method FindKid(obj: Node, name: string, ghost ks: seq<Node>) returns (r: Node?, ghost k: nat)
    requires Chained(obj, ks)
    ensures FirstNamed(ks, name, k) && r == if k < |ks| then ks[k] else null
  {
    r, k := obj.child, 0;
    while r != null && r.name != name
      invariant k <= |ks| && r == if k < |ks| then ks[k] else null
      invariant forall i :: 0 <= i < k ==> ks[i].name != name
      decreases |ks| - k
    {
      assert LinkAt(obj, ks, k);
      r, k := r.next, k + 1;
    }
  }

  lemma {:induction false} FindsField(m: Model, obj: Node, name: string, k: nat)
    requires NodeOk(m, obj) && obj.kind.ObjKind? && FirstNamed(m.kids[obj], name, k)
    ensures m.trees[obj].Obj? && Find(m.trees[obj].fields, name) == k
  {
    var fields := m.trees[obj].fields;
    assert forall i :: 0 <= i < |fields| ==> fields[i].name == m.kids[obj][i].name;
    var f := Find(fields, name);
    assert f < |fields| ==> m.kids[obj][f].name == name;
    assert k < |fields| ==> fields[k].name == name;
  }

  /** The tree of a node that has no children yet. */
  function NewTree(kind: Kind, val: string): Tree {
    match kind
    case StrKind => Str(val)
    case ArrKind => Arr([])
    case ObjKind => Obj([])
  }

  /** The children of a node are not those of another, nor the node itself. */
  ghost predicate Separate(kids: map<Node, seq<Node>>) {
    && (forall n :: n in kids ==> Apart(n, kids[n]))
    && (forall a, b :: a in kids && b in kids && a != b ==> Disjoint(kids[a], kids[b]))
    && (forall n :: n in kids ==> Within(kids, kids[n]))
  }

  ghost predicate Disjoint(a: seq<Node>, b: seq<Node>) {
    forall k :: k in a ==> k !in b
  }

  ghost predicate Within(kids: map<Node, seq<Node>>, ks: seq<Node>) {
    forall k :: k in ks ==> k in kids
  }

  lemma {:induction false} BuiltIsSeparate(m: Model)
    requires Built(m)
    ensures Separate(m.kids)
  {
    forall n | n in m.kids
      ensures Apart(n, m.kids[n]) && Within(m.kids, m.kids[n])
    {
      KidsOfNode(m, n);
    }
    forall a, b | a in m.kids && b in m.kids && a != b
      ensures Disjoint(m.kids[a], m.kids[b])
    {
      KidsApart(m, a, b);
    }
  }

  lemma {:induction false} KidsApart(m: Model, a: Node, b: Node)
    requires Built(m) && a in m.kids && b in m.kids && a != b
    ensures Disjoint(m.kids[a], m.kids[b])
  {
    assert NodeOk(m, a) && NodeOk(m, b);
    assert forall i :: 0 <= i < |m.kids[a]| ==> KidOk(m, a, m.kids[a][i]);
    assert forall i :: 0 <= i < |m.kids[b]| ==> KidOk(m, b, m.kids[b][i]);
  }

  lemma {:induction false} KidsOfNode(m: Model, n: Node)
    requires Built(m) && n in m.kids
    ensures Apart(n, m.kids[n]) && Within(m.kids, m.kids[n])
  {
    assert NodeOk(m, n);
    assert forall i :: 0 <= i < |m.kids[n]| ==> KidOk(m, n, m.kids[n][i]);
  }

  /** The links of all nodes, but perhaps of one. */
  ghost predicate AllChained(kids: map<Node, seq<Node>>, but: Node?)
    reads kids.Keys`count, kids.Keys`child, kids.Keys`tail, kids.Keys`parent, kids.Keys`next
  {
    forall n :: n in kids && n != but ==> Within(kids, kids[n]) && Chained(n, kids[n])
  }

  /** The string nodes hold the strings recorded for them. */
  ghost predicate StringsOk(m: Model)
    reads m.kids.Keys`val
  {
    forall n :: n in m.kids && n in m.trees && n.kind.StrKind? ==> m.trees[n] == Str(n.val)
  }

  lemma {:induction false} RejoinAdded(kids: map<Node, seq<Node>>, cur: Node, node: Node)
    requires AllChained(kids, cur) && cur in kids && Within(kids, kids[cur]) && node !in kids
    requires Chained(cur, kids[cur] + [node]) && Chained(node, [])
    ensures AllChained(kids[cur := kids[cur] + [node]][node := []], null)
  {
    var more := kids[cur := kids[cur] + [node]][node := []];
    forall n | n in more
      ensures Within(more, more[n]) && Chained(n, more[n])
    {
      assert n != node && n != cur ==> Within(kids, kids[n]);
    }
  }

  /** Links a node as the last child of another. */
  method LinkLast(ghost kids: map<Node, seq<Node>>, cur: Node, node: Node)
    requires Separate(kids) && AllChained(kids, null) && cur in kids && node !in kids && node.next == null
    modifies kids.Keys`child, kids.Keys`tail, kids.Keys`count, kids.Keys`next, node`parent
    ensures Chained(cur, kids[cur] + [node])
    ensures AllChained(kids, cur)
  {
    ghost var ks := kids[cur];
    assert Apart(cur, ks) && Within(kids, ks);
    ChildAdd(cur, node, ks);
    forall n | n in kids && n != cur
      ensures Chained(n, kids[n])
    {
      ghost var kn := kids[n];
      assert Disjoint(kn, ks) && Within(kids, kn);
      assert old(Chained(n, kn));
      forall i | 0 <= i < |kn|
        ensures LinkAt(n, kn, i)
      {
        assert old(LinkAt(n, kn, i));
        assert kn[i] in kn;
      }
    }
  }

  /** Unlinks a child of a node. */
  method UnlinkChild(ghost kids: map<Node, seq<Node>>, cur: Node, prev: Node?, node: Node, ghost k: nat)
    requires Separate(kids) && AllChained(kids, null) && cur in kids && k < |kids[cur]| && kids[cur][k] == node
    requires prev == if k == 0 then null else kids[cur][k - 1]
    modifies kids.Keys`child, kids.Keys`tail, kids.Keys`count, kids.Keys`next
    ensures Chained(cur, Without(kids[cur], k))
    ensures AllChained(kids, cur)
  {
    ghost var ks := kids[cur];
    assert Apart(cur, ks) && Within(kids, ks);
    Unlink(cur, prev, node, ks, k);
    forall n | n in kids && n != cur
      ensures Chained(n, kids[n])
    {
      ghost var kn := kids[n];
      assert Disjoint(kn, ks) && Within(kids, kn);
      assert old(Chained(n, kn));
      forall i | 0 <= i < |kn|
        ensures LinkAt(n, kn, i)
      {
        assert old(LinkAt(n, kn, i));
        assert kn[i] in kn;
      }
    }
  }

  lemma {:induction false} RejoinWithout(kids: map<Node, seq<Node>>, cur: Node, k: nat)
    requires AllChained(kids, cur) && cur in kids && Within(kids, kids[cur]) && k < |kids[cur]|
    requires Chained(cur, Without(kids[cur], k))
    ensures AllChained(kids[cur := Without(kids[cur], k)], null)
  {
    var less := kids[cur := Without(kids[cur], k)];
    forall n | n in less
      ensures Within(less, less[n]) && Chained(n, less[n])
    {
      assert Within(kids, kids[n]);
    }
  }

  class Store {
    const root: Node
    ghost var m: Model

    ghost predicate Valid()
      reads this, m.kids.Keys
    {
      && Scoped(m) && Built(m)
      && root in m.kids && IsTop(m, root) && root.kind.ObjKind?
      && AllChained(m.kids, null) && StringsOk(m)
    }

    /** The tree that the nodes stand for. */
    ghost function Contents(): Tree
      requires Valid()
      reads this, m.kids.Keys
    {
      m.trees[root]
    }

    /** `cfg_init` */
    constructor ()
      ensures Valid() && Contents() == EMPTY && fresh(m.kids.Keys)
    {
      var r := new Node(ObjKind, "");
      root := r;
      m := Model(map[r := []], map[], map[r := 0], map[r := Obj([])]);
      new;
      assert KidsOk(m, root);
      assert FieldsOf(m, []) == [];
      assert NodeOk(m, root);
    }

    /** `obj_find` */
    method ObjFind(obj: Node, name: string) returns (r: Node?, ghost k: nat)
      requires Valid() && obj in m.kids && obj.kind.ObjKind?
      ensures NodeOk(m, obj) && m.trees[obj].Obj?
      ensures k == Find(m.trees[obj].fields, name) <= |m.kids[obj]|
      ensures r == if k < |m.kids[obj]| then m.kids[obj][k] else null
    {
      hide NodeOk;
      assert NodeOk(m, obj) && Chained(obj, m.kids[obj]);
      r, k := FindKid(obj, name, m.kids[obj]);
      FindsField(m, obj, name, k);
    }

    /** `arr_nth` */
    method ArrNth(arr: Node, idx: nat) returns (r: Node?)
      requires Valid() && arr in m.kids
      ensures r == if idx < |m.kids[arr]| then m.kids[arr][idx] else null
    {
      ghost var ks := m.kids[arr];
      assert Chained(arr, ks);
      var i := 0;
      r := arr.child;
      while r != null && i != idx
        invariant i <= idx && i <= |ks| && r == if i < |ks| then ks[i] else null
        decreases |ks| - i
      {
        assert LinkAt(arr, ks, i);
        r, i := r.next, i + 1;
      }
    }

    /** Adds a node as the last child of the node at the end of a way. */
    method Attach(ghost above: seq<Node>, ghost at: seq<nat>, cur: Node, node: Node)
      requires Valid() && OnWay(m, root, above, at, cur) && node !in m.kids
      requires node.next == null && node.child == null && node.tail == null && node.count == 0
      requires cur.kind.ObjKind? || (cur.kind.ArrKind? && node.kind.StrKind?)
      modifies this`m, m.kids.Keys`child, m.kids.Keys`tail, m.kids.Keys`count, m.kids.Keys`next, node`parent
      ensures Valid() && m.kids == old(m.kids)[cur := old(m.kids)[cur] + [node]][node := []]
      ensures m == Attached(old(m), above, at, cur, node, NewTree(node.kind, node.val))
      ensures Contents() == Plug(old(m), above, at, Added(old(m).trees[cur], node.name, NewTree(node.kind, node.val)))
      ensures m.trees[node] == NewTree(node.kind, node.val)
    {
      hide NodeOk, Plug, Attached, Way, Chained, AllChained, Added;
      ghost var t := NewTree(node.kind, node.val);
      BuiltIsSeparate(m);
      LinkLast(m.kids, cur, node);
      NoLinks(node);
      RejoinAdded(m.kids, cur, node);
      AttachModel(m, root, above, at, cur, node, t);
      m := Attached(m, above, at, cur, node, t);
    }

    /** Takes a child from the node at the end of a way. */
    method Detach(ghost above: seq<Node>, ghost at: seq<nat>, cur: Node, prev: Node?, node: Node, ghost k: nat)
      requires Valid() && OnWay(m, root, above, at, cur) && !cur.kind.StrKind?
      requires k < |m.kids[cur]| && m.kids[cur][k] == node
      requires prev == if k == 0 then null else m.kids[cur][k - 1]
      modifies this`m, m.kids.Keys`child, m.kids.Keys`tail, m.kids.Keys`count, m.kids.Keys`next
      ensures Valid() && m.kids.Keys == old(m.kids.Keys)
      ensures Contents() == Plug(old(m), above, at, Removed(old(m).trees[cur], k))
    {
      hide NodeOk, Plug, Detached, Way, Chained, AllChained, Removed;
      BuiltIsSeparate(m);
      UnlinkChild(m.kids, cur, prev, node, k);
      RejoinWithout(m.kids, cur, k);
      DetachModel(m, root, above, at, cur, k);
      m := Detached(m, above, at, cur, k);
    }

    /** Gives the string at the end of a way another value. */
    method Assign(ghost above: seq<Node>, ghost at: seq<nat>, cur: Node, val: string)
      requires Valid() && OnWay(m, root, above, at, cur) && cur.kind.StrKind?
      modifies this`m, cur`val
      ensures Valid() && m.kids.Keys == old(m.kids.Keys)
      ensures Contents() == Plug(old(m), above, at, Str(val))
    {
      hide NodeOk, Plug, Refresh, Way, Chained;
      AssignModel(m, root, above, at, cur, val);
      cur.val := val;
      m := Refresh(m, above, at, cur, Str(val));
    }

    lemma {:induction false} NothingChanged(above: seq<Node>, at: seq<nat>, cur: Node)
      requires Valid() && OnWay(m, root, above, at, cur)
      ensures Plug(m, above, at, m.trees[cur]) == Contents()
    {
      hide Plug, Way;
      PlugSelf(m, root, above, at, cur);
    }

    /** `set_str_plain` */
    method SetStrPlain(ghost above: seq<Node>, ghost at: seq<nat>, cur: Node, name: string, val: string)
      returns (error: Option<Error>)
      requires Valid() && OnWay(m, root, above, at, cur) && cur.kind.ObjKind?
      modifies this`m, m.kids.Keys
      ensures Valid() && fresh(m.kids.Keys - old(m.kids.Keys))
      ensures var o := SetLast(old(m).trees[cur], Key(name), val);
              error == o.error && Contents() == Plug(old(m), above, at, o.tree)
    {
      hide NodeOk, Plug, Way, Attached, Chained, SetLast, Added, Wrap, Find;
      var node, k := ObjFind(cur, name);
      TreeKind(m, cur);
      SetFieldIs(m.trees[cur], name, val);
      if node == null {
        var added := new Node(StrKind, name);
        added.val := val;
        Attach(above, at, cur, added);
        error := None;
      } else {
        KidTree(m, cur, k);
        TreeKind(m, node);
        if !node.kind.StrKind? {
          NothingChanged(above, at, cur);
          error := Some(EISDIR);
        } else {
          OnWayKid(m, root, above, at, cur, k, Str(val));
          Assign(above + [cur], at + [k], node, val);
          error := None;
        }
      }
    }

    /** `set_arr_append` and `set_arr_idx` */
    method SetElement(ghost above: seq<Node>, ghost at: seq<nat>, cur: Node, last: Tok, val: string)
      returns (error: Option<Error>)
      requires Valid() && OnWay(m, root, above, at, cur) && cur.kind.ArrKind? && !last.Key?
      modifies this`m, m.kids.Keys
      ensures Valid() && fresh(m.kids.Keys - old(m.kids.Keys))
      ensures Lift(old(m), above, at, SetLast(old(m).trees[cur], last, val)) == Outcome(Contents(), error)
    {
      hide NodeOk, Plug, Way, Attached, Chained, SetLast, Added, Wrap;
      TreeKind(m, cur);
      SetElementIs(m.trees[cur], last, val);
      if last.Append? {
        var added := new Node(StrKind, "");
        added.val := val;
        Attach(above, at, cur, added);
        return None;
      }
      CountIs(cur);
      match Element(cur.count, last.idx)
      case None =>
        NothingChanged(above, at, cur);
        error := Some(ENOENT);
      case Some(k) =>
        var node := ArrNth(cur, k);
        KidTree(m, cur, k);
        OnWayKid(m, root, above, at, cur, k, Str(val));
        Assign(above + [cur], at + [k], node, val);
        error := None;
    }

    lemma {:induction false} CountIs(n: Node)
      requires Valid() && n in m.kids
      ensures n.count == |m.kids[n]|
    {
      assert Chained(n, m.kids[n]);
    }

    /** The last step of `cfg_set_str`. */
    method SetAtEnd(ghost above: seq<Node>, ghost at: seq<nat>, cur: Node, last: Tok, val: string)
      returns (error: Option<Error>)
      requires Valid() && OnWay(m, root, above, at, cur)
      modifies this`m, m.kids.Keys
      ensures Valid() && fresh(m.kids.Keys - old(m.kids.Keys))
      ensures Lift(old(m), above, at, SetLast(old(m).trees[cur], last, val)) == Outcome(Contents(), error)
    {
      hide NodeOk, Plug, Way, Chained;
      TreeKind(m, cur);
      if last.Key? && cur.kind.ObjKind? {
        error := SetStrPlain(above, at, cur, last.name, val);
      } else if !last.Key? && cur.kind.ArrKind? {
        error := SetElement(above, at, cur, last, val);
      } else {
        NothingChanged(above, at, cur);
        error := Some(ENOTDIR);
      }
    }

    /** A step of the walk that needs a container that is missing. */
    method Create(ghost above: seq<Node>, ghost at: seq<nat>, cur: Node, ghost path: seq<Tok>, ghost val: string,
                  name: string, next: Tok)
      returns (child: Node)
      requires Valid() && OnWay(m, root, above, at, cur) && cur.kind.ObjKind? && m.trees[cur].Obj?
      requires |path| > 1 && path[0] == Key(name) && path[1] == next
      requires Find(m.trees[cur].fields, name) == |m.trees[cur].fields| == |m.kids[cur]|
      modifies this`m, m.kids.Keys
      ensures Valid() && fresh(m.kids.Keys - old(m.kids.Keys))
      ensures GoesOn(old(m), m, root, above, at, cur, |old(m).kids[cur]|, child, path, val)
    {
      hide NodeOk, Plug, Way, Attached, Chained, Set, Added, Wrap, Find;
      child := new Node(if next.Key? then ObjKind else ArrKind, name);
      Attach(above, at, cur, child);
      ghost var k := |old(m).kids[cur]|;
      ghost var o := Set(Container(next), path[1..], val);
      SetGoesOnNew(old(m).trees[cur], path, val);
      ghost var w := Added(old(m).trees[cur], name, Container(next));
      AttachedWay(old(m), root, above, at, cur, child, Container(next), Wrap(w, k, o.tree));
      OnWayKid(m, root, above, at, cur, k, o.tree);
    }

    /** A step of the walk of `cfg_set_str` that ends at a key. */
    method EnterKey(ghost above: seq<Node>, ghost at: seq<nat>, cur: Node, ghost path: seq<Tok>, ghost val: string,
                    name: string, next: Tok)
      returns (error: Option<Error>, child: Node?, ghost k: nat)
      requires Valid() && OnWay(m, root, above, at, cur)
      requires |path| > 1 && path[0] == Key(name) && path[1] == next
      modifies this`m, m.kids.Keys
      ensures Valid() && fresh(m.kids.Keys - old(m.kids.Keys))
      ensures error.Some? ==> m == old(m) && SetStops(m.trees[cur], path[0], path[1]) == error
      ensures error.None? ==> child != null && GoesOn(old(m), m, root, above, at, cur, k, child, path, val)
    {
      hide NodeOk, Plug, Way, Chained, Set, Wrap, Find, OnWay, Lift;
      child, k := null, 0;
      OnWayIn(m, root, above, at, cur);
      TreeKind(m, cur);
      if !cur.kind.ObjKind? {
        return Some(ENOTDIR), null, 0;
      }
      child, k := ObjFind(cur, name);
      if child == null {
        child := Create(above, at, cur, path, val, name, next);
        return None, child, k;
      }
      KidTree(m, cur, k);
      TreeKind(m, child);
      if child.kind != (if next.Key? then ObjKind else ArrKind) {
        return Some(ENOTDIR), null, 0;
      }
      GoesOnKid(m, root, above, at, cur, k, path, val);
      error := None;
    }

    /** A step of the walk of `cfg_set_str`. */
    method Enter(ghost above: seq<Node>, ghost at: seq<nat>, cur: Node, ghost path: seq<Tok>, ghost val: string,
                 tok: Tok, next: Tok)
      returns (error: Option<Error>, child: Node?, ghost k: nat)
      requires Valid() && OnWay(m, root, above, at, cur)
      requires |path| > 1 && path[0] == tok && path[1] == next
      modifies this`m, m.kids.Keys
      ensures Valid() && fresh(m.kids.Keys - old(m.kids.Keys))
      ensures error.Some? ==> m == old(m) && SetStops(m.trees[cur], path[0], path[1]) == error
      ensures error.None? ==> child != null && GoesOn(old(m), m, root, above, at, cur, k, child, path, val)
    {
      hide NodeOk, Plug, Way, Chained, Set, Wrap, Find, OnWay, Lift;
      OnWayIn(m, root, above, at, cur);
      match tok
      case Append =>
        error, child, k := Some(EINVAL), null, 0;
      case Key(name) =>
        error, child, k := EnterKey(above, at, cur, path, val, name, next);
      case Index(idx) =>
        TreeKind(m, cur);
        CountIs(cur);
        if !cur.kind.ArrKind? {
          return Some(ENOTDIR), null, 0;
        }
        match Element(cur.count, idx)
        case None =>
          error, child, k := Some(ENOENT), null, 0;
        case Some(nth) =>
          child := ArrNth(cur, nth);
          GoesOnKid(m, root, above, at, cur, nth, path, val);
          error, k := None, nth;
    }

    /** `cfg_set_str` on a parsed path. */
    method SetTokens(path: seq<Tok>, val: string) returns (error: Option<Error>)
      requires Valid() && path != []
      modifies this`m, m.kids.Keys
      ensures Valid() && fresh(m.kids.Keys - old(m.kids.Keys))
      ensures Set(old(Contents()), path, val) == Outcome(Contents(), error)
    {
      hide NodeOk, Plug, Way, Chained, Set, Wrap, Find;
      var cur: Node := root;
      var i := 0;
      ghost var above: seq<Node>, at: seq<nat> := [], [];
      AtRoot(m, root);
      assert path[0..] == path;
      while i + 1 < |path|
        invariant 0 <= i < |path|
        invariant Valid() && fresh(m.kids.Keys - old(m.kids.Keys)) && OnWay(m, root, above, at, cur)
        invariant Lift(m, above, at, Set(m.trees[cur], path[i..], val)) == Set(old(Contents()), path, val)
      {
        var child: Node?;
        ghost var k: nat;
        error, child, k := Enter(above, at, cur, path[i..], val, path[i], path[i + 1]);
        if error.Some? {
          SetStopped(m.trees[cur], path[i..], val);
          NothingChanged(above, at, cur);
          return;
        }
        assert path[i..][1..] == path[i + 1..];
        above, at, cur, i := above + [cur], at + [k], child, i + 1;
      }
      SetOne(m.trees[cur], path[i..], val);
      error := SetAtEnd(above, at, cur, path[i], val);
    }

    /** `cfg_set_str` */
    method SetStr(path: string, val: string) returns (error: Option<Error>)
      requires Valid()
      modifies this`m, m.kids.Keys
      ensures Valid() && fresh(m.kids.Keys - old(m.kids.Keys))
      ensures Apply(old(Contents()), Call.SetStr(path, val)) == Outcome(Contents(), error)
    {
      hide NodeOk, Chained, Set, ParsePath, PathOk, Spells;
      var parsed := ScanPath(path);
      if parsed.Err? {
        return Some(parsed.error);
      }
      if parsed.value == [] {
        return Some(EINVAL);
      }
      error := SetTokens(parsed.value, val);
    }

    /** `del_plain` */
    method DelPlain(ghost above: seq<Node>, ghost at: seq<nat>, cur: Node, name: string) returns (error: Option<Error>)
      requires Valid() && OnWay(m, root, above, at, cur) && cur.kind.ObjKind?
      modifies this`m, m.kids.Keys
      ensures Valid() && fresh(m.kids.Keys - old(m.kids.Keys))
      ensures Lift(old(m), above, at, Delete(old(m).trees[cur], [Key(name)])) == Outcome(Contents(), error)
    {
      hide NodeOk, Plug, Way, Delete, Removed, Find, Chained;
      TreeKind(m, cur);
      ChainedAt(cur);
      DeleteFieldIs(m.trees[cur], name);
      var prev, node;
      ghost var k;
      prev, node, k := FindPrev(cur, name, m.kids[cur]);
      NamedIsFound(m, cur, name, k);
      if node == null {
        NothingChanged(above, at, cur);
        return Some(ENOENT);
      }
      Detach(above, at, cur, prev, node, k);
      error := None;
    }

    lemma {:induction false} ChainedAt(n: Node)
      requires Valid() && n in m.kids
      ensures Chained(n, m.kids[n])
    {
    }

    /** `del_arr` */
    method DelArr(ghost above: seq<Node>, ghost at: seq<nat>, cur: Node, idx: int) returns (error: Option<Error>)
      requires Valid() && OnWay(m, root, above, at, cur) && cur.kind.ArrKind?
      modifies this`m, m.kids.Keys
      ensures Valid() && fresh(m.kids.Keys - old(m.kids.Keys))
      ensures Lift(old(m), above, at, Delete(old(m).trees[cur], [Index(idx)])) == Outcome(Contents(), error)
    {
      hide NodeOk, Plug, Way, Delete, Removed, Chained;
      TreeKind(m, cur);
      CountIs(cur);
      ChainedAt(cur);
      DeleteElementIs(m.trees[cur], idx);
      match Element(cur.count, idx)
      case None =>
        NothingChanged(above, at, cur);
        error := Some(ENOENT);
      case Some(k) =>
        var prev, node := NthPrev(cur, k, m.kids[cur]);
        Detach(above, at, cur, prev, node, k);
        error := None;
    }

    /** The last step of `cfg_del`. */
    method DeleteAtEnd(ghost above: seq<Node>, ghost at: seq<nat>, cur: Node, ghost path: seq<Tok>, last: Tok)
      returns (error: Option<Error>)
      requires Valid() && OnWay(m, root, above, at, cur) && |path| == 1 && path[0] == last
      modifies this`m, m.kids.Keys
      ensures Valid() && fresh(m.kids.Keys - old(m.kids.Keys))
      ensures Lift(old(m), above, at, Delete(old(m).trees[cur], path)) == Outcome(Contents(), error)
    {
      hide NodeOk, Plug, Way, Delete, Chained;
      TreeKind(m, cur);
      DeleteOne(m.trees[cur], path);
      if last.Key? && cur.kind.ObjKind? {
        error := DelPlain(above, at, cur, last.name);
      } else if last.Index? && cur.kind.ArrKind? {
        error := DelArr(above, at, cur, last.idx);
      } else {
        NothingChanged(above, at, cur);
        error := Some(if last.Append? then EINVAL else if last.Index? then ENOENT else ENOTDIR);
      }
    }

    /** A step of a walk that creates nothing. */
    method Walk(cur: Node, tok: Tok) returns (error: Option<Error>, child: Node?)
      requires Valid() && cur in m.kids
      ensures error == WalkStops(m.trees[cur], tok)
      ensures error.None? ==> var k := WalkTo(m.trees[cur], tok); k < |m.kids[cur]| && child == m.kids[cur][k]
    {
      hide NodeOk, Chained, Find;
      TreeKind(m, cur);
      child := null;
      match tok
      case Append =>
        error := Some(EINVAL);
      case Key(name) =>
        if !cur.kind.ObjKind? {
          return Some(ENOTDIR), null;
        }
        ghost var k;
        child, k := ObjFind(cur, name);
        error := if child == null then Some(ENOENT) else None;
      case Index(idx) =>
        if !cur.kind.ArrKind? {
          return Some(ENOTDIR), null;
        }
        CountIs(cur);
        match Element(cur.count, idx)
        case None =>
          error := Some(ENOENT);
        case Some(k) =>
          child := ArrNth(cur, k);
          error := None;
    }

    /** `cfg_del` on a parsed path. */
    method DeleteTokens(path: seq<Tok>) returns (error: Option<Error>)
      requires Valid() && path != []
      modifies this`m, m.kids.Keys
      ensures Valid() && fresh(m.kids.Keys - old(m.kids.Keys))
      ensures Delete(old(Contents()), path) == Outcome(Contents(), error)
    {
      hide NodeOk, Plug, Way, Chained, Delete, Wrap, WalkStops, WalkTo;
      var cur: Node := root;
      var i := 0;
      ghost var above: seq<Node>, at: seq<nat> := [], [];
      AtRoot(m, root);
      assert path[0..] == path;
      while i + 1 < |path|
        invariant 0 <= i < |path|
        invariant m == old(m) && Valid() && OnWay(m, root, above, at, cur)
        invariant Lift(m, above, at, Delete(m.trees[cur], path[i..])) == Delete(old(Contents()), path)
      {
        var child: Node?;
        error, child := Walk(cur, path[i]);
        if error.Some? {
          DeleteGoesOn(m.trees[cur], path[i..]);
          NothingChanged(above, at, cur);
          return;
        }
        DeleteStep(m, root, above, at, cur, path[i..]);
        assert path[i..][1..] == path[i + 1..];
        above, at := above + [cur], at + [WalkTo(m.trees[cur], path[i])];
        cur, i := child, i + 1;
      }
      error := DeleteAtEnd(above, at, cur, path[i..], path[i]);
    }

    /** `cfg_del` */
    method Del(path: string) returns (error: Option<Error>)
      requires Valid()
      modifies this`m, m.kids.Keys
      ensures Valid() && fresh(m.kids.Keys - old(m.kids.Keys))
      ensures Apply(old(Contents()), Call.Del(path)) == Outcome(Contents(), error)
    {
      hide NodeOk, Chained, Delete, ParsePath, PathOk, Spells;
      var parsed := ScanPath(path);
      if parsed.Err? {
        return Some(parsed.error);
      }
      if parsed.value == [] {
        return Some(EINVAL);
      }
      error := DeleteTokens(parsed.value);
    }

    /** `cfg_get_node`: the node that stands for the part of the tree that the path names. */
    method GetNode(path: string) returns (error: Option<Error>, node: Node?)
      requires Valid()
      ensures error.None? ==> node != null && node in m.kids
      ensures var parsed := ParsePath(path);
              var got := if parsed.Err? then Err(parsed.error) else Get(Contents(), parsed.value);
              match got
              case Err(e) => error == Some(e)
              case Ok(t) => error.None? && node != null && node in m.trees && m.trees[node] == t
    {
      hide NodeOk, Chained, Get, ParsePath, PathOk, Spells, WalkStops, WalkTo, ChildOf;
      node := null;
      var parsed := ScanPath(path);
      if parsed.Err? {
        return Some(parsed.error), null;
      }
      var toks := parsed.value;
      var cur: Node := root;
      var i := 0;
      assert toks[0..] == toks;
      while i < |toks|
        invariant 0 <= i <= |toks| && cur in m.kids
        invariant Get(m.trees[cur], toks[i..]) == Get(Contents(), toks)
      {
        GetGoesOn(m.trees[cur], toks[i..]);
        error, node := Walk(cur, toks[i]);
        if error.Some? {
          return;
        }
        ChildIs(m, cur, WalkTo(m.trees[cur], toks[i]));
        assert toks[i..][1..] == toks[i + 1..];
        cur, i := node, i + 1;
      }
      GetNothing(m.trees[cur], toks[i..]);
      error, node := None, cur;
    }

    /** `cfg_get_str` */
    method GetStr(path: string) returns (r: Result<string>)
      requires Valid()
      ensures var parsed := ParsePath(path);
              r == if parsed.Err? then Err(parsed.error)
                   else
                     match Get(Contents(), parsed.value)
                     case Err(e) => Err(e)
                     case Ok(Str(s)) => Ok(s)
                     case Ok(_) => Err(EISDIR)
    {
      hide NodeOk, Chained, Get, ParsePath;
      var error, node := GetNode(path);
      if error.Some? {
        return Err(error.value);
      }
      TreeKind(m, node);
      r := if node.kind.StrKind? then Ok(node.val) else Err(EISDIR);
    }

    /** `load_line` */
    method LoadOne(line: string) returns (error: Option<Error>)
      requires Valid()
      modifies this`m, m.kids.Keys
      ensures Valid() && fresh(m.kids.Keys - old(m.kids.Keys))
      ensures LoadLine(old(Contents()), line) == Outcome(Contents(), error)
      ensures LineDoes(old(Contents()), line, Outcome(Contents(), error))
    {
      hide NodeOk, Chained, Set, ParsePath, ParseValue, Trim, IndexOf, Spells, PathOk, LineDoes;
      LineLanguage(Contents(), line);
      var text := Trim(line);
      if text == "" || text[0] == '#' {
        return None;
      }
      var eq := IndexOf(text, '=');
      if eq == |text| || Trim(text[..eq]) == "" {
        return Some(EINVAL);
      }
      var parsed := ScanPath(Trim(text[..eq]));
      if parsed.Err? {
        return Some(parsed.error);
      }
      if !FilePath(parsed.value) {
        return Some(EINVAL);
      }
      var val := ReadValue(Trim(text[eq + 1..]));
      if val.Err? {
        return Some(val.error);
      }
      if parsed.value == [] {
        return Some(EINVAL);
      }
      error := SetTokens(parsed.value, val.value);
    }

    /** `cfg_load`: reads a file into an empty store. */
    method LoadFile(text: string) returns (error: Option<Error>)
      requires Valid()
      modifies this`m, m.kids.Keys
      ensures Valid() && fresh(m.kids.Keys - old(m.kids.Keys))
      ensures Told(LoadText(old(Contents()), text), error, Contents())
      ensures forall lines :: IsFile(text, lines) ==>
                                Told(Then(Load(old(Contents()), Settings(UpToLong(lines))), lines), error, Contents())
    {
      hide NodeOk, Chained, LoadLine, IndexOf, TrimEol, LoadText, IsFile, Then, Settings, Load, LineDoes;
      ghost var before := Contents();
      var pos := 0;
      assert text[0..] == text;
      while pos < |text|
        invariant pos <= |text| && Valid() && fresh(m.kids.Keys - old(m.kids.Keys))
        invariant LoadText(Contents(), text[pos..]) == LoadText(old(Contents()), text)
      {
        var n := IndexOf(text[pos..], '\n');
        FirstLine(Contents(), text[pos..]);
        if n > LINE_MAX {
          error := Some(E2BIG);
          FileTold(before, text, error, Contents());
          return;
        }
        error := LoadOne(TrimEol(text[pos..][..n]));
        if error.Some? {
          FileTold(before, text, error, Contents());
          return;
        }
        if pos + n == |text| {
          assert text[|text|..] == "";
          pos := |text|;
        } else {
          assert text[pos..][n + 1..] == text[pos + n + 1..];
          pos := pos + n + 1;
        }
      }
      assert text[pos..] == "";
      NoLine(Contents());
      error := None;
      FileTold(before, text, error, Contents());
    }

    /** The lines of an array. */
    method DumpItems(node: Node, path: string) returns (text: string)
      requires Valid() && node in m.kids && node.kind.ArrKind?
      ensures m.trees[node].Arr? && text == ItemLines(path, m.trees[node].items)
    {
      hide NodeOk, Line, Quote, ParseValue;
      ghost var ks := m.kids[node];
      TreeKind(m, node);
      ghost var items := m.trees[node].items;
      assert Chained(node, ks);
      text := "";
      var child := node.child;
      ghost var k := 0;
      assert items[0..] == items && "" + ItemLines(path, items) == ItemLines(path, items);
      while child != null
        invariant k <= |ks| && child == if k < |ks| then ks[k] else null
        invariant text + ItemLines(path, items[k..]) == ItemLines(path, items)
        decreases |ks| - k
      {
        KidTree(m, node, k);
        assert LinkAt(node, ks, k);
        var q := WriteQuoted(child.val);
        assert items[k..][1..] == items[k + 1..];
        ItemLine(path, items[k]);
        ghost var rest := ItemLines(path, items[k + 1..]);
        var line := path + "[]" + " = " + q + "\n";
        assert text + (line + rest) == text + line + rest;
        text := text + line;
        child, k := child.next, k + 1;
      }
      assert items[k..] == [] && text + "" == text;
    }

    /** `dump_node` */
    method Dump(node: Node, path: string) returns (r: Result<string>)
      requires Valid() && node in m.kids
      ensures r == DumpNode(m.trees[node], path)
      decreases m.trees[node]
    {
      hide NodeOk, Line, Quote, Extend, ItemLines, ParseValue, Chained;
      TreeKind(m, node);
      match node.kind
      case StrKind =>
        var q := WriteQuoted(node.val);
        StringLine(path, node.val);
        r := Ok(path + " = " + q + "\n");
      case ArrKind =>
        var text := DumpItems(node, path);
        r := Ok(text);
      case ObjKind =>
        r := DumpObject(node, path);
    }

    method DumpObject(node: Node, path: string) returns (r: Result<string>)
      requires Valid() && node in m.kids && node.kind.ObjKind?
      ensures r == DumpNode(m.trees[node], path)
      decreases m.trees[node], 0
    {
      hide NodeOk, Extend, DumpNode;
      ghost var ks := m.kids[node];
      TreeKind(m, node);
      ghost var fields := m.trees[node].fields;
      assert Chained(node, ks);
      var text := "";
      var child := node.child;
      ghost var k := 0;
      DumpObjectIs(fields, path);
      assert fields[0..] == fields;
      NothingBefore(DumpFields(fields, path));
      while child != null
        invariant k <= |ks| && child == if k < |ks| then ks[k] else null
        invariant Prefixed(text, DumpFields(fields[k..], path)) == DumpFields(fields, path)
        decreases |ks| - k
      {
        KidTree(m, node, k);
        assert LinkAt(node, ks, k);
        assert fields[k..][1..] == fields[k + 1..];
        var longer := Extend(path, child.name);
        if longer.Err? {
          return Err(longer.error);
        }
        SmallerField(fields, k);
        var part := Dump(child, longer.value);
        if part.Err? {
          return part;
        }
        PrefixedJoined(text, part.value, DumpFields(fields[k + 1..], path));
        text := text + part.value;
        child, k := child.next, k + 1;
      }
      assert fields[k..] == [] && text + "" == text;
      r := Ok(text);
    }
  }

  /** Dumping a store and loading the dump into an empty one. */
  method Reload(s: Store) returns (error: Option<Error>, copy: Store)
    requires s.Valid() && Config(s.Contents())
    ensures s.Valid() && s.Contents() == old(s.Contents()) && copy.Valid()
    ensures DumpNode(s.Contents(), "").Ok? ==>
              error == (if LinesFit(Leaves(s.Contents())) then None else Some(E2BIG))
    ensures DumpNode(s.Contents(), "").Ok? && LinesFit(Leaves(s.Contents())) ==> copy.Contents() == Prune(s.Contents())
    ensures DumpNode(s.Contents(), "").Err? ==> error == Some(DumpNode(s.Contents(), "").error)
  {
    hide DumpNode, LoadText, Leaves, Prune, Config, LinesFit, Built, AllChained, StringsOk, IsTop;
    copy := new Store();
    var text := s.Dump(s.root, "");
    if text.Err? {
      return Some(text.error), copy;
    }
    CfgText.LoadAfterDump(s.Contents());
    error := copy.LoadFile(text.value);
  }

  lemma {:induction false} FirstLine(t: Tree, text: string)
    requires text != ""
    ensures var n := IndexOf(text, '\n');
            LoadText(t, text) ==
            if n > LINE_MAX then Err(E2BIG)
            else
              var r := LoadLine(t, TrimEol(text[..n]));
              match r.error
              case Some(e) => Err(e)
              case None => LoadText(r.tree, if n == |text| then "" else text[n + 1..])
  {
    hide LoadLine, IndexOf, TrimEol;
  }

  lemma {:induction false} NoLine(t: Tree)
    ensures LoadText(t, "") == Ok(t)
  {
  }

  lemma {:induction false} SmallerField(fields: seq<Field>, k: nat)
    requires k < |fields|
    ensures Obj(fields) decreases to fields[k].value
  {
  }

  lemma {:induction false} DumpObjectIs(fields: seq<Field>, path: string)
    ensures DumpNode(Obj(fields), path) == DumpFields(fields, path)
  {
  }

  lemma {:induction false} NothingBefore(r: Result<string>)
    ensures Prefixed("", r) == r
  {
    if r.Ok? {
      assert "" + r.value == r.value;
    }
  }

  lemma {:induction false} StringLine(path: string, val: string)
    ensures path + " = " + Quote(val) + "\n" == Line(path, val) + "\n"
  {
    hide Quote;
    assert path + " = " + Quote(val) == path + (" = " + Quote(val));
  }

  lemma {:induction false} ItemLine(path: string, val: string)
    ensures path + "[]" + " = " + Quote(val) + "\n" == Line(path + "[]", val) + "\n"
  {
    StringLine(path + "[]", val);
  }

  lemma {:induction false} GetNothing(t: Tree, path: seq<Tok>)
    requires path == []
    ensures Get(t, path) == Ok(t)
  {
  }

  lemma {:induction false} NamedIsFound(m: Model, obj: Node, name: string, k: nat)
    requires Built(m) && obj in m.kids && obj.kind.ObjKind? && FirstNamed(m.kids[obj], name, k)
    ensures obj in m.trees && m.trees[obj].Obj? && Find(m.trees[obj].fields, name) == k
  {
    assert NodeOk(m, obj);
    FindsField(m, obj, name, k);
  }

  /** The search loop of `del_plain`, which also keeps the child before. */
  method FindPrev(obj: Node, name: string, ghost ks: seq<Node>) returns (prev: Node?, node: Node?, ghost k: nat)
    requires Chained(obj, ks)
    ensures FirstNamed(ks, name, k)
    ensures node == if k < |ks| then ks[k] else null
    ensures prev == if k == 0 then null else ks[k - 1]
  {
    prev, node, k := null, obj.child, 0;
    while node != null && node.name != name
      invariant k <= |ks| && node == if k < |ks| then ks[k] else null
      invariant prev == if k == 0 then null else ks[k - 1]
      invariant forall i :: 0 <= i < k ==> ks[i].name != name
      decreases |ks| - k
    {
      assert LinkAt(obj, ks, k);
      prev, node, k := node, node.next, k + 1;
    }
  }

  /** The search loop of `del_arr`. */
  method NthPrev(arr: Node, idx: nat, ghost ks: seq<Node>) returns (prev: Node?, node: Node?)
    requires Chained(arr, ks) && idx < |ks|
    ensures node == ks[idx] && prev == if idx == 0 then null else ks[idx - 1]
  {
    var i := 0;
    prev, node := null, arr.child;
    while node != null && i != idx
      invariant i <= idx && node == ks[i]
      invariant prev == if i == 0 then null else ks[i - 1]
      decreases idx - i
    {
      assert LinkAt(arr, ks, i);
      prev, node, i := node, node.next, i + 1;
    }
  }

  lemma {:induction false} AtRoot(m: Model, root: Node)
    requires root in m.kids && root in m.trees
    ensures OnWay(m, root, [], [], root)
    ensures forall o: Outcome :: Lift(m, [], [], o) == o
  {
  }

  lemma {:induction false} OnWayIn(m: Model, root: Node, above: seq<Node>, at: seq<nat>, cur: Node)
    requires OnWay(m, root, above, at, cur)
    ensures cur in m.kids && cur in m.trees
  {
  }

  lemma {:induction false} NoLinks(n: Node)
    requires n.child == null && n.tail == null && n.count == 0
    ensures Chained(n, [])
  {
  }
}
