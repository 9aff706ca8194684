/**
 Dumping a configuration tree to a list of paths and strings, and loading such a list into a tree:
 the part of `dump_node` and `cfg_load` that is not text.
 */
module CfgDump {
  import opened CfgTree

  /** A line of a dump: the path of a string, and the string. */
  datatype Leaf = Leaf(path: seq<Tok>, val: string)

  function Under(name: string, leaves: seq<Leaf>): (r: seq<Leaf>)
    ensures |r| == |leaves|
    ensures forall i :: 0 <= i < |leaves| ==> r[i] == Leaf([Key(name)] + leaves[i].path, leaves[i].val)
  {
    seq(|leaves|, i requires 0 <= i < |leaves| => Leaf([Key(name)] + leaves[i].path, leaves[i].val))
  }

  function Appends(items: seq<string>): (r: seq<Leaf>)
    ensures |r| == |items|
    ensures forall i :: 0 <= i < |items| ==> r[i] == Leaf([Append], items[i])
  {
    seq(|items|, i requires 0 <= i < |items| => Leaf([Append], items[i]))
  }

  /** The strings in a tree, in order, with their paths. */
  function Leaves(t: Tree): seq<Leaf>
    decreases t
  {
    match t
    case Str(s) => [Leaf([], s)]
    case Arr(items) => Appends(items)
    case Obj(fields) => FieldLeaves(fields)
  }

  function FieldLeaves(fields: seq<Field>): seq<Leaf>
    decreases fields
  {
    if fields == [] then []
    else Under(fields[0].name, Leaves(fields[0].value)) + FieldLeaves(fields[1..])
  }

  /** Loads one line after the other, until one fails. */
  function Load(t: Tree, leaves: seq<Leaf>): Result<Tree>
    decreases |leaves|
  {
    if leaves == [] then Ok(t)
    else if leaves[0].path == [] then Err(EINVAL)
    else
      var r := Set(t, leaves[0].path, leaves[0].val);
      match r.error
      case Some(e) => Err(e)
      case None => Load(r.tree, leaves[1..])
  }

  /** The tree without the containers that hold no string. */
  function Prune(t: Tree): Tree
    decreases t
  {
    if t.Obj? then Obj(PruneFields(t.fields)) else t
  }

  function PruneFields(fields: seq<Field>): seq<Field>
    decreases fields
  {
    if fields == [] then []
    else if Leaves(fields[0].value) == [] then PruneFields(fields[1..])
    else [Field(fields[0].name, Prune(fields[0].value))] + PruneFields(fields[1..])
  }

  predicate Fresh(fields: seq<Field>, name: string) {
    forall i :: 0 <= i < |fields| ==> fields[i].name != name
  }

  lemma {:induction false} FindFresh(fields: seq<Field>, name: string, x: Tree)
    requires Fresh(fields, name)
    ensures Find(fields, name) == |fields|
    ensures Find(fields + [Field(name, x)], name) == |fields|
  {
    FindAdded(fields, Field(name, x), name);
  }

  lemma {:induction false} LoadConcat(t: Tree, a: seq<Leaf>, b: seq<Leaf>)
    ensures Load(t, a + b) == match Load(t, a) case Ok(u) => Load(u, b) case Err(e) => Err(e)
    decreases |a|
  {
    if a == [] {
      assert a + b == b;
    } else {
      assert (a + b)[0] == a[0] && (a + b)[1..] == a[1..] + b;
      if a[0].path != [] {
        LoadConcat(Set(t, a[0].path, a[0].val).tree, a[1..], b);
      }
    }
  }

  lemma {:induction false} SetKind(t: Tree, path: seq<Tok>, val: string)
    requires path != []
    ensures SameKind(Set(t, path, val).tree, t)
  {
  }

  /** Every path leads on into a container of that kind. */
  predicate Into(t: Tree, leaves: seq<Leaf>) {
    forall i :: 0 <= i < |leaves| ==> leaves[i].path != [] && SameKind(t, Container(leaves[i].path[0]))
  }

  /** A set under the last field changes that field as the rest of the path says. */
  lemma {:induction false} SetUnder(acc: seq<Field>, name: string, x: Tree, path: seq<Tok>, val: string)
    requires Fresh(acc, name) && path != [] && SameKind(x, Container(path[0]))
    ensures var r := Set(x, path, val);
            Set(Obj(acc + [Field(name, x)]), [Key(name)] + path, val) ==
            Outcome(Obj(acc + [Field(name, r.tree)]), r.error)
  {
    FindFresh(acc, name, x);
    var whole := [Key(name)] + path;
    assert whole[1..] == path && whole[0] == Key(name) && whole[1] == path[0];
    var r := Set(x, path, val);
    assert (acc + [Field(name, x)])[|acc| := Field(name, r.tree)] == acc + [Field(name, r.tree)];
  }

  /** A set under a field that is missing is a set under that field, empty. */
  lemma {:induction false} SetCreates(acc: seq<Field>, name: string, path: seq<Tok>, val: string)
    requires Fresh(acc, name) && path != []
    ensures Set(Obj(acc), [Key(name)] + path, val) ==
            Set(Obj(acc + [Field(name, Container(path[0]))]), [Key(name)] + path, val)
  {
    SetUnder(acc, name, Container(path[0]), path, val);
    FindFresh(acc, name, Container(path[0]));
    var whole := [Key(name)] + path;
    assert whole[1..] == path && whole[0] == Key(name) && whole[1] == path[0];
  }

  lemma {:induction false} LoadUnder(acc: seq<Field>, name: string, x: Tree, leaves: seq<Leaf>)
    requires Fresh(acc, name) && Into(x, leaves)
    ensures Load(Obj(acc + [Field(name, x)]), Under(name, leaves)) ==
            match Load(x, leaves) case Ok(u) => Ok(Obj(acc + [Field(name, u)])) case Err(e) => Err(e)
    decreases |leaves|
  {
    if leaves != [] {
      SetUnder(acc, name, x, leaves[0].path, leaves[0].val);
      SetKind(x, leaves[0].path, leaves[0].val);
      var r := Set(x, leaves[0].path, leaves[0].val);
      LoadUnder(acc, name, r.tree, leaves[1..]);
      assert Under(name, leaves)[1..] == Under(name, leaves[1..]);
    }
  }

  /** Loading the strings of one field, where there is no field of that name yet. */
  lemma {:induction false} LoadField(acc: seq<Field>, name: string, x: Tree, leaves: seq<Leaf>)
    requires Fresh(acc, name) && leaves != [] && (x == Obj([]) || x == Arr([])) && Into(x, leaves)
    ensures Load(Obj(acc), Under(name, leaves)) ==
            match Load(x, leaves) case Ok(u) => Ok(Obj(acc + [Field(name, u)])) case Err(e) => Err(e)
  {
    LoadUnder(acc, name, x, leaves);
    SetCreates(acc, name, leaves[0].path, leaves[0].val);
  }

  lemma {:induction false} LoadItems(done: seq<string>, items: seq<string>)
    ensures Load(Arr(done), Appends(items)) == Ok(Arr(done + items))
    decreases |items|
  {
    if items == [] {
      assert done + items == done;
    } else {
      LoadItems(done + [items[0]], items[1..]);
      assert Appends(items)[1..] == Appends(items[1..]);
      assert done + [items[0]] + items[1..] == done + items;
    }
  }

  lemma {:induction false} LeavesInto(fields: seq<Field>)
    ensures Into(Obj([]), FieldLeaves(fields))
    decreases fields
  {
    if fields != [] {
      LeavesInto(fields[1..]);
    }
  }

  /** The names of two lists of fields: all different, and none in both. */
  predicate Apart(acc: seq<Field>, fields: seq<Field>) {
    && (forall i :: 0 <= i < |fields| ==> Fresh(acc, fields[i].name))
    && (forall i :: 0 <= i < |fields| ==> Distinct(fields[i].value))
    && (forall i, j :: 0 <= i < j < |fields| ==> fields[i].name != fields[j].name)
  }

  lemma {:induction false} StillApart(acc: seq<Field>, fields: seq<Field>, x: Tree)
    requires Apart(acc, fields) && fields != []
    ensures Apart(acc, fields[1..])
    ensures Apart(acc + [Field(fields[0].name, x)], fields[1..])
  {
  }

  /** Loading the strings of the fields of an object after what has been loaded. */
  lemma {:induction false} LoadFields(acc: seq<Field>, fields: seq<Field>)
    requires Apart(acc, fields)
    ensures Load(Obj(acc), FieldLeaves(fields)) == Ok(Obj(acc + PruneFields(fields)))
    decreases fields
  {
    hide Distinct, Set, Prune;
    if fields == [] {
      assert acc + PruneFields(fields) == acc;
    } else {
      var f := fields[0];
      LoadConcat(Obj(acc), Under(f.name, Leaves(f.value)), FieldLeaves(fields[1..]));
      if Leaves(f.value) == [] {
        StillApart(acc, fields, f.value);
        LoadFields(acc, fields[1..]);
      } else {
        var done := acc + [Field(f.name, Prune(f.value))];
        LoadOne(acc, f);
        StillApart(acc, fields, Prune(f.value));
        LoadFields(done, fields[1..]);
        assert done + PruneFields(fields[1..]) == acc + PruneFields(fields);
      }
    }
  }

  lemma {:induction false} LoadOne(acc: seq<Field>, f: Field)
    requires Fresh(acc, f.name) && Distinct(f.value) && Leaves(f.value) != []
    ensures Load(Obj(acc), Under(f.name, Leaves(f.value))) == Ok(Obj(acc + [Field(f.name, Prune(f.value))]))
    decreases f
  {
    match f.value
    case Str(s) =>
      FindFresh(acc, f.name, Str(s));
      assert [Key(f.name)] + [] == [Key(f.name)];
      assert Under(f.name, Leaves(f.value)) == [Leaf([Key(f.name)], s)];
    case Arr(items) =>
      LoadItems([], items);
      assert [] + items == items;
      LoadField(acc, f.name, Arr([]), Appends(items));
    case Obj(fields) =>
      LoadFields([], fields);
      assert [] + PruneFields(fields) == PruneFields(fields);
      LeavesInto(fields);
      LoadField(acc, f.name, Obj([]), FieldLeaves(fields));
  }

  /** Loading the dump of a tree into an empty one gives the tree without its empty containers, in the same order. */
  lemma {:induction false} LoadAfterDump(t: Tree)
    requires t.Obj? && Distinct(t)
    ensures Load(EMPTY, Leaves(t)) == Ok(Prune(t))
  {
    LoadFields([], t.fields);
    assert [] + PruneFields(t.fields) == PruneFields(t.fields);
  }

  lemma {:induction false} LeavesOfConcat(a: seq<Field>, b: seq<Field>)
    ensures FieldLeaves(a + b) == FieldLeaves(a) + FieldLeaves(b)
    decreases |a|
  {
    hide Leaves;
    if a == [] {
      assert a + b == b;
    } else {
      LeavesOfConcat(a[1..], b);
      assert (a + b)[1..] == a[1..] + b;
      var first := Under(a[0].name, Leaves(a[0].value));
      assert first + (FieldLeaves(a[1..]) + FieldLeaves(b)) == first + FieldLeaves(a[1..]) + FieldLeaves(b);
    }
  }

  lemma {:induction false} LeavesOfOne(name: string, x: Tree)
    ensures FieldLeaves([Field(name, x)]) == Under(name, Leaves(x))
  {
    hide Leaves;
    var one := [Field(name, x)];
    assert one[1..] == [] && FieldLeaves([]) == [];
  }

  lemma {:induction false} LeavesOfReplaced(fields: seq<Field>, k: nat, x: Tree)
    requires k < |fields| && Leaves(x) == Leaves(fields[k].value)
    ensures FieldLeaves(fields[k := Field(fields[k].name, x)]) == FieldLeaves(fields)
  {
    hide Leaves, FieldLeaves;
    var f := Field(fields[k].name, x);
    var a, b := fields[..k], fields[k + 1..];
    assert fields[k := f] == a + ([f] + b) && fields == a + ([fields[k]] + b);
    LeavesOfConcat(a, [f] + b);
    LeavesOfConcat([f], b);
    LeavesOfConcat(a, [fields[k]] + b);
    LeavesOfConcat([fields[k]], b);
    LeavesOfOne(f.name, x);
    LeavesOfOne(f.name, fields[k].value);
  }

  lemma {:induction false} LeavesOfAdded(fields: seq<Field>, name: string, x: Tree)
    requires Leaves(x) == []
    ensures FieldLeaves(fields + [Field(name, x)]) == FieldLeaves(fields)
  {
    hide Leaves, FieldLeaves;
    LeavesOfConcat(fields, [Field(name, x)]);
    LeavesOfOne(name, x);
  }

  /**
   A set that fails leaves the strings, their paths and their order as they were: all it can leave is empty containers.
   */
  lemma {:induction false} FailedSetKeepsLeaves(t: Tree, path: seq<Tok>, val: string)
    requires path != [] && Set(t, path, val).error.Some?
    ensures Leaves(Set(t, path, val).tree) == Leaves(t)
    decreases |path|
  {
    hide FieldLeaves;
    if |path| > 1 && path[0].Key? && t.Obj? {
      var k := Find(t.fields, path[0].name);
      if k == |t.fields| {
        FailedSetKeepsLeaves(Container(path[1]), path[1..], val);
        NoLeavesYet(path[1]);
        LeavesOfAdded(t.fields, path[0].name, Set(Container(path[1]), path[1..], val).tree);
      } else if SameKind(t.fields[k].value, Container(path[1])) {
        FailedSetKeepsLeaves(t.fields[k].value, path[1..], val);
        LeavesOfReplaced(t.fields, k, Set(t.fields[k].value, path[1..], val).tree);
      }
    }
  }

  lemma {:induction false} NoLeavesYet(next: Tok)
    ensures Leaves(Container(next)) == []
  {
  }
}
