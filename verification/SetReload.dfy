/** A printed set of states loads as the same set exactly when the ids of its states differ. */
module SetReload {
  import opened Wrappers
  import opened CfgTree
  import opened CfgPath
  import opened CfgDump
  import opened CfgText
  import opened DesiredTree
  import opened DesiredSet
  import opened DesiredReload
  import opened StateIds
  import N = NetState

  /** Prints the states, and loads what was printed. */
  function Reloaded(states: seq<N.Desired>): Result<seq<N.Desired>> {
    var text :- PrintSet(states, 0);
    var tree :- LoadText(EMPTY, text);
    LoadSet(tree)
  }

  lemma {:induction false} DistinctReload(states: seq<N.Desired>, ids: seq<string>)
    requires AllOk(states) && 0 < |states| <= N.STATE_MAX && |ids| == |states| && DistinctIds(ids)
    requires forall i :: 0 <= i < |ids| ==> ShortKey(ids[i])
    ensures LoadText(EMPTY, PrintStates(states, ids)) == Ok(SetTree(states, ids))
    ensures LoadSet(SetTree(states, ids)) == Ok(states)
  {
    hide LoadText, PrintStates, Leaves, Printable, StateOk, ShortKey, LoadStates, StateFields;
    SetPrintable(states, ids);
    SetText(states, ids);
    PrintableReloads(SetTree(states, ids));
    StatesLoad(states, ids, 0);
    OneChild("state", Obj(StateFields(states, ids)));
  }

  lemma {:induction false} OneChild(name: string, t: Tree)
    ensures Child(Obj([Field(name, t)]), name) == Some(t)
    ensures forall other :: other != name ==> Child(Obj([Field(name, t)]), other).None?
  {
  }

  // What is printed for states whose ids do not differ.

  lemma {:induction false} FittingLines(t: Tree, leaves: seq<Leaf>)
    requires LeavesOk(leaves) && LinesFit(leaves)
    ensures LoadText(t, Lines([], leaves)) == Load(t, leaves)
    decreases |leaves|
  {
    hide LoadLine, Line, LeafOk, Show;
    if leaves != [] {
      var leaf := leaves[0];
      assert [] + leaf.path == leaf.path;
      ShowChars(leaf.path);
      LineShape(Show(leaf.path), leaf.val);
      NextLine(t, Line(Show(leaf.path), leaf.val), Lines([], leaves[1..]));
      LoadDumpedLine(t, leaf.path, leaf.val);
      FitSplit(leaves);
      FittingLines(Set(t, leaf.path, leaf.val).tree, leaves[1..]);
    }
  }

  /** A string of a state that is printed under one of the ids. */
  predicate Filed(leaf: Leaf, ids: seq<string>) {
    && |leaf.path| >= 2 && leaf.path[0] == Key("state") && leaf.path[1].Key? && leaf.path[1].name in ids
    && LeafOk(leaf.path, DEPTH_MAX) && |Line(Show(leaf.path), leaf.val)| <= LINE_MAX
  }

  lemma {:induction false} LeafIsFiled(leaf: Leaf, id: string, ids: seq<string>)
    requires id in ids && ShortKey(id) && LeafOk(leaf.path, 6) && SmallLeaf(leaf, 6)
    ensures Filed(Leaf([Key("state")] + ([Key(id)] + leaf.path), leaf.val), ids)
  {
    hide PlainKey, Line, Show;
    StateKeys();
    PlainKeyIsShort("state");
    var inner := [Key(id)] + leaf.path;
    var path := [Key("state")] + inner;
    LeafUnder(id, leaf.path, 6);
    LeafUnder("state", inner, 7);
    assert forall i :: 2 <= i < |path| ==> path[i] == leaf.path[i - 2];
    assert path[0] == Key("state") && path[1] == Key(id);
    SmallLineFits(Leaf(path, leaf.val));
  }

  lemma {:induction false} StateIsFiled(ds: N.Desired, id: string, ids: seq<string>)
    requires id in ids && ShortKey(id) && StateOk(ds)
    ensures forall i :: 0 <= i < |Leaves(StateTree(ds))| ==>
              Filed(Under("state", Under(id, Leaves(StateTree(ds))))[i], ids)
  {
    hide Leaves, StateTree, Tidy, Fits, Strings, Filed, ShortKey, Printable, LeafOk, SmallLeaf;
    StatePrintable(ds);
    PrintableIsStored(StateTree(ds), 6);
    StoredLeaves(StateTree(ds), 6);
    SmallLeaves(StateTree(ds), 6);
    forall i | 0 <= i < |Leaves(StateTree(ds))|
      ensures Filed(Under("state", Under(id, Leaves(StateTree(ds))))[i], ids)
    {
      LeafIsFiled(Leaves(StateTree(ds))[i], id, ids);
    }
  }

  lemma {:induction false} StatesAreFiled(states: seq<N.Desired>, ids: seq<string>, all: seq<string>)
    requires |ids| == |states| && AllOk(states) && forall i :: 0 <= i < |ids| ==> ShortKey(ids[i]) && ids[i] in all
    ensures forall i :: 0 <= i < |FieldLeaves(StateFields(states, ids))| ==>
              Filed(Under("state", FieldLeaves(StateFields(states, ids)))[i], all)
    decreases |states|
  {
    hide Leaves, StateTree, StateOk, Filed, ShortKey;
    if states != [] {
      var fields, rest := StateFields(states, ids), StateFields(states[1..], ids[1..]);
      assert fields[1..] == rest;
      StateIsFiled(states[0], ids[0], all);
      StatesAreFiled(states[1..], ids[1..], all);
      var mine, more := Under(ids[0], Leaves(StateTree(states[0]))), FieldLeaves(rest);
      forall i | 0 <= i < |FieldLeaves(fields)|
        ensures Filed(Under("state", FieldLeaves(fields))[i], all)
      {
        assert FieldLeaves(fields) == mine + more;
        if i < |mine| {
          assert Under("state", FieldLeaves(fields))[i] == Under("state", mine)[i];
        } else {
          assert Under("state", FieldLeaves(fields))[i] == Under("state", more)[i - |mine|];
        }
      }
    }
  }

  /** Fields that are named by some of the ids, each once. */
  predicate NamedBy(fields: seq<Field>, ids: seq<string>) {
    NamesDistinct(fields) && forall i :: 0 <= i < |fields| ==> fields[i].name in ids
  }

  predicate StatesNamedBy(t: Tree, ids: seq<string>) {
    t.Obj? && var c := Child(t, "state"); c.Some? && c.value.Obj? ==> NamedBy(c.value.fields, ids)
  }

  lemma {:induction false} SetNames(t: Tree, path: seq<Tok>, val: string, ids: seq<string>)
    requires t.Obj? && path != [] && path[0].Key? && path[0].name in ids && NamedBy(t.fields, ids)
    ensures Set(t, path, val).tree.Obj? && NamedBy(Set(t, path, val).tree.fields, ids)
  {
    hide Container, SameKind;
    var k, u := Find(t.fields, path[0].name), Set(t, path, val).tree;
    if k < |t.fields| {
      assert u == t || (u.Obj? && exists x :: u.fields == t.fields[k := Field(path[0].name, x)]);
    } else {
      assert u.Obj? && exists x :: u.fields == t.fields + [Field(path[0].name, x)];
    }
  }

  lemma {:induction false} SetStatesNamed(t: Tree, path: seq<Tok>, val: string, ids: seq<string>)
    requires |path| >= 2 && path[0] == Key("state") && path[1].Key? && path[1].name in ids && StatesNamedBy(t, ids)
    ensures StatesNamedBy(Set(t, path, val).tree, ids)
  {
    hide NamedBy;
    var k, want := Find(t.fields, "state"), Container(path[1]);
    assert want == EMPTY;
    EmptyNamed(ids);
    if k == |t.fields| {
      SetNames(want, path[1..], val, ids);
    } else if SameKind(t.fields[k].value, want) {
      SetNames(t.fields[k].value, path[1..], val, ids);
      FindReplaced(t.fields, k, Field("state", Set(t.fields[k].value, path[1..], val).tree), "state");
    }
  }

  lemma {:induction false} EmptyNamed(ids: seq<string>)
    ensures NamedBy([], ids)
  {
  }

  lemma {:induction false} LoadStatesNamed(t: Tree, leaves: seq<Leaf>, ids: seq<string>)
    requires StatesNamedBy(t, ids) && forall i :: 0 <= i < |leaves| ==> Filed(leaves[i], ids)
    ensures Load(t, leaves).Ok? ==> StatesNamedBy(Load(t, leaves).value, ids)
    decreases |leaves|
  {
    hide StatesNamedBy, LeafOk, Line, Show, Set;
    if leaves != [] {
      SetStatesNamed(t, leaves[0].path, leaves[0].val, ids);
      LoadStatesNamed(Set(t, leaves[0].path, leaves[0].val).tree, leaves[1..], ids);
    }
  }

  lemma {:induction false} AtMostAsMany(fields: seq<Field>, ids: seq<string>)
    requires NamedBy(fields, ids)
    ensures |fields| <= |ids|
    decreases |ids|
  {
    if fields != [] {
      assert fields[0].name in ids;
      var id, others := ids[|ids| - 1], ids[..|ids| - 1];
      var k := Find(fields, id);
      if k < |fields| {
        var rest := Without(fields, k);
        forall i | 0 <= i < |rest|
          ensures rest[i].name in others
        {
          assert rest[i] == fields[if i < k then i else i + 1];
        }
        AtMostAsMany(rest, others);
      } else {
        AtMostAsMany(fields, others);
      }
    }
  }

  lemma {:induction false} FewerThanIds(fields: seq<Field>, ids: seq<string>)
    requires NamedBy(fields, ids) && !DistinctIds(ids)
    ensures |fields| < |ids|
  {
    var i, j :| 0 <= i < j < |ids| && ids[i] == ids[j];
    var others := Without(ids, j);
    forall k | 0 <= k < |fields|
      ensures fields[k].name in others
    {
      var m :| 0 <= m < |ids| && ids[m] == fields[k].name;
      assert others[if m == j then i else if m < j then m else m - 1] == fields[k].name;
    }
    AtMostAsMany(fields, others);
  }

  lemma {:induction false} LoadStatesCount(fields: seq<Field>, n: nat)
    ensures LoadStates(fields, n).Ok? ==> |LoadStates(fields, n).value| == |fields|
    decreases |fields|
  {
    hide LoadState;
    if fields != [] {
      LoadStatesCount(fields[1..], n + 1);
    }
  }

  /** Fewer states are loaded than were printed. */
  lemma {:induction false} CollidingReload(states: seq<N.Desired>, ids: seq<string>)
    requires AllOk(states) && |ids| == |states| && !DistinctIds(ids)
    requires forall i :: 0 <= i < |ids| ==> ShortKey(ids[i])
    ensures var t := LoadText(EMPTY, PrintStates(states, ids));
            t.Ok? && LoadSet(t.value).Ok? ==> |LoadSet(t.value).value| < |states|
  {
    hide LoadText, PrintStates, LoadState, StateOk, ShortKey, LoadStates, StateFields, Lines, Load, LeafOk, Show, Line;
    var t := Obj(StateFields(states, ids));
    var leaves := Leaves(SetTree(states, ids));
    SetText(states, ids);
    LeavesOfOne("state", t);
    StatesAreFiled(states, ids, ids);
    FittingLines(EMPTY, leaves);
    LoadStatesNamed(EMPTY, leaves, ids);
    var r := Load(EMPTY, leaves);
    if r.Ok? {
      var c := Child(r.value, "state");
      if c.Some? && c.value.Obj? {
        FewerThanIds(c.value.fields, ids);
        LoadStatesCount(c.value.fields, 0);
      }
    }
  }

  /**
   * For a set of states that have the fields of their scenarios and address modes, what is printed
   * loads as the same states in the same order if and only if their ids differ.
   */
  lemma {:induction false} SetReloads(states: seq<N.Desired>)
    requires AllOk(states) && |states| <= N.STATE_MAX
    ensures Ids(states, 0).Err? ==> Reloaded(states) == Err(Ids(states, 0).error)
    ensures states == [] ==> Reloaded(states) == Err(EINVAL)
    ensures states != [] && Ids(states, 0).Ok? ==>
              (Reloaded(states) == Ok(states) <==> DistinctIds(Ids(states, 0).value))
    ensures Ids(states, 0).Ok? && !DistinctIds(Ids(states, 0).value) && Reloaded(states).Ok? ==>
              |Reloaded(states).value| < |states|
  {
    hide LoadText, StateOk, PrintStates, LoadSet, DistinctIds, SetTree, Ids, PrintSet, ShortKey;
    PrintIsStates(states, 0);
    IdsAreKeys(states, 0);
    EmptySet();
    var r := Ids(states, 0);
    if r.Ok? && states != [] {
      if DistinctIds(r.value) {
        DistinctReload(states, r.value);
      } else {
        CollidingReload(states, r.value);
      }
    }
  }

  lemma {:induction false} EmptySet()
    ensures PrintSet([], 0) == Ok("") && LoadText(EMPTY, "") == Ok(EMPTY) && LoadSet(EMPTY) == Err(EINVAL)
  {
  }
}
