/**
 The dumper's traversal of a node graph as a function: a worklist of nodes still to visit and
 collections still to close.  The recursive walks of `dumper.c` are proved to perform it.
 */
module Traversal {
  import opened Wrappers
  import opened NodeGraph
  import opened Numerals
  import opened YamlEvents

  datatype Work = Visit(id: nat) | Close(event: Event)

  /** The rendering of an anchor id by the template `id%03d`. */
  function AnchorName(id: nat): string {
    "id" + (if id < 10 then "00" else if id < 100 then "0" else "") + Decimal(id)
  }

  /** Reads an anchor name back, whatever its padding. */
  lemma {:induction false} ValueOfAnchorName(id: nat)
    ensures Digits(AnchorName(id)[2..]) && Value(AnchorName(id)[2..]) == id
  {
    ValueOfDecimal(id);
    ValueSkipsZero(Decimal(id));
    ValueSkipsZero("0" + Decimal(id));
    assert AnchorName(id)[2..] ==
           if id < 10 then "0" + ("0" + Decimal(id)) else if id < 100 then "0" + Decimal(id) else Decimal(id);
  }

  /** Distinct anchor ids have distinct names, although the padding is not of fixed width. */
  lemma {:induction false} AnchorNameInjective(a: nat, b: nat)
    requires AnchorName(a) == AnchorName(b)
    ensures a == b
  {
    ValueOfAnchorName(a);
    ValueOfAnchorName(b);
  }

  function Visits(ids: seq<nat>): (work: seq<Work>)
    ensures |work| == |ids|
    ensures forall k :: 0 <= k < |ids| ==> work[k] == Visit(ids[k])
  {
    seq(|ids|, k requires 0 <= k < |ids| => Visit(ids[k]))
  }

  lemma {:induction false} VisitsSplit(ids: seq<nat>, k: nat, rest: seq<Work>)
    requires k < |ids|
    ensures Visits(ids[k..]) + rest == [Visit(ids[k])] + (Visits(ids[k + 1..]) + rest)
  {
  }

  lemma {:induction false} PairSplit(pairs: seq<Pair>, k: nat, rest: seq<Work>)
    requires k < |pairs|
    ensures |Flatten(pairs)| == 2 * |pairs|
    ensures Visits(Flatten(pairs)[2 * k..]) + rest ==
            [Visit(pairs[k].key)] + ([Visit(pairs[k].value)] + (Visits(Flatten(pairs)[2 * k + 2..]) + rest))
  {
    FlattenAt(pairs, k);
    VisitsSplit(Flatten(pairs), 2 * k, rest);
    VisitsSplit(Flatten(pairs), 2 * k + 1, rest);
  }

  /** What a node expands to when it is visited for the first time. */
  function Expand(node: Node): seq<Work> {
    match node
    case ScalarNode(_, _, _) => []
    case SequenceNode(_, items, _) => Visits(items) + [Close(SequenceEnd)]
    case MappingNode(_, pairs, _) => Visits(Flatten(pairs)) + [Close(MappingEnd)]
  }

  function AnchorOf(anchor: nat): Option<string> {
    if anchor == 0 then None else Some(AnchorName(anchor))
  }

  /** The event that carries a node in full. */
  function Announce(node: Node, anchor: Option<string>): Event {
    match node
    case ScalarNode(tag, value, style) =>
      Scalar(anchor, Some(tag), value, tag == DEFAULT_SCALAR_TAG, tag == DEFAULT_SCALAR_TAG, style)
    case SequenceNode(tag, _, style) =>
      SequenceStart(anchor, Some(tag), tag == DEFAULT_SEQUENCE_TAG, style)
    case MappingNode(tag, _, style) =>
      MappingStart(anchor, Some(tag), tag == DEFAULT_MAPPING_TAG, style)
  }

  /** A point of the traversal: the nodes already serialized, and the work left. */
  datatype Point = Point(seen: set<nat>, work: seq<Work>)

  ghost predicate Ok(g: Graph, p: Point) {
    && WellFormed(g)
    && forall k :: 0 <= k < |p.work| && p.work[k].Visit? ==> 1 <= p.work[k].id <= |g|
  }

  ghost function Unseen(n: nat, seen: set<nat>): nat {
    if n == 0 then 0 else Unseen(n - 1, seen) + (if n in seen then 0 else 1)
  }

  lemma {:induction false} FewerUnseen(n: nat, seen: set<nat>, i: nat)
    requires i !in seen
    ensures Unseen(n, seen + {i}) == Unseen(n, seen) - (if 1 <= i <= n then 1 else 0)
  {
    if n > 0 {
      FewerUnseen(n - 1, seen, i);
    }
  }

  ghost predicate FirstVisit(p: Point) {
    p.work != [] && p.work[0].Visit? && p.work[0].id !in p.seen
  }

  /** One step of the traversal. */
  ghost function Next(g: Graph, p: Point): (q: Point)
    requires Ok(g, p) && p.work != []
    ensures Ok(g, q)
    ensures Unseen(|g|, q.seen) < Unseen(|g|, p.seen) || (q.seen == p.seen && |q.work| < |p.work|)
  {
    if FirstVisit(p) then
      var i := p.work[0].id;
      FewerUnseen(|g|, p.seen, i);
      assert InRange(g, Children(g[i - 1]));
      Point(p.seen + {i}, Expand(g[i - 1]) + p.work[1..])
    else
      Point(p.seen, p.work[1..])
  }

  /** The event of one step. */
  ghost function StepEvent(g: Graph, names: seq<Option<string>>, p: Point): Event
    requires Ok(g, p) && p.work != [] && |names| == |g|
  {
    match p.work[0]
    case Close(event) => event
    case Visit(i) =>
      if i !in p.seen then Announce(g[i - 1], names[i - 1])
      else Alias(if names[i - 1].Some? then names[i - 1].value else "")
  }

  /** The events of the traversal from `p` on. */
  ghost function Emit(g: Graph, names: seq<Option<string>>, p: Point): seq<Event>
    requires Ok(g, p) && |names| == |g|
    decreases Unseen(|g|, p.seen), |p.work|
  {
    if p.work == [] then [] else [StepEvent(g, names, p)] + Emit(g, names, Next(g, p))
  }

  /** How often each node is met, by an edge or as the root, from `p` on. */
  ghost function Calls(g: Graph, p: Point): multiset<nat>
    requires Ok(g, p)
    decreases Unseen(|g|, p.seen), |p.work|
  {
    if p.work == [] then multiset{}
    else (if p.work[0].Visit? then multiset{p.work[0].id} else multiset{}) + Calls(g, Next(g, p))
  }

  /** The nodes serialized in full from `p` on, in order. */
  ghost function Order(g: Graph, p: Point): seq<nat>
    requires Ok(g, p)
    decreases Unseen(|g|, p.seen), |p.work|
  {
    if p.work == [] then []
    else (if FirstVisit(p) then [p.work[0].id] else []) + Order(g, Next(g, p))
  }

  const START := Point({}, [Visit(1)])

  /** Exactly the nodes met more than once carry an anchor, and no two share one. */
  ghost predicate NamesOk(g: Graph, names: seq<Option<string>>)
    requires WellFormed(g) && |g| > 0
  {
    && |names| == |g|
    && (forall i :: 1 <= i <= |g| ==> (names[i - 1].Some? <==> Calls(g, START)[i] >= 2))
    && DistinctNames(names)
  }

  ghost predicate DistinctNames(names: seq<Option<string>>) {
    forall i, j :: 0 <= i < j < |names| && names[i].Some? ==> names[i] != names[j]
  }

  /** A node met again later, or met before and now again, has an anchor. */
  ghost predicate Covered(g: Graph, names: seq<Option<string>>, p: Point)
    requires Ok(g, p)
  {
    && |names| == |g|
    && forall i :: 1 <= i <= |g| && (if i in p.seen then 1 else 0) + Calls(g, p)[i] >= 2 ==> names[i - 1].Some?
  }

  lemma {:induction false} NamesCover(g: Graph, names: seq<Option<string>>)
    requires Ok(g, START) && |g| > 0 && NamesOk(g, names)
    ensures Covered(g, names, START)
  {
  }

  lemma {:induction false} CoveredStep(g: Graph, names: seq<Option<string>>, p: Point)
    requires Ok(g, p) && p.work != [] && Covered(g, names, p)
    ensures Covered(g, names, Next(g, p))
    ensures p.work[0].Visit? && p.work[0].id in p.seen ==> names[p.work[0].id - 1].Some?
  {
    var q := Next(g, p);
    assert Calls(g, p) == (if p.work[0].Visit? then multiset{p.work[0].id} else multiset{}) + Calls(g, q);
  }

  /** Everything the traversal serializes is in range, new, and listed once. */
  lemma {:induction false} OrderIsFresh(g: Graph, p: Point)
    requires Ok(g, p)
    ensures InRange(g, Order(g, p))
    ensures forall i :: i in Order(g, p) ==> i !in p.seen
    ensures forall j, k :: 0 <= j < k < |Order(g, p)| ==> Order(g, p)[j] != Order(g, p)[k]
    decreases Unseen(|g|, p.seen), |p.work|
  {
    if p.work != [] {
      OrderIsFresh(g, Next(g, p));
    }
  }

  ghost predicate FromRoot(g: Graph, p: Point) {
    && (forall i :: i in p.seen ==> Reachable(g, 1, i))
    && (forall k :: 0 <= k < |p.work| && p.work[k].Visit? ==> Reachable(g, 1, p.work[k].id))
  }

  lemma {:induction false} FromRootStep(g: Graph, p: Point)
    requires Ok(g, p) && p.work != [] && FromRoot(g, p)
    ensures FromRoot(g, Next(g, p))
  {
    if FirstVisit(p) {
      var i := p.work[0].id;
      var expanded := Expand(g[i - 1]);
      var next := Next(g, p);
      forall k | 0 <= k < |next.work| && next.work[k].Visit?
        ensures Reachable(g, 1, next.work[k].id)
      {
        if k < |expanded| {
          assert next.work[k].id == Children(g[i - 1])[k];
          ReachableStep(g, 1, i, next.work[k].id);
        } else {
          assert next.work[k] == p.work[k - |expanded| + 1];
        }
      }
    }
  }

  lemma {:induction false} OrderIsReachable(g: Graph, p: Point)
    requires Ok(g, p) && FromRoot(g, p)
    ensures forall i :: i in Order(g, p) ==> Reachable(g, 1, i)
    decreases Unseen(|g|, p.seen), |p.work|
  {
    if p.work != [] {
      FromRootStep(g, p);
      OrderIsReachable(g, Next(g, p));
    }
  }
}

/** The recursive walks of `dumper.c`, over a table of per-node bookkeeping updated in place. */
module Dumper {
  import opened Wrappers
  import opened YamlEvents
  import opened NodeGraph
  import opened Traversal

  /** `yaml_anchors_t` */
  datatype Anchors = Anchors(references: nat, anchor: nat, serialized: bool)

  ghost function Referenced(table: seq<Anchors>): set<nat> {
    set k | 0 <= k < |table| && table[k].references > 0 :: k + 1
  }

  ghost function Serialized(table: seq<Anchors>): set<nat> {
    set k | 0 <= k < |table| && table[k].serialized :: k + 1
  }

  ghost function Names(table: seq<Anchors>): seq<Option<string>> {
    seq(|table|, k requires 0 <= k < |table| => AnchorOf(table[k].anchor))
  }

  /** Anchor ids are handed out at the second reference, each once. */
  ghost predicate TableOk(table: seq<Anchors>, last: nat) {
    && (forall k :: 0 <= k < |table| ==> (table[k].anchor != 0 <==> table[k].references >= 2))
    && (forall k :: 0 <= k < |table| ==> table[k].anchor <= last)
    && (forall j, k :: 0 <= j < k < |table| && table[j].anchor != 0 ==> table[j].anchor != table[k].anchor)
  }

  lemma {:induction false} UnseenMonotone(n: nat, a: set<nat>, b: set<nat>)
    requires a <= b
    ensures Unseen(n, b) <= Unseen(n, a)
  {
    if n > 0 {
      UnseenMonotone(n - 1, a, b);
    }
  }

  /** References counted so far plus references still to be met. */
  ghost function Tally(g: Graph, table: seq<Anchors>, work: seq<Work>, i: nat): nat
    requires |table| == |g| && 1 <= i <= |g|
    requires Ok(g, Point(Referenced(table), work))
  {
    table[i - 1].references + Calls(g, Point(Referenced(table), work))[i]
  }

  ghost predicate Carries(g: Graph, table: seq<Anchors>, work: seq<Work>, table': seq<Anchors>, work': seq<Work>) {
    && |table| == |table'| == |g|
    && Ok(g, Point(Referenced(table), work))
    && Ok(g, Point(Referenced(table'), work'))
    && Referenced(table) <= Referenced(table')
    && (forall i :: 1 <= i <= |g| ==> Tally(g, table, work, i) == Tally(g, table', work', i))
  }

  lemma {:induction false} ReferencedOne(table: seq<Anchors>, index: nat, entry: Anchors)
    requires 1 <= index <= |table| && entry.references > 0
    ensures Referenced(table[index - 1 := entry]) == Referenced(table) + {index}
    ensures table[index - 1].references > 0 ==> Referenced(table) + {index} == Referenced(table)
  {
    var table' := table[index - 1 := entry];
    assert table'[index - 1].references > 0;
    forall i
      ensures i in Referenced(table') <==> i in Referenced(table) + {index}
    {
      if i in Referenced(table) { assert table'[i - 1].references > 0; }
      if i in Referenced(table') && i != index { assert table[i - 1].references > 0; }
    }
  }

  /** The point of the traversal after a node is met. */
  lemma {:induction false} AfterCounting(g: Graph, table: seq<Anchors>, index: nat, entry: Anchors, rest: seq<Work>)
    requires |table| == |g| && Ok(g, Point(Referenced(table), [Visit(index)] + rest))
    requires 1 <= index <= |g| && entry.references == table[index - 1].references + 1
    ensures var p := Point(Referenced(table), [Visit(index)] + rest);
            var q := Point(Referenced(table[index - 1 := entry]),
                           if table[index - 1].references == 0 then Expand(g[index - 1]) + rest else rest);
            Next(g, p) == q && Calls(g, p) == multiset{index} + Calls(g, q)
  {
    hide Referenced, WellFormed, Unseen, Expand;
    var p := Point(Referenced(table), [Visit(index)] + rest);
    assert p.work[0] == Visit(index) && p.work[1..] == rest;
    ReferencedThere(table, index);
    ReferencedOne(table, index, entry);
    assert Next(g, p).work == if table[index - 1].references == 0 then Expand(g[index - 1]) + rest else rest;
    CallsFirst(g, p);
  }

  lemma {:induction false} ReferencedThere(table: seq<Anchors>, index: nat)
    requires 1 <= index <= |table|
    ensures index in Referenced(table) <==> table[index - 1].references > 0
  {
  }

  lemma {:induction false} CallsFirst(g: Graph, p: Point)
    requires Ok(g, p) && p.work != []
    ensures Calls(g, p) == (if p.work[0].Visit? then multiset{p.work[0].id} else multiset{}) + Calls(g, Next(g, p))
  {
    hide Next, Ok;
  }

  /** Meeting a node adds one to its count and moves the traversal on by one step. */
  lemma {:induction false} CountOne(g: Graph, table: seq<Anchors>, index: nat, entry: Anchors, rest: seq<Work>)
    requires |table| == |g| && Ok(g, Point(Referenced(table), [Visit(index)] + rest))
    requires 1 <= index <= |g| && entry.references == table[index - 1].references + 1
    ensures Carries(g, table, [Visit(index)] + rest, table[index - 1 := entry],
                    if table[index - 1].references == 0 then Expand(g[index - 1]) + rest else rest)
  {
    AfterCounting(g, table, index, entry, rest);
    ReferencedOne(table, index, entry);
    hide Referenced, Calls, Expand, WellFormed;
  }

  lemma {:induction false} CloseOne(g: Graph, table: seq<Anchors>, end: Event, rest: seq<Work>)
    requires |table| == |g| && Ok(g, Point(Referenced(table), [Close(end)] + rest))
    ensures Carries(g, table, [Close(end)] + rest, table, rest)
  {
    var p := Point(Referenced(table), [Close(end)] + rest);
    assert Next(g, p) == Point(p.seen, rest);
    assert Calls(g, p) == Calls(g, Next(g, p));
  }

  /** Events written so far plus events still to come. */
  ghost predicate Dumps(g: Graph, names: seq<Option<string>>, done: seq<Event>, p: Point, done': seq<Event>, q: Point) {
    && |names| == |g|
    && Ok(g, p) && Covered(g, names, p)
    && Ok(g, q) && Covered(g, names, q)
    && done + Emit(g, names, p) == done' + Emit(g, names, q)
    && p.seen <= q.seen
  }

  lemma {:induction false} AllDumped(g: Graph, names: seq<Option<string>>, done: seq<Event>, done': seq<Event>,
                                     seen: set<nat>)
    requires Dumps(g, names, done, START, done', Point(seen, []))
    ensures Ok(g, START) && Covered(g, names, START) && |names| == |g| && done' == done + Emit(g, names, START)
  {
    hide Covered, WellFormed;
    assert Emit(g, names, Point(seen, [])) == [];
  }

  lemma {:induction false} DumpsOne(g: Graph, names: seq<Option<string>>, done: seq<Event>, p: Point)
    requires |names| == |g| && Ok(g, p) && Covered(g, names, p) && p.work != []
    ensures Dumps(g, names, done, p, done + [StepEvent(g, names, p)], Next(g, p))
    ensures p.work[0].Visit? && p.work[0].id in p.seen ==> names[p.work[0].id - 1].Some?
  {
    CoveredStep(g, names, p);
    assert done + Emit(g, names, p) == done + ([StepEvent(g, names, p)] + Emit(g, names, Next(g, p)));
  }

  lemma {:induction false} DumpsTransitive(g: Graph, names: seq<Option<string>>, d0: seq<Event>, p0: Point,
                                           d1: seq<Event>, p1: Point,
                        d2: seq<Event>, p2: Point)
    requires Dumps(g, names, d0, p0, d1, p1) && Dumps(g, names, d1, p1, d2, p2)
    ensures Dumps(g, names, d0, p0, d2, p2)
  {
  }

  lemma {:induction false} MarkSerialized(table: seq<Anchors>, index: nat)
    requires 1 <= index <= |table|
    ensures Serialized(table[index - 1 := table[index - 1].(serialized := true)]) == Serialized(table) + {index}
    ensures Names(table[index - 1 := table[index - 1].(serialized := true)]) == Names(table)
  {
    var table' := table[index - 1 := table[index - 1].(serialized := true)];
    assert table'[index - 1].serialized;
    forall i ensures i in Serialized(table') <==> i in Serialized(table) + {index} {
      if i in Serialized(table) { assert table'[i - 1].serialized; }
      if i in Serialized(table') && i != index { assert table[i - 1].serialized; }
    }
  }

  /** Meeting a node: an alias if it is serialized already, and otherwise the node in full. */
  lemma {:induction false} MeetStep(g: Graph, table: seq<Anchors>, index: nat, rest: seq<Work>)
    requires |table| == |g| && 1 <= index <= |g|
    requires Ok(g, Point(Serialized(table), [Visit(index)] + rest))
    ensures var p := Point(Serialized(table), [Visit(index)] + rest);
            && p.work[0] == Visit(index)
            && (table[index - 1].serialized <==> index in p.seen)
            && if table[index - 1].serialized then
                 && Next(g, p) == Point(p.seen, rest)
                 && StepEvent(g, Names(table), p).Alias?
                 && (table[index - 1].anchor != 0 ==>
                       StepEvent(g, Names(table), p) == Alias(AnchorName(table[index - 1].anchor)))
               else
                 && Unseen(|g|, p.seen + {index}) < Unseen(|g|, p.seen)
                 && Next(g, p) == Point(p.seen + {index}, Expand(g[index - 1]) + rest)
                 && StepEvent(g, Names(table), p) == Announce(g[index - 1], AnchorOf(table[index - 1].anchor))
  {
    var p := Point(Serialized(table), [Visit(index)] + rest);
    assert p.work[0] == Visit(index) && p.work[1..] == rest;
    assert index in Serialized(table) <==> table[index - 1].serialized;
    assert Names(table)[index - 1] == AnchorOf(table[index - 1].anchor);
    hide Serialized, Names, Announce, Expand, WellFormed, Unseen, AnchorName;
    if index !in p.seen {
      FewerUnseen(|g|, p.seen, index);
    }
  }

  lemma {:induction false} NamesAt(table: seq<Anchors>)
    ensures |Names(table)| == |table|
    ensures forall k :: 0 <= k < |table| ==> Names(table)[k] == AnchorOf(table[k].anchor)
  {
  }

  /** What is emitted when a node is met, and what is then left to do. */
  lemma {:induction false} Meet(g: Graph, table: seq<Anchors>, index: nat, rest: seq<Work>, done: seq<Event>)
    requires |table| == |g| && 1 <= index <= |g|
    requires Ok(g, Point(Serialized(table), [Visit(index)] + rest))
    requires |Names(table)| == |g| && Covered(g, Names(table), Point(Serialized(table), [Visit(index)] + rest))
    ensures var p := Point(Serialized(table), [Visit(index)] + rest);
            if table[index - 1].serialized then
              && table[index - 1].anchor != 0
              && Dumps(g, Names(table), done, p, done + [Alias(AnchorName(table[index - 1].anchor))],
                       Point(p.seen, rest))
            else
              && Unseen(|g|, p.seen + {index}) < Unseen(|g|, p.seen)
              && Dumps(g, Names(table), done, p, done + [Announce(g[index - 1], AnchorOf(table[index - 1].anchor))],
                       Point(p.seen + {index}, Expand(g[index - 1]) + rest))
  {
    hide Covered, Emit, Calls, WellFormed, Unseen, Next, StepEvent, FirstVisit, Serialized, Names, Dumps, Expand;
    MeetStep(g, table, index, rest);
    NamesAt(table);
    DumpsOne(g, Names(table), done, Point(Serialized(table), [Visit(index)] + rest));
  }

  /** Counting from scratch gives an anchor to exactly the nodes met more than once. */
  lemma {:induction false} NamesAssigned(g: Graph, table: seq<Anchors>, table': seq<Anchors>, last: nat)
    requires WellFormed(g) && |g| > 0 && Carries(g, table, [Visit(1)] + [], table', []) && TableOk(table', last)
    requires forall k :: 0 <= k < |g| ==> table[k] == Anchors(0, 0, false)
    ensures Ok(g, START) && NamesOk(g, Names(table'))
  {
    hide AnchorName;
    assert Referenced(table) == {};
    assert [Visit(1)] + [] == START.work;
    forall i | 1 <= i <= |g|
      ensures table'[i - 1].references == Calls(g, START)[i]
    {
      assert Tally(g, table, [Visit(1)] + [], i) == Tally(g, table', [], i);
    }
    forall i, j | 0 <= i < j < |g| && Names(table')[i].Some?
      ensures Names(table')[i] != Names(table')[j]
    {
      if Names(table')[i] == Names(table')[j] {
        AnchorNameInjective(table'[i].anchor, table'[j].anchor);
      }
    }
  }

  lemma {:induction false} LessToVisit(g: Graph, table: seq<Anchors>, index: nat, entry: Anchors)
    requires |table| == |g| && 1 <= index <= |g| && table[index - 1].references == 0 && entry.references > 0
    ensures Unseen(|g|, Referenced(table[index - 1 := entry])) < Unseen(|g|, Referenced(table))
  {
    ReferencedOne(table, index, entry);
    assert index !in Referenced(table);
    FewerUnseen(|g|, Referenced(table), index);
  }

  /** The table stays in order when a count goes up, given an anchor at the second reference. */
  lemma {:induction false} TableCounted(table: seq<Anchors>, last: nat, index: nat, entry: Anchors)
    requires TableOk(table, last) && 1 <= index <= |table|
    requires entry.references == table[index - 1].references + 1 && entry.serialized == table[index - 1].serialized
    requires entry.anchor == if entry.references == 2 then last + 1 else table[index - 1].anchor
    ensures TableOk(table[index - 1 := entry], if entry.references == 2 then last + 1 else last)
  {
  }

  class GraphDumper {
    const document: Graph
    var anchors: array<Anchors>
    var lastAnchorId: nat
    var events: seq<Event>
    var begun: bool
    var ended: bool

    constructor (document: Graph)
      ensures this.document == document && events == [] && lastAnchorId == 0 && !begun && !ended
      ensures fresh(anchors) && anchors.Length == |document|
      ensures forall k :: 0 <= k < |document| ==> anchors[k] == Anchors(0, 0, false)
    {
      this.document := document;
      anchors := new Anchors[|document|](_ => Anchors(0, 0, false));
      lastAnchorId := 0;
      events := [];
      begun, ended := false, false;
    }

    ghost predicate Valid()
      reads this, anchors
    {
      && WellFormed(document)
      && anchors.Length == |document|
      && TableOk(anchors[..], lastAnchorId)
    }

    /** `yaml_emitter_anchor_node`: counts the references to everything reachable from `index`. */
    method AnchorNode(index: nat, ghost rest: seq<Work>)
      requires Valid() && Ok(document, Point(Referenced(anchors[..]), [Visit(index)] + rest))
      modifies `lastAnchorId, anchors
      ensures Valid()
      ensures Carries(document, old(anchors[..]), [Visit(index)] + rest, anchors[..], rest)
      ensures forall k :: 0 <= k < anchors.Length ==> anchors[k].serialized == old(anchors[k].serialized)
      decreases Unseen(|document|, Referenced(anchors[..])), 0
    {
      ghost var table := anchors[..];
      assert ([Visit(index)] + rest)[0] == Visit(index);
      var node := document[index - 1];
      var entry := anchors[index - 1].(references := anchors[index - 1].references + 1);
      anchors[index - 1] := entry;
      assert anchors[..] == table[index - 1 := entry];
      if entry.references == 1 {
        TableCounted(table, lastAnchorId, index, entry);
        CountOne(document, table, index, entry, rest);
        LessToVisit(document, table, index, entry);
        hide TableOk, Referenced, Calls, Tally, WellFormed, Unseen;
        AnchorChildren(node, rest);
      } else if entry.references == 2 {
        lastAnchorId := lastAnchorId + 1;
        anchors[index - 1] := entry.(anchor := lastAnchorId);
        assert anchors[..] == table[index - 1 := entry.(anchor := lastAnchorId)];
        TableCounted(table, lastAnchorId - 1, index, entry.(anchor := lastAnchorId));
        CountOne(document, table, index, entry.(anchor := lastAnchorId), rest);
      } else {
        TableCounted(table, lastAnchorId, index, entry);
        CountOne(document, table, index, entry, rest);
      }
    }

    /** The switch on the kind of a node met for the first time. */
    method AnchorChildren(node: Node, ghost rest: seq<Work>)
      requires Valid() && Ok(document, Point(Referenced(anchors[..]), Expand(node) + rest))
      modifies `lastAnchorId, anchors
      ensures Valid()
      ensures Carries(document, old(anchors[..]), Expand(node) + rest, anchors[..], rest)
      ensures forall k :: 0 <= k < anchors.Length ==> anchors[k].serialized == old(anchors[k].serialized)
      decreases Unseen(|document|, Referenced(anchors[..])), 2
    {
      hide TableOk, Referenced, Tally, WellFormed, Unseen;
      match node {
        case SequenceNode(_, items, _) =>
          assert Expand(node) + rest == Visits(items) + ([Close(SequenceEnd)] + rest);
          AnchorItems(items, [Close(SequenceEnd)] + rest);
          CloseOne(document, anchors[..], SequenceEnd, rest);
        case MappingNode(_, pairs, _) =>
          assert Expand(node) + rest == Visits(Flatten(pairs)) + ([Close(MappingEnd)] + rest);
          AnchorPairs(pairs, [Close(MappingEnd)] + rest);
          CloseOne(document, anchors[..], MappingEnd, rest);
        case ScalarNode(_, _, _) =>
          assert Expand(node) + rest == rest;
      }
    }

    /** The loop over the items of a sequence. */
    method AnchorItems(items: seq<nat>, ghost rest: seq<Work>)
      requires Valid() && Ok(document, Point(Referenced(anchors[..]), Visits(items) + rest))
      modifies `lastAnchorId, anchors
      ensures Valid()
      ensures Carries(document, old(anchors[..]), Visits(items) + rest, anchors[..], rest)
      ensures forall k :: 0 <= k < anchors.Length ==> anchors[k].serialized == old(anchors[k].serialized)
      decreases Unseen(|document|, Referenced(anchors[..])), 1
    {
      ghost var table := anchors[..];
      assert items[0..] == items;
      for k := 0 to |items|
        invariant Valid()
        invariant Carries(document, table, Visits(items) + rest, anchors[..], Visits(items[k..]) + rest)
        invariant forall k :: 0 <= k < anchors.Length ==> anchors[k].serialized == old(anchors[k].serialized)
      {
        VisitsSplit(items, k, rest);
        UnseenMonotone(|document|, Referenced(table), Referenced(anchors[..]));
        AnchorNode(items[k], Visits(items[k + 1..]) + rest);
      }
      assert Visits(items[|items|..]) + rest == rest;
    }

    /** The loop over the pairs of a mapping. */
    method AnchorPairs(pairs: seq<Pair>, ghost rest: seq<Work>)
      requires Valid() && Ok(document, Point(Referenced(anchors[..]), Visits(Flatten(pairs)) + rest))
      modifies `lastAnchorId, anchors
      ensures Valid()
      ensures Carries(document, old(anchors[..]), Visits(Flatten(pairs)) + rest, anchors[..], rest)
      ensures forall k :: 0 <= k < anchors.Length ==> anchors[k].serialized == old(anchors[k].serialized)
      decreases Unseen(|document|, Referenced(anchors[..])), 1
    {
      ghost var table := anchors[..];
      ghost var ids := Flatten(pairs);
      assert ids[0..] == ids;
      FlattenAt(pairs, 0);
      for k := 0 to |pairs|
        invariant Valid()
        invariant Carries(document, table, Visits(ids) + rest, anchors[..], Visits(ids[2 * k..]) + rest)
        invariant forall k :: 0 <= k < anchors.Length ==> anchors[k].serialized == old(anchors[k].serialized)
      {
        FlattenAt(pairs, k);
        VisitsSplit(ids, 2 * k, rest);
        UnseenMonotone(|document|, Referenced(table), Referenced(anchors[..]));
        AnchorNode(pairs[k].key, Visits(ids[2 * k + 1..]) + rest);
        VisitsSplit(ids, 2 * k + 1, rest);
        UnseenMonotone(|document|, Referenced(table), Referenced(anchors[..]));
        AnchorNode(pairs[k].value, Visits(ids[2 * k + 2..]) + rest);
      }
      assert Visits(ids[2 * |pairs|..]) + rest == rest;
    }

    /** `yaml_emitter_dump_node`; `yaml_emitter_emit` is the append to `events`. */
    method DumpNode(index: nat, ghost rest: seq<Work>)
      requires anchors.Length == |document|
      requires Ok(document, Point(Serialized(anchors[..]), [Visit(index)] + rest))
      requires Covered(document, Names(anchors[..]), Point(Serialized(anchors[..]), [Visit(index)] + rest))
      modifies `events, anchors
      ensures Names(anchors[..]) == Names(old(anchors[..]))
      ensures Dumps(document, Names(anchors[..]),
                    old(events), Point(Serialized(old(anchors[..])), [Visit(index)] + rest),
                    events, Point(Serialized(anchors[..]), rest))
      decreases Unseen(|document|, Serialized(anchors[..])), 0
    {
      hide Covered, Emit, Calls, WellFormed, Unseen, Next, StepEvent, FirstVisit, Serialized, Names;
      ghost var table := anchors[..];
      ghost var p := Point(Serialized(table), [Visit(index)] + rest);
      assert p.work[0] == Visit(index);
      NamesAt(table);
      Meet(document, table, index, rest, events);

      var node := document[index - 1];
      var anchorId := anchors[index - 1].anchor;
      var anchor := None;
      if anchorId != 0 {
        anchor := Some(AnchorName(anchorId));
      }
      if anchors[index - 1].serialized {
        events := events + [Alias(anchor.value)];
        return;
      }
      anchors[index - 1] := anchors[index - 1].(serialized := true);
      assert anchors[..] == table[index - 1 := table[index - 1].(serialized := true)];
      MarkSerialized(table, index);
      ghost var q := Point(Serialized(anchors[..]), Expand(node) + rest);
      match node {
        case ScalarNode(_, _, _) =>
          DumpScalar(node, anchor);
          assert Expand(node) + rest == rest;
        case SequenceNode(_, _, _) =>
          DumpSequence(node, anchor, rest);
        case MappingNode(_, _, _) =>
          DumpMapping(node, anchor, rest);
      }
      DumpsTransitive(document, Names(table), old(events), p,
                      old(events) + [Announce(node, anchor)], q, events, Point(Serialized(anchors[..]), rest));
    }

    /** `yaml_emitter_dump_scalar` */
    method DumpScalar(node: Node, anchor: Option<string>)
      requires node.ScalarNode?
      modifies `events
      ensures events == old(events) + [Announce(node, anchor)]
    {
      var plainImplicit := node.tag == DEFAULT_SCALAR_TAG;
      var quotedImplicit := node.tag == DEFAULT_SCALAR_TAG;
      events := events + [Scalar(anchor, Some(node.tag), node.value, plainImplicit, quotedImplicit, node.style)];
    }

    /** `yaml_emitter_dump_sequence` */
    method DumpSequence(node: Node, anchor: Option<string>, ghost rest: seq<Work>)
      requires node.SequenceNode? && anchors.Length == |document|
      requires Ok(document, Point(Serialized(anchors[..]), Expand(node) + rest))
      requires Covered(document, Names(anchors[..]), Point(Serialized(anchors[..]), Expand(node) + rest))
      modifies `events, anchors
      ensures Names(anchors[..]) == Names(old(anchors[..]))
      ensures Dumps(document, Names(anchors[..]),
                    old(events) + [Announce(node, anchor)], Point(Serialized(old(anchors[..])), Expand(node) + rest),
                    events, Point(Serialized(anchors[..]), rest))
      decreases Unseen(|document|, Serialized(anchors[..])), 1
    {
      ghost var names := Names(anchors[..]);
      ghost var work := [Close(SequenceEnd)] + rest;
      assert Expand(node) + rest == Visits(node.items) + work;
      ghost var p := Point(Serialized(anchors[..]), Visits(node.items) + work);
      events := events + [SequenceStart(anchor, Some(node.tag), node.tag == DEFAULT_SEQUENCE_TAG, node.style)];
      ghost var first := events;
      assert node.items[0..] == node.items;
      for k := 0 to |node.items|
        invariant anchors.Length == |document| && Names(anchors[..]) == names
        invariant Dumps(document, names, first, p, events,
                        Point(Serialized(anchors[..]), Visits(node.items[k..]) + work))
      {
        VisitsSplit(node.items, k, work);
        UnseenMonotone(|document|, p.seen, Serialized(anchors[..]));
        DumpNode(node.items[k], Visits(node.items[k + 1..]) + work);
      }
      assert Visits(node.items[|node.items|..]) + work == work;
      ghost var q := Point(Serialized(anchors[..]), work);
      assert Next(document, q) == Point(q.seen, rest);
      DumpsOne(document, names, events, q);
      events := events + [SequenceEnd];
    }

    /** `yaml_emitter_dump_mapping` */
    method DumpMapping(node: Node, anchor: Option<string>, ghost rest: seq<Work>)
      requires node.MappingNode? && anchors.Length == |document|
      requires Ok(document, Point(Serialized(anchors[..]), Expand(node) + rest))
      requires Covered(document, Names(anchors[..]), Point(Serialized(anchors[..]), Expand(node) + rest))
      modifies `events, anchors
      ensures Names(anchors[..]) == Names(old(anchors[..]))
      ensures Dumps(document, Names(anchors[..]),
                    old(events) + [Announce(node, anchor)], Point(Serialized(old(anchors[..])), Expand(node) + rest),
                    events, Point(Serialized(anchors[..]), rest))
      decreases Unseen(|document|, Serialized(anchors[..])), 3
    {
      ghost var names := Names(anchors[..]);
      ghost var work := [Close(MappingEnd)] + rest;
      assert Expand(node) + rest == Visits(Flatten(node.pairs)) + work;
      events := events + [MappingStart(anchor, Some(node.tag), node.tag == DEFAULT_MAPPING_TAG, node.style)];
      DumpPairs(node.pairs, work);
      ghost var q := Point(Serialized(anchors[..]), work);
      assert Next(document, q) == Point(q.seen, rest);
      DumpsOne(document, names, events, q);
      events := events + [MappingEnd];
    }

    /** The loop over the pairs of a mapping. */
    method DumpPairs(pairs: seq<Pair>, ghost work: seq<Work>)
      requires anchors.Length == |document|
      requires Ok(document, Point(Serialized(anchors[..]), Visits(Flatten(pairs)) + work))
      requires Covered(document, Names(anchors[..]), Point(Serialized(anchors[..]), Visits(Flatten(pairs)) + work))
      modifies `events, anchors
      ensures Names(anchors[..]) == Names(old(anchors[..]))
      ensures Dumps(document, Names(anchors[..]),
                    old(events), Point(Serialized(old(anchors[..])), Visits(Flatten(pairs)) + work),
                    events, Point(Serialized(anchors[..]), work))
      decreases Unseen(|document|, Serialized(anchors[..])), 2
    {
      hide Covered, Emit, Serialized, Names, WellFormed, Unseen, Calls;
      ghost var names := Names(anchors[..]);
      NamesAt(anchors[..]);
      ghost var kids := Flatten(pairs);
      ghost var p := Point(Serialized(anchors[..]), Visits(kids) + work);
      assert kids[0..] == kids;
      FlattenAt(pairs, 0);
      for k := 0 to |pairs|
        invariant anchors.Length == |document| && Names(anchors[..]) == names
        invariant Dumps(document, names, old(events), p, events,
                        Point(Serialized(anchors[..]), Visits(kids[2 * k..]) + work))
      {
        PairSplit(pairs, k, work);
        UnseenMonotone(|document|, p.seen, Serialized(anchors[..]));
        DumpPair(pairs[k], Visits(kids[2 * k + 2..]) + work);
      }
      assert Visits(kids[2 * |pairs|..]) + work == work;
    }

    /** One turn of that loop: the key, then the value. */
    method DumpPair(pair: Pair, ghost rest: seq<Work>)
      requires anchors.Length == |document|
      requires Ok(document, Point(Serialized(anchors[..]), [Visit(pair.key)] + ([Visit(pair.value)] + rest)))
      requires Covered(document, Names(anchors[..]),
                       Point(Serialized(anchors[..]), [Visit(pair.key)] + ([Visit(pair.value)] + rest)))
      modifies `events, anchors
      ensures Names(anchors[..]) == Names(old(anchors[..]))
      ensures Dumps(document, Names(anchors[..]),
                    old(events), Point(Serialized(old(anchors[..])), [Visit(pair.key)] + ([Visit(pair.value)] + rest)),
                    events, Point(Serialized(anchors[..]), rest))
      decreases Unseen(|document|, Serialized(anchors[..])), 1
    {
      hide Covered, Emit, Serialized, Names, WellFormed, Unseen, Calls;
      ghost var seen := Serialized(anchors[..]);
      DumpNode(pair.key, [Visit(pair.value)] + rest);
      UnseenMonotone(|document|, seen, Serialized(anchors[..]));
      DumpNode(pair.value, rest);
    }

    /** The call of `yaml_emitter_anchor_node` on the root, over a cleared table. */
    method AssignAnchors()
      requires WellFormed(document) && |document| > 0 && anchors.Length == |document| && lastAnchorId == 0
      requires forall k :: 0 <= k < |document| ==> anchors[k] == Anchors(0, 0, false)
      modifies `lastAnchorId, anchors
      ensures NamesOk(document, Names(anchors[..])) && Serialized(anchors[..]) == {}
    {
      assert Referenced(anchors[..]) == {};
      assert [Visit(1)] + [] == START.work;
      AnchorNode(1, []);
      NamesAssigned(document, old(anchors[..]), anchors[..], lastAnchorId);
    }

    /** `yaml_emitter_open` */
    method OpenStream()
      requires !begun
      modifies `begun, `events
      ensures begun && events == old(events) + [StreamStart]
    {
      events := events + [StreamStart];
      begun := true;
    }

    /** `yaml_emitter_close` */
    method CloseStream()
      requires begun
      modifies `ended, `events
      ensures ended && events == old(events) + if old(ended) then [] else [StreamEnd]
    {
      if !ended {
        events := events + [StreamEnd];
      }
      ended := true;
    }

    /** `yaml_emitter_dump`: a document without nodes ends the stream; `start` tells of its directives. */
    method Dump(start: Event, endImplicit: bool)
      requires start.DocumentStart?
      requires WellFormed(document) && anchors.Length == |document| && lastAnchorId == 0
      requires forall k :: 0 <= k < |document| ==> anchors[k] == Anchors(0, 0, false)
      modifies this, anchors
      ensures begun && ended == (old(ended) || |document| == 0)
      ensures anchors.Length == |document|
      ensures |document| > 0 ==> NamesOk(document, Names(anchors[..])) && Ok(document, START)
      ensures var begin := if old(begun) then [] else [StreamStart];
              events == old(events) + begin +
                        if |document| == 0 then (if old(ended) then [] else [StreamEnd])
                        else [start] + Emit(document, Names(anchors[..]), START) + [DocumentEnd(endImplicit)]
    {
      hide NamesOk, WellFormed, Emit, Names;
      if !begun {
        OpenStream();
      }
      if |document| == 0 {
        CloseStream();
        return;
      }
      DumpDocument(start, endImplicit);
    }

    /** Its part for a document that has nodes. */
    method DumpDocument(start: Event, endImplicit: bool)
      requires WellFormed(document) && |document| > 0 && anchors.Length == |document| && lastAnchorId == 0
      requires forall k :: 0 <= k < |document| ==> anchors[k] == Anchors(0, 0, false)
      modifies `lastAnchorId, `events, anchors
      ensures anchors.Length == |document| && NamesOk(document, Names(anchors[..]))
      ensures Ok(document, START)
      ensures events == old(events) + ([start] + Emit(document, Names(anchors[..]), START)
                                       + [DocumentEnd(endImplicit)])
    {
      hide NamesOk, Covered, WellFormed, Calls, Unseen, Names, StepEvent, Emit, Dumps;
      events := events + [start];
      AssignAnchors();
      assert Ok(document, START);
      NamesCover(document, Names(anchors[..]));
      ghost var names, before := Names(anchors[..]), events;
      assert [Visit(1)] + [] == START.work;
      DumpNode(1, []);
      AllDumped(document, names, before, events, Serialized(anchors[..]));
      events := events + [DocumentEnd(endImplicit)];
    }
  }
}
