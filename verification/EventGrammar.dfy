/**
 The language of event streams,

   stream ::= STREAM-START (DOCUMENT-START node DOCUMENT-END)* STREAM-END
   node   ::= ALIAS | SCALAR | SEQUENCE-START node* SEQUENCE-END | MAPPING-START (node node)* MAPPING-END

 as a pushdown acceptor and, independently, as the serialization of trees.
 */
module EventGrammar {
  import opened Wrappers
  import opened YamlEvents

  /** An open collection, and for a mapping whether a key or a value comes next. */
  datatype Frame = InSequence | AtKey | AtValue

  /** A point of the stream; `open` lists the open collections, innermost last. */
  datatype Pos = AtStart | BetweenDocuments | AtRoot | Inside(open: seq<Frame>) | RootDone | AtEnd

  ghost predicate PosOk(p: Pos) {
    p.Inside? ==> p.open != []
  }

  predicate IsLeaf(e: Event) {
    e.Alias? || e.Scalar?
  }

  predicate Opens(e: Event) {
    e.SequenceStart? || e.MappingStart?
  }

  /** A node has just been completed inside the innermost collection. */
  function Advance(f: Frame): Frame {
    match f
    case InSequence => InSequence
    case AtKey => AtValue
    case AtValue => AtKey
  }

  function Top(open: seq<Frame>): Frame
    requires open != []
  {
    open[|open| - 1]
  }

  predicate ExpectsNode(p: Pos) {
    p.AtRoot? || p.Inside?
  }

  /** The collections open around a node that starts at `p`, once that node is complete. */
  function Around(p: Pos): seq<Frame>
    requires PosOk(p)
  {
    if p.Inside? then p.open[..|p.open| - 1] + [Advance(Top(p.open))] else []
  }

  function Outside(open: seq<Frame>): Pos {
    if open == [] then RootDone else Inside(open)
  }

  /** Where the stream is once a node that starts at `p` is complete. */
  function AfterNode(p: Pos): (q: Pos)
    requires PosOk(p)
    ensures PosOk(q) && (p.Inside? ==> q.Inside?)
  {
    Outside(Around(p))
  }

  function FirstFrame(e: Event): Frame {
    if e.SequenceStart? then InSequence else AtKey
  }

  /** One step of the acceptor. */
  function Accept(p: Pos, e: Event): (r: Option<Pos>)
    requires PosOk(p)
    ensures r.Some? ==> PosOk(r.value)
  {
    match e
    case StreamStart => if p.AtStart? then Some(BetweenDocuments) else None
    case StreamEnd => if p.BetweenDocuments? then Some(AtEnd) else None
    case DocumentStart(_, _, _) => if p.BetweenDocuments? then Some(AtRoot) else None
    case DocumentEnd(_) => if p.RootDone? then Some(BetweenDocuments) else None
    case SequenceEnd =>
      if p.Inside? && Top(p.open) == InSequence then Some(Outside(p.open[..|p.open| - 1])) else None
    case MappingEnd =>
      if p.Inside? && Top(p.open) == AtKey then Some(Outside(p.open[..|p.open| - 1])) else None
    case Alias(_) => Whole(p)
    case Scalar(_, _, _, _, _, _) => Whole(p)
    case SequenceStart(_, _, _, _) => Enter(p, InSequence)
    case MappingStart(_, _, _, _) => Enter(p, AtKey)
  }

  function Whole(p: Pos): (r: Option<Pos>)
    requires PosOk(p)
    ensures r.Some? ==> PosOk(r.value)
  {
    if ExpectsNode(p) then Some(AfterNode(p)) else None
  }

  function Enter(p: Pos, f: Frame): (r: Option<Pos>)
    requires PosOk(p)
    ensures r.Some? ==> PosOk(r.value)
  {
    if ExpectsNode(p) then Some(Inside(Around(p) + [f])) else None
  }

  function Run(p: Pos, events: seq<Event>): (r: Option<Pos>)
    requires PosOk(p)
    ensures r.Some? ==> PosOk(r.value)
    decreases |events|
  {
    if events == [] then Some(p)
    else
      var next := Accept(p, events[0]);
      if next == None then None else Run(next.value, events[1..])
  }

  lemma {:induction false} RunCons(p: Pos, e: Event, events: seq<Event>)
    requires PosOk(p)
    ensures Run(p, [e] + events) == if Accept(p, e).Some? then Run(Accept(p, e).value, events) else None
  {
    assert ([e] + events)[1..] == events;
  }

  lemma {:induction false} RunNothing(p: Pos)
    requires PosOk(p)
    ensures Run(p, []) == Some(p)
  {
  }

  lemma {:induction false} RunOne(p: Pos, e: Event)
    requires PosOk(p)
    ensures Run(p, [e]) == Accept(p, e)
  {
    assert [e][1..] == [];
  }

  lemma {:induction false} RunConcat(p: Pos, a: seq<Event>, b: seq<Event>)
    requires PosOk(p)
    ensures Run(p, a + b) == if Run(p, a).Some? then Run(Run(p, a).value, b) else None
    decreases |a|
  {
    if a == [] {
      assert a + b == b;
    } else {
      assert (a + b)[1..] == a[1..] + b;
      var next := Accept(p, a[0]);
      if next.Some? {
        RunConcat(next.value, a[1..], b);
      }
    }
  }

  /** A node as a tree. */
  datatype Tree = Leaf(event: Event) | Branch(start: Event, children: seq<Tree>)

  predicate Even(n: nat) {
    if n == 0 then true else !Even(n - 1)
  }

  ghost predicate IsTree(t: Tree) {
    match t
    case Leaf(e) => IsLeaf(e)
    case Branch(e, children) =>
      && Opens(e)
      && (e.MappingStart? ==> Even(|children|))
      && forall k :: 0 <= k < |children| ==> IsTree(children[k])
  }

  function EndEvent(start: Event): Event {
    if start.SequenceStart? then SequenceEnd else MappingEnd
  }

  function TreeEvents(t: Tree): seq<Event>
    decreases t, 0
  {
    match t
    case Leaf(e) => [e]
    case Branch(e, children) => [e] + ForestEvents(children) + [EndEvent(e)]
  }

  function ForestEvents(ts: seq<Tree>): seq<Event>
    decreases ts, 1
  {
    if ts == [] then [] else TreeEvents(ts[0]) + ForestEvents(ts[1..])
  }

  datatype Document =
    Document(version: Option<Version>, directives: seq<TagDirective>, startImplicit: bool, root: Tree,
             endImplicit: bool)

  function DocumentEvents(d: Document): seq<Event> {
    [DocumentStart(d.version, d.directives, d.startImplicit)] + TreeEvents(d.root) + [DocumentEnd(d.endImplicit)]
  }

  function DocumentsEvents(ds: seq<Document>): seq<Event> {
    if ds == [] then [] else DocumentEvents(ds[0]) + DocumentsEvents(ds[1..])
  }

  /** The reference definition of a complete stream. */
  ghost predicate IsStream(events: seq<Event>) {
    exists ds: seq<Document> :: Serializes(ds, events)
  }

  ghost predicate Serializes(ds: seq<Document>, events: seq<Event>) {
    && (forall k :: 0 <= k < |ds| ==> IsTree(ds[k].root))
    && events == [StreamStart] + DocumentsEvents(ds) + [StreamEnd]
  }

  // Every serialized stream is accepted.

  function AdvanceBy(p: Pos, n: nat): (q: Pos)
    requires PosOk(p)
    ensures PosOk(q)
    decreases n
  {
    if n == 0 then p else AdvanceBy(AfterNode(p), n - 1)
  }

  lemma {:induction false} AcceptTree(p: Pos, t: Tree)
    requires PosOk(p) && ExpectsNode(p) && IsTree(t)
    ensures Run(p, TreeEvents(t)) == Some(AfterNode(p))
    decreases t, 0
  {
    hide Run, AdvanceBy, Even, ForestEvents;
    match t
    case Leaf(e) =>
      RunOne(p, e);
    case Branch(e, children) =>
      hide AfterNode, Around;
      AcceptForest(Inside(Around(p) + [FirstFrame(e)]), children);
      AcceptBranch(p, e, ForestEvents(children), |children|);
      Associate([e], ForestEvents(children), [EndEvent(e)]);
  }

  lemma {:induction false} EndAccepted(open: seq<Frame>, e: Event, n: nat)
    requires Opens(e) && (e.MappingStart? ==> Even(n))
    ensures Accept(AdvanceBy(Inside(open + [FirstFrame(e)]), n), EndEvent(e)) == Some(Outside(open))
  {
    AdvanceInside(open, FirstFrame(e), n);
    hide AdvanceBy;
    assert (open + [FirstFrame(e)])[..|open|] == open;
  }

  /** A collection, given that its children are accepted. */
  lemma {:induction false} AcceptBranch(p: Pos, e: Event, middle: seq<Event>, n: nat)
    requires PosOk(p) && ExpectsNode(p) && Opens(e) && (e.MappingStart? ==> Even(n))
    requires var q := Inside(Around(p) + [FirstFrame(e)]); Run(q, middle) == Some(AdvanceBy(q, n))
    ensures Run(p, [e] + (middle + [EndEvent(e)])) == Some(AfterNode(p))
  {
    var q := Inside(Around(p) + [FirstFrame(e)]);
    assert Accept(p, e) == Some(q);
    assert AfterNode(p) == Outside(Around(p));
    EndAccepted(Around(p), e, n);
    hide AfterNode, AdvanceBy, Run, Accept, Around, Outside;
    RunOne(AdvanceBy(q, n), EndEvent(e));
    RunConcat(q, middle, [EndEvent(e)]);
    RunCons(p, e, middle + [EndEvent(e)]);
  }

  lemma {:induction false} AcceptForest(p: Pos, ts: seq<Tree>)
    requires PosOk(p) && p.Inside? && forall k :: 0 <= k < |ts| ==> IsTree(ts[k])
    ensures Run(p, ForestEvents(ts)) == Some(AdvanceBy(p, |ts|))
    decreases ts, 1
  {
    hide Run, IsTree, AfterNode, TreeEvents;
    if ts == [] {
      RunNothing(p);
    } else {
      AcceptTree(p, ts[0]);
      AcceptForest(AfterNode(p), ts[1..]);
      RunConcat(p, TreeEvents(ts[0]), ForestEvents(ts[1..]));
    }
  }

  lemma {:induction false} AdvanceInside(open: seq<Frame>, f: Frame, n: nat)
    ensures AdvanceBy(Inside(open + [f]), n) ==
            Inside(open + [if Even(n) then f else Advance(f)])
    decreases n
  {
    if n > 0 {
      assert (open + [f])[..|open + [f]| - 1] == open;
      AdvanceInside(open, Advance(f), n - 1);
    }
  }

  lemma {:induction false} AcceptDocuments(ds: seq<Document>)
    requires forall k :: 0 <= k < |ds| ==> IsTree(ds[k].root)
    ensures Run(BetweenDocuments, DocumentsEvents(ds)) == Some(BetweenDocuments)
  {
    if ds != [] {
      var d := ds[0];
      AcceptDocuments(ds[1..]);
      RunConcat(BetweenDocuments, DocumentEvents(d), DocumentsEvents(ds[1..]));
      assert DocumentEvents(d)[1..] == TreeEvents(d.root) + [DocumentEnd(d.endImplicit)];
      AcceptTree(AtRoot, d.root);
      RunConcat(AtRoot, TreeEvents(d.root), [DocumentEnd(d.endImplicit)]);
      assert [DocumentEnd(d.endImplicit)][1..] == [];
    }
  }

  // Every accepted stream is the serialization of trees.

  /** A run that gets to the end of the stream from where a node is expected starts with one. */
  lemma {:induction false} SplitNode(p: Pos, events: seq<Event>) returns (t: Tree, rest: seq<Event>)
    requires PosOk(p) && ExpectsNode(p) && Run(p, events) == Some(AtEnd)
    requires events != [] && (IsLeaf(events[0]) || Opens(events[0]))
    ensures IsTree(t) && events == TreeEvents(t) + rest && |rest| < |events|
    ensures Run(AfterNode(p), rest) == Some(AtEnd)
    decreases |events|, 0
  {
    hide Run, TreeEvents, ForestEvents, Accept;
    var e := events[0];
    FirstStep(p, events);
    if IsLeaf(e) {
      t, rest := Leaf(e), events[1..];
    } else {
      var children: seq<Tree>;
      children, rest := SplitForest(Around(p), FirstFrame(e), events[1..]);
      t := Branch(e, children);
      BranchEvents(e, children, rest);
      assert events == [e] + events[1..];
    }
  }

  lemma {:induction false} FirstStep(p: Pos, events: seq<Event>)
    requires PosOk(p) && ExpectsNode(p) && Run(p, events) == Some(AtEnd)
    requires events != [] && (IsLeaf(events[0]) || Opens(events[0]))
    ensures IsLeaf(events[0]) ==> Run(AfterNode(p), events[1..]) == Some(AtEnd)
    ensures IsLeaf(events[0]) ==> TreeEvents(Leaf(events[0])) + events[1..] == events
    ensures Opens(events[0]) ==> Run(Inside(Around(p) + [FirstFrame(events[0])]), events[1..]) == Some(AtEnd)
  {
  }

  lemma {:induction false} BranchEvents(e: Event, children: seq<Tree>, rest: seq<Event>)
    ensures TreeEvents(Branch(e, children)) + rest == [e] + (ForestEvents(children) + ([EndEvent(e)] + rest))
  {
    hide ForestEvents;
  }

  /** Inside a collection: its remaining children, and then the event that closes it. */
  lemma {:induction false} SplitForest(open: seq<Frame>, f: Frame, events: seq<Event>) returns (ts: seq<Tree>,
          rest: seq<Event>)
    requires Run(Inside(open + [f]), events) == Some(AtEnd)
    ensures forall k :: 0 <= k < |ts| ==> IsTree(ts[k])
    ensures f != InSequence ==> (Even(|ts|) <==> f == AtKey)
    ensures events == ForestEvents(ts) + ([if f == InSequence then SequenceEnd else MappingEnd] + rest)
    ensures |rest| < |events| && Run(Outside(open), rest) == Some(AtEnd)
    decreases |events|, 1
  {
    hide IsTree, TreeEvents;
    var p := Inside(open + [f]);
    var e := events[0];
    AcceptedInside(open, f, e);
    hide Accept, AfterNode, Outside, IsLeaf, Opens;
    if e.SequenceEnd? || e.MappingEnd? {
      ts, rest := [], events[1..];
      assert events == [] + ([e] + rest);
    } else {
      var t, middle := SplitNode(p, events);
      var tail;
      tail, rest := SplitForest(open, Advance(f), middle);
      ts := [t] + tail;
      assert ts[1..] == tail;
      assert ForestEvents(ts) == TreeEvents(t) + ForestEvents(tail);
      hide ForestEvents, Run;
      Associate(TreeEvents(t), ForestEvents(tail), [if f == InSequence then SequenceEnd else MappingEnd] + rest);
    }
  }

  lemma {:induction false} Associate<T>(a: seq<T>, b: seq<T>, c: seq<T>)
    ensures a + (b + c) == (a + b) + c
  {
  }

  lemma {:induction false} AcceptedInside(open: seq<Frame>, f: Frame, e: Event)
    requires Accept(Inside(open + [f]), e).Some?
    ensures e.SequenceEnd? || e.MappingEnd? || IsLeaf(e) || Opens(e)
    ensures e.SequenceEnd? || e.MappingEnd? ==>
              && e == (if f == InSequence then SequenceEnd else MappingEnd)
              && f != AtValue
              && Accept(Inside(open + [f]), e) == Some(Outside(open))
    ensures AfterNode(Inside(open + [f])) == Inside(open + [Advance(f)])
  {
    assert (open + [f])[..|open|] == open;
  }

  /** Between documents, the stream ends or a document starts; past a root, its document ends. */
  lemma {:induction false} BetweenOnly(events: seq<Event>)
    requires Run(BetweenDocuments, events) == Some(AtEnd)
    ensures events != [] && (events[0].StreamEnd? || events[0].DocumentStart?)
    ensures events[0].StreamEnd? ==> events == [StreamEnd]
    ensures events[0].DocumentStart? ==> Run(AtRoot, events[1..]) == Some(AtEnd)
  {
    if events[0].StreamEnd? {
      EndIsLast(events[1..]);
    }
  }

  lemma {:induction false} NodeFirst(events: seq<Event>)
    requires Run(AtRoot, events) == Some(AtEnd)
    ensures events != [] && (IsLeaf(events[0]) || Opens(events[0]))
  {
  }

  lemma {:induction false} RootOnly(events: seq<Event>)
    requires Run(RootDone, events) == Some(AtEnd)
    ensures events != [] && events[0].DocumentEnd? && Run(BetweenDocuments, events[1..]) == Some(AtEnd)
  {
  }

  lemma {:induction false} SplitDocuments(events: seq<Event>) returns (ds: seq<Document>)
    requires Run(BetweenDocuments, events) == Some(AtEnd)
    ensures forall k :: 0 <= k < |ds| ==> IsTree(ds[k].root)
    ensures events == DocumentsEvents(ds) + [StreamEnd]
    decreases |events|
  {
    hide Run, TreeEvents, IsTree, DocumentEvents, IsLeaf, Opens;
    BetweenOnly(events);
    var e := events[0];
    if e.StreamEnd? {
      ds := [];
    } else {
      NodeFirst(events[1..]);
      var root, rest := SplitNode(AtRoot, events[1..]);
      RootOnly(rest);
      var tail := SplitDocuments(rest[1..]);
      var d := Document(e.version, e.directives, e.implicit, root, rest[0].implicit);
      ds := [d] + tail;
      JoinDocument(events, d, tail, rest);
    }
  }

  lemma {:induction false} JoinDocument(events: seq<Event>, d: Document, tail: seq<Document>, rest: seq<Event>)
    requires events != [] && rest != [] && events[1..] == TreeEvents(d.root) + rest
    requires events[0] == DocumentStart(d.version, d.directives, d.startImplicit)
    requires rest[0] == DocumentEnd(d.endImplicit)
    requires rest[1..] == DocumentsEvents(tail) + [StreamEnd]
    ensures events == DocumentsEvents([d] + tail) + [StreamEnd]
  {
    hide TreeEvents;
    assert ([d] + tail)[1..] == tail;
    assert DocumentsEvents([d] + tail) == DocumentEvents(d) + DocumentsEvents(tail);
    hide DocumentsEvents;
    Joined(events, TreeEvents(d.root), rest, DocumentsEvents(tail), [StreamEnd]);
  }

  lemma {:induction false} Joined<T>(all: seq<T>, a: seq<T>, rest: seq<T>, b: seq<T>, c: seq<T>)
    requires all != [] && rest != [] && all[1..] == a + rest && rest[1..] == b + c
    ensures all == [all[0]] + a + [rest[0]] + b + c
  {
    assert rest == [rest[0]] + (b + c);
    assert all == [all[0]] + (a + rest);
  }

  /** Nothing is accepted after STREAM-END. */
  lemma {:induction false} EndIsLast(events: seq<Event>)
    requires Run(AtEnd, events).Some?
    ensures events == []
  {
  }

  /** The acceptor accepts exactly the serialized streams. */
  lemma {:induction false} AcceptedIffStream(events: seq<Event>)
    ensures Run(AtStart, events) == Some(AtEnd) <==> IsStream(events)
  {
    if Run(AtStart, events) == Some(AtEnd) {
      var ds := SplitDocuments(events[1..]);
      assert events == [StreamStart] + events[1..];
      assert Serializes(ds, events);
    }
    if IsStream(events) {
      var ds :| Serializes(ds, events);
      AcceptDocuments(ds);
      RunConcat(BetweenDocuments, DocumentsEvents(ds), [StreamEnd]);
      RunOne(BetweenDocuments, StreamEnd);
      RunCons(AtStart, StreamStart, DocumentsEvents(ds) + [StreamEnd]);
      assert events == [StreamStart] + (DocumentsEvents(ds) + [StreamEnd]);
    }
  }

  // Every accepted prefix can be completed.

  /** Events that bring any point of a stream to its end. */
  function Completion(p: Pos): seq<Event>
    requires PosOk(p)
    decreases match p case AtStart => 1 case BetweenDocuments => 0 case AtRoot => 1 case Inside(open) => |open| + 1
                      case RootDone => 1 case AtEnd => 0
  {
    match p
    case AtStart => [StreamStart, StreamEnd]
    case BetweenDocuments => [StreamEnd]
    case AtRoot => [Alias("x"), DocumentEnd(true), StreamEnd]
    case Inside(open) =>
      (match Top(open)
       case InSequence => [SequenceEnd]
       case AtKey => [MappingEnd]
       case AtValue => [Alias("x"), MappingEnd]) +
      (if |open| == 1 then [DocumentEnd(true), StreamEnd] else Completion(Inside(open[..|open| - 1])))
    case RootDone => [DocumentEnd(true), StreamEnd]
    case AtEnd => []
  }

  lemma {:induction false} CompletionAccepted(p: Pos)
    requires PosOk(p)
    ensures Run(p, Completion(p)) == Some(AtEnd)
    decreases if p.Inside? then |p.open| + 1 else if p.AtRoot? then 1 else 0
  {
    hide Run, Accept;
    match p {
      case Inside(open) =>
        var below := open[..|open| - 1];
        assert open == below + [Top(open)];
        CloseInnermost(below, Top(open));
        var rest := if |open| == 1 then [DocumentEnd(true), StreamEnd] else Completion(Inside(below));
        if |open| == 1 {
          CompletionOutside();
        } else {
          CompletionAccepted(Inside(below));
        }
        var closing := match Top(open)
                       case InSequence => [SequenceEnd] case AtKey => [MappingEnd] case AtValue => [Alias("x"),
                               MappingEnd];
        RunConcat(p, closing, rest);
      case _ =>
        CompletionOutside();
    }
  }

  lemma {:induction false} CompletionOutside()
    ensures Run(AtStart, [StreamStart, StreamEnd]) == Some(AtEnd)
    ensures Run(BetweenDocuments, [StreamEnd]) == Some(AtEnd)
    ensures Run(RootDone, [DocumentEnd(true), StreamEnd]) == Some(AtEnd)
    ensures Run(AtRoot, [Alias("x"), DocumentEnd(true), StreamEnd]) == Some(AtEnd)
    ensures Run(AtEnd, []) == Some(AtEnd)
  {
    RunOne(BetweenDocuments, StreamEnd);
    RunCons(RootDone, DocumentEnd(true), [StreamEnd]);
    RunCons(AtStart, StreamStart, [StreamEnd]);
    RunCons(AtRoot, Alias("x"), [DocumentEnd(true), StreamEnd]);
    assert [StreamStart, StreamEnd] == [StreamStart] + [StreamEnd];
    assert [DocumentEnd(true), StreamEnd] == [DocumentEnd(true)] + [StreamEnd];
    assert [Alias("x"), DocumentEnd(true), StreamEnd] == [Alias("x")] + [DocumentEnd(true), StreamEnd];
  }

  lemma {:induction false} CloseInnermost(below: seq<Frame>, f: Frame)
    ensures f == InSequence ==> Run(Inside(below + [f]), [SequenceEnd]) == Some(Outside(below))
    ensures f == AtKey ==> Run(Inside(below + [f]), [MappingEnd]) == Some(Outside(below))
    ensures f == AtValue ==> Run(Inside(below + [f]), [Alias("x"), MappingEnd]) == Some(Outside(below))
  {
    assert (below + [f])[..|below|] == below;
    if f == AtValue {
      RunCons(Inside(below + [f]), Alias("x"), [MappingEnd]);
      assert (below + [AtKey])[..|below|] == below;
      RunOne(Inside(below + [AtKey]), MappingEnd);
    } else {
      RunOne(Inside(below + [f]), if f == InSequence then SequenceEnd else MappingEnd);
    }
  }

  /** The acceptor has not failed exactly when the events are a prefix of some stream. */
  lemma {:induction false} AcceptedIffPrefix(events: seq<Event>)
    ensures Run(AtStart, events).Some? <==> exists rest :: IsStream(events + rest)
  {
    if Run(AtStart, events).Some? {
      var p := Run(AtStart, events).value;
      CompletionAccepted(p);
      RunConcat(AtStart, events, Completion(p));
      AcceptedIffStream(events + Completion(p));
    }
    if exists rest :: IsStream(events + rest) {
      var rest :| IsStream(events + rest);
      AcceptedIffStream(events + rest);
      RunConcat(AtStart, events, rest);
    }
  }
}
