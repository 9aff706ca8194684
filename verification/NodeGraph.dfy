/**
 The node graph of a YAML document, as `yaml_document_t` stores it: a table of nodes that
 refer to each other by one-based index, so that nodes may be shared and cycles may occur.
 */
module NodeGraph {
  import opened YamlEvents

  datatype Pair = Pair(key: nat, value: nat)

  datatype Node =
    | ScalarNode(tag: string, value: string, style: Style)
    | SequenceNode(tag: string, items: seq<nat>, style: Style)
    | MappingNode(tag: string, pairs: seq<Pair>, style: Style)

  type Graph = seq<Node>

  /** The keys and values of `pairs`, in document order. */
  function Flatten(pairs: seq<Pair>): seq<nat> {
    if pairs == [] then [] else Flatten(pairs[..|pairs| - 1]) + [pairs[|pairs| - 1].key, pairs[|pairs| - 1].value]
  }

  lemma {:induction false} FlattenAt(pairs: seq<Pair>, k: nat)
    requires k <= |pairs|
    ensures |Flatten(pairs)| == 2 * |pairs|
    ensures k < |pairs| ==> Flatten(pairs)[2 * k] == pairs[k].key && Flatten(pairs)[2 * k + 1] == pairs[k].value
  {
    if pairs != [] {
      FlattenAt(pairs[..|pairs| - 1], if k < |pairs| - 1 then k else |pairs| - 1);
    }
  }

  /** The outgoing edges of a node, in document order. */
  function Children(node: Node): seq<nat> {
    match node
    case ScalarNode(_, _, _) => []
    case SequenceNode(_, items, _) => items
    case MappingNode(_, pairs, _) => Flatten(pairs)
  }

  predicate InRange(g: Graph, ids: seq<nat>) {
    forall k :: 0 <= k < |ids| ==> 1 <= ids[k] <= |g|
  }

  /** What `yaml_document_append_sequence_item` and `yaml_document_append_mapping_pair` insist on. */
  ghost predicate WellFormed(g: Graph) {
    forall k :: 0 <= k < |g| ==> InRange(g, Children(g[k]))
  }

  ghost predicate IsPath(g: Graph, path: seq<nat>) {
    && |path| > 0
    && InRange(g, path)
    && forall k :: 0 <= k < |path| - 1 ==> path[k + 1] in Children(g[path[k] - 1])
  }

  ghost predicate PathBetween(g: Graph, path: seq<nat>, a: nat, b: nat) {
    IsPath(g, path) && path[0] == a && path[|path| - 1] == b
  }

  ghost predicate Reachable(g: Graph, a: nat, b: nat) {
    exists path :: PathBetween(g, path, a, b)
  }

  lemma {:induction false} ReachableSelf(g: Graph, a: nat)
    requires 1 <= a <= |g|
    ensures Reachable(g, a, a)
  {
    assert PathBetween(g, [a], a, a);
  }

  lemma {:induction false} ReachableStep(g: Graph, a: nat, b: nat, c: nat)
    requires Reachable(g, a, b) && c in Children(g[b - 1]) && 1 <= c <= |g|
    requires 1 <= b <= |g|
    ensures Reachable(g, a, c)
  {
    var path :| PathBetween(g, path, a, b);
    assert PathBetween(g, path + [c], a, c);
  }

  /** A set of ids that is closed under edges contains everything reachable from its members. */
  lemma {:induction false} ClosedContainsPath(g: Graph, ids: set<nat>, path: seq<nat>)
    requires IsPath(g, path) && path[0] in ids
    requires forall i, c :: i in ids && 1 <= i <= |g| && c in Children(g[i - 1]) ==> c in ids
    ensures path[|path| - 1] in ids
  {
    if |path| > 1 {
      assert path[1] in Children(g[path[0] - 1]);
      ClosedContainsPath(g, ids, path[1..]);
    }
  }

  /**
   `copy` is the part of `g` reachable from node 1, renumbered: `order[k]` is the node of `g`
   that became node k + 1 of `copy`.  `tagOf` says what became of the tags.
   */
  ghost predicate Isomorphic(g: Graph, order: seq<nat>, copy: Graph, tagOf: Node -> string) {
    && |copy| == |order| > 0
    && order[0] == 1
    && InRange(g, order)
    && (forall j, k :: 0 <= j < k < |order| ==> order[j] != order[k])
    && (forall id :: id in order <==> Reachable(g, 1, id))
    && (forall k :: 0 <= k < |order| ==> SameNode(g[order[k] - 1], order, copy[k], tagOf))
  }

  /** `image` is `node` with its edges renumbered through `order`. */
  ghost predicate SameNode(node: Node, order: seq<nat>, image: Node, tagOf: Node -> string) {
    && SameHeader(node, image, tagOf)
    && |Children(image)| == |Children(node)|
    && forall j :: 0 <= j < |Children(node)| ==>
         1 <= Children(image)[j] <= |order| && order[Children(image)[j] - 1] == Children(node)[j]
  }

  ghost predicate SameHeader(node: Node, image: Node, tagOf: Node -> string) {
    && image.tag == tagOf(node)
    && image.style == node.style
    && (node.ScalarNode? <==> image.ScalarNode?)
    && (node.SequenceNode? <==> image.SequenceNode?)
    && (node.ScalarNode? ==> image.value == node.value)
  }
}
