/** The wiring of the pipeline graph (index.ts): the nodes and the fixed table of
    `addEdge` calls.  The table is a chain that forks after `extract` and joins again
    at `combine`; it has no conditional edges and no cycle. */
module GraphEdges {
  /** The graph's endpoints, its seven wired nodes, and the nodes that exist in the
      source but are not added to the graph. */
  datatype Node =
    | Start | Analyze | Search | Extract | Describe | Price | Combine | RecommendNode | End
    | AssessComplexity | AssessQuality | Refine

  /** The `addEdge` calls, in order. */
  const Edges: seq<(Node, Node)> := [
    (Start, Analyze), (Analyze, Search), (Search, Extract),
    (Extract, Describe), (Extract, Price),
    (Describe, Combine), (Price, Combine),
    (Combine, RecommendNode), (RecommendNode, End)]

  predicate IsEdge(a: Node, b: Node)
  {
    (a, b) in Edges
  }

  function Successors(a: Node): (succ: set<Node>)
    ensures forall b :: b in succ <==> IsEdge(a, b)
  {
    set e | e in Edges && e.0 == a :: e.1
  }

  /** The successors node by node, as the `addEdge` calls read: an independent
      statement of the table, one case per node. */
  function ExpectedSuccessors(a: Node): set<Node>
  {
    match a
    case Start => {Analyze}
    case Analyze => {Search}
    case Search => {Extract}
    case Extract => {Describe, Price}
    case Describe => {Combine}
    case Price => {Combine}
    case Combine => {RecommendNode}
    case RecommendNode => {End}
    case End => {}
    case AssessComplexity => {}
    case AssessQuality => {}
    case Refine => {}
  }

  /** Edge by edge, the table and the node-by-node reading agree. */
  lemma EdgeMatches(a: Node, b: Node)
    ensures IsEdge(a, b) <==> b in ExpectedSuccessors(a)
  {
  }

  /** The table gives each node exactly the expected successors. */
  lemma SuccessorsMatch(a: Node)
    ensures Successors(a) == ExpectedSuccessors(a)
  {
    forall b
      ensures b in Successors(a) <==> b in ExpectedSuccessors(a)
    {
      EdgeMatches(a, b);
    }
  }

  /** The fixed shape of the table: a chain that forks after `extract` and joins
      again at `combine`. */
  lemma EdgeTableShape()
    ensures Successors(Start) == {Analyze}
    ensures Successors(Analyze) == {Search} && Successors(Search) == {Extract}
    ensures Successors(Extract) == {Describe, Price}
    ensures Successors(Describe) == {Combine} && Successors(Price) == {Combine}
    ensures Successors(Combine) == {RecommendNode} && Successors(RecommendNode) == {End}
    ensures Successors(End) == {}
  {
    SuccessorsMatch(Start);
    SuccessorsMatch(Analyze);
    SuccessorsMatch(Search);
    SuccessorsMatch(Extract);
    SuccessorsMatch(Describe);
    SuccessorsMatch(Price);
    SuccessorsMatch(Combine);
    SuccessorsMatch(RecommendNode);
    SuccessorsMatch(End);
  }

  /** The complexity, quality and refine nodes take no part in any edge. */
  lemma UnwiredNodes(e: (Node, Node))
    requires e in Edges
    ensures e.0 !in {AssessComplexity, AssessQuality, Refine}
    ensures e.1 !in {AssessComplexity, AssessQuality, Refine}
  {
  }

  /** A depth for each wired node; every edge goes one level deeper. */
  function Depth(n: Node): nat
  {
    match n
    case Start => 0
    case Analyze => 1
    case Search => 2
    case Extract => 3
    case Describe => 4
    case Price => 4
    case Combine => 5
    case RecommendNode => 6
    case End => 7
    case AssessComplexity => 0
    case AssessQuality => 0
    case Refine => 0
  }

  lemma EdgesDeepen(a: Node, b: Node)
    requires IsEdge(a, b)
    ensures Depth(b) == Depth(a) + 1
  {
  }

  /** A walk along the edges. */
  predicate IsPath(p: seq<Node>)
  {
    forall i :: 0 <= i < |p| - 1 ==> IsEdge(p[i], p[i + 1])
  }

  /** Along a path the depth grows by one per step. */
  lemma {:induction false} PathDepth(p: seq<Node>, i: nat)
    requires IsPath(p) && i < |p|
    ensures Depth(p[i]) == Depth(p[0]) + i
  {
    if i > 0 {
      PathDepth(p, i - 1);
      EdgesDeepen(p[i - 1], p[i]);
    }
  }

  /** No path visits a node twice: the table is acyclic. */
  lemma Acyclic(p: seq<Node>)
    requires IsPath(p)
    ensures forall i, j :: 0 <= i < j < |p| ==> p[i] != p[j]
  {
    forall i, j | 0 <= i < j < |p|
      ensures p[i] != p[j]
    {
      PathDepth(p, i);
      PathDepth(p, j);
    }
  }
}
