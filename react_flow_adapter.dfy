/**
 * The projection of the domain graph onto the renderer's elements: every node
 * becomes one visual node, every edge one visual edge, nodes first.
 */
module ReactFlowAdapter {
  import opened Wrappers
  import opened Types
  import opened Flow
  import Decimal

  const InputsSuffix := " inputs"

  /** Reads a caption of the form "<count> inputs" back as the count. */
  function ParseInputsCaption(caption: string): Option<nat> {
    if |caption| >= |InputsSuffix| && caption[|caption| - |InputsSuffix|..] == InputsSuffix
    then Decimal.ParseDecimal(caption[..|caption| - |InputsSuffix|])
    else None
  }

  /**
   * The visual node for the node at position `index`. Its id is the decimal
   * form of the index, not the domain id; both branches of the role test pick
   * the same template.
   */
  function MapSingleNodeToUINode(node: ChunkNode, index: nat): (el: FlowElement)
    ensures el.NodeElement?
    ensures el.id == Decimal.NatToString(index) && Decimal.ParseDecimal(el.id) == Some(index)
    ensures el.kind == "basic"
    ensures el.data.text == index
    ensures el.data.caption == Decimal.NatToString(|node.inputs|) + InputsSuffix
    ensures ParseInputsCaption(el.data.caption) == Some(|node.inputs|)
    ensures el.position == Point((50 * index) as real, 50.0)
    ensures el.targetPosition == None && el.sourcePosition == None
  {
    var kind := if Generator in node.roles || Modifier in node.roles then "basic" else "basic";
    var caption := Decimal.NatToString(|node.inputs|) + InputsSuffix;
    Decimal.ParseDecimalOfNatToString(index);
    Decimal.ParseDecimalOfNatToString(|node.inputs|);
    assert caption[..|caption| - |InputsSuffix|] == Decimal.NatToString(|node.inputs|);
    NodeElement(Decimal.NatToString(index), NodeData(caption, index), kind,
                Point((50 * index) as real, 50.0), None, None)
  }

  /** The first position of `c` in `s`, if any. */
  function IndexOf(s: string, c: char): (r: Option<nat>)
    ensures r.Some? ==> r.value < |s| && s[r.value] == c && c !in s[..r.value]
    ensures r.None? ==> c !in s
  {
    if s == [] then None
    else if s[0] == c then Some(0)
    else match IndexOf(s[1..], c)
      case None => None
      case Some(k) => assert s[1..][..k] == s[1..k + 1]; Some(k + 1)
  }

  /** Splits an edge id at its first '-' into the source and destination ids. */
  function SplitEdgeId(id: string): Option<(string, string)> {
    if |id| > 0 && id[0] == 'e' then
      match IndexOf(id[1..], '-')
      case None => None
      case Some(k) => Some((id[1..][..k], id[1..][k + 1..]))
    else None
  }

  /** The first `c` of `a + [c] + b` is the one after `a` when `a` holds none. */
  lemma {:induction false} IndexOfAfterPrefix(a: string, c: char, b: string)
    requires c !in a
    ensures IndexOf(a + [c] + b, c) == Some(|a|)
    decreases |a|
  {
    var s := a + [c] + b;
    if a != [] {
      assert s[1..] == a[1..] + [c] + b;
      IndexOfAfterPrefix(a[1..], c, b);
    }
  }

  /**
   * The visual id of an edge: "e", the source id, "-", the destination id.
   * It splits back into its endpoints when the source id holds no '-'.
   */
  function EdgeId(source: string, destination: string): (id: string)
    ensures |id| > 0 && id[0] == 'e'
    ensures '-' !in source ==> SplitEdgeId(id) == Some((source, destination))
  {
    var id := "e" + source + "-" + destination;
    if '-' in source then id
    else
      var rest := id[1..];
      assert rest == source + ['-'] + destination;
      IndexOfAfterPrefix(source, '-', destination);
      assert rest[..|source|] == source;
      assert rest[|source| + 1..] == destination;
      id
  }

  /**
   * The visual edge for an edge: its id is built from the two endpoints, it
   * keeps them as source and target, and it is always animated. The index is
   * not used.
   */
  function MapSingleEdgeToUINode(edge: ChunkEdge, index: nat): (el: FlowElement)
    ensures el.EdgeElement? && el.animated
    ensures el.source == edge.source && el.target == edge.destination
    ensures el.id == EdgeId(edge.source, edge.destination) && el.id[0] == 'e'
    ensures '-' !in edge.source ==> SplitEdgeId(el.id) == Some((edge.source, edge.destination))
  {
    EdgeElement(EdgeId(edge.source, edge.destination), edge.source, edge.destination, true)
  }

  /** The visual elements of a graph: the node projections, then the edge projections. */
  function MapNodesToUINodes(g: ChunkElements): (els: seq<FlowElement>)
    ensures |els| == |g.nodes| + |g.edges|
    ensures forall i :: 0 <= i < |g.nodes| ==> els[i] == MapSingleNodeToUINode(g.nodes[i], i)
    ensures forall j :: 0 <= j < |g.edges| ==> els[|g.nodes| + j] == MapSingleEdgeToUINode(g.edges[j], j)
  {
    seq(|g.nodes|, i requires 0 <= i < |g.nodes| => MapSingleNodeToUINode(g.nodes[i], i))
    + seq(|g.edges|, j requires 0 <= j < |g.edges| => MapSingleEdgeToUINode(g.edges[j], j))
  }

  // Properties of the projection

  /** The first |nodes| elements are nodes, the rest are edges. */
  lemma ProjectionOrder(g: ChunkElements, k: nat)
    requires k < |g.nodes| + |g.edges|
    ensures k < |MapNodesToUINodes(g)|
    ensures MapNodesToUINodes(g)[k].NodeElement? <==> k < |g.nodes|
  {
    if k >= |g.nodes| {
      assert MapNodesToUINodes(g)[|g.nodes| + (k - |g.nodes|)].EdgeElement?;
    }
  }

  /** The visual node at index i reads back as i, whatever the domain node is. */
  lemma NodeIdIsIndex(g: ChunkElements, i: nat)
    requires i < |g.nodes|
    ensures Decimal.ParseDecimal(MapNodesToUINodes(g)[i].id) == Some(i)
    ensures MapNodesToUINodes(g)[i].id == Decimal.NatToString(i)
  {
  }

  /** Visual node ids are pairwise distinct. */
  lemma NodeIdsDistinct(g: ChunkElements, i: nat, k: nat)
    requires i < |g.nodes| && k < |g.nodes| && i != k
    ensures MapNodesToUINodes(g)[i].id != MapNodesToUINodes(g)[k].id
  {
    var els := MapNodesToUINodes(g);
    assert Decimal.ParseDecimal(els[i].id) == Some(i);
    assert Decimal.ParseDecimal(els[k].id) == Some(k);
  }

  /** A visual node id never equals a visual edge id: one is all digits, the other starts with 'e'. */
  lemma NodeAndEdgeIdsDiffer(g: ChunkElements, i: nat, j: nat)
    requires i < |g.nodes| && j < |g.edges|
    ensures MapNodesToUINodes(g)[i].id != MapNodesToUINodes(g)[|g.nodes| + j].id
  {
    var els := MapNodesToUINodes(g);
    var nodeId := els[i].id;
    assert Decimal.ParseDecimal(nodeId) == Some(i);
    assert |nodeId| > 0 && Decimal.IsDigit(nodeId[0]);
    assert els[|g.nodes| + j].id[0] == 'e';
  }

  /** Every visual node uses the "basic" template, for every combination of roles. */
  lemma EveryNodeIsBasic(g: ChunkElements)
    ensures forall k :: 0 <= k < |MapNodesToUINodes(g)| && MapNodesToUINodes(g)[k].NodeElement? ==>
      MapNodesToUINodes(g)[k].kind == "basic"
  {
    var els := MapNodesToUINodes(g);
    forall k | 0 <= k < |els| && els[k].NodeElement?
      ensures els[k].kind == "basic"
    {
      ProjectionOrder(g, k);
    }
  }

  /** Every visual edge is animated. */
  lemma EveryEdgeIsAnimated(g: ChunkElements)
    ensures forall k :: 0 <= k < |MapNodesToUINodes(g)| && MapNodesToUINodes(g)[k].EdgeElement? ==>
      MapNodesToUINodes(g)[k].animated
  {
    var els := MapNodesToUINodes(g);
    forall k | 0 <= k < |els| && els[k].EdgeElement?
      ensures els[k].animated
    {
      ProjectionOrder(g, k);
      assert els[|g.nodes| + (k - |g.nodes|)] == els[k];
    }
  }

  /** An edge's projection does not depend on where the edge stands in the list. */
  lemma EdgeProjectionIgnoresIndex(edge: ChunkEdge, i: nat, j: nat)
    ensures MapSingleEdgeToUINode(edge, i) == MapSingleEdgeToUINode(edge, j)
  {
  }

  /** Two edges with the same endpoints project to the same visual edge, id included. */
  lemma SamePairSameElement(g: ChunkElements, a: nat, b: nat)
    requires a < |g.edges| && b < |g.edges|
    requires g.edges[a].source == g.edges[b].source
    requires g.edges[a].destination == g.edges[b].destination
    ensures MapNodesToUINodes(g)[|g.nodes| + a] == MapNodesToUINodes(g)[|g.nodes| + b]
  {
  }

  /** Without a '-' in the source ids, equal edge ids mean equal endpoint pairs. */
  lemma EdgeIdInjective(s1: string, d1: string, s2: string, d2: string)
    requires '-' !in s1 && '-' !in s2
    ensures EdgeId(s1, d1) == EdgeId(s2, d2) <==> s1 == s2 && d1 == d2
  {
  }

  /** With a '-' in a source id, two different endpoint pairs can share one edge id. */
  lemma EdgeIdCollision()
    ensures EdgeId("a-b", "c") == EdgeId("a", "b-c")
    ensures ("a-b", "c") != ("a", "b-c")
  {
  }

  /**
   * The projection reads only the number of nodes, each node's input count and
   * each edge's endpoints: domain ids, names, roles and outputs have no effect.
   */
  lemma ProjectionReadsOnlyCountsAndEndpoints(g: ChunkElements, h: ChunkElements)
    requires |g.nodes| == |h.nodes| && |g.edges| == |h.edges|
    requires forall i :: 0 <= i < |g.nodes| ==> |g.nodes[i].inputs| == |h.nodes[i].inputs|
    requires forall j :: 0 <= j < |g.edges| ==>
      g.edges[j].source == h.edges[j].source && g.edges[j].destination == h.edges[j].destination
    ensures MapNodesToUINodes(g) == MapNodesToUINodes(h)
  {
    var x, y := MapNodesToUINodes(g), MapNodesToUINodes(h);
    forall k | 0 <= k < |x|
      ensures x[k] == y[k]
    {
      if k >= |g.nodes| {
        var j := k - |g.nodes|;
        assert x[|g.nodes| + j] == MapSingleEdgeToUINode(g.edges[j], j);
        assert y[|h.nodes| + j] == MapSingleEdgeToUINode(h.edges[j], j);
      }
    }
  }

  /**
   * Visual edges keep the domain ids as endpoints while visual nodes are named
   * by index: an edge whose source is not a decimal string points at no visual
   * node.
   */
  lemma EdgeSourceMatchesNoNode(g: ChunkElements, j: nat, i: nat)
    requires j < |g.edges| && i < |g.nodes|
    requires Decimal.ParseDecimal(g.edges[j].source) == None
    ensures MapNodesToUINodes(g)[|g.nodes| + j].source == g.edges[j].source
    ensures MapNodesToUINodes(g)[i].id != MapNodesToUINodes(g)[|g.nodes| + j].source
  {
    assert Decimal.ParseDecimal(MapNodesToUINodes(g)[i].id) == Some(i);
  }

  /**
   * With domain nodes "1" and "2" at indices 0 and 1, the visual edge for the
   * domain edge "1" -> "2" starts at the visual node of domain node "2" and
   * ends at an id no visual node has.
   */
  lemma EdgeEndpointsMisread()
    ensures var g := ChunkElements(
              [ChunkNode("1", None, [Generator], [], ["2"]), ChunkNode("2", None, [Output], ["1"], [])],
              [ChunkEdge([Edge], "1", "2")]);
      var els := MapNodesToUINodes(g);
      && els[1].id == els[2].source && els[1] == MapSingleNodeToUINode(g.nodes[1], 1)
      && els[0].id != els[2].target && els[1].id != els[2].target
  {
    var g := ChunkElements(
      [ChunkNode("1", None, [Generator], [], ["2"]), ChunkNode("2", None, [Output], ["1"], [])],
      [ChunkEdge([Edge], "1", "2")]);
    var els := MapNodesToUINodes(g);
    assert els[0].id == Decimal.NatToString(0) == "0";
    assert els[1].id == Decimal.NatToString(1) == "1";
    assert els[2] == MapSingleEdgeToUINode(g.edges[0], 0);
  }
}
