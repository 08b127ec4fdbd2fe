/**
 * Automatic layout of the visual elements. The layout solver keeps one graph
 * object for the whole program; every call registers the current elements in
 * it, lets the solver place the nodes, and then rewrites each visual node's
 * anchor sides and position in place.
 *
 * The solver's placement is the parameter `centre` (node id to the centre the
 * solver computed), and the random source is the parameter `draw` (the value
 * drawn while placing the element at index i is `draw(i)`).
 */
module Layout {
  import opened Wrappers
  import opened Flow

  const NodeWidth: real := 172.0
  const NodeHeight: real := 36.0

  /** A node label of the solver graph: the footprint it reserves for the node. */
  datatype Size = Size(width: real, height: real)

  const Footprint := Size(NodeWidth, NodeHeight)

  /** The graph-level label of the solver graph. */
  datatype GraphLabel = GraphLabel(rankdir: string)

  /** The solver's graph object: a graph label, a node table and an edge table. */
  class LayoutGraph {
    var graphLabel: Option<GraphLabel>
    var nodeTable: map<string, Size>
    var edgeTable: set<(string, string)>

    /** A new, empty graph. */
    constructor ()
      ensures graphLabel == None && nodeTable == map[] && edgeTable == {}
    {
      graphLabel := None;
      nodeTable := map[];
      edgeTable := {};
    }

    /** Replaces the graph label. */
    method SetGraph(graphOptions: GraphLabel)
      modifies this
      ensures graphLabel == Some(graphOptions)
      ensures nodeTable == old(nodeTable) && edgeTable == old(edgeTable)
    {
      graphLabel := Some(graphOptions);
    }

    /** Adds node `id`, or replaces its label when it is already there. */
    method SetNode(id: string, size: Size)
      modifies this
      ensures nodeTable == old(nodeTable)[id := size]
      ensures graphLabel == old(graphLabel) && edgeTable == old(edgeTable)
    {
      nodeTable := nodeTable[id := size];
    }

    /** Adds the edge from `v` to `w`; an edge already there stays as it is. */
    method SetEdge(v: string, w: string)
      modifies this
      ensures edgeTable == old(edgeTable) + {(v, w)}
      ensures graphLabel == old(graphLabel) && nodeTable == old(nodeTable)
    {
      edgeTable := edgeTable + {(v, w)};
    }
  }

  // What one registration pass over the elements does to the solver's tables

  /** The node table after registering `els` one by one into `table`. */
  function RegisterNodes(table: map<string, Size>, els: seq<FlowElement>): (r: map<string, Size>)
    ensures table.Keys <= r.Keys
    ensures |els| > 0 && els[|els| - 1].NodeElement? ==> els[|els| - 1].id in r && r[els[|els| - 1].id] == Footprint
  {
    if els == [] then table
    else
      var rest := RegisterNodes(table, els[..|els| - 1]);
      var last := els[|els| - 1];
      if last.NodeElement? then rest[last.id := Footprint] else rest
  }

  /** The edge table after registering `els` one by one into `table`. */
  function RegisterEdges(table: set<(string, string)>, els: seq<FlowElement>): (r: set<(string, string)>)
    ensures table <= r
    ensures |els| > 0 && els[|els| - 1].EdgeElement? ==> (els[|els| - 1].source, els[|els| - 1].target) in r
  {
    if els == [] then table
    else
      var rest := RegisterEdges(table, els[..|els| - 1]);
      var last := els[|els| - 1];
      if last.EdgeElement? then rest + {(last.source, last.target)} else rest
  }

  /** The ids of the node elements of `els`. */
  function NodeIds(els: seq<FlowElement>): (ids: set<string>)
    ensures forall k :: 0 <= k < |els| && els[k].NodeElement? ==> els[k].id in ids
    ensures forall id :: id in ids ==> exists k :: 0 <= k < |els| && els[k].NodeElement? && els[k].id == id
  {
    set k | 0 <= k < |els| && els[k].NodeElement? :: els[k].id
  }

  /** The (source, target) pairs of the edge elements of `els`. */
  function EdgePairs(els: seq<FlowElement>): (pairs: set<(string, string)>)
    ensures forall k :: 0 <= k < |els| && els[k].EdgeElement? ==> (els[k].source, els[k].target) in pairs
    ensures forall p :: p in pairs ==> exists k :: 0 <= k < |els| && els[k].EdgeElement? && (els[k].source, els[k].target) == p
  {
    set k | 0 <= k < |els| && els[k].EdgeElement? :: (els[k].source, els[k].target)
  }

  /**
   * Registration adds every node id with the fixed footprint and keeps every
   * other entry: nothing is ever removed from the node table.
   */
  lemma {:induction false} RegisterNodesKeepsAndAdds(table: map<string, Size>, els: seq<FlowElement>)
    ensures RegisterNodes(table, els).Keys == table.Keys + NodeIds(els)
    ensures forall id :: id in NodeIds(els) ==> RegisterNodes(table, els)[id] == Footprint
    ensures forall id :: id in table && id !in NodeIds(els) ==> RegisterNodes(table, els)[id] == table[id]
    decreases |els|
  {
    if els != [] {
      var init := els[..|els| - 1];
      var last := els[|els| - 1];
      RegisterNodesKeepsAndAdds(table, init);
      assert NodeIds(els) == NodeIds(init) + (if last.NodeElement? then {last.id} else {}) by {
        forall id | id in NodeIds(els)
          ensures id in NodeIds(init) + (if last.NodeElement? then {last.id} else {})
        {
          var k :| 0 <= k < |els| && els[k].NodeElement? && els[k].id == id;
          if k < |els| - 1 {
            assert init[k] == els[k];
          }
        }
        forall id | id in NodeIds(init)
          ensures id in NodeIds(els)
        {
          var k :| 0 <= k < |init| && init[k].NodeElement? && init[k].id == id;
          assert els[k] == init[k];
        }
      }
    }
  }

  /** Registration adds the pair of every edge element and removes no edge. */
  lemma {:induction false} RegisterEdgesKeepsAndAdds(table: set<(string, string)>, els: seq<FlowElement>)
    ensures RegisterEdges(table, els) == table + EdgePairs(els)
    decreases |els|
  {
    if els != [] {
      var init := els[..|els| - 1];
      var last := els[|els| - 1];
      RegisterEdgesKeepsAndAdds(table, init);
      assert EdgePairs(els) == EdgePairs(init) + (if last.EdgeElement? then {(last.source, last.target)} else {}) by {
        forall p | p in EdgePairs(els)
          ensures p in EdgePairs(init) + (if last.EdgeElement? then {(last.source, last.target)} else {})
        {
          var k :| 0 <= k < |els| && els[k].EdgeElement? && (els[k].source, els[k].target) == p;
          if k < |els| - 1 {
            assert init[k] == els[k];
          }
        }
        forall p | p in EdgePairs(init)
          ensures p in EdgePairs(els)
        {
          var k :| 0 <= k < |init| && init[k].EdgeElement? && (init[k].source, init[k].target) == p;
          assert els[k] == init[k];
        }
      }
    }
  }

  // How one element is rewritten after the solver has run

  /** The side incoming edges attach to: Left for "LR", Top for everything else. */
  function TargetSide(direction: string): (side: Position)
    ensures side == Left <==> direction == "LR"
    ensures side == Left || side == Top
  {
    if direction == "LR" then Left else Top
  }

  /** The side outgoing edges attach to: Right for "LR", Bottom for everything else. */
  function SourceSide(direction: string): (side: Position)
    ensures side == Right <==> direction == "LR"
    ensures side == Right || side == Bottom
  {
    if direction == "LR" then Right else Bottom
  }

  /**
   * A node gets both anchor sides for `direction` and the top-left corner of
   * its footprint centred on the solver's point, shifted right by a thousandth
   * of `random`. An edge is returned as it is.
   */
  function LayoutElement(el: FlowElement, direction: string, centre: string -> Point, random: real): (after: FlowElement)
    ensures after.id == el.id && after.NodeElement? == el.NodeElement?
    ensures el.EdgeElement? ==> after == el
    ensures el.NodeElement? ==>
      && after.data == el.data && after.kind == el.kind
      && after.targetPosition == Some(TargetSide(direction))
      && after.sourcePosition == Some(SourceSide(direction))
      && after.position.y == centre(el.id).y - NodeHeight / 2.0
  {
    match el
    case EdgeElement(_, _, _, _) => el
    case NodeElement(id, _, _, _, _, _) =>
      var c := centre(id);
      el.(targetPosition := Some(TargetSide(direction)),
          sourcePosition := Some(SourceSide(direction)),
          position := Point(c.x - NodeWidth / 2.0 + random / 1000.0, c.y - NodeHeight / 2.0))
  }

  /** The elements after layout, in the same order. */
  function LayoutAll(els: seq<FlowElement>, direction: string, centre: string -> Point, draw: nat -> real): (r: seq<FlowElement>)
    ensures |r| == |els|
    ensures forall k :: 0 <= k < |els| ==> r[k] == LayoutElement(els[k], direction, centre, draw(k))
  {
    seq(|els|, k requires 0 <= k < |els| => LayoutElement(els[k], direction, centre, draw(k)))
  }

  /**
   * The layout step: register every element with the shared solver graph,
   * run the solver, then rewrite the node elements in place. The elements
   * come back in a fresh array that holds the same, rewritten elements.
   */
  method GetLayoutedElements(graph: LayoutGraph, elements: array<FlowElement>, direction: string,
                             centre: string -> Point, draw: nat -> real)
    returns (result: array<FlowElement>)
    modifies graph, elements
    ensures graph.graphLabel == Some(GraphLabel(direction))
    ensures graph.nodeTable == RegisterNodes(old(graph.nodeTable), old(elements[..]))
    ensures graph.edgeTable == RegisterEdges(old(graph.edgeTable), old(elements[..]))
    ensures elements[..] == LayoutAll(old(elements[..]), direction, centre, draw)
    ensures fresh(result) && result[..] == elements[..]
  {
    var isHorizontal := direction == "LR";
    graph.SetGraph(GraphLabel(direction));

    var i := 0;
    while i < elements.Length
      invariant 0 <= i <= elements.Length
      invariant elements[..] == old(elements[..])
      invariant graph.graphLabel == Some(GraphLabel(direction))
      invariant graph.nodeTable == RegisterNodes(old(graph.nodeTable), elements[..i])
      invariant graph.edgeTable == RegisterEdges(old(graph.edgeTable), elements[..i])
    {
      assert elements[..i + 1][..i] == elements[..i];
      var el := elements[i];
      if el.NodeElement? {
        graph.SetNode(el.id, Size(NodeWidth, NodeHeight));
      } else {
        graph.SetEdge(el.source, el.target);
      }
      i := i + 1;
    }
    assert elements[..elements.Length] == old(elements[..]);

    i := 0;
    while i < elements.Length
      invariant 0 <= i <= elements.Length
      invariant graph.graphLabel == Some(GraphLabel(direction))
      invariant graph.nodeTable == RegisterNodes(old(graph.nodeTable), old(elements[..]))
      invariant graph.edgeTable == RegisterEdges(old(graph.edgeTable), old(elements[..]))
      invariant forall k :: 0 <= k < i ==> elements[k] == LayoutElement(old(elements[k]), direction, centre, draw(k))
      invariant forall k :: i <= k < elements.Length ==> elements[k] == old(elements[k])
    {
      var el := elements[i];
      if el.NodeElement? {
        var nodeWithPosition := centre(el.id);
        el := el.(targetPosition := Some(if isHorizontal then Left else Top));
        el := el.(sourcePosition := Some(if isHorizontal then Right else Bottom));
        el := el.(position := Point(nodeWithPosition.x - NodeWidth / 2.0 + draw(i) / 1000.0,
                                    nodeWithPosition.y - NodeHeight / 2.0));
        elements[i] := el;
      }
      i := i + 1;
    }

    result := new FlowElement[elements.Length](k requires 0 <= k < elements.Length reads elements => elements[k]);
  }

  // Properties of the layout step

  /** Layout keeps the number and order of the elements, their ids and their kinds, and leaves edges untouched. */
  lemma LayoutKeepsElements(els: seq<FlowElement>, direction: string, centre: string -> Point, draw: nat -> real)
    ensures |LayoutAll(els, direction, centre, draw)| == |els|
    ensures forall k :: 0 <= k < |els| ==>
      var after := LayoutAll(els, direction, centre, draw)[k];
      && after.id == els[k].id
      && after.NodeElement? == els[k].NodeElement?
      && (els[k].EdgeElement? ==> after == els[k])
  {
  }

  /** For "LR" nodes take edges in on the left and out on the right; for any other direction, top and bottom. */
  lemma AnchorSides(el: FlowElement, direction: string, centre: string -> Point, random: real)
    requires el.NodeElement?
    ensures var after := LayoutElement(el, direction, centre, random);
      && (direction == "LR" ==> after.targetPosition == Some(Left) && after.sourcePosition == Some(Right))
      && (direction != "LR" ==> after.targetPosition == Some(Top) && after.sourcePosition == Some(Bottom))
  {
  }

  /**
   * The solver's centre is moved to the footprint's top-left corner: y is
   * exactly 18 above the centre, x is 86 left of it plus a jitter below 0.001.
   */
  lemma CentreToTopLeft(el: FlowElement, direction: string, centre: string -> Point, random: real)
    requires el.NodeElement?
    requires 0.0 <= random < 1.0
    ensures var after := LayoutElement(el, direction, centre, random);
      && after.position.y == centre(el.id).y - 18.0
      && centre(el.id).x - 86.0 <= after.position.x < centre(el.id).x - 86.0 + 0.001
  {
  }

  /** Layout changes only a node's position and anchor sides; its id, data and template stay. */
  lemma LayoutKeepsNodeFields(el: FlowElement, direction: string, centre: string -> Point, random: real)
    requires el.NodeElement?
    ensures var after := LayoutElement(el, direction, centre, random);
      after.NodeElement? && after.id == el.id && after.data == el.data && after.kind == el.kind
  {
  }

  /**
   * Laying out an already laid-out element again gives what one layout with
   * the second draw gives: nothing of the earlier layout survives.
   */
  lemma RelayoutForgetsEarlierLayout(el: FlowElement, direction: string, direction': string,
                                     centre: string -> Point, centre': string -> Point, r: real, r': real)
    ensures LayoutElement(LayoutElement(el, direction, centre, r), direction', centre', r') ==
            LayoutElement(el, direction', centre', r')
  {
  }

  /** Two layouts that differ only in the random draws differ only in x, and by less than 0.001. */
  lemma JitterIsTheOnlyDifference(el: FlowElement, direction: string, centre: string -> Point, r: real, r': real)
    requires 0.0 <= r < 1.0 && 0.0 <= r' < 1.0
    ensures var a, b := LayoutElement(el, direction, centre, r), LayoutElement(el, direction, centre, r');
      && a.NodeElement? == b.NodeElement?
      && (a.NodeElement? ==>
            && a.(position := b.position) == b
            && a.position.y == b.position.y
            && -0.001 < a.position.x - b.position.x < 0.001)
  {
  }
}
