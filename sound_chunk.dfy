/**
 * The graph-editor component: how it resolves its dependencies, and how its
 * gesture and button handlers change its element list.
 */
module SoundChunk {
  import opened Wrappers
  import opened Types
  import opened Flow
  import Layout
  import ReactFlowAdapter

  /**
   * What is handed to the edge-update callback. Its declared parameter type is
   * a list of domain edges; the connect handler casts the gesture's connection
   * object to that type and passes the object itself.
   */
  datatype EdgeUpdate = EdgeList(edges: seq<ChunkEdge>) | ConnectionObject(connection: Connection)

  /** The callback, owned by the embedding application, that receives edge updates. */
  type SendEdgeUpdate = EdgeUpdate -> EdgeUpdate

  /** A handle on an audio context; the contexts themselves are not modelled. */
  datatype AudioContext = AudioContext(handle: nat)

  /** A property of a partial object: missing, present with value `undefined`, or present with a value. */
  datatype Field<T> = Absent | Undefined | Given(value: T)

  /** The configuration a caller passes to `CreateSoundChunk`. */
  datatype PartialDependencies = PartialDependencies(sendEdgeUpdate: Field<SendEdgeUpdate>, audioContext: Field<AudioContext>)

  /** The resolved dependencies; `None` is a property whose value is `undefined`. */
  datatype Dependencies = Dependencies(sendEdgeUpdate: Option<SendEdgeUpdate>, audioContext: Option<AudioContext>)

  /** The default edge-update callback: it warns (not modelled) and hands its argument back. */
  function DefaultSendEdgeUpdate(update: EdgeUpdate): (r: EdgeUpdate)
    ensures r == update
  {
    update
  }

  /** The audio context constructed once at load time as the default. */
  const DefaultAudioContext := AudioContext(0)

  /** The defaults: the echoing, warning callback and the context constructed at load time. */
  function DefaultDependencies(): (d: Dependencies)
    ensures d.audioContext == Some(DefaultAudioContext)
    ensures d.sendEdgeUpdate.Some? && forall u :: d.sendEdgeUpdate.value(u) == u
  {
    Dependencies(Some(DefaultSendEdgeUpdate), Some(DefaultAudioContext))
  }

  /** One property of `{ ...base, ...over }`: a property present in `over` wins, even when it is `undefined`. */
  function SpreadField<T>(base: Option<T>, over: Field<T>): (r: Option<T>)
    ensures over.Absent? ==> r == base
    ensures over.Undefined? ==> r == None
    ensures over.Given? ==> r == Some(over.value)
  {
    match over
    case Absent => base
    case Undefined => None
    case Given(v) => Some(v)
  }

  /** The dependencies a component made by `createSoundChunk` uses: the defaults overridden by the caller's. */
  function CreateSoundChunk(dependencies: PartialDependencies): (r: Dependencies)
    ensures dependencies.sendEdgeUpdate.Given? ==> r.sendEdgeUpdate == Some(dependencies.sendEdgeUpdate.value)
    ensures dependencies.sendEdgeUpdate.Absent? ==> r.sendEdgeUpdate == Some(DefaultSendEdgeUpdate)
    ensures dependencies.sendEdgeUpdate.Undefined? ==> r.sendEdgeUpdate == None
    ensures dependencies.audioContext.Given? ==> r.audioContext == Some(dependencies.audioContext.value)
    ensures dependencies.audioContext.Absent? ==> r.audioContext == Some(DefaultAudioContext)
    ensures dependencies.audioContext.Undefined? ==> r.audioContext == None
  {
    Dependencies(
      SpreadField(DefaultDependencies().sendEdgeUpdate, dependencies.sendEdgeUpdate),
      SpreadField(DefaultDependencies().audioContext, dependencies.audioContext))
  }

  /** With an empty configuration the edge-update callback hands every update back unchanged. */
  lemma EmptyConfigurationEchoesUpdates(update: EdgeUpdate)
    ensures var deps := CreateSoundChunk(PartialDependencies(Absent, Absent));
      deps.sendEdgeUpdate.Some? && deps.sendEdgeUpdate.value(update) == update
  {
  }

  /**
   * For both dependencies, a resolved property is `undefined` exactly when the
   * caller gave it explicitly as `undefined`: leaving it out falls back, giving
   * `undefined` does not.
   */
  lemma UndefinedDoesNotFallBack(dependencies: PartialDependencies)
    ensures CreateSoundChunk(dependencies).sendEdgeUpdate.None? <==> dependencies.sendEdgeUpdate.Undefined?
    ensures CreateSoundChunk(dependencies).audioContext.None? <==> dependencies.audioContext.Undefined?
  {
  }

  /**
   * A mounted graph editor. `elements` is its state; `sent` records, in call
   * order, every value handed to the edge-update callback; `solver` is the
   * layout graph shared by every editor.
   */
  class SoundChunkView {
    const solver: Layout.LayoutGraph
    const sendEdgeUpdate: Option<SendEdgeUpdate>
    const audioContext: Option<AudioContext>
    var elements: array<FlowElement>
    var sent: seq<EdgeUpdate>

    /** Mounting: the initial state is the projection of the domain graph. */
    constructor (nodes: ChunkElements, deps: Dependencies, solver: Layout.LayoutGraph)
      ensures this.solver == solver
      ensures sendEdgeUpdate == deps.sendEdgeUpdate && audioContext == deps.audioContext
      ensures fresh(elements) && elements[..] == ReactFlowAdapter.MapNodesToUINodes(nodes)
      ensures sent == []
    {
      this.solver := solver;
      sendEdgeUpdate := deps.sendEdgeUpdate;
      audioContext := deps.audioContext;
      var initial := ReactFlowAdapter.MapNodesToUINodes(nodes);
      elements := new FlowElement[|initial|](k requires 0 <= k < |initial| => initial[k]);
      sent := [];
    }

    /**
     * A connect gesture: the connection object goes to the callback once and
     * the callback's answer is dropped; the element list stays as it is.
     * Calling an `undefined` callback throws, and then nothing is sent.
     */
    method OnConnect(params: Connection) returns (threw: bool)
      modifies this
      ensures elements == old(elements)
      ensures threw <==> sendEdgeUpdate.None?
      ensures sent == if threw then old(sent) else old(sent) + [ConnectionObject(params)]
    {
      match sendEdgeUpdate
      case None =>
        threw := true;
      case Some(send) =>
        var ignored := send(ConnectionObject(params));
        sent := sent + [ConnectionObject(params)];
        threw := false;
    }

    /** A removal gesture: the state becomes what the renderer's removal function leaves. */
    method OnElementsRemove(elementsToRemove: seq<FlowElement>,
                            removeElements: (seq<FlowElement>, seq<FlowElement>) -> seq<FlowElement>)
      modifies this
      ensures fresh(elements)
      ensures elements[..] == removeElements(elementsToRemove, old(elements[..]))
      ensures sent == old(sent)
    {
      var remaining := removeElements(elementsToRemove, elements[..]);
      elements := new FlowElement[|remaining|](k requires 0 <= k < |remaining| => remaining[k]);
    }

    /**
     * A layout request: the state becomes the laid-out elements. The array
     * that held the old state is rewritten in place too, so it holds the same
     * elements as the new one.
     */
    method OnLayout(direction: string, centre: string -> Point, draw: nat -> real)
      modifies this, elements, solver
      ensures fresh(elements)
      ensures elements[..] == Layout.LayoutAll(old(elements[..]), direction, centre, draw)
      ensures old(elements)[..] == elements[..]
      ensures solver.graphLabel == Some(Layout.GraphLabel(direction))
      ensures solver.nodeTable == Layout.RegisterNodes(old(solver.nodeTable), old(elements[..]))
      ensures solver.edgeTable == Layout.RegisterEdges(old(solver.edgeTable), old(elements[..]))
      ensures sent == old(sent)
    {
      var layouted := Layout.GetLayoutedElements(solver, elements, direction, centre, draw);
      elements := layouted;
    }

    /** The "format" button: a layout request from top to bottom. */
    method OnFormat(centre: string -> Point, draw: nat -> real)
      modifies this, elements, solver
      ensures fresh(elements)
      ensures elements[..] == Layout.LayoutAll(old(elements[..]), "TB", centre, draw)
      ensures old(elements)[..] == elements[..]
      ensures solver.graphLabel == Some(Layout.GraphLabel("TB"))
      ensures solver.nodeTable == Layout.RegisterNodes(old(solver.nodeTable), old(elements[..]))
      ensures solver.edgeTable == Layout.RegisterEdges(old(solver.edgeTable), old(elements[..]))
      ensures sent == old(sent)
    {
      OnLayout("TB", centre, draw);
    }
  }

  /** After "format", every visual node takes edges in at the top and sends them out at the bottom. */
  lemma FormatAnchorsTopToBottom(els: seq<FlowElement>, centre: string -> Point, draw: nat -> real, k: nat)
    requires k < |els| && els[k].NodeElement?
    ensures var after := Layout.LayoutAll(els, "TB", centre, draw)[k];
      after.targetPosition == Some(Top) && after.sourcePosition == Some(Bottom)
  {
    Layout.AnchorSides(els[k], "TB", centre, draw(k));
  }

  /** Laying out a freshly mounted editor keeps each visual node's index-derived id and its data. */
  lemma LayoutAfterMountKeepsNodeIds(g: ChunkElements, direction: string, centre: string -> Point, draw: nat -> real, i: nat)
    requires i < |g.nodes|
    ensures var els := ReactFlowAdapter.MapNodesToUINodes(g);
      var after := Layout.LayoutAll(els, direction, centre, draw)[i];
      && after.id == ReactFlowAdapter.MapSingleNodeToUINode(g.nodes[i], i).id
      && after.data == ReactFlowAdapter.MapSingleNodeToUINode(g.nodes[i], i).data
      && after.kind == "basic"
  {
  }
}
