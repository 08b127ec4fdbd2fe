# Signal-graph editor core, modelled in Dafny

This project models the core of a visual audio-graph editor, which is written in TypeScript with React. The core has two parts:

- **The projection** (`src/services/ReactFlowAdapter.tsx`). A domain graph `{ nodes, edges }` of `ChunkNode`s and `ChunkEdge`s becomes a flat list of renderer elements, nodes first and then edges.
  - A node's visual id is the decimal form of its index.
  - Its caption is "`<input count>` inputs".
  - Its position is `(50·index, 50)`.
  - Its template is always `"basic"`.
  - An edge's visual id is `"e" + source + "-" + destination`, and every edge is animated.
- **The editor component** (`src/services/SoundChunk.tsx`).
  - The layout step registers every element in one layout-solver graph that the whole program shares. It then rewrites each visual node in place: the anchor sides come from the direction, and the position comes from the solver's centre, moved to the top-left corner and jittered on x.
  - The component's handlers for connect, remove, layout and "format".
  - The merge of caller-supplied dependencies with the defaults.

Modules, one per source unit:

| module | file | models |
|---|---|---|
| `Wrappers` | wrappers.dfy | `Option` (a value that may be `undefined`) |
| `Decimal` | decimal.dfy | `Number.prototype.toString()` on indices and counts, and its inverse |
| `Types` | types.dfy | `ChunkNode`, `ChunkEdge`, `ChunkElements`, roles |
| `Flow` | flow.dfy | the renderer's element, position and connection shapes |
| `ReactFlowAdapter` | react_flow_adapter.dfy | `mapSingleNodeToUINode`, `mapSingleEdgeToUINode`, `mapNodesToUINodes` |
| `Layout` | layout.dfy | the module-level solver graph (class `LayoutGraph`), `getLayoutedElements` |
| `SoundChunk` | sound_chunk.dfy | `defaultDependencies`, `createSoundChunk`, and the component state and handlers (class `SoundChunkView`) |

How the model is built:

- The projection is pure, so it is written as functions, with lemmas about them.
- The layout step is a method with two loops over an `array<FlowElement>`. The first loop fills the solver graph's tables. The second rewrites the node slots of the array in place.
- The step returns a fresh array holding the same rewritten elements. This is how the model captures that the source mutates the element objects it was given and returns a new array of those same objects.
- The component is a class. Its `elements` field is the React state. Its `sent` field records every value handed to the edge-update callback, in call order.

External behaviour becomes parameters:

- the layout solver (`dagre.layout` followed by `node(id)`) is `centre: string -> Point`;
- `Math.random()` is `draw: nat -> real`, where the element at index `i` uses `draw(i)`, and the lemmas about jitter assume `0 <= draw(i) < 1`;
- the renderer's `removeElements` is a function parameter of `OnElementsRemove`.

The domain types are not exported by any file shown. Their shapes come from how the adapter reads them: `roles` is a list, `inputs` is a list, an edge has `source`/`destination`, and a graph is `{ nodes, edges }`. The node roles are Generator, Modifier and Output. The node data field `label` is called `caption` in the model, because `label` is a reserved word in Dafny.

Points where the code behaves differently from what its names or types suggest; the model follows the code:

- **onConnect.** It does not hand the callback an array holding one edge `{source, destination}`. It casts the gesture's connection object to `ChunkEdge[]` and passes that object itself, so the model passes `ConnectionObject(params)`.
- **Role test.** Nodes all look the same because both branches of the role conditional are `'basic'`.
- **Missing dependencies.** Object spread falls back to the default only for a property that is absent. A property given explicitly as `undefined` overrides the default. `Field<T>` tells these cases apart. With an `undefined` callback, the connect handler throws.
- **Edge endpoints are domain ids.** Visual nodes are named by index, but visual edges keep the domain ids as `source` and `target`. So an edge between domain nodes "a" and "b" points at ids no visual node has. With domain nodes "1" and "2" at indices 0 and 1, the edge "1"→"2" points at the wrong node and at a missing one. In layout, such endpoints are where the solver library creates label-less nodes of its own (see "## Left out").
- **Layout mutates its input.** Layout leaves the domain graph alone, but it rewrites the visual node objects it receives.

## Model

| member | source | states |
|---|---|---|
| `Decimal.NatToString` | src/services/ReactFlowAdapter.tsx:19 | the decimal form of an index is non-empty, all digits, and starts with '0' only for 0 |
| `Decimal.ParseDecimalOfNatToString` | src/services/ReactFlowAdapter.tsx:19 | reading the decimal form of n back gives n |
| `Decimal.NatToStringInjective` | src/services/ReactFlowAdapter.tsx:19 | two indices have the same decimal form exactly when they are equal |
| `ReactFlowAdapter.MapSingleNodeToUINode` | src/services/ReactFlowAdapter.tsx:11-26 | a node projects to a visual node: its id is the decimal form of its index and reads back as it, template "basic", data text the index, caption exactly the decimal input count followed by " inputs" (and it reads back as that count), position (50·index, 50), no anchor sides yet |
| `ReactFlowAdapter.EdgeId` | src/services/ReactFlowAdapter.tsx:30 | an edge id starts with 'e' and splits back at its first '-' into source and destination when the source holds no '-' |
| `ReactFlowAdapter.MapSingleEdgeToUINode` | src/services/ReactFlowAdapter.tsx:28-35 | an edge projects to an animated visual edge with id "e"+source+"-"+destination, source = source, target = destination |
| `ReactFlowAdapter.MapNodesToUINodes` | src/services/ReactFlowAdapter.tsx:38-44 | the output has length nodes+edges: the node projections in input order, then the edge projections in input order |
| `ReactFlowAdapter.ProjectionOrder` | src/services/ReactFlowAdapter.tsx:41-44 | an output entry is a visual node exactly when its index is below the node count |
| `ReactFlowAdapter.NodeIdIsIndex` | src/services/ReactFlowAdapter.tsx:19 | the visual node at index i has the decimal form of i as its id, whatever its domain id |
| `ReactFlowAdapter.NodeIdsDistinct` | src/services/ReactFlowAdapter.tsx:19 | visual node ids are pairwise distinct |
| `ReactFlowAdapter.NodeAndEdgeIdsDiffer` | src/services/ReactFlowAdapter.tsx:19-30 | no visual node id equals a visual edge id |
| `ReactFlowAdapter.EveryNodeIsBasic` | src/services/ReactFlowAdapter.tsx:12-16 | every visual node has template "basic", for every role combination |
| `ReactFlowAdapter.EveryEdgeIsAnimated` | src/services/ReactFlowAdapter.tsx:33 | every visual edge is animated |
| `ReactFlowAdapter.EdgeProjectionIgnoresIndex` | src/services/ReactFlowAdapter.tsx:28-35 | an edge's projection does not depend on its index |
| `ReactFlowAdapter.SamePairSameElement` | src/services/ReactFlowAdapter.tsx:30-32 | two edges with the same (source, destination) project to identical visual edges, id included |
| `ReactFlowAdapter.EdgeIdInjective` | src/services/ReactFlowAdapter.tsx:30 | when source ids hold no '-', equal edge ids mean equal endpoint pairs, and conversely |
| `ReactFlowAdapter.EdgeIdCollision` | src/services/ReactFlowAdapter.tsx:30 | the distinct pairs ("a-b","c") and ("a","b-c") share the edge id "ea-b-c" |
| `ReactFlowAdapter.EdgeSourceMatchesNoNode` | src/services/ReactFlowAdapter.tsx:19-32 | a visual edge keeps the domain source id, so a source that is not a decimal string equals no visual node's id |
| `ReactFlowAdapter.EdgeEndpointsMisread` | src/services/ReactFlowAdapter.tsx:19-32 | with domain nodes "1", "2" at indices 0, 1, the edge "1"→"2" starts at the visual node of domain node "2" and ends at an id no visual node has |
| `ReactFlowAdapter.ProjectionReadsOnlyCountsAndEndpoints` | src/services/ReactFlowAdapter.tsx:11-44 | graphs with equal node counts, input counts and edge endpoints project identically: domain ids, names, roles and outputs have no influence |
| `Layout.LayoutGraph.constructor` | src/services/SoundChunk.tsx:41-42 | the shared solver graph starts with no graph label, no nodes and no edges |
| `Layout.LayoutGraph.SetGraph` | src/services/SoundChunk.tsx:53 | the graph label is replaced; the tables stay |
| `Layout.LayoutGraph.SetNode` | src/services/SoundChunk.tsx:57 | the node is added or its label overwritten; nothing else changes |
| `Layout.LayoutGraph.SetEdge` | src/services/SoundChunk.tsx:60 | the edge pair is added; nothing else changes |
| `Layout.RegisterNodes` | src/services/SoundChunk.tsx:55-62 | registering elements one by one keeps every old node id, and the last element, if a node, ends at the 172×36 footprint |
| `Layout.RegisterEdges` | src/services/SoundChunk.tsx:55-62 | registering elements one by one keeps every old edge, and the last element, if an edge, has its (source, target) registered |
| `Layout.RegisterNodesKeepsAndAdds` | src/services/SoundChunk.tsx:55-62 | registration leaves the node table with the old ids plus the current node ids; current ids map to the 172×36 footprint, and other entries are unchanged |
| `Layout.RegisterEdgesKeepsAndAdds` | src/services/SoundChunk.tsx:55-62 | registration leaves the edge table as the old table plus the (source, target) of every non-node element |
| `Layout.TargetSide` | src/services/SoundChunk.tsx:69 | the target side is Left exactly for "LR", otherwise Top |
| `Layout.SourceSide` | src/services/SoundChunk.tsx:70 | the source side is Right exactly for "LR", otherwise Bottom |
| `Layout.LayoutElement` | src/services/SoundChunk.tsx:67-81 | one element after layout: same id and kind; an edge unchanged; a node keeps data and template, gets both anchor sides for the direction and y = solver y − 18 |
| `Layout.LayoutAll` | src/services/SoundChunk.tsx:66-82 | the laid-out list has the input's length, and each entry is the layout of the input entry at the same index |
| `Layout.GetLayoutedElements` | src/services/SoundChunk.tsx:51-83 | rankdir = direction; the node and edge tables receive every element; every slot of the input array is rewritten to its laid-out element; the result is a fresh array with the same contents |
| `Layout.LayoutKeepsElements` | src/services/SoundChunk.tsx:66-82 | layout keeps count, order, ids and node/edge kind, and returns edges untouched |
| `Layout.AnchorSides` | src/services/SoundChunk.tsx:69-70 | for "LR" a node gets target Left and source Right; for any other direction, Top and Bottom |
| `Layout.CentreToTopLeft` | src/services/SoundChunk.tsx:75-78 | for solver centre (cx, cy), the new y is cy − 18 and the new x lies in [cx − 86, cx − 86 + 0.001) |
| `Layout.LayoutKeepsNodeFields` | src/services/SoundChunk.tsx:66-82 | a node's id, data and template survive layout |
| `Layout.RelayoutForgetsEarlierLayout` | src/services/SoundChunk.tsx:69-78 | laying out a laid-out element gives the same as one layout with the later arguments |
| `Layout.JitterIsTheOnlyDifference` | src/services/SoundChunk.tsx:76 | two layouts that differ only in the random draw agree except on x, which differs by less than 0.001 |
| `SoundChunk.DefaultSendEdgeUpdate` | src/services/SoundChunk.tsx:190-193 | the default callback returns its argument unchanged |
| `SoundChunk.DefaultDependencies` | src/services/SoundChunk.tsx:188-194 | the defaults are the load-time audio context and a callback that returns every argument unchanged |
| `SoundChunk.SpreadField` | src/services/SoundChunk.tsx:201-204 | one spread property: absent keeps the default, explicit undefined gives undefined, a given value wins |
| `SoundChunk.CreateSoundChunk` | src/services/SoundChunk.tsx:188-204 | a given dependency overrides the default; an absent one falls back to the default; one given as undefined stays undefined |
| `SoundChunk.EmptyConfigurationEchoesUpdates` | src/services/SoundChunk.tsx:190-193 | with an empty configuration, the edge-update callback returns its argument unchanged |
| `SoundChunk.UndefinedDoesNotFallBack` | src/services/SoundChunk.tsx:201-204 | for every configuration and both dependencies, a resolved dependency is undefined exactly when the caller gave it as undefined |
| `SoundChunk.SoundChunkView.constructor` | src/services/SoundChunk.tsx:135-137 | the initial state is the projection of the domain graph, and nothing has been sent |
| `SoundChunk.SoundChunkView.OnConnect` | src/services/SoundChunk.tsx:139-144 | the connection object is handed to the callback exactly once and the answer dropped; elements unchanged; throws exactly when the callback is undefined |
| `SoundChunk.SoundChunkView.OnElementsRemove` | src/services/SoundChunk.tsx:146-149 | the state becomes removeElements(toRemove, old state); nothing is sent |
| `SoundChunk.SoundChunkView.OnLayout` | src/services/SoundChunk.tsx:151-157 | the state becomes the laid-out old state, with the old array rewritten to the same contents; the solver tables receive the elements |
| `SoundChunk.SoundChunkView.OnFormat` | src/services/SoundChunk.tsx:162 | the "format" button is a layout with direction "TB" |
| `SoundChunk.FormatAnchorsTopToBottom` | src/services/SoundChunk.tsx:162 | after "format", every visual node has target Top and source Bottom |
| `SoundChunk.LayoutAfterMountKeepsNodeIds` | src/services/SoundChunk.tsx:135-137 | laying out the initial projection keeps each node's index-derived id, its data and its "basic" template |

## Left out

- The layout algorithm (`dagre.layout`) is not modelled. It is a foreign library, represented only by the centre function `centre`. The coordinates are `real`, not IEEE doubles.
- The solver library's own side effects are not modelled:
  - graphlib's `setEdge` also creates missing endpoint nodes without a label;
  - `dagre.layout` writes coordinates into the node and edge labels.
  - edges carry the empty label set by `setDefaultEdgeLabel`.
  The tables here hold only what the calls in the source write: graph label, node footprints and edge pairs.
- `Math.random()` is not modelled. It is the parameter `draw`.
- The behaviour of `removeElements` from the renderer is not modelled. It is a foreign call, passed to `OnElementsRemove` as a function.
- `resumeAudio`, `suspendAudio` and the effect that calls them on every render (src/services/SoundChunk.tsx:89-106, 127-133) are not modelled. They are thin wrappers over an external audio context, tied to React's render cycle. `AudioContext` is an opaque handle, kept only to show how dependencies are merged.
- Console logging and warnings (`console.log`, `console.warn`) are left out as I/O.
- React rendering and JSX, the node components, styling and theme, and the debug `RFNodesDeleteMe` are left out as presentation.
- `useCallback` memoisation in `onLayout` is left out. It changes when the handler is rebuilt, not what it does.
- The default value `'TB'` of `getLayoutedElements`'s `direction` parameter is not modelled, because its only caller always passes a direction. `GetLayoutedElements` takes the direction explicitly.
- Object identity is modelled as the array slot: a rewritten element object becomes a rewritten slot. Aliasing of the same element object from other arrays is not modelled.
- The component's `nodes` prop is declared as a flat array of nodes and edges, but it is passed to `mapNodesToUINodes`, which reads `{ nodes, edges }`. The model follows that reading.
- `src/App.tsx` is not part of this model. It is seed data and a UI shell.
- Structural validation (dangling edges, duplicate ids) and role-based template selection are not modelled, because no code for them exists.
