/**
 * The domain graph: the shapes of ChunkNode, ChunkEdge and ChunkElements as
 * the adapter reads them (`roles`, `inputs`, `source`, `destination`,
 * `{ nodes, edges }`).
 */
module Types {
  import opened Wrappers

  datatype ChunkNodeRole = Generator | Modifier | Output

  datatype ChunkEdgeRole = Edge

  /** A processing stage; `inputs` and `outputs` are port identifiers in port order. */
  datatype ChunkNode = ChunkNode(
    id: string,
    name: Option<string>,
    roles: seq<ChunkNodeRole>,
    inputs: seq<string>,
    outputs: seq<string>)

  /** A directed connection between two domain node ids. */
  datatype ChunkEdge = ChunkEdge(roles: seq<ChunkEdgeRole>, source: string, destination: string)

  /** The aggregate graph handed to the editor. */
  datatype ChunkElements = ChunkElements(nodes: seq<ChunkNode>, edges: seq<ChunkEdge>)
}
