/**
 * The element shapes of the rendering surface (react-flow-renderer) that the
 * core builds, reads and rewrites.
 */
module Flow {
  import opened Wrappers

  datatype Point = Point(x: real, y: real)

  /** Which side of a node a handle is drawn on. */
  datatype Position = Left | Top | Right | Bottom

  /** The `data` record of a visual node: `caption` is its `label`, `text` its index. */
  datatype NodeData = NodeData(caption: string, text: nat)

  /**
   * A visual element. `NodeElement?` is the renderer's `isNode` test; `kind` is
   * the element's `type` field, which selects a node template.
   */
  datatype FlowElement =
    | NodeElement(
        id: string,
        data: NodeData,
        kind: string,
        position: Point,
        targetPosition: Option<Position>,
        sourcePosition: Option<Position>)
    | EdgeElement(id: string, source: string, target: string, animated: bool)

  /** A connect gesture between two handles; any of its fields may be null. */
  datatype Connection = Connection(
    source: Option<string>,
    target: Option<string>,
    sourceHandle: Option<string>,
    targetHandle: Option<string>)
}
