/** A small stand-in for JsonPath evaluation: a compiled expression is a list
    of `.name` and `[index]` steps from the root `$`, and evaluation walks the
    document tree along it. */
module PathExpressions {
  import opened Wrappers
  import opened JsonTree

  datatype Segment = Property(key: string) | Index(index: nat)

  /** A compiled expression (JsonPath). */
  type Path = seq<Segment>

  /** JsonPath.read: the matched sub-tree, PathNotFoundException, or any
      other exception. */
  datatype PathOutcome = Found(tree: Json) | PathNotFound | PathFailed(reason: string)

  /** The child a segment selects, if the node has it. */
  function Child(node: Json, segment: Segment): Option<Json> {
    match segment
    case Property(key) => if node.JsonObject? then Lookup(node.members, key) else None
    case Index(i) => if node.JsonArray? && i < |node.elements| then Some(node.elements[i]) else None
  }

  /** Evaluation under the default configuration: a step that finds nothing
      makes the whole path PathNotFound. */
  function Evaluate(path: Path, root: Json): PathOutcome
    decreases |path|
  {
    if path == [] then Found(root)
    else
      match Child(root, path[0])
      case None => PathNotFound
      case Some(child) => Evaluate(path[1..], child)
  }
}
