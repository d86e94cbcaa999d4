/** Records shared by the control plane (core/types.py). */
module Types {

  datatype Option<+T> = None | Some(value: T)

  datatype Result<+T, +E> = Success(value: T) | Failure(error: E)

  type NodeId = string

  /** A half-open interval of layers: start is included, end is not. */
  datatype LayerRange = LayerRange(start: int, end: int)

  /** Which layers and which experts one node holds. */
  datatype Placement = Placement(nodeId: NodeId, layerRange: Option<LayerRange>, expertsGpu: seq<int>)

  datatype PipelinePlan = PipelinePlan(epoch: int, placements: seq<Placement>)

  /** One node's share of one pipeline epoch. */
  datatype StageAssignment = StageAssignment(
    epoch: int, nodeId: NodeId, layerRange: LayerRange, sourceNode: Option<NodeId>)

  /** The dynamic state of one node that the control plane reads and writes. */
  datatype NodeState = NodeState(
    memoryFree: int, load: real, alive: bool, layerRange: Option<LayerRange>, pendingTasks: set<nat>)

  /** A prompt is a list of token ids, or missing (a recovery task carries none). */
  type Prompt = Option<seq<int>>

  /** The node table (core/node_manager.py). Node states are values; updating one replaces it. */
  class NodeManager {
    var nodes: map<NodeId, NodeState>

    constructor ()
      ensures nodes == map[]
    {
      nodes := map[];
    }
  }

  ghost predicate NoColon(s: string) {
    ':' !in s
  }
}
