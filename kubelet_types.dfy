/** Values the node agent works with: the node record, pods, the pod-update
    events of the message queue, and the calls and requests the agent issues. */
module KubeletTypes {

  /** A node's identity, assigned by the control plane on registration. */
  datatype NodeMetadata = NodeMetadata(id: string, name: string, labels: map<string, string>)

  /** A node's observed state (CPU and memory usage are not modelled). */
  datatype NodeStatus = NodeStatus(hostname: string, ip: string, condition: seq<string>, numPods: int)

  datatype Node = Node(metadata: NodeMetadata, status: NodeStatus)

  /** The zero value `minik8s_node.Node{}` the agent starts with. */
  const ZERO_NODE := Node(NodeMetadata("", "", map[]), NodeStatus("", "", [], 0))

  /** The condition a draft node reports (`minik8s_node.NODE_Ready`). */
  const NODE_READY := "Ready"

  /** A pod, of which the agent only reads the node it is assigned to. */
  datatype PodSpec = PodSpec(nodeName: string)
  datatype Pod = Pod(name: string, spec: PodSpec)

  /** The task types carried by pod-update events; TaskOther stands for any other value. */
  datatype TaskType = TaskAdd | TaskUpdate | TaskRemove | TaskOther

  datatype PodUpdate = PodUpdate(taskType: TaskType, pod: Pod)

  /** The completion callback handed to the pod manager: nil, or its own RemovePodCallback. */
  datatype Callback = NoCallback | RemovePodCallback

  /** A command issued to the pod manager. */
  datatype PodCall =
    | AddPod(pod: Pod, callback: Callback)
    | UpdatePod(pod: Pod, callback: Callback)
    | RemovePod(pod: Pod, callback: Callback)
    | FaultToleranceStart(pods: seq<Pod>)

  /** A POST sent to the control plane. */
  datatype Request =
    | RegisterRequest(node: Node)
    | HeartbeatRequest(nodeStatus: NodeStatus, pods: seq<Pod>)

  /** Why a step failed: a transport error, an undecodable body, a registration
      whose node id is empty, or an error from the runtime or the pod manager. */
  datatype KubeletError = TransportError | DecodeError | EmptyNodeId | RuntimeError | PodManagerError

  /** The process configuration, read once and never written (the broker
      configuration is not modelled). */
  datatype KubeletConfig = KubeletConfig(
    apiServerIP: string,
    apiServerPort: string,
    nodeHostName: string,
    nodeIP: string,
    labels: map<string, string>)

  /** How far `Run` has taken the agent through its startup sequence. */
  datatype Phase = Unregistered | Registered | Running
}
