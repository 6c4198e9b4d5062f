/** The node agent's decision logic: registration with validation of the
    returned identity, fault-tolerant recovery of this node's pods, dispatch of
    pod-update events to the pod manager, the heartbeat's status overlay, and
    the startup order register, then recover, then loops. HTTP responses and
    pod-manager results are parameters. */
module KubeletApp {
  import opened Wrappers
  import opened KubeletTypes

  /** The node posted for registration: the configured labels, hostname and IP,
      the single condition Ready, and no identity yet. */
  function DraftNode(config: KubeletConfig): (n: Node)
    ensures n.metadata.labels == config.labels
    ensures n.metadata.id == "" && n.metadata.name == ""
    ensures n.status.hostname == config.nodeHostName && n.status.ip == config.nodeIP
    ensures n.status.condition == [NODE_READY]
  {
    Node(NodeMetadata("", "", config.labels), NodeStatus(config.nodeHostName, config.nodeIP, [NODE_READY], 0))
  }

  /** The verdict on a registration response: a transport error is returned as
      is, and a response whose node id is empty is rejected. */
  function CheckRegistration(response: Result<Node, KubeletError>): (r: Outcome<KubeletError>)
    ensures r.Pass? <==> response.Success? && response.value.metadata.id != ""
    ensures response.Failure? ==> r == Fail(response.error)
    ensures response.Success? && response.value.metadata.id == "" ==> r == Fail(EmptyNodeId)
  {
    match response
    case Failure(err) => Fail(err)
    case Success(node) => if node.metadata.id == "" then Fail(EmptyNodeId) else Pass
  }

  /** This pod as a multiset if it is assigned to the node, otherwise nothing. */
  function PodIfLocal(p: Pod, nodeName: string): multiset<Pod>
  {
    if p.spec.nodeName == nodeName then multiset{p} else multiset{}
  }

  /** The pods under the given ids that are assigned to the node, once per id,
      whatever order the ids are taken in. */
  ghost function MatchingPods(pods: map<string, Pod>, ids: set<string>, nodeName: string): multiset<Pod>
    requires ids <= pods.Keys
    decreases ids
  {
    if ids == {} then multiset{}
    else
      var id :| id in ids;
      PodIfLocal(pods[id], nodeName) + MatchingPods(pods, ids - {id}, nodeName)
  }

  /** Any id can be taken first: the matching pods do not depend on the order. */
  lemma {:induction false} MatchingPodsSplit(pods: map<string, Pod>, ids: set<string>, id: string, nodeName: string)
    requires ids <= pods.Keys && id in ids
    ensures MatchingPods(pods, ids, nodeName) == PodIfLocal(pods[id], nodeName) + MatchingPods(pods, ids - {id}, nodeName)
    decreases ids
  {
    var first :| first in ids && MatchingPods(pods, ids, nodeName)
                                 == PodIfLocal(pods[first], nodeName) + MatchingPods(pods, ids - {first}, nodeName);
    if first != id {
      MatchingPodsSplit(pods, ids - {first}, id, nodeName);
      MatchingPodsSplit(pods, ids - {id}, first, nodeName);
      assert ids - {first} - {id} == ids - {id} - {first};
    }
  }

  /** A pod is among the matching pods exactly when some id maps to it and it is
      assigned to the node. */
  lemma {:induction false} MatchingPodsMembers(pods: map<string, Pod>, ids: set<string>, nodeName: string, p: Pod)
    requires ids <= pods.Keys
    ensures p in MatchingPods(pods, ids, nodeName) <==>
              p.spec.nodeName == nodeName && exists id :: id in ids && pods[id] == p
    decreases ids
  {
    if ids != {} {
      var id :| id in ids;
      MatchingPodsSplit(pods, ids, id, nodeName);
      MatchingPodsMembers(pods, ids - {id}, nodeName, p);
      if p.spec.nodeName == nodeName && pods[id] != p {
        assert (exists other :: other in ids && pods[other] == p) ==> (exists other :: other in ids - {id} && pods[other] == p);
      }
    }
  }

  /** A node none of whose pods is in the set recovers with an empty list. */
  lemma NoMatchingPods(pods: map<string, Pod>, nodeName: string)
    requires forall id :: id in pods ==> pods[id].spec.nodeName != nodeName
    ensures MatchingPods(pods, pods.Keys, nodeName) == multiset{}
  {
    if MatchingPods(pods, pods.Keys, nodeName) != multiset{} {
      var p :| p in MatchingPods(pods, pods.Keys, nodeName);
      MatchingPodsMembers(pods, pods.Keys, nodeName, p);
    }
  }

  /** The list handed to the pod manager's FaultToleranceStart: every pod in it
      is assigned to the node, every pod of the set assigned to the node is in
      it, and each appears as often as ids map to it. */
  ghost predicate LocalPodsOf(podList: seq<Pod>, pods: map<string, Pod>, nodeName: string)
  {
    && (forall i :: 0 <= i < |podList| ==> podList[i].spec.nodeName == nodeName)
    && (forall id :: id in pods && pods[id].spec.nodeName == nodeName ==> pods[id] in podList)
    && multiset(podList) == MatchingPods(pods, pods.Keys, nodeName)
  }

  /** A list holding exactly the matching pods, counted with multiplicity, holds
      only pods of the node and every pod of the node. */
  lemma LocalPodsFromMultiset(podList: seq<Pod>, pods: map<string, Pod>, nodeName: string)
    requires multiset(podList) == MatchingPods(pods, pods.Keys, nodeName)
    ensures LocalPodsOf(podList, pods, nodeName)
  {
    forall i | 0 <= i < |podList| ensures podList[i].spec.nodeName == nodeName {
      MatchingPodsMembers(pods, pods.Keys, nodeName, podList[i]);
    }
    forall id | id in pods && pods[id].spec.nodeName == nodeName ensures pods[id] in podList {
      MatchingPodsMembers(pods, pods.Keys, nodeName, pods[id]);
    }
  }

  /** The filter loop of `FaultToleranceStart`, visiting the pod map in an
      arbitrary order as a Go map range does. */
  method SelectLocalPods(pods: map<string, Pod>, nodeName: string) returns (podList: seq<Pod>)
    ensures LocalPodsOf(podList, pods, nodeName)
  {
    podList := [];
    var remaining := pods.Keys;
    while remaining != {}
      invariant remaining <= pods.Keys
      invariant multiset(podList) + MatchingPods(pods, remaining, nodeName) == MatchingPods(pods, pods.Keys, nodeName)
      decreases remaining
    {
      var id :| id in remaining;
      MatchingPodsSplit(pods, remaining, id, nodeName);
      if pods[id].spec.nodeName == nodeName {
        podList := podList + [pods[id]];
      }
      remaining := remaining - {id};
    }
    LocalPodsFromMultiset(podList, pods, nodeName);
  }

  /** The pod-manager call one event yields: Add and Update with a nil callback,
      Remove with the pod manager's RemovePodCallback, any other type none. */
  function DispatchOne(update: PodUpdate): (r: seq<PodCall>)
    ensures |r| == (if update.taskType == TaskOther then 0 else 1)
    ensures |r| == 1 ==> !r[0].FaultToleranceStart? && r[0].pod == update.pod
  {
    match update.taskType
    case TaskAdd => [AddPod(update.pod, NoCallback)]
    case TaskUpdate => [UpdatePod(update.pod, NoCallback)]
    case TaskRemove => [RemovePod(update.pod, RemovePodCallback)]
    case TaskOther => []
  }

  /** The pod-manager calls a stream of events yields, in delivery order. */
  function Dispatch(events: seq<PodUpdate>): (calls: seq<PodCall>)
    ensures |calls| <= |events|
    decreases |events|
  {
    if events == [] then [] else Dispatch(events[..|events| - 1]) + DispatchOne(events[|events| - 1])
  }

  /** No call is issued exactly when every event has some other task type. */
  lemma {:induction false} DispatchEmpty(events: seq<PodUpdate>)
    ensures Dispatch(events) == [] <==> forall k :: 0 <= k < |events| ==> events[k].taskType == TaskOther
    decreases |events|
  {
    if events != [] {
      var init := events[..|events| - 1];
      DispatchEmpty(init);
      assert forall k :: 0 <= k < |init| ==> init[k] == events[k];
    }
  }

  /** Dispatching two streams one after the other is dispatching their concatenation. */
  lemma {:induction false} DispatchAppend(a: seq<PodUpdate>, b: seq<PodUpdate>)
    ensures Dispatch(a + b) == Dispatch(a) + Dispatch(b)
    decreases |b|
  {
    if b == [] {
      assert a + b == a;
    } else {
      var init, last := b[..|b| - 1], b[|b| - 1];
      assert (a + b)[..|a + b| - 1] == a + init && (a + b)[|a + b| - 1] == last;
      DispatchAppend(a, init);
      assert Dispatch(b) == Dispatch(init) + DispatchOne(last);
    }
  }

  /** Where the call of event i lands: after the calls of all earlier events. */
  function DispatchIndex(events: seq<PodUpdate>, i: nat): nat
    requires i <= |events|
  {
    |Dispatch(events[..i])|
  }

  /** Event i contributes exactly its own calls: one for Add, Update and Remove,
      none for any other task type. */
  lemma DispatchIndexStep(events: seq<PodUpdate>, i: nat)
    requires i < |events|
    ensures DispatchIndex(events, i + 1) == DispatchIndex(events, i) + |DispatchOne(events[i])|
  {
    assert events[..i + 1][..i] == events[..i];
  }

  /** An Add, Update or Remove event's call sits at its dispatch index. */
  lemma {:induction false} DispatchIndexCall(events: seq<PodUpdate>, i: nat)
    requires i < |events| && events[i].taskType != TaskOther
    ensures DispatchIndex(events, i) < |Dispatch(events)|
    ensures Dispatch(events)[DispatchIndex(events, i)] == DispatchOne(events[i])[0]
    decreases |events|
  {
    var init := events[..|events| - 1];
    if i < |init| {
      assert init[..i] == events[..i] && init[i] == events[i];
      DispatchIndexCall(init, i);
    } else {
      assert init == events[..i];
    }
  }

  /** A later event's calls come after an earlier Add, Update or Remove event's call. */
  lemma {:induction false} DispatchIndexGrows(events: seq<PodUpdate>, i: nat, j: nat)
    requires i < j <= |events| && events[i].taskType != TaskOther
    ensures DispatchIndex(events, i) < DispatchIndex(events, j)
    decreases j
  {
    assert events[..j][..j - 1] == events[..j - 1];
    if i < j - 1 {
      DispatchIndexGrows(events, i, j - 1);
    }
  }

  /** Each Add, Update or Remove event yields exactly its call, and the calls of
      two such events come in their delivery order. */
  lemma {:induction false} DispatchOrder(events: seq<PodUpdate>, i: nat, j: nat)
    requires i < j < |events|
    requires events[i].taskType != TaskOther && events[j].taskType != TaskOther
    ensures DispatchIndex(events, i) < DispatchIndex(events, j) < |Dispatch(events)|
    ensures Dispatch(events)[DispatchIndex(events, i)] == DispatchOne(events[i])[0]
    ensures Dispatch(events)[DispatchIndex(events, j)] == DispatchOne(events[j])[0]
  {
    DispatchIndexCall(events, i);
    DispatchIndexCall(events, j);
    DispatchIndexGrows(events, i, j);
  }

  /** An Add of a pod delivered before an Update of it reaches the pod manager
      as AddPod before UpdatePod, both with a nil callback. */
  lemma {:induction false} AddBeforeUpdate(events: seq<PodUpdate>, i: nat, j: nat, p: Pod)
    requires i < j < |events|
    requires events[i] == PodUpdate(TaskAdd, p) && events[j] == PodUpdate(TaskUpdate, p)
    ensures DispatchIndex(events, i) < DispatchIndex(events, j) < |Dispatch(events)|
    ensures Dispatch(events)[DispatchIndex(events, i)] == AddPod(p, NoCallback)
    ensures Dispatch(events)[DispatchIndex(events, j)] == UpdatePod(p, NoCallback)
  {
    DispatchOrder(events, i, j);
  }

  /** `GetNodeStatus`: the status collected from the runtime with the pod
      manager's pod count written over NumPods, or the runtime's error. */
  function GetNodeStatus(collected: Result<NodeStatus, KubeletError>, podNum: int): (r: Result<NodeStatus, KubeletError>)
    ensures r.Success? <==> collected.Success?
    ensures collected.Failure? ==> r.error == collected.error
    ensures collected.Success? ==> r.value.numPods == podNum && r.value.(numPods := collected.value.numPods) == collected.value
  {
    match collected
    case Failure(err) => Failure(err)
    case Success(status) => Success(status.(numPods := podNum))
  }

  /** The node after one heartbeat, and the POST it sent, if any. */
  datatype HeartbeatResult = HeartbeatResult(node: Node, posted: seq<Request>)

  /** One heartbeat firing: without a collected status nothing changes and
      nothing is posted; otherwise the node's status is overwritten before the
      local pods are fetched, and only with those pods is the report posted. */
  function HeartbeatStep(node: Node, collected: Result<NodeStatus, KubeletError>, podNum: int,
                         localPods: Result<seq<Pod>, KubeletError>): (r: HeartbeatResult)
    ensures r.node.metadata == node.metadata
    ensures collected.Failure? ==> r.node == node && r.posted == []
    ensures collected.Success? ==> r.node.status.numPods == podNum
                                   && r.node.status.(numPods := collected.value.numPods) == collected.value
    ensures r.posted == if collected.Success? && localPods.Success?
                        then [HeartbeatRequest(r.node.status, localPods.value)] else []
  {
    match GetNodeStatus(collected, podNum)
    case Failure(_) => HeartbeatResult(node, [])
    case Success(status) =>
      var updated := node.(status := status);
      match localPods
      case Failure(_) => HeartbeatResult(updated, [])
      case Success(pods) => HeartbeatResult(updated, [HeartbeatRequest(updated.status, pods)])
  }

  /** The last pod-manager call in `after` is the recovery call for this node and
      `before` is what came before it. */
  ghost predicate RecoveryAppended(before: seq<PodCall>, after: seq<PodCall>, pods: map<string, Pod>, nodeName: string)
  {
    && |after| == |before| + 1
    && after[..|before|] == before
    && after[|before|].FaultToleranceStart?
    && LocalPodsOf(after[|before|].pods, pods, nodeName)
  }

  /** The node agent object: its configuration, its node record, the key of its
      message-queue subscription (None while none is open), how far startup has
      got, and the pod-manager calls and control-plane POSTs issued so far. */
  class Kubelet {
    const config: KubeletConfig
    var node: Node
    var subscribedKey: Option<string>
    var phase: Phase
    var podManagerCalls: seq<PodCall>
    var requests: seq<Request>

    /** `NewKubelet`: no node identity and no subscription before registration. */
    constructor (config: KubeletConfig)
      ensures this.config == config && node == ZERO_NODE && subscribedKey == None && phase == Unregistered
      ensures podManagerCalls == [] && requests == []
    {
      this.config := config;
      node := ZERO_NODE;
      subscribedKey := None;
      phase := Unregistered;
      podManagerCalls := [];
      requests := [];
    }

    /** `Proxy`: drains the delivered events in order into pod-manager calls. */
    method Proxy(events: seq<PodUpdate>)
      requires subscribedKey.Some?
      modifies this`podManagerCalls
      ensures podManagerCalls == old(podManagerCalls) + Dispatch(events)
    {
      for i := 0 to |events|
        invariant podManagerCalls == old(podManagerCalls) + Dispatch(events[..i])
      {
        var update := events[i];
        assert events[..i + 1][..i] == events[..i];
        match update.taskType {
          case TaskAdd =>
            podManagerCalls := podManagerCalls + [AddPod(update.pod, NoCallback)];
          case TaskUpdate =>
            podManagerCalls := podManagerCalls + [UpdatePod(update.pod, NoCallback)];
          case TaskRemove =>
            podManagerCalls := podManagerCalls + [RemovePod(update.pod, RemovePodCallback)];
          case TaskOther =>
        }
      }
      assert events[..|events|] == events;
    }

    /** `RegisterNode`: posts the draft; only a response with a non-empty id
        replaces the node, and the subscription is then keyed by its name. */
    method RegisterNode(response: Result<Node, KubeletError>) returns (result: Outcome<KubeletError>)
      modifies this`node, this`subscribedKey, this`requests
      ensures requests == old(requests) + [RegisterRequest(DraftNode(config))]
      ensures result == CheckRegistration(response)
      ensures result.Pass? ==> node == response.value && subscribedKey == Some(response.value.metadata.name)
      ensures result.Fail? ==> node == old(node) && subscribedKey == old(subscribedKey)
    {
      var draft := DraftNode(config);
      requests := requests + [RegisterRequest(draft)];
      if response.Failure? {
        return Fail(response.error);
      }
      var responseNode := response.value;
      if responseNode.metadata.id == "" {
        return Fail(EmptyNodeId);
      }
      node := responseNode;
      subscribedKey := Some(node.metadata.name);
      return Pass;
    }

    /** `FaultToleranceStart`: fails only when the pod set cannot be fetched or
        decoded; otherwise hands the pod manager this node's pods (by node
        name) and succeeds even when the pod manager reports an error. */
    method FaultToleranceStart(podSet: Result<map<string, Pod>, KubeletError>, recoveryFailed: bool)
      returns (result: Outcome<KubeletError>)
      modifies this`podManagerCalls
      ensures result.Pass? <==> podSet.Success?
      ensures podSet.Failure? ==> result == Fail(podSet.error) && podManagerCalls == old(podManagerCalls)
      ensures podSet.Success? ==> RecoveryAppended(old(podManagerCalls), podManagerCalls, podSet.value, node.metadata.name)
    {
      if podSet.Failure? {
        return Fail(podSet.error);
      }
      var podList := SelectLocalPods(podSet.value, node.metadata.name);
      // whether the pod manager reported an error (`recoveryFailed`) does not
      // change the result: that error is only logged
      podManagerCalls := podManagerCalls + [PodCall.FaultToleranceStart(podList)];
      return Pass;
    }

    /** `HeartBeat`: one firing of the heartbeat poller. */
    method HeartBeat(collected: Result<NodeStatus, KubeletError>, podNum: int,
                     localPods: Result<seq<Pod>, KubeletError>)
      modifies this`node, this`requests
      ensures var r := HeartbeatStep(old(node), collected, podNum, localPods);
              node == r.node && requests == old(requests) + r.posted
    {
      var nodeStatus := GetNodeStatus(collected, podNum);
      if nodeStatus.Failure? {
        return;
      }
      node := node.(status := nodeStatus.value);
      if localPods.Failure? {
        return;
      }
      // the POST's own error is only logged
      requests := requests + [HeartbeatRequest(node.status, localPods.value)];
    }

    /** `Run`: register, then recover, then start the event loop, the queue's
        delivery loop and the heartbeat; a failed step ends startup. The event
        loop is shown draining the events delivered to it. */
    method Run(registration: Result<Node, KubeletError>, podSet: Result<map<string, Pod>, KubeletError>,
               recoveryFailed: bool, events: seq<PodUpdate>)
      modifies this
      ensures requests == old(requests) + [RegisterRequest(DraftNode(config))]
      ensures CheckRegistration(registration).Fail? ==>
                && phase == old(phase) && node == old(node) && subscribedKey == old(subscribedKey)
                && podManagerCalls == old(podManagerCalls)
      ensures CheckRegistration(registration).Pass? ==>
                node == registration.value && subscribedKey == Some(node.metadata.name)
      ensures CheckRegistration(registration).Pass? && podSet.Failure? ==>
                phase == Registered && podManagerCalls == old(podManagerCalls)
      ensures CheckRegistration(registration).Pass? && podSet.Success? ==>
                && phase == Running
                && |podManagerCalls| == |old(podManagerCalls)| + 1 + |Dispatch(events)|
                && RecoveryAppended(old(podManagerCalls), podManagerCalls[..|old(podManagerCalls)| + 1],
                                    podSet.value, node.metadata.name)
                && podManagerCalls[|old(podManagerCalls)| + 1..] == Dispatch(events)
    {
      var err := RegisterNode(registration);
      if err.Fail? {
        return;
      }
      phase := Registered;
      err := FaultToleranceStart(podSet, recoveryFailed);
      if err.Fail? {
        return;
      }
      phase := Running;
      ghost var recovered := podManagerCalls;
      Proxy(events);
      assert podManagerCalls[..|recovered|] == recovered;
      assert podManagerCalls[|recovered|..] == Dispatch(events);
    }
  }
}
