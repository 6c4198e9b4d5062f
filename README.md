# Node agents of minik8s: per-firing decision logic

This project models the decision logic of minik8s's two node-local agents and
proves properties of it.

- **The proxy agent** (`KubeProxy`) runs three periodic firings.
  - `syncServices` is a four-stage fail-fast pipeline: service fetch, endpoint fetch, the iptables controller's `SyncConfig`, then `SyncIptables`.
  - `syncDns` is a two-stage pipeline: DNS fetch, then the hosts controller's `SyncEtcHosts`.
  - `syncServicesAndDnsToKubelet` is the report firing.
  - A sync writes its cached snapshot and raises its dirty flag only when every stage succeeded.
- **The node agent** (`Kubelet`):
  - registers its node and accepts the response only with a non-empty id;
  - recovers the pods assigned to the node;
  - turns the ordered stream of pod-update events into pod-manager calls;
  - overlays the collected status and pod count onto its node at each heartbeat;
  - starts in the fixed order register, then recover, then loops.

Every collaborator becomes a parameter carrying the outcome it produced: HTTP calls, the iptables and hosts controllers, the pod manager, the node runtime and the message queue. Each firing is one atomic step, matching the in-memory updates the agent makes under its mutex. Both agents are classes whose fields hold the state the Go structs keep. The methods `SyncServices`, `SyncDns`, `HeartBeat` and `Proxy` are each proved equal to a pure step function: `SyncServicesStep`, `SyncDnsStep`, `HeartbeatStep` and `Dispatch`. The properties are proved about those functions. `RegisterNode`, `FaultToleranceStart` and `Run` state their new state directly in their own contracts. Helpers without a row of their own serve the members below. `Fetched` is the test "status 200 and no error" applied to each GET (kubeProxy.go:61, :85, :93). `RunFirings` applies a sequence of firings in order and models the three pollers started by `Run` (kubeProxy.go:48-55).

Files:

- `wrappers.dfy` (`Wrappers`): `Option`, `Result` and `Outcome`.
- `kube_proxy.dfy` (`KubeProxyApp`): models `pkg/kubeProxy/app/kubeProxy.go`. The step functions cover single firings. `RunFirings` covers any interleaving of the three pollers' firings, and the lemmas about it cover whole runs.
- `kubelet_types.dfy` (`KubeletTypes`): the node, pod, event, call and request values.
- `kubelet.dfy` (`KubeletApp`): models `pkg/kubelet/kubelet.go`.

Behaviour of the code that the model keeps as written:

- The node agent validates the registration response by `Metadata.Id`. It keys the message-queue subscription and the recovery filter by `Metadata.Name` (kubelet.go:90, :103, :131). A node with an id but an empty name is accepted and subscribes under the empty key.
- Registration ignores the POST's status code. Only the returned error and the id count (kubelet.go:77-93).
- An error from the pod manager's `FaultToleranceStart` is only logged, and recovery still succeeds (kubelet.go:136-141).
- A heartbeat writes `Node.Status` before it fetches the local pods. The status therefore stays updated when that fetch fails (kubelet.go:160-165).
- No code path clears a dirty flag. Forwarding the snapshots upstream is an empty placeholder in the code (kubeProxy.go:115-128). The model's report firing only says which snapshots it would forward.
- The dirty flags are package-level variables in the Go code (kubeProxy.go:25-26). The model keeps them as fields of the one `KubeProxy` object of the process.

## Model

| member | source | states |
|---|---|---|
| KubeProxyApp.ServicesCommitted | pkg/kubeProxy/app/kubeProxy.go:85-110 | a service sync commits a snapshot exactly when both fetches return 200 without error, SyncConfig succeeds and SyncIptables succeeds; the committed snapshot is the SyncConfig result computed from that firing's two lists |
| KubeProxyApp.DnsCommitted | pkg/kubeProxy/app/kubeProxy.go:61-76 | a DNS sync commits exactly when the fetch returns 200 without error and SyncEtcHosts succeeds, and commits SyncEtcHosts's result for that firing's records |
| KubeProxyApp.SyncServicesStep | pkg/kubeProxy/app/kubeProxy.go:79-113 | the DNS snapshot and flag are untouched; on commit the snapshot is this firing's SyncConfig result and the flag is raised, otherwise the cache is unchanged; the stages run form a prefix of fetch services, fetch endpoints, SyncConfig, SyncIptables, each stage running iff every earlier one succeeded (a failed endpoint fetch means neither SyncConfig nor SyncIptables runs) |
| KubeProxyApp.SyncDnsStep | pkg/kubeProxy/app/kubeProxy.go:57-77 | the service snapshot and flag are untouched; on commit the DNS snapshot is SyncEtcHosts's result and the flag is raised, otherwise the cache is unchanged; SyncEtcHosts runs iff the fetch succeeded |
| KubeProxyApp.SyncServicesIdempotent | pkg/kubeProxy/app/kubeProxy.go:107-110 | a second service sync with the same outcomes leaves the same cache and runs the same stages as the first |
| KubeProxyApp.SyncDnsIdempotent | pkg/kubeProxy/app/kubeProxy.go:73-76 | a second DNS sync with the same outcomes leaves the same cache |
| KubeProxyApp.SyncsCommute | pkg/kubeProxy/app/kubeProxy.go:57-113 | a service sync and a DNS sync give the same cache in either order, so neither can block or undo the other |
| KubeProxyApp.Fire | pkg/kubeProxy/app/kubeProxy.go:48-55 | one firing of any of the three pollers writes a snapshot and raises its flag exactly when that firing commits it, and leaves each half of the cache alone otherwise; the report firing changes nothing |
| KubeProxyApp.LastServicesCommit | pkg/kubeProxy/app/kubeProxy.go:107-110 | the index of the last firing of a run that committed a services snapshot, or -1 when none did |
| KubeProxyApp.LastDnsCommit | pkg/kubeProxy/app/kubeProxy.go:73-76 | the index of the last firing of a run that committed a DNS snapshot, or -1 when none did |
| KubeProxyApp.ServicesCacheIsLastCommit | pkg/kubeProxy/app/kubeProxy.go:98-110 | after any run of firings the cached services snapshot is the one committed by the last committing service sync (a snapshot whose commit stage failed is never cached), and the flag is raised iff it was raised before or some firing committed |
| KubeProxyApp.DnsCacheIsLastCommit | pkg/kubeProxy/app/kubeProxy.go:67-76 | the same for the DNS snapshot and flag |
| KubeProxyApp.FlagsNeverCleared | pkg/kubeProxy/app/kubeProxy.go:115-128 | a dirty flag raised after some prefix of a run is still raised at the end: no firing clears it |
| KubeProxyApp.FreshFlagsRecordCommits | pkg/kubeProxy/app/kubeProxy.go:25-26 | starting from a fresh agent, each flag is raised after a run iff some firing of its sync committed |
| KubeProxyApp.KubeProxy.constructor | pkg/kubeProxy/app/kubeProxy.go:28-40 | a new agent has empty service and DNS snapshots, both flags false, and has invoked no stage |
| KubeProxyApp.KubeProxy.SyncDns | pkg/kubeProxy/app/kubeProxy.go:57-77 | the object's cache and stage trace move exactly as SyncDnsStep says |
| KubeProxyApp.KubeProxy.SyncServices | pkg/kubeProxy/app/kubeProxy.go:79-113 | the object's cache and stage trace move exactly as SyncServicesStep says |
| KubeProxyApp.KubeProxy.SyncServicesAndDnsToKubelet | pkg/kubeProxy/app/kubeProxy.go:115-128 | changes no field; the snapshots it would forward are exactly those whose flag is raised |
| KubeletApp.DraftNode | pkg/kubelet/kubelet.go:61-72 | the registration draft carries the configured labels, hostname and IP, no id or name, and exactly one condition, Ready |
| KubeletApp.CheckRegistration | pkg/kubelet/kubelet.go:82-93 | a registration succeeds iff the POST returned no error and the response's node id is non-empty; a transport error is passed on, an empty id is its own error |
| KubeletApp.MatchingPodsSplit | pkg/kubelet/kubelet.go:129-134 | the pods of the node selected from a map do not depend on which id is visited first |
| KubeletApp.MatchingPodsMembers | pkg/kubelet/kubelet.go:129-134 | a pod is among the selected pods iff it is assigned to the node and some id of the map maps to it |
| KubeletApp.NoMatchingPods | pkg/kubelet/kubelet.go:129-136 | when no pod of the set is assigned to the node, recovery receives nothing |
| KubeletApp.LocalPodsFromMultiset | pkg/kubelet/kubelet.go:129-134 | a list equal as a multiset to the selected pods holds only pods of the node and every pod of the set assigned to the node |
| KubeletApp.SelectLocalPods | pkg/kubelet/kubelet.go:129-134 | the filter loop, visiting the pod map in arbitrary order, returns exactly the pods whose node name is this node's: every returned pod matches, every matching pod is returned, and as a multiset the result is the matching pods, whatever the order |
| KubeletApp.DispatchOne | pkg/kubelet/kubelet.go:45-54 | an Add, Update or Remove event yields exactly one pod-manager call, for that event's pod, and an event of any other task type yields none |
| KubeletApp.Dispatch | pkg/kubelet/kubelet.go:44-55 | a stream of events yields no more pod-manager calls than it has events |
| KubeletApp.DispatchIndexStep | pkg/kubelet/kubelet.go:44-55 | each event adds exactly its own calls after those of the earlier events: one for Add, Update and Remove, none for any other type |
| KubeletApp.DispatchEmpty | pkg/kubelet/kubelet.go:44-55 | a stream yields no call at all iff every event has a task type other than Add, Update and Remove |
| KubeletApp.DispatchAppend | pkg/kubelet/kubelet.go:44-55 | dispatching two streams in turn issues the calls of their concatenation |
| KubeletApp.DispatchIndexCall | pkg/kubelet/kubelet.go:45-54 | each Add, Update or Remove event yields exactly its call (AddPod and UpdatePod with a nil callback, RemovePod with RemovePodCallback), placed after the calls of all earlier events |
| KubeletApp.DispatchIndexGrows | pkg/kubelet/kubelet.go:44-55 | the calls of later events come after the call of an earlier Add, Update or Remove event |
| KubeletApp.DispatchOrder | pkg/kubelet/kubelet.go:44-55 | two Add, Update or Remove events yield their own calls, in their delivery order |
| KubeletApp.AddBeforeUpdate | pkg/kubelet/kubelet.go:46-50 | an Add of a pod delivered before an Update of it reaches the pod manager as AddPod before UpdatePod, both with a nil callback |
| KubeletApp.GetNodeStatus | pkg/kubelet/kubelet.go:144-153 | fails iff the runtime fails, with the runtime's error; otherwise the collected status with only NumPods replaced by the pod manager's count |
| KubeletApp.HeartbeatStep | pkg/kubelet/kubelet.go:155-181 | the node's identity never changes; if status collection fails the node is unchanged and nothing is posted; otherwise the status becomes the collected one with NumPods set, and stays so even if the local-pod fetch then fails; a report of that status and the local pods is posted iff both succeeded |
| KubeletApp.Kubelet.constructor | pkg/kubelet/kubelet.go:25-37 | a new agent has the zero node, no subscription, is unregistered, and has issued no call or request |
| KubeletApp.Kubelet.Proxy | pkg/kubelet/kubelet.go:39-56 | with a subscription open, draining delivered events appends exactly their dispatched calls, in order, to the pod-manager calls |
| KubeletApp.Kubelet.RegisterNode | pkg/kubelet/kubelet.go:58-107 | posts the draft node; on success the node becomes the response node and the subscription is opened under its name; on failure the node and the subscription are unchanged |
| KubeletApp.Kubelet.FaultToleranceStart | pkg/kubelet/kubelet.go:111-142 | fails iff the pod set could not be fetched or decoded, and then calls nothing; otherwise passes the pod manager exactly this node's pods by node name and succeeds even when the pod manager reports an error |
| KubeletApp.Kubelet.HeartBeat | pkg/kubelet/kubelet.go:155-181 | the node and the posted requests move exactly as HeartbeatStep says |
| KubeletApp.Kubelet.Run | pkg/kubelet/kubelet.go:183-208 | registration always comes first; if it fails nothing else happens; if recovery fails no loop is started and no pod-manager call is made; otherwise the recovery call for this node comes before every dispatched event call and the agent reaches Running |

## Left out

- HTTP transport, JSON encoding and decoding, and the hard-coded URLs. Each request is an outcome parameter: a status code and error flag for the proxy's GETs, a `Result` elsewhere. Only "200 without error" versus anything else is distinguished.
- Goroutines, `sync.Mutex` and the poller periods (10 s and 5 s). Each firing is one atomic step. `RunFirings` covers any interleaving of whole firings, not firings that overlap mid-way.
- `KubeProxy.Init` and `KubeProxy.Run`. They only initialise the controllers and start the three pollers. What they start is covered by `Fire` and `RunFirings`.
- The internals of the iptables and hosts controllers, the pod manager, the node runtime manager and the message-queue proxy. They are foreign code; their results are parameters.
- Query-only pod-manager calls. `GetPodNum` and `FetchLocalPods` supply inputs and are not recorded among the pod-manager calls.
- The message queue's own delivery loop (`msgProxy.Run`). The channel is the finite sequence of events delivered before it closes.
- The CPU and memory usage fields (float64) of node and pod status, the pod fields other than its name and assigned node name, and the broker configuration.
- All logging output.
- The value of `NODE_Ready`. The node types package is not part of this model, so the constant is taken as `"Ready"`. Only its being the draft's single condition matters.
- KubeletApp.Kubelet.Run: the heartbeat poller runs beside the event loop. `Run` only records that it was started (phase Running). Heartbeat firings are the separate `HeartBeat` method, not interleaved with events. `Run` returns after the delivered events, whereas the Go code then blocks forever.
- KubeProxyApp.KubeProxy.constructor: both flags start false only for the first `KubeProxy` of a process. `NewKubeProxy` (kubeProxy.go:28-40) does not reset the package-level flags (kubeProxy.go:25-26), so a second agent would inherit them. The model's flags are per-object fields.
- The `phase` field is not in the Go struct. It records how far `Run` got through the startup sequence.
- `pkg/types/types.go` (declarations only) and the `kubectl` command-line front ends. They are outside the modelled agents.
