# Verified model of the module controller

The module controller keeps business modules running on koupleless bases: it steers the replicas of
"peer" deployments by the number of ready virtual nodes of their base cluster, and talks to the bases
through an HTTP and an MQTT tunnel. This project models that logic in Dafny and proves what it keeps.
`dafny verify dfyconfig.toml` checks all of it.

## What is modelled

- **Peer replicas** (`ReplicaProtocol`, `ReplicaConvergence`, `ReplicaDraining`, `ReplicaToken`, `ReplicaLimits`, `ReplicaPass`,
  `ReplicaRuns`, `Cluster`, `ModuleDeploymentControllers`). `Reconcile` is a placeholder, so agreement rests on event
  handlers that work from stale snapshots and lagging caches. The protocol is a state machine: the server's write
  logs of nodes and deployments, two cache positions, two positions in the event streams, the one-slot token, and
  three goroutines (node events, deployment events, the start-up pass) with separate steps for listing, taking the
  token, counting, patching and releasing, and for failing calls. The controller's methods are a class, proved
  against the pass function that every undisturbed section of the protocol also computes.
- **Coalescing status query** (`QueryProtocol`, `QueryCoverage`, `QueryTermination`, `QueryLimits`). Any number of concurrent calls of
  `QueryAllBizStatusData` around one try-lock and one flag, each flag access an atomic step, with restarts.
- **Base statuses and biz commands** (`BaseHistory`, `HttpTunnels`, `BaseStatuses`, `Decimal`, `BizStatuses`). The table of base
  statuses as a function of history, the conversions, and the agreement of the tunnel with the base it commands.
- **Baseline query** (`Baseline`) and **MQTT topics and subscriptions** (`Topics`, `MqttTunnels`).

## Assumptions

- One controller process. An informer updates its cache before it calls the handler and delivers events in order;
  one goroutine runs the handlers of one informer. A patch that changes nothing raises no event.
- Convergence is stated for runs in which the control is switched on and every node write is covered: it changes no
  count, or its event is delivered and all counts it changes belong to the cluster of the object handed over. Watched
  nodes that keep their cluster label always satisfy this. The test is exact: each write that fails it has a run that
  settles wrongly. Calls may fail; a deployment is right in the end if none of the failures concerned it, or if it, or
  a node of its cluster, was written after the last that did. The start-up pass may fail; it is not needed.
- `Resolves` in `Cluster` says that reading the cluster name does not index an empty value list; the code panics there.
- A biz's name is its container's, and container names hold no colon; without that, two bizs can share an identity
  (`SharedIdentity`).
- Node names are taken apart into the ID they were made from (`NameInverts`), and the texts `vnode`, `BROKEN`,
  `ACTIVATED`, `DEACTIVATED` and the label keys of the virtual-kubelet library are its constants as the repository's
  manifests, suites and documentation show them; that library is not part of this model.

## Findings

- A refused query sets the flag in a second step
  (module_tunnels/koupleless_http_tunnel/http_tunnel.go:295-298). A flag write that lands after the holder's last look
  is read by nobody; if the request also came after the last fetch began, no fetch follows it until someone asks again
  (`LateFlagIsForgotten`). No other request is left without a later fetch (`UnservedRequestWroteLate`).
- A restarted query asks for the holder's node (the same file, line 304), so another node's refused request can go
  unserved with the flag down (`OtherNodeIsForgotten`; with one node none does, `RequestsForOneNodeServed`).
- The update handler ignores the old object
  (controller/module_deployment_controller/module_deployment_controller.go:200), so moving a ready node to another
  cluster by relabelling it leaves the old cluster's deployments with one replica too many
  (`UncoveredWriteBreaksConvergence`).
- A failed listing, count or patch is logged and not retried (the same file, lines 229-232, 289-292 and 298-300): the
  one deployment, or cluster, it concerned stays wrong until it is written again (`LostListBreaksConvergence`,
  `LostCallBreaksConvergence`; repaired by `Healing`).
- The baseline is sorted with an unstable sort (the same file, line 174): deployments created at one time can come in
  either order (`AnswerFixedIffTiesCommute` says when it shows).
- Removing a node leaves its batch-install topic subscribed (module_tunnels/koupleless_mqtt_tunnel/mqtt_tunnel.go:111-120),
  and a registration that breaks off leaves its first topics subscribed (lines 77-107) (`SubscribedIffWanted`).
- A base status with port 0 comes back with port 1238 (common/utils/utils.go:79-81; `RoundTripIsLossless`).

## Model

| member | source | states |
|---|---|---|
| `ReplicaConvergence.Convergence` | controller/module_deployment_controller/module_deployment_controller.go:193-303 | For every interleaving of writes, cache advances, event pick-ups and handler micro-steps, with the control on, no lost List, count or Patch and covered node writes: wherever everything has settled, each module deployment of the environment labelled with strategy peer, whose replicas-control label is absent or not "true" and which names a cluster, has one replica per node that carries the cluster name, runs and has a True Ready condition |
| `ReplicaConvergence.ConvergenceOf` | controller/module_deployment_controller/module_deployment_controller.go:193-303 | The same for one deployment while calls fail: only a lost count or patch for its current snapshot, or a lost listing for a node of its current cluster, could make it wrong; every other failure is harmless to it |
| `ReplicaConvergence.Healing` | controller/module_deployment_controller/module_deployment_controller.go:193-303 | After any run at all, failed calls and uncovered writes included: once the node cache has seen the last uncovered write, one write to a deployment, or one delivered node event of its cluster, makes it right again wherever everything has settled, as long as no later failure concerns it |
| `ReplicaConvergence.AccountStep` | controller/module_deployment_controller/module_deployment_controller.go:193-303 | Each step, failed calls that do not concern the deployment included, keeps the account: a steered deployment is right for the cached nodes, or its current snapshot is still to be counted (event due or in a list in hand), or a node event of its cluster is still due |
| `ReplicaProtocol.NodeHandlerSees` | controller/module_deployment_controller/module_deployment_controller.go:113-122 | Creation and update hand over the new node, deletion the old one, if and only if that object is labelled as a vnode of the environment |
| `ReplicaProtocol.DeploymentHandlerSees` | controller/module_deployment_controller/module_deployment_controller.go:134-143 | Creation and update hand over the new deployment if and only if it is labelled as a module deployment of the environment; a deletion hands over nothing |
| `ReplicaProtocol.StarterSees` | controller/module_deployment_controller/module_deployment_controller.go:100-111 | The start-up pass takes up every cached module deployment of the environment once, as it is cached, and nothing else |
| `ReplicaConvergence.ListedOrStillDue` | controller/module_deployment_controller/module_deployment_controller.go:212-242 | The node handler's unlocked read of the deployment cache loses nothing: a related deployment is listed as it is now, or its own event is still ahead |
| `ReplicaConvergence.PatchKeepsAccount` | controller/module_deployment_controller/module_deployment_controller.go:294-301 | A patch for a still-current snapshot changes the object and so raises a new event; one that changes nothing came from a snapshot no longer current |
| `ReplicaConvergence.NodeCacheMoves` | controller/module_deployment_controller/module_deployment_controller.go:340-367 | When the node cache moves, every deployment whose count changes has the node event that will revisit it still due |
| `ReplicaConvergence.SettledAgrees` | controller/module_deployment_controller/module_deployment_controller.go:43-47 | Once settled, the account leaves no possibility but being right: event handlers alone do the work of a reconcile loop |
| `ReplicaDraining.AlwaysSettles` | controller/module_deployment_controller/module_deployment_controller.go:253-303 | After any run, under every scheduler and whichever calls fail on the way, once others stop writing the controller settles in finitely many steps |
| `ReplicaDraining.EventualAgreement` | controller/module_deployment_controller/module_deployment_controller.go:253-303 | After a faithful run, each steered, watched deployment that no call failing on the way concerned is then right, and all of them are if no call failed |
| `ReplicaDraining.EventualHealing` | controller/module_deployment_controller/module_deployment_controller.go:253-303 | After any run with the last uncovered write seen, one write to a deployment or one delivered node event of its cluster is enough for it to be right in the end |
| `ReplicaDraining.QuietStepDecreases` | controller/module_deployment_controller/module_deployment_controller.go:253-303 | Every step that is not a write by others, failed calls included, decreases the measure (node-cache lag, listings to come, stale snapshots, wrong deployments, work in hand), so the controller's own patches cannot feed themselves |
| `ReplicaDraining.ChangingSendDecreases` | controller/module_deployment_controller/module_deployment_controller.go:370-380 | A patch that changes the object either uses up a stale snapshot or makes one more deployment right |
| `ReplicaDraining.AlwaysAStep` | controller/module_deployment_controller/module_deployment_controller.go:263-270 | Short of settling, some step is always possible: the token is never lost and nobody waits for ever |
| `ReplicaToken.TokenIsConserved` | controller/module_deployment_controller/module_deployment_controller.go:263-275 | In every run, tokens in the channel plus goroutines in the section equal one, on the early return too, and the deferred send finds the slot empty |
| `ReplicaToken.FreshCountsWin` | controller/module_deployment_controller/module_deployment_controller.go:288-301 | In every run, each patch carries the exact count of its cluster at a position of the node cache, and those positions never go back |
| `ReplicaLimits.UncoveredWriteBreaksConvergence` | controller/module_deployment_controller/module_deployment_controller.go:199-203 | For every node write that is not covered (a moved or unwatched counted node) there is a run with no failed call and no other write but setting the scene that settles with wrong replicas |
| `ReplicaLimits.LostCallBreaksConvergence` | controller/module_deployment_controller/module_deployment_controller.go:288-300 | For every watched, controlled deployment that asks for replicas where there is no node: its one lost count, or its one lost patch, everything else succeeding, leaves it wrong once all has settled |
| `ReplicaLimits.LostListBreaksConvergence` | controller/module_deployment_controller/module_deployment_controller.go:223-232 | For every watched, ready node and every deployment of its cluster that was right without it: losing the one listing for the node, a covered write, leaves the deployment wrong |
| `ReplicaLimits.NeglectedDeployment` | controller/module_deployment_controller/module_deployment_controller.go:272-275 | The switched-off control and an unwatched deployment each leave replicas that disagree for ever, with no call lost |
| `Cluster.CoveredIffLocal` | controller/module_deployment_controller/module_deployment_controller.go:199-242 | A node write changes only counts of the cluster whose deployments its delivered event revisits, if and only if it passes the coverage test on its two objects |
| `Cluster.StableLabelIsCovered` | controller/module_deployment_controller/predicates.go:22-32 | Watched nodes that come, go or keep their cluster label pass that test |
| `Cluster.CountAfterWrite` | controller/module_deployment_controller/module_deployment_controller.go:340-367 | A node write moves a cluster's count by one for leaving it and one for entering it, whatever else the table holds |
| `Cluster.LabelNamesCluster` | controller/module_deployment_controller/module_deployment_controller.go:305-308 | A cluster label, empty or not, names the cluster whatever selector and affinity hold |
| `Cluster.SelectorNamesCluster` | controller/module_deployment_controller/module_deployment_controller.go:310-314 | Without the label, the node selector names it whatever the affinity holds |
| `Cluster.NothingNamesCluster` | controller/module_deployment_controller/module_deployment_controller.go:305-330 | A deployment that mentions the key nowhere has the empty cluster name |
| `Cluster.AffinityFirstMatch` | controller/module_deployment_controller/module_deployment_controller.go:305-330 | Without label and selector the cluster is the first value of the first matching affinity expression, in reading order over terms and expressions |
| `Cluster.FirstInTerms` | controller/module_deployment_controller/module_deployment_controller.go:320-326 | Finds the first term with a matching expression, and nothing only when no term has one |
| `Cluster.FirstInTerm` | controller/module_deployment_controller/module_deployment_controller.go:321-325 | Finds the first matching expression of a term, and nothing only when there is none |
| `ReplicaPass.PassAt` | controller/module_deployment_controller/module_deployment_controller.go:277-302 | Over any list, stale and repeated snapshots included, a deployment ends with the count of the last snapshot that patches it and is otherwise unchanged |
| `ReplicaPass.PassUntouched` | controller/module_deployment_controller/module_deployment_controller.go:277-302 | A pass adds and removes no deployment, and leaves alone those no snapshot patches |
| `ReplicaPass.PassOverCurrentList` | controller/module_deployment_controller/module_deployment_controller.go:263-303 | Over a current list every eligible entry gets the ready count of its cluster and nothing else changes |
| `ReplicaPass.CurrentSnapshotDecides` | controller/module_deployment_controller/module_deployment_controller.go:277-301 | Over any list: a deployment with one snapshot in it, and that one current, ends with the ready count of its cluster if its labels say strategy peer, replicas-control is absent or not "true" and it names a cluster, and otherwise stays exactly as it was |
| `ReplicaPass.SecondPassIsIdle` | controller/module_deployment_controller/module_deployment_controller.go:294-301 | A second pass over the refreshed list with the same nodes sends no patch |
| `ReplicaPass.NodeEventsAreLocal` | controller/module_deployment_controller/module_deployment_controller.go:212-242 | A covered node write changes the wanted count only of deployments its handler lists as related |
| `ReplicaPass.SectionRefinesPass` | controller/module_deployment_controller/module_deployment_controller.go:263-303 | From any reachable state and for every interleaving in which no deployment is written by others, the node cache stands still and none of the section's own calls fail: when the section has nothing left to do, the server is where one pass over its list takes it, the token keeping the other goroutines out |
| `ReplicaPass.SectionCompletes` | controller/module_deployment_controller/module_deployment_controller.go:277-302 | By its own counts and patches alone a section can always work off its list |
| `ModuleDeploymentControllers.ModuleDeploymentController.UpdateDeploymentReplicas` | controller/module_deployment_controller/module_deployment_controller.go:263-303 | With the control on, each deployment whose one snapshot in the list is current gets the ready count if it is a peer by label, has not opted out and names a cluster, and stays as it was otherwise; deployments not in the list stay, none comes or goes; with the control off nothing changes; the token is back on every way out |
| `ModuleDeploymentControllers.ModuleDeploymentController.GetReadyNodeCount` | controller/module_deployment_controller/module_deployment_controller.go:340-367 | The number of cached nodes with that cluster label, phase Running and a Ready condition that is True, each counted once |
| `ModuleDeploymentControllers.ModuleDeploymentController.GetRelatedDeploymentsByNode` | controller/module_deployment_controller/module_deployment_controller.go:212-242 | Lists, as cached and once each, exactly the deployments labelled strategy peer whose non-empty cluster name is the node's cluster label |
| `ModuleDeploymentControllers.ModuleDeploymentController.HandleVnode` | controller/module_deployment_controller/module_deployment_controller.go:193-210 | With the control on, the server is one pass over a listing of exactly the cached peer deployments of the node's cluster, whatever the cache holds; with a current cache, exactly the steered ones among them become right and no other field or deployment changes |
| `ModuleDeploymentControllers.ModuleDeploymentController.HandleDeployment` | controller/module_deployment_controller/module_deployment_controller.go:244-260 | With the control on, the server is one pass over the event's own snapshot, however old; with a current snapshot, exactly that deployment becomes right if it is steered |
| `ModuleDeploymentControllers.ModuleDeploymentController.UpdateDeploymentReplicasOfKubernetes` | controller/module_deployment_controller/module_deployment_controller.go:369-380 | No deployment comes or goes and no other one changes; the named one gets the replicas and keeps its labels, selector, affinity, creation time and containers; one that is gone is no error |
| `ModuleDeploymentControllers.ModuleDeploymentController.SetupWithManager` | controller/module_deployment_controller/module_deployment_controller.go:49-60 | Set-up fills the empty one-slot channel |
| `ModuleDeploymentControllers.ModuleDeploymentController.QueryContainerBaseline` | controller/module_deployment_controller/module_deployment_controller.go:158-191 | Each deployment of the environment whose label, else selector, else affinity names the requested, non-empty cluster has its containers in the answer in their order, those of an older one before those of a younger one; nothing else is in it |
| `Baseline.AnswerOfEach` | controller/module_deployment_controller/module_deployment_controller.go:180-188 | The answer is the concatenation over the sorted list of the containers of each deployment of that cluster, and of nothing for the others or when no cluster is named |
| `Baseline.AnswerMultisetIsFixed` | controller/module_deployment_controller/module_deployment_controller.go:173-190 | The answer's containers, with multiplicity, do not depend on listing order or sort |
| `Baseline.AnswerFixedIffTiesCommute` | controller/module_deployment_controller/module_deployment_controller.go:173-190 | The sequence of the answer is the same in every order by creation time if and only if any two matching deployments created at one time hold containers that concatenate alike both ways |
| `Baseline.DistinctTimesFixTheAnswer` | controller/module_deployment_controller/module_deployment_controller.go:174-176 | In particular it is when the matching deployments were created at distinct times |
| `Baseline.MatchingSorted` | controller/module_deployment_controller/module_deployment_controller.go:180-188 | Picking the cluster's deployments keeps creation order |
| `QueryCoverage.NeverForgets` | module_tunnels/koupleless_http_tunnel/http_tunnel.go:294-306 | In every reachable state, for each refused call whose flag write has landed, the flag is up or a holder has cleared it since and begins its fetch after that clear |
| `QueryCoverage.AllRequestsServed` | module_tunnels/koupleless_http_tunnel/http_tunnel.go:291-325 | With no active call and the flag down, every request was followed by a fetch attempt begun after it |
| `QueryCoverage.FlagTellsAtRest` | module_tunnels/koupleless_http_tunnel/http_tunnel.go:294-306 | With no active call, the flag is down if and only if every refusal's flag write was followed by a fetch attempt |
| `QueryCoverage.UnservedRequestWroteLate` | module_tunnels/koupleless_http_tunnel/http_tunnel.go:294-305 | With no active call, a request that no fetch attempt came after was refused, and its own flag write landed after the last look at the flag, the last clear and the last fetch |
| `QueryCoverage.AtomicRefusalForgetsNothing` | module_tunnels/koupleless_http_tunnel/http_tunnel.go:294-298 | Were refusal and flag write one step, the flag would be down whenever no call is active |
| `QueryCoverage.OneQueryAtATime` | module_tunnels/koupleless_http_tunnel/http_tunnel.go:294-302 | Never two calls between acquiring and releasing the lock |
| `QueryCoverage.RequestsForOneNodeServed` | module_tunnels/koupleless_http_tunnel/http_tunnel.go:304-310 | While all requests name one node, each is followed by a later fetch for that node |
| `QueryTermination.StepDecreases` | module_tunnels/koupleless_http_tunnel/http_tunnel.go:291-306 | Without outside requests every step of every interleaving decreases (live calls, flag, flag-dependent ranks), restarts included |
| `QueryTermination.QueriesComeToRest` | module_tunnels/koupleless_http_tunnel/http_tunnel.go:291-306 | From every reachable state, under every scheduler, all calls return, and then the flag is down exactly when every flag write of a refused call was followed by a fetch attempt |
| `QueryTermination.LiveCallCanStep` | module_tunnels/koupleless_http_tunnel/http_tunnel.go:294-298 | A live call can always step: the lock is tried, never waited for |
| `QueryLimits.LateFlagIsForgotten` | module_tunnels/koupleless_http_tunnel/http_tunnel.go:294-305 | A run of the code in which a refused request is never followed by a fetch and the flag stays up |
| `QueryLimits.OtherNodeIsForgotten` | module_tunnels/koupleless_http_tunnel/http_tunnel.go:304 | For any two nodes, a run at rest with the flag down in which the second node's request was never followed by a fetch for it, the rerun using the holder's node |
| `BaseHistory.TableIsHistory` | module_tunnels/koupleless_http_tunnel/http_tunnel.go:77-96 | A node has an entry if and only if its history since the last removal has a heartbeat or registration, and the entry is the latest heartbeat, else the first registration's converted info |
| `BaseHistory.NodesDoNotInterfere` | module_tunnels/koupleless_http_tunnel/http_tunnel.go:77-96 | A node's entry is what its own operations alone would have left |
| `BaseHistory.FoundUntilRemoved` | module_tunnels/koupleless_http_tunnel/http_tunnel.go:152-163 | Under the node name a heartbeat announces the base is found from then on, through any operations short of its removal, with what that heartbeat said until another one comes |
| `BaseHistory.NotFoundOnceRemoved` | module_tunnels/koupleless_http_tunnel/http_tunnel.go:91-96 | Removing the node of that name takes the entry out, and no operation but a heartbeat or registration of that base brings one back |
| `HttpTunnels.HttpTunnel.RegisterNode` | module_tunnels/koupleless_http_tunnel/http_tunnel.go:77-88 | The entry under the extracted ID is there afterwards: the old one if there was one, else the registration's version, cluster, address, host, state and labelled port; every other entry stays, and the table is the function of history |
| `HttpTunnels.HttpTunnel.UnRegisterNode` | module_tunnels/koupleless_http_tunnel/http_tunnel.go:91-96 | The entry under the extracted ID is gone and every other one stays; the table is the function of history |
| `HttpTunnels.HttpTunnel.HandleHeartbeat` | module_tunnels/koupleless_http_tunnel/http_tunnel.go:152-163 | The entry under the reported identity is the heartbeat and every other one stays; the node handed on has each field of the heartbeat in its place |
| `HttpTunnels.HttpTunnel.StartBiz` | module_tunnels/koupleless_http_tunnel/http_tunnel.go:328-359 | Nodes without an entry are refused without effect; if the entry's address is the reachable base's, name and version are installed there and announced activated under name:version for the formatted node name; otherwise the base is left alone and the biz is announced broken |
| `HttpTunnels.HttpTunnel.StopBiz` | module_tunnels/koupleless_http_tunnel/http_tunnel.go:362-392 | The same for uninstalls, whose success is not announced |
| `HttpTunnels.HttpTunnel.FetchAllBiz` | module_tunnels/koupleless_http_tunnel/http_tunnel.go:308-324 | On success the callback (lines 226-233) is called once, with the formatted name of the node, and each version of each biz started and not since stopped is reported once under name:version, activated, with the record's time, and nothing else is; otherwise it is not called |
| `HttpTunnels.BaseComesAndGoes` | module_tunnels/koupleless_http_tunnel/http_tunnel.go:77-163 | End to end: after a base's heartbeat a command under the announced node name reaches it, the version it starts is reported beside those already running, and after the node's removal commands answer that it is not found |
| `HttpTunnels.InstalledIsStarted` | suite/http/mock_http_base.go:225-289 | For any names and versions: a text name:version is a key of the base's table if and only if a biz with that text was installed and none was uninstalled since |
| `HttpTunnels.VersionInstalledIffStarted` | suite/http/mock_http_base.go:225-289 | With colon-free names, a version of a biz is installed if and only if that version was started and not stopped since, whatever happens to other versions |
| `HttpTunnels.OnlyItsOwnStop` | suite/http/mock_http_base.go:264-289 | One more operation takes an installed version out if and only if it is the stop of that very version |
| `BizStatuses.SharedIdentity` | common/utils/utils.go:68-70 | Exactly which different pairs share an identity text: one name continues the other past a colon by just what its version lacks |
| `BizStatuses.IdentityTells` | common/utils/utils.go:68-70 | Pairs with colon-free names share an identity only if they are equal |
| `HttpTunnels.KeysMatch` | suite/http/mock_http_base.go:230-245 | Every table key is the name:version of its value, and every value is as a fresh install leaves it |
| `HttpTunnels.TranslationReports` | module_tunnels/koupleless_http_tunnel/http_tunnel.go:226-233 | Translating any listing of the base's table reports each started identity exactly once, under a name and version it was started with |
| `HttpTunnels.MockHttpBase.ProcessInstallBiz` | suite/http/mock_http_base.go:225-262 | Keeps the table equal to the history with this install added |
| `HttpTunnels.MockHttpBase.ProcessUnInstallBiz` | suite/http/mock_http_base.go:264-289 | Keeps the table equal to the history with this uninstall added |
| `HttpTunnels.MockHttpBase.GetQueryAllBizMsg` | suite/http/mock_http_base.go:206-223 | Lists every value of the table exactly once |
| `BaseStatuses.StateByLetters` | common/utils/utils.go:74-77 | The node is activated if and only if the state spells ACTIVATED letter by letter in either case |
| `BaseStatuses.StatusOfRegistration` | common/utils/utils.go:213-234 | Each field of the registration lands in its place; the port is the label's number, or 1238 when there is no label or no number |
| `BaseStatuses.RoundTrip` | common/utils/utils.go:73-97 | There and back restores identity, version, cluster, IP, host and every nonzero port, turns port 0 into 1238, drops the name and normalises the state |
| `BaseStatuses.RoundTripIsIdempotent` | common/utils/utils.go:213-234 | Making the trip twice is making it once |
| `BaseStatuses.RoundTripIsLossless` | common/utils/utils.go:213-234 | Exactly the nameless statuses with a port and a normal state come back unchanged |
| `Decimal.AtoiInvertsItoa` | common/utils/utils.go:214-220 | Printed ports of the whole integer range, negative ones included, parse back |
| `Decimal.ItoaIsDecimal` | common/utils/utils.go:80 | Ports print most significant digit first, without leading zeros, with a minus sign when negative |
| `Decimal.AtoiReadsDigits` | common/utils/utils.go:214 | Port texts read one decimal place per further digit, up to the largest 64-bit integer |
| `Decimal.AtoiReadsSign` | common/utils/utils.go:214 | One sign may come first |
| `Decimal.AtoiRejects` | common/utils/utils.go:214-218 | Any text that is not digits behind at most one sign is an error, the empty one included |
| `BizStatuses.GetLatestState` | common/utils/utils.go:177-190 | The greatest positive record time with the reason and message of the first record that has it, or zero and empty |
| `BizStatuses.LatestIgnoresOrder` | common/utils/utils.go:177-190 | Permuting the records changes nothing, provided records made at one positive time tell the same story |
| `BizStatuses.DistinctTimesTell` | common/utils/utils.go:177-190 | Distinct record times are enough for that |
| `BizStatuses.TranslateBizInfosToContainerStatuses` | common/utils/utils.go:130-151 | One status per biz in order, with the latest record's time, reason and message, or the fallback time when no record time is positive |
| `BizStatuses.TranslateSimpleBizDataToBizInfos` | common/utils/utils.go:154-174 | One biz per simple datum in order, with its one record |
| `BizStatuses.SimpleDataTranslates` | common/utils/utils.go:130-174 | Both translations in a row, told directly from the simple datum |
| `BizStatuses.TranslationIsUnique` | common/utils/utils.go:130-151 | A biz and a fallback time determine its status |
| `BizStatuses.GetBizVersionFromContainer` | common/utils/utils.go:47-56 | The value of the first BIZ_VERSION variable, or nothing |
| `Topics.TopicTexts` | common/model/consts.go:80-95 | Each topic is koupleless_env/node/base/ followed by its own last level, literally |
| `Topics.NoIdentityWithoutSlash` | common/utils/utils.go:23-28 | A topic without a slash yields the empty node ID |
| `Topics.IdentityInvertsTopic` | common/utils/utils.go:23-39 | The node ID is read back from any topic exactly when it holds no slash and env holds none either, or env's second part happens to be that ID |
| `Topics.TopicsAreInjective` | common/model/consts.go:85-95 | The formats are jointly injective in environment, node ID and kind, for slash-free ones |
| `Topics.HeartbeatFilterIsExact` | common/model/consts.go:80-81 | The heartbeat filter matches exactly the heartbeat topics of its environment, under section 4.7.1 of MQTT Version 3.1.1 |
| `Topics.JoinInvertsSplit` | common/utils/utils.go:24 | Splitting at slashes loses nothing |
| `MqttTunnels.SubscribedIffWanted` | module_tunnels/koupleless_mqtt_tunnel/mqtt_tunnel.go:65-123 | After any run over any nodes, broken-off registrations included, a topic is subscribed, with its own callback, if and only if some registration got past it and, but for the batch-install topic, no removal came since |
| `MqttTunnels.LifecycleOfSuccesses` | module_tunnels/koupleless_mqtt_tunnel/mqtt_tunnel.go:65-123 | While all registrations succeed, the health, simple-biz, biz and biz-operation topics are subscribed exactly while the node's last operation is a registration, the batch-install topic from its first registration on, the baseline topic never |
| `MqttTunnels.SameTopic` | common/model/consts.go:85-93 | Within one environment no two nodes or kinds share a topic, slashes in the ID or not |
| `MqttTunnels.MessagesFindTheirBase` | module_tunnels/koupleless_mqtt_tunnel/mqtt_tunnel.go:232-239 | A message on a subscribed topic goes to the callback of its kind, which reads the right node ID from it |
| `MqttTunnels.MqttTunnel.RegisterNode` | module_tunnels/koupleless_mqtt_tunnel/mqtt_tunnel.go:65-109 | Subscribes health, simple biz, biz, biz operation and batch install in this order, each with its own callback, stops at the first refused one, keeps the earlier ones, and reports an error exactly then |
| `MqttTunnels.MqttTunnel.UnRegisterNode` | module_tunnels/koupleless_mqtt_tunnel/mqtt_tunnel.go:111-123 | Drops the health, simple-biz, biz and biz-operation topics of the node and no other, the batch-install topic in particular |

## Left out

- ModuleDeploymentControllers.ModuleDeploymentController.UpdateDeploymentReplicas: lists and patches succeed here; lost ones are steps of the protocol.
- ModuleDeploymentControllers.ModuleDeploymentController.HandleVnode: creation, update and deletion share it, since each hands over one object and ignores the old one.
- HttpTunnels.HttpTunnel.FetchAllBiz: one base at one address; its interleaving with other calls is the query protocol.
- MqttTunnels.MqttTunnel.RegisterNode: the broker's answers are a parameter, and a refused subscription is taken not to exist.
- Periodic resyncs and events merged after a watch gap: every write is one event; an extra event with an unchanged object would only be counted again.
- Several controller processes, and leader election between them.
- Go's memory model for the unsynchronised flag: its accesses are taken as atomic.
- Narrowing of the node count to 32 bits, and deployments whose replicas are unset.
- The order of a stable listing: caches and maps list in any order throughout.
- HTTP servers and clients, the MQTT client, JSON, logging, tracing and the report server: inputs and outputs only.
- Heartbeat expiry, health data and batch-install responses: one comparison or one field copy each.
- The kubelet proxy, the command-line programs and the MQTT mock base.
