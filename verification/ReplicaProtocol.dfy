/**
 The peer-replica controller as a state machine: the API server's write logs, the informer caches
 that lag them, the three goroutines that run updateDeploymentReplicas (node events, deployment
 events, the one start-up pass), the one-slot updateToken, and every micro-step in between.
 */
module ReplicaProtocol {
  import opened Options
  import opened Cluster

  /** Every version of one table at the server, and the name each successive write touched. */
  datatype Log<T> = Log(versions: seq<map<string, T>>, names: seq<string>) {
    ghost predicate Valid() {
      && |versions| == |names| + 1
      && forall k :: 0 <= k < |names| ==> versions[k] - {names[k]} == versions[k + 1] - {names[k]}
    }

    function Now(): map<string, T>
      requires versions != []
    {
      versions[|versions| - 1]
    }

    function Append(name: string, table: map<string, T>): Log<T> {
      Log(versions + [table], names + [name])
    }
  }

  /** An entry of a handler's snapshot list. */
  datatype Item = Item(name: string, dep: Deployment)

  /**
   Where a goroutine is in updateDeploymentReplicas. A Patching goroutine has counted the nodes for
   the first item of its list, with the node cache at position seen, and not yet sent the patch.
   */
  datatype Thread =
    | Idle
    | Waiting(todo: seq<Item>)
    | Working(todo: seq<Item>)
    | Patching(todo: seq<Item>, replicas: nat, seen: nat)

  /** A counted item is one to be patched, to a value its snapshot does not have. */
  predicate Armed(t: Thread) {
    t.Patching? ==> t.todo != [] && Controlled(t.todo[0].dep) && t.replicas != t.todo[0].dep.replicas
  }

  type Worker = w: nat | w < 3
  const NODE_WORKER: Worker := 0
  const DEPLOYMENT_WORKER: Worker := 1
  const STARTER: Worker := 2

  /** A patch that was sent, with the cluster and the node-cache position its count came from. */
  datatype Sent = Sent(name: string, cluster: string, replicas: nat, seen: nat)

  datatype Config = Config(env: string, enabled: bool)

  /**
   nodesCached and depsCached are positions of the informer caches in the logs; nodesTaken and
   depsTaken count the events handed to the handlers so far, in order.
   */
  datatype State = State(
    nodes: Log<Node>,
    deps: Log<Deployment>,
    nodesCached: nat,
    depsCached: nat,
    nodesTaken: nat,
    depsTaken: nat,
    started: bool,
    token: nat,
    threads: seq<Thread>,
    sent: seq<Sent>)

  const INIT := State(Log([map[]], []), Log([map[]], []), 0, 0, 0, 0, false, 1, [Idle, Idle, Idle], [])

  datatype Action =
    | PutNode(name: string, node: Node)
    | DropNode(name: string)
    | PutDeployment(name: string, dep: Deployment)
    | DropDeployment(name: string)
    | AdvanceNodes
    | AdvanceDeployments
    | NodeEvent(order: seq<string>)
    | DeploymentEvent
    | StarterLists(order: seq<string>)
    | Take(w: Worker)
    | Examine(w: Worker)
    | SendPatch(w: Worker)
    | Release(w: Worker)
    // errors that the controller logs and does not retry
    | StarterFails
    | ListFails
    | CountFails(w: Worker)
    | PatchFails(w: Worker)

  predicate IsWrite(a: Action) {
    a.PutNode? || a.DropNode? || a.PutDeployment? || a.DropDeployment?
  }

  /** A failed call whose work is dropped. */
  predicate IsFault(a: Action) {
    a.ListFails? || a.CountFails? || a.PatchFails?
  }

  /** A cache listing: every match once, in any order. */
  predicate IsListing(order: seq<string>, table: DeploymentTable, matches: set<string>) {
    && (forall i, j :: 0 <= i < j < |order| ==> order[i] != order[j])
    && (forall i :: 0 <= i < |order| ==> order[i] in matches && order[i] in table)
    && (forall name :: name in matches ==> name in order)
  }

  function Items(order: seq<string>, table: DeploymentTable): (r: seq<Item>)
    requires forall i :: 0 <= i < |order| ==> order[i] in table
    ensures |r| == |order| && forall i :: 0 <= i < |order| ==> r[i] == Item(order[i], table[order[i]])
  {
    seq(|order|, i requires 0 <= i < |order| => Item(order[i], table[order[i]]))
  }

  /** GetRelatedDeploymentsByNode: peer deployments of the node's cluster, watched or not. */
  function Related(table: DeploymentTable, cluster: string): (r: set<string>)
    ensures r <= table.Keys
  {
    set name | name in table && cluster != "" && IsPeer(table[name]) && ClusterOf(table[name]) == cluster
  }

  function WatchedNames(env: string, table: DeploymentTable): (r: set<string>)
    ensures r <= table.Keys
  {
    set name | name in table && WatchedDeployment(env, table[name])
  }

  predicate Shaped(s: State) {
    && |s.nodes.versions| == |s.nodes.names| + 1
    && |s.deps.versions| == |s.deps.names| + 1
    && s.nodesTaken <= s.nodesCached <= |s.nodes.names|
    && s.depsTaken <= s.depsCached <= |s.deps.names|
    && |s.threads| == 3
  }

  function NodesNow(s: State): NodeTable requires Shaped(s) { s.nodes.Now() }
  function DepsNow(s: State): DeploymentTable requires Shaped(s) { s.deps.Now() }
  function CachedNodes(s: State): NodeTable requires Shaped(s) { s.nodes.versions[s.nodesCached] }
  function CachedDeps(s: State): DeploymentTable requires Shaped(s) { s.deps.versions[s.depsCached] }

  /** The two sides of node event k. */
  function Before(s: State, k: nat): Option<Node>
    requires Shaped(s) && k < |s.nodes.names|
  {
    LookupNode(s.nodes.versions[k], s.nodes.names[k])
  }

  function After(s: State, k: nat): Option<Node>
    requires Shaped(s) && k < |s.nodes.names|
  {
    LookupNode(s.nodes.versions[k + 1], s.nodes.names[k])
  }

  /** The object handed to the handler for node event k, if the watch lets the event through. */
  function Delivered(cfg: Config, s: State, k: nat): Option<Node>
    requires Shaped(s) && k < |s.nodes.names|
  {
    if Before(s, k).None? && After(s, k).None? then None
    else
      var o := EventObject(Before(s, k), After(s, k));
      if WatchedNode(cfg.env, o) then Some(o) else None
  }

  /** The one-entry list for deployment event k; deletions have no handler. */
  function DeploymentItem(cfg: Config, deps: Log<Deployment>, k: nat): Option<Item>
    requires |deps.versions| == |deps.names| + 1 && k < |deps.names|
  {
    var name, table := deps.names[k], deps.versions[k + 1];
    if name in table && WatchedDeployment(cfg.env, table[name]) then Some(Item(name, table[name])) else None
  }

  function DeliveredDeployment(cfg: Config, s: State, k: nat): Option<Item>
    requires Shaped(s) && k < |s.deps.names|
  {
    DeploymentItem(cfg, s.deps, k)
  }

  /** An update hands over the new object, a deletion the old one, to the handler of its environment's nodes. */
  lemma NodeHandlerSees(cfg: Config, s: State, k: nat, name: string, n: Node)
    requires Shaped(s) && k < |s.nodes.names| && name == s.nodes.names[k]
    requires if name in s.nodes.versions[k + 1] then s.nodes.versions[k + 1][name] == n
             else name in s.nodes.versions[k] && s.nodes.versions[k][name] == n
    ensures Delivered(cfg, s, k) ==
            if (&& "virtual-kubelet.koupleless.io/component" in n.labels
                && n.labels["virtual-kubelet.koupleless.io/component"] == "vnode"
                && "virtual-kubelet.koupleless.io/env" in n.labels
                && n.labels["virtual-kubelet.koupleless.io/env"] == cfg.env)
            then Some(n) else None
  {
    WatchedNodeByLabels(cfg.env, n);
  }

  /** A creation or update hands over the new object of a module deployment of the environment, a deletion nothing. */
  lemma DeploymentHandlerSees(cfg: Config, s: State, k: nat, name: string)
    requires Shaped(s) && k < |s.deps.names| && name == s.deps.names[k]
    ensures name !in s.deps.versions[k + 1] ==> DeliveredDeployment(cfg, s, k) == None
    ensures name in s.deps.versions[k + 1] ==>
              var d := s.deps.versions[k + 1][name];
              DeliveredDeployment(cfg, s, k) ==
              if (&& "virtual-kubelet.koupleless.io/component" in d.labels
                  && d.labels["virtual-kubelet.koupleless.io/component"] == "module-deployment"
                  && "virtual-kubelet.koupleless.io/env" in d.labels
                  && d.labels["virtual-kubelet.koupleless.io/env"] == cfg.env)
              then Some(Item(name, d)) else None
  {
    if name in s.deps.versions[k + 1] {
      WatchedDeploymentByLabels(cfg.env, s.deps.versions[k + 1][name]);
    }
  }

  predicate Enabled(cfg: Config, s: State, a: Action)
    requires Shaped(s)
  {
    match a
    case PutNode(name, node) => true
    case DropNode(name) => name in NodesNow(s)
    case PutDeployment(name, dep) => true
    case DropDeployment(name) => name in DepsNow(s)
    case AdvanceNodes => s.nodesCached < |s.nodes.names|
    case AdvanceDeployments => s.depsCached < |s.deps.names|
    case NodeEvent(order) =>
      && s.threads[NODE_WORKER].Idle?
      && s.nodesTaken < s.nodesCached
      && (match Delivered(cfg, s, s.nodesTaken)
          case Some(o) => IsListing(order, CachedDeps(s), Related(CachedDeps(s), NodeCluster(o)))
          case None => order == [])
    case DeploymentEvent => s.threads[DEPLOYMENT_WORKER].Idle? && s.depsTaken < s.depsCached
    case StarterLists(order) =>
      && !s.started && s.threads[STARTER].Idle?
      && IsListing(order, CachedDeps(s), WatchedNames(cfg.env, CachedDeps(s)))
    case Take(w) => s.threads[w].Waiting? && s.token > 0
    case Examine(w) => s.threads[w].Working? && s.threads[w].todo != []
    case SendPatch(w) => s.threads[w].Patching? && s.threads[w].todo != []
    // sending into the full one-slot channel would block
    case Release(w) => s.threads[w].Working? && s.threads[w].todo == [] && s.token < 1
    case StarterFails => !s.started && s.threads[STARTER].Idle?
    case ListFails => s.threads[NODE_WORKER].Idle? && s.nodesTaken < s.nodesCached
    case CountFails(w) => s.threads[w].Working? && s.threads[w].todo != []
    case PatchFails(w) => s.threads[w].Patching? && s.threads[w].todo != []
  }

  function Become(s: State, w: Worker, t: Thread): State
    requires Shaped(s)
  {
    s.(threads := s.threads[w := t])
  }

  /** Examine the first item: pass over it, or leave it to be patched with the current count. */
  function Examined(s: State, todo: seq<Item>): Thread
    requires Shaped(s) && todo != []
  {
    var d := todo[0].dep;
    if !Controlled(d) then Working(todo[1..])
    else
      var count := ReadyCount(CachedNodes(s), ClusterOf(d));
      if count != d.replicas then Patching(todo, count, s.nodesCached) else Working(todo[1..])
  }

  /** The merge patch at the server: no write when the object is gone or already right. */
  function Patched(deps: Log<Deployment>, name: string, replicas: nat): Log<Deployment>
    requires deps.versions != []
  {
    var table := deps.Now();
    if name in table && table[name].replicas != replicas
    then deps.Append(name, table[name := WithReplicas(table[name], replicas)])
    else deps
  }

  function TakeNodeEvent(cfg: Config, s: State, order: seq<string>): State
    requires Shaped(s) && s.nodesTaken < s.nodesCached
    requires Delivered(cfg, s, s.nodesTaken).Some? ==> forall i :: 0 <= i < |order| ==> order[i] in CachedDeps(s)
  {
    var s' := s.(nodesTaken := s.nodesTaken + 1);
    match Delivered(cfg, s, s.nodesTaken)
    case Some(o) => Become(s', NODE_WORKER, Waiting(Items(order, CachedDeps(s))))
    case None => s'
  }

  function TakeDeploymentEvent(cfg: Config, s: State): State
    requires Shaped(s) && s.depsTaken < s.depsCached
  {
    var s' := s.(depsTaken := s.depsTaken + 1);
    match DeliveredDeployment(cfg, s, s.depsTaken)
    case Some(item) => Become(s', DEPLOYMENT_WORKER, Waiting([item]))
    case None => s'
  }

  function Send(s: State, w: Worker): State
    requires Shaped(s) && s.threads[w].Patching? && s.threads[w].todo != []
  {
    var t := s.threads[w];
    var item := t.todo[0];
    Become(s.(deps := Patched(s.deps, item.name, t.replicas),
              sent := s.sent + [Sent(item.name, ClusterOf(item.dep), t.replicas, t.seen)]),
           w, Working(t.todo[1..]))
  }

  /** A user or kubelet write: the table changes at the server, nowhere else yet. */
  function Written(s: State, a: Action): State
    requires Shaped(s) && IsWrite(a)
  {
    match a
    case PutNode(name, node) => s.(nodes := s.nodes.Append(name, NodesNow(s)[name := node]))
    case DropNode(name) => s.(nodes := s.nodes.Append(name, NodesNow(s) - {name}))
    case PutDeployment(name, dep) => s.(deps := s.deps.Append(name, DepsNow(s)[name := dep]))
    case DropDeployment(name) => s.(deps := s.deps.Append(name, DepsNow(s) - {name}))
  }

  function Apply(cfg: Config, s: State, a: Action): State
    requires Shaped(s) && Enabled(cfg, s, a)
  {
    match a
    case AdvanceNodes => s.(nodesCached := s.nodesCached + 1)
    case AdvanceDeployments => s.(depsCached := s.depsCached + 1)
    case NodeEvent(order) => TakeNodeEvent(cfg, s, order)
    case DeploymentEvent => TakeDeploymentEvent(cfg, s)
    case StarterLists(order) => Become(s.(started := true), STARTER, Waiting(Items(order, CachedDeps(s))))
    case Take(w) =>
      Become(s.(token := s.token - 1), w, Working(if cfg.enabled then s.threads[w].todo else []))
    case Examine(w) => Become(s, w, Examined(s, s.threads[w].todo))
    case SendPatch(w) => Send(s, w)
    case Release(w) => Become(s.(token := s.token + 1), w, Idle)
    case StarterFails => s.(started := true)
    case ListFails => TakeNodeEvent(cfg, s, [])
    case CountFails(w) => Become(s, w, Working(s.threads[w].todo[1..]))
    case PatchFails(w) => Become(s, w, Working(s.threads[w].todo[1..]))
    case _ => Written(s, a)
  }

  /** The start-up pass takes up each cached module deployment of the environment once, as it is cached. */
  lemma StarterSees(cfg: Config, s: State, order: seq<string>, x: string)
    requires Shaped(s) && Enabled(cfg, s, StarterLists(order))
    ensures var s', cached := Apply(cfg, s, StarterLists(order)), CachedDeps(s);
            && s'.threads[STARTER].Waiting?
            && (forall i :: 0 <= i < |s'.threads[STARTER].todo| ==>
                  var item := s'.threads[STARTER].todo[i]; item.name in cached && item.dep == cached[item.name])
            && (forall i, j :: 0 <= i < j < |s'.threads[STARTER].todo| ==>
                  s'.threads[STARTER].todo[i].name != s'.threads[STARTER].todo[j].name)
            && ((exists i :: 0 <= i < |s'.threads[STARTER].todo| && s'.threads[STARTER].todo[i].name == x) <==>
                && x in cached
                && "virtual-kubelet.koupleless.io/component" in cached[x].labels
                && cached[x].labels["virtual-kubelet.koupleless.io/component"] == "module-deployment"
                && "virtual-kubelet.koupleless.io/env" in cached[x].labels
                && cached[x].labels["virtual-kubelet.koupleless.io/env"] == cfg.env)
  {
    var todo := Apply(cfg, s, StarterLists(order)).threads[STARTER].todo;
    assert forall i :: 0 <= i < |todo| ==> todo[i].name == order[i];
    if x in CachedDeps(s) {
      WatchedDeploymentByLabels(cfg.env, CachedDeps(s)[x]);
    }
    if x in order {
      var i :| 0 <= i < |order| && order[i] == x;
      assert todo[i].name == x;
    }
  }

  // ---------- runs ----------

  ghost predicate ValidRun(cfg: Config, s: State, run: seq<Action>)
    decreases |run|
  {
    run == [] ||
    (Shaped(s) && Enabled(cfg, s, run[0]) && ValidRun(cfg, Apply(cfg, s, run[0]), run[1..]))
  }

  ghost function Exec(cfg: Config, s: State, run: seq<Action>): State
    requires ValidRun(cfg, s, run)
    decreases |run|
  {
    if run == [] then s else Exec(cfg, Apply(cfg, s, run[0]), run[1..])
  }

  /** A node write whose event tells the controller about every count it changes. */
  predicate CoveredAction(cfg: Config, s: State, a: Action)
    requires Shaped(s) && Enabled(cfg, s, a)
  {
    match a
    case PutNode(name, node) => Covered(cfg.env, LookupNode(NodesNow(s), name), Some(node))
    case DropNode(name) => Covered(cfg.env, LookupNode(NodesNow(s), name), None)
    case _ => true
  }

  /** No lost List, count or Patch, and covered node writes only; the start-up pass may fail. */
  ghost predicate Faithful(cfg: Config, s: State, run: seq<Action>)
    requires ValidRun(cfg, s, run)
    decreases |run|
  {
    run == [] ||
    (!IsFault(run[0]) && CoveredAction(cfg, s, run[0]) && Faithful(cfg, Apply(cfg, s, run[0]), run[1..]))
  }

  // ---------- calls that matter to one deployment ----------

  predicate HasFirst(t: Thread, item: Item) {
    (t.Working? || t.Patching?) && t.todo != [] && t.todo[0] == item
  }

  /**
   A failed call that concerns deployment x as it now is: the count or patch for its current
   snapshot, or the listing for a node of its current cluster.
   */
  predicate Touches(cfg: Config, s: State, a: Action, x: string)
    requires Shaped(s)
  {
    x in DepsNow(s) &&
    var d := DepsNow(s)[x];
    match a
    case CountFails(w) => HasFirst(s.threads[w], Item(x, d))
    case PatchFails(w) => HasFirst(s.threads[w], Item(x, d))
    case ListFails =>
      && s.nodesTaken < s.nodesCached
      && Delivered(cfg, s, s.nodesTaken).Some?
      && NodeCluster(Delivered(cfg, s, s.nodesTaken).value) == ClusterOf(d)
    case _ => false
  }

  /** Covered node writes only, and no failed call that concerns x; any other call may fail. */
  ghost predicate FaithfulFor(cfg: Config, s: State, run: seq<Action>, x: string)
    requires ValidRun(cfg, s, run)
    decreases |run|
  {
    run == [] ||
    (CoveredAction(cfg, s, run[0]) && !Touches(cfg, s, run[0], x) &&
     FaithfulFor(cfg, Apply(cfg, s, run[0]), run[1..], x))
  }

  // ---------- what is to be reached ----------

  /** Both caches are current, every event is taken, and no handler is running. */
  predicate Quiescent(s: State)
    requires Shaped(s)
  {
    && s.nodesCached == |s.nodes.names| && s.depsCached == |s.deps.names|
    && s.nodesTaken == |s.nodes.names| && s.depsTaken == |s.deps.names|
    && s.started
    && forall w: Worker :: s.threads[w].Idle?
  }

  predicate Steered(cfg: Config, s: State, x: string)
    requires Shaped(s)
  {
    x in DepsNow(s) && WatchedDeployment(cfg.env, DepsNow(s)[x]) && Controlled(DepsNow(s)[x])
  }

  /**
   If x is a module deployment of this environment with the peer strategy, not opted out, and names a
   cluster, it has one replica per node that carries that cluster's name, runs and is ready.
   */
  ghost predicate Agrees(cfg: Config, s: State, x: string)
    requires Shaped(s)
  {
    x in DepsNow(s) ==>
      var d, nodes := DepsNow(s)[x], NodesNow(s);
      (&& "virtual-kubelet.koupleless.io/component" in d.labels
       && d.labels["virtual-kubelet.koupleless.io/component"] == "module-deployment"
       && "virtual-kubelet.koupleless.io/env" in d.labels && d.labels["virtual-kubelet.koupleless.io/env"] == cfg.env
       && "virtual-kubelet.koupleless.io/strategy" in d.labels
       && d.labels["virtual-kubelet.koupleless.io/strategy"] == "peer"
       && ("virtual-kubelet.koupleless.io/replicas-control" in d.labels ==>
             d.labels["virtual-kubelet.koupleless.io/replicas-control"] != "true")
       && ClusterOf(d) != "")
      ==>
      d.replicas == |set n | && n in nodes
                             && "base.koupleless.io/cluster-name" in nodes[n].labels
                             && nodes[n].labels["base.koupleless.io/cluster-name"] == ClusterOf(d)
                             && nodes[n].phase == "Running"
                             && Condition("Ready", "True") in nodes[n].conditions|
  }

  lemma AgreesMeans(cfg: Config, s: State, x: string)
    requires Shaped(s)
    ensures Agrees(cfg, s, x) <==>
            (Steered(cfg, s, x) ==> DepsNow(s)[x].replicas == ReadyCount(NodesNow(s), ClusterOf(DepsNow(s)[x])))
  {
    if x in DepsNow(s) {
      var d, nodes := DepsNow(s)[x], NodesNow(s);
      SteeredByLabels(d);
      WatchedDeploymentByLabels(cfg.env, d);
      CountedByStatus(nodes, ClusterOf(d));
    }
  }

  ghost predicate Converged(cfg: Config, s: State)
    requires Shaped(s)
  {
    forall x :: x in DepsNow(s) ==> Agrees(cfg, s, x)
  }
}
