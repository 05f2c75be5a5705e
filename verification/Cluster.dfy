/**
 Nodes and deployments as the module deployment controller sees them: which base cluster each
 belongs to, which nodes count as ready, which deployments the controller steers, and which
 objects its watches let through.
 */
module Cluster {
  import opened Options

  type Labels = map<string, string>

  const LABEL_COMPONENT := "virtual-kubelet.koupleless.io/component"
  const LABEL_ENV := "virtual-kubelet.koupleless.io/env"
  const LABEL_CLUSTER := "base.koupleless.io/cluster-name"
  const LABEL_STRATEGY := "virtual-kubelet.koupleless.io/strategy"
  const LABEL_SKIP_REPLICAS := "virtual-kubelet.koupleless.io/replicas-control"
  const COMPONENT_VNODE := "vnode"
  const COMPONENT_MODULE_DEPLOYMENT := "module-deployment"
  const STRATEGY_PEER := "peer"

  // ---------- nodes ----------

  datatype Condition = Condition(kind: string, status: string)

  datatype Node = Node(labels: Labels, phase: string, conditions: seq<Condition>)

  predicate HasLabel(labels: Labels, key: string, value: string) {
    key in labels && labels[key] == value
  }

  function NodeCluster(n: Node): string {
    if LABEL_CLUSTER in n.labels then n.labels[LABEL_CLUSTER] else ""
  }

  predicate IsReady(n: Node) {
    n.phase == "Running" &&
    exists i :: 0 <= i < |n.conditions| && n.conditions[i].kind == "Ready" && n.conditions[i].status == "True"
  }

  /** Does the watch on nodes deliver an event about this object? */
  predicate WatchedNode(env: string, n: Node) {
    HasLabel(n.labels, LABEL_COMPONENT, COMPONENT_VNODE) && HasLabel(n.labels, LABEL_ENV, env)
  }

  /** The nodes counted for a cluster, each once however many conditions it has. */
  function ReadyNames(nodes: map<string, Node>, cluster: string): set<string> {
    set name | name in nodes && HasLabel(nodes[name].labels, LABEL_CLUSTER, cluster) && IsReady(nodes[name])
  }

  function ReadyCount(nodes: map<string, Node>, cluster: string): nat {
    |ReadyNames(nodes, cluster)|
  }

  // ---------- deployments ----------

  datatype Container = Container(name: string, image: string, env: seq<(string, string)>)

  datatype MatchExpression = MatchExpression(key: string, values: seq<string>)

  /** nodeTerms are the match expressions of the required node affinity, term by term. */
  datatype DeploymentObject = DeploymentObject(
    labels: Labels,
    nodeSelector: Labels,
    nodeTerms: seq<seq<MatchExpression>>,
    replicas: int,
    created: int,
    containers: seq<Container>)

  /** The first expression of a term that names the cluster label. */
  function FirstInTerm(term: seq<MatchExpression>): (r: Option<MatchExpression>)
    ensures r.Some? ==> exists e :: 0 <= e < |term| && term[e] == r.value && r.value.key == LABEL_CLUSTER &&
                                    forall i :: 0 <= i < e ==> term[i].key != LABEL_CLUSTER
    ensures r.None? ==> forall i :: 0 <= i < |term| ==> term[i].key != LABEL_CLUSTER
  {
    if term == [] then None
    else if term[0].key == LABEL_CLUSTER then Some(term[0])
    else
      var rest := FirstInTerm(term[1..]);
      assert rest.Some? ==>
        forall e :: 0 <= e < |term[1..]| && term[1..][e] == rest.value ==> term[e + 1] == rest.value;
      assert rest.None? ==> forall i :: 1 <= i < |term| ==> term[i] == term[1..][i - 1];
      rest
  }

  /** The first such expression over all terms, in order. */
  function FirstInTerms(terms: seq<seq<MatchExpression>>): (r: Option<MatchExpression>)
    ensures r.Some? ==> exists t :: 0 <= t < |terms| && FirstInTerm(terms[t]) == r &&
                                    forall i :: 0 <= i < t ==> FirstInTerm(terms[i]).None?
    ensures r.None? ==> forall i :: 0 <= i < |terms| ==> FirstInTerm(terms[i]).None?
  {
    if terms == [] then None
    else if FirstInTerm(terms[0]).Some? then FirstInTerm(terms[0])
    else
      var rest := FirstInTerms(terms[1..]);
      assert rest.Some? ==>
        forall t :: 0 <= t < |terms[1..]| && FirstInTerm(terms[1..][t]) == rest ==> FirstInTerm(terms[t + 1]) == rest;
      assert rest.None? ==> forall i :: 1 <= i < |terms| ==> terms[i] == terms[1..][i - 1];
      rest
  }

  /** Reading the cluster name does not index into an empty value list. */
  predicate Resolves(d: DeploymentObject) {
    LABEL_CLUSTER in d.labels || LABEL_CLUSTER in d.nodeSelector ||
    (FirstInTerms(d.nodeTerms).Some? ==> FirstInTerms(d.nodeTerms).value.values != [])
  }

  type Deployment = d: DeploymentObject | Resolves(d) witness DeploymentObject(map[], map[], [], 0, 0, [])

  /** The label wins, then the node selector, then the first matching affinity expression. */
  function ClusterOf(d: Deployment): string {
    if LABEL_CLUSTER in d.labels then d.labels[LABEL_CLUSTER]
    else if LABEL_CLUSTER in d.nodeSelector then d.nodeSelector[LABEL_CLUSTER]
    else match FirstInTerms(d.nodeTerms)
      case Some(expression) => expression.values[0]
      case None => ""
  }

  /** A cluster label is believed whatever selector and affinity say, empty or not. */
  lemma LabelNamesCluster(d: Deployment)
    requires "base.koupleless.io/cluster-name" in d.labels
    ensures ClusterOf(d) == d.labels["base.koupleless.io/cluster-name"]
  {
  }

  /** Without one, the node selector is, whatever the affinity says. */
  lemma SelectorNamesCluster(d: Deployment)
    requires "base.koupleless.io/cluster-name" !in d.labels && "base.koupleless.io/cluster-name" in d.nodeSelector
    ensures ClusterOf(d) == d.nodeSelector["base.koupleless.io/cluster-name"]
  {
  }

  /** With no mention of the key anywhere the name is empty. */
  lemma NothingNamesCluster(d: Deployment)
    requires "base.koupleless.io/cluster-name" !in d.labels && "base.koupleless.io/cluster-name" !in d.nodeSelector
    requires forall t, e :: 0 <= t < |d.nodeTerms| && 0 <= e < |d.nodeTerms[t]| ==>
               d.nodeTerms[t][e].key != "base.koupleless.io/cluster-name"
    ensures ClusterOf(d) == ""
  {
  }

  /** Without label and selector, the first match in reading order decides. */
  lemma AffinityFirstMatch(d: Deployment, t: nat, e: nat)
    requires LABEL_CLUSTER !in d.labels && LABEL_CLUSTER !in d.nodeSelector
    requires t < |d.nodeTerms| && e < |d.nodeTerms[t]| && d.nodeTerms[t][e].key == LABEL_CLUSTER
    requires forall i :: 0 <= i < e ==> d.nodeTerms[t][i].key != LABEL_CLUSTER
    requires forall u, i :: 0 <= u < t && 0 <= i < |d.nodeTerms[u]| ==> d.nodeTerms[u][i].key != LABEL_CLUSTER
    ensures d.nodeTerms[t][e].values != [] && ClusterOf(d) == d.nodeTerms[t][e].values[0]
  {
  }

  predicate IsPeer(d: Deployment) {
    HasLabel(d.labels, LABEL_STRATEGY, STRATEGY_PEER)
  }

  /** The controller steers the replicas of this deployment. */
  predicate Controlled(d: Deployment) {
    IsPeer(d) && !HasLabel(d.labels, LABEL_SKIP_REPLICAS, "true") && ClusterOf(d) != ""
  }

  /** Does the watch on deployments deliver an event about this object? */
  predicate WatchedDeployment(env: string, d: Deployment) {
    HasLabel(d.labels, LABEL_COMPONENT, COMPONENT_MODULE_DEPLOYMENT) && HasLabel(d.labels, LABEL_ENV, env)
  }

  /** The merge patch built from a snapshot touches spec.replicas and nothing else. */
  function WithReplicas(d: Deployment, replicas: int): (r: Deployment)
    ensures r.replicas == replicas && r.labels == d.labels && r.nodeSelector == d.nodeSelector
    ensures r.nodeTerms == d.nodeTerms && r.created == d.created && r.containers == d.containers
    ensures Controlled(r) == Controlled(d) && ClusterOf(r) == ClusterOf(d) && IsPeer(r) == IsPeer(d)
  {
    d.(replicas := replicas)
  }

  type NodeTable = map<string, Node>
  type DeploymentTable = map<string, Deployment>

  // ---------- the same, told from the objects ----------

  /** The controller steers peers that name a cluster and have not opted out with the text "true". */
  lemma SteeredByLabels(d: Deployment)
    ensures Controlled(d) <==>
            && "virtual-kubelet.koupleless.io/strategy" in d.labels
            && d.labels["virtual-kubelet.koupleless.io/strategy"] == "peer"
            && ("virtual-kubelet.koupleless.io/replicas-control" in d.labels ==>
                  d.labels["virtual-kubelet.koupleless.io/replicas-control"] != "true")
            && ClusterOf(d) != ""
  {
  }

  /** The watches let through what carries their component and their environment. */
  lemma WatchedNodeByLabels(env: string, n: Node)
    ensures WatchedNode(env, n) <==>
            && "virtual-kubelet.koupleless.io/component" in n.labels
            && n.labels["virtual-kubelet.koupleless.io/component"] == "vnode"
            && "virtual-kubelet.koupleless.io/env" in n.labels && n.labels["virtual-kubelet.koupleless.io/env"] == env
  {
  }

  lemma WatchedDeploymentByLabels(env: string, d: Deployment)
    ensures WatchedDeployment(env, d) <==>
            && "virtual-kubelet.koupleless.io/component" in d.labels
            && d.labels["virtual-kubelet.koupleless.io/component"] == "module-deployment"
            && "virtual-kubelet.koupleless.io/env" in d.labels && d.labels["virtual-kubelet.koupleless.io/env"] == env
  {
  }

  /** A node counts for a cluster when it carries its name, runs, and some Ready condition is True. */
  lemma CountedByStatus(nodes: NodeTable, cluster: string)
    ensures ReadyCount(nodes, cluster) ==
            |set name | && name in nodes
                        && "base.koupleless.io/cluster-name" in nodes[name].labels
                        && nodes[name].labels["base.koupleless.io/cluster-name"] == cluster
                        && nodes[name].phase == "Running"
                        && Condition("Ready", "True") in nodes[name].conditions|
  {
    var ready := set name | && name in nodes
                            && "base.koupleless.io/cluster-name" in nodes[name].labels
                            && nodes[name].labels["base.koupleless.io/cluster-name"] == cluster
                            && nodes[name].phase == "Running"
                            && Condition("Ready", "True") in nodes[name].conditions;
    assert ReadyNames(nodes, cluster) == ready;
  }

  // ---------- what one node write can change ----------

  /** The one cluster a node counts for, or "" when it counts for none. */
  function CountedIn(n: Option<Node>): string {
    if n.Some? && IsReady(n.value) then NodeCluster(n.value) else ""
  }

  function LookupNode(nodes: NodeTable, name: string): Option<Node> {
    if name in nodes then Some(nodes[name]) else None
  }

  function Replace(nodes: NodeTable, name: string, n: Option<Node>): NodeTable {
    if n.Some? then nodes[name := n.value] else nodes - {name}
  }

  /** The object an event hands to its handler: the new one, or the last known one of a deletion. */
  function EventObject(before: Option<Node>, after: Option<Node>): Node
    requires before.Some? || after.Some?
  {
    if after.Some? then after.value else before.value
  }

  /**
   The write changes no count, or its event is delivered and every cluster it changes is the
   cluster of the object handed over. Checkable from the two objects alone.
   */
  predicate Covered(env: string, before: Option<Node>, after: Option<Node>)
    requires before.Some? || after.Some?
  {
    CountedIn(before) == CountedIn(after) ||
    (var o := EventObject(before, after);
     WatchedNode(env, o) && (CountedIn(before) == "" || CountedIn(before) == NodeCluster(o)))
  }

  /** Watched objects that come, go, or keep their cluster label are always covered. */
  lemma StableLabelIsCovered(env: string, before: Option<Node>, after: Option<Node>)
    requires before.Some? || after.Some?
    requires WatchedNode(env, EventObject(before, after))
    requires before.Some? && after.Some? ==> NodeCluster(before.value) == NodeCluster(after.value)
    ensures Covered(env, before, after)
  {
  }

  lemma CountedMembers(nodes: NodeTable, cluster: string)
    requires cluster != ""
    ensures forall name :: name in ReadyNames(nodes, cluster) <==> CountedIn(LookupNode(nodes, name)) == cluster
  {
  }

  lemma CountAfterWrite(nodes: NodeTable, name: string, after: Option<Node>, cluster: string)
    requires cluster != ""
    ensures ReadyCount(Replace(nodes, name, after), cluster) ==
            ReadyCount(nodes, cluster) - (if CountedIn(LookupNode(nodes, name)) == cluster then 1 else 0)
                                       + (if CountedIn(after) == cluster then 1 else 0)
  {
    var nodes' := Replace(nodes, name, after);
    CountedMembers(nodes, cluster);
    CountedMembers(nodes', cluster);
    assert LookupNode(nodes', name) == after;
    assert forall other :: other != name ==> LookupNode(nodes', other) == LookupNode(nodes, other);
    SameOutside(ReadyNames(nodes, cluster), ReadyNames(nodes', cluster), name);
  }

  lemma SameOutside(a: set<string>, b: set<string>, x: string)
    requires forall y :: y != x ==> (y in a <==> y in b)
    ensures |b| == |a| - (if x in a then 1 else 0) + (if x in b then 1 else 0)
  {
    assert a - {x} == b - {x};
    assert x in a ==> a == (a - {x}) + {x};
    assert x in b ==> b == (b - {x}) + {x};
  }

  /**
   Coverage is exactly locality: the counts a write changes are only those of the cluster whose
   peer deployments the delivered event makes the handler visit, if and only if it is covered.
   */
  lemma CoveredIffLocal(env: string, nodes: NodeTable, name: string, after: Option<Node>)
    requires name in nodes || after.Some?
    ensures var before := LookupNode(nodes, name);
            Covered(env, before, after) <==>
            (forall cluster {:trigger ReadyCount(nodes, cluster)} ::
               cluster != "" && ReadyCount(Replace(nodes, name, after), cluster) != ReadyCount(nodes, cluster) ==>
               WatchedNode(env, EventObject(before, after)) && cluster == NodeCluster(EventObject(before, after)))
  {
    var before := LookupNode(nodes, name);
    forall cluster | cluster != ""
      ensures ReadyCount(Replace(nodes, name, after), cluster) != ReadyCount(nodes, cluster) <==>
              (CountedIn(before) == cluster) != (CountedIn(after) == cluster)
    {
      CountAfterWrite(nodes, name, after, cluster);
    }
    if !Covered(env, before, after) {
      var lost := if CountedIn(before) != "" then CountedIn(before) else CountedIn(after);
      assert ReadyCount(Replace(nodes, name, after), lost) != ReadyCount(nodes, lost);
    }
  }
}
