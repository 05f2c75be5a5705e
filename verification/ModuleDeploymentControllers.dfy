/**
 The module deployment controller itself: its token, its view of server and caches, and the loops
 of its handlers, proved against the pass function and the baseline answer.
 */
module ModuleDeploymentControllers {
  import opened Cluster
  import opened ReplicaProtocol
  import opened ReplicaPass
  import opened Baseline

  /** List names in some order, each once. */
  method Enumerate(names: set<string>) returns (order: seq<string>)
    ensures forall i, j :: 0 <= i < j < |order| ==> order[i] != order[j]
    ensures forall i :: 0 <= i < |order| ==> order[i] in names
    ensures forall name :: name in order <==> name in names
  {
    order := [];
    var rest := names;
    while rest != {}
      invariant rest <= names
      invariant forall i, j :: 0 <= i < j < |order| ==> order[i] != order[j]
      invariant forall i :: 0 <= i < |order| ==> order[i] in names - rest
      invariant forall name :: name in order <==> name in names - rest
      decreases rest
    {
      var name :| name in rest;
      order := order + [name];
      rest := rest - {name};
    }
  }

  class ModuleDeploymentController {
    const env: string
    const syncWithBase: bool
    var server: DeploymentTable
    var nodeCache: NodeTable
    var deploymentCache: DeploymentTable
    var updateToken: nat

    constructor (env: string, syncWithBase: bool)
      ensures this.env == env && this.syncWithBase == syncWithBase && updateToken == 0
      ensures server == map[] && nodeCache == map[] && deploymentCache == map[]
    {
      this.env := env;
      this.syncWithBase := syncWithBase;
      server, nodeCache, deploymentCache := map[], map[], map[];
      updateToken := 0;
    }

    /** Setting up fills the one-slot channel; a second set-up would block for ever. */
    method SetupWithManager()
      requires updateToken < 1
      modifies this`updateToken
      ensures updateToken == 1
    {
      updateToken := updateToken + 1;
    }

    /** Running nodes of the cluster with a Ready condition that is True, each counted once. */
    method GetReadyNodeCount(cluster: string) returns (readyNodeCnt: nat)
      ensures readyNodeCnt == ReadyCount(nodeCache, cluster)
      ensures readyNodeCnt ==
              |set n | && n in nodeCache
                       && "base.koupleless.io/cluster-name" in nodeCache[n].labels
                       && nodeCache[n].labels["base.koupleless.io/cluster-name"] == cluster
                       && nodeCache[n].phase == "Running"
                       && Condition("Ready", "True") in nodeCache[n].conditions|
    {
      var nodes := Enumerate(set name | name in nodeCache && HasLabel(nodeCache[name].labels, LABEL_CLUSTER, cluster));
      readyNodeCnt := 0;
      ghost var counted: set<string> := {};
      for i := 0 to |nodes|
        invariant forall x :: x in counted <==> x in nodes[..i] && IsReady(nodeCache[x])
        invariant readyNodeCnt == |counted|
      {
        var node := nodeCache[nodes[i]];
        ghost var before := readyNodeCnt;
        if node.phase == "Running" {
          for j := 0 to |node.conditions|
            invariant forall c :: 0 <= c < j ==>
                        !(node.conditions[c].kind == "Ready" && node.conditions[c].status == "True")
            invariant readyNodeCnt == before
          {
            if node.conditions[j].kind == "Ready" {
              if node.conditions[j].status == "True" {
                readyNodeCnt := readyNodeCnt + 1;
                break;
              }
            }
          }
        }
        assert readyNodeCnt == before + if IsReady(node) then 1 else 0;
        assert nodes[..i + 1] == nodes[..i] + [nodes[i]];
        if IsReady(node) {
          counted := counted + {nodes[i]};
        }
      }
      assert nodes[..|nodes|] == nodes;
      assert counted == ReadyNames(nodeCache, cluster);
      CountedByStatus(nodeCache, cluster);
    }

    /** The cached peer deployments of the cluster as they are there, each once and nothing else. */
    ghost predicate Visits(items: seq<Item>, cluster: string)
      reads this
    {
      && Refreshed(deploymentCache, items)
      && forall x :: x in Related(deploymentCache, cluster) <==> Lists(items, x)
    }

    method GetRelatedDeploymentsByNode(node: Node) returns (matched: seq<Item>)
      ensures Visits(matched, NodeCluster(node))
      ensures forall i :: 0 <= i < |matched| ==>
                matched[i].name in deploymentCache && matched[i].dep == deploymentCache[matched[i].name]
      ensures forall i, j :: 0 <= i < j < |matched| ==> matched[i].name != matched[j].name
      ensures forall x :: (exists i :: 0 <= i < |matched| && matched[i].name == x) <==>
                && x in deploymentCache
                && "virtual-kubelet.koupleless.io/strategy" in deploymentCache[x].labels
                && deploymentCache[x].labels["virtual-kubelet.koupleless.io/strategy"] == "peer"
                && "base.koupleless.io/cluster-name" in node.labels
                && node.labels["base.koupleless.io/cluster-name"] == ClusterOf(deploymentCache[x]) != ""
    {
      matched := [];
      var cluster := NodeCluster(node);
      if cluster == "" {
        return;
      }
      var peers := Enumerate(set name | name in deploymentCache && IsPeer(deploymentCache[name]));
      for i := 0 to |peers|
        invariant forall k :: 0 <= k < |matched| ==> matched[k].name in peers[..i]
        invariant Refreshed(deploymentCache, matched)
        invariant forall x :: x in peers[..i] && ClusterOf(deploymentCache[x]) == cluster <==> Lists(matched, x)
      {
        var deployment := deploymentCache[peers[i]];
        assert peers[..i + 1] == peers[..i] + [peers[i]];
        if cluster == ClusterOf(deployment) && ClusterOf(deployment) != "" {
          assert forall k :: 0 <= k < |matched| ==> matched[k].name != peers[i];
          AppendCurrent(deploymentCache, matched, peers[i]);
          matched := matched + [Item(peers[i], deployment)];
        }
      }
      assert peers[..|peers|] == peers;
    }

    /** Only the replicas of that deployment change; one that is gone stays gone and is no error. */
    method UpdateDeploymentReplicasOfKubernetes(replicas: nat, name: string)
      modifies this`server
      ensures server.Keys == old(server).Keys
      ensures forall x :: x in server && x != name ==> server[x] == old(server)[x]
      ensures name in server ==>
                var d, before := server[name], old(server)[name];
                && d.replicas == replicas && d.labels == before.labels && d.nodeSelector == before.nodeSelector
                && d.nodeTerms == before.nodeTerms && d.created == before.created
                && d.containers == before.containers
      ensures name !in old(server) ==> server == old(server)
    {
      if name in server {
        server := server[name := WithReplicas(server[name], replicas)];
      }
    }

    /** One pass over the list; the token is back in its slot on every way out. */
    method UpdateDeploymentReplicas(deployments: seq<Item>)
      requires updateToken == 1
      modifies this`server, this`updateToken
      ensures updateToken == 1
      ensures server == if syncWithBase then Pass(old(server), nodeCache, deployments) else old(server)
      ensures server.Keys == old(server).Keys
      ensures forall x :: x in server && (forall i :: 0 <= i < |deployments| ==> deployments[i].name != x) ==>
                server[x] == old(server)[x]
      ensures syncWithBase ==> forall i :: 0 <= i < |deployments| && OneCurrent(old(server), deployments, i) ==>
                deployments[i].name in server &&
                AsItsLabelsSay(nodeCache, deployments[i].dep, server[deployments[i].name])
    {
      updateToken := updateToken - 1;
      if !syncWithBase {
        updateToken := updateToken + 1;
        return;
      }
      for i := 0 to |deployments|
        invariant updateToken == 0
        invariant Pass(server, nodeCache, deployments[i..]) == Pass(old(server), nodeCache, deployments)
      {
        var deployment := deployments[i].dep;
        ghost var before := server;
        if !HasLabel(deployment.labels, LABEL_STRATEGY, STRATEGY_PEER)
           || HasLabel(deployment.labels, LABEL_SKIP_REPLICAS, "true") {
        } else if ClusterOf(deployment) == "" {
        } else {
          var sameClusterNodeCount := GetReadyNodeCount(ClusterOf(deployment));
          if sameClusterNodeCount != deployment.replicas {
            UpdateDeploymentReplicasOfKubernetes(sameClusterNodeCount, deployments[i].name);
            PatchedIs(before, server, deployments[i].name, sameClusterNodeCount);
          }
        }
        assert server == PassOne(before, nodeCache, deployments[i]);
        assert deployments[i..][0] == deployments[i] && deployments[i..][1..] == deployments[i + 1..];
      }
      updateToken := updateToken + 1;
      forall x
        ensures server.Keys == old(server).Keys
        ensures x in server && (forall i :: 0 <= i < |deployments| ==> deployments[i].name != x) ==>
                  server[x] == old(server)[x]
      {
        PassUntouched(old(server), nodeCache, deployments, x);
      }
      forall i | 0 <= i < |deployments| && OneCurrent(old(server), deployments, i)
        ensures deployments[i].name in server
        ensures AsItsLabelsSay(nodeCache, deployments[i].dep, server[deployments[i].name])
      {
        CurrentSnapshotDecides(old(server), nodeCache, deployments, i);
      }
    }

    /** What a handler leaves at the server when the deployment cache is current. */
    ghost predicate RightAfter(before: DeploymentTable, names: set<string>)
      reads this
    {
      && server.Keys == before.Keys
      && forall x :: x in server ==>
           if x in names then AsItsLabelsSay(nodeCache, before[x], server[x]) else server[x] == before[x]
    }

    /** Creation, update and deletion of a node are all handled with the last known object. */
    method HandleVnode(node: Node)
      requires updateToken == 1
      modifies this`server, this`updateToken
      ensures updateToken == 1
      ensures !syncWithBase ==> server == old(server)
      ensures syncWithBase ==> exists related ::
                Visits(related, NodeCluster(node)) && server == Pass(old(server), nodeCache, related)
      ensures syncWithBase && old(server) == deploymentCache ==>
                RightAfter(old(server), Related(deploymentCache, NodeCluster(node)))
    {
      var related := GetRelatedDeploymentsByNode(node);
      assert Visits(related, NodeCluster(node));
      UpdateDeploymentReplicas(related);
      if syncWithBase && old(server) == deploymentCache {
        forall x | x in old(server)
          ensures x in server
          ensures if x in Related(deploymentCache, NodeCluster(node))
                  then AsItsLabelsSay(nodeCache, old(server)[x], server[x])
                  else server[x] == old(server)[x]
        {
          if i :| 0 <= i < |related| && related[i].name == x {
            assert Lists(related, x) && OneCurrent(old(server), related, i);
          }
        }
      }
    }

    /** Creation and update of a deployment are handled with the event's own snapshot. */
    method HandleDeployment(name: string, dep: Deployment)
      requires updateToken == 1
      modifies this`server, this`updateToken
      ensures updateToken == 1
      ensures !syncWithBase ==> server == old(server)
      ensures syncWithBase ==> server == Pass(old(server), nodeCache, [Item(name, dep)])
      ensures syncWithBase && name in old(server) && old(server)[name] == dep ==> RightAfter(old(server), {name})
    {
      var list := [Item(name, dep)];
      UpdateDeploymentReplicas(list);
      if syncWithBase && name in old(server) && old(server)[name] == dep {
        assert OneCurrent(old(server), list, 0);
      }
    }

    method PlaceFor(sorted: seq<Deployment>, d: Deployment) returns (p: nat)
      ensures p <= |sorted| && (p > 0 ==> sorted[p - 1].created <= d.created)
      ensures forall k :: p <= k < |sorted| ==> d.created < sorted[k].created
    {
      p := |sorted|;
      while p > 0 && sorted[p - 1].created > d.created
        invariant 0 <= p <= |sorted|
        invariant forall k :: p <= k < |sorted| ==> d.created < sorted[k].created
      {
        p := p - 1;
      }
    }

    /** Sorted by creation time; which of several equal ones comes first is not specified. */
    method SortByCreation(items: seq<Deployment>) returns (sorted: seq<Deployment>)
      ensures multiset(sorted) == multiset(items) && ByCreation(sorted)
    {
      sorted := [];
      for i := 0 to |items|
        invariant multiset(sorted) == multiset(items[..i]) && ByCreation(sorted)
      {
        var p := PlaceFor(sorted, items[i]);
        InsertedInOrder(sorted, p, items[i]);
        InsertedOnce(sorted, p, items, i);
        sorted := sorted[..p] + [items[i]] + sorted[p..];
      }
      assert items[..|items|] == items;
    }

    /** The listing the query starts from. */
    method ListEnvironment() returns (items: seq<Deployment>)
      ensures ListsEnvironment(deploymentCache, env, multiset(items))
    {
      var names :=
        Enumerate(set name | name in deploymentCache && HasLabel(deploymentCache[name].labels, LABEL_ENV, env));
      items := [];
      for i := 0 to |names|
        invariant |items| == i && forall k :: 0 <= k < i ==> items[k] == deploymentCache[names[k]]
      {
        items := items + [deploymentCache[names[i]]];
      }
      assert ListedAs(deploymentCache, env, items, names);
    }

    /** The containers of the environment's deployments of one cluster, oldest deployment first. */
    method QueryContainerBaseline(cluster: string) returns (containers: seq<Container>)
      ensures exists sorted :: ListsEnvironment(deploymentCache, env, multiset(sorted)) && ByCreation(sorted) &&
                               containers == Answer(sorted, cluster)
      ensures forall x :: InBaselineOf(deploymentCache, env, cluster, x) ==>
                Holds(containers, deploymentCache[x].containers)
      ensures forall x, y :: InBaselineOf(deploymentCache, env, cluster, x) &&
                             InBaselineOf(deploymentCache, env, cluster, y) &&
                             deploymentCache[x].created < deploymentCache[y].created ==>
                HoldsInOrder(containers, deploymentCache[x].containers, deploymentCache[y].containers)
      ensures forall c :: c in containers ==>
                exists x :: InBaselineOf(deploymentCache, env, cluster, x) && c in deploymentCache[x].containers
    {
      var items := ListEnvironment();
      var sorted := SortByCreation(items);
      containers := [];
      for i := 0 to |sorted|
        invariant containers == Answer(sorted[..i], cluster)
      {
        var deployment := sorted[i];
        ghost var before := containers;
        if ClusterOf(deployment) != "" && ClusterOf(deployment) == cluster {
          for j := 0 to |deployment.containers|
            invariant containers == before + deployment.containers[..j]
          {
            containers := containers + [deployment.containers[j]];
            assert deployment.containers[..j + 1] == deployment.containers[..j] + [deployment.containers[j]];
          }
          assert deployment.containers[..|deployment.containers|] == deployment.containers;
        }
        AnswerOfEach(sorted[..i], deployment, [], cluster);
        assert sorted[..i + 1] == sorted[..i] + [deployment] + [];
      }
      assert sorted[..|sorted|] == sorted;
      BaselineTold(deploymentCache, env, cluster, sorted);
    }
  }

  ghost predicate ListedAs(table: DeploymentTable, env: string, listed: seq<Deployment>, names: seq<string>) {
    && |names| == |listed|
    && (forall i, j :: 0 <= i < j < |names| ==> names[i] != names[j])
    && (forall i :: 0 <= i < |names| ==> names[i] in table && table[names[i]] == listed[i])
    && (forall x :: x in names <==>
          && x in table && "virtual-kubelet.koupleless.io/env" in table[x].labels
          && table[x].labels["virtual-kubelet.koupleless.io/env"] == env)
  }

  /** Every cached deployment of the environment, each once. */
  ghost predicate ListsEnvironment(table: DeploymentTable, env: string, items: multiset<Deployment>) {
    exists listed, names :: multiset(listed) == items && ListedAs(table, env, listed, names)
  }

  /** Deployment x is of this environment, and its label, else its selector, else its affinity names the cluster. */
  ghost predicate InBaselineOf(table: DeploymentTable, env: string, cluster: string, x: string) {
    x in table &&
    var d := table[x];
    && "virtual-kubelet.koupleless.io/env" in d.labels && d.labels["virtual-kubelet.koupleless.io/env"] == env
    && cluster != ""
    && if "base.koupleless.io/cluster-name" in d.labels then d.labels["base.koupleless.io/cluster-name"] == cluster
       else if "base.koupleless.io/cluster-name" in d.nodeSelector
       then d.nodeSelector["base.koupleless.io/cluster-name"] == cluster
       else ClusterOf(d) == cluster
  }

  lemma BaselineInSorted(table: DeploymentTable, env: string, cluster: string, sorted: seq<Deployment>, x: string)
    requires ListsEnvironment(table, env, multiset(sorted)) && InBaselineOf(table, env, cluster, x)
    ensures table[x] in sorted && InBaseline(table[x], cluster)
  {
    var listed, names :| multiset(listed) == multiset(sorted) && ListedAs(table, env, listed, names);
    assert x in names;
    var i :| 0 <= i < |names| && names[i] == x;
    assert listed[i] in multiset(sorted);
  }

  lemma SortedInBaseline(table: DeploymentTable, env: string, cluster: string, sorted: seq<Deployment>, d: Deployment)
    returns (x: string)
    requires ListsEnvironment(table, env, multiset(sorted)) && d in sorted && cluster != "" && ClusterOf(d) == cluster
    ensures InBaselineOf(table, env, cluster, x) && table[x] == d
  {
    var listed, names :| multiset(listed) == multiset(sorted) && ListedAs(table, env, listed, names);
    assert d in multiset(listed);
    var i :| 0 <= i < |listed| && listed[i] == d;
    x := names[i];
    assert x in names;
  }

  /** Each deployment of the baseline has its containers in the answer, older ones before younger ones. */
  lemma BaselineTold(table: DeploymentTable, env: string, cluster: string, sorted: seq<Deployment>)
    requires ListsEnvironment(table, env, multiset(sorted)) && ByCreation(sorted)
    ensures forall x :: InBaselineOf(table, env, cluster, x) ==> Holds(Answer(sorted, cluster), table[x].containers)
    ensures forall x, y :: InBaselineOf(table, env, cluster, x) && InBaselineOf(table, env, cluster, y) &&
                           table[x].created < table[y].created ==>
              HoldsInOrder(Answer(sorted, cluster), table[x].containers, table[y].containers)
    ensures forall c :: c in Answer(sorted, cluster) ==>
              exists x :: InBaselineOf(table, env, cluster, x) && c in table[x].containers
  {
    forall x | InBaselineOf(table, env, cluster, x)
      ensures table[x] in sorted && InBaseline(table[x], cluster) && Holds(Answer(sorted, cluster), table[x].containers)
    {
      BaselineInSorted(table, env, cluster, sorted, x);
      AnswerHolds(sorted, cluster, table[x]);
    }
    forall x, y | InBaselineOf(table, env, cluster, x) && InBaselineOf(table, env, cluster, y) &&
                  table[x].created < table[y].created
      ensures HoldsInOrder(Answer(sorted, cluster), table[x].containers, table[y].containers)
    {
      AnswerHoldsInOrder(sorted, cluster, table[x], table[y]);
    }
    forall c | c in Answer(sorted, cluster)
      ensures exists x :: InBaselineOf(table, env, cluster, x) && c in table[x].containers
    {
      var d := AnswerComesFrom(sorted, cluster, c);
      var x := SortedInBaseline(table, env, cluster, sorted, d);
    }
  }

  /** A server that differs in the replicas of one deployment is the patched one. */
  lemma PatchedIs(before: DeploymentTable, after: DeploymentTable, name: string, replicas: nat)
    requires after.Keys == before.Keys && forall x :: x in after && x != name ==> after[x] == before[x]
    requires name in after ==> after[name] == WithReplicas(before[name], replicas)
    ensures after == PatchServer(before, name, replicas)
  {
  }

  ghost predicate Lists(items: seq<Item>, x: string) {
    exists i :: 0 <= i < |items| && items[i].name == x
  }

  lemma AppendCurrent(table: DeploymentTable, items: seq<Item>, name: string)
    requires Refreshed(table, items) && name in table
    requires forall k :: 0 <= k < |items| ==> items[k].name != name
    ensures Refreshed(table, items + [Item(name, table[name])])
    ensures forall x :: Lists(items + [Item(name, table[name])], x) <==> Lists(items, x) || x == name
  {
    var longer := items + [Item(name, table[name])];
    assert longer[|items|].name == name;
    forall x | Lists(items, x)
      ensures Lists(longer, x)
    {
      var i :| 0 <= i < |items| && items[i].name == x;
      assert longer[i].name == x;
    }
  }

  lemma InsertedInOrder(sorted: seq<Deployment>, p: nat, d: Deployment)
    requires ByCreation(sorted) && p <= |sorted|
    requires p > 0 ==> sorted[p - 1].created <= d.created
    requires forall k :: p <= k < |sorted| ==> d.created < sorted[k].created
    ensures ByCreation(sorted[..p] + [d] + sorted[p..])
  {
    var longer := sorted[..p] + [d] + sorted[p..];
    forall i, j | 0 <= i < j < |longer|
      ensures longer[i].created <= longer[j].created
    {
      assert longer[i] == if i < p then sorted[i] else if i == p then d else sorted[i - 1];
      assert longer[j] == if j < p then sorted[j] else if j == p then d else sorted[j - 1];
      assert i < p ==> sorted[i].created <= sorted[p - 1].created;
    }
  }

  lemma InsertedOnce<T>(s: seq<T>, p: nat, items: seq<T>, i: nat)
    requires p <= |s| && i < |items| && multiset(s) == multiset(items[..i])
    ensures multiset(s[..p] + [items[i]] + s[p..]) == multiset(items[..i + 1])
  {
    assert s == s[..p] + s[p..];
    assert multiset(s) == multiset(s[..p]) + multiset(s[p..]);
    assert items[..i + 1] == items[..i] + [items[i]];
  }
}
