/**
 One pass of updateDeploymentReplicas over a list of snapshots, as a function of the server's
 deployments and the cached nodes; what it comes to name by name; and that every section of the
 protocol whose counts, patches and view are left undisturbed does exactly this, whatever else
 happens meanwhile.
 */
module ReplicaPass {
  import opened Options
  import opened Cluster
  import opened ReplicaProtocol
  import opened ReplicaRuns
  import Token = ReplicaToken

  function Count(nodes: NodeTable, item: Item): nat {
    ReadyCount(nodes, ClusterOf(item.dep))
  }

  /** The snapshot makes the pass send a patch. */
  predicate Patches(nodes: NodeTable, item: Item) {
    Controlled(item.dep) && Count(nodes, item) != item.dep.replicas
  }

  /** The merge patch of spec.replicas; a deployment that is gone stays gone. */
  function PatchServer(server: DeploymentTable, name: string, replicas: nat): DeploymentTable {
    if name in server then server[name := WithReplicas(server[name], replicas)] else server
  }

  function PassOne(server: DeploymentTable, nodes: NodeTable, item: Item): DeploymentTable {
    if Patches(nodes, item) then PatchServer(server, item.name, Count(nodes, item)) else server
  }

  function Pass(server: DeploymentTable, nodes: NodeTable, todo: seq<Item>): DeploymentTable {
    if todo == [] then server else Pass(PassOne(server, nodes, todo[0]), nodes, todo[1..])
  }

  /** Item i is the last of the list that patches x. */
  ghost predicate LastPatch(nodes: NodeTable, todo: seq<Item>, x: string, i: nat) {
    && i < |todo| && todo[i].name == x && Patches(nodes, todo[i])
    && forall j :: i < j < |todo| && todo[j].name == x ==> !Patches(nodes, todo[j])
  }

  /** No deployment comes or goes, and one that no snapshot patches stays as it is. */
  lemma {:induction false} PassUntouched(server: DeploymentTable, nodes: NodeTable, todo: seq<Item>, x: string)
    ensures Pass(server, nodes, todo).Keys == server.Keys
    ensures x in server && (forall i :: 0 <= i < |todo| && todo[i].name == x ==> !Patches(nodes, todo[i])) ==>
              Pass(server, nodes, todo)[x] == server[x]
    decreases |todo|
  {
    if todo != [] {
      PassUntouched(PassOne(server, nodes, todo[0]), nodes, todo[1..], x);
      assert forall i :: 0 <= i < |todo[1..]| ==> todo[1..][i] == todo[i + 1];
    }
  }

  /**
   Any list, stale and repeated snapshots included: a deployment ends with the count of the last
   snapshot that patches it, and nothing else about it changes.
   */
  lemma {:induction false} PassAt(server: DeploymentTable, nodes: NodeTable, todo: seq<Item>, x: string, i: nat)
    requires x in server && LastPatch(nodes, todo, x, i)
    ensures x in Pass(server, nodes, todo)
    ensures Pass(server, nodes, todo)[x] == WithReplicas(server[x], Count(nodes, todo[i]))
    decreases |todo|
  {
    var next := PassOne(server, nodes, todo[0]);
    if i > 0 {
      assert todo[1..][i - 1] == todo[i];
      PassAt(next, nodes, todo[1..], x, i - 1);
    } else {
      PassUntouched(next, nodes, todo[1..], x);
      assert forall j :: 0 <= j < |todo[1..]| ==> todo[1..][j] == todo[j + 1];
    }
  }

  /** The list holds one snapshot of this deployment, and it is as the server has it. */
  ghost predicate OneCurrent(server: DeploymentTable, todo: seq<Item>, i: nat) {
    && i < |todo| && todo[i].name in server && server[todo[i].name] == todo[i].dep
    && forall j :: 0 <= j < |todo| && todo[j].name == todo[i].name ==> j == i
  }

  /**
   What is to become of deployment d, told from its labels: a peer that has not opted out and names a
   cluster gets the ready count of that cluster, any other one stays as it is.
   */
  ghost predicate AsItsLabelsSay(nodes: NodeTable, d: Deployment, after: Deployment) {
    if (&& "virtual-kubelet.koupleless.io/strategy" in d.labels
        && d.labels["virtual-kubelet.koupleless.io/strategy"] == "peer"
        && ("virtual-kubelet.koupleless.io/replicas-control" in d.labels ==>
              d.labels["virtual-kubelet.koupleless.io/replicas-control"] != "true")
        && ClusterOf(d) != "")
    then after == d.(replicas := ReadyCount(nodes, ClusterOf(d)))
    else after == d
  }

  /** That is what becomes of it when its one snapshot is current, whatever else the list holds. */
  lemma {:induction false} CurrentSnapshotDecides(server: DeploymentTable, nodes: NodeTable, todo: seq<Item>, i: nat)
    requires OneCurrent(server, todo, i)
    ensures var name := todo[i].name;
            name in Pass(server, nodes, todo) && AsItsLabelsSay(nodes, todo[i].dep, Pass(server, nodes, todo)[name])
  {
    SteeredByLabels(todo[i].dep);
    PassUntouched(server, nodes, todo, todo[i].name);
    if Patches(nodes, todo[i]) {
      assert LastPatch(nodes, todo, todo[i].name, i);
      PassAt(server, nodes, todo, todo[i].name, i);
    }
  }

  /** A list as a cache that agrees with the server gives it. */
  ghost predicate Refreshed(server: DeploymentTable, todo: seq<Item>) {
    && (forall i :: 0 <= i < |todo| ==> todo[i].name in server && todo[i].dep == server[todo[i].name])
    && (forall i, j :: 0 <= i < j < |todo| ==> todo[i].name != todo[j].name)
  }

  /** Over a current list the pass makes every eligible entry right and touches nothing else. */
  lemma {:induction false} PassOverCurrentList(server: DeploymentTable, nodes: NodeTable, todo: seq<Item>, x: string)
    requires Refreshed(server, todo) && x in server
    ensures x in Pass(server, nodes, todo)
    ensures var after := Pass(server, nodes, todo)[x];
            if Controlled(server[x]) && (exists i :: 0 <= i < |todo| && todo[i].name == x)
            then after == WithReplicas(server[x], ReadyCount(nodes, ClusterOf(server[x])))
            else after == server[x]
  {
    PassUntouched(server, nodes, todo, x);
    if i :| 0 <= i < |todo| && todo[i].name == x {
      if Patches(nodes, todo[i]) {
        assert LastPatch(nodes, todo, x, i);
        PassAt(server, nodes, todo, x, i);
      } else {
        assert forall j :: 0 <= j < |todo| && todo[j].name == x ==> j == i;
      }
    }
  }

  /** A second pass over the refreshed list, with the same nodes, sends nothing. */
  lemma {:induction false} SecondPassIsIdle(server: DeploymentTable, nodes: NodeTable,
                                            todo: seq<Item>, again: seq<Item>)
    requires Refreshed(server, todo)
    requires Refreshed(Pass(server, nodes, todo), again)
    requires forall i :: 0 <= i < |again| ==> exists j :: 0 <= j < |todo| && todo[j].name == again[i].name
    ensures forall i :: 0 <= i < |again| ==> !Patches(nodes, again[i])
    ensures Pass(Pass(server, nodes, todo), nodes, again) == Pass(server, nodes, todo)
  {
    forall i | 0 <= i < |again|
      ensures !Patches(nodes, again[i])
    {
      var x := again[i].name;
      var j :| 0 <= j < |todo| && todo[j].name == x;
      assert x in server;
      PassOverCurrentList(server, nodes, todo, x);
    }
    IdlePass(Pass(server, nodes, todo), nodes, again);
  }

  lemma {:induction false} IdlePass(server: DeploymentTable, nodes: NodeTable, todo: seq<Item>)
    requires forall i :: 0 <= i < |todo| ==> !Patches(nodes, todo[i])
    ensures Pass(server, nodes, todo) == server
    decreases |todo|
  {
    if todo != [] {
      IdlePass(server, nodes, todo[1..]);
    }
  }

  /** A covered node write changes the wanted count of none but the deployments its handler visits. */
  lemma NodeEventsAreLocal(env: string, nodes: NodeTable, name: string, after: Option<Node>,
                           deps: DeploymentTable, x: string)
    requires name in nodes || after.Some?
    requires Covered(env, LookupNode(nodes, name), after)
    requires x in deps && Controlled(deps[x])
    requires ReadyCount(Replace(nodes, name, after), ClusterOf(deps[x])) != ReadyCount(nodes, ClusterOf(deps[x]))
    ensures var o := EventObject(LookupNode(nodes, name), after);
            WatchedNode(env, o) && x in Related(deps, NodeCluster(o))
  {
    CoveredIffLocal(env, nodes, name, after);
  }

  // ---------- the protocol does this ----------

  /** The server's deployments as goroutine w would leave them if nothing came in between. */
  ghost function Left(s: State, w: Worker): DeploymentTable
    requires Shaped(s)
  {
    match s.threads[w]
    case Working(todo) => Pass(DepsNow(s), CachedNodes(s), todo)
    case Patching(todo, replicas, _) =>
      if todo == [] then DepsNow(s)
      else Pass(PatchServer(DepsNow(s), todo[0].name, replicas), CachedNodes(s), todo[1..])
    case _ => DepsNow(s)
  }

  /**
   Any step but a write to a deployment, a move of the node cache, and a failed call or the exit of
   w itself. Node writes, events, listings and whatever the others do are all let through.
   */
  predicate Undisturbing(a: Action, w: Worker) {
    && !a.PutDeployment? && !a.DropDeployment? && !a.AdvanceNodes?
    && a != CountFails(w) && a != PatchFails(w) && a != Release(w)
  }

  lemma ExamineKeepsLeft(cfg: Config, s: State, w: Worker)
    requires Shaped(s) && Enabled(cfg, s, Examine(w))
    ensures Left(Apply(cfg, s, Examine(w)), w) == Left(s, w)
  {
    assert Pass(DepsNow(s), CachedNodes(s), s.threads[w].todo) ==
           Pass(PassOne(DepsNow(s), CachedNodes(s), s.threads[w].todo[0]), CachedNodes(s), s.threads[w].todo[1..]);
  }

  lemma SendKeepsLeft(s: State, w: Worker)
    requires Shaped(s) && s.threads[w].Patching? && s.threads[w].todo != [] && Shaped(Send(s, w))
    ensures Left(Send(s, w), w) == Left(s, w)
  {
    var t := s.threads[w];
    assert DepsNow(Send(s, w)) == PatchServer(DepsNow(s), t.todo[0].name, t.replicas);
  }

  /** Whatever is not a count or a patch of somebody's leaves goroutine w, the server and its view alone. */
  lemma OtherStep(cfg: Config, s: State, a: Action, w: Worker)
    requires Shaped(s) && Token.Inside(s.threads[w]) && s.token == 0 && Enabled(cfg, s, a)
    requires Undisturbing(a, w) && !a.Examine? && !a.SendPatch?
    ensures var s' := Apply(cfg, s, a);
            && s'.threads[w] == s.threads[w] && s'.deps == s.deps
            && s'.nodes.versions[s'.nodesCached] == CachedNodes(s)
  {
  }

  /** The token keeps the others from patching, so the rest of the section's work stays what it was. */
  lemma StepKeepsLeft(cfg: Config, s: State, a: Action, w: Worker)
    requires Token.Inv(s) && Token.Inside(s.threads[w]) && Enabled(cfg, s, a) && Undisturbing(a, w)
    requires Shaped(Apply(cfg, s, a))
    ensures var s' := Apply(cfg, s, a); Token.Inside(s'.threads[w]) && Left(s', w) == Left(s, w)
  {
    Token.OneInside(s, w, w);
    if a.Examine? {
      Token.OneInside(s, a.w, w);
      ExamineKeepsLeft(cfg, s, w);
    } else if a.SendPatch? {
      Token.OneInside(s, a.w, w);
      SendKeepsLeft(s, w);
    } else {
      OtherStep(cfg, s, a, w);
    }
  }

  lemma {:induction false} RunKeepsLeft(cfg: Config, s: State, run: seq<Action>, last: State, w: Worker)
    requires Token.Inv(s) && Token.Inside(s.threads[w]) && Leads(cfg, s, run, last)
    requires forall i :: 0 <= i < |run| ==> Undisturbing(run[i], w)
    ensures Shaped(last) && Token.Inside(last.threads[w]) && Left(last, w) == Left(s, w)
    decreases |run|
  {
    if run != [] {
      Token.InvStep(cfg, s, run[0]);
      StepKeepsLeft(cfg, s, run[0], w);
      RunKeepsLeft(cfg, Apply(cfg, s, run[0]), run[1..], last, w);
    }
  }

  /**
   From any reachable state, however the steps interleave: between taking up a list and having
   nothing left to do, an undisturbed section takes the server exactly where one pass takes it.
   */
  lemma SectionRefinesPass(cfg: Config, past: seq<Action>, s: State, run: seq<Action>, last: State, w: Worker)
    requires Leads(cfg, INIT, past, s) && Shaped(s) && s.threads[w].Working?
    requires Leads(cfg, s, run, last) && Shaped(last) && last.threads[w] == Working([])
    requires forall i :: 0 <= i < |run| ==> Undisturbing(run[i], w)
    ensures DepsNow(last) == Pass(DepsNow(s), CachedNodes(s), s.threads[w].todo)
  {
    Token.InvReached(cfg, past);
    RunKeepsLeft(cfg, s, run, last, w);
  }

  predicate OwnSteps(run: seq<Action>, w: Worker) {
    forall i :: 0 <= i < |run| ==> run[i] == Examine(w) || run[i] == SendPatch(w)
  }

  /** Examine one item and, if it asks for it, send its patch. */
  lemma ItemCompletes(cfg: Config, s: State, w: Worker) returns (run: seq<Action>, s': State)
    requires Shaped(s) && s.threads[w].Working? && s.threads[w].todo != []
    ensures Leads(cfg, s, run, s') && OwnSteps(run, w)
    ensures Shaped(s') && s'.threads[w] == Working(s.threads[w].todo[1..])
  {
    OneStep(cfg, s, Examine(w));
    run, s' := [Examine(w)], Apply(cfg, s, Examine(w));
    if Patches(CachedNodes(s), s.threads[w].todo[0]) {
      AddStep(cfg, s, run, s', SendPatch(w));
      run, s' := run + [SendPatch(w)], Send(s', w);
    }
  }

  /** By its own counts and patches alone a section can always work its list off. */
  lemma {:induction false} SectionCompletes(cfg: Config, s: State, w: Worker) returns (run: seq<Action>, last: State)
    requires Shaped(s) && s.threads[w].Working?
    ensures Leads(cfg, s, run, last) && OwnSteps(run, w)
    ensures Shaped(last) && last.threads[w] == Working([])
    decreases |s.threads[w].todo|
  {
    if s.threads[w].todo == [] {
      run, last := [], s;
    } else {
      var first, s1 := ItemCompletes(cfg, s, w);
      var rest, s2 := SectionCompletes(cfg, s1, w);
      RunsCompose(cfg, s, first, rest);
      run, last := first + rest, s2;
    }
  }
}
