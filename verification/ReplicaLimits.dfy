/**
 Where convergence ends. Each hypothesis of the convergence theorem is needed: for every node write
 that is not covered, for one lost count, one lost patch and one lost listing, for the switched-off
 control and for an unwatched deployment, here is a run that settles with replicas that disagree
 with the ready nodes.
 */
module ReplicaLimits {
  import opened Options
  import opened Cluster
  import opened ReplicaProtocol
  import opened ReplicaRuns

  /** A run that makes these writes only, and loses no call. */
  ghost predicate OnlyWrites(run: seq<Action>, writes: set<Action>) {
    forall i :: 0 <= i < |run| ==> !IsFault(run[i]) && (IsWrite(run[i]) ==> run[i] in writes)
  }

  /** A run that makes these writes only, and loses this one call. */
  ghost predicate OnlyLoses(run: seq<Action>, writes: set<Action>, lost: Action) {
    && (forall i :: 0 <= i < |run| && IsWrite(run[i]) ==> run[i] in writes)
    && exists l :: 0 <= l < |run| && run[l] == lost && forall i :: 0 <= i < |run| && IsFault(run[i]) ==> i == l
  }

  /** Everything taken, nobody running, the token in its slot. */
  predicate Settled(s: State) {
    && Shaped(s) && s.token == 1 && s.threads == [Idle, Idle, Idle]
    && s.nodesCached == |s.nodes.names| && s.depsCached == |s.deps.names|
    && s.nodesTaken == |s.nodes.names| && s.depsTaken == |s.deps.names|
  }

  function NodeWrite(name: string, after: Option<Node>): Action {
    if after.Some? then PutNode(name, after.value) else DropNode(name)
  }

  /** The writes it takes to have the node there to begin with. */
  function SetUp(name: string, before: Option<Node>): set<Action> {
    if before.Some? then {PutNode(name, before.value)} else {}
  }

  /** The server, the cache and the event counter after a node write that nobody acts on. */
  function AfterNodeWrite(s: State, name: string, after: Option<Node>): State
    requires Shaped(s)
  {
    s.(nodes := s.nodes.Append(name, Replace(NodesNow(s), name, after)),
       nodesCached := s.nodesCached + 1, nodesTaken := s.nodesTaken + 1)
  }

  /** A goroutine with nothing to do, or switched off, takes the token and gives it back. */
  lemma EmptySection(cfg: Config, s: State, run: seq<Action>, now: State, w: Worker)
    requires Leads(cfg, s, run, now) && Shaped(now) && now.token == 1 && now.threads[w].Waiting?
    requires now.threads[w].todo == [] || !cfg.enabled
    ensures Leads(cfg, s, run + [Take(w)] + [Release(w)], now.(threads := now.threads[w := Idle]))
  {
    AddStep(cfg, s, run, now, Take(w));
    var next := Apply(cfg, now, Take(w));
    AddStep(cfg, s, run + [Take(w)], next, Release(w));
    assert Apply(cfg, next, Release(w)) == now.(threads := now.threads[w := Idle]);
  }

  lemma NodeReachesCache(cfg: Config, s: State, name: string, after: Option<Node>)
    requires Settled(s) && (after.Some? || name in NodesNow(s))
    ensures Leads(cfg, s, [NodeWrite(name, after), AdvanceNodes],
                  AfterNodeWrite(s, name, after).(nodesTaken := s.nodesTaken))
  {
    var write := NodeWrite(name, after);
    OneStep(cfg, s, write);
    var s1 := Apply(cfg, s, write);
    AddStep(cfg, s, [write], s1, AdvanceNodes);
    assert [write] + [AdvanceNodes] == [write, AdvanceNodes];
  }

  predicate Unheeded(cfg: Config, s: State, name: string, after: Option<Node>)
    requires Settled(s) && (after.Some? || name in NodesNow(s))
  {
    var o := EventObject(LookupNode(NodesNow(s), name), after);
    WatchedNode(cfg.env, o) ==> Related(DepsNow(s), NodeCluster(o)) == {}
  }

  lemma EmptyListTaken(cfg: Config, s: State, name: string, after: Option<Node>) returns (s3: State)
    requires Settled(s) && (after.Some? || name in NodesNow(s)) && Unheeded(cfg, s, name, after)
    ensures var s2 := AfterNodeWrite(s, name, after).(nodesTaken := s.nodesTaken);
            Shaped(s2) && Enabled(cfg, s2, NodeEvent([])) && s3 == Apply(cfg, s2, NodeEvent([]))
    ensures var done := AfterNodeWrite(s, name, after);
            s3 == done || s3 == done.(threads := done.threads[NODE_WORKER := Waiting([])])
  {
    var s2 := AfterNodeWrite(s, name, after).(nodesTaken := s.nodesTaken);
    assert Before(s2, s2.nodesTaken) == LookupNode(NodesNow(s), name) && After(s2, s2.nodesTaken) == after;
    s3 := TakeNodeEvent(cfg, s2, []);
    assert Items([], CachedDeps(s2)) == [];
  }

  /** A node write that no peer deployment is listed for runs its course and changes nothing else. */
  lemma NodeRoundSteps(cfg: Config, s: State, name: string, after: Option<Node>) returns (run: seq<Action>)
    requires Settled(s) && (after.Some? || name in NodesNow(s)) && Unheeded(cfg, s, name, after)
    ensures Leads(cfg, s, run, AfterNodeWrite(s, name, after))
    ensures run == [NodeWrite(name, after), AdvanceNodes] + [NodeEvent([])] ||
            run == [NodeWrite(name, after), AdvanceNodes] + [NodeEvent([])]
                   + [Take(NODE_WORKER)] + [Release(NODE_WORKER)]
  {
    var done := AfterNodeWrite(s, name, after);
    NodeReachesCache(cfg, s, name, after);
    var s3 := EmptyListTaken(cfg, s, name, after);
    AddStep(cfg, s, [NodeWrite(name, after), AdvanceNodes], done.(nodesTaken := s.nodesTaken), NodeEvent([]));
    run := [NodeWrite(name, after), AdvanceNodes] + [NodeEvent([])];
    if s3 != done {
      EmptySection(cfg, s, run, s3, NODE_WORKER);
      run := run + [Take(NODE_WORKER)] + [Release(NODE_WORKER)];
      assert done.threads[NODE_WORKER := Waiting([])][NODE_WORKER := Idle] == done.threads;
    }
  }

  lemma NodeRound(cfg: Config, s: State, name: string, after: Option<Node>) returns (run: seq<Action>)
    requires Settled(s) && (after.Some? || name in NodesNow(s)) && Unheeded(cfg, s, name, after)
    ensures Leads(cfg, s, run, AfterNodeWrite(s, name, after))
    ensures OnlyWrites(run, {NodeWrite(name, after)})
  {
    run := NodeRoundSteps(cfg, s, name, after);
  }

  // ---------- one deployment write, left as it is ----------

  function AfterDeploymentWrite(s: State, x: string, d: Deployment): State
    requires Shaped(s)
  {
    s.(deps := s.deps.Append(x, DepsNow(s)[x := d]), depsCached := s.depsCached + 1, depsTaken := s.depsTaken + 1)
  }

  lemma DeploymentTaken(cfg: Config, s: State, x: string, d: Deployment) returns (s3: State)
    requires Settled(s)
    ensures Leads(cfg, s, [PutDeployment(x, d)] + [AdvanceDeployments] + [DeploymentEvent], s3)
    ensures var done := AfterDeploymentWrite(s, x, d);
            s3 == if WatchedDeployment(cfg.env, d)
                  then done.(threads := done.threads[DEPLOYMENT_WORKER := Waiting([Item(x, d)])])
                  else done
  {
    OneStep(cfg, s, PutDeployment(x, d));
    var s1 := Apply(cfg, s, PutDeployment(x, d));
    AddStep(cfg, s, [PutDeployment(x, d)], s1, AdvanceDeployments);
    var s2 := Apply(cfg, s1, AdvanceDeployments);
    AddStep(cfg, s, [PutDeployment(x, d)] + [AdvanceDeployments], s2, DeploymentEvent);
    s3 := TakeDeploymentEvent(cfg, s2);
    assert s2 == AfterDeploymentWrite(s, x, d).(depsTaken := s.depsTaken);
    assert DeliveredDeployment(cfg, s2, s2.depsTaken) ==
           if WatchedDeployment(cfg.env, d) then Some(Item(x, d)) else None;
  }

  /** The deployment goroutine in its section with this list, the rest as in now. */
  function InSection(now: State, t: Thread): State
    requires Shaped(now)
  {
    now.(token := 0, threads := now.threads[DEPLOYMENT_WORKER := t])
  }

  lemma SectionEntered(cfg: Config, s: State, run: seq<Action>, now: State, item: Item)
    requires cfg.enabled && Leads(cfg, s, run, now) && Shaped(now) && now.token == 1
    requires now.threads[DEPLOYMENT_WORKER] == Waiting([item])
    ensures Leads(cfg, s, run + [Take(DEPLOYMENT_WORKER)], InSection(now, Working([item])))
  {
    AddStep(cfg, s, run, now, Take(DEPLOYMENT_WORKER));
  }

  lemma SectionLeft(cfg: Config, s: State, run: seq<Action>, now: State)
    requires Shaped(now) && now.token == 1 && Leads(cfg, s, run, InSection(now, Working([])))
    ensures Leads(cfg, s, run + [Release(DEPLOYMENT_WORKER)], now.(threads := now.threads[DEPLOYMENT_WORKER := Idle]))
  {
    AddStep(cfg, s, run, InSection(now, Working([])), Release(DEPLOYMENT_WORKER));
  }

  /** The one item is passed over. */
  lemma ItemPassedOver(cfg: Config, s: State, run: seq<Action>, now: State, item: Item)
    requires Shaped(now) && Leads(cfg, s, run, InSection(now, Working([item]))) && Examined(now, [item]).Working?
    ensures Leads(cfg, s, run + [Examine(DEPLOYMENT_WORKER)], InSection(now, Working([])))
  {
    assert [item][1..] == [];
    AddStep(cfg, s, run, InSection(now, Working([item])), Examine(DEPLOYMENT_WORKER));
  }

  /** Its count is lost. */
  lemma CountLost(cfg: Config, s: State, run: seq<Action>, now: State, item: Item)
    requires Shaped(now) && Leads(cfg, s, run, InSection(now, Working([item])))
    ensures Leads(cfg, s, run + [CountFails(DEPLOYMENT_WORKER)], InSection(now, Working([])))
  {
    assert [item][1..] == [];
    AddStep(cfg, s, run, InSection(now, Working([item])), CountFails(DEPLOYMENT_WORKER));
  }

  /** Its patch is. */
  lemma PatchLost(cfg: Config, s: State, run: seq<Action>, now: State, item: Item)
    requires Shaped(now) && Leads(cfg, s, run, InSection(now, Working([item]))) && Examined(now, [item]).Patching?
    ensures Leads(cfg, s, run + [Examine(DEPLOYMENT_WORKER)] + [PatchFails(DEPLOYMENT_WORKER)],
                  InSection(now, Working([])))
  {
    assert [item][1..] == [];
    AddStep(cfg, s, run, InSection(now, Working([item])), Examine(DEPLOYMENT_WORKER));
    var counted := InSection(now, Examined(now, [item]));
    AddStep(cfg, s, run + [Examine(DEPLOYMENT_WORKER)], counted, PatchFails(DEPLOYMENT_WORKER));
  }

  /** What happens to the item: it is passed over, or this call for it is lost. */
  function Handled(lost: Option<Action>): seq<Action> {
    match lost
    case None => [Examine(DEPLOYMENT_WORKER)]
    case Some(a) => if a.CountFails? then [a] else [Examine(DEPLOYMENT_WORKER)] + [a]
  }

  predicate CanLose(now: State, item: Item, lost: Option<Action>)
    requires Shaped(now)
  {
    match lost
    case None => Examined(now, [item]).Working?
    case Some(a) =>
      || a == CountFails(DEPLOYMENT_WORKER)
      || (a == PatchFails(DEPLOYMENT_WORKER) && Examined(now, [item]).Patching?)
  }

  lemma ItemHandled(cfg: Config, s: State, run: seq<Action>, now: State, item: Item, lost: Option<Action>)
    requires Shaped(now) && Leads(cfg, s, run, InSection(now, Working([item]))) && CanLose(now, item, lost)
    ensures Leads(cfg, s, run + Handled(lost), InSection(now, Working([])))
  {
    if lost == None {
      ItemPassedOver(cfg, s, run, now, item);
    } else if lost.value.CountFails? {
      CountLost(cfg, s, run, now, item);
    } else {
      PatchLost(cfg, s, run, now, item);
      assert run + [Examine(DEPLOYMENT_WORKER)] + [lost.value] == run + Handled(lost);
    }
  }

  /** A section with one item that leaves the server alone, losing the call there is to lose, if any. */
  lemma OneItemSection(cfg: Config, s: State, run: seq<Action>, now: State, item: Item, lost: Option<Action>)
    requires cfg.enabled && Leads(cfg, s, run, now) && Shaped(now) && now.token == 1
    requires now.threads[DEPLOYMENT_WORKER] == Waiting([item]) && CanLose(now, item, lost)
    ensures Leads(cfg, s, run + [Take(DEPLOYMENT_WORKER)] + Handled(lost) + [Release(DEPLOYMENT_WORKER)],
                  now.(threads := now.threads[DEPLOYMENT_WORKER := Idle]))
  {
    SectionEntered(cfg, s, run, now, item);
    ItemHandled(cfg, s, run + [Take(DEPLOYMENT_WORKER)], now, item, lost);
    SectionLeft(cfg, s, run + [Take(DEPLOYMENT_WORKER)] + Handled(lost), now);
  }

  // ---------- the counterexamples ----------

  const READY := INIT.(started := true)

  lemma StartUp(cfg: Config)
    ensures Leads(cfg, INIT, [StarterLists([])] + [Take(STARTER)] + [Release(STARTER)], READY)
  {
    OneStep(cfg, INIT, StarterLists([]));
    assert Items([], CachedDeps(INIT)) == [];
    EmptySection(cfg, INIT, [StarterLists([])], Apply(cfg, INIT, StarterLists([])), STARTER);
    assert READY.threads[STARTER := Waiting([])][STARTER := Idle] == READY.threads;
  }

  /** After start-up, with one node known and dealt with, or none. */
  lemma OneNodeKnown(cfg: Config, name: string, before: Option<Node>) returns (run: seq<Action>, s: State)
    ensures Leads(cfg, INIT, run, s) && Settled(s) && s.started
    ensures NodesNow(s) == Replace(map[], name, before) && DepsNow(s) == map[]
    ensures OnlyWrites(run, SetUp(name, before))
  {
    StartUp(cfg);
    run, s := [StarterLists([])] + [Take(STARTER)] + [Release(STARTER)], READY;
    if before.Some? {
      var round := NodeRound(cfg, READY, name, before);
      RunsCompose(cfg, INIT, run, round);
      run, s := run + round, AfterNodeWrite(READY, name, before);
    }
  }

  lemma WritesCompose(first: seq<Action>, second: seq<Action>, a: set<Action>, b: set<Action>)
    requires OnlyWrites(first, a) && OnlyWrites(second, b)
    ensures OnlyWrites(first + second, a + b)
  {
  }

  lemma LossComposes(first: seq<Action>, second: seq<Action>, a: set<Action>, b: set<Action>, lost: Action)
    requires OnlyWrites(first, a) && OnlyLoses(second, b, lost)
    ensures OnlyLoses(first + second, a + b, lost)
  {
    var run := first + second;
    var l :| 0 <= l < |second| && second[l] == lost && forall i :: 0 <= i < |second| && IsFault(second[i]) ==> i == l;
    assert run[|first| + l] == lost;
    assert forall i :: 0 <= i < |second| ==> run[|first| + i] == second[i];
  }

  /** A deployment that arrives right, or that the controller does not look at, stays as it is. */
  lemma DeploymentRound(cfg: Config, s: State, x: string, d: Deployment) returns (run: seq<Action>)
    requires Settled(s)
    requires !cfg.enabled || !WatchedDeployment(cfg.env, d) || !Controlled(d) ||
             d.replicas == ReadyCount(NodesNow(s), ClusterOf(d))
    ensures Leads(cfg, s, run, AfterDeploymentWrite(s, x, d)) && OnlyWrites(run, {PutDeployment(x, d)})
  {
    var done := AfterDeploymentWrite(s, x, d);
    var w := DEPLOYMENT_WORKER;
    var now := DeploymentTaken(cfg, s, x, d);
    run := [PutDeployment(x, d)] + [AdvanceDeployments] + [DeploymentEvent];
    if WatchedDeployment(cfg.env, d) {
      assert done.threads[w := Waiting([Item(x, d)])][w := Idle] == done.threads;
      if cfg.enabled {
        OneItemSection(cfg, s, run, now, Item(x, d), None);
        run := run + [Take(w)] + Handled(None) + [Release(w)];
      } else {
        EmptySection(cfg, s, run, now, w);
        run := run + [Take(w)] + [Release(w)];
      }
    }
  }

  lemma OneCallLost(before: seq<Action>, write: Action, lost: Action)
    requires OnlyWrites(before, {write})
    requires lost == CountFails(DEPLOYMENT_WORKER) || lost == PatchFails(DEPLOYMENT_WORKER)
    ensures OnlyLoses(before + Handled(Some(lost)) + [Release(DEPLOYMENT_WORKER)], {write}, lost)
  {
    var run := before + Handled(Some(lost)) + [Release(DEPLOYMENT_WORKER)];
    assert run[|run| - 2] == lost;
  }

  /** So does one that arrives wrong and whose count or patch is lost. */
  lemma LostDeploymentRound(cfg: Config, s: State, x: string, d: Deployment, lost: Action) returns (run: seq<Action>)
    requires Settled(s) && cfg.enabled && WatchedDeployment(cfg.env, d) && Controlled(d)
    requires d.replicas != ReadyCount(NodesNow(s), ClusterOf(d))
    requires lost == CountFails(DEPLOYMENT_WORKER) || lost == PatchFails(DEPLOYMENT_WORKER)
    ensures Leads(cfg, s, run, AfterDeploymentWrite(s, x, d)) && OnlyLoses(run, {PutDeployment(x, d)}, lost)
  {
    var done := AfterDeploymentWrite(s, x, d);
    var w := DEPLOYMENT_WORKER;
    var now := DeploymentTaken(cfg, s, x, d);
    run := [PutDeployment(x, d)] + [AdvanceDeployments] + [DeploymentEvent];
    assert done.threads[w := Waiting([Item(x, d)])][w := Idle] == done.threads;
    OneItemSection(cfg, s, run, now, Item(x, d), Some(lost));
    OneCallLost(run + [Take(w)], PutDeployment(x, d), lost);
    run := run + [Take(w)] + Handled(Some(lost)) + [Release(w)];
  }

  /** The cluster whose count the write changes behind the controller's back. */
  function LostCluster(before: Option<Node>, after: Option<Node>): string {
    if CountedIn(before) != "" then CountedIn(before) else CountedIn(after)
  }

  lemma CountOfOne(name: string, n: Option<Node>, nodes: NodeTable, cluster: string)
    requires cluster != "" && nodes == Replace(map[], name, n)
    ensures ReadyCount(nodes, cluster) == if CountedIn(n) == cluster then 1 else 0
  {
    CountAfterWrite(map[], name, n, cluster);
    assert ReadyNames(map[], cluster) == {};
  }

  /** One node known, and a deployment whose replicas agree with it. */
  lemma AgreeingDeployment(cfg: Config, name: string, before: Option<Node>, x: string, d: Deployment)
    returns (run: seq<Action>, s: State)
    requires Controlled(d) && d.replicas == (if CountedIn(before) == ClusterOf(d) then 1 else 0)
    ensures Leads(cfg, INIT, run, s) && Settled(s) && s.started
    ensures NodesNow(s) == Replace(map[], name, before) && DepsNow(s) == map[x := d]
    ensures OnlyWrites(run, SetUp(name, before) + {PutDeployment(x, d)})
  {
    var first, s1 := OneNodeKnown(cfg, name, before);
    CountOfOne(name, before, NodesNow(s1), ClusterOf(d));
    var second := DeploymentRound(cfg, s1, x, d);
    RunsCompose(cfg, INIT, first, second);
    WritesCompose(first, second, SetUp(name, before), {PutDeployment(x, d)});
    run, s := first + second, AfterDeploymentWrite(s1, x, d);
  }

  lemma WrongAfterwards(cfg: Config, s: State, name: string, before: Option<Node>, after: Option<Node>,
                        x: string, d: Deployment)
    requires Settled(s) && s.started
    requires NodesNow(s) == Replace(map[], name, before) && DepsNow(s) == map[x := d]
    requires WatchedDeployment(cfg.env, d) && Controlled(d) && ClusterOf(d) == LostCluster(before, after)
    requires CountedIn(before) != CountedIn(after)
    requires d.replicas == (if CountedIn(before) == ClusterOf(d) then 1 else 0)
    ensures var s' := AfterNodeWrite(s, name, after); Shaped(s') && Quiescent(s') && !Converged(cfg, s')
  {
    var s' := AfterNodeWrite(s, name, after);
    assert NodesNow(s') == Replace(map[], name, after);
    CountOfOne(name, after, NodesNow(s'), ClusterOf(d));
    assert x in DepsNow(s') && DepsNow(s')[x] == d;
    AgreesMeans(cfg, s', x);
  }

  /**
   Every uncovered node write can break convergence: with the deployment already right, that write
   alone, every call succeeding and everything settled, leaves its replicas wrong.
   */
  lemma UncoveredWriteBreaksConvergence(cfg: Config, name: string, before: Option<Node>, after: Option<Node>,
                                        x: string, d: Deployment)
    returns (run: seq<Action>)
    requires (before.Some? || after.Some?) && !Covered(cfg.env, before, after)
    requires WatchedDeployment(cfg.env, d) && Controlled(d) && ClusterOf(d) == LostCluster(before, after)
    requires d.replicas == if CountedIn(before) == ClusterOf(d) then 1 else 0
    ensures ValidRun(cfg, INIT, run)
    ensures OnlyWrites(run, SetUp(name, before) + {PutDeployment(x, d), NodeWrite(name, after)})
    ensures var s := Exec(cfg, INIT, run); Shaped(s) && Quiescent(s) && !Converged(cfg, s)
  {
    var first, s := AgreeingDeployment(cfg, name, before, x, d);
    run := FinalWrite(cfg, INIT, first, s, name, before, after, x, d);
    WrongAfterwards(cfg, s, name, before, after, x, d);
  }

  lemma FinalWrite(cfg: Config, start: State, first: seq<Action>, s: State, name: string, before: Option<Node>,
                   after: Option<Node>, x: string, d: Deployment)
    returns (run: seq<Action>)
    requires Leads(cfg, start, first, s) && Settled(s)
    requires NodesNow(s) == Replace(map[], name, before) && DepsNow(s) == map[x := d]
    requires (before.Some? || after.Some?) && !Covered(cfg.env, before, after)
    requires Controlled(d) && ClusterOf(d) == LostCluster(before, after)
    requires OnlyWrites(first, SetUp(name, before) + {PutDeployment(x, d)})
    ensures Leads(cfg, start, run, AfterNodeWrite(s, name, after))
    ensures OnlyWrites(run, SetUp(name, before) + {PutDeployment(x, d), NodeWrite(name, after)})
  {
    assert LookupNode(NodesNow(s), name) == before;
    var second := NodeRound(cfg, s, name, after);
    RunsCompose(cfg, start, first, second);
    WritesCompose(first, second, SetUp(name, before) + {PutDeployment(x, d)}, {NodeWrite(name, after)});
    run := first + second;
    assert SetUp(name, before) + {PutDeployment(x, d)} + {NodeWrite(name, after)} ==
           SetUp(name, before) + {PutDeployment(x, d), NodeWrite(name, after)};
  }

  /** After start-up, a deployment that asks for replicas is written where there is no node. */
  lemma WrongWithoutNodes(cfg: Config, x: string, d: Deployment) returns (run: seq<Action>, s: State)
    requires Controlled(d) && d.replicas != 0
    ensures Leads(cfg, INIT, run, s) && Settled(s) && s.started && OnlyWrites(run, {})
    ensures ReadyCount(NodesNow(s), ClusterOf(d)) == 0
    ensures var s' := AfterDeploymentWrite(s, x, d);
            && Shaped(s') && Quiescent(s') && x in DepsNow(s') && DepsNow(s')[x] == d
            && d.replicas != ReadyCount(NodesNow(s'), ClusterOf(d))
  {
    run, s := OneNodeKnown(cfg, "", None);
    CountOfOne("", None, NodesNow(s), ClusterOf(d));
    assert DepsNow(AfterDeploymentWrite(s, x, d))[x] == d;
  }

  // ---------- lost calls ----------

  /**
   With no node anywhere, a watched and controlled deployment that asks for replicas keeps them when
   its one count, or its one patch, is lost and nothing else goes wrong.
   */
  lemma {:induction false} LostCallBreaksConvergence(cfg: Config, x: string, d: Deployment, lost: Action)
    returns (run: seq<Action>)
    requires cfg.enabled && WatchedDeployment(cfg.env, d) && Controlled(d) && d.replicas != 0
    requires lost == CountFails(DEPLOYMENT_WORKER) || lost == PatchFails(DEPLOYMENT_WORKER)
    ensures ValidRun(cfg, INIT, run) && OnlyLoses(run, {PutDeployment(x, d)}, lost)
    ensures var s := Exec(cfg, INIT, run); Shaped(s) && Quiescent(s) && !Converged(cfg, s)
  {
    var first, s0 := WrongWithoutNodes(cfg, x, d);
    var second := LostDeploymentRound(cfg, s0, x, d, lost);
    RunsCompose(cfg, INIT, first, second);
    LossComposes(first, second, {}, {PutDeployment(x, d)}, lost);
    assert {} + {PutDeployment(x, d)} == {PutDeployment(x, d)};
    run := first + second;
    AgreesMeans(cfg, AfterDeploymentWrite(s0, x, d), x);
  }

  /** A node write whose listing is lost: its round leaves the deployments as they are. */
  lemma UnlistedRound(cfg: Config, s: State, name: string, node: Node) returns (run: seq<Action>)
    requires Settled(s) && WatchedNode(cfg.env, node)
    ensures Leads(cfg, s, run, AfterNodeWrite(s, name, Some(node)))
    ensures OnlyLoses(run, {PutNode(name, node)}, ListFails)
  {
    var done, w := AfterNodeWrite(s, name, Some(node)), NODE_WORKER;
    var s3 := done.(threads := done.threads[w := Waiting([])]);
    NodeUnlisted(cfg, s, name, node);
    run := [PutNode(name, node), AdvanceNodes] + [ListFails];
    EmptySection(cfg, s, run, s3, w);
    assert done.threads[w := Waiting([])][w := Idle] == done.threads;
    run := run + [Take(w)] + [Release(w)];
    assert run[2] == ListFails;
  }

  lemma NodeUnlisted(cfg: Config, s: State, name: string, node: Node)
    requires Settled(s) && WatchedNode(cfg.env, node)
    ensures var done := AfterNodeWrite(s, name, Some(node));
            Leads(cfg, s, [PutNode(name, node), AdvanceNodes] + [ListFails],
                  done.(threads := done.threads[NODE_WORKER := Waiting([])]))
  {
    var after := Some(node);
    NodeReachesCache(cfg, s, name, after);
    var s2 := AfterNodeWrite(s, name, after).(nodesTaken := s.nodesTaken);
    assert After(s2, s2.nodesTaken) == after;
    AddStep(cfg, s, [PutNode(name, node), AdvanceNodes], s2, ListFails);
    assert Items([], CachedDeps(s2)) == [];
  }

  /**
   A deployment that is right for no nodes stays so when the first ready node of its cluster comes,
   seen by the watch and covered, and the one listing its event asks for is lost.
   */
  lemma LostListBreaksConvergence(cfg: Config, name: string, node: Node, x: string, d: Deployment)
    returns (run: seq<Action>)
    requires WatchedNode(cfg.env, node) && IsReady(node) && NodeCluster(node) == ClusterOf(d)
    requires WatchedDeployment(cfg.env, d) && Controlled(d) && d.replicas == 0
    ensures Covered(cfg.env, None, Some(node)) && ValidRun(cfg, INIT, run)
    ensures OnlyLoses(run, {PutDeployment(x, d), PutNode(name, node)}, ListFails)
    ensures var s := Exec(cfg, INIT, run); Shaped(s) && Quiescent(s) && !Converged(cfg, s)
  {
    var first, s := AgreeingDeployment(cfg, name, None, x, d);
    var second := UnlistedRound(cfg, s, name, node);
    RunsCompose(cfg, INIT, first, second);
    LossComposes(first, second, SetUp(name, None) + {PutDeployment(x, d)}, {PutNode(name, node)}, ListFails);
    assert SetUp(name, None) + {PutDeployment(x, d)} + {PutNode(name, node)} ==
           {PutDeployment(x, d), PutNode(name, node)};
    run := first + second;
    WrongAfterwards(cfg, s, name, None, Some(node), x, d);
  }

  // ---------- control off, or deployment out of sight ----------

  /**
   With no node anywhere, a controlled deployment that asks for replicas keeps them for ever, no call
   lost, when the control is switched off or the watch does not see it.
   */
  lemma {:induction false} NeglectedDeployment(cfg: Config, x: string, d: Deployment) returns (run: seq<Action>)
    requires Controlled(d) && d.replicas != 0 && (!cfg.enabled || !WatchedDeployment(cfg.env, d))
    ensures ValidRun(cfg, INIT, run) && OnlyWrites(run, {PutDeployment(x, d)})
    ensures var s := Exec(cfg, INIT, run);
            && Shaped(s) && Quiescent(s) && x in DepsNow(s) && DepsNow(s)[x] == d
            && d.replicas != ReadyCount(NodesNow(s), ClusterOf(d))
  {
    var first, s0 := WrongWithoutNodes(cfg, x, d);
    var second := DeploymentRound(cfg, s0, x, d);
    RunsCompose(cfg, INIT, first, second);
    WritesCompose(first, second, {}, {PutDeployment(x, d)});
    assert {} + {PutDeployment(x, d)} == {PutDeployment(x, d)};
    run := first + second;
  }
}
