/**
 Convergence of the peer-replica controller, deployment by deployment. There is no reconcile loop,
 so agreement rests on one invariant: a watched deployment the controller steers is right for the
 cached nodes, or a snapshot equal to its current state is on its way to a count, or a node event
 of its cluster is. A lost call breaks it for the one deployment it concerns, and the next write to
 that deployment, or to a node of its cluster, restores it.
 */
module ReplicaConvergence {
  import opened Options
  import opened Cluster
  import opened ReplicaProtocol
  import opened ReplicaRuns
  import Token = ReplicaToken

  function Todo(t: Thread): seq<Item> {
    if t.Idle? then [] else t.todo
  }

  ghost predicate DeploymentEventDue(cfg: Config, s: State, item: Item)
    requires Shaped(s)
  {
    exists k :: s.depsTaken <= k < |s.deps.names| && DeliveredDeployment(cfg, s, k) == Some(item)
  }

  ghost predicate InHand(s: State, item: Item)
    requires Shaped(s)
  {
    exists w: Worker :: item in Todo(s.threads[w])
  }

  ghost predicate NodeEventDue(cfg: Config, s: State, cluster: string)
    requires Shaped(s)
  {
    exists k :: s.nodesTaken <= k < |s.nodes.names| &&
                Delivered(cfg, s, k).Some? && NodeCluster(Delivered(cfg, s, k).value) == cluster
  }

  predicate RightForCache(s: State, d: Deployment)
    requires Shaped(s)
  {
    d.replicas == ReadyCount(CachedNodes(s), ClusterOf(d))
  }

  ghost predicate Accounted(cfg: Config, s: State, x: string)
    requires Shaped(s) && x in DepsNow(s)
  {
    var d := DepsNow(s)[x];
    || RightForCache(s, d)
    || DeploymentEventDue(cfg, s, Item(x, d))
    || InHand(s, Item(x, d))
    || NodeEventDue(cfg, s, ClusterOf(d))
  }

  /** What every step keeps, failed calls and uncovered writes included. */
  ghost predicate Sound(s: State) {
    Token.Inv(s) && s.nodes.Valid() && s.deps.Valid()
  }

  ghost predicate CoveredEvent(cfg: Config, s: State, k: nat)
    requires Shaped(s) && k < |s.nodes.names|
  {
    (Before(s, k).Some? || After(s, k).Some?) && Covered(cfg.env, Before(s, k), After(s, k))
  }

  /** Every node write the cache has yet to see is covered. */
  ghost predicate CoveredAhead(cfg: Config, s: State) {
    Shaped(s) && forall k :: s.nodesCached <= k < |s.nodes.names| ==> CoveredEvent(cfg, s, k)
  }

  /** The invariant of one deployment. */
  ghost predicate Tracked(cfg: Config, s: State, x: string) {
    Sound(s) && CoveredAhead(cfg, s) && (Steered(cfg, s, x) ==> Accounted(cfg, s, x))
  }

  // ---------- logs ----------

  lemma AgreeElsewhere<T>(a: map<string, T>, b: map<string, T>, name: string, x: string)
    requires a - {name} == b - {name} && x != name
    ensures (x in a <==> x in b) && (x in a ==> a[x] == b[x])
  {
    assert (x in a <==> x in a - {name}) && (x in b <==> x in b - {name});
    assert x in a ==> (a - {name})[x] == a[x] && (b - {name})[x] == b[x];
  }

  /** Where a version differs from now, the last write to that name is still to come. */
  lemma {:induction false} LastWrite<T>(log: Log<T>, p: nat, x: string)
    requires log.Valid() && p < |log.versions|
    requires x in log.Now()
    requires !(x in log.versions[p] && log.versions[p][x] == log.Now()[x])
    ensures exists k :: p <= k < |log.names| && log.names[k] == x &&
                        x in log.versions[k + 1] && log.versions[k + 1][x] == log.Now()[x]
    decreases |log.versions| - p
  {
    var next := log.versions[p + 1];
    if x in next && next[x] == log.Now()[x] {
      assert log.names[p] == x by {
        if log.names[p] != x {
          AgreeElsewhere(log.versions[p], next, log.names[p], x);
        }
      }
    } else {
      LastWrite(log, p + 1, x);
    }
  }

  lemma AppendValid<T>(log: Log<T>, name: string, table: map<string, T>)
    requires log.Valid()
    requires log.Now() - {name} == table - {name}
    ensures log.Append(name, table).Valid()
    ensures log.Append(name, table).Now() == table
  {
  }

  // ---------- one step ----------

  lemma NodeCacheMoves(cfg: Config, s: State, s': State, x: string)
    requires Shaped(s) && s.nodes.Valid() && CoveredAhead(cfg, s) && Steered(cfg, s, x) && Accounted(cfg, s, x)
    requires s.nodesCached < |s.nodes.names| && s' == s.(nodesCached := s.nodesCached + 1)
    ensures Accounted(cfg, s', x)
  {
    var k, d := s.nodesCached, DepsNow(s)[x];
    if RightForCache(s, d) && !RightForCache(s', d) {
      var name := s.nodes.names[k];
      assert CachedNodes(s') == Replace(CachedNodes(s), name, After(s, k)) by {
        assert s.nodes.versions[k] - {name} == s.nodes.versions[k + 1] - {name};
        VersionIsReplace(s.nodes.versions[k], s.nodes.versions[k + 1], name);
      }
      CountAfterWrite(CachedNodes(s), name, After(s, k), ClusterOf(d));
      assert CoveredEvent(cfg, s, k);
      assert Delivered(cfg, s', k).Some? && NodeCluster(Delivered(cfg, s', k).value) == ClusterOf(d);
    } else if NodeEventDue(cfg, s, ClusterOf(d)) {
      NodeEventStaysDue(cfg, s, s', ClusterOf(d));
    } else if DeploymentEventDue(cfg, s, Item(x, d)) {
      DeploymentEventStaysDue(cfg, s, s', Item(x, d));
    }
  }

  lemma VersionIsReplace(old': NodeTable, new': NodeTable, name: string)
    requires old' - {name} == new' - {name}
    ensures new' == Replace(old', name, LookupNode(new', name))
  {
    var r := Replace(old', name, LookupNode(new', name));
    forall y | y != name
      ensures (y in old' <==> y in new') && (y in new' ==> old'[y] == new'[y])
    {
      AgreeElsewhere(old', new', name, y);
    }
    assert r.Keys == new'.Keys;
  }

  ghost predicate LogsGrow(s: State, s': State)
    requires Shaped(s)
  {
    && Shaped(s')
    && s.nodes.versions <= s'.nodes.versions && s.nodes.names <= s'.nodes.names
    && s.deps.versions <= s'.deps.versions && s.deps.names <= s'.deps.names
  }

  lemma NodeEventStaysDue(cfg: Config, s: State, s': State, cluster: string)
    requires Shaped(s) && LogsGrow(s, s')
    requires NodeEventDue(cfg, s, cluster)
    requires s'.nodesTaken == s.nodesTaken ||
             (s'.nodesTaken == s.nodesTaken + 1 && s.nodesTaken < s.nodesCached &&
              !(Delivered(cfg, s, s.nodesTaken).Some? && NodeCluster(Delivered(cfg, s, s.nodesTaken).value) == cluster))
    ensures NodeEventDue(cfg, s', cluster)
  {
    var k :| s.nodesTaken <= k < |s.nodes.names| &&
             Delivered(cfg, s, k).Some? && NodeCluster(Delivered(cfg, s, k).value) == cluster;
    assert Delivered(cfg, s', k) == Delivered(cfg, s, k);
  }

  lemma DeploymentEventStaysDue(cfg: Config, s: State, s': State, item: Item)
    requires Shaped(s) && LogsGrow(s, s')
    requires DeploymentEventDue(cfg, s, item)
    requires s'.depsTaken == s.depsTaken ||
             (s'.depsTaken == s.depsTaken + 1 && s.depsTaken < s.depsCached &&
              DeliveredDeployment(cfg, s, s.depsTaken) != Some(item))
    ensures DeploymentEventDue(cfg, s', item)
  {
    var k :| s.depsTaken <= k < |s.deps.names| && DeliveredDeployment(cfg, s, k) == Some(item);
    assert DeliveredDeployment(cfg, s', k) == Some(item);
  }

  /** The logs grow, the node cache and the events taken stand still, and x is not written. */
  lemma Carried(cfg: Config, s: State, s': State, x: string)
    requires Shaped(s) && x in DepsNow(s) && Accounted(cfg, s, x) && LogsGrow(s, s')
    requires s'.nodesCached == s.nodesCached && s'.nodesTaken == s.nodesTaken && s'.depsTaken == s.depsTaken
    requires x in DepsNow(s') && DepsNow(s')[x] == DepsNow(s)[x]
    requires var item := Item(x, DepsNow(s)[x]);
             InHand(s, item) ==> InHand(s', item) || RightForCache(s', item.dep)
    ensures Accounted(cfg, s', x)
  {
    var d := DepsNow(s)[x];
    if DeploymentEventDue(cfg, s, Item(x, d)) {
      DeploymentEventStaysDue(cfg, s, s', Item(x, d));
    } else if NodeEventDue(cfg, s, ClusterOf(d)) {
      NodeEventStaysDue(cfg, s, s', ClusterOf(d));
    }
  }

  /** A write to x leaves an undelivered event that carries x as it now is. */
  lemma JustWritten(cfg: Config, s: State, s': State, x: string)
    requires Shaped(s) && Shaped(s') && s'.depsTaken == s.depsTaken
    requires exists table :: s'.deps == s.deps.Append(x, table)
    requires Steered(cfg, s', x)
    ensures Accounted(cfg, s', x)
  {
    assert DeliveredDeployment(cfg, s', |s.deps.names|) == Some(Item(x, DepsNow(s')[x]));
  }

  lemma WriteKeepsAccount(cfg: Config, s: State, a: Action, x: string)
    requires Shaped(s) && IsWrite(a) && Shaped(Written(s, a)) && Steered(cfg, Written(s, a), x)
    requires Steered(cfg, s, x) ==> Accounted(cfg, s, x)
    ensures Accounted(cfg, Written(s, a), x)
  {
    var s' := Written(s, a);
    if (a.PutDeployment? || a.DropDeployment?) && a.name == x {
      JustWritten(cfg, s, s', x);
    } else {
      assert forall w: Worker :: s'.threads[w] == s.threads[w];
      Carried(cfg, s, s', x);
    }
  }

  lemma DeploymentEventKeepsAccount(cfg: Config, s: State, x: string)
    requires Shaped(s) && s.depsTaken < s.depsCached && s.threads[DEPLOYMENT_WORKER].Idle?
    requires x in DepsNow(s) && Accounted(cfg, s, x)
    ensures Accounted(cfg, TakeDeploymentEvent(cfg, s), x)
  {
    var s' := TakeDeploymentEvent(cfg, s);
    var item := Item(x, DepsNow(s)[x]);
    if InHand(s, item) {
      var w: Worker :| item in Todo(s.threads[w]);
      assert s'.threads[w] == s.threads[w];
    } else if DeliveredDeployment(cfg, s, s.depsTaken) == Some(item) {
      assert item in Todo(s'.threads[DEPLOYMENT_WORKER]);
    } else if DeploymentEventDue(cfg, s, item) {
      DeploymentEventStaysDue(cfg, s, s', item);
    } else if NodeEventDue(cfg, s, ClusterOf(item.dep)) {
      NodeEventStaysDue(cfg, s, s', ClusterOf(item.dep));
    }
  }

  /**
   The node handler reads the deployment cache without the token. Either the cache already has x
   as it is now, and x is in the list, or x's own event is still ahead of the deployment handler.
   */
  lemma ListedOrStillDue(cfg: Config, s: State, order: seq<string>, x: string)
    requires Shaped(s) && s.deps.Valid() && Enabled(cfg, s, NodeEvent(order)) && Steered(cfg, s, x)
    requires Delivered(cfg, s, s.nodesTaken).Some?
    requires NodeCluster(Delivered(cfg, s, s.nodesTaken).value) == ClusterOf(DepsNow(s)[x])
    ensures Accounted(cfg, TakeNodeEvent(cfg, s, order), x)
  {
    var s' := TakeNodeEvent(cfg, s, order);
    var d, cached := DepsNow(s)[x], CachedDeps(s);
    if x in cached && cached[x] == d {
      assert x in Related(cached, ClusterOf(d));
      var i :| 0 <= i < |order| && order[i] == x;
      assert Items(order, cached)[i] == Item(x, d);
      assert Item(x, d) in Todo(s'.threads[NODE_WORKER]);
    } else {
      LastWrite(s.deps, s.depsCached, x);
      var j :| s.depsCached <= j < |s.deps.names| && s.deps.names[j] == x &&
               x in s.deps.versions[j + 1] && s.deps.versions[j + 1][x] == d;
      assert DeliveredDeployment(cfg, s', j) == Some(Item(x, d));
    }
  }

  /** A failed listing keeps the account of all but the deployments of the node's cluster. */
  lemma NodeEventKeepsAccount(cfg: Config, s: State, a: Action, order: seq<string>, x: string)
    requires Shaped(s) && s.deps.Valid() && Enabled(cfg, s, a) && !Touches(cfg, s, a, x)
    requires a == NodeEvent(order) || (a.ListFails? && order == [])
    requires Steered(cfg, s, x) && Accounted(cfg, s, x)
    ensures Accounted(cfg, TakeNodeEvent(cfg, s, order), x)
  {
    var s' := TakeNodeEvent(cfg, s, order);
    var item := Item(x, DepsNow(s)[x]);
    var first := Delivered(cfg, s, s.nodesTaken);
    if first.Some? && NodeCluster(first.value) == ClusterOf(item.dep) {
      ListedOrStillDue(cfg, s, order, x);
    } else if InHand(s, item) {
      var w: Worker :| item in Todo(s.threads[w]);
      assert s'.threads[w] == s.threads[w];
    } else if DeploymentEventDue(cfg, s, item) {
      DeploymentEventStaysDue(cfg, s, s', item);
    } else if NodeEventDue(cfg, s, ClusterOf(item.dep)) {
      NodeEventStaysDue(cfg, s, s', ClusterOf(item.dep));
    }
  }

  /** Examining an item, or losing its count or patch, keeps x in hand unless x is right or concerned. */
  lemma SectionKeepsAccount(cfg: Config, s: State, a: Action, x: string)
    requires Shaped(s) && Enabled(cfg, s, a) && (a.Examine? || a.CountFails? || a.PatchFails?)
    requires !Touches(cfg, s, a, x) && Steered(cfg, s, x) && Accounted(cfg, s, x)
    ensures Accounted(cfg, Apply(cfg, s, a), x)
  {
    var s' := Apply(cfg, s, a);
    var item := Item(x, DepsNow(s)[x]);
    if InHand(s, item) {
      KeptInHand(s, s', a.w, item);
    }
    Carried(cfg, s, s', x);
  }

  /** Only the first item of one list can go out of hand. */
  lemma KeptInHand(s: State, s': State, w: Worker, item: Item)
    requires Shaped(s) && Shaped(s') && InHand(s, item)
    requires forall v: Worker :: v != w ==> Todo(s'.threads[v]) == Todo(s.threads[v])
    requires var todo := Todo(s.threads[w]);
             Todo(s'.threads[w]) == todo || (todo != [] && Todo(s'.threads[w]) == todo[1..])
    ensures InHand(s', item) || (Todo(s.threads[w]) != [] && Todo(s.threads[w])[0] == item)
  {
  }

  /**
   A patch sent for a snapshot that is still current changes the object, so a new event is due;
   a patch that changes nothing was sent for a snapshot that is no longer current.
   */
  lemma PatchKeepsAccount(cfg: Config, s: State, w: Worker, x: string)
    requires Shaped(s) && s.threads[w].Patching? && Armed(s.threads[w])
    requires Shaped(Send(s, w)) && Steered(cfg, Send(s, w), x)
    requires Steered(cfg, s, x) ==> Accounted(cfg, s, x)
    ensures Accounted(cfg, Send(s, w), x)
  {
    var s' := Send(s, w);
    var todo := s.threads[w].todo;
    if s'.deps != s.deps && todo[0].name == x {
      JustWritten(cfg, s, s', x);
    } else {
      var item := Item(x, DepsNow(s)[x]);
      if InHand(s, item) {
        KeptInHand(s, s', w, item);
      }
      Carried(cfg, s, s', x);
    }
  }

  /** The remaining steps drop nothing from any list and leave logs, node cache and events alone. */
  lemma OtherStepKeepsAccount(cfg: Config, s: State, a: Action, x: string)
    requires Shaped(s) && cfg.enabled && Enabled(cfg, s, a)
    requires a.Take? || a.Release? || a.StarterLists? || a.StarterFails? || a.AdvanceDeployments?
    requires Steered(cfg, s, x) && Accounted(cfg, s, x)
    ensures Accounted(cfg, Apply(cfg, s, a), x)
  {
    var s' := Apply(cfg, s, a);
    var item := Item(x, DepsNow(s)[x]);
    if InHand(s, item) {
      var v: Worker :| item in Todo(s.threads[v]);
      assert item in Todo(s'.threads[v]);
    }
    Carried(cfg, s, s', x);
  }

  // ---------- the invariant ----------

  lemma WriteKeepsLogs(cfg: Config, s: State, a: Action)
    requires Shaped(s) && s.nodes.Valid() && s.deps.Valid() && IsWrite(a) && Enabled(cfg, s, a)
    ensures var s' := Written(s, a); s'.nodes.Valid() && s'.deps.Valid()
  {
    match a {
      case PutNode(name, node) => AppendValid(s.nodes, name, NodesNow(s)[name := node]);
      case DropNode(name) => AppendValid(s.nodes, name, NodesNow(s) - {name});
      case PutDeployment(name, dep) => AppendValid(s.deps, name, DepsNow(s)[name := dep]);
      case DropDeployment(name) => AppendValid(s.deps, name, DepsNow(s) - {name});
    }
  }

  lemma PatchKeepsLog(deps: Log<Deployment>, name: string, replicas: nat)
    requires deps.Valid()
    ensures Patched(deps, name, replicas).Valid()
  {
    if name in deps.Now() {
      AppendValid(deps, name, deps.Now()[name := WithReplicas(deps.Now()[name], replicas)]);
    }
  }

  lemma SoundStep(cfg: Config, s: State, a: Action)
    requires Sound(s) && Enabled(cfg, s, a)
    ensures Sound(Apply(cfg, s, a))
  {
    Token.InvStep(cfg, s, a);
    if IsWrite(a) {
      WriteKeepsLogs(cfg, s, a);
    } else if a.SendPatch? {
      PatchKeepsLog(s.deps, s.threads[a.w].todo[0].name, s.threads[a.w].replicas);
    }
  }

  lemma {:induction false} SoundRun(cfg: Config, s: State, run: seq<Action>)
    requires Sound(s) && ValidRun(cfg, s, run)
    ensures Sound(Exec(cfg, s, run))
    decreases |run|
  {
    if run != [] {
      SoundStep(cfg, s, run[0]);
      SoundRun(cfg, Apply(cfg, s, run[0]), run[1..]);
    }
  }

  lemma CoverageExtends(cfg: Config, s: State, a: Action)
    requires CoveredAhead(cfg, s) && Enabled(cfg, s, a) && CoveredAction(cfg, s, a) && Shaped(Apply(cfg, s, a))
    ensures CoveredAhead(cfg, Apply(cfg, s, a))
  {
    var s' := Apply(cfg, s, a);
    forall k | s'.nodesCached <= k < |s'.nodes.names|
      ensures CoveredEvent(cfg, s', k)
    {
      if k < |s.nodes.names| {
        assert CoveredEvent(cfg, s, k);
        assert Before(s', k) == Before(s, k) && After(s', k) == After(s, k);
      }
    }
  }

  /** The steps of the caches and of the goroutines, patching aside. */
  lemma InsideKeepsAccount(cfg: Config, s: State, a: Action, x: string)
    requires cfg.enabled && Shaped(s) && s.nodes.Valid() && s.deps.Valid() && CoveredAhead(cfg, s)
    requires Enabled(cfg, s, a) && !Touches(cfg, s, a, x) && !IsWrite(a) && !a.SendPatch?
    requires Steered(cfg, s, x) && Accounted(cfg, s, x) && Shaped(Apply(cfg, s, a)) && x in DepsNow(Apply(cfg, s, a))
    ensures Accounted(cfg, Apply(cfg, s, a), x)
  {
    if a.AdvanceNodes? {
      NodeCacheMoves(cfg, s, Apply(cfg, s, a), x);
    } else if a.NodeEvent? || a.ListFails? {
      NodeEventKeepsAccount(cfg, s, a, if a.NodeEvent? then a.order else [], x);
    } else if a.DeploymentEvent? {
      DeploymentEventKeepsAccount(cfg, s, x);
    } else if a.Examine? || a.CountFails? || a.PatchFails? {
      SectionKeepsAccount(cfg, s, a, x);
    } else {
      OtherStepKeepsAccount(cfg, s, a, x);
    }
  }

  lemma AccountStep(cfg: Config, s: State, a: Action, x: string)
    requires cfg.enabled && Tracked(cfg, s, x) && Enabled(cfg, s, a) && !Touches(cfg, s, a, x)
    requires Shaped(Apply(cfg, s, a)) && Steered(cfg, Apply(cfg, s, a), x)
    ensures Accounted(cfg, Apply(cfg, s, a), x)
  {
    if IsWrite(a) {
      WriteKeepsAccount(cfg, s, a, x);
    } else if a.SendPatch? {
      assert Token.CountIsNewest(s, s.threads[a.w]);
      PatchKeepsAccount(cfg, s, a.w, x);
    } else {
      InsideKeepsAccount(cfg, s, a, x);
    }
  }

  lemma TrackedStep(cfg: Config, s: State, a: Action, x: string)
    requires cfg.enabled && Tracked(cfg, s, x) && Enabled(cfg, s, a)
    requires CoveredAction(cfg, s, a) && !Touches(cfg, s, a, x)
    ensures Tracked(cfg, Apply(cfg, s, a), x)
  {
    SoundStep(cfg, s, a);
    CoverageExtends(cfg, s, a);
    if Steered(cfg, Apply(cfg, s, a), x) {
      AccountStep(cfg, s, a, x);
    }
  }

  lemma {:induction false} TrackedRun(cfg: Config, s: State, run: seq<Action>, x: string)
    requires cfg.enabled && Tracked(cfg, s, x) && ValidRun(cfg, s, run) && FaithfulFor(cfg, s, run, x)
    ensures Tracked(cfg, Exec(cfg, s, run), x)
    decreases |run|
  {
    if run != [] {
      TrackedStep(cfg, s, run[0], x);
      TrackedRun(cfg, Apply(cfg, s, run[0]), run[1..], x);
    }
  }

  lemma TrackedInit(cfg: Config, x: string)
    ensures Tracked(cfg, INIT, x)
  {
  }

  lemma SettledAgrees(cfg: Config, s: State, x: string)
    requires Tracked(cfg, s, x) && Quiescent(s)
    ensures Agrees(cfg, s, x)
  {
    AgreesMeans(cfg, s, x);
    if Steered(cfg, s, x) {
      assert Accounted(cfg, s, x);
    }
  }

  // ---------- the theorems ----------

  lemma SettledRunAgrees(cfg: Config, s: State, run: seq<Action>, last: State, x: string)
    requires cfg.enabled && Tracked(cfg, s, x) && Leads(cfg, s, run, last) && FaithfulFor(cfg, s, run, x)
    requires Shaped(last) && Quiescent(last)
    ensures Agrees(cfg, last, x)
  {
    TrackedRun(cfg, s, run, x);
    SettledAgrees(cfg, last, x);
  }

  /**
   Convergence, one deployment: for every interleaving of writes, cache advances, handler micro-steps
   and failing calls that spare x, wherever everything has settled x agrees with the ready nodes.
   */
  lemma ConvergenceOf(cfg: Config, run: seq<Action>, x: string)
    requires cfg.enabled && ValidRun(cfg, INIT, run) && FaithfulFor(cfg, INIT, run, x)
    requires Shaped(Exec(cfg, INIT, run)) && Quiescent(Exec(cfg, INIT, run))
    ensures Agrees(cfg, Exec(cfg, INIT, run), x)
  {
    TrackedInit(cfg, x);
    SettledRunAgrees(cfg, INIT, run, Exec(cfg, INIT, run), x);
  }

  lemma {:induction false} FaithfulToEach(cfg: Config, s: State, run: seq<Action>, x: string)
    requires ValidRun(cfg, s, run) && Faithful(cfg, s, run)
    ensures FaithfulFor(cfg, s, run, x)
    decreases |run|
  {
    if run != [] {
      FaithfulToEach(cfg, Apply(cfg, s, run[0]), run[1..], x);
    }
  }

  /** Convergence of all deployments, when no call is lost. */
  lemma Convergence(cfg: Config, run: seq<Action>)
    requires cfg.enabled && ValidRun(cfg, INIT, run) && Faithful(cfg, INIT, run)
    requires Shaped(Exec(cfg, INIT, run)) && Quiescent(Exec(cfg, INIT, run))
    ensures Converged(cfg, Exec(cfg, INIT, run))
  {
    forall x
      ensures Agrees(cfg, Exec(cfg, INIT, run), x)
    {
      FaithfulToEach(cfg, INIT, run, x);
      ConvergenceOf(cfg, run, x);
    }
  }

  predicate Revisits(cfg: Config, s: State, node: Node, x: string)
    requires Shaped(s)
  {
    WatchedNode(cfg.env, node) && x in DepsNow(s) && NodeCluster(node) == ClusterOf(DepsNow(s)[x])
  }

  /** A write to x, or one whose event hands the handler a node of the cluster x now has. */
  predicate Heals(cfg: Config, s: State, a: Action, x: string)
    requires Shaped(s) && Enabled(cfg, s, a)
  {
    match a
    case PutDeployment(name, _) => name == x
    case DropDeployment(name) => name == x
    case PutNode(_, node) => Revisits(cfg, s, node, x)
    case DropNode(name) => Revisits(cfg, s, NodesNow(s)[name], x)
    case _ => false
  }

  lemma HealingStep(cfg: Config, s: State, a: Action, x: string)
    requires Sound(s) && CoveredAhead(cfg, s) && Enabled(cfg, s, a) && CoveredAction(cfg, s, a) && Heals(cfg, s, a, x)
    ensures Tracked(cfg, Apply(cfg, s, a), x)
  {
    var s' := Apply(cfg, s, a);
    SoundStep(cfg, s, a);
    CoverageExtends(cfg, s, a);
    if Steered(cfg, s', x) {
      if a.PutDeployment? {
        JustWritten(cfg, s, s', x);
      } else if a.PutNode? || a.DropNode? {
        var k := |s.nodes.names|;
        assert Delivered(cfg, s', k).Some? && NodeCluster(Delivered(cfg, s', k).value) == ClusterOf(DepsNow(s')[x]);
      }
    }
  }

  lemma HealedAfterAll(cfg: Config, past: seq<Action>, s: State, a: Action, x: string)
    requires Leads(cfg, INIT, past, s) && CoveredAhead(cfg, s)
    requires Enabled(cfg, s, a) && CoveredAction(cfg, s, a) && Heals(cfg, s, a, x)
    ensures Tracked(cfg, Apply(cfg, s, a), x)
  {
    SoundRun(cfg, INIT, past);
    HealingStep(cfg, s, a, x);
  }

  /**
   Healing: whatever calls failed and whatever nodes were moved before, once the node cache has seen
   the last uncovered write, one write to x or one delivered node event of its cluster makes x right
   again wherever everything has settled, as long as later failures spare x.
   */
  lemma Healing(cfg: Config, past: seq<Action>, s: State, a: Action, run: seq<Action>, last: State, x: string)
    requires cfg.enabled && Leads(cfg, INIT, past, s) && CoveredAhead(cfg, s)
    requires Enabled(cfg, s, a) && CoveredAction(cfg, s, a) && Heals(cfg, s, a, x)
    requires Leads(cfg, Apply(cfg, s, a), run, last) && FaithfulFor(cfg, Apply(cfg, s, a), run, x)
    requires Shaped(last) && Quiescent(last)
    ensures Agrees(cfg, last, x)
  {
    HealedAfterAll(cfg, past, s, a, x);
    SettledRunAgrees(cfg, Apply(cfg, s, a), run, last, x);
  }
}
