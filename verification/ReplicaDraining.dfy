/**
 Liveness of the peer-replica controller. Once nodes and users stop writing, every further step,
 failed calls included, decreases a lexicographic measure, so the controller's own patches cannot
 feed themselves for ever; until everything has settled some step is always possible; and where it
 settles, every deployment no failed call concerned since its last healing is right.
 */
module ReplicaDraining {
  import opened Options
  import opened Cluster
  import opened ReplicaProtocol
  import opened ReplicaRuns
  import Convergence = ReplicaConvergence
  import Token = ReplicaToken

  datatype Measure = Measure(nodeLag: nat, lists: nat, stale: nat, wrong: nat, work: nat)

  predicate Less(a: Measure, b: Measure) {
    || a.nodeLag < b.nodeLag
    || (a.nodeLag == b.nodeLag &&
        (|| a.lists < b.lists
         || (a.lists == b.lists &&
             (|| a.stale < b.stale
              || (a.stale == b.stale &&
                  (a.wrong < b.wrong || (a.wrong == b.wrong && a.work < b.work)))))))
  }

  // ---------- the five components ----------

  /** The cluster each deployment at the server is steered by, "" if it is not steered. */
  function Targets(deps: DeploymentTable): map<string, string> {
    map x | x in deps :: if Controlled(deps[x]) then ClusterOf(deps[x]) else ""
  }

  /** A patch for this snapshot could set a deployment to the count of a cluster it has left. */
  predicate Stale(targets: map<string, string>, item: Item) {
    Controlled(item.dep) && item.name in targets && targets[item.name] != ClusterOf(item.dep)
  }

  function StaleItems(targets: map<string, string>, todo: seq<Item>): nat {
    if todo == [] then 0
    else (if Stale(targets, todo[0]) then 1 else 0) + StaleItems(targets, todo[1..])
  }

  /** Stale snapshots among the deployment events from k on. */
  function StaleDue(cfg: Config, targets: map<string, string>, deps: Log<Deployment>, k: nat): nat
    requires |deps.versions| == |deps.names| + 1
    decreases |deps.names| - k
  {
    if k >= |deps.names| then 0
    else
      (match DeploymentItem(cfg, deps, k)
       case Some(item) => if Stale(targets, item) then 1 else 0
       case None => 0)
      + StaleDue(cfg, targets, deps, k + 1)
  }

  /** An item about to be patched is stale also when its count is. */
  function StaleThread(targets: map<string, string>, nodes: NodeTable, t: Thread): nat {
    match t
    case Idle => 0
    case Waiting(todo) => StaleItems(targets, todo)
    case Working(todo) => StaleItems(targets, todo)
    case Patching(todo, replicas, _) =>
      if todo == [] then 0
      else
        (if Stale(targets, todo[0]) || replicas != ReadyCount(nodes, ClusterOf(todo[0].dep)) then 1 else 0)
        + StaleItems(targets, todo[1..])
  }

  function StaleThreads(targets: map<string, string>, nodes: NodeTable, threads: seq<Thread>): nat
    requires |threads| == 3
  {
    StaleThread(targets, nodes, threads[0]) + StaleThread(targets, nodes, threads[1])
    + StaleThread(targets, nodes, threads[2])
  }

  /** Steered deployments whose replicas differ from what the node cache says. */
  function WrongNames(deps: DeploymentTable, nodes: NodeTable): set<string> {
    set x | x in deps && Controlled(deps[x]) && deps[x].replicas != ReadyCount(nodes, ClusterOf(deps[x]))
  }

  function ThreadWork(t: Thread): nat {
    match t
    case Idle => 0
    case Waiting(todo) => 2 * |todo| + 2
    case Working(todo) => 2 * |todo| + 1
    case Patching(todo, _, _) => 2 * |todo|
  }

  function Work(s: State): nat
    requires Shaped(s)
  {
    (|s.deps.names| - s.depsCached) + 5 * (|s.deps.names| - s.depsTaken)
    + ThreadWork(s.threads[0]) + ThreadWork(s.threads[1]) + ThreadWork(s.threads[2])
  }

  function StaleAll(cfg: Config, s: State): nat
    requires Shaped(s)
  {
    StaleDue(cfg, Targets(DepsNow(s)), s.deps, s.depsTaken)
    + StaleThreads(Targets(DepsNow(s)), CachedNodes(s), s.threads)
  }

  function Remaining(cfg: Config, s: State): Measure
    requires Shaped(s)
  {
    Measure(|s.nodes.names| - s.nodesCached,
            |s.nodes.names| - s.nodesTaken + (if s.started then 0 else 1),
            StaleAll(cfg, s),
            |WrongNames(DepsNow(s), CachedNodes(s))|,
            Work(s))
  }

  // ---------- every quiet step decreases the measure ----------

  /** A goroutine step that leaves logs, caches and events alone and does not add stale work. */
  lemma ThreadStepDecreases(cfg: Config, s: State, s': State, w: Worker, t: Thread)
    requires Shaped(s) && Shaped(s')
    requires s'.nodes == s.nodes && s'.deps == s.deps && s'.nodesCached == s.nodesCached
    requires s'.depsCached == s.depsCached && s'.nodesTaken == s.nodesTaken && s'.depsTaken == s.depsTaken
    requires s'.started == s.started && s'.threads == s.threads[w := t]
    requires ThreadWork(t) < ThreadWork(s.threads[w])
    requires var targets := Targets(DepsNow(s));
             StaleThread(targets, CachedNodes(s), t) <= StaleThread(targets, CachedNodes(s), s.threads[w])
    ensures Less(Remaining(cfg, s'), Remaining(cfg, s))
  {
  }

  lemma {:induction false} SectionDecreases(cfg: Config, s: State, a: Action)
    requires Shaped(s) && Enabled(cfg, s, a)
    requires a.Take? || a.Examine? || a.Release? || a.CountFails? || a.PatchFails?
    ensures Less(Remaining(cfg, Apply(cfg, s, a)), Remaining(cfg, s))
  {
    var s' := Apply(cfg, s, a);
    ThreadStepDecreases(cfg, s, s', a.w, s'.threads[a.w]);
  }

  /** Cache advances, listings and node events. */
  lemma EarlierComponentDecreases(cfg: Config, s: State, a: Action)
    requires Shaped(s) && Enabled(cfg, s, a)
    requires a.AdvanceNodes? || a.NodeEvent? || a.ListFails? || a.StarterLists? || a.StarterFails?
             || a.AdvanceDeployments?
    ensures Less(Remaining(cfg, Apply(cfg, s, a)), Remaining(cfg, s))
  {
  }

  lemma DeploymentEventDecreases(cfg: Config, s: State)
    requires Shaped(s) && Enabled(cfg, s, DeploymentEvent)
    ensures Less(Remaining(cfg, TakeDeploymentEvent(cfg, s)), Remaining(cfg, s))
  {
    var s' := TakeDeploymentEvent(cfg, s);
    var targets, k := Targets(DepsNow(s)), s.depsTaken;
    match DeploymentItem(cfg, s.deps, k)
    case None =>
    case Some(item) =>
      assert StaleItems(targets, [item]) == if Stale(targets, item) then 1 else 0 by {
        assert [item][1..] == [];
      }
      assert ThreadWork(s'.threads[DEPLOYMENT_WORKER]) == 4;
      assert ThreadWork(s.threads[DEPLOYMENT_WORKER]) == 0;
  }

  /** A write of the controller's own adds one event, carrying the object as it now is. */
  lemma {:induction false} OwnEventIsFresh(cfg: Config, deps: Log<Deployment>, name: string, table: DeploymentTable,
                                           k: nat)
    requires |deps.versions| == |deps.names| + 1 && k <= |deps.names|
    ensures StaleDue(cfg, Targets(table), deps.Append(name, table), k) == StaleDue(cfg, Targets(table), deps, k)
    decreases |deps.names| - k
  {
    var deps' := deps.Append(name, table);
    if k < |deps.names| {
      OwnEventIsFresh(cfg, deps, name, table, k + 1);
      assert DeploymentItem(cfg, deps', k) == DeploymentItem(cfg, deps, k);
    } else {
      assert StaleDue(cfg, Targets(table), deps', k + 1) == 0;
    }
  }

  /** Setting the count of the right cluster makes one more deployment right. */
  lemma OneFewerWrong(deps: DeploymentTable, nodes: NodeTable, x: string)
    requires x in deps && Controlled(deps[x])
    requires deps[x].replicas != ReadyCount(nodes, ClusterOf(deps[x]))
    ensures var right := deps[x := WithReplicas(deps[x], ReadyCount(nodes, ClusterOf(deps[x])))];
            |WrongNames(right, nodes)| == |WrongNames(deps, nodes)| - 1
  {
    var right := deps[x := WithReplicas(deps[x], ReadyCount(nodes, ClusterOf(deps[x])))];
    assert WrongNames(right, nodes) == WrongNames(deps, nodes) - {x};
  }

  /** Sending takes one item off a list and adds no stale work. */
  lemma SendStaleBalance(cfg: Config, s: State, w: Worker)
    requires Shaped(s) && s.threads[w].Patching? && Armed(s.threads[w])
    requires Shaped(Send(s, w)) && Send(s, w).deps != s.deps
    ensures var targets, t := Targets(DepsNow(s)), s.threads[w];
            StaleAll(cfg, Send(s, w)) + StaleThread(targets, CachedNodes(s), t) ==
            StaleAll(cfg, s) + StaleItems(targets, t.todo[1..])
  {
    var t := s.threads[w];
    var x, deps := t.todo[0].name, DepsNow(s);
    var table := deps[x := WithReplicas(deps[x], t.replicas)];
    assert Targets(table) == Targets(deps);
    OwnEventIsFresh(cfg, s.deps, x, table, s.depsTaken);
    ThreadReplaced(Targets(deps), CachedNodes(s), s.threads, w, Working(t.todo[1..]));
  }

  /** A patch that changes the object: stale work is used up, or one more deployment is right. */
  lemma ChangingSendDecreases(cfg: Config, s: State, w: Worker)
    requires Shaped(s) && s.threads[w].Patching? && Armed(s.threads[w])
    requires Shaped(Send(s, w)) && Send(s, w).deps != s.deps
    ensures StaleAll(cfg, Send(s, w)) <= StaleAll(cfg, s)
    ensures StaleAll(cfg, Send(s, w)) < StaleAll(cfg, s) ||
            |WrongNames(DepsNow(Send(s, w)), CachedNodes(s))| < |WrongNames(DepsNow(s), CachedNodes(s))|
  {
    var t := s.threads[w];
    SendStaleBalance(cfg, s, w);
    if StaleThread(Targets(DepsNow(s)), CachedNodes(s), t) == StaleItems(Targets(DepsNow(s)), t.todo[1..]) {
      OneFewerWrong(DepsNow(s), CachedNodes(s), t.todo[0].name);
    }
  }

  lemma ThreadReplaced(targets: map<string, string>, nodes: NodeTable, threads: seq<Thread>, w: Worker, t: Thread)
    requires |threads| == 3
    ensures StaleThreads(targets, nodes, threads[w := t]) + StaleThread(targets, nodes, threads[w]) ==
            StaleThreads(targets, nodes, threads) + StaleThread(targets, nodes, t)
  {
  }

  lemma SendDecreases(cfg: Config, s: State, w: Worker)
    requires Shaped(s) && s.threads[w].Patching? && Armed(s.threads[w])
    requires Shaped(Send(s, w))
    ensures Less(Remaining(cfg, Send(s, w)), Remaining(cfg, s))
  {
    var s' := Send(s, w);
    if s'.deps == s.deps {
      ThreadStepDecreases(cfg, s, s', w, s'.threads[w]);
    } else {
      ChangingSendDecreases(cfg, s, w);
    }
  }

  /** Draining: each step that is not a write by others decreases the measure. */
  lemma {:induction false} QuietStepDecreases(cfg: Config, s: State, a: Action)
    requires Token.Inv(s) && Enabled(cfg, s, a) && !IsWrite(a)
    ensures Shaped(Apply(cfg, s, a)) && Less(Remaining(cfg, Apply(cfg, s, a)), Remaining(cfg, s))
  {
    Token.InvStep(cfg, s, a);
    if a.SendPatch? {
      assert Token.CountIsNewest(s, s.threads[a.w]);
      SendDecreases(cfg, s, a.w);
    } else if a.DeploymentEvent? {
      DeploymentEventDecreases(cfg, s);
    } else if a.Take? || a.Examine? || a.Release? || a.CountFails? || a.PatchFails? {
      SectionDecreases(cfg, s, a);
    } else {
      EarlierComponentDecreases(cfg, s, a);
    }
  }

  // ---------- until everything has settled some step is possible ----------

  /** Any table can be listed. */
  lemma {:induction false} SomeListing(table: DeploymentTable, matches: set<string>) returns (order: seq<string>)
    requires matches <= table.Keys
    ensures IsListing(order, table, matches)
  {
    if matches == {} {
      order := [];
    } else {
      var x :| x in matches;
      var rest := SomeListing(table, matches - {x});
      order := rest + [x];
      assert forall name :: name in matches ==> name in order;
    }
  }

  /** A goroutine that is not idle can step, or waits for one that can. */
  lemma SomeoneCanStep(cfg: Config, s: State, w: Worker) returns (a: Action)
    requires Token.Inv(s) && !s.threads[w].Idle?
    ensures Enabled(cfg, s, a) && !IsWrite(a) && !IsFault(a)
  {
    var v: Worker := w;
    if s.threads[w].Waiting? && s.token == 0 {
      v := if Token.Inside(s.threads[0]) then 0 else if Token.Inside(s.threads[1]) then 1 else 2;
    }
    assert Token.CountIsNewest(s, s.threads[v]);
    a := if s.threads[v].Waiting? then Take(v)
         else if s.threads[v].Patching? then SendPatch(v)
         else if s.threads[v].Working? && s.threads[v].todo != [] then Examine(v)
         else Release(v);
  }

  lemma NeverStuck(cfg: Config, s: State) returns (a: Action)
    requires Token.Inv(s) && !Quiescent(s)
    ensures Enabled(cfg, s, a) && !IsWrite(a) && !IsFault(a)
  {
    if w: Worker :| !s.threads[w].Idle? {
      a := SomeoneCanStep(cfg, s, w);
    } else if s.nodesCached < |s.nodes.names| {
      a := AdvanceNodes;
    } else if s.depsCached < |s.deps.names| {
      a := AdvanceDeployments;
    } else if s.depsTaken < s.depsCached {
      a := DeploymentEvent;
    } else if s.nodesTaken < s.nodesCached {
      var order := [];
      if Delivered(cfg, s, s.nodesTaken).Some? {
        order := SomeListing(CachedDeps(s), Related(CachedDeps(s), NodeCluster(Delivered(cfg, s, s.nodesTaken).value)));
      }
      a := NodeEvent(order);
    } else {
      var order := SomeListing(CachedDeps(s), WatchedNames(cfg.env, CachedDeps(s)));
      a := StarterLists(order);
    }
  }

  // ---------- eventual agreement ----------

  /** After the last write by others: some possible step, failed calls included, until all has settled. */
  ghost predicate QuietStep(cfg: Config, s: State, a: Action, s': State) {
    Shaped(s) &&
    if Quiescent(s) then s' == s else Enabled(cfg, s, a) && !IsWrite(a) && s' == Apply(cfg, s, a)
  }

  ghost predicate QuietSchedule(cfg: Config, at: nat -> State, step: nat -> Action) {
    forall i: nat :: QuietStep(cfg, at(i), step(i), at(i + 1))
  }

  /** Every quiet schedule settles, whichever calls fail on the way. */
  lemma {:induction false} Settles(cfg: Config, at: nat -> State, step: nat -> Action, i: nat, m: Measure)
    returns (n: nat)
    requires QuietSchedule(cfg, at, step) && Token.Inv(at(i)) && m == Remaining(cfg, at(i))
    ensures Shaped(at(n)) && Quiescent(at(n))
    decreases m.nodeLag, m.lists, m.stale, m.wrong, m.work
  {
    assert QuietStep(cfg, at(i), step(i), at(i + 1));
    if Quiescent(at(i)) {
      n := i;
    } else {
      QuietStepDecreases(cfg, at(i), step(i));
      Token.InvStep(cfg, at(i), step(i));
      n := Settles(cfg, at, step, i + 1, Remaining(cfg, at(i + 1)));
    }
  }

  /** No failed call of the schedule concerns x. */
  ghost predicate Spares(cfg: Config, at: nat -> State, step: nat -> Action, x: string) {
    forall i: nat :: Shaped(at(i)) ==> !Touches(cfg, at(i), step(i), x)
  }

  lemma {:induction false} StaysTracked(cfg: Config, at: nat -> State, step: nat -> Action, x: string, n: nat)
    requires cfg.enabled && QuietSchedule(cfg, at, step) && Spares(cfg, at, step, x)
    requires Convergence.Tracked(cfg, at(0), x)
    ensures Convergence.Tracked(cfg, at(n), x)
  {
    if n > 0 {
      StaysTracked(cfg, at, step, x, n - 1);
      assert QuietStep(cfg, at(n - 1), step(n - 1), at(n - 1 + 1));
      if !Quiescent(at(n - 1)) {
        Convergence.TrackedStep(cfg, at(n - 1), step(n - 1), x);
      }
    }
  }

  /** Whatever failed before and keeps failing: once others stop writing, everything settles. */
  lemma AlwaysSettles(cfg: Config, run: seq<Action>, at: nat -> State, step: nat -> Action) returns (n: nat)
    requires Leads(cfg, INIT, run, at(0)) && QuietSchedule(cfg, at, step)
    ensures Shaped(at(n)) && Quiescent(at(n))
  {
    Token.InvReached(cfg, run);
    n := Settles(cfg, at, step, 0, Remaining(cfg, at(0)));
  }

  lemma TrackedAgreesAt(cfg: Config, at: nat -> State, step: nat -> Action, x: string, n: nat)
    requires cfg.enabled && QuietSchedule(cfg, at, step) && Spares(cfg, at, step, x)
    requires Convergence.Tracked(cfg, at(0), x) && Shaped(at(n)) && Quiescent(at(n))
    ensures Agrees(cfg, at(n), x)
  {
    StaysTracked(cfg, at, step, x, n);
    Convergence.SettledAgrees(cfg, at(n), x);
  }

  /**
   Eventual agreement: after any faithful run, whatever the scheduler does once the writes stop, the
   controller settles after finitely many steps, and then every deployment whose calls did not fail
   in the meantime is right; all of them, if none did.
   */
  lemma EventualAgreement(cfg: Config, run: seq<Action>, at: nat -> State, step: nat -> Action) returns (n: nat)
    requires cfg.enabled && Leads(cfg, INIT, run, at(0)) && Faithful(cfg, INIT, run)
    requires QuietSchedule(cfg, at, step)
    ensures Shaped(at(n)) && Quiescent(at(n))
    ensures forall x :: Spares(cfg, at, step, x) ==> Agrees(cfg, at(n), x)
    ensures (forall i: nat :: !IsFault(step(i))) ==> Converged(cfg, at(n))
  {
    n := AlwaysSettles(cfg, run, at, step);
    forall x | Spares(cfg, at, step, x)
      ensures Agrees(cfg, at(n), x)
    {
      Convergence.TrackedInit(cfg, x);
      Convergence.FaithfulToEach(cfg, INIT, run, x);
      Convergence.TrackedRun(cfg, INIT, run, x);
      TrackedAgreesAt(cfg, at, step, x, n);
    }
    if forall i: nat :: !IsFault(step(i)) {
      forall x
        ensures Agrees(cfg, at(n), x)
      {
        assert Spares(cfg, at, step, x);
      }
    }
  }

  /**
   Eventual healing: after any run at all, once the node cache has seen the last uncovered write, one
   write to x or one delivered node event of its cluster is enough for x to be right in the end.
   */
  lemma EventualHealing(cfg: Config, past: seq<Action>, s: State, a: Action, at: nat -> State,
                        step: nat -> Action, x: string) returns (n: nat)
    requires cfg.enabled && Leads(cfg, INIT, past, s) && Convergence.CoveredAhead(cfg, s)
    requires Enabled(cfg, s, a) && CoveredAction(cfg, s, a) && Convergence.Heals(cfg, s, a, x)
    requires at(0) == Apply(cfg, s, a) && QuietSchedule(cfg, at, step) && Spares(cfg, at, step, x)
    ensures Shaped(at(n)) && Quiescent(at(n)) && Agrees(cfg, at(n), x)
  {
    Convergence.HealedAfterAll(cfg, past, s, a, x);
    n := Settles(cfg, at, step, 0, Remaining(cfg, at(0)));
    TrackedAgreesAt(cfg, at, step, x, n);
  }

  /** Such a schedule never runs out of steps: short of settling, one is always possible. */
  lemma AlwaysAStep(cfg: Config, run: seq<Action>) returns (a: Action)
    requires ValidRun(cfg, INIT, run)
    requires Shaped(Exec(cfg, INIT, run)) ==> !Quiescent(Exec(cfg, INIT, run))
    ensures var s := Exec(cfg, INIT, run);
            Shaped(s) && Enabled(cfg, s, a) && !IsWrite(a) && !IsFault(a)
  {
    Token.InvReached(cfg, run);
    a := NeverStuck(cfg, Exec(cfg, INIT, run));
  }
}
