/**
 What the one-slot updateToken buys, over every run, lost calls and disabled control included: one
 goroutine at a time between counting and patching, a deferred send that never blocks, and counts
 that reach the server in the order the node cache moved.
 */
module ReplicaToken {
  import opened Options
  import opened Cluster
  import opened ReplicaProtocol

  predicate Inside(t: Thread) {
    t.Working? || t.Patching?
  }

  function InsideCount(s: State): nat
    requires Shaped(s)
  {
    (if Inside(s.threads[0]) then 1 else 0) +
    (if Inside(s.threads[1]) then 1 else 0) +
    (if Inside(s.threads[2]) then 1 else 0)
  }

  /** A count is what the node cache said at position seen, and seen is not ahead of the cache. */
  ghost predicate TrueCount(s: State, cluster: string, replicas: nat, seen: nat)
    requires Shaped(s)
  {
    seen <= s.nodesCached && replicas == ReadyCount(s.nodes.versions[seen], cluster)
  }

  ghost predicate SentInOrder(s: State)
    requires Shaped(s)
  {
    && (forall i :: 0 <= i < |s.sent| ==> TrueCount(s, s.sent[i].cluster, s.sent[i].replicas, s.sent[i].seen))
    && (forall i, j :: 0 <= i < j < |s.sent| ==> s.sent[i].seen <= s.sent[j].seen)
  }

  ghost predicate CountIsNewest(s: State, t: Thread)
    requires Shaped(s)
  {
    && Armed(t)
    && (t.Patching? ==>
          && TrueCount(s, ClusterOf(t.todo[0].dep), t.replicas, t.seen)
          && forall i :: 0 <= i < |s.sent| ==> s.sent[i].seen <= t.seen)
  }

  ghost predicate Inv(s: State) {
    && Shaped(s)
    && s.token + InsideCount(s) == 1
    && SentInOrder(s)
    && forall w: Worker :: CountIsNewest(s, s.threads[w])
  }

  lemma OneInside(s: State, v: Worker, w: Worker)
    requires Shaped(s) && s.token + InsideCount(s) == 1
    requires Inside(s.threads[v]) && Inside(s.threads[w])
    ensures v == w && s.token == 0
  {
  }

  /** Node log, node cache and sent patches may only grow for counts to stay true. */
  lemma CountsStayTrue(s: State, s': State)
    requires Inv(s) && Shaped(s') && s.nodes.versions <= s'.nodes.versions && s.nodesCached <= s'.nodesCached
    requires s'.sent == s.sent
    ensures SentInOrder(s')
    ensures forall t: Thread :: CountIsNewest(s, t) ==> CountIsNewest(s', t)
  {
  }

  lemma SendStep(s: State, w: Worker)
    requires Inv(s) && s.threads[w].Patching? && s.threads[w].todo != []
    ensures Inv(Send(s, w))
  {
    var s' := Send(s, w);
    assert CountIsNewest(s, s.threads[w]);
    forall v: Worker
      ensures CountIsNewest(s', s'.threads[v])
    {
      if v != w && s'.threads[v].Patching? {
        OneInside(s, v, w);
      }
    }
  }

  /** A step of one goroutine that keeps token and section in balance. */
  lemma ThreadMoves(s: State, s': State, w: Worker, t: Thread)
    requires Inv(s) && Shaped(s') && s.nodes.versions <= s'.nodes.versions && s.nodesCached <= s'.nodesCached
    requires s'.sent == s.sent && s'.threads == s.threads[w := t]
    requires s'.token + (if Inside(t) then 1 else 0) == s.token + (if Inside(s.threads[w]) then 1 else 0)
    requires CountIsNewest(s', t)
    ensures Inv(s')
  {
    CountsStayTrue(s, s');
    forall v: Worker
      ensures CountIsNewest(s', s'.threads[v])
    {
      assert CountIsNewest(s, s.threads[v]);
    }
  }

  /** Writes and cache advances leave the goroutines alone. */
  lemma OutsideStep(cfg: Config, s: State, a: Action)
    requires Inv(s) && Enabled(cfg, s, a)
    requires IsWrite(a) || a.AdvanceNodes? || a.AdvanceDeployments? || a.StarterFails?
    ensures Inv(Apply(cfg, s, a))
  {
    CountsStayTrue(s, Apply(cfg, s, a));
  }

  /** Event pick-ups and listings: at most an idle goroutine starts waiting. */
  lemma PickUpStep(cfg: Config, s: State, a: Action)
    requires Inv(s) && Enabled(cfg, s, a)
    requires a.NodeEvent? || a.DeploymentEvent? || a.ListFails? || a.StarterLists?
    ensures Inv(Apply(cfg, s, a))
  {
    var s' := Apply(cfg, s, a);
    var w := if a.DeploymentEvent? then DEPLOYMENT_WORKER else if a.StarterLists? then STARTER else NODE_WORKER;
    assert CountIsNewest(s, s.threads[w]);
    assert s'.threads == s.threads[w := s'.threads[w]];
    ThreadMoves(s, s', w, s'.threads[w]);
  }

  lemma SectionStep(cfg: Config, s: State, a: Action)
    requires Inv(s) && Enabled(cfg, s, a)
    requires a.Take? || a.Examine? || a.Release? || a.CountFails? || a.PatchFails?
    ensures Inv(Apply(cfg, s, a))
  {
    var s' := Apply(cfg, s, a);
    assert CountIsNewest(s, s.threads[a.w]);
    ThreadMoves(s, s', a.w, s'.threads[a.w]);
  }

  lemma InvStep(cfg: Config, s: State, a: Action)
    requires Inv(s) && Enabled(cfg, s, a)
    ensures Inv(Apply(cfg, s, a))
  {
    if a.SendPatch? {
      SendStep(s, a.w);
    } else if a.Take? || a.Examine? || a.Release? || a.CountFails? || a.PatchFails? {
      SectionStep(cfg, s, a);
    } else if a.NodeEvent? || a.DeploymentEvent? || a.ListFails? || a.StarterLists? {
      PickUpStep(cfg, s, a);
    } else {
      OutsideStep(cfg, s, a);
    }
  }

  lemma {:induction false} InvRun(cfg: Config, s: State, run: seq<Action>)
    requires Inv(s) && ValidRun(cfg, s, run)
    ensures Inv(Exec(cfg, s, run))
    decreases |run|
  {
    if run != [] {
      InvStep(cfg, s, run[0]);
      InvRun(cfg, Apply(cfg, s, run[0]), run[1..]);
    }
  }

  lemma InvReached(cfg: Config, run: seq<Action>)
    requires ValidRun(cfg, INIT, run)
    ensures Inv(Exec(cfg, INIT, run))
  {
    InvRun(cfg, INIT, run);
  }

  /** Never two goroutines in the section, and whoever leaves it finds the slot empty. */
  lemma TokenIsConserved(cfg: Config, run: seq<Action>, w: Worker)
    requires ValidRun(cfg, INIT, run)
    ensures var s := Exec(cfg, INIT, run);
            && Shaped(s) && s.token + InsideCount(s) == 1
            && (s.threads[w].Working? && s.threads[w].todo == [] ==> Enabled(cfg, s, Release(w)))
  {
    InvReached(cfg, run);
    var s := Exec(cfg, INIT, run);
    if Inside(s.threads[w]) {
      OneInside(s, w, w);
    }
  }

  /**
   Fresh counts win: every patch ever sent carries the exact count of its cluster at some position
   of the node cache, and those positions never go back.
   */
  lemma FreshCountsWin(cfg: Config, run: seq<Action>, i: nat, j: nat)
    requires ValidRun(cfg, INIT, run)
    requires i <= j < |Exec(cfg, INIT, run).sent|
    ensures var s := Exec(cfg, INIT, run);
            && s.sent[i].seen <= s.sent[j].seen < |s.nodes.versions|
            && s.sent[j].replicas == ReadyCount(s.nodes.versions[s.sent[j].seen], s.sent[j].cluster)
  {
    InvReached(cfg, run);
  }
}
