/**
 The coalescing query never forgets a request whose flag write lands in time: at rest, a request no
 fetch came after is one whose own flag write landed behind everybody's last look at the flag.
 */
module QueryCoverage {
  import opened QueryProtocol

  /** Call id begins a fetch somewhere after position k. */
  ghost predicate FetchesAfter(s: State, k: nat, id: nat) {
    exists l :: k < l < |s.trace| && s.trace[l] == FetchBegun(id)
  }

  ghost predicate SomeFetchAfter(s: State, k: nat) {
    exists l :: k < l < |s.trace| && s.trace[l].FetchBegun?
  }

  /** Some holder clears the flag after position k. */
  ghost predicate ClearedAfter(s: State, k: nat) {
    exists j :: k < j < |s.trace| && s.trace[j].FlagCleared?
  }

  /** The request at k is still under way, or its call has fetched or has left a mark since. */
  ghost predicate Pursued(s: State, k: nat, id: nat) {
    || At(s, id, Calling) || At(s, id, Refused) || At(s, id, Locked) || At(s, id, Cleared)
    || FetchesAfter(s, k, id)
    || exists l :: k < l < |s.trace| && s.trace[l] == FlagSet(id)
  }

  ghost predicate EventHonoured(s: State, k: nat)
    requires k < |s.trace|
  {
    && s.trace[k].id < |s.calls|
    && match s.trace[k]
       case Requested(id) => Pursued(s, k, id)
       case FlagSet(_) => s.flag || ClearedAfter(s, k)
       case FlagCleared(id) => At(s, id, Cleared) || FetchesAfter(s, k, id)
       case _ => true
  }

  /** Written after the last fetch began, the last clear and the last look at the flag. */
  ghost predicate LateWrite(s: State, k: nat) {
    && k < |s.trace| && s.trace[k].FlagSet?
    && forall l :: k < l < |s.trace| ==> s.trace[l].Requested? || s.trace[l].FlagSet?
  }

  ghost predicate SomeLive(s: State) {
    exists i :: 0 <= i < |s.calls| && Live(s.calls[i])
  }

  /** A live call other than a refused one: the last of these to go looks at the flag before it does. */
  ghost predicate SomeHot(s: State) {
    exists i :: 0 <= i < |s.calls| && s.calls[i].pc != Done && s.calls[i].pc != Refused
  }

  ghost predicate ReadAfter(s: State, k: nat) {
    exists j :: k < j < |s.trace| && s.trace[j].FlagRead?
  }

  /** A flag write that was read and not cleared since keeps some call going. */
  ghost predicate ReadIsActedOn(s: State) {
    forall m :: 0 <= m < |s.trace| && s.trace[m].FlagSet? && ReadAfter(s, m) && !ClearedAfter(s, m) ==> SomeHot(s)
  }

  ghost predicate Locking(s: State) {
    && (forall i, j :: 0 <= i < |s.calls| && 0 <= j < |s.calls| && Holding(s.calls[i]) && Holding(s.calls[j]) ==>
          i == j)
    && (s.lock <==> exists i :: 0 <= i < |s.calls| && Holding(s.calls[i]))
  }

  ghost predicate Inv(cfg: Config, s: State) {
    && Locking(s)
    && (forall k :: 0 <= k < |s.trace| ==> EventHonoured(s, k))
    && ReadIsActedOn(s)
    && (s.flag ==> SomeLive(s) || exists k :: LateWrite(s, k))
    && (s.flag && cfg.atomicRefusal ==> SomeLive(s))
    && (cfg.atomicRefusal ==> forall i :: 0 <= i < |s.calls| ==> s.calls[i].pc != Refused)
  }

  // ---------- one step ----------

  /** Taking and giving back the lock. */
  lemma LockMoves(cfg: Config, s: State, a: Action)
    requires Locking(s) && Enabled(s, a) && (a.TryLock? || a.Unlock?)
    ensures Locking(Apply(cfg, s, a))
  {
    var s' := Apply(cfg, s, a);
    if a.TryLock? && !s.lock {
      assert Holding(s'.calls[a.i]);
    } else if a.TryLock? {
      var h :| 0 <= h < |s.calls| && Holding(s.calls[h]);
      assert Holding(s'.calls[h]);
    } else {
      assert Holding(s.calls[a.i]);
    }
  }

  /** Every other step leaves holders holders and the rest without the lock. */
  lemma LockStays(s: State, s': State)
    requires Locking(s) && s'.lock == s.lock && |s.calls| <= |s'.calls|
    requires forall i :: 0 <= i < |s.calls| ==> Holding(s.calls[i]) == Holding(s'.calls[i])
    requires forall i :: |s.calls| <= i < |s'.calls| ==> !Holding(s'.calls[i])
    ensures Locking(s')
  {
  }

  lemma LockingStep(cfg: Config, s: State, a: Action)
    requires Locking(s) && Enabled(s, a)
    ensures Locking(Apply(cfg, s, a))
  {
    if a.TryLock? || a.Unlock? {
      LockMoves(cfg, s, a);
    } else {
      LockStays(s, Apply(cfg, s, a));
    }
  }

  lemma LaterFetchStays(s: State, s': State, k: nat, id: nat)
    requires s.trace <= s'.trace && FetchesAfter(s, k, id)
    ensures FetchesAfter(s', k, id)
  {
  }

  lemma ClearStays(s: State, s': State, m: nat)
    requires s.trace <= s'.trace && ClearedAfter(s, m)
    ensures ClearedAfter(s', m)
  {
    var j :| m < j < |s.trace| && s.trace[j].FlagCleared?;
    assert s'.trace[j].FlagCleared?;
  }

  lemma ClearLands(cfg: Config, s: State, i: nat, m: nat)
    requires At(s, i, Locked) && m < |s.trace|
    ensures ClearedAfter(Apply(cfg, s, ClearFlag(i)), m)
  {
    assert Apply(cfg, s, ClearFlag(i)).trace[|s.trace|].FlagCleared?;
  }

  lemma EventsStep(cfg: Config, s: State, a: Action, k: nat)
    requires k < |s.trace| && EventHonoured(s, k) && Enabled(s, a)
    ensures EventHonoured(Apply(cfg, s, a), k)
  {
    var s' := Apply(cfg, s, a);
    var id, last := s.trace[k].id, |s.trace|;
    assert s'.trace[k] == s.trace[k];
    if FetchesAfter(s, k, id) {
      LaterFetchStays(s, s', k, id);
    }
    match s.trace[k]
    case Requested(_) =>
      if l :| k < l < |s.trace| && s.trace[l] == FlagSet(id) {
        assert s'.trace[l] == FlagSet(id);
      }
      assert |s'.trace| > last && (s'.trace[last] == FlagSet(id) || s'.trace[last] == FetchBegun(id)) ==>
               Pursued(s', k, id);
    case FlagSet(_) =>
      if ClearedAfter(s, k) {
        ClearStays(s, s', k);
      } else if a.ClearFlag? {
        ClearLands(cfg, s, a.i, k);
      }
    case FlagCleared(_) =>
      assert |s'.trace| > last && s'.trace[last] == FetchBegun(id) ==> FetchesAfter(s', k, id);
    case _ =>
  }

  /** With the flag up, a step ends the last hot call only by clearing the flag. */
  lemma SomeoneStaysHot(cfg: Config, s: State, a: Action)
    requires Locking(s) && Enabled(s, a) && s.flag && !a.ClearFlag? && (SomeHot(s) || a.ReadFlag?)
    ensures SomeHot(Apply(cfg, s, a))
  {
    var s' := Apply(cfg, s, a);
    if a.TryLock? && s.lock {
      var h :| 0 <= h < |s.calls| && Holding(s.calls[h]);
      assert s'.calls[h] == s.calls[h];
    } else if a.Respawn? {
      assert s'.calls[|s.calls|].pc == Calling;
    } else if a.Ask? || a.SetFlag? {
      var i :| 0 <= i < |s.calls| && s.calls[i].pc != Done && s.calls[i].pc != Refused;
      assert s'.calls[i] == s.calls[i];
    } else {
      assert s'.calls[a.i].pc != Done && s'.calls[a.i].pc != Refused;
    }
  }

  lemma ReadsStep(cfg: Config, s: State, a: Action, m: nat)
    requires Inv(cfg, s) && Enabled(s, a)
    requires var s' := Apply(cfg, s, a);
             m < |s'.trace| && s'.trace[m].FlagSet? && ReadAfter(s', m) && !ClearedAfter(s', m)
    ensures SomeHot(Apply(cfg, s, a))
  {
    var s', last := Apply(cfg, s, a), |s.trace|;
    var j :| m < j < |s'.trace| && s'.trace[j].FlagRead?;
    assert m < last && s'.trace[m] == s.trace[m] && EventHonoured(s, m);
    if ClearedAfter(s, m) {
      ClearStays(s, s', m);
    } else if a.ClearFlag? {
      ClearLands(cfg, s, a.i, m);
    }
    assert j < last ==> s.trace[j].FlagRead?;
    SomeoneStaysHot(cfg, s, a);
  }

  lemma FlagStep(cfg: Config, s: State, a: Action)
    requires Inv(cfg, s) && Enabled(s, a) && Apply(cfg, s, a).flag
    ensures SomeLive(Apply(cfg, s, a)) || exists k :: LateWrite(Apply(cfg, s, a), k)
  {
    var s' := Apply(cfg, s, a);
    if a.SetFlag? || (a.TryLock? && s.lock && cfg.atomicRefusal) {
      assert LateWrite(s', |s.trace|);
    } else if a.Ask? || a.Respawn? {
      assert Live(s'.calls[|s.calls|]);
    } else {
      assert Live(s'.calls[a.i]);
    }
  }

  lemma AtomicFlagStep(cfg: Config, s: State, a: Action)
    requires Inv(cfg, s) && Enabled(s, a) && Apply(cfg, s, a).flag && cfg.atomicRefusal
    ensures SomeLive(Apply(cfg, s, a))
  {
    var s' := Apply(cfg, s, a);
    if a.TryLock? && s.lock {
      var h :| 0 <= h < |s.calls| && Holding(s.calls[h]);
      assert Live(s'.calls[h]);
    } else if a.Ask? || a.Respawn? {
      assert Live(s'.calls[|s.calls|]);
    } else {
      assert Live(s'.calls[a.i]);
    }
  }

  lemma InvStep(cfg: Config, s: State, a: Action)
    requires Inv(cfg, s) && Enabled(s, a)
    ensures Inv(cfg, Apply(cfg, s, a))
  {
    var s' := Apply(cfg, s, a);
    LockingStep(cfg, s, a);
    forall k | 0 <= k < |s'.trace|
      ensures EventHonoured(s', k)
    {
      if k < |s.trace| {
        EventsStep(cfg, s, a, k);
      }
    }
    forall m | 0 <= m < |s'.trace| && s'.trace[m].FlagSet? && ReadAfter(s', m) && !ClearedAfter(s', m)
      ensures SomeHot(s')
    {
      ReadsStep(cfg, s, a, m);
    }
    if s'.flag {
      FlagStep(cfg, s, a);
      if cfg.atomicRefusal {
        AtomicFlagStep(cfg, s, a);
      }
    }
  }

  lemma {:induction false} InvRun(cfg: Config, s: State, run: seq<Action>)
    requires Inv(cfg, s) && ValidRun(cfg, s, run)
    ensures Inv(cfg, Exec(cfg, s, run))
    decreases |run|
  {
    if run != [] {
      InvStep(cfg, s, run[0]);
      InvRun(cfg, Apply(cfg, s, run[0]), run[1..]);
    }
  }

  lemma InvReached(cfg: Config, run: seq<Action>)
    requires ValidRun(cfg, INIT, run)
    ensures Inv(cfg, Exec(cfg, INIT, run))
  {
    InvRun(cfg, INIT, run);
  }

  // ---------- the theorems ----------

  /** One query at a time. */
  lemma OneQueryAtATime(cfg: Config, run: seq<Action>, i: nat, j: nat)
    requires ValidRun(cfg, INIT, run)
    requires var s := Exec(cfg, INIT, run);
             i < |s.calls| && j < |s.calls| && Holding(s.calls[i]) && Holding(s.calls[j])
    ensures i == j && Exec(cfg, INIT, run).lock
  {
    InvReached(cfg, run);
  }

  lemma ClearedThenFetched(cfg: Config, s: State, k: nat)
    requires Inv(cfg, s) && k < |s.trace| && s.trace[k].FlagSet? && !s.flag
    ensures exists j :: k < j < |s.trace| && s.trace[j].FlagCleared? &&
                        (At(s, s.trace[j].id, Cleared) || FetchesAfter(s, j, s.trace[j].id))
  {
    assert EventHonoured(s, k);
    var j :| k < j < |s.trace| && s.trace[j].FlagCleared?;
    assert EventHonoured(s, j);
  }

  /**
   Never forgets: once a refused call's flag write has landed, the flag is still up, or a holder
   has cleared it since, and that holder's fetch attempt begins after its clear.
   */
  lemma NeverForgets(cfg: Config, run: seq<Action>, k: nat)
    requires ValidRun(cfg, INIT, run)
    requires k < |Exec(cfg, INIT, run).trace| && Exec(cfg, INIT, run).trace[k].FlagSet?
    ensures var s := Exec(cfg, INIT, run);
            s.flag || exists j :: k < j < |s.trace| && s.trace[j].FlagCleared? &&
                                  (At(s, s.trace[j].id, Cleared) || FetchesAfter(s, j, s.trace[j].id))
  {
    InvReached(cfg, run);
    if !Exec(cfg, INIT, run).flag {
      ClearedThenFetched(cfg, Exec(cfg, INIT, run), k);
    }
  }

  lemma ClearServesAtRest(cfg: Config, s: State, k: nat)
    requires Inv(cfg, s) && AtRest(s) && ClearedAfter(s, k)
    ensures SomeFetchAfter(s, k)
  {
    var j :| k < j < |s.trace| && s.trace[j].FlagCleared?;
    assert EventHonoured(s, j);
    var l :| j < l < |s.trace| && s.trace[l] == FetchBegun(s.trace[j].id);
    assert s.trace[l].FetchBegun?;
  }

  lemma FetchCounts(s: State, k: nat, m: nat)
    requires k <= m && SomeFetchAfter(s, m)
    ensures SomeFetchAfter(s, k)
  {
    var l :| m < l < |s.trace| && s.trace[l].FetchBegun?;
    assert s.trace[l].FetchBegun?;
  }

  lemma MarkServedAtRest(cfg: Config, s: State, k: nat)
    requires Inv(cfg, s) && AtRest(s) && !s.flag && k < |s.trace| && s.trace[k].FlagSet?
    ensures SomeFetchAfter(s, k)
  {
    assert EventHonoured(s, k);
    ClearServesAtRest(cfg, s, k);
  }

  lemma RequestServedAtRest(cfg: Config, s: State, k: nat)
    requires Inv(cfg, s) && AtRest(s) && !s.flag && k < |s.trace| && s.trace[k].Requested?
    ensures SomeFetchAfter(s, k)
  {
    var id := s.trace[k].id;
    assert EventHonoured(s, k);
    if FetchesAfter(s, k, id) {
      var l :| k < l < |s.trace| && s.trace[l] == FetchBegun(id);
      assert s.trace[l].FetchBegun?;
    } else {
      var m :| k < m < |s.trace| && s.trace[m] == FlagSet(id);
      MarkServedAtRest(cfg, s, m);
      FetchCounts(s, k, m);
    }
  }

  /** At rest with the flag down, every request was followed by a fetch attempt begun after it. */
  lemma AllRequestsServed(cfg: Config, run: seq<Action>, k: nat)
    requires ValidRun(cfg, INIT, run)
    requires AtRest(Exec(cfg, INIT, run)) && !Exec(cfg, INIT, run).flag
    requires k < |Exec(cfg, INIT, run).trace| && Exec(cfg, INIT, run).trace[k].Requested?
    ensures SomeFetchAfter(Exec(cfg, INIT, run), k)
  {
    InvReached(cfg, run);
    RequestServedAtRest(cfg, Exec(cfg, INIT, run), k);
  }

  ghost predicate AllMarksServed(s: State) {
    forall k :: 0 <= k < |s.trace| && s.trace[k].FlagSet? ==> SomeFetchAfter(s, k)
  }

  lemma FlagTells(cfg: Config, s: State)
    requires Inv(cfg, s) && AtRest(s)
    ensures !s.flag <==> AllMarksServed(s)
  {
    if s.flag {
      var k :| LateWrite(s, k);
      assert !SomeFetchAfter(s, k);
    } else {
      forall k | 0 <= k < |s.trace| && s.trace[k].FlagSet?
        ensures SomeFetchAfter(s, k)
      {
        MarkServedAtRest(cfg, s, k);
      }
    }
  }

  /** The flag at rest says exactly whether some refused call's flag write had no fetch after it. */
  lemma FlagTellsAtRest(cfg: Config, run: seq<Action>)
    requires ValidRun(cfg, INIT, run) && AtRest(Exec(cfg, INIT, run))
    ensures !Exec(cfg, INIT, run).flag <==> AllMarksServed(Exec(cfg, INIT, run))
  {
    InvReached(cfg, run);
    FlagTells(cfg, Exec(cfg, INIT, run));
  }

  lemma UnservedWroteLate(cfg: Config, s: State, k: nat) returns (m: nat)
    requires Inv(cfg, s) && AtRest(s)
    requires k < |s.trace| && s.trace[k].Requested? && !SomeFetchAfter(s, k)
    ensures k < m < |s.trace| && s.trace[m] == FlagSet(s.trace[k].id) && LateWrite(s, m)
  {
    assert EventHonoured(s, k);
    m :| k < m < |s.trace| && s.trace[m] == FlagSet(s.trace[k].id);
    if ClearedAfter(s, m) {
      ClearServesAtRest(cfg, s, m);
      FetchCounts(s, k, m);
    }
    assert !ClearedAfter(s, m) && !ReadAfter(s, m);
    assert forall l :: m < l < |s.trace| ==> !s.trace[l].FetchBegun?;
  }

  /**
   What can be forgotten: at rest, a request that no fetch attempt came after is one that was refused
   and whose own flag write landed after the last look at the flag, the last clear and the last fetch.
   */
  lemma UnservedRequestWroteLate(cfg: Config, run: seq<Action>, k: nat) returns (m: nat)
    requires ValidRun(cfg, INIT, run) && AtRest(Exec(cfg, INIT, run))
    requires var s := Exec(cfg, INIT, run);
             k < |s.trace| && s.trace[k].Requested? && !SomeFetchAfter(s, k)
    ensures var s := Exec(cfg, INIT, run);
            && k < m < |s.trace| && s.trace[m] == FlagSet(s.trace[k].id) && s.flag
            && forall l :: m < l < |s.trace| ==>
                 !s.trace[l].FlagRead? && !s.trace[l].FlagCleared? && !s.trace[l].FetchBegun?
  {
    InvReached(cfg, run);
    var s := Exec(cfg, INIT, run);
    m := UnservedWroteLate(cfg, s, k);
    if !s.flag {
      RequestServedAtRest(cfg, s, k);
    }
  }

  /** Were refusal and flag write one step, the flag would always be down at rest. */
  lemma AtomicRefusalForgetsNothing(cfg: Config, run: seq<Action>)
    requires cfg.atomicRefusal && ValidRun(cfg, INIT, run) && AtRest(Exec(cfg, INIT, run))
    ensures !Exec(cfg, INIT, run).flag
  {
    InvReached(cfg, run);
  }

  // ---------- which node the fetch is for ----------

  ghost predicate AllFor(s: State, node: string) {
    forall i :: 0 <= i < |s.calls| ==> s.calls[i].node == node
  }

  predicate AsksFor(run: seq<Action>, node: string) {
    forall i :: 0 <= i < |run| ==> run[i].Ask? ==> run[i].node == node
  }

  /** A restarted call asks for the node of the call it restarts. */
  lemma {:induction false} OneNodeOnly(cfg: Config, s: State, run: seq<Action>, node: string)
    requires AllFor(s, node) && ValidRun(cfg, s, run) && AsksFor(run, node)
    ensures AllFor(Exec(cfg, s, run), node)
    decreases |run|
  {
    if run != [] {
      assert AllFor(Apply(cfg, s, run[0]), node);
      assert forall i :: 0 <= i < |run[1..]| ==> run[1..][i] == run[i + 1];
      OneNodeOnly(cfg, Apply(cfg, s, run[0]), run[1..], node);
    }
  }

  /** While all requests name one node, every request at rest got a later fetch for that node. */
  lemma RequestsForOneNodeServed(cfg: Config, run: seq<Action>, node: string, k: nat) returns (l: nat)
    requires ValidRun(cfg, INIT, run) && AsksFor(run, node)
    requires AtRest(Exec(cfg, INIT, run)) && !Exec(cfg, INIT, run).flag
    requires k < |Exec(cfg, INIT, run).trace| && Exec(cfg, INIT, run).trace[k].Requested?
    ensures var s := Exec(cfg, INIT, run);
            k < l < |s.trace| && s.trace[l].FetchBegun? && s.trace[l].id < |s.calls| &&
            s.calls[s.trace[l].id].node == node
  {
    AllRequestsServed(cfg, run, k);
    OneNodeOnly(cfg, INIT, run, node);
    InvReached(cfg, run);
    var s := Exec(cfg, INIT, run);
    l :| k < l < |s.trace| && s.trace[l].FetchBegun?;
    assert EventHonoured(s, l);
  }
}
