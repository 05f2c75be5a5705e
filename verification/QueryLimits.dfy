/** What the coalescing query can lose, shown by runs of the code as it is. */
module QueryLimits {
  import opened QueryProtocol
  import opened QueryCoverage

  const AS_WRITTEN := Config(false)

  ghost predicate Reaches(run: seq<Action>, s: State) {
    ValidRun(AS_WRITTEN, INIT, run) && Exec(AS_WRITTEN, INIT, run) == s
  }

  lemma {:induction false} RunsExtend(s: State, run: seq<Action>, a: Action)
    requires ValidRun(AS_WRITTEN, s, run) && Enabled(Exec(AS_WRITTEN, s, run), a)
    ensures ValidRun(AS_WRITTEN, s, run + [a])
    ensures Exec(AS_WRITTEN, s, run + [a]) == Apply(AS_WRITTEN, Exec(AS_WRITTEN, s, run), a)
    decreases |run|
  {
    if run == [] {
      assert run + [a] == [a] && [a][1..] == [];
      assert ValidRun(AS_WRITTEN, Apply(AS_WRITTEN, s, a), []);
    } else {
      assert (run + [a])[1..] == run[1..] + [a];
      RunsExtend(Apply(AS_WRITTEN, s, run[0]), run[1..], a);
    }
  }

  lemma Next(run: seq<Action>, s: State, a: Action) returns (run': seq<Action>, s': State)
    requires Reaches(run, s) && Enabled(s, a)
    ensures run' == run + [a] && s' == Apply(AS_WRITTEN, s, a) && Reaches(run', s')
  {
    RunsExtend(INIT, run, a);
    run', s' := run + [a], Apply(AS_WRITTEN, s, a);
  }

  /** The first call is fetching for node a when a second, for node b, is refused. */
  lemma RefusedWhileFetching(a: string, b: string) returns (run: seq<Action>, s: State)
    ensures Reaches(run, s)
    ensures s == State(true, false, [Call(a, Fetching), Call(b, Refused)],
                       [Requested(0), FlagCleared(0), FetchBegun(0), Requested(1)])
  {
    run, s := [], INIT;
    run, s := Next(run, s, Ask(a));
    run, s := Next(run, s, TryLock(0));
    run, s := Next(run, s, ClearFlag(0));
    run, s := Next(run, s, BeginFetch(0));
    run, s := Next(run, s, Ask(b));
    run, s := Next(run, s, TryLock(1));
  }

  /**
   The refused call writes the flag after the holder's last look at it: at rest the flag is up,
   and no fetch ever follows the request, until someone asks again.
   */
  lemma LateFlagIsForgotten(a: string, b: string) returns (run: seq<Action>, k: nat)
    ensures ValidRun(AS_WRITTEN, INIT, run)
    ensures var s := Exec(AS_WRITTEN, INIT, run);
            && AtRest(s) && s.flag
            && k < |s.trace| && s.trace[k] == Requested(1) && |s.calls| == 2 && s.calls[1].node == b
            && !SomeFetchAfter(s, k)
  {
    var s;
    run, s := RefusedWhileFetching(a, b);
    run, s := Next(run, s, Unlock(0));
    run, s := Next(run, s, ReadFlag(0));
    run, s := Next(run, s, SetFlag(1));
    assert s.calls == [Call(a, Done), Call(b, Done)];
    k := 3;
  }

  lemma RestartedFor(a: string, b: string) returns (run: seq<Action>, s: State)
    ensures Reaches(run, s)
    ensures s == State(false, true, [Call(a, Done), Call(b, Done), Call(a, Calling)],
                       [Requested(0), FlagCleared(0), FetchBegun(0), Requested(1), FlagSet(1), FlagRead(0),
                        Requested(2)])
  {
    run, s := RefusedWhileFetching(a, b);
    run, s := Next(run, s, SetFlag(1));
    run, s := Next(run, s, Unlock(0));
    run, s := Next(run, s, ReadFlag(0));
    run, s := Next(run, s, Respawn(0));
  }

  /**
   The rerun asks for the holder's node: with two nodes, a refused request can come to rest with
   the flag down and its node never queried at all.
   */
  lemma OtherNodeIsForgotten(a: string, b: string) returns (run: seq<Action>)
    requires a != b
    ensures ValidRun(AS_WRITTEN, INIT, run)
    ensures var s := Exec(AS_WRITTEN, INIT, run);
            && AtRest(s) && !s.flag && |s.calls| == 3 && s.calls[1].node == b
            && forall l :: 0 <= l < |s.trace| && s.trace[l].FetchBegun? ==>
                 s.trace[l].id < 3 && s.calls[s.trace[l].id].node == a
  {
    var s;
    run, s := RestartedFor(a, b);
    run, s := Next(run, s, TryLock(2));
    run, s := Next(run, s, ClearFlag(2));
    run, s := Next(run, s, BeginFetch(2));
    run, s := Next(run, s, Unlock(2));
    run, s := Next(run, s, ReadFlag(2));
    assert s.calls == [Call(a, Done), Call(b, Done), Call(a, Done)];
  }
}
