/** Putting runs of the controller together. */
module ReplicaRuns {
  import opened ReplicaProtocol

  lemma {:induction false} RunsCompose(cfg: Config, s: State, first: seq<Action>, second: seq<Action>)
    requires ValidRun(cfg, s, first) && ValidRun(cfg, Exec(cfg, s, first), second)
    ensures ValidRun(cfg, s, first + second)
    ensures Exec(cfg, s, first + second) == Exec(cfg, Exec(cfg, s, first), second)
    decreases |first|
  {
    if first == [] {
      assert first + second == second;
    } else {
      assert (first + second)[1..] == first[1..] + second;
      RunsCompose(cfg, Apply(cfg, s, first[0]), first[1..], second);
    }
  }

  lemma OneStep(cfg: Config, s: State, a: Action)
    requires Shaped(s) && Enabled(cfg, s, a)
    ensures ValidRun(cfg, s, [a]) && Exec(cfg, s, [a]) == Apply(cfg, s, a)
  {
    assert [a][1..] == [];
    assert ValidRun(cfg, Apply(cfg, s, a), []);
  }

  ghost predicate Leads(cfg: Config, s: State, run: seq<Action>, s': State) {
    ValidRun(cfg, s, run) && Exec(cfg, s, run) == s'
  }

  lemma AddStep(cfg: Config, s: State, run: seq<Action>, now: State, a: Action)
    requires Leads(cfg, s, run, now) && Shaped(now) && Enabled(cfg, now, a)
    ensures Leads(cfg, s, run + [a], Apply(cfg, now, a))
  {
    OneStep(cfg, now, a);
    RunsCompose(cfg, s, run, [a]);
  }
}
