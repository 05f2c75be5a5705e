/**
 The coalescing query comes to rest: although finished calls start themselves again, every
 interleaving of the calls there are ends, by a lexicographic measure of live calls, the flag, and
 how far each call is from letting one of them go down.
 */
module QueryTermination {
  import opened QueryProtocol
  import opened QueryCoverage

  /** With the flag up the goal is its next clear; with it down, the end of a call. */
  function Rank(pc: Pc, flag: bool): nat {
    match pc
    case Done => 0
    case Refused => 1
    case Locked => if flag then 1 else 5
    case Calling => if flag then 2 else 6
    case Respawning => if flag then 3 else 7
    case Unlocked => if flag then 4 else 2
    case Fetching => if flag then 5 else 3
    case Cleared => if flag then 6 else 4
  }

  function LiveCount(calls: seq<Call>): nat {
    if calls == [] then 0 else (if Live(calls[0]) then 1 else 0) + LiveCount(calls[1..])
  }

  function Ranks(calls: seq<Call>, flag: bool): nat {
    if calls == [] then 0 else Rank(calls[0].pc, flag) + Ranks(calls[1..], flag)
  }

  lemma {:induction false} OneMoves(calls: seq<Call>, i: nat, pc: Pc, flag: bool)
    requires i < |calls|
    ensures var calls' := calls[i := calls[i].(pc := pc)];
            && LiveCount(calls') + (if Live(calls[i]) then 1 else 0) == LiveCount(calls) + (if pc != Done then 1 else 0)
            && Ranks(calls', flag) + Rank(calls[i].pc, flag) == Ranks(calls, flag) + Rank(pc, flag)
    decreases |calls|
  {
    var calls' := calls[i := calls[i].(pc := pc)];
    if i == 0 {
      assert calls'[1..] == calls[1..];
    } else {
      assert calls'[1..] == calls[1..][i - 1 := calls[i].(pc := pc)];
      OneMoves(calls[1..], i - 1, pc, flag);
    }
  }

  lemma {:induction false} OneJoins(calls: seq<Call>, node: string, flag: bool)
    ensures LiveCount(calls + [Call(node, Calling)]) == LiveCount(calls) + 1
    ensures Ranks(calls + [Call(node, Calling)], flag) == Ranks(calls, flag) + Rank(Calling, flag)
    decreases |calls|
  {
    var more := calls + [Call(node, Calling)];
    if calls == [] {
      assert more[1..] == [];
    } else {
      assert more[1..] == calls[1..] + [Call(node, Calling)];
      OneJoins(calls[1..], node, flag);
    }
  }

  datatype Measure = Measure(live: nat, flag: nat, ranks: nat)

  function Remaining(s: State): Measure {
    Measure(LiveCount(s.calls), if s.flag then 1 else 0, Ranks(s.calls, s.flag))
  }

  predicate Less(a: Measure, b: Measure) {
    a.live < b.live || (a.live == b.live && (a.flag < b.flag || (a.flag == b.flag && a.ranks < b.ranks)))
  }

  /** One call moves on: it returns, or the flag goes down, or its rank does. */
  lemma MoveDecreases(s: State, s': State, i: nat, pc: Pc)
    requires i < |s.calls| && Live(s.calls[i]) && s'.calls == s.calls[i := s.calls[i].(pc := pc)]
    requires pc == Done || (s.flag && !s'.flag) || (s'.flag == s.flag && Rank(pc, s.flag) < Rank(s.calls[i].pc, s.flag))
    ensures Less(Remaining(s'), Remaining(s))
  {
    OneMoves(s.calls, i, pc, s'.flag);
    OneMoves(s.calls, i, pc, s.flag);
  }

  lemma RespawnDecreases(cfg: Config, s: State, i: nat)
    requires At(s, i, Respawning)
    ensures Less(Remaining(Apply(cfg, s, Respawn(i))), Remaining(s))
  {
    OneMoves(s.calls, i, Done, s.flag);
    OneJoins(s.calls[i := s.calls[i].(pc := Done)], s.calls[i].node, s.flag);
  }

  /** Without new requests from outside, every step of every interleaving decreases the measure. */
  lemma StepDecreases(cfg: Config, s: State, a: Action)
    requires Enabled(s, a) && !a.Ask?
    ensures Less(Remaining(Apply(cfg, s, a)), Remaining(s))
  {
    if a.Respawn? {
      RespawnDecreases(cfg, s, a.i);
    } else {
      var s' := Apply(cfg, s, a);
      MoveDecreases(s, s', a.i, s'.calls[a.i].pc);
    }
  }

  /** A live call is never blocked: the lock is tried, not waited for. */
  lemma LiveCallCanStep(s: State, i: nat) returns (a: Action)
    requires i < |s.calls| && Live(s.calls[i])
    ensures !a.Ask? && Enabled(s, a) && a.i == i
  {
    a := match s.calls[i].pc
         case Calling => TryLock(i)
         case Refused => SetFlag(i)
         case Locked => ClearFlag(i)
         case Cleared => BeginFetch(i)
         case Fetching => Unlock(i)
         case Unlocked => ReadFlag(i)
         case _ => Respawn(i);
  }

  /** After the last outside request: some possible step each time, until all calls have returned. */
  ghost predicate QuietStep(cfg: Config, s: State, a: Action, s': State) {
    if AtRest(s) then s' == s else !a.Ask? && Enabled(s, a) && s' == Apply(cfg, s, a)
  }

  ghost predicate QuietSchedule(cfg: Config, at: nat -> State, step: nat -> Action) {
    forall i: nat :: QuietStep(cfg, at(i), step(i), at(i + 1))
  }

  lemma {:induction false} Settles(cfg: Config, at: nat -> State, step: nat -> Action, i: nat, m: Measure)
    returns (n: nat)
    requires QuietSchedule(cfg, at, step) && Inv(cfg, at(i)) && m == Remaining(at(i))
    ensures AtRest(at(n)) && Inv(cfg, at(n))
    decreases m.live, m.flag, m.ranks
  {
    assert QuietStep(cfg, at(i), step(i), at(i + 1));
    if AtRest(at(i)) {
      n := i;
    } else {
      StepDecreases(cfg, at(i), step(i));
      InvStep(cfg, at(i), step(i));
      n := Settles(cfg, at, step, i + 1, Remaining(at(i + 1)));
    }
  }

  /**
   From any reachable state, whatever the scheduler does, all calls return; and then each flag
   write was followed by a fetch attempt if and only if the flag is down.
   */
  lemma QueriesComeToRest(cfg: Config, run: seq<Action>, at: nat -> State, step: nat -> Action) returns (n: nat)
    requires ValidRun(cfg, INIT, run) && at(0) == Exec(cfg, INIT, run) && QuietSchedule(cfg, at, step)
    ensures AtRest(at(n)) && (!at(n).flag <==> AllMarksServed(at(n)))
    ensures cfg.atomicRefusal ==> !at(n).flag
  {
    InvReached(cfg, run);
    n := Settles(cfg, at, step, 0, Remaining(at(0)));
    FlagTells(cfg, at(n));
  }
}
