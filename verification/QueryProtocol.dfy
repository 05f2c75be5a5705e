/**
 The coalescing status query of the HTTP tunnel as a state machine: any number of concurrent
 calls, a lock that is only ever tried, an "outdated" flag written without it, and finished calls
 that start themselves again.
 */
module QueryProtocol {
  /**
   Where a call is: about to try the lock; refused, flag not yet written; holding the lock, flag
   not yet cleared; cleared; fetching; unlocked, flag not yet read; flag seen set; returned.
   */
  datatype Pc = Calling | Refused | Locked | Cleared | Fetching | Unlocked | Respawning | Done

  datatype Call = Call(node: string, pc: Pc)

  /** What happened, in order. A fetch attempt is the lookup of the node and the query to it. */
  datatype Event =
    | Requested(id: nat)
    | FlagSet(id: nat)
    | FlagCleared(id: nat)
    | FetchBegun(id: nat)
    | FlagRead(id: nat)

  datatype State = State(lock: bool, flag: bool, calls: seq<Call>, trace: seq<Event>)

  /** Whether a refusal and its flag write are one step; in the code they are two. */
  datatype Config = Config(atomicRefusal: bool)

  const INIT := State(false, false, [], [])

  datatype Action =
    | Ask(node: string)
    | TryLock(i: nat)
    | SetFlag(i: nat)
    | ClearFlag(i: nat)
    | BeginFetch(i: nat)
    | Unlock(i: nat)
    | ReadFlag(i: nat)
    | Respawn(i: nat)

  predicate At(s: State, i: nat, pc: Pc) {
    i < |s.calls| && s.calls[i].pc == pc
  }

  predicate Enabled(s: State, a: Action) {
    match a
    case Ask(node) => true
    case TryLock(i) => At(s, i, Calling)
    case SetFlag(i) => At(s, i, Refused)
    case ClearFlag(i) => At(s, i, Locked)
    case BeginFetch(i) => At(s, i, Cleared)
    case Unlock(i) => At(s, i, Fetching)
    case ReadFlag(i) => At(s, i, Unlocked)
    case Respawn(i) => At(s, i, Respawning)
  }

  function Goto(s: State, i: nat, pc: Pc): State
    requires i < |s.calls|
  {
    s.(calls := s.calls[i := s.calls[i].(pc := pc)])
  }

  function Log(s: State, e: Event): State {
    s.(trace := s.trace + [e])
  }

  /** A new call, from outside or from a finished one. */
  function Launch(s: State, node: string): State {
    Log(s.(calls := s.calls + [Call(node, Calling)]), Requested(|s.calls|))
  }

  function Apply(cfg: Config, s: State, a: Action): State
    requires Enabled(s, a)
  {
    match a
    case Ask(node) => Launch(s, node)
    case TryLock(i) =>
      if !s.lock then Goto(s.(lock := true), i, Locked)
      else if cfg.atomicRefusal then Log(Goto(s.(flag := true), i, Done), FlagSet(i))
      else Goto(s, i, Refused)
    case SetFlag(i) => Log(Goto(s.(flag := true), i, Done), FlagSet(i))
    case ClearFlag(i) => Log(Goto(s.(flag := false), i, Cleared), FlagCleared(i))
    case BeginFetch(i) => Log(Goto(s, i, Fetching), FetchBegun(i))
    case Unlock(i) => Goto(s.(lock := false), i, Unlocked)
    case ReadFlag(i) => Log(Goto(s, i, if s.flag then Respawning else Done), FlagRead(i))
    case Respawn(i) => Launch(Goto(s, i, Done), s.calls[i].node)
  }

  ghost predicate ValidRun(cfg: Config, s: State, run: seq<Action>)
    decreases |run|
  {
    run == [] || (Enabled(s, run[0]) && ValidRun(cfg, Apply(cfg, s, run[0]), run[1..]))
  }

  ghost function Exec(cfg: Config, s: State, run: seq<Action>): State
    requires ValidRun(cfg, s, run)
    decreases |run|
  {
    if run == [] then s else Exec(cfg, Apply(cfg, s, run[0]), run[1..])
  }

  predicate Live(c: Call) {
    c.pc != Done
  }

  ghost predicate AtRest(s: State) {
    forall i :: 0 <= i < |s.calls| ==> !Live(s.calls[i])
  }

  predicate Holding(c: Call) {
    c.pc == Locked || c.pc == Cleared || c.pc == Fetching
  }
}
