/**
 The HTTP tunnel's table of base statuses as a function of everything that ever happened to it:
 heartbeats, node registrations and node removals, over any number of nodes.
 */
module BaseHistory {
  import opened Options
  import opened BaseStatuses

  datatype Op = Heartbeat(status: BaseStatus) | Register(info: NodeInfo) | Unregister(nodeName: string)

  type StatusTable = map<string, BaseStatus>

  function NodeOf(naming: Naming, op: Op): string {
    match op
    case Heartbeat(status) => status.metadata.identity
    case Register(info) => naming.extract(info.name)
    case Unregister(nodeName) => naming.extract(nodeName)
  }

  function ValueOf(naming: Naming, op: Op): BaseStatus
    requires !op.Unregister?
  {
    match op
    case Heartbeat(status) => status
    case Register(info) => FromNodeInfo(naming, info)
  }

  /** A heartbeat overwrites, a registration fills in, a removal deletes. */
  function Step(naming: Naming, table: StatusTable, op: Op): StatusTable {
    var id := NodeOf(naming, op);
    match op
    case Heartbeat(status) => table[id := status]
    case Register(info) => if id in table then table else table[id := FromNodeInfo(naming, info)]
    case Unregister(_) => table - {id}
  }

  function History(naming: Naming, ops: seq<Op>): StatusTable {
    if ops == [] then map[] else Step(naming, History(naming, ops[..|ops| - 1]), ops[|ops| - 1])
  }

  function Lookup(table: StatusTable, id: string): Option<BaseStatus> {
    if id in table then Some(table[id]) else None
  }

  // ---------- the entry, told from the history alone ----------

  predicate Introduces(naming: Naming, op: Op, id: string) {
    match op
    case Heartbeat(status) => status.metadata.identity == id
    case Register(info) => naming.extract(info.name) == id
    case Unregister(_) => false
  }

  predicate Removes(naming: Naming, op: Op, id: string) {
    op.Unregister? && naming.extract(op.nodeName) == id
  }

  ghost predicate RemovedAfter(naming: Naming, ops: seq<Op>, id: string, k: int) {
    exists u :: 0 <= u < |ops| && k < u && Removes(naming, ops[u], id)
  }

  /**
   Operation k is where the entry of id comes from: the latest heartbeat since the last removal,
   or, there being none, the first registration since then.
   */
  ghost predicate IsSource(naming: Naming, ops: seq<Op>, id: string, k: nat) {
    && k < |ops| && Introduces(naming, ops[k], id) && !RemovedAfter(naming, ops, id, k)
    && forall j :: 0 <= j < |ops| && j != k && Introduces(naming, ops[j], id)
                   && (if ops[k].Heartbeat? then ops[j].Heartbeat? && j > k else ops[j].Heartbeat? || j < k)
                   ==> RemovedAfter(naming, ops, id, j)
  }

  lemma RemovedAfterGrows(naming: Naming, ops: seq<Op>, op: Op, id: string, k: int)
    ensures RemovedAfter(naming, ops + [op], id, k) <==>
            RemovedAfter(naming, ops, id, k) || (k < |ops| && Removes(naming, op, id))
  {
    var more := ops + [op];
    if RemovedAfter(naming, ops, id, k) {
      var u :| 0 <= u < |ops| && k < u && Removes(naming, ops[u], id);
      assert more[u] == ops[u];
    }
    assert more[|ops|] == op;
  }

  /** One more operation, for another node or for this one. */
  lemma SourceGrows(naming: Naming, ops: seq<Op>, op: Op, id: string, k: nat)
    requires IsSource(naming, ops, id, k)
    requires !Removes(naming, op, id) && (Introduces(naming, op, id) ==> op.Register?)
    ensures IsSource(naming, ops + [op], id, k)
  {
    var more := ops + [op];
    forall j | 0 <= j < |more|
      ensures RemovedAfter(naming, more, id, j) <==> RemovedAfter(naming, ops, id, j)
    {
      RemovedAfterGrows(naming, ops, op, id, j);
    }
  }

  lemma NewSource(naming: Naming, ops: seq<Op>, op: Op, id: string)
    requires Introduces(naming, op, id)
    requires op.Heartbeat? ||
             forall j :: 0 <= j < |ops| && Introduces(naming, ops[j], id) ==> RemovedAfter(naming, ops, id, j)
    ensures IsSource(naming, ops + [op], id, |ops|)
  {
    var more := ops + [op];
    forall j | 0 <= j < |more|
      ensures RemovedAfter(naming, more, id, j) <==> RemovedAfter(naming, ops, id, j)
    {
      RemovedAfterGrows(naming, ops, op, id, j);
    }
  }

  lemma NothingLeft(naming: Naming, ops: seq<Op>, op: Op, id: string)
    requires !Introduces(naming, op, id)
    requires Removes(naming, op, id) ||
             forall j :: 0 <= j < |ops| && Introduces(naming, ops[j], id) ==> RemovedAfter(naming, ops, id, j)
    ensures var more := ops + [op];
            forall j :: 0 <= j < |more| && Introduces(naming, more[j], id) ==> RemovedAfter(naming, more, id, j)
  {
    var more := ops + [op];
    forall j | 0 <= j < |more| && Introduces(naming, more[j], id)
      ensures RemovedAfter(naming, more, id, j)
    {
      RemovedAfterGrows(naming, ops, op, id, j);
    }
  }

  lemma {:induction false} EntryHasSource(naming: Naming, ops: seq<Op>, id: string) returns (k: nat)
    ensures id in History(naming, ops) ==>
              IsSource(naming, ops, id, k) && History(naming, ops)[id] == ValueOf(naming, ops[k])
    ensures id !in History(naming, ops) ==>
              forall j :: 0 <= j < |ops| && Introduces(naming, ops[j], id) ==> RemovedAfter(naming, ops, id, j)
    decreases |ops|
  {
    k := 0;
    if ops != [] {
      var before, op := ops[..|ops| - 1], ops[|ops| - 1];
      assert ops == before + [op];
      k := EntryHasSource(naming, before, id);
      var known := id in History(naming, before);
      if Introduces(naming, op, id) && (op.Heartbeat? || !known) {
        NewSource(naming, before, op, id);
        k := |before|;
      } else if known && !Removes(naming, op, id) {
        SourceGrows(naming, before, op, id, k);
      } else {
        NothingLeft(naming, before, op, id);
      }
    }
  }

  lemma OneSource(naming: Naming, ops: seq<Op>, id: string, j: nat, k: nat)
    requires IsSource(naming, ops, id, j) && IsSource(naming, ops, id, k)
    ensures j == k
  {
  }

  /**
   The table is a function of history: a node has an entry if and only if the history gives it a
   source, and the entry is what that source brought.
   */
  lemma {:induction false} TableIsHistory(naming: Naming, ops: seq<Op>, id: string)
    ensures id in History(naming, ops) <==> exists k: nat :: IsSource(naming, ops, id, k)
    ensures forall k: nat :: IsSource(naming, ops, id, k) ==>
              id in History(naming, ops) && History(naming, ops)[id] == ValueOf(naming, ops[k])
  {
    var s := EntryHasSource(naming, ops, id);
    forall k: nat | IsSource(naming, ops, id, k)
      ensures id in History(naming, ops) && History(naming, ops)[id] == ValueOf(naming, ops[k])
    {
      if id in History(naming, ops) {
        OneSource(naming, ops, id, k, s);
      }
    }
  }

  // ---------- from a base's heartbeat to its node's removal ----------

  lemma {:induction false} EntryStays(naming: Naming, ops: seq<Op>, more: seq<Op>, id: string)
    requires id in History(naming, ops) && forall i :: 0 <= i < |more| ==> !Removes(naming, more[i], id)
    ensures id in History(naming, ops + more)
    ensures (forall i :: 0 <= i < |more| ==> !(more[i].Heartbeat? && more[i].status.metadata.identity == id)) ==>
              History(naming, ops + more)[id] == History(naming, ops)[id]
    decreases |more|
  {
    if more == [] {
      assert ops + more == ops;
    } else {
      EntryStays(naming, ops, more[..|more| - 1], id);
      assert (ops + more)[..|ops + more| - 1] == ops + more[..|more| - 1];
    }
  }

  lemma {:induction false} EntryStaysAway(naming: Naming, ops: seq<Op>, more: seq<Op>, id: string)
    requires id !in History(naming, ops) && forall i :: 0 <= i < |more| ==> !Introduces(naming, more[i], id)
    ensures id !in History(naming, ops + more)
    decreases |more|
  {
    if more == [] {
      assert ops + more == ops;
    } else {
      EntryStaysAway(naming, ops, more[..|more| - 1], id);
      assert (ops + more)[..|ops + more| - 1] == ops + more[..|more| - 1];
    }
  }

  /**
   Under the name a heartbeat announces the base is found from then on, whatever happens short of a
   removal, with what the heartbeat said until the next one says otherwise.
   */
  lemma {:induction false} FoundUntilRemoved(naming: Naming, ops: seq<Op>, data: BaseStatus, env: string,
                                             during: seq<Op>)
    requires NameInverts(naming, data.metadata.identity, env)
    requires forall i :: 0 <= i < |during| ==> !Removes(naming, during[i], data.metadata.identity)
    ensures var id := naming.extract(ToNodeInfo(naming, data, env).name);
            && id in History(naming, ops + [Heartbeat(data)] + during)
            && ((forall i :: 0 <= i < |during| && during[i].Heartbeat? ==> during[i].status.metadata.identity != id) ==>
                  History(naming, ops + [Heartbeat(data)] + during)[id] == data)
  {
    assert (ops + [Heartbeat(data)])[..|ops|] == ops;
    EntryStays(naming, ops + [Heartbeat(data)], during, data.metadata.identity);
  }

  /** Once the node of that name is removed, it is not found until its next heartbeat or registration. */
  lemma {:induction false} NotFoundOnceRemoved(naming: Naming, ops: seq<Op>, data: BaseStatus, env: string,
                                               after: seq<Op>)
    requires NameInverts(naming, data.metadata.identity, env)
    requires forall i :: 0 <= i < |after| ==> !Introduces(naming, after[i], data.metadata.identity)
    ensures var name := ToNodeInfo(naming, data, env).name;
            naming.extract(name) !in History(naming, ops + [Unregister(name)] + after)
  {
    var gone := Unregister(ToNodeInfo(naming, data, env).name);
    assert (ops + [gone])[..|ops|] == ops;
    EntryStaysAway(naming, ops + [gone], after, data.metadata.identity);
  }

  // ---------- nodes do not interfere ----------

  predicate Concerns(naming: Naming, op: Op, id: string) {
    Introduces(naming, op, id) || Removes(naming, op, id)
  }

  lemma OthersLeaveTheEntry(naming: Naming, table: StatusTable, op: Op, id: string)
    requires !Concerns(naming, op, id)
    ensures Lookup(Step(naming, table, op), id) == Lookup(table, id)
  {
  }

  lemma OwnStepsAgree(naming: Naming, table: StatusTable, other: StatusTable, op: Op, id: string)
    requires Concerns(naming, op, id) && Lookup(table, id) == Lookup(other, id)
    ensures Lookup(Step(naming, table, op), id) == Lookup(Step(naming, other, op), id)
  {
  }

  function Only(naming: Naming, ops: seq<Op>, id: string): seq<Op> {
    if ops == [] then []
    else Only(naming, ops[..|ops| - 1], id)
         + if Concerns(naming, ops[|ops| - 1], id) then [ops[|ops| - 1]] else []
  }

  /** A node's entry is what its own operations alone would have left. */
  lemma {:induction false} NodesDoNotInterfere(naming: Naming, ops: seq<Op>, id: string)
    ensures Lookup(History(naming, ops), id) == Lookup(History(naming, Only(naming, ops, id)), id)
    decreases |ops|
  {
    if ops != [] {
      var before, op := ops[..|ops| - 1], ops[|ops| - 1];
      NodesDoNotInterfere(naming, before, id);
      var own := Only(naming, before, id);
      if Concerns(naming, op, id) {
        assert (own + [op])[..|own + [op]| - 1] == own;
        OwnStepsAgree(naming, History(naming, before), History(naming, own), op, id);
      } else {
        OthersLeaveTheEntry(naming, History(naming, before), op, id);
        assert own + [] == own;
      }
    }
  }
}
