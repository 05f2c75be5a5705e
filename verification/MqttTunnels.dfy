/**
 The MQTT tunnel's subscriptions over any run of node registrations and removals, registrations
 that break off at a failed subscription included.
 */
module MqttTunnels {
  import opened BaseStatuses
  import opened Topics

  type Callback = Kind

  /** The kinds a registration subscribes, in order; a removal drops the first four. */
  const KINDS := [Health, SimpleBiz, AllBiz, BizOperation, BatchInstallBiz]

  type Subscriptions = map<string, Callback>

  /** A registration got as far as its first `reached` topics. */
  datatype NodeOp = Registered(nodeID: string, reached: nat) | Unregistered(nodeID: string)

  function Subscribe(subs: Subscriptions, env: string, nodeID: string, n: nat): Subscriptions
    requires n <= 5
  {
    if n == 0 then subs
    else Subscribe(subs, env, nodeID, n - 1)[Topic(env, nodeID, KINDS[n - 1]) := KINDS[n - 1]]
  }

  function Unsubscribe(subs: Subscriptions, env: string, nodeID: string, n: nat): Subscriptions
    requires n <= 5
  {
    if n == 0 then subs else Unsubscribe(subs, env, nodeID, n - 1) - {Topic(env, nodeID, KINDS[n - 1])}
  }

  function Step(env: string, subs: Subscriptions, op: NodeOp): Subscriptions {
    match op
    case Registered(nodeID, reached) => Subscribe(subs, env, nodeID, if reached <= 5 then reached else 5)
    case Unregistered(nodeID) => Unsubscribe(subs, env, nodeID, 4)
  }

  function History(env: string, ops: seq<NodeOp>): Subscriptions {
    if ops == [] then map[] else Step(env, History(env, ops[..|ops| - 1]), ops[|ops| - 1])
  }

  /**
   Told from the history: some registration of the node got past this topic, and, unless it is the
   batch-install topic, the node was not removed since.
   */
  ghost predicate Wanted(ops: seq<NodeOp>, nodeID: string, kind: Kind) {
    exists k :: 0 <= k < |ops| && GotPast(ops[k], nodeID, kind) &&
                (kind == BatchInstallBiz || forall j :: k < j < |ops| ==> ops[j] != Unregistered(nodeID))
  }

  /** Topics are subscribed in this order: health, simple biz, biz, biz operation, batch install. */
  predicate GotPast(op: NodeOp, nodeID: string, kind: Kind) {
    op.Registered? && op.nodeID == nodeID &&
    match kind
    case Health => op.reached >= 1
    case SimpleBiz => op.reached >= 2
    case AllBiz => op.reached >= 3
    case BizOperation => op.reached >= 4
    case BatchInstallBiz => op.reached >= 5
    case Baseline => false
  }

  predicate Removed(kind: Kind) {
    kind == Health || kind == SimpleBiz || kind == AllBiz || kind == BizOperation
  }

  /** How many topics the broker accepts before it first refuses one. */
  function Attempts(accepted: seq<bool>): (n: nat)
    ensures n <= |accepted| && (forall i :: 0 <= i < n ==> accepted[i]) && (n < |accepted| ==> !accepted[n])
  {
    if accepted == [] || !accepted[0] then 0 else 1 + Attempts(accepted[1..])
  }

  // ---------- one operation ----------

  function Tail(kind: Kind): string {
    "/" + ("base" + "/" + kind.Level())
  }

  lemma TopicParts(env: string, nodeID: string, kind: Kind)
    ensures Topic(env, nodeID, kind) == (PREFIX + env + "/") + (nodeID + Tail(kind))
  {
  }

  /** Within one environment no two topics coincide, whatever the node IDs look like. */
  lemma SameTopic(env: string, nodeID: string, kind: Kind, other: string, kind': Kind)
    ensures Topic(env, nodeID, kind) == Topic(env, other, kind') <==> nodeID == other && kind == kind'
  {
    if Topic(env, nodeID, kind) == Topic(env, other, kind') {
      SameKind(env, nodeID, kind, other, kind');
      TopicParts(env, nodeID, kind);
      TopicParts(env, other, kind);
      Cancel(PREFIX + env + "/", nodeID, other, Tail(kind));
    }
  }

  lemma SameKind(env: string, nodeID: string, kind: Kind, other: string, kind': Kind)
    requires Topic(env, nodeID, kind) == Topic(env, other, kind')
    ensures kind == kind'
  {
    LastLevel(env, nodeID, kind);
    LastLevel(env, other, kind');
    KindsHaveLevels(kind, kind');
  }

  lemma LastLevel(env: string, nodeID: string, kind: Kind)
    ensures var levels := Split(Topic(env, nodeID, kind)); levels[|levels| - 1] == kind.Level()
  {
    TopicIsCommandTopic(env, nodeID, kind);
    LevelsOf(env, nodeID, "base" + "/" + kind.Level());
    SplitConcat("base", kind.Level());
    KindsHaveLevels(kind, kind);
    SplitPlain(kind.Level());
  }

  lemma Cancel(head: string, a: string, b: string, tail: string)
    requires head + (a + tail) == head + (b + tail)
    ensures a == b
  {
    assert |a| == |b|;
    assert (head + (a + tail))[|head|..|head| + |a|] == a;
    assert (head + (b + tail))[|head|..|head| + |b|] == b;
  }

  lemma {:induction false} SubscribeAt(subs: Subscriptions, env: string, other: string, n: nat,
                                       nodeID: string, kind: Kind)
    requires n <= 5
    ensures var topic := Topic(env, nodeID, kind);
            var after := Subscribe(subs, env, other, n);
            if GotPast(Registered(other, n), nodeID, kind) then topic in after && after[topic] == kind
            else (topic in after <==> topic in subs) && (topic in subs ==> after[topic] == subs[topic])
    decreases n
  {
    if n > 0 {
      SubscribeAt(subs, env, other, n - 1, nodeID, kind);
      SameTopic(env, nodeID, kind, other, KINDS[n - 1]);
    }
  }

  lemma UnsubscribedTopics(subs: Subscriptions, env: string, nodeID: string)
    ensures Unsubscribe(subs, env, nodeID, 4) ==
            subs - {Topic(env, nodeID, Health), Topic(env, nodeID, SimpleBiz), Topic(env, nodeID, AllBiz),
                    Topic(env, nodeID, BizOperation)}
  {
    assert Unsubscribe(subs, env, nodeID, 1) == subs - {Topic(env, nodeID, Health)};
    assert Unsubscribe(subs, env, nodeID, 2) == subs - {Topic(env, nodeID, Health)} - {Topic(env, nodeID, SimpleBiz)};
    assert Unsubscribe(subs, env, nodeID, 3) == Unsubscribe(subs, env, nodeID, 2) - {Topic(env, nodeID, AllBiz)};
    assert Unsubscribe(subs, env, nodeID, 4) == Unsubscribe(subs, env, nodeID, 3) - {Topic(env, nodeID, BizOperation)};
  }

  lemma UnsubscribeAt(subs: Subscriptions, env: string, other: string, nodeID: string, kind: Kind)
    ensures var topic := Topic(env, nodeID, kind);
            var after := Unsubscribe(subs, env, other, 4);
            && (topic in after <==> topic in subs && !(other == nodeID && Removed(kind)))
            && (topic in after ==> after[topic] == subs[topic])
  {
    UnsubscribedTopics(subs, env, other);
    SameTopic(env, nodeID, kind, other, Health);
    SameTopic(env, nodeID, kind, other, SimpleBiz);
    SameTopic(env, nodeID, kind, other, AllBiz);
    SameTopic(env, nodeID, kind, other, BizOperation);
  }

  lemma StepAt(env: string, subs: Subscriptions, op: NodeOp, nodeID: string, kind: Kind)
    ensures var topic, after := Topic(env, nodeID, kind), Step(env, subs, op);
            && (topic in after <==>
                  GotPast(op, nodeID, kind) || (topic in subs && !(op == Unregistered(nodeID) && Removed(kind))))
            && (topic in after ==> after[topic] == if GotPast(op, nodeID, kind) then kind else subs[topic])
  {
    match op
    case Registered(other, reached) =>
      SubscribeAt(subs, env, other, if reached <= 5 then reached else 5, nodeID, kind);
    case Unregistered(other) =>
      UnsubscribeAt(subs, env, other, nodeID, kind);
  }

  lemma WantedStep(before: seq<NodeOp>, op: NodeOp, nodeID: string, kind: Kind)
    ensures Wanted(before + [op], nodeID, kind) <==>
            GotPast(op, nodeID, kind) ||
            (Wanted(before, nodeID, kind) && (kind == BatchInstallBiz || op != Unregistered(nodeID)))
  {
    var ops := before + [op];
    assert ops[|before|] == op;
    assert forall j :: 0 <= j < |before| ==> ops[j] == before[j];
    if Wanted(before, nodeID, kind) && (kind == BatchInstallBiz || op != Unregistered(nodeID)) {
      var k :| 0 <= k < |before| && GotPast(before[k], nodeID, kind) &&
               (kind == BatchInstallBiz || forall j :: k < j < |before| ==> before[j] != Unregistered(nodeID));
      assert GotPast(ops[k], nodeID, kind);
    }
    if Wanted(ops, nodeID, kind) && !GotPast(op, nodeID, kind) {
      var k :| 0 <= k < |ops| && GotPast(ops[k], nodeID, kind) &&
               (kind == BatchInstallBiz || forall j :: k < j < |ops| ==> ops[j] != Unregistered(nodeID));
      assert GotPast(before[k], nodeID, kind);
    }
  }

  // ---------- the lifecycle ----------

  /**
   After any run, a node's topic is subscribed, with the callback of its kind, if and only if the
   history wants it; other nodes' operations never matter.
   */
  lemma {:induction false} SubscribedIffWanted(env: string, ops: seq<NodeOp>, nodeID: string, kind: Kind)
    ensures var topic := Topic(env, nodeID, kind);
            && (topic in History(env, ops) <==> Wanted(ops, nodeID, kind))
            && (topic in History(env, ops) ==> History(env, ops)[topic] == kind)
    decreases |ops|
  {
    if ops != [] {
      var before, op := ops[..|ops| - 1], ops[|ops| - 1];
      SubscribedIffWanted(env, before, nodeID, kind);
      assert ops == before + [op];
      WantedStep(before, op, nodeID, kind);
      StepAt(env, History(env, before), op, nodeID, kind);
      assert Wanted(before, nodeID, kind) ==> kind != Baseline;
    }
  }

  ghost predicate LastIsRegistration(ops: seq<NodeOp>, nodeID: string) {
    exists k :: 0 <= k < |ops| && ops[k].Registered? && ops[k].nodeID == nodeID &&
                forall j :: k < j < |ops| ==> ops[j].nodeID != nodeID
  }

  ghost predicate EverRegistered(ops: seq<NodeOp>, nodeID: string) {
    exists k :: 0 <= k < |ops| && ops[k].Registered? && ops[k].nodeID == nodeID
  }

  lemma {:induction false} LastOf(ops: seq<NodeOp>, nodeID: string, from: nat) returns (k: nat)
    requires from < |ops| && ops[from].nodeID == nodeID
    ensures from <= k < |ops| && ops[k].nodeID == nodeID && forall j :: k < j < |ops| ==> ops[j].nodeID != nodeID
    decreases |ops| - from
  {
    if next :| from < next < |ops| && ops[next].nodeID == nodeID {
      k := LastOf(ops, nodeID, next);
    } else {
      k := from;
    }
  }

  ghost predicate AllGoThrough(ops: seq<NodeOp>) {
    forall k :: 0 <= k < |ops| && ops[k].Registered? ==> ops[k].reached == 5
  }

  lemma WantedWhileRegistered(ops: seq<NodeOp>, nodeID: string, kind: Kind)
    requires AllGoThrough(ops) && Removed(kind)
    ensures Wanted(ops, nodeID, kind) <==> LastIsRegistration(ops, nodeID)
  {
    if Wanted(ops, nodeID, kind) {
      var k :| 0 <= k < |ops| && GotPast(ops[k], nodeID, kind) &&
               forall j :: k < j < |ops| ==> ops[j] != Unregistered(nodeID);
      var last := LastOf(ops, nodeID, k);
      assert ops[last].Registered?;
    }
    if k :| 0 <= k < |ops| && ops[k].Registered? && ops[k].nodeID == nodeID &&
            forall j :: k < j < |ops| ==> ops[j].nodeID != nodeID {
      assert GotPast(ops[k], nodeID, kind);
    }
  }

  lemma WantedOnceRegistered(ops: seq<NodeOp>, nodeID: string)
    requires AllGoThrough(ops)
    ensures Wanted(ops, nodeID, BatchInstallBiz) <==> EverRegistered(ops, nodeID)
  {
    if k :| 0 <= k < |ops| && ops[k].Registered? && ops[k].nodeID == nodeID {
      assert GotPast(ops[k], nodeID, BatchInstallBiz);
    }
  }

  /**
   While every registration goes through: four topics are subscribed exactly while the node's last
   operation is a registration, the batch-install topic from its first registration on, for good.
   */
  lemma {:induction false} LifecycleOfSuccesses(env: string, ops: seq<NodeOp>, nodeID: string)
    requires forall k :: 0 <= k < |ops| && ops[k].Registered? ==> ops[k].reached == 5
    ensures Topic(env, nodeID, Health) in History(env, ops) <==> LastIsRegistration(ops, nodeID)
    ensures Topic(env, nodeID, SimpleBiz) in History(env, ops) <==> LastIsRegistration(ops, nodeID)
    ensures Topic(env, nodeID, AllBiz) in History(env, ops) <==> LastIsRegistration(ops, nodeID)
    ensures Topic(env, nodeID, BizOperation) in History(env, ops) <==> LastIsRegistration(ops, nodeID)
    ensures Topic(env, nodeID, BatchInstallBiz) in History(env, ops) <==> EverRegistered(ops, nodeID)
    ensures Topic(env, nodeID, Baseline) !in History(env, ops)
  {
    forall kind: Kind
      ensures Topic(env, nodeID, kind) in History(env, ops) <==> Wanted(ops, nodeID, kind)
    {
      SubscribedIffWanted(env, ops, nodeID, kind);
    }
    WantedWhileRegistered(ops, nodeID, Health);
    WantedWhileRegistered(ops, nodeID, SimpleBiz);
    WantedWhileRegistered(ops, nodeID, AllBiz);
    WantedWhileRegistered(ops, nodeID, BizOperation);
    WantedOnceRegistered(ops, nodeID);
  }

  /** A message on a subscribed topic goes to the callback of its kind, which finds its base again. */
  lemma MessagesFindTheirBase(env: string, ops: seq<NodeOp>, nodeID: string, kind: Kind)
    requires SlashFree(env) && SlashFree(nodeID) && Wanted(ops, nodeID, kind)
    ensures var topic := Topic(env, nodeID, kind);
            && topic in History(env, ops) && History(env, ops)[topic] == kind
            && GetBaseIdentityFromTopic(topic) == nodeID
  {
    SubscribedIffWanted(env, ops, nodeID, kind);
    TopicIsCommandTopic(env, nodeID, kind);
    CommandTopicText(env, nodeID, "base" + "/" + kind.Level());
    IdentityInvertsTopic(env, nodeID, "base" + "/" + kind.Level());
  }

  // ---------- the tunnel ----------

  class MqttTunnel {
    const naming: Naming
    const env: string
    var subscriptions: Subscriptions
    ghost var history: seq<NodeOp>

    ghost predicate Valid()
      reads this
    {
      subscriptions == History(env, history)
    }

    constructor (naming: Naming, env: string)
      ensures Valid() && history == [] && this.naming == naming && this.env == env
    {
      this.naming := naming;
      this.env := env;
      subscriptions := map[];
      history := [];
    }

    /** Whether the broker accepts is not the tunnel's to say. */
    method Sub(topic: string, callback: Callback, accepted: bool) returns (err: bool)
      modifies this`subscriptions
      ensures err == !accepted
      ensures subscriptions == if accepted then old(subscriptions)[topic := callback] else old(subscriptions)
    {
      if accepted {
        subscriptions := subscriptions[topic := callback];
      }
      err := !accepted;
    }

    method UnSub(topic: string)
      modifies this`subscriptions
      ensures subscriptions == old(subscriptions) - {topic}
    {
      subscriptions := subscriptions - {topic};
    }

    /** Stops at the first refused topic and leaves the earlier ones subscribed. */
    method RegisterNode(nodeInfo: NodeInfo, accepted: seq<bool>) returns (err: bool, ghost reached: nat)
      requires Valid() && |accepted| == 5
      modifies this
      ensures Valid()
      ensures history == old(history) + [Registered(naming.extract(nodeInfo.name), reached)]
      ensures reached <= 5 && (forall i :: 0 <= i < reached ==> accepted[i]) && (reached < 5 ==> !accepted[reached])
      ensures err <==> reached < 5
      ensures var id := naming.extract(nodeInfo.name);
              var one := old(subscriptions)[Topic(env, id, Health) := Health];
              var two := one[Topic(env, id, SimpleBiz) := SimpleBiz];
              var three := two[Topic(env, id, AllBiz) := AllBiz];
              var four := three[Topic(env, id, BizOperation) := BizOperation];
              var five := four[Topic(env, id, BatchInstallBiz) := BatchInstallBiz];
              (subscriptions, err) ==
              if !accepted[0] then (old(subscriptions), true)
              else if !accepted[1] then (one, true)
              else if !accepted[2] then (two, true)
              else if !accepted[3] then (three, true)
              else if !accepted[4] then (four, true)
              else (five, false)
    {
      var nodeID := naming.extract(nodeInfo.name);
      ghost var before := subscriptions;
      reached := Attempts(accepted);
      history := history + [Registered(nodeID, reached)];
      assert history[..|history| - 1] == old(history);

      err := Sub(Topic(env, nodeID, Health), Health, accepted[0]);
      assert subscriptions == Subscribe(before, env, nodeID, if err then 0 else 1);
      if err {
        return;
      }

      err := Sub(Topic(env, nodeID, SimpleBiz), SimpleBiz, accepted[1]);
      assert subscriptions == Subscribe(before, env, nodeID, if err then 1 else 2);
      if err {
        return;
      }

      err := Sub(Topic(env, nodeID, AllBiz), AllBiz, accepted[2]);
      assert subscriptions == Subscribe(before, env, nodeID, if err then 2 else 3);
      if err {
        return;
      }

      err := Sub(Topic(env, nodeID, BizOperation), BizOperation, accepted[3]);
      assert subscriptions == Subscribe(before, env, nodeID, if err then 3 else 4);
      if err {
        return;
      }

      err := Sub(Topic(env, nodeID, BatchInstallBiz), BatchInstallBiz, accepted[4]);
      assert subscriptions == Subscribe(before, env, nodeID, if err then 4 else 5);
    }

    method UnRegisterNode(nodeName: string)
      requires Valid()
      modifies this
      ensures Valid() && history == old(history) + [Unregistered(naming.extract(nodeName))]
      ensures var id := naming.extract(nodeName);
              subscriptions == old(subscriptions) - {Topic(env, id, Health), Topic(env, id, SimpleBiz),
                                                     Topic(env, id, AllBiz), Topic(env, id, BizOperation)}
    {
      var nodeID := naming.extract(nodeName);
      ghost var before := subscriptions;
      UnSub(Topic(env, nodeID, Health));
      assert subscriptions == Unsubscribe(before, env, nodeID, 1);
      UnSub(Topic(env, nodeID, SimpleBiz));
      assert subscriptions == Unsubscribe(before, env, nodeID, 2);
      UnSub(Topic(env, nodeID, AllBiz));
      assert subscriptions == Unsubscribe(before, env, nodeID, 3);
      UnSub(Topic(env, nodeID, BizOperation));
      assert subscriptions == Unsubscribe(before, env, nodeID, 4);
      UnsubscribedTopics(before, env, nodeID);
      history := history + [Unregistered(nodeID)];
      assert history[..|history| - 1] == old(history);
    }
  }
}
