/**
 The HTTP tunnel's table and biz commands, and the base it talks to, each proved against its
 history; and their agreement: what the tunnel reports is what was started and not stopped since.
 */
module HttpTunnels {
  import opened Options
  import opened Cluster
  import opened BaseStatuses
  import opened BaseHistory
  import opened BizStatuses
  import opened Decimal

  // ---------- the base ----------

  datatype BizOp = Start(name: string, version: string) | Stop(name: string, version: string) {
    function Key(): string {
      BizIdentity(name, version)
    }
  }

  function FreshInfo(name: string, version: string): BizInfo {
    BizInfo(name, version, ACTIVATED, [StateRecord(1234, ACTIVATED, "", "")])
  }

  type BizTable = map<string, BizInfo>

  /** Installing what is there already changes nothing; uninstalling what is not, neither. */
  function Operate(table: BizTable, op: BizOp): BizTable {
    match op
    case Start(name, version) => if op.Key() in table then table else table[op.Key() := FreshInfo(name, version)]
    case Stop(_, _) => table - {op.Key()}
  }

  function Installed(ops: seq<BizOp>): BizTable {
    if ops == [] then map[] else Operate(Installed(ops[..|ops| - 1]), ops[|ops| - 1])
  }

  // ---------- what is installed, told from the history ----------

  /** A biz under this identity was started and none was stopped since. */
  ghost predicate IdentityStarted(ops: seq<BizOp>, key: string) {
    exists i :: 0 <= i < |ops| && ops[i].Start? && ops[i].name + ":" + ops[i].version == key &&
                forall j :: i < j < |ops| && ops[j].Stop? ==> ops[j].name + ":" + ops[j].version != key
  }

  /** This version of this biz was started and not stopped since; other versions do not matter. */
  ghost predicate StartedNotStopped(ops: seq<BizOp>, name: string, version: string) {
    exists i :: 0 <= i < |ops| && ops[i] == Start(name, version) &&
                forall j :: i < j < |ops| ==> ops[j] != Stop(name, version)
  }

  ghost predicate NamesAreColonFree(ops: seq<BizOp>) {
    forall i :: 0 <= i < |ops| ==> ColonFree(ops[i].name)
  }

  lemma StartedStep(before: seq<BizOp>, op: BizOp, key: string)
    ensures IdentityStarted(before + [op], key) <==>
            (op.Start? && op.Key() == key) || (IdentityStarted(before, key) && !(op.Stop? && op.Key() == key))
  {
    var ops := before + [op];
    if op.Start? && op.Key() == key {
      assert ops[|before|] == op;
    } else if IdentityStarted(before, key) && !(op.Stop? && op.Key() == key) {
      var i :| 0 <= i < |before| && before[i].Start? && before[i].name + ":" + before[i].version == key &&
               forall j :: i < j < |before| && before[j].Stop? ==> before[j].name + ":" + before[j].version != key;
      assert ops[i] == before[i];
    }
    if IdentityStarted(ops, key) {
      var i :| 0 <= i < |ops| && ops[i].Start? && ops[i].name + ":" + ops[i].version == key &&
               forall j :: i < j < |ops| && ops[j].Stop? ==> ops[j].name + ":" + ops[j].version != key;
      assert ops[|before|] == op;
      if i < |before| {
        assert before[i] == ops[i];
        assert forall j :: i < j < |before| ==> before[j] == ops[j];
      }
    }
  }

  /** For any names and versions at all: the table's keys are the identities started and not stopped. */
  lemma {:induction false} InstalledIsStarted(ops: seq<BizOp>, key: string)
    ensures key in Installed(ops) <==> IdentityStarted(ops, key)
    decreases |ops|
  {
    if ops != [] {
      var before, op := ops[..|ops| - 1], ops[|ops| - 1];
      InstalledIsStarted(before, key);
      StartedStep(before, op, key);
      assert ops == before + [op];
    }
  }

  lemma StartIsRemembered(ops: seq<BizOp>, name: string, version: string)
    ensures StartedNotStopped(ops + [Start(name, version)], name, version)
    ensures forall n, v :: StartedNotStopped(ops, n, v) ==> StartedNotStopped(ops + [Start(name, version)], n, v)
  {
    var more := ops + [Start(name, version)];
    assert more[|ops|] == Start(name, version);
    forall n, v | StartedNotStopped(ops, n, v)
      ensures StartedNotStopped(more, n, v)
    {
      var i :| 0 <= i < |ops| && ops[i] == Start(n, v) && forall j :: i < j < |ops| ==> ops[j] != Stop(n, v);
      assert more[i] == Start(n, v);
    }
  }

  /** With colon-free names an identity stands for one version of one biz. */
  lemma IdentityIsPair(ops: seq<BizOp>, name: string, version: string)
    requires NamesAreColonFree(ops) && ColonFree(name)
    ensures IdentityStarted(ops, name + ":" + version) <==> StartedNotStopped(ops, name, version)
  {
    forall i | 0 <= i < |ops|
      ensures ops[i].name + ":" + ops[i].version == name + ":" + version <==>
              ops[i].name == name && ops[i].version == version
    {
      IdentityTells(ops[i].name, ops[i].version, name, version);
    }
  }

  /** A version of a biz is installed if and only if it was started and not stopped since. */
  lemma VersionInstalledIffStarted(ops: seq<BizOp>, name: string, version: string)
    requires NamesAreColonFree(ops) && ColonFree(name)
    ensures name + ":" + version in Installed(ops) <==> StartedNotStopped(ops, name, version)
  {
    InstalledIsStarted(ops, name + ":" + version);
    IdentityIsPair(ops, name, version);
  }

  /** Only its own stop takes an installed version out, in particular not the stop of another version. */
  lemma OnlyItsOwnStop(ops: seq<BizOp>, name: string, version: string, op: BizOp)
    requires ColonFree(name) && ColonFree(op.name) && name + ":" + version in Installed(ops)
    ensures name + ":" + version !in Installed(ops + [op]) <==> op == Stop(name, version)
  {
    assert (ops + [op])[..|ops|] == ops;
    IdentityTells(op.name, op.version, name, version);
  }

  /**
   Each key is the name and version of its value, which was started, and every biz is as a fresh
   install leaves it.
   */
  lemma {:induction false} KeysMatch(ops: seq<BizOp>, key: string)
    requires key in Installed(ops)
    ensures var info := Installed(ops)[key];
            && key == info.name + ":" + info.version && Start(info.name, info.version) in ops
            && info == BizInfo(info.name, info.version, "ACTIVATED", [StateRecord(1234, "ACTIVATED", "", "")])
    decreases |ops|
  {
    var before := ops[..|ops| - 1];
    if key in Installed(before) {
      KeysMatch(before, key);
    }
  }

  class MockHttpBase {
    const ip: string
    const port: int
    var reachable: bool
    var bizInfos: BizTable
    ghost var history: seq<BizOp>

    ghost predicate Valid()
      reads this
    {
      bizInfos == Installed(history)
    }

    constructor (ip: string, port: int)
      ensures Valid() && history == [] && reachable && this.ip == ip && this.port == port
    {
      this.ip := ip;
      this.port := port;
      reachable := true;
      bizInfos := map[];
      history := [];
    }

    method ProcessInstallBiz(name: string, version: string)
      requires Valid()
      modifies this`bizInfos, this`history
      ensures Valid() && history == old(history) + [Start(name, version)]
    {
      var identity := BizIdentity(name, version);
      if identity !in bizInfos {
        bizInfos := bizInfos[identity := FreshInfo(name, version)];
      }
      history := history + [Start(name, version)];
      assert history[..|history| - 1] == old(history);
    }

    method ProcessUnInstallBiz(name: string, version: string)
      requires Valid()
      modifies this`bizInfos, this`history
      ensures Valid() && history == old(history) + [Stop(name, version)]
    {
      bizInfos := bizInfos - {BizIdentity(name, version)};
      history := history + [Stop(name, version)];
      assert history[..|history| - 1] == old(history);
    }

    /** Every biz once, in no particular order. */
    method GetQueryAllBizMsg() returns (infos: seq<BizInfo>)
      ensures ListsTable(bizInfos, infos)
    {
      infos := [];
      ghost var keys := [];
      var rest := bizInfos.Keys;
      while rest != {}
        invariant rest <= bizInfos.Keys
        invariant |keys| == |infos|
        invariant forall i :: 0 <= i < |keys| ==> keys[i] in bizInfos.Keys - rest && infos[i] == bizInfos[keys[i]]
        invariant forall i, j :: 0 <= i < j < |keys| ==> keys[i] != keys[j]
        invariant forall key :: key in bizInfos && key !in rest ==> key in keys
        decreases rest
      {
        var key :| key in rest;
        infos := infos + [bizInfos[key]];
        keys := keys + [key];
        rest := rest - {key};
      }
      assert ListedUnder(bizInfos, infos, keys);
    }
  }

  /** Some order of all keys, each once, gives these values. */
  ghost predicate ListsTable(table: BizTable, infos: seq<BizInfo>) {
    exists keys :: ListedUnder(table, infos, keys)
  }

  ghost predicate ListedUnder(table: BizTable, infos: seq<BizInfo>, keys: seq<string>) {
    && |keys| == |infos|
    && (forall i :: 0 <= i < |keys| ==> keys[i] in table && infos[i] == table[keys[i]])
    && (forall i, j :: 0 <= i < j < |keys| ==> keys[i] != keys[j])
    && (forall key :: key in table ==> key in keys)
  }

  // ---------- the tunnel ----------

  datatype Outcome = Success | NetworkInfoNotFound | RequestFailed

  class HttpTunnel {
    const naming: Naming
    const env: string
    const base: MockHttpBase
    var nodeIdToBaseStatusMap: StatusTable
    var notified: seq<(string, BizStatusData)>
    ghost var history: seq<Op>

    ghost predicate Valid()
      reads this, base
    {
      nodeIdToBaseStatusMap == History(naming, history) && base.Valid()
    }

    constructor (naming: Naming, env: string, base: MockHttpBase)
      requires base.Valid()
      ensures Valid() && history == [] && notified == []
      ensures this.naming == naming && this.env == env && this.base == base
    {
      this.naming := naming;
      this.env := env;
      this.base := base;
      nodeIdToBaseStatusMap := map[];
      notified := [];
      history := [];
    }

    method HandleHeartbeat(data: BaseStatus) returns (discovered: NodeInfo)
      requires Valid()
      modifies this`nodeIdToBaseStatusMap, this`history
      ensures Valid() && history == old(history) + [Heartbeat(data)]
      ensures nodeIdToBaseStatusMap == old(nodeIdToBaseStatusMap)[data.metadata.identity := data]
      ensures discovered == ToNodeInfo(naming, data, env)
      ensures discovered == NodeInfo(
                naming.format(data.metadata.identity, env),
                data.metadata.name, data.metadata.clusterName, data.metadata.version, data.localIP, data.localHostName,
                if data.port == 0 then map[] else map["base.koupleless.io/tunnel-port" := Itoa(data.port)],
                if (&& |data.state| == 9
                    && forall i :: 0 <= i < 9 ==> data.state[i] == "ACTIVATED"[i] || data.state[i] == "activated"[i])
                then "ACTIVATED" else "DEACTIVATED")
    {
      nodeIdToBaseStatusMap := nodeIdToBaseStatusMap[data.metadata.identity := data];
      history := history + [Heartbeat(data)];
      assert history[..|history| - 1] == old(history);
      discovered := ToNodeInfo(naming, data, env);
      StateByLetters(data.state);
    }

    method RegisterNode(initData: NodeInfo)
      requires Valid()
      modifies this`nodeIdToBaseStatusMap, this`history
      ensures Valid() && history == old(history) + [Register(initData)]
      ensures var id := naming.extract(initData.name);
              && id in nodeIdToBaseStatusMap
              && nodeIdToBaseStatusMap == old(nodeIdToBaseStatusMap)[id := nodeIdToBaseStatusMap[id]]
              && if id in old(nodeIdToBaseStatusMap) then nodeIdToBaseStatusMap[id] == old(nodeIdToBaseStatusMap)[id]
                 else nodeIdToBaseStatusMap[id] == BaseStatus(
                   BaseMetadata(id, initData.version, initData.clusterName, ""), initData.nodeIP, initData.hostName,
                   if "base.koupleless.io/tunnel-port" in initData.customLabels
                      && Atoi(initData.customLabels["base.koupleless.io/tunnel-port"]).Some?
                   then Atoi(initData.customLabels["base.koupleless.io/tunnel-port"]).value else 1238,
                   initData.state)
    {
      var nodeID := naming.extract(initData.name);
      StatusOfRegistration(naming, initData);
      if nodeID !in nodeIdToBaseStatusMap {
        nodeIdToBaseStatusMap := nodeIdToBaseStatusMap[nodeID := FromNodeInfo(naming, initData)];
      }
      history := history + [Register(initData)];
      assert history[..|history| - 1] == old(history);
    }

    method UnRegisterNode(nodeName: string)
      requires Valid()
      modifies this`nodeIdToBaseStatusMap, this`history
      ensures Valid() && history == old(history) + [Unregister(nodeName)]
      ensures nodeIdToBaseStatusMap == old(nodeIdToBaseStatusMap) - {naming.extract(nodeName)}
    {
      nodeIdToBaseStatusMap := nodeIdToBaseStatusMap - {naming.extract(nodeName)};
      history := history + [Unregister(nodeName)];
      assert history[..|history| - 1] == old(history);
    }

    predicate Registered(nodeName: string)
      reads this
    {
      naming.extract(nodeName) in nodeIdToBaseStatusMap
    }

    /** A request to the registered address of this node arrives at the base. */
    predicate Reaches(nodeName: string)
      reads this, base
      requires Registered(nodeName)
    {
      var status := nodeIdToBaseStatusMap[naming.extract(nodeName)];
      base.reachable && status.localIP == base.ip && status.port == base.port
    }

    /** A successful install is announced; an unanswered command is announced as broken. */
    function Announcement(nodeName: string, name: string, version: string, state: string, now: int)
      : (string, BizStatusData)
    {
      (naming.format(naming.extract(nodeName), env),
       BizStatusData(BizIdentity(name, version), name, state, now,
                     if state == ACTIVATED then name + ":" + version + " installBiz succeed" else "", ""))
    }

    method StartBiz(nodeName: string, container: Container, now: int) returns (outcome: Outcome, ghost version: string)
      requires Valid()
      modifies base`bizInfos, base`history, this`notified
      ensures Valid() && IsBizVersion(container, version)
      ensures outcome ==
              var id := naming.extract(nodeName);
              if id !in nodeIdToBaseStatusMap then NetworkInfoNotFound
              else if (&& base.reachable
                       && nodeIdToBaseStatusMap[id].localIP == base.ip && nodeIdToBaseStatusMap[id].port == base.port)
              then Success else RequestFailed
      ensures base.history == old(base.history) + if outcome.Success? then [Start(container.name, version)] else []
      ensures notified == old(notified) +
                var node, key := naming.format(naming.extract(nodeName), env), container.name + ":" + version;
                match outcome
                case Success =>
                  [(node, BizStatusData(key, container.name, "ACTIVATED", now, key + " installBiz succeed", ""))]
                case RequestFailed => [(node, BizStatusData(key, container.name, "BROKEN", now, "", ""))]
                case NetworkInfoNotFound => []
    {
      var bizVersion := GetBizVersionFromContainer(container);
      version := bizVersion;
      if naming.extract(nodeName) !in nodeIdToBaseStatusMap {
        outcome := NetworkInfoNotFound;
      } else if Reaches(nodeName) {
        base.ProcessInstallBiz(container.name, bizVersion);
        notified := notified + [Announcement(nodeName, container.name, bizVersion, ACTIVATED, now)];
        outcome := Success;
      } else {
        notified := notified + [Announcement(nodeName, container.name, bizVersion, "BROKEN", now)];
        outcome := RequestFailed;
      }
    }

    /** A successful uninstall is logged only. */
    method StopBiz(nodeName: string, container: Container, now: int) returns (outcome: Outcome, ghost version: string)
      requires Valid()
      modifies base`bizInfos, base`history, this`notified
      ensures Valid() && IsBizVersion(container, version)
      ensures outcome ==
              var id := naming.extract(nodeName);
              if id !in nodeIdToBaseStatusMap then NetworkInfoNotFound
              else if (&& base.reachable
                       && nodeIdToBaseStatusMap[id].localIP == base.ip && nodeIdToBaseStatusMap[id].port == base.port)
              then Success else RequestFailed
      ensures base.history == old(base.history) + if outcome.Success? then [Stop(container.name, version)] else []
      ensures notified == old(notified) +
                if outcome.RequestFailed?
                then [(naming.format(naming.extract(nodeName), env),
                       BizStatusData(container.name + ":" + version, container.name, "BROKEN", now, "", ""))]
                else []
    {
      var bizVersion := GetBizVersionFromContainer(container);
      version := bizVersion;
      if naming.extract(nodeName) !in nodeIdToBaseStatusMap {
        outcome := NetworkInfoNotFound;
      } else if Reaches(nodeName) {
        base.ProcessUnInstallBiz(container.name, bizVersion);
        outcome := Success;
      } else {
        notified := notified + [Announcement(nodeName, container.name, bizVersion, "BROKEN", now)];
        outcome := RequestFailed;
      }
    }

    /**
     The fetch inside QueryAllBizStatusData: on success the callback is called once, with the node's
     formatted name and the base's bizs as container statuses.
     */
    method FetchAllBiz(nodeName: string, now: int)
      returns (outcome: Outcome, arrived: seq<(string, seq<BizStatusData>)>)
      requires Valid()
      ensures outcome ==
              var id := naming.extract(nodeName);
              if id !in nodeIdToBaseStatusMap then NetworkInfoNotFound
              else if (&& base.reachable
                       && nodeIdToBaseStatusMap[id].localIP == base.ip && nodeIdToBaseStatusMap[id].port == base.port)
              then Success else RequestFailed
      ensures if !outcome.Success? then arrived == []
              else && |arrived| == 1 && arrived[0].0 == naming.format(naming.extract(nodeName), env)
                   && ReportsIdentities(base.history, arrived[0].1)
                   && (NamesAreColonFree(base.history) ==> ReportsVersions(base.history, arrived[0].1))
    {
      var nodeID := naming.extract(nodeName);
      arrived := [];
      if nodeID !in nodeIdToBaseStatusMap {
        outcome := NetworkInfoNotFound;
      } else if Reaches(nodeName) {
        var infos := base.GetQueryAllBizMsg();
        var statuses := TranslateBizInfosToContainerStatuses(infos, now);
        TranslationReports(base.history, infos, now, statuses);
        if NamesAreColonFree(base.history) {
          IdentitiesAreVersions(base.history, statuses);
        }
        arrived := [(naming.format(nodeID, env), statuses)];
        outcome := Success;
      } else {
        outcome := RequestFailed;
      }
    }
  }

  /**
   A base from its heartbeat to its node's removal: a command under the announced name reaches it, what
   it runs is reported, and after the removal commands no longer find it.
   */
  method BaseComesAndGoes(tunnel: HttpTunnel, data: BaseStatus, container: Container, now: int)
    returns (started: Outcome, arrived: seq<(string, seq<BizStatusData>)>, afterwards: Outcome, ghost version: string)
    requires tunnel.Valid() && NameInverts(tunnel.naming, data.metadata.identity, tunnel.env)
    requires tunnel.base.reachable && data.localIP == tunnel.base.ip && data.port == tunnel.base.port
    modifies tunnel`nodeIdToBaseStatusMap, tunnel`history, tunnel`notified, tunnel.base`bizInfos, tunnel.base`history
    ensures tunnel.Valid() && data.metadata.identity !in tunnel.nodeIdToBaseStatusMap
    ensures started == Success && afterwards == NetworkInfoNotFound && IsBizVersion(container, version)
    ensures tunnel.base.history == old(tunnel.base.history) + [Start(container.name, version)]
    ensures NamesAreColonFree(tunnel.base.history) ==>
              && arrived != [] && arrived[0].0 == tunnel.naming.format(data.metadata.identity, tunnel.env)
              && Report(container.name, version) in arrived[0].1
              && forall name, v :: StartedNotStopped(old(tunnel.base.history), name, v) ==>
                   Report(name, v) in arrived[0].1
  {
    var node := tunnel.HandleHeartbeat(data);
    started, version := tunnel.StartBiz(node.name, container, now);
    ghost var ops := tunnel.base.history;
    var outcome;
    outcome, arrived := tunnel.FetchAllBiz(node.name, now);
    if NamesAreColonFree(ops) {
      StartIsRemembered(old(tunnel.base.history), container.name, version);
      assert ReportsVersions(ops, arrived[0].1);
    }
    tunnel.UnRegisterNode(node.name);
    ghost var again;
    afterwards, again := tunnel.StopBiz(node.name, container, now);
  }

  // ---------- agreement ----------

  function Report(name: string, version: string): BizStatusData {
    BizStatusData(name + ":" + version, name, "ACTIVATED", 1234, "", "")
  }

  ghost predicate ReportsAStart(ops: seq<BizOp>, status: BizStatusData) {
    exists version :: Start(status.name, version) in ops && status == Report(status.name, version)
  }

  ghost predicate ReportsAVersion(ops: seq<BizOp>, status: BizStatusData) {
    exists version :: StartedNotStopped(ops, status.name, version) && status == Report(status.name, version)
  }

  /** Each identity started and not since stopped is reported once, activated, under the name it was started with. */
  ghost predicate ReportsIdentities(ops: seq<BizOp>, statuses: seq<BizStatusData>) {
    && (forall i, j :: 0 <= i < j < |statuses| ==> statuses[i].key != statuses[j].key)
    && (forall key :: IdentityStarted(ops, key) <==> exists i :: 0 <= i < |statuses| && statuses[i].key == key)
    && (forall i :: 0 <= i < |statuses| ==> ReportsAStart(ops, statuses[i]))
  }

  /** The reports are exactly those of the versions started and not since stopped, each once. */
  ghost predicate ReportsVersions(ops: seq<BizOp>, statuses: seq<BizStatusData>) {
    && (forall i, j :: 0 <= i < j < |statuses| ==> statuses[i].key != statuses[j].key)
    && (forall i :: 0 <= i < |statuses| ==> ReportsAVersion(ops, statuses[i]))
    && (forall name, version :: StartedNotStopped(ops, name, version) ==> Report(name, version) in statuses)
  }

  lemma FreshInfoTranslates(name: string, version: string, fallback: int, status: BizStatusData)
    requires Translates(FreshInfo(name, version), fallback, status)
    ensures status == Report(name, version)
  {
    assert FreshInfo(name, version).records[0].changeTime == 1234;
  }

  /** Status i of the translation is the report of the biz listed under key i. */
  lemma TranslationOf(ops: seq<BizOp>, info: BizInfo, key: string, fallback: int, status: BizStatusData)
    requires key in Installed(ops) && Installed(ops)[key] == info && Translates(info, fallback, status)
    ensures status.key == key && ReportsAStart(ops, status)
  {
    KeysMatch(ops, key);
    FreshInfoTranslates(info.name, info.version, fallback, status);
    assert Start(status.name, info.version) in ops;
  }

  lemma TranslationReports(ops: seq<BizOp>, infos: seq<BizInfo>, fallback: int, statuses: seq<BizStatusData>)
    requires ListsTable(Installed(ops), infos) && |statuses| == |infos|
    requires forall i :: 0 <= i < |infos| ==> Translates(infos[i], fallback, statuses[i])
    ensures ReportsIdentities(ops, statuses)
  {
    var keys :| ListedUnder(Installed(ops), infos, keys);
    forall i | 0 <= i < |statuses|
      ensures statuses[i].key == keys[i] && ReportsAStart(ops, statuses[i])
    {
      TranslationOf(ops, infos[i], keys[i], fallback, statuses[i]);
    }
    forall key
      ensures IdentityStarted(ops, key) <==> exists i :: 0 <= i < |statuses| && statuses[i].key == key
    {
      InstalledIsStarted(ops, key);
      if key in keys {
        var i :| 0 <= i < |keys| && keys[i] == key;
        assert statuses[i].key == key;
      }
    }
  }

  lemma ReportIsOfVersion(ops: seq<BizOp>, statuses: seq<BizStatusData>, i: nat)
    requires ReportsIdentities(ops, statuses) && NamesAreColonFree(ops) && i < |statuses|
    ensures ColonFree(statuses[i].name)
    ensures ReportsAVersion(ops, statuses[i])
  {
    var name := statuses[i].name;
    var version :| Start(name, version) in ops && statuses[i] == Report(name, version);
    var k :| 0 <= k < |ops| && ops[k] == Start(name, version);
    assert ColonFree(ops[k].name);
    assert IdentityStarted(ops, name + ":" + version);
    IdentityIsPair(ops, name, version);
  }

  /** With colon-free names the reported identities are versions. */
  lemma IdentitiesAreVersions(ops: seq<BizOp>, statuses: seq<BizStatusData>)
    requires ReportsIdentities(ops, statuses) && NamesAreColonFree(ops)
    ensures ReportsVersions(ops, statuses)
  {
    forall i | 0 <= i < |statuses|
      ensures ReportsAVersion(ops, statuses[i])
    {
      ReportIsOfVersion(ops, statuses, i);
    }
    forall name, version | StartedNotStopped(ops, name, version)
      ensures Report(name, version) in statuses
    {
      VersionIsReported(ops, statuses, name, version);
    }
  }

  lemma VersionIsReported(ops: seq<BizOp>, statuses: seq<BizStatusData>, name: string, version: string)
    requires ReportsIdentities(ops, statuses) && NamesAreColonFree(ops) && StartedNotStopped(ops, name, version)
    ensures Report(name, version) in statuses
  {
    var k :| 0 <= k < |ops| && ops[k] == Start(name, version);
    assert ColonFree(ops[k].name);
    IdentityIsPair(ops, name, version);
    var i :| 0 <= i < |statuses| && statuses[i].key == name + ":" + version;
    ReportIsOfVersion(ops, statuses, i);
    var version' :| StartedNotStopped(ops, statuses[i].name, version') &&
                    statuses[i] == Report(statuses[i].name, version');
    IdentityTells(statuses[i].name, version', name, version);
  }
}
