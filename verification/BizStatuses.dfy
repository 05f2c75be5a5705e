/** From the biz records a base reports to the container statuses handed on. */
module BizStatuses {
  import opened Cluster

  datatype StateRecord = StateRecord(changeTime: int, state: string, reason: string, message: string)

  datatype BizInfo = BizInfo(name: string, version: string, state: string, records: seq<StateRecord>)

  datatype SimpleBizInfo = SimpleBizInfo(name: string, version: string, state: string, latest: StateRecord)

  datatype BizStatusData = BizStatusData(
    key: string,
    name: string,
    state: string,
    changeTime: int,
    reason: string,
    message: string)

  function BizIdentity(name: string, version: string): string {
    name + ":" + version
  }

  predicate ColonFree(s: string) {
    ':' !in s
  }

  /** The longer of two names continues the shorter one past a colon, which its version makes up for. */
  ghost predicate Runs(name: string, version: string, name': string, version': string) {
    exists middle :: name' == name + ":" + middle && version == middle + ":" + version'
  }

  /** Exactly when two bizs share an identity. */
  lemma SharedIdentity(name: string, version: string, name': string, version': string)
    ensures name + ":" + version == name' + ":" + version' <==>
            || (name == name' && version == version')
            || Runs(name, version, name', version') || Runs(name', version', name, version)
  {
    if name + ":" + version == name' + ":" + version' {
      if |name| <= |name'| {
        SharedRuns(name, version, name', version');
      } else {
        SharedRuns(name', version', name, version);
      }
    }
    forall middle | name' == name + ":" + middle && version == middle + ":" + version'
      ensures name + ":" + version == name' + ":" + version'
    {
      assert name + ":" + (middle + ":" + version') == (name + ":" + middle) + ":" + version';
    }
    forall middle | name == name' + ":" + middle && version' == middle + ":" + version
      ensures name + ":" + version == name' + ":" + version'
    {
      assert name' + ":" + (middle + ":" + version) == (name' + ":" + middle) + ":" + version;
    }
  }

  lemma SharedRuns(name: string, version: string, name': string, version': string)
    requires name + ":" + version == name' + ":" + version' && |name| <= |name'|
    ensures (name == name' && version == version') || Runs(name, version, name', version')
  {
    var s := name + ":" + version;
    assert s == name' + ":" + version';
    assert name == s[..|name|] && name' == s[..|name'|];
    assert version == s[|name| + 1..] && version' == s[|name'| + 1..];
    if |name| < |name'| {
      var middle := s[|name| + 1..|name'|];
      assert s[|name|] == ':' && s[|name'|] == ':';
      assert name' == name + ":" + middle;
      assert version == middle + ":" + version';
    }
  }

  /** Bizs whose names hold no colon share an identity only if they are the same. */
  lemma IdentityTells(name: string, version: string, name': string, version': string)
    requires ColonFree(name) && ColonFree(name')
    ensures name + ":" + version == name' + ":" + version' <==> name == name' && version == version'
  {
    SharedIdentity(name, version, name', version');
    if Runs(name, version, name', version') {
      RunsPastColon(name, version, name', version');
    } else if Runs(name', version', name, version) {
      RunsPastColon(name', version', name, version);
    }
  }

  lemma RunsPastColon(name: string, version: string, name': string, version': string)
    requires Runs(name, version, name', version')
    ensures !ColonFree(name')
  {
    assert name'[|name|] == ':';
  }

  /** The value of the first BIZ_VERSION variable, or "". */
  ghost predicate IsBizVersion(container: Container, version: string) {
    || (version == "" && forall i :: 0 <= i < |container.env| ==> container.env[i].0 != "BIZ_VERSION")
    || (exists i :: 0 <= i < |container.env| && container.env[i] == ("BIZ_VERSION", version) &&
                    forall j :: 0 <= j < i ==> container.env[j].0 != "BIZ_VERSION")
  }

  method GetBizVersionFromContainer(container: Container) returns (bizVersion: string)
    ensures IsBizVersion(container, bizVersion)
  {
    bizVersion := "";
    for i := 0 to |container.env|
      invariant bizVersion == ""
      invariant forall j :: 0 <= j < i ==> container.env[j].0 != "BIZ_VERSION"
    {
      if container.env[i].0 == "BIZ_VERSION" {
        bizVersion := container.env[i].1;
        assert container.env[i] == ("BIZ_VERSION", bizVersion);
        break;
      }
    }
  }

  // ---------- the latest state ----------

  /** Record i has the greatest positive time, and is the first to have it. */
  ghost predicate LatestAt(records: seq<StateRecord>, i: nat) {
    && i < |records| && records[i].changeTime > 0
    && (forall j :: 0 <= j < |records| ==> records[j].changeTime <= records[i].changeTime)
    && (forall j :: 0 <= j < i ==> records[j].changeTime < records[i].changeTime)
  }

  ghost predicate NonePositive(records: seq<StateRecord>) {
    forall j :: 0 <= j < |records| ==> records[j].changeTime <= 0
  }

  ghost predicate TakenFrom(records: seq<StateRecord>, i: nat, time: int, reason: string, message: string) {
    LatestAt(records, i) &&
    time == records[i].changeTime && reason == records[i].reason && message == records[i].message
  }

  ghost predicate IsLatest(records: seq<StateRecord>, time: int, reason: string, message: string) {
    || (NonePositive(records) && time == 0 && reason == "" && message == "")
    || (exists i: nat :: TakenFrom(records, i, time, reason, message))
  }

  method GetLatestState(records: seq<StateRecord>) returns (latestStateTime: int, reason: string, message: string)
    ensures IsLatest(records, latestStateTime, reason, message)
  {
    latestStateTime, reason, message := 0, "", "";
    for i := 0 to |records|
      invariant IsLatest(records[..i], latestStateTime, reason, message)
    {
      ghost var seen := records[..i + 1];
      assert seen == records[..i] + [records[i]];
      var changeTime := records[i].changeTime;
      if changeTime > latestStateTime {
        latestStateTime := changeTime;
        reason := records[i].reason;
        message := records[i].message;
        assert TakenFrom(seen, i, latestStateTime, reason, message);
      } else if !NonePositive(records[..i]) {
        ghost var k: nat :| TakenFrom(records[..i], k, latestStateTime, reason, message);
        assert TakenFrom(seen, k, latestStateTime, reason, message);
      }
    }
    assert records[..|records|] == records;
  }

  /** Records made at one positive time tell the same story. */
  ghost predicate TimesTell(records: seq<StateRecord>) {
    forall i, j :: 0 <= i < |records| && 0 <= j < |records| &&
                   records[i].changeTime == records[j].changeTime > 0 ==>
                   records[i].reason == records[j].reason && records[i].message == records[j].message
  }

  /** Distinct times are enough for that. */
  lemma DistinctTimesTell(records: seq<StateRecord>)
    requires forall i, j :: 0 <= i < j < |records| ==> records[i].changeTime != records[j].changeTime
    ensures TimesTell(records)
  {
  }

  /** The latest state does not depend on the order the records come in. */
  lemma LatestIgnoresOrder(a: seq<StateRecord>, b: seq<StateRecord>, t: int, r: string, m: string,
                           t': int, r': string, m': string)
    requires multiset(a) == multiset(b) && TimesTell(a)
    requires IsLatest(a, t, r, m) && IsLatest(b, t', r', m')
    ensures t == t' && r == r' && m == m'
  {
    SameMembers(a, b);
    if NonePositive(a) {
      assert forall j :: 0 <= j < |b| ==> b[j] in a;
    } else {
      var i: nat :| TakenFrom(a, i, t, r, m);
      assert a[i] in b;
      var k: nat :| TakenFrom(b, k, t', r', m');
      assert b[k] in a;
      var j :| 0 <= j < |a| && a[j] == b[k];
    }
  }

  lemma SameMembers<T>(a: seq<T>, b: seq<T>)
    requires multiset(a) == multiset(b)
    ensures forall x :: x in a <==> x in b
  {
    assert forall x :: x in a <==> x in multiset(a);
    assert forall x :: x in b <==> x in multiset(b);
  }

  // ---------- translation ----------

  /** The fallback time stands in for a record time only when no record time is positive. */
  ghost predicate Translates(info: BizInfo, fallback: int, status: BizStatusData) {
    && status.key == info.name + ":" + info.version && status.name == info.name && status.state == info.state
    && if NonePositive(info.records)
       then status.changeTime == fallback && status.reason == "" && status.message == ""
       else IsLatest(info.records, status.changeTime, status.reason, status.message)
  }

  method TranslateBizInfosToContainerStatuses(data: seq<BizInfo>, changeTimestamp: int)
    returns (ret: seq<BizStatusData>)
    ensures |ret| == |data|
    ensures forall i :: 0 <= i < |data| ==> Translates(data[i], changeTimestamp, ret[i])
  {
    ret := [];
    for i := 0 to |data|
      invariant |ret| == i
      invariant forall k :: 0 <= k < i ==> Translates(data[k], changeTimestamp, ret[k])
    {
      var updatedTime, reason, message := GetLatestState(data[i].records);
      var statusData := BizStatusData(BizIdentity(data[i].name, data[i].version), data[i].name, data[i].state,
                                      changeTimestamp, "", "");
      if updatedTime != 0 {
        statusData := statusData.(changeTime := updatedTime, reason := reason, message := message);
      }
      ret := ret + [statusData];
    }
  }

  method TranslateSimpleBizDataToBizInfos(data: seq<SimpleBizInfo>) returns (ret: seq<BizInfo>)
    ensures |ret| == |data|
    ensures forall i :: 0 <= i < |data| ==>
              ret[i] == BizInfo(data[i].name, data[i].version, data[i].state, [data[i].latest])
  {
    ret := [];
    for i := 0 to |data|
      invariant |ret| == i
      invariant forall k :: 0 <= k < i ==>
                  ret[k] == BizInfo(data[k].name, data[k].version, data[k].state, [data[k].latest])
    {
      ret := ret + [BizInfo(data[i].name, data[i].version, data[i].state, [data[i].latest])];
    }
  }

  /** Both translations in a row: the one record, if its time is positive, else the fallback. */
  lemma SimpleDataTranslates(simple: SimpleBizInfo, fallback: int, status: BizStatusData)
    requires Translates(BizInfo(simple.name, simple.version, simple.state, [simple.latest]), fallback, status)
    ensures status ==
            if simple.latest.changeTime > 0
            then BizStatusData(simple.name + ":" + simple.version, simple.name, simple.state,
                               simple.latest.changeTime, simple.latest.reason, simple.latest.message)
            else BizStatusData(simple.name + ":" + simple.version, simple.name, simple.state, fallback, "", "")
  {
    assert [simple.latest][0] == simple.latest;
  }

  /** What a status says is a function of the info and the fallback. */
  lemma TranslationIsUnique(info: BizInfo, fallback: int, a: BizStatusData, b: BizStatusData)
    requires Translates(info, fallback, a) && Translates(info, fallback, b)
    ensures a == b
  {
  }
}
