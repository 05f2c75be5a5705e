/** The two conversions between what a base reports about itself and what its node registers with. */
module BaseStatuses {
  import opened Options
  import opened Decimal

  const TUNNEL_PORT_LABEL := "base.koupleless.io/tunnel-port"
  const DEFAULT_PORT := 1238
  const ACTIVATED := "ACTIVATED"
  const DEACTIVATED := "DEACTIVATED"

  datatype BaseMetadata = BaseMetadata(identity: string, version: string, clusterName: string, name: string)

  datatype BaseStatus = BaseStatus(
    metadata: BaseMetadata,
    localIP: string,
    localHostName: string,
    port: int,
    state: string)

  datatype NodeInfo = NodeInfo(
    name: string,
    baseName: string,
    clusterName: string,
    version: string,
    nodeIP: string,
    hostName: string,
    customLabels: map<string, string>,
    state: string)

  /** How node names are made from node IDs and taken apart again; left to the naming library. */
  datatype Naming = Naming(format: (string, string) -> string, extract: string -> string)

  function Upper(c: char): char {
    if 'a' <= c <= 'z' then c - 'a' + 'A' else c
  }

  /** Equality up to case; the letters of ACTIVATED have no case variants outside ASCII. */
  predicate EqualFold(s: string, t: string) {
    |s| == |t| && forall i :: 0 <= i < |s| ==> Upper(s[i]) == Upper(t[i])
  }

  function NodeState(state: string): string {
    if EqualFold(state, ACTIVATED) then ACTIVATED else DEACTIVATED
  }

  function ToNodeInfo(naming: Naming, data: BaseStatus, env: string): NodeInfo {
    NodeInfo(
      naming.format(data.metadata.identity, env),
      data.metadata.name,
      data.metadata.clusterName,
      data.metadata.version,
      data.localIP,
      data.localHostName,
      if data.port != 0 then map[TUNNEL_PORT_LABEL := Itoa(data.port)] else map[],
      NodeState(data.state))
  }

  function FromNodeInfo(naming: Naming, info: NodeInfo): BaseStatus {
    var portText := if TUNNEL_PORT_LABEL in info.customLabels then info.customLabels[TUNNEL_PORT_LABEL] else "";
    var port := match Atoi(portText) case Some(n) => n case None => DEFAULT_PORT;
    BaseStatus(
      BaseMetadata(naming.extract(info.name), info.version, info.clusterName, ""),
      info.nodeIP, info.hostName, port, info.state)
  }

  /** Letter by letter, in either case. */
  lemma StateByLetters(state: string)
    ensures NodeState(state) ==
            if |state| == 9 && (forall i :: 0 <= i < 9 ==> state[i] == "ACTIVATED"[i] || state[i] == "activated"[i])
            then "ACTIVATED" else "DEACTIVATED"
  {
    assert forall c :: Upper(c) == c || Upper(c) == c - 'a' + 'A';
    assert forall i :: 0 <= i < 9 ==> "ACTIVATED"[i] == "activated"[i] - 'a' + 'A';
  }

  /** A registration's port is the label's, if it is there and a number, and the default one otherwise. */
  lemma StatusOfRegistration(naming: Naming, info: NodeInfo)
    ensures FromNodeInfo(naming, info) == BaseStatus(
              BaseMetadata(naming.extract(info.name), info.version, info.clusterName, ""), info.nodeIP, info.hostName,
              if "base.koupleless.io/tunnel-port" in info.customLabels
                 && Atoi(info.customLabels["base.koupleless.io/tunnel-port"]).Some?
              then Atoi(info.customLabels["base.koupleless.io/tunnel-port"]).value else 1238,
              info.state)
  {
    assert Atoi("") == None;
  }

  function ThereAndBack(naming: Naming, data: BaseStatus, env: string): BaseStatus {
    FromNodeInfo(naming, ToNodeInfo(naming, data, env))
  }

  /** The naming takes this node's name apart into the ID it was made from. */
  predicate NameInverts(naming: Naming, identity: string, env: string) {
    naming.extract(naming.format(identity, env)) == identity
  }

  /**
   The trip restores identity, version, cluster, IP, host and every nonzero port, turns port 0
   into the default one, drops the base's name and normalises the state.
   */
  lemma RoundTrip(naming: Naming, data: BaseStatus, env: string)
    requires NameInverts(naming, data.metadata.identity, env) && IsInt(data.port)
    ensures ThereAndBack(naming, data, env) ==
            data.(metadata := data.metadata.(name := ""),
                  port := if data.port == 0 then DEFAULT_PORT else data.port,
                  state := NodeState(data.state))
  {
    AtoiInvertsItoa(data.port);
    assert Atoi("") == None;
  }

  lemma StateIsNormal(state: string)
    ensures NodeState(NodeState(state)) == NodeState(state)
    ensures NodeState(state) == state <==> state == ACTIVATED || state == DEACTIVATED
  {
  }

  /** Making the trip twice is making it once. */
  lemma RoundTripIsIdempotent(naming: Naming, data: BaseStatus, env: string)
    requires NameInverts(naming, data.metadata.identity, env) && IsInt(data.port)
    ensures ThereAndBack(naming, ThereAndBack(naming, data, env), env) == ThereAndBack(naming, data, env)
  {
    RoundTrip(naming, data, env);
    RoundTrip(naming, ThereAndBack(naming, data, env), env);
    StateIsNormal(data.state);
  }

  /** Exactly the nameless statuses with a port and a normal state come back as they went. */
  lemma RoundTripIsLossless(naming: Naming, data: BaseStatus, env: string)
    requires NameInverts(naming, data.metadata.identity, env) && IsInt(data.port)
    ensures ThereAndBack(naming, data, env) == data <==>
            data.metadata.name == "" && data.port != 0 && (data.state == ACTIVATED || data.state == DEACTIVATED)
  {
    RoundTrip(naming, data, env);
    StateIsNormal(data.state);
  }
}
