/** The MQTT topics of a base: how they are printed, taken apart again, and matched by filters. */
module Topics {
  datatype Kind = Health | SimpleBiz | AllBiz | BizOperation | BatchInstallBiz | Baseline {
    function Level(): string {
      match this
      case Health => "health"
      case SimpleBiz => "simpleBiz"
      case AllBiz => "biz"
      case BizOperation => "bizOperation"
      case BatchInstallBiz => "batchInstallBizResponse"
      case Baseline => "baseline"
    }
  }

  const PREFIX := "koupleless_"

  /** koupleless_<env>/<node>/base/<kind> */
  function Topic(env: string, nodeID: string, kind: Kind): string {
    PREFIX + env + "/" + (nodeID + "/" + ("base" + "/" + kind.Level()))
  }

  /** koupleless_<env>/<node>/<command> */
  function CommandTopic(env: string, nodeID: string, command: string): string {
    PREFIX + env + "/" + (nodeID + "/" + command)
  }

  function HeartbeatTopic(env: string, nodeID: string): string {
    PREFIX + env + "/" + (nodeID + "/" + ("base" + "/" + "heart"))
  }

  function HeartbeatFilter(env: string): string {
    HeartbeatTopic(env, "+")
  }

  /** The topics as they are spelled to the broker. */
  lemma TopicTexts(env: string, nodeID: string)
    ensures var start := "koupleless_" + env + "/" + nodeID + "/base/";
            && Topic(env, nodeID, Health) == start + "health"
            && Topic(env, nodeID, SimpleBiz) == start + "simpleBiz"
            && Topic(env, nodeID, AllBiz) == start + "biz"
            && Topic(env, nodeID, BizOperation) == start + "bizOperation"
            && Topic(env, nodeID, BatchInstallBiz) == start + "batchInstallBizResponse"
            && Topic(env, nodeID, Baseline) == start + "baseline"
            && HeartbeatTopic(env, nodeID) == start + "heart"
  {
    Respelled(env, nodeID, "health");
    Respelled(env, nodeID, "simpleBiz");
    Respelled(env, nodeID, "biz");
    Respelled(env, nodeID, "bizOperation");
    Respelled(env, nodeID, "batchInstallBizResponse");
    Respelled(env, nodeID, "baseline");
    Respelled(env, nodeID, "heart");
  }

  lemma Respelled(env: string, nodeID: string, level: string)
    ensures PREFIX + env + "/" + (nodeID + "/" + ("base" + "/" + level)) ==
            "koupleless_" + env + "/" + nodeID + "/base/" + level
  {
    assert "/" + ("base" + "/" + level) == "/base/" + level;
  }

  lemma CommandTopicText(env: string, nodeID: string, command: string)
    ensures CommandTopic(env, nodeID, command) == "koupleless_" + env + "/" + nodeID + "/" + command
  {
  }

  predicate SlashFree(s: string) {
    '/' !in s
  }

  /** The parts between slashes; always at least one. */
  function Split(s: string): (r: seq<string>)
    ensures r != []
  {
    if s == [] then [""]
    else if s[0] == '/' then [""] + Split(s[1..])
    else var rest := Split(s[1..]); [[s[0]] + rest[0]] + rest[1..]
  }

  function GetBaseIdentityFromTopic(topic: string): string {
    var fields := Split(topic);
    if |fields| < 2 then "" else fields[1]
  }

  // ---------- taking apart what was put together ----------

  lemma {:induction false} SplitConcat(a: string, b: string)
    ensures Split(a + "/" + b) == Split(a) + Split(b)
    decreases |a|
  {
    var s := a + "/" + b;
    if a == [] {
      assert s[1..] == b;
    } else {
      assert s[1..] == a[1..] + "/" + b;
      SplitConcat(a[1..], b);
    }
  }

  lemma {:induction false} SplitPlain(s: string)
    ensures Split(s) == [s] <==> SlashFree(s)
    ensures |Split(s)| == 1 ==> Split(s) == [s]
    decreases |s|
  {
    if s != [] {
      SplitPlain(s[1..]);
      assert s == [s[0]] + s[1..];
    }
  }

  lemma {:induction false} SplitPrefix(p: string, s: string)
    requires SlashFree(p)
    ensures Split(p + s) == [p + Split(s)[0]] + Split(s)[1..]
    decreases |p|
  {
    if p == [] {
      assert p + s == s && p + Split(s)[0] == Split(s)[0];
    } else {
      assert (p + s)[1..] == p[1..] + s;
      SplitPrefix(p[1..], s);
      assert [p[0]] + (p[1..] + Split(s)[0]) == p + Split(s)[0];
    }
  }

  lemma {:induction false} PartsAreSlashFree(s: string)
    ensures forall i :: 0 <= i < |Split(s)| ==> SlashFree(Split(s)[i])
    decreases |s|
  {
    if s != [] {
      PartsAreSlashFree(s[1..]);
    }
  }

  function Join(parts: seq<string>): string
    requires parts != []
  {
    if |parts| == 1 then parts[0] else parts[0] + "/" + Join(parts[1..])
  }

  lemma {:induction false} JoinInvertsSplit(s: string)
    ensures Join(Split(s)) == s
    decreases |s|
  {
    if s != [] {
      JoinInvertsSplit(s[1..]);
      var rest := Split(s[1..]);
      if s[0] == '/' {
        assert ([""] + rest)[1..] == rest;
      } else {
        assert ([[s[0]] + rest[0]] + rest[1..])[1..] == rest[1..];
      }
    }
  }

  /** The levels of any topic of this family; command may itself hold slashes. */
  lemma LevelsOf(env: string, nodeID: string, command: string)
    ensures Split(CommandTopic(env, nodeID, command)) ==
            [PREFIX + Split(env)[0]] + Split(env)[1..] + Split(nodeID) + Split(command)
  {
    SplitConcat(PREFIX + env, nodeID + "/" + command);
    SplitConcat(nodeID, command);
    SplitPrefix(PREFIX, env);
  }

  /**
   The node ID is found again exactly when it holds no slash and either env holds none, or the
   part of env read in its place happens to be the same text.
   */
  lemma {:induction false} IdentityInvertsTopic(env: string, nodeID: string, command: string)
    ensures GetBaseIdentityFromTopic("koupleless_" + env + "/" + nodeID + "/" + command) == nodeID <==>
            SlashFree(nodeID) && (SlashFree(env) || (|Split(env)| > 1 && Split(env)[1] == nodeID))
  {
    CommandTopicText(env, nodeID, command);
    LevelsOf(env, nodeID, command);
    SplitPlain(env);
    SplitPlain(nodeID);
    PartsAreSlashFree(env);
    PartsAreSlashFree(nodeID);
  }

  /** A text without a slash holds no node ID. */
  lemma NoIdentityWithoutSlash(topic: string)
    requires SlashFree(topic)
    ensures GetBaseIdentityFromTopic(topic) == ""
  {
    SplitPlain(topic);
  }

  /** Every base topic is one of them. */
  lemma TopicIsCommandTopic(env: string, nodeID: string, kind: Kind)
    ensures Topic(env, nodeID, kind) == CommandTopic(env, nodeID, "base" + "/" + kind.Level())
  {
  }

  lemma KindsHaveLevels(kind: Kind, other: Kind)
    ensures SlashFree(kind.Level())
    ensures kind.Level() == other.Level() ==> kind == other
  {
    assert |kind.Level()| == |other.Level()| ==> kind == other || {kind, other} == {Health, Baseline};
  }

  lemma BaseTopicLevels(env: string, nodeID: string, kind: Kind)
    requires SlashFree(env) && SlashFree(nodeID)
    ensures Split(Topic(env, nodeID, kind)) == [PREFIX + env, nodeID, "base", kind.Level()]
  {
    TopicIsCommandTopic(env, nodeID, kind);
    LevelsOf(env, nodeID, "base" + "/" + kind.Level());
    SplitPlain(env);
    SplitPlain(nodeID);
    SplitConcat("base", kind.Level());
    SplitPlain("base");
    KindsHaveLevels(kind, kind);
    SplitPlain(kind.Level());
  }

  /** The formats are jointly injective, so no two bases, environments or kinds share a topic. */
  lemma TopicsAreInjective(env: string, nodeID: string, kind: Kind, env': string, nodeID': string, kind': Kind)
    requires SlashFree(env) && SlashFree(nodeID) && SlashFree(env') && SlashFree(nodeID')
    requires Topic(env, nodeID, kind) == Topic(env', nodeID', kind')
    ensures env == env' && nodeID == nodeID' && kind == kind'
  {
    BaseTopicLevels(env, nodeID, kind);
    BaseTopicLevels(env', nodeID', kind');
    var levels := Split(Topic(env, nodeID, kind));
    assert levels[0][|PREFIX|..] == env && levels[0][|PREFIX|..] == env';
    assert levels[1] == nodeID && levels[1] == nodeID' && levels[3] == kind.Level() && levels[3] == kind'.Level();
    KindsHaveLevels(kind, kind');
  }

  // ---------- topic filters, section 4.7.1 of MQTT Version 3.1.1 ----------

  predicate MatchLevels(filter: seq<string>, topic: seq<string>) {
    if filter == [] then topic == []
    else if filter == ["#"] then true
    else topic != [] && (filter[0] == "+" || filter[0] == topic[0]) && MatchLevels(filter[1..], topic[1..])
  }

  predicate Matches(filter: string, topic: string) {
    MatchLevels(Split(filter), Split(topic))
  }

  /** Text that can stand as one level of a filter without acting as a wildcard. */
  predicate PlainLevel(s: string) {
    SlashFree(s) && '+' !in s && '#' !in s
  }

  lemma HeartbeatLevels(env: string, nodeID: string)
    requires SlashFree(env) && SlashFree(nodeID)
    ensures Split(HeartbeatTopic(env, nodeID)) == [PREFIX + env, nodeID, "base", "heart"]
  {
    assert HeartbeatTopic(env, nodeID) == CommandTopic(env, nodeID, "base" + "/" + "heart");
    LevelsOf(env, nodeID, "base" + "/" + "heart");
    SplitPlain(env);
    SplitPlain(nodeID);
    SplitConcat("base", "heart");
    SplitPlain("base");
    SplitPlain("heart");
  }

  lemma OneLevel(first: string, rest: seq<string>, topic: seq<string>)
    requires first != "#"
    ensures MatchLevels([first] + rest, topic) <==>
            topic != [] && (first == "+" || first == topic[0]) && MatchLevels(rest, topic[1..])
  {
    assert ([first] + rest)[0] == first && ([first] + rest)[1..] == rest;
    assert [first] + rest != ["#"];
  }

  lemma FourLevels(p: string, topic: seq<string>)
    requires p != "+" && p != "#"
    ensures MatchLevels([p, "+", "base", "heart"], topic) <==>
            |topic| == 4 && topic[0] == p && topic[2] == "base" && topic[3] == "heart"
  {
    assert [p, "+", "base", "heart"] == [p] + (["+"] + (["base"] + (["heart"] + [])));
    OneLevel(p, ["+"] + (["base"] + (["heart"] + [])), topic);
    if topic != [] {
      OneLevel("+", ["base"] + (["heart"] + []), topic[1..]);
      if |topic| > 1 {
        assert topic[1..][1..] == topic[2..];
        OneLevel("base", ["heart"] + [], topic[2..]);
        if |topic| > 2 {
          assert topic[2..][1..] == topic[3..];
          OneLevel("heart", [], topic[3..]);
        }
      }
    }
  }

  lemma FilterIsExact(env: string, topic: string)
    requires PlainLevel(env)
    ensures Matches(HeartbeatFilter(env), topic) <==>
            exists nodeID :: SlashFree(nodeID) && topic == HeartbeatTopic(env, nodeID)
  {
    HeartbeatLevels(env, "+");
    FourLevels(PREFIX + env, Split(topic));
    if Matches(HeartbeatFilter(env), topic) {
      var nodeID := Split(topic)[1];
      PartsAreSlashFree(topic);
      HeartbeatLevels(env, nodeID);
      assert Split(topic) == Split(HeartbeatTopic(env, nodeID));
      JoinInvertsSplit(topic);
      JoinInvertsSplit(HeartbeatTopic(env, nodeID));
    }
    forall nodeID | SlashFree(nodeID) && topic == HeartbeatTopic(env, nodeID)
      ensures Matches(HeartbeatFilter(env), topic)
    {
      HeartbeatLevels(env, nodeID);
    }
  }

  /** The heartbeat subscription sees exactly the heartbeat topics of its environment. */
  lemma HeartbeatFilterIsExact(env: string, topic: string)
    requires PlainLevel(env)
    ensures Matches("koupleless_" + env + "/+/base/heart", topic) <==>
            exists nodeID :: SlashFree(nodeID) && topic == "koupleless_" + env + "/" + nodeID + "/base/" + "heart"
  {
    Respelled(env, "+", "heart");
    assert "/" + "+" + "/base/" + "heart" == "/+/base/heart";
    assert HeartbeatFilter(env) == "koupleless_" + env + "/+/base/heart";
    FilterIsExact(env, topic);
    forall nodeID: string
      ensures HeartbeatTopic(env, nodeID) == "koupleless_" + env + "/" + nodeID + "/base/" + "heart"
    {
      Respelled(env, nodeID, "heart");
    }
  }
}
