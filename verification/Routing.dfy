// From an instance's name to the failover message for one of its shards and back:
// the names pass through the sentinel's name and the sentinel's monitor name.
module Routing {
  import opened Text

  const KVROCKS := "kvrocks"
  const CLUSTER := "cluster"
  const SENTINEL := "sentinel"
  const MASTER_FIELD := "master"

  // resources.GetClusterName
  function ClusterName(sysId: string, name: string): (r: string) {
    KVROCKS + "-" + CLUSTER + "-" + sysId + "-" + name
  }

  // resources.ParseRedisName
  function ParseRedisName(name: string): (r: (string, string)) {
    var fields := SplitN(name, '-', 4);
    if |fields| < 4 then ("", "") else (fields[2], fields[3])
  }

  // resources.GetSentinelName, and the system id the producer reads from it.
  function SentinelName(sysId: string): (r: string) {
    SENTINEL + "-" + sysId
  }

  function SystemId(sentinel: string): (r: Option<string>) {
    var fields := Split(sentinel, '-');
    if |fields| < 2 then None else Some(fields[1])
  }

  // The name a shard is monitored under, and the notice a sentinel publishes.
  function MonitorName(name: string, shard: int): (r: string) {
    name + "-" + Itoa(shard)
  }

  function Payload(monitor: string, ip: string, port: string): (r: string) {
    MASTER_FIELD + " " + monitor + " " + ip + " " + port
  }

  datatype Target = Target(instance: string, partition: int, ip: string, port: string)

  // events.listen: what it makes of one notice. None for a standard instance.
  function Listen(payload: string, sysId: string): (r: Option<Target>) {
    var fields := Split(payload, ' ');
    if |fields| < 4 then None
    else
      var masterMsg := Split(fields[1], '-');
      if |masterMsg| == 1 then None
      else Some(Target(ClusterName(sysId, masterMsg[0]), AtoiOrZero(masterMsg[1]), fields[2], fields[3]))
  }

  // The whole way: the instance's name is parsed, its shard monitored under the
  // parsed name by the sentinel of the parsed system, and the notice is routed.
  function Route(instance: string, shard: nat, ip: string, port: string): (r: Option<Target>) {
    var (sysId, name) := ParseRedisName(instance);
    match SystemId(SentinelName(sysId))
    case None => None
    case Some(system) => Listen(Payload(MonitorName(name, shard), ip, port), system)
  }

  // A cluster name as its four fields.
  function Joined(kind: string, mode: string, sysId: string, name: string, c: char): (r: string) {
    kind + [c] + (mode + [c] + (sysId + [c] + name))
  }

  lemma {:induction false} FourParts(a: string, b: string, d: string, e: string, c: char)
    ensures a + [c] + b + [c] + d + [c] + e == Joined(a, b, d, e, c)
  {
  }

  lemma {:induction false} ClusterNameParts(sysId: string, name: string)
    ensures ClusterName(sysId, name) == Joined(KVROCKS, CLUSTER, sysId, name, '-')
  {
    FourParts(KVROCKS, CLUSTER, sysId, name, '-');
  }

  lemma {:induction false} ParsePlain(sysId: string, name: string)
    requires '-' !in sysId
    ensures ParseRedisName(ClusterName(sysId, name)) == (sysId, name)
  {
    ClusterNameParts(sysId, name);
    SplitNFour(KVROCKS, CLUSTER, sysId, name, '-');
  }

  // Where parsing cuts: at the first dash after the prefix. The name that remains
  // is free of dashes exactly when both parts were.
  lemma {:induction false} Cut(sysId: string, name: string) returns (first: string, rest: string)
    ensures '-' !in first && ClusterName(first, rest) == ClusterName(sysId, name)
    ensures '-' !in rest <==> '-' !in sysId && '-' !in name
    ensures '-' !in sysId ==> first == sysId && rest == name
  {
    if '-' !in sysId {
      first, rest := sysId, name;
    } else {
      var i := IndexOf(sysId, '-');
      first := sysId[..i];
      rest := sysId[i + 1..] + "-" + name;
      assert sysId == first + ['-'] + sysId[i + 1..];
      assert rest[|sysId[i + 1..]|] == '-';
      assert first + ['-'] + rest == sysId + ['-'] + name;
      ClusterNameParts(sysId, name);
      ClusterNameParts(first, rest);
    }
  }

  // Parsing an instance name gives its parts back if and only if the system id has
  // no dash.
  lemma {:induction false} ParseIff(sysId: string, name: string)
    ensures ParseRedisName(ClusterName(sysId, name)) == (sysId, name) <==> '-' !in sysId
  {
    var first, rest := Cut(sysId, name);
    ParsePlain(first, rest);
  }

  lemma {:induction false} SystemIdOf(sysId: string)
    requires '-' !in sysId
    ensures SystemId(SentinelName(sysId)) == Some(sysId)
  {
    assert SentinelName(sysId) == SENTINEL + ['-'] + sysId;
    SplitField(SENTINEL, '-', sysId);
  }

  lemma {:induction false} PayloadFields(monitor: string, ip: string, port: string)
    requires ' ' !in monitor && ' ' !in ip && ' ' !in port
    ensures Split(Payload(monitor, ip, port), ' ') == [MASTER_FIELD, monitor, ip, port]
  {
    FourParts(MASTER_FIELD, monitor, ip, port, ' ');
    SplitFour(MASTER_FIELD, monitor, ip, port, ' ');
  }

  lemma {:induction false} MonitorFields(name: string, shard: nat)
    ensures '-' !in name ==> Split(MonitorName(name, shard), '-') == [name, Itoa(shard)]
    ensures ' ' !in name ==> ' ' !in MonitorName(name, shard)
    ensures |Split(MonitorName(name, shard), '-')| >= 2
    ensures '-' !in Split(MonitorName(name, shard), '-')[0]
  {
    NoSeparator(shard);
    assert MonitorName(name, shard) == name + ['-'] + Itoa(shard);
    SplitLast(name, '-', Itoa(shard));
    if '-' !in name {
      SplitField(name, '-', Itoa(shard));
    }
  }

  lemma {:induction false} SamePrefix(sysId: string, a: string, b: string)
    requires ClusterName(sysId, a) == ClusterName(sysId, b)
    ensures a == b
  {
    var p := KVROCKS + "-" + CLUSTER + "-" + sysId + "-";
    assert ClusterName(sysId, a)[|p|..] == a;
    assert ClusterName(sysId, b)[|p|..] == b;
  }

  // A notice about a monitored shard is understood if and only if the name it is
  // monitored under has no dash of its own.
  lemma {:induction false} ListenIff(sysId: string, name: string, shard: nat, ip: string, port: string)
    requires ' ' !in name && ' ' !in ip && ' ' !in port
    ensures Listen(Payload(MonitorName(name, shard), ip, port), sysId)
              == Some(Target(ClusterName(sysId, name), shard, ip, port))
       <==> '-' !in name
  {
    var monitor := MonitorName(name, shard);
    MonitorFields(name, shard);
    PayloadFields(monitor, ip, port);
    AtoiItoa(shard);
    var first := Split(monitor, '-')[0];
    if ClusterName(sysId, first) == ClusterName(sysId, name) {
      SamePrefix(sysId, first, name);
    }
  }

  // A notice is passed over if and only if the monitored name has no dash: a standard
  // instance is monitored under its bare name. Anything else is taken for the shard
  // whose number follows the first dash.
  lemma {:induction false} PassedOverIff(monitor: string, sysId: string, ip: string, port: string)
    requires ' ' !in monitor && ' ' !in ip && ' ' !in port
    ensures Listen(Payload(monitor, ip, port), sysId) == None <==> '-' !in monitor
    ensures '-' in monitor ==>
      var i := IndexOf(monitor, '-');
      var r := Listen(Payload(monitor, ip, port), sysId);
      && r.Some? && r.value.instance == KVROCKS + "-" + CLUSTER + "-" + sysId + "-" + monitor[..i]
      && r.value.ip == ip && r.value.port == port
      && r.value.partition == AtoiOrZero(Split(monitor[i + 1..], '-')[0])
  {
    PayloadFields(monitor, ip, port);
  }

  // A name with fewer than four fields has no parts.
  lemma {:induction false} TooFewFields(a: string, b: string, d: string)
    requires '-' !in a && '-' !in b && '-' !in d
    ensures ParseRedisName(a) == ("", "") && ParseRedisName(a + ['-'] + b) == ("", "")
    ensures ParseRedisName(a + ['-'] + (b + ['-'] + d)) == ("", "")
  {
    SplitNField(a, '-', b, 4);
    SplitNField(b, '-', d, 3);
    SplitNField(a, '-', b + ['-'] + d, 4);
  }

  // A notice reaches the instance and shard it is about if and only if neither the
  // system id nor the name contains a dash.
  lemma {:induction false} RouteIff(sysId: string, name: string, shard: nat, ip: string, port: string)
    requires ' ' !in sysId && ' ' !in name && ' ' !in ip && ' ' !in port
    ensures Route(ClusterName(sysId, name), shard, ip, port) == Some(Target(ClusterName(sysId, name), shard, ip, port))
       <==> '-' !in sysId && '-' !in name
  {
    var first, rest := Cut(sysId, name);
    ParsePlain(first, rest);
    SystemIdOf(first);
    NoSpace(first, rest, sysId, name);
    ListenIff(first, rest, shard, ip, port);
  }

  lemma {:induction false} NoSpace(first: string, rest: string, sysId: string, name: string)
    requires ClusterName(first, rest) == ClusterName(sysId, name) && ' ' !in sysId && ' ' !in name
    ensures ' ' !in rest
  {
    var whole := ClusterName(sysId, name);
    assert ' ' !in whole;
    var p := KVROCKS + "-" + CLUSTER + "-" + first + "-";
    assert whole[|p|..] == rest;
  }

  // An instance called "my-app" is not found from its notices.
  lemma {:induction false} DashedNameIsLost(sysId: string, name: string, shard: nat, ip: string, port: string)
    requires sysId == "prod" && name == "my-app" && ip == "10.0.0.1" && port == "6379"
    ensures Route(ClusterName(sysId, name), shard, ip, port) != Some(Target(ClusterName(sysId, name), shard, ip, port))
  {
    assert name[2] == '-';
    RouteIff(sysId, name, shard, ip, port);
  }
}
