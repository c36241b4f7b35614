/**
 * The built-in health-check configurations for common services, and the
 * construction of the per-service configuration map from the list of
 * monitored service names.
 */
module DefaultConfigs {
  import opened Wrappers
  import opened ServiceHealth

  const LocalHttpStatuses: seq<int> := [200, 301, 302, 404]
  const MysqlPing: seq<string> := ["mysqladmin", "ping", "-h", "127.0.0.1"]
  const RedisPing: seq<string> := ["redis-cli", "ping"]

  /** The shapes of configuration the table uses, one per kind of check. */
  datatype Shape =
    | HttpShape(url: string, statuses: seq<int>)
    | CommandShape(command: seq<string>)
    | TcpShape(port: int)
    | SocketShape(path: string)
    | AutoShape

  /** The configuration dictionary an entry of the table spells out. */
  function ConfigOf(shape: Shape): Config
  {
    match shape
    case HttpShape(url, statuses) =>
      map["check_type" := Str("http"), "url" := Str(url), "expected_status" := IntList(statuses)]
    case CommandShape(command) =>
      map["check_type" := Str("command"), "command" := StrList(command)]
    case TcpShape(port) =>
      map["check_type" := Str("tcp"), "host" := Str("127.0.0.1"), "port" := Int(port)]
    case SocketShape(path) =>
      map["check_type" := Str("socket"), "socket_path" := Str(path)]
    case AutoShape =>
      map["check_type" := Str("auto")]
  }

  /** The table of known services, in the order the agent lists them. */
  const DefaultEntries: seq<(string, Shape)> := [
    ("nginx", HttpShape("http://127.0.0.1:80", LocalHttpStatuses)),
    ("apache2", HttpShape("http://127.0.0.1:80", LocalHttpStatuses)),
    ("mysql", CommandShape(MysqlPing)),
    ("mariadb", CommandShape(MysqlPing)),
    ("postgresql", TcpShape(5432)),
    ("mongodb", TcpShape(27017)),
    ("redis", CommandShape(RedisPing)),
    ("redis-server", CommandShape(RedisPing)),
    ("elasticsearch", HttpShape("http://127.0.0.1:9200/_cluster/health", [200])),
    ("php-fpm", SocketShape("/run/php/php-fpm.sock")),
    ("php7.4-fpm", SocketShape("/run/php/php7.4-fpm.sock")),
    ("php8.0-fpm", SocketShape("/run/php/php8.0-fpm.sock")),
    ("php8.1-fpm", SocketShape("/run/php/php8.1-fpm.sock")),
    ("php8.2-fpm", SocketShape("/run/php/php8.2-fpm.sock")),
    ("php8.3-fpm", SocketShape("/run/php/php8.3-fpm.sock")),
    ("node", AutoShape),
    ("nodejs", AutoShape),
    ("docker", SocketShape("/var/run/docker.sock")),
    ("ssh", TcpShape(22)),
    ("sshd", TcpShape(22))
  ]

  /** The table holds an entry for `name`. */
  predicate Known(name: string)
  {
    exists i :: 0 <= i < |DefaultEntries| && DefaultEntries[i].0 == name
  }

  /** Dictionary lookup: the shape of the first entry named `name`. */
  function Lookup(entries: seq<(string, Shape)>, name: string): Option<Shape>
  {
    if |entries| == 0 then None
    else if entries[0].0 == name then Some(entries[0].1)
    else Lookup(entries[1..], name)
  }

  /** A lookup finds an entry of the table exactly when one has that name. */
  lemma {:induction false} LookupSound(entries: seq<(string, Shape)>, name: string)
    ensures Lookup(entries, name).Some? ==>
      exists i :: 0 <= i < |entries| && entries[i] == (name, Lookup(entries, name).value)
    ensures Lookup(entries, name).None? ==> forall i :: 0 <= i < |entries| ==> entries[i].0 != name
  {
    if |entries| > 0 && entries[0].0 != name {
      LookupSound(entries[1..], name);
      if Lookup(entries, name).Some? {
        var i :| 0 <= i < |entries| - 1 && entries[1..][i] == (name, Lookup(entries, name).value);
        assert entries[i + 1] == entries[1..][i];
      } else {
        forall i | 0 <= i < |entries| ensures entries[i].0 != name {
          if i > 0 { assert entries[i] == entries[1..][i - 1]; }
        }
      }
    }
  }

  /** `_get_default_service_config`: the table entry, or an `auto` configuration for an unknown name. */
  function DefaultServiceConfig(name: string): (r: Config)
    ensures !Known(name) ==> r == ConfigOf(AutoShape)
    ensures Known(name) ==>
      exists i :: 0 <= i < |DefaultEntries| && DefaultEntries[i].0 == name && r == ConfigOf(DefaultEntries[i].1)
  {
    LookupSound(DefaultEntries, name);
    match Lookup(DefaultEntries, name)
    case Some(shape) => ConfigOf(shape)
    case None => ConfigOf(AutoShape)
  }

  /** The configuration key the selected probe reads its target from. */
  function TargetKey(k: FunctionalKind): string
  {
    match k
    case Http => "url"
    case Tcp => "port"
    case UnixSocket => "socket_path"
    case Command => "command"
  }

  /**
   * Every shape selects the check its `check_type` names, and that check
   * finds its target in the configuration; only the `auto` shape, which
   * names no target, selects none.
   */
  lemma ShapeSelects(shape: Shape)
    ensures var k := SelectFunctional(ConfigOf(shape));
      && (k.Some? ==> TargetKey(k.value) in ConfigOf(shape))
      && (k.None? <==> shape == AutoShape)
      && (shape.HttpShape? ==> k == Some(Http))
      && (shape.CommandShape? ==> k == Some(Command))
      && (shape.TcpShape? ==> k == Some(Tcp))
      && (shape.SocketShape? ==> k == Some(UnixSocket))
  {
  }

  /** Exactly the two Node.js services use the `auto` shape. */
  lemma AutoEntriesAreNode()
    ensures forall i :: 0 <= i < |DefaultEntries| ==>
      (DefaultEntries[i].1 == AutoShape <==> DefaultEntries[i].0 == "node" || DefaultEntries[i].0 == "nodejs")
  {
  }

  /**
   * Every default configuration that selects a functional check also
   * supplies the target that check reads, and a service gets no functional
   * check exactly when it is not in the table or is `node`/`nodejs`.
   */
  lemma DefaultConfigsConsistent(name: string)
    ensures var k := SelectFunctional(DefaultServiceConfig(name));
      && (k.Some? ==> TargetKey(k.value) in DefaultServiceConfig(name))
      && (k.None? <==> !Known(name) || name == "node" || name == "nodejs")
  {
    LookupSound(DefaultEntries, name);
    AutoEntriesAreNode();
    match Lookup(DefaultEntries, name)
    case Some(shape) => ShapeSelects(shape);
    case None =>
      ShapeSelects(AutoShape);
      assert DefaultEntries[15].0 == "node" && DefaultEntries[16].0 == "nodejs";
  }

  /**
   * `get_service_status`: the configuration map for the monitored services,
   * each with its default configuration.
   */
  method BuildServiceConfigs(services: seq<string>) returns (configs: map<string, Config>)
    ensures configs.Keys == set s | s in services
    ensures forall s :: s in configs ==> configs[s] == DefaultServiceConfig(s)
  {
    configs := map[];
    var i := 0;
    while i < |services|
      invariant 0 <= i <= |services|
      invariant configs.Keys == set s | s in services[..i]
      invariant forall s :: s in configs ==> configs[s] == DefaultServiceConfig(s)
    {
      configs := configs[services[i] := DefaultServiceConfig(services[i])];
      assert services[..i + 1] == services[..i] + [services[i]];
      i := i + 1;
    }
    assert services[..i] == services;
  }
}
