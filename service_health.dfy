/**
 * The agent's multi-signal service health checker: which probes run for a
 * service, how their outcomes are recorded, and how the recorded checks are
 * classified as healthy, degraded, down or unknown.
 *
 * The probes themselves (HTTP GET, TCP and Unix socket connects, commands,
 * `systemctl`, the process table, PM2, `ps`) are inputs: a `Probes` value
 * holds what each probe would report for one service.
 */
module ServiceHealth {
  import opened Wrappers
  import opened Text

  datatype HealthState = Healthy | Degraded | Down | Unknown

  /** One recorded check, `{'passed': ..., 'message': ...}`. */
  datatype Check = Check(passed: bool, message: string)

  /** A probe whose outcome is three-valued: `None` means the probe could not tell. */
  datatype Probe = Probe(passed: Option<bool>, message: string)

  /** What `check_service` returns: `{'state': ..., 'checks': ...}`. */
  datatype ServiceReport = ServiceReport(state: HealthState, checks: Checks)

  /** A value of a service's configuration dictionary. */
  datatype ConfigValue = Str(str: string) | Int(number: int) | IntList(ints: seq<int>) | StrList(strs: seq<string>)

  type Config = map<string, ConfigValue>

  /** The keys of the checks map; `Name` gives the key the agent writes. */
  datatype CheckKey =
    | HttpCheck | TcpPortCheck | UnixSocketCheck | CommandCheck
    | SystemdCheck | Pm2Check | NodeProcessesCheck | ProcessCheck | ErrorCheck
  {
    function Name(): string
    {
      match this
      case HttpCheck => "http"
      case TcpPortCheck => "tcp_port"
      case UnixSocketCheck => "unix_socket"
      case CommandCheck => "command"
      case SystemdCheck => "systemd"
      case Pm2Check => "pm2"
      case NodeProcessesCheck => "nodejs_processes"
      case ProcessCheck => "process"
      case ErrorCheck => "error"
    }

    predicate IsFunctional()
    {
      HttpCheck? || TcpPortCheck? || UnixSocketCheck? || CommandCheck?
    }
  }

  /**
   * Distinct keys are written under distinct names, so a map over `CheckKey`
   * is the agent's string-keyed dictionary, and the functional keys are
   * exactly the four names `_determine_state` looks for.
   */
  lemma KeyNames(a: CheckKey, b: CheckKey)
    ensures a.Name() == b.Name() ==> a == b
    ensures a.IsFunctional() <==> a.Name() in {"http", "tcp_port", "unix_socket", "command"}
  {
  }

  type Checks = map<CheckKey, Check>

  /** The four functional (protocol) checks, each recorded under its own fixed key. */
  datatype FunctionalKind = Http | Tcp | UnixSocket | Command
  {
    function Key(): CheckKey
    {
      match this
      case Http => HttpCheck
      case Tcp => TcpPortCheck
      case UnixSocket => UnixSocketCheck
      case Command => CommandCheck
    }
  }

  /** What each probe reports for one service. */
  datatype Probes = Probes(
    http: Check,
    tcpPort: Check,
    unixSocket: Check,
    command: Check,
    systemd: Probe,
    process: Check,
    pm2: Probe,
    nodeProcesses: Probe)

  function FunctionalProbe(k: FunctionalKind, p: Probes): Check
  {
    match k
    case Http => p.http
    case Tcp => p.tcpPort
    case UnixSocket => p.unixSocket
    case Command => p.command
  }

  // ---------------------------------------------------------------------------
  // Classification (_determine_state)
  // ---------------------------------------------------------------------------

  predicate HasFunctionalCheck(checks: Checks)
  {
    HttpCheck in checks || TcpPortCheck in checks || UnixSocketCheck in checks || CommandCheck in checks
  }

  /** `checks.get('process', {}).get('passed')`: `None` when no process check was recorded. */
  function ProcessPassed(checks: Checks): Option<bool>
  {
    if ProcessCheck in checks then Some(checks[ProcessCheck].passed) else None
  }

  /** Systemd or the process check reported that the service runs. */
  predicate Running(checks: Checks, systemdPassed: Option<bool>)
  {
    systemdPassed == Some(true) || ProcessPassed(checks) == Some(true)
  }

  /**
   * The overall state from the recorded checks, whether the functional check
   * passed, and the three-valued systemd result.
   */
  function DetermineState(checks: Checks, functionalPassed: bool, systemdPassed: Option<bool>): (s: HealthState)
    // nothing recorded: unknown; a passed functional check: healthy
    ensures checks == map[] ==> s == Unknown
    ensures checks != map[] && functionalPassed ==> s == Healthy
    // a failed functional check is degraded when the service runs, down otherwise
    ensures checks != map[] && !functionalPassed && HasFunctionalCheck(checks) ==>
      (s == Degraded <==> Running(checks, systemdPassed)) && (s == Down <==> !Running(checks, systemdPassed))
    // no functional check: systemd and the process check decide, `None` being neither pass nor fail
    ensures checks != map[] && !functionalPassed && !HasFunctionalCheck(checks) ==>
      && (s == Healthy <==> Running(checks, systemdPassed))
      && (s == Down <==> !Running(checks, systemdPassed) && (systemdPassed == Some(false) || ProcessPassed(checks) == Some(false)))
      && (s == Unknown <==> systemdPassed.None? && ProcessPassed(checks).None?)
    // degraded only ever reports a functional check that was attempted and failed
    ensures s == Degraded ==> !functionalPassed && HasFunctionalCheck(checks)
  {
    OptionBoolCases(systemdPassed);
    OptionBoolCases(ProcessPassed(checks));
    if checks == map[] then Unknown
    else if functionalPassed then Healthy
    else if HasFunctionalCheck(checks) then
      if Running(checks, systemdPassed) then Degraded else Down
    else if Running(checks, systemdPassed) then Healthy
    else if systemdPassed == Some(false) || ProcessPassed(checks) == Some(false) then Down
    else Unknown
  }

  /** A failed functional check is never reported as healthy or unknown. */
  lemma FailedFunctionalNeverHealthy(checks: Checks, systemdPassed: Option<bool>)
    requires HasFunctionalCheck(checks)
    ensures DetermineState(checks, false, systemdPassed) in {Degraded, Down}
  {
  }

  /** A `None` systemd result and no process check, with no functional check, is unknown. */
  lemma SystemdNoneWithoutProcessIsUnknown(checks: Checks)
    requires !HasFunctionalCheck(checks) && ProcessCheck !in checks
    ensures DetermineState(checks, false, None) == Unknown
  {
  }

  // ---------------------------------------------------------------------------
  // Check selection (check_service)
  // ---------------------------------------------------------------------------

  /** The `check_type` values the agent recognises; any other value selects nothing. */
  datatype CheckType = HttpType | TcpType | SocketType | CommandType | AutoType | OtherType

  /** `config.get('check_type', 'auto')`, compared against the recognised names. */
  function CheckTypeOf(config: Config): (t: CheckType)
    ensures "check_type" !in config ==> t == AutoType
  {
    var v := if "check_type" in config then config["check_type"] else Str("auto");
    if v == Str("http") then HttpType
    else if v == Str("tcp") then TcpType
    else if v == Str("socket") then SocketType
    else if v == Str("command") then CommandType
    else if v == Str("auto") then AutoType
    else OtherType
  }

  /**
   * The functional check `check_service` runs, if any: an explicit
   * `check_type` wins; with `auto` the first of `url`, `port`, `socket_path`,
   * `command` present in the configuration decides.
   */
  function SelectFunctional(config: Config): (k: Option<FunctionalKind>)
    ensures CheckTypeOf(config) == HttpType ==> k == Some(Http)
    ensures CheckTypeOf(config) == TcpType ==> k == Some(Tcp)
    ensures CheckTypeOf(config) == SocketType ==> k == Some(UnixSocket)
    ensures CheckTypeOf(config) == CommandType ==> k == Some(Command)
    ensures CheckTypeOf(config) == AutoType ==>
      && (k == Some(Http) <==> "url" in config)
      && (k == Some(Tcp) <==> "url" !in config && "port" in config)
      && (k == Some(UnixSocket) <==> "url" !in config && "port" !in config && "socket_path" in config)
      && (k == Some(Command) <==> "url" !in config && "port" !in config && "socket_path" !in config && "command" in config)
    ensures CheckTypeOf(config) == OtherType ==> k == None
  {
    var t := CheckTypeOf(config);
    if t == HttpType || (t == AutoType && "url" in config) then Some(Http)
    else if t == TcpType || (t == AutoType && "port" in config) then Some(Tcp)
    else if t == SocketType || (t == AutoType && "socket_path" in config) then Some(UnixSocket)
    else if t == CommandType || (t == AutoType && "command" in config) then Some(Command)
    else None
  }

  /** `service_name.lower() in ['node', 'nodejs']`. */
  predicate IsNodeService(name: string)
  {
    Lower(name) == "node" || Lower(name) == "nodejs"
  }

  /** The final value of `functional_passed`. */
  predicate FunctionalPassed(name: string, config: Config, p: Probes)
  {
    || (SelectFunctional(config).Some? && FunctionalProbe(SelectFunctional(config).value, p).passed)
    || (IsNodeService(name) && (p.pm2.passed == Some(true) || p.nodeProcesses.passed == Some(true)))
  }

  /** The entry of the selected functional check. */
  function FunctionalEntry(config: Config, p: Probes): (r: Checks)
    ensures forall key :: key in r ==> key.IsFunctional()
  {
    match SelectFunctional(config)
    case Some(k) => map[k.Key() := FunctionalProbe(k, p)]
    case None => map[]
  }

  /** A three-valued probe is recorded only when it gave an answer. */
  function ProbeEntry(key: CheckKey, probe: Probe): (r: Checks)
    ensures r.Keys <= {key}
  {
    if probe.passed.Some? then map[key := Check(probe.passed.value, probe.message)] else map[]
  }

  /** The PM2 and Node.js process entries, which only Node.js services get. */
  function NodeEntries(name: string, p: Probes): (r: Checks)
    ensures r.Keys <= {Pm2Check, NodeProcessesCheck}
  {
    if IsNodeService(name) then ProbeEntry(Pm2Check, p.pm2) + ProbeEntry(NodeProcessesCheck, p.nodeProcesses)
    else map[]
  }

  lemma MapUnionAssoc<K, V>(a: map<K, V>, b: map<K, V>, c: map<K, V>)
    ensures a + b + c == a + (b + c)
  {
  }

  /** The checks recorded before the process fallback is considered. */
  function EarlyChecks(name: string, config: Config, p: Probes): Checks
  {
    FunctionalEntry(config, p) + ProbeEntry(SystemdCheck, p.systemd) + NodeEntries(name, p)
  }

  /** The source's condition for running the process fallback, on what was recorded so far. */
  predicate FallbackCondition(checks: Checks, functionalPassed: bool, systemdPassed: Option<bool>)
  {
    !functionalPassed && (checks == map[] || systemdPassed == None || systemdPassed == Some(false))
  }

  predicate ProcessFallbackRuns(name: string, config: Config, p: Probes)
  {
    FallbackCondition(EarlyChecks(name, config, p), FunctionalPassed(name, config, p), p.systemd.passed)
  }

  /** The process fallback's entry. */
  function FallbackEntry(name: string, config: Config, p: Probes): (r: Checks)
    ensures r.Keys <= {ProcessCheck}
  {
    if ProcessFallbackRuns(name, config, p) then map[ProcessCheck := p.process] else map[]
  }

  /** The entries recorded after the functional check. */
  function LaterEntries(name: string, config: Config, p: Probes): (r: Checks)
    ensures r.Keys <= {SystemdCheck, Pm2Check, NodeProcessesCheck, ProcessCheck}
  {
    ProbeEntry(SystemdCheck, p.systemd) + NodeEntries(name, p) + FallbackEntry(name, config, p)
  }

  /** All checks `check_service` records. */
  function ChecksOf(name: string, config: Config, p: Probes): Checks
  {
    EarlyChecks(name, config, p) + FallbackEntry(name, config, p)
  }

  /**
   * The report `check_service` returns. Some check always decides it: it is
   * never `unknown`, and it never carries the `error` entry that only
   * `check_all_services` writes.
   */
  function ServiceReportOf(name: string, config: Config, p: Probes): (r: ServiceReport)
    ensures r.state != Unknown
    ensures r.checks != map[] && ErrorCheck !in r.checks
  {
    var checks := ChecksOf(name, config, p);
    var fp := FunctionalPassed(name, config, p);
    FunctionalEntries(name, config, p);
    ProbeEntries(name, config, p);
    ProcessEntry(name, config, p);
    assert fp ==> SelectFunctional(config).Some? || Pm2Check in checks || NodeProcessesCheck in checks;
    assert fp && SelectFunctional(config).Some? ==> SelectFunctional(config).value.Key() in checks;
    assert !fp ==> SystemdCheck in checks || ProcessCheck in checks;
    ServiceReport(DetermineState(checks, fp, p.systemd.passed), checks)
  }

  /** At most one functional check is recorded: the selected one, with its probe's result. */
  lemma FunctionalEntries(name: string, config: Config, p: Probes)
    ensures var c := ChecksOf(name, config, p);
      && (forall k: FunctionalKind :: k.Key() in c <==> SelectFunctional(config) == Some(k))
      && (forall k: FunctionalKind :: k.Key() in c ==> c[k.Key()] == FunctionalProbe(k, p))
  {
    var f, rest := FunctionalEntry(config, p), LaterEntries(name, config, p);
    var c := ChecksOf(name, config, p);
    ChecksOfSplit(name, config, p);
    forall k: FunctionalKind
      ensures (k.Key() in c <==> SelectFunctional(config) == Some(k)) && (k.Key() in c ==> c[k.Key()] == FunctionalProbe(k, p))
    {
      assert k.Key() !in rest;
      assert k.Key() in f <==> SelectFunctional(config) == Some(k);
    }
  }

  /** Adding entries under non-functional keys does not change whether a functional check is recorded. */
  lemma HasFunctionalUnion(a: Checks, b: Checks)
    requires b.Keys <= {SystemdCheck, Pm2Check, NodeProcessesCheck, ProcessCheck}
    ensures HasFunctionalCheck(a + b) <==> HasFunctionalCheck(a)
  {
  }

  /** A functional key is recorded exactly when a functional check was selected. */
  lemma HasFunctionalIffSelected(name: string, config: Config, p: Probes)
    ensures HasFunctionalCheck(ChecksOf(name, config, p)) <==> SelectFunctional(config).Some?
  {
    var f := FunctionalEntry(config, p);
    ChecksOfSplit(name, config, p);
    HasFunctionalUnion(f, LaterEntries(name, config, p));
    match SelectFunctional(config)
    case Some(k) =>
      assert k.Key() in f;
      match k {
        case Http =>
        case Tcp =>
        case UnixSocket =>
        case Command =>
      }
    case None =>
      assert f == map[];
  }

  /** Systemd, PM2 and Node.js process entries appear only when their probe gave an answer. */
  lemma ProbeEntries(name: string, config: Config, p: Probes)
    ensures var c := ChecksOf(name, config, p);
      && ErrorCheck !in c
      && (SystemdCheck in c <==> p.systemd.passed.Some?)
      && (SystemdCheck in c ==> c[SystemdCheck] == Check(p.systemd.passed.value, p.systemd.message))
      && (Pm2Check in c <==> IsNodeService(name) && p.pm2.passed.Some?)
      && (Pm2Check in c ==> c[Pm2Check] == Check(p.pm2.passed.value, p.pm2.message))
      && (NodeProcessesCheck in c <==> IsNodeService(name) && p.nodeProcesses.passed.Some?)
      && (NodeProcessesCheck in c ==> c[NodeProcessesCheck] == Check(p.nodeProcesses.passed.value, p.nodeProcesses.message))
  {
    ChecksOfSplit(name, config, p);
    var c, f := ChecksOf(name, config, p), FunctionalEntry(config, p);
    var sd, n, fb := ProbeEntry(SystemdCheck, p.systemd), NodeEntries(name, p), FallbackEntry(name, config, p);
    assert ErrorCheck !in f && SystemdCheck !in f && Pm2Check !in f && NodeProcessesCheck !in f;
    assert c == f + (sd + n + fb);
  }

  /**
   * The process fallback is recorded exactly when nothing proved the service
   * functional and systemd did not report it active: the source's third
   * condition, no checks at all, adds nothing.
   */
  lemma ProcessEntry(name: string, config: Config, p: Probes)
    ensures var c := ChecksOf(name, config, p);
      && (ProcessCheck in c <==> !FunctionalPassed(name, config, p) && p.systemd.passed != Some(true))
      && (ProcessCheck in c ==> c[ProcessCheck] == p.process)
  {
    OptionBoolCases(p.systemd.passed);
    var early := EarlyChecks(name, config, p);
    assert ProcessCheck !in early;
    assert p.systemd.passed == Some(true) ==> SystemdCheck in early;
  }

  lemma ChecksOfSplit(name: string, config: Config, p: Probes)
    ensures ChecksOf(name, config, p) == FunctionalEntry(config, p) + LaterEntries(name, config, p)
  {
    var f, s, n := FunctionalEntry(config, p), ProbeEntry(SystemdCheck, p.systemd), NodeEntries(name, p);
    MapUnionAssoc(f, s, n);
    MapUnionAssoc(f, s + n, FallbackEntry(name, config, p));
  }

  /** What `check_service` reports, in terms of the probes alone. */
  lemma {:induction false} ServiceStateSummary(name: string, config: Config, p: Probes)
    ensures ServiceReportOf(name, config, p).state ==
      if FunctionalPassed(name, config, p) then Healthy
      else if p.systemd.passed == Some(true) || p.process.passed then
        (if SelectFunctional(config).Some? then Degraded else Healthy)
      else Down
  {
    FunctionalEntries(name, config, p);
    HasFunctionalIffSelected(name, config, p);
    ProbeEntries(name, config, p);
    ProcessEntry(name, config, p);
    var c := ChecksOf(name, config, p);
    var fp := FunctionalPassed(name, config, p);
    if fp {
      if SelectFunctional(config).Some? {
        assert SelectFunctional(config).value.Key() in c;
      } else {
        assert p.pm2.passed == Some(true) ==> Pm2Check in c;
        assert p.nodeProcesses.passed == Some(true) ==> NodeProcessesCheck in c;
      }
      assert c != map[];
    } else if p.systemd.passed != Some(true) {
      assert ProcessCheck in c;
    } else {
      assert SystemdCheck in c;
    }
  }

  /** Step 1 of `check_service`: the selected functional check, if any, and its outcome. */
  method RunFunctionalCheck(config: Config, probes: Probes) returns (checks: Checks, functionalPassed: bool)
    ensures checks == FunctionalEntry(config, probes)
    ensures functionalPassed <==> SelectFunctional(config).Some? && FunctionalProbe(SelectFunctional(config).value, probes).passed
  {
    checks := map[];
    functionalPassed := false;
    var checkType := CheckTypeOf(config);
    if checkType == HttpType || (checkType == AutoType && "url" in config) {
      checks := checks[HttpCheck := probes.http];
      functionalPassed := probes.http.passed;
    } else if checkType == TcpType || (checkType == AutoType && "port" in config) {
      checks := checks[TcpPortCheck := probes.tcpPort];
      functionalPassed := probes.tcpPort.passed;
    } else if checkType == SocketType || (checkType == AutoType && "socket_path" in config) {
      checks := checks[UnixSocketCheck := probes.unixSocket];
      functionalPassed := probes.unixSocket.passed;
    } else if checkType == CommandType || (checkType == AutoType && "command" in config) {
      checks := checks[CommandCheck := probes.command];
      functionalPassed := probes.command.passed;
    }
  }

  /** Step 2: the systemd entry, recorded only when systemd gave an answer. */
  method RecordSystemd(checks: Checks, probes: Probes) returns (checks': Checks)
    ensures checks' == checks + ProbeEntry(SystemdCheck, probes.systemd)
  {
    checks' := checks;
    if probes.systemd.passed.Some? {
      checks' := checks'[SystemdCheck := Check(probes.systemd.passed.value, probes.systemd.message)];
    }
  }

  /** Step 3: for Node.js services, PM2 and the Node.js process scan; a passing one makes the service functional. */
  method RecordNodeChecks(name: string, checks: Checks, functionalPassed: bool, probes: Probes)
    returns (checks': Checks, functionalPassed': bool)
    ensures checks' == checks + NodeEntries(name, probes)
    ensures functionalPassed' <==>
      functionalPassed || (IsNodeService(name) && (probes.pm2.passed == Some(true) || probes.nodeProcesses.passed == Some(true)))
  {
    checks', functionalPassed' := checks, functionalPassed;
    var lowered := Lower(name);
    if lowered == "node" || lowered == "nodejs" {
      if probes.pm2.passed.Some? {
        checks' := checks'[Pm2Check := Check(probes.pm2.passed.value, probes.pm2.message)];
        if probes.pm2.passed.value {
          functionalPassed' := true;
        }
      }
      if probes.nodeProcesses.passed.Some? {
        checks' := checks'[NodeProcessesCheck := Check(probes.nodeProcesses.passed.value, probes.nodeProcesses.message)];
        if probes.nodeProcesses.passed.value {
          functionalPassed' := true;
        }
      }
      MapUnionAssoc(checks, ProbeEntry(Pm2Check, probes.pm2), ProbeEntry(NodeProcessesCheck, probes.nodeProcesses));
    }
  }

  /**
   * Step 4: the process check, run when nothing proved the service functional
   * and either nothing was recorded or systemd did not report it active.
   */
  method RecordProcessFallback(checks: Checks, functionalPassed: bool, probes: Probes) returns (checks': Checks)
    ensures checks' == checks + (if FallbackCondition(checks, functionalPassed, probes.systemd.passed)
                                 then map[ProcessCheck := probes.process] else map[])
  {
    checks' := checks;
    var systemdPassed := probes.systemd.passed;
    if !functionalPassed && (checks == map[] || systemdPassed == None || systemdPassed == Some(false)) {
      checks' := checks'[ProcessCheck := probes.process];
    }
  }

  /**
   * `check_service`: runs the selected functional check, then systemd, then
   * for Node.js services PM2 and the Node.js process scan, then the process
   * fallback, and classifies what was recorded.
   */
  method CheckService(name: string, config: Config, probes: Probes) returns (report: ServiceReport)
    ensures report == ServiceReportOf(name, config, probes)
  {
    // 1. functional check
    var checks, functionalPassed := RunFunctionalCheck(config, probes);
    // 2. systemd
    checks := RecordSystemd(checks, probes);
    // 3. Node.js services
    checks, functionalPassed := RecordNodeChecks(name, checks, functionalPassed, probes);
    MapUnionAssoc(FunctionalEntry(config, probes), ProbeEntry(SystemdCheck, probes.systemd), NodeEntries(name, probes));
    assert checks == EarlyChecks(name, config, probes);
    assert functionalPassed == FunctionalPassed(name, config, probes);
    // 4. process fallback
    checks := RecordProcessFallback(checks, functionalPassed, probes);
    var state := DetermineState(checks, functionalPassed, probes.systemd.passed);
    report := ServiceReport(state, checks);
  }

  // ---------------------------------------------------------------------------
  // All services (check_all_services)
  // ---------------------------------------------------------------------------

  /** How checking one service went: its probes completed, or the check raised an exception. */
  datatype Attempt = Completed(probes: Probes) | Raised(error: string)

  /** The report for a service whose check raised: unknown, with one failed `error` check. */
  function ErrorReport(error: string): (r: ServiceReport)
    ensures r.state == Unknown && r.checks.Keys == {ErrorCheck}
    // the message is the error text, cut to its first 100 characters
    ensures !r.checks[ErrorCheck].passed && r.checks[ErrorCheck].message <= error
    ensures |r.checks[ErrorCheck].message| == if |error| <= 100 then |error| else 100
  {
    ServiceReport(Unknown, map[ErrorCheck := Check(false, Truncate(error, 100))])
  }

  function OutcomeOf(name: string, config: Config, a: Attempt): ServiceReport
  {
    match a
    case Completed(p) => ServiceReportOf(name, config, p)
    case Raised(e) => ErrorReport(e)
  }

  /** In `check_all_services`, a service is unknown exactly when its own check raised. */
  lemma OutcomeUnknownIffRaised(name: string, config: Config, a: Attempt)
    ensures OutcomeOf(name, config, a).state == Unknown <==> a.Raised?
    ensures a.Raised? ==> OutcomeOf(name, config, a).checks.Keys == {ErrorCheck}
                          && !OutcomeOf(name, config, a).checks[ErrorCheck].passed
  {
  }

  /**
   * `check_all_services`: one report per configured service. Each report
   * depends on that service's own configuration and attempt only, so a
   * service whose check raises leaves every other report as it would be.
   */
  method CheckAllServices(configs: map<string, Config>, attempts: string -> Attempt)
    returns (results: map<string, ServiceReport>)
    ensures results.Keys == configs.Keys
    ensures forall name :: name in configs ==> results[name] == OutcomeOf(name, configs[name], attempts(name))
  {
    results := map[];
    var pending := configs.Keys;
    while pending != {}
      invariant pending <= configs.Keys
      invariant results.Keys == configs.Keys - pending
      invariant forall name :: name in results ==> results[name] == OutcomeOf(name, configs[name], attempts(name))
      decreases pending
    {
      var name :| name in pending;
      match attempts(name) {
        case Completed(p) =>
          var report := CheckService(name, configs[name], p);
          results := results[name := report];
        case Raised(e) =>
          results := results[name := ErrorReport(e)];
      }
      pending := pending - {name};
    }
  }
}
