/**
 * The two Node.js probes the health checker runs for `node`/`nodejs`
 * services: the PM2 process list (`pm2 jlist`) and the scan of `ps aux`
 * output with `pgrep` as a fallback. The commands themselves are inputs;
 * what is modelled is how their output is read and which verdict results.
 */
module NodeProbes {
  import opened Wrappers
  import opened Text

  // ---------------------------------------------------------------------
  // Running a command
  // ---------------------------------------------------------------------

  /** How a `subprocess.run` call ended. */
  datatype CommandRun =
    | Ran(returnCode: int, stdout: string)
    | NotFound          // FileNotFoundError
    | TimedOut          // subprocess.TimeoutExpired
    | Crashed(error: string)  // any other exception, with its text

  // ---------------------------------------------------------------------
  // The `ps aux` scan
  // ---------------------------------------------------------------------

  /** The line mentions `node `, `npm ` or `nodejs`. */
  predicate MentionsNode(line: string)
  {
    Contains(line, "node ") || Contains(line, "npm ") || Contains(line, "nodejs")
  }

  /** A line that counts as a Node.js process: it mentions Node and is neither the grep nor a browser helper. */
  predicate LineSelected(line: string)
  {
    MentionsNode(line) && !Contains(line, "grep") && !Contains(line, "node.mojom")
  }

  /** The PID in the second whitespace-separated column, when there is one and it is an integer. */
  function LinePid(line: string): Option<int>
  {
    var parts := Fields(line);
    if |parts| >= 2 then ParseInt(parts[1]) else None
  }

  /** The line is selected and yields a PID. */
  predicate Counted(line: string)
  {
    LineSelected(line) && LinePid(line).Some?
  }

  /** The PIDs collected from `lines`, in order: one per counted line. */
  function NodePids(lines: seq<string>): seq<int>
  {
    if |lines| == 0 then []
    else
      var last := lines[|lines| - 1];
      NodePids(lines[..|lines| - 1]) + (if Counted(last) then [LinePid(last).value] else [])
  }

  /** The lines of the lower-cased `ps` output, as the scan reads them. */
  function PsLines(stdout: string): seq<string>
  {
    Split(Lower(stdout), '\n')
  }

  /** Scanning a concatenation of lines is scanning each part in turn. */
  lemma {:induction false} NodePidsAppend(a: seq<string>, b: seq<string>)
    ensures NodePids(a + b) == NodePids(a) + NodePids(b)
    decreases |b|
  {
    if |b| == 0 {
      assert a + b == a;
    } else {
      var b' := b[..|b| - 1];
      assert (a + b)[..|a + b| - 1] == a + b';
      assert (a + b)[|a + b| - 1] == b[|b| - 1];
      NodePidsAppend(a, b');
    }
  }

  /**
   * A PID is collected exactly when some counted line yields it, and no
   * more PIDs are collected than there are lines.
   */
  lemma {:induction false} NodePidsMembers(lines: seq<string>)
    ensures |NodePids(lines)| <= |lines|
    ensures forall p :: p in NodePids(lines) <==>
      exists i :: 0 <= i < |lines| && Counted(lines[i]) && LinePid(lines[i]) == Some(p)
  {
    if |lines| > 0 {
      var init := lines[..|lines| - 1];
      var last := lines[|lines| - 1];
      NodePidsMembers(init);
      forall p ensures p in NodePids(lines) <==>
        exists i :: 0 <= i < |lines| && Counted(lines[i]) && LinePid(lines[i]) == Some(p)
      {
        if p in NodePids(init) {
          var i :| 0 <= i < |init| && Counted(init[i]) && LinePid(init[i]) == Some(p);
          assert lines[i] == init[i];
        }
        if exists i :: 0 <= i < |lines| && Counted(lines[i]) && LinePid(lines[i]) == Some(p) {
          var i :| 0 <= i < |lines| && Counted(lines[i]) && LinePid(lines[i]) == Some(p);
          if i < |init| {
            assert init[i] == lines[i];
          }
        }
      }
    }
  }

  /** Some PID is collected exactly when some line is counted. */
  lemma {:induction false} NodePidsNonEmpty(lines: seq<string>)
    ensures |NodePids(lines)| > 0 <==> exists i :: 0 <= i < |lines| && Counted(lines[i])
  {
    if |lines| > 0 {
      var init, last := lines[..|lines| - 1], lines[|lines| - 1];
      NodePidsNonEmpty(init);
      if Counted(last) {
        assert Counted(lines[|lines| - 1]);
      } else {
        assert NodePids(lines) == NodePids(init);
        assert forall i :: 0 <= i < |init| ==> lines[i] == init[i];
      }
    }
  }

  /** A line mentioning `grep` is never counted, whatever else it contains. */
  lemma {:induction false} GrepLinesIgnored(lines: seq<string>)
    requires forall i :: 0 <= i < |lines| ==> Contains(lines[i], "grep")
    ensures NodePids(lines) == []
  {
    if |lines| > 0 {
      var init := lines[..|lines| - 1];
      assert forall i :: 0 <= i < |init| ==> init[i] == lines[i];
      GrepLinesIgnored(init);
      assert !LineSelected(lines[|lines| - 1]);
    }
  }

  /** The loop of `check_nodejs_processes` that collects the PIDs of Node.js processes from `ps aux`. */
  method ParseNodeProcesses(stdout: string) returns (pids: seq<int>)
    ensures pids == NodePids(PsLines(stdout))
  {
    var lines := PsLines(stdout);
    pids := [];
    var i := 0;
    while i < |lines|
      invariant 0 <= i <= |lines|
      invariant pids == NodePids(lines[..i])
    {
      var line := lines[i];
      assert lines[..i + 1][..i] == lines[..i];
      if LineSelected(line) {
        var parts := Fields(line);
        if |parts| >= 2 {
          var pid := ParseInt(parts[1]);
          if pid.Some? {
            pids := pids + [pid.value];
          }
        }
      }
      i := i + 1;
    }
    assert lines[..i] == lines;
  }

  /** What `check_nodejs_processes` reports, in place of its message text. */
  datatype NodeVerdict =
    | FoundByPs(count: nat)
    | FoundByPgrep(count: nat)
    | NoneFound
    | ToolsMissing
    | ProbeTimeout
    | ProbeError(error: string)
  {
    /** The probe's `passed` value: `None` when the probe itself failed. */
    function Passed(): Option<bool>
    {
      match this
      case FoundByPs(_) => Some(true)
      case FoundByPgrep(_) => Some(true)
      case NoneFound => Some(false)
      case _ => None
    }
  }

  /** The verdict for a command that raised. */
  function RaisedVerdict(run: CommandRun): (r: NodeVerdict)
    requires !run.Ran?
    // a command that raised gives no answer, and an error's text is cut to 50 characters
    ensures r.Passed() == None
    ensures r.ProbeError? <==> run.Crashed?
    ensures r.ProbeError? ==> r.error <= run.error && |r.error| == if |run.error| <= 50 then |run.error| else 50
  {
    match run
    case NotFound => ToolsMissing
    case TimedOut => ProbeTimeout
    case Crashed(e) => ProbeError(Truncate(e, 50))
  }

  /** The `pgrep -f node|npm` fallback: one process per line of its trimmed output. */
  function PgrepVerdict(pgrep: CommandRun): (r: NodeVerdict)
    // it passes iff `pgrep` exits 0 with a non-blank output, counting at least one process
    ensures r.Passed() == Some(true) <==> PgrepFinds(pgrep)
    ensures r.Passed() == None <==> !pgrep.Ran?
    ensures r.FoundByPgrep? || r.Passed() != Some(true)
    ensures r.FoundByPgrep? ==> r.count >= 1
  {
    match pgrep
    case Ran(code, out) =>
      StripEmpty(out);
      if code == 0 && Strip(out) != [] then FoundByPgrep(|Split(Strip(out), '\n')|) else NoneFound
    case _ => RaisedVerdict(pgrep)
  }

  /** `check_nodejs_processes`: `ps aux` first, `pgrep` when `ps` finds nothing. */
  function NodeVerdictOf(ps: CommandRun, pgrep: CommandRun): (r: NodeVerdict)
    // `ps` decides whenever it finds a Node.js line; `pgrep` is reached only when `ps` ran and found none
    ensures r.FoundByPs? <==> PsFinds(ps)
    ensures r.FoundByPs? ==> r.count >= 1
    ensures r.FoundByPgrep? ==> ps.Ran? && !PsFinds(ps) && PgrepFinds(pgrep)
    ensures !ps.Ran? ==> r.Passed() == None
  {
    match ps
    case Ran(code, out) =>
      NodePidsNonEmpty(PsLines(out));
      if code == 0 && |NodePids(PsLines(out))| > 0 then FoundByPs(|NodePids(PsLines(out))|)
      else PgrepVerdict(pgrep)
    case _ => RaisedVerdict(ps)
  }

  /** `ps` ran with exit status 0 and some line of its output is counted. */
  predicate PsFinds(ps: CommandRun)
  {
    ps.Ran? && ps.returnCode == 0 &&
    exists i :: 0 <= i < |PsLines(ps.stdout)| && Counted(PsLines(ps.stdout)[i])
  }

  /** `pgrep` ran with exit status 0 and printed some non-space character. */
  predicate PgrepFinds(pgrep: CommandRun)
  {
    pgrep.Ran? && pgrep.returnCode == 0 &&
    exists k :: 0 <= k < |pgrep.stdout| && !IsSpace(pgrep.stdout[k])
  }

  /**
   * The probe passes exactly when `ps` finds a Node.js line, or `ps` runs
   * without finding one and `pgrep` finds a process; it answers `None`
   * exactly when the command it reached raised.
   */
  lemma NodeVerdictPassed(ps: CommandRun, pgrep: CommandRun)
    ensures NodeVerdictOf(ps, pgrep).Passed() == Some(true) <==>
      PsFinds(ps) || (ps.Ran? && !PsFinds(ps) && PgrepFinds(pgrep))
    ensures NodeVerdictOf(ps, pgrep).Passed() == None <==>
      !ps.Ran? || (!PsFinds(ps) && !pgrep.Ran?)
  {
    if ps.Ran? {
      NodePidsNonEmpty(PsLines(ps.stdout));
    }
    if pgrep.Ran? {
      StripEmpty(pgrep.stdout);
    }
  }

  /** `check_nodejs_processes`, with the two command runs as inputs. */
  method CheckNodejsProcesses(ps: CommandRun, pgrep: CommandRun) returns (verdict: NodeVerdict)
    ensures verdict == NodeVerdictOf(ps, pgrep)
  {
    if !ps.Ran? {
      return RaisedVerdict(ps);
    }
    if ps.returnCode == 0 {
      var pids := ParseNodeProcesses(ps.stdout);
      if |pids| > 0 {
        return FoundByPs(|pids|);
      }
    }
    verdict := PgrepVerdict(pgrep);
  }

  // ---------------------------------------------------------------------
  // PM2
  // ---------------------------------------------------------------------

  /** One record of the `pm2 jlist` list: its `name`, `pid` and `pm2_env.status`, each possibly absent. */
  datatype Pm2Process = Pm2Process(name: Option<string>, pid: Option<int>, status: Option<string>)

  /** The decoded output of `pm2 jlist`, or a JSON decoding error. */
  datatype Pm2Output = Parsed(processes: seq<Pm2Process>) | Malformed

  /** How the `pm2 jlist` call ended. */
  datatype Pm2Run =
    | Pm2Ran(returnCode: int, output: Pm2Output)
    | Pm2NotFound
    | Pm2TimedOut
    | Pm2Crashed(error: string)

  /** `proc.get('name', '')`. */
  function NameOf(p: Pm2Process): string
  {
    match p.name
    case Some(n) => n
    case None => ""
  }

  /** `proc.get('pm2_env', {}).get('status', 'unknown')`. */
  function StatusOf(p: Pm2Process): string
  {
    match p.status
    case Some(s) => s
    case None => "unknown"
  }

  predicate Online(p: Pm2Process)
  {
    p.status == Some("online")
  }

  /** The record's name contains the service name, both lower-cased. */
  predicate NameMatches(p: Pm2Process, service: string)
  {
    Contains(Lower(NameOf(p)), Lower(service))
  }

  /** The number of records whose status is `online`. */
  function OnlineCount(procs: seq<Pm2Process>): nat
  {
    if |procs| == 0 then 0
    else OnlineCount(procs[..|procs| - 1]) + (if Online(procs[|procs| - 1]) then 1 else 0)
  }

  /** The count is positive exactly when some record is online, and never exceeds the list. */
  lemma {:induction false} OnlineCountPositive(procs: seq<Pm2Process>)
    ensures OnlineCount(procs) <= |procs|
    ensures OnlineCount(procs) > 0 <==> exists i :: 0 <= i < |procs| && Online(procs[i])
  {
    if |procs| > 0 {
      var init := procs[..|procs| - 1];
      OnlineCountPositive(init);
      if exists i :: 0 <= i < |init| && Online(init[i]) {
        var i :| 0 <= i < |init| && Online(init[i]);
        assert procs[i] == init[i];
      }
      if exists i :: 0 <= i < |procs| && Online(procs[i]) {
        var i :| 0 <= i < |procs| && Online(procs[i]);
        if i < |init| { assert init[i] == procs[i]; }
      }
    }
  }

  /** `sum(1 for p in processes if ... == 'online')`. */
  method CountOnline(procs: seq<Pm2Process>) returns (count: nat)
    ensures count == OnlineCount(procs)
  {
    count := 0;
    var i := 0;
    while i < |procs|
      invariant 0 <= i <= |procs|
      invariant count == OnlineCount(procs[..i])
    {
      assert procs[..i + 1][..i] == procs[..i];
      if Online(procs[i]) {
        count := count + 1;
      }
      i := i + 1;
    }
    assert procs[..i] == procs;
  }

  /** The index of the first record whose name matches the service, searching from `from`. */
  function FirstMatch(procs: seq<Pm2Process>, service: string, from: nat): (r: Option<nat>)
    requires from <= |procs|
    ensures r.Some? ==> from <= r.value < |procs| && NameMatches(procs[r.value], service)
    ensures r.Some? ==> forall j :: from <= j < r.value ==> !NameMatches(procs[j], service)
    ensures r.None? ==> forall j :: from <= j < |procs| ==> !NameMatches(procs[j], service)
    decreases |procs| - from
  {
    if from == |procs| then None
    else if NameMatches(procs[from], service) then Some(from)
    else FirstMatch(procs, service, from + 1)
  }

  /** The `for proc in processes` search for the service by name. */
  method FindByName(procs: seq<Pm2Process>, service: string) returns (found: Option<nat>)
    ensures found == FirstMatch(procs, service, 0)
  {
    var i := 0;
    while i < |procs|
      invariant 0 <= i <= |procs|
      invariant FirstMatch(procs, service, 0) == FirstMatch(procs, service, i)
    {
      if NameMatches(procs[i], service) {
        return Some(i);
      }
      i := i + 1;
    }
    return None;
  }

  /** What `check_pm2` reports, in place of its message text. */
  datatype Pm2Verdict =
    | Pm2Unavailable                          // non-zero exit status
    | NoPm2Processes                          // an empty list
    | ServiceOnline(name: string, pid: Option<int>)
    | ServiceNotOnline(name: string, status: string)
    | ServiceNotFound(service: string)
    | SomeOnline(count: nat)
    | NoneOnline
    | Pm2ParseError
    | Pm2NotInstalled
    | Pm2Timeout
    | Pm2Error(error: string)
  {
    /** The probe's `passed` value: `None` when PM2 could not be asked. */
    function Passed(): Option<bool>
    {
      match this
      case ServiceOnline(_, _) => Some(true)
      case SomeOnline(_) => Some(true)
      case NoPm2Processes => Some(false)
      case ServiceNotOnline(_, _) => Some(false)
      case ServiceNotFound(_) => Some(false)
      case NoneOnline => Some(false)
      case _ => None
    }
  }

  /** Python's truth value of the optional service name. */
  predicate NameGiven(service: Option<string>)
  {
    service.Some? && service.value != []
  }

  /** The verdict on a non-empty process list. */
  function ListVerdict(procs: seq<Pm2Process>, service: Option<string>): Pm2Verdict
    requires |procs| > 0
  {
    if NameGiven(service) then
      match FirstMatch(procs, service.value, 0)
      case Some(i) =>
        if StatusOf(procs[i]) == "online" then ServiceOnline(NameOf(procs[i]), procs[i].pid)
        else ServiceNotOnline(NameOf(procs[i]), StatusOf(procs[i]))
      case None => ServiceNotFound(service.value)
    else if OnlineCount(procs) > 0 then SomeOnline(OnlineCount(procs))
    else NoneOnline
  }

  /** `check_pm2(service_name)`. */
  function Pm2VerdictOf(service: Option<string>, run: Pm2Run): (r: Pm2Verdict)
    // no answer exactly when PM2 could not be asked or its output did not decode
    ensures r.Passed() == None <==> !Listed(run)
    // the count of online processes is reported only without a service name, and is within the list
    ensures r.SomeOnline? ==> Listed(run) && !NameGiven(service) && 1 <= r.count <= |run.output.processes|
    // a by-name verdict only when a name was given and PM2 listed some processes
    ensures r.ServiceOnline? || r.ServiceNotOnline? || r.ServiceNotFound? ==>
      Listed(run) && |run.output.processes| > 0 && NameGiven(service)
    // only an unexpected exception yields an error verdict, carrying the first 50 characters of its text
    ensures r.Pm2Error? <==> run.Pm2Crashed?
    ensures r.Pm2Error? ==> r.error <= run.error && |r.error| == if |run.error| <= 50 then |run.error| else 50
  {
    match run
    case Pm2Ran(code, output) =>
      if code != 0 then Pm2Unavailable
      else (
        match output
        case Malformed => Pm2ParseError
        case Parsed(procs) =>
          OnlineCountPositive(procs);
          if |procs| == 0 then NoPm2Processes else ListVerdict(procs, service)
      )
    case Pm2NotFound => Pm2NotInstalled
    case Pm2TimedOut => Pm2Timeout
    case Pm2Crashed(e) => Pm2Error(Truncate(e, 50))
  }

  /** PM2 ran, exited with status 0 and its output decoded. */
  predicate Listed(run: Pm2Run)
  {
    run.Pm2Ran? && run.returnCode == 0 && run.output.Parsed?
  }

  /** The listed processes pass: by name, the first match is online; otherwise some process is. */
  predicate ListPasses(procs: seq<Pm2Process>, service: Option<string>)
  {
    if NameGiven(service) then
      var i := FirstMatch(procs, service.value, 0);
      i.Some? && Online(procs[i.value])
    else
      exists k :: 0 <= k < |procs| && Online(procs[k])
  }

  /**
   * The PM2 probe passes exactly when PM2 lists some processes and they
   * pass; it answers `None` exactly when PM2 could not be asked or its
   * output did not decode.
   */
  lemma Pm2VerdictPassed(service: Option<string>, run: Pm2Run)
    ensures Pm2VerdictOf(service, run).Passed() == Some(true) <==>
      Listed(run) && |run.output.processes| > 0 && ListPasses(run.output.processes, service)
    ensures Pm2VerdictOf(service, run).Passed() == None <==> !Listed(run)
  {
    if Listed(run) {
      OnlineCountPositive(run.output.processes);
    }
  }

  /** `check_pm2`, with the `pm2 jlist` run and its decoded output as input. */
  method CheckPm2(service: Option<string>, run: Pm2Run) returns (verdict: Pm2Verdict)
    ensures verdict == Pm2VerdictOf(service, run)
  {
    match run {
      case Pm2NotFound => return Pm2NotInstalled;
      case Pm2TimedOut => return Pm2Timeout;
      case Pm2Crashed(e) => return Pm2Error(Truncate(e, 50));
      case Pm2Ran(code, output) =>
        if code != 0 {
          return Pm2Unavailable;
        }
        if output.Malformed? {
          return Pm2ParseError;
        }
        var procs := output.processes;
        if |procs| == 0 {
          return NoPm2Processes;
        }
        if NameGiven(service) {
          var found := FindByName(procs, service.value);
          if found.Some? {
            var p := procs[found.value];
            var status := StatusOf(p);
            if status == "online" {
              return ServiceOnline(NameOf(p), p.pid);
            }
            return ServiceNotOnline(NameOf(p), status);
          }
          return ServiceNotFound(service.value);
        }
        var count := CountOnline(procs);
        if count > 0 {
          return SomeOnline(count);
        }
        return NoneOnline;
    }
  }
}
