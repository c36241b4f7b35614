# VM agent service-health core, in Dafny

This project models the decision logic of the monitoring agent that runs on each VM (`agent/agent.py`). It covers five pieces:

- **Service health checker** (`ServiceHealth`):
  - which functional probe `check_service` selects from a service's configuration (HTTP, TCP port, Unix socket or command);
  - how the `checks` map is built: functional probe, then systemd, then PM2 and the Node.js process scan for `node`/`nodejs` services, then the process fallback;
  - how `_determine_state` turns the recorded checks into `healthy`, `degraded`, `down` or `unknown`;
  - how `check_all_services` keeps a failing service from affecting the others.
- **Default configurations** (`DefaultConfigs`): the built-in table of service configurations, and the map the agent builds from its list of monitored services.
- **Node.js probes** (`NodeProbes`):
  - how `check_nodejs_processes` reads `ps aux` output, and its `pgrep` fallback;
  - how `check_pm2` counts online processes or searches for one by name.
- **Discovery URL** (`Discovery`): the base URL derived from the configured server URL.
- **Broadcast counters** (`Broadcast`):
  - the counters of the metric broadcast loop, which sends to storage on every `storageCycles`-th cycle;
  - the `config_update` handler, which replaces the intervals and resets the counters.

`Text` models the parts of Python's `str` the agent uses:

- substring search;
- `rstrip('/')`, `strip()`, `split('\n')`, `split()` and `lower()`;
- `int()` on a single field;
- slicing.

`Wrappers` holds `Option`.

Probes are inputs. A `ServiceHealth.Probes` value holds what each probe reports for one service: functional probes and the process check as `Check(passed, message)`, systemd, PM2 and the Node.js scan as three-valued `Probe(passed, message)`. A `NodeProbes.CommandRun` or `NodeProbes.Pm2Run` holds how a command ended. `check_all_services` takes a per-service `Attempt`: the probes completed, or the check raised with a message. A broadcast cycle takes whether collecting and emitting the metrics succeeded.

Three specification functions describe the results: `ServiceReportOf` for `check_service`, `NodeVerdictOf` for `check_nodejs_processes` and `Pm2VerdictOf` for `check_pm2`. Each is paired with a method that does the same work step by step or with a loop, and is proved equal to it. The lemmas then state what those functions guarantee.

The server's metric-sample format names only `healthy`, `degraded` and `down` as service states. The agent's code can also report `unknown`, from `_determine_state` and `check_all_services`; the model follows the code.

## Model

| member | source | states |
|---|---|---|
| ServiceHealth.DetermineState | agent/agent.py:489-516 | No checks gives unknown. Otherwise a passed functional check gives healthy. A failed functional check gives degraded exactly when systemd or the process check reports running, and down exactly when neither does. With no functional check: healthy iff running, down iff not running and one of them explicitly failed, unknown iff neither gave an answer. Degraded only ever follows a failed functional check. |
| ServiceHealth.KeyNames | agent/agent.py:433-501 | Distinct check keys are written under distinct names, and the functional keys are exactly `http`, `tcp_port`, `unix_socket` and `command`, the names `_determine_state` tests. |
| ServiceHealth.FailedFunctionalNeverHealthy | agent/agent.py:501-508 | A recorded but failed functional check classifies as degraded or down, never healthy or unknown. |
| ServiceHealth.SystemdNoneWithoutProcessIsUnknown | agent/agent.py:511-516 | With no functional check, a `None` systemd result and no process entry, the state is unknown. |
| ServiceHealth.CheckTypeOf | agent/agent.py:429 | A configuration without `check_type` is treated as `auto`. |
| ServiceHealth.SelectFunctional | agent/agent.py:429-449 | An explicit `check_type` of http/tcp/socket/command selects that probe. With `auto` (or no `check_type`), the first present key of `url`, `port`, `socket_path`, `command` decides. Any other `check_type` selects nothing. |
| ServiceHealth.RunFunctionalCheck | agent/agent.py:424-449 | Records exactly the selected probe under its fixed key, and `functional_passed` equals that probe's flag (false when none is selected). |
| ServiceHealth.RecordSystemd | agent/agent.py:451-454 | Adds the systemd entry exactly when systemd answered, and leaves the other entries unchanged. |
| ServiceHealth.RecordNodeChecks | agent/agent.py:456-470 | For `node`/`nodejs` names (any case), adds the PM2 and Node.js-scan entries that answered. `functional_passed` becomes true when either passed, and nothing else changes it. |
| ServiceHealth.RecordProcessFallback | agent/agent.py:472-479 | Adds the process entry exactly when `functional_passed` is false and the map is empty or systemd gave `None` or `False`. |
| ServiceHealth.ServiceReportOf | agent/agent.py:419-487 | The report of `check_service` always holds some check, never the `error` entry, and is never unknown. |
| ServiceHealth.CheckService | agent/agent.py:419-487 | The steps in order produce exactly the report `ServiceReportOf` describes. |
| ServiceHealth.FunctionalEntries | agent/agent.py:429-449 | At most one functional key is recorded: the key of the selected kind, holding that probe's result. |
| ServiceHealth.HasFunctionalIffSelected | agent/agent.py:429-449 | A functional key is present in the final checks iff a functional probe was selected. |
| ServiceHealth.ProbeEntries | agent/agent.py:451-470 | No `error` entry. A systemd entry, with systemd's value, iff systemd answered. PM2 and Node.js-scan entries iff the service is `node`/`nodejs` and that probe answered. |
| ServiceHealth.ProcessEntry | agent/agent.py:472-479 | The process entry is present iff `functional_passed` is false and systemd did not pass; its value is the process probe's. The empty-map condition adds no extra case. |
| ServiceHealth.ServiceStateSummary | agent/agent.py:419-516 | The state of `check_service` in terms of the probes alone: healthy when functional passed; otherwise, if systemd or the process probe passed, degraded with a selected functional probe and healthy without one; otherwise down. |
| ServiceHealth.ErrorReport | agent/agent.py:526-530 | The report of a check that raised: state unknown, exactly one failed `error` entry whose message is the first 100 characters of the error text. |
| ServiceHealth.OutcomeUnknownIffRaised | agent/agent.py:518-532 | A service result is unknown iff its check raised. Then its checks are exactly one failed `error` entry. |
| ServiceHealth.CheckAllServices | agent/agent.py:518-532 | The results have exactly the configured names as keys. Each is that service's own report, or the error report with its message cut to 100 characters, whatever happens to the other services. |
| DefaultConfigs.ShapeSelects | agent/agent.py:546-638 | Each shape of table entry selects the probe its `check_type` names, and that probe's target key is present. The `auto` shape selects none. |
| DefaultConfigs.DefaultServiceConfig | agent/agent.py:546-638 | A name in the table gets the configuration of an entry with that name; any other name gets `{'check_type': 'auto'}`. |
| DefaultConfigs.LookupSound | agent/agent.py:638 | Being found in the table means an entry with that name exists and gives that configuration. Not being found means no entry has that name. |
| DefaultConfigs.AutoEntriesAreNode | agent/agent.py:550-636 | In the table, exactly the `node` and `nodejs` entries use the `auto` configuration. |
| DefaultConfigs.DefaultConfigsConsistent | agent/agent.py:546-638 | Every default configuration that selects a functional probe also carries its target. A service gets no functional probe iff it is not in the table or is `node`/`nodejs`. |
| DefaultConfigs.BuildServiceConfigs | agent/agent.py:534-544 | The configuration map has exactly the monitored names as keys, each holding that name's default configuration. |
| Discovery.DiscoveryUrl | agent/agent.py:27-30 | Always a prefix of the server URL, with no `/api/` in it. With `/api/` present, it is cut at the first occurrence. Otherwise only trailing `/` are removed, and the result does not end in `/`. |
| Discovery.DiscoveryUrlStable | agent/agent.py:27-30 | Without `/api/`, deriving the discovery URL twice gives the same as once. |
| Discovery.ServerUrl | agent/agent.py:25 | A configured `server_url` is used as it is; without one, the URL is `http://localhost:5000`, which is already its own discovery URL. |
| Discovery.DefaultIsBase | agent/agent.py:25-30 | The default server URL has no `/api/` and no trailing `/`, so the discovery URL derived from it is the default URL itself. |
| Text.IndexOf | agent/agent.py:27-28 | `'/api/' in url` holds iff a first occurrence exists, and the index returned is that first occurrence. |
| Text.RStrip | agent/agent.py:30 | `rstrip('/')` yields a prefix. Everything removed is `/`, and the result does not end in `/`. |
| Text.Split | agent/agent.py:378 | `split('\n')` yields at least one piece, and no piece contains a newline. |
| Text.JoinSplit | agent/agent.py:378 | Joining the pieces of `split('\n')` with newlines restores the text. |
| Text.Fields | agent/agent.py:387 | `split()` yields non-empty fields without whitespace. |
| Text.FieldsWeave | agent/agent.py:387 | `split()` loses only whitespace: the text is its fields interleaved with all-whitespace gaps, the gaps between two fields being non-empty, so `parts[1]` is the second whitespace-separated column. |
| Text.StripEmpty | agent/agent.py:406 | `strip()` leaves nothing iff every character is whitespace. |
| Text.Strip | agent/agent.py:406-407 | `strip()` is a slice of the text with only whitespace outside it, and starts and ends with a non-space character when not empty. |
| Text.Lower | agent/agent.py:378 | `lower()` keeps the length, turns every upper-case ASCII letter into its lower-case letter, and changes nothing else. |
| Text.ParseInt | agent/agent.py:389-393 | `int()` succeeds exactly on an optional sign followed by at least one digit, and the value is negative only after a `-`; anything else is the `ValueError` that skips the line. |
| Text.ParseIntDecimal | agent/agent.py:390 | `int()` reads back the decimal text of a number, with or without a sign. |
| Text.Truncate | agent/agent.py:529 | `s[:n]` is the prefix of `s` of length `n`, or `s` itself when it is shorter. |
| NodeProbes.ParseNodeProcesses | agent/agent.py:378-396 | The scan of the lower-cased `ps` output collects exactly `NodePids` of its lines: one PID per selected line with an integer second field, in order. |
| NodeProbes.NodePidsMembers | agent/agent.py:381-393 | A PID is collected iff some line mentions `node `/`npm `/`nodejs`, mentions neither `grep` nor `node.mojom`, and has that PID as its second field. At most one PID per line. |
| NodeProbes.NodePidsNonEmpty | agent/agent.py:381-396 | Some PID is collected iff some line is counted. |
| NodeProbes.NodePidsAppend | agent/agent.py:381-393 | Scanning lines `a + b` collects the PIDs of `a` followed by those of `b`. |
| NodeProbes.GrepLinesIgnored | agent/agent.py:385 | Lines that all mention `grep` yield no PIDs. |
| NodeProbes.RaisedVerdict | agent/agent.py:412-417 | A command that raised gives no answer (`None`); only a generic exception carries an error text, cut to its first 50 characters. |
| NodeProbes.PgrepVerdict | agent/agent.py:398-417 | The `pgrep` fallback passes iff it exits 0 with non-blank output, then counting at least one process; it answers `None` iff the command raised. |
| NodeProbes.NodeVerdictOf | agent/agent.py:366-417 | `ps` decides with a count of at least one exactly when it finds a counted line; `pgrep` decides only when `ps` ran and found none; a `ps` that raised gives `None`. |
| NodeProbes.CheckNodejsProcesses | agent/agent.py:366-417 | `ps` first; `pgrep` only when `ps` failed or found nothing; the exceptions give `None`. The result is exactly `NodeVerdictOf`. |
| NodeProbes.NodeVerdictPassed | agent/agent.py:366-417 | The probe passes iff `ps` finds a counted line, or `ps` runs without one and `pgrep` exits 0 with non-blank output. It answers `None` iff the command it reached raised. |
| NodeProbes.CountOnline | agent/agent.py:350 | The loop counts exactly `OnlineCount`: the records whose status is `online`. |
| NodeProbes.OnlineCountPositive | agent/agent.py:350-354 | The online count is positive iff some record is online, and is at most the number of records. |
| NodeProbes.FirstMatch | agent/agent.py:339-341 | Returns the first record whose lower-cased name contains the lower-cased service name; none is returned iff no record matches. |
| NodeProbes.FindByName | agent/agent.py:339-348 | The search loop stops at exactly `FirstMatch`. |
| NodeProbes.Pm2VerdictOf | agent/agent.py:317-364 | No answer iff PM2 could not be asked or its output did not decode. An online count is reported only without a service name and lies between 1 and the list length. A by-name verdict needs a given name and a non-empty list. Only an unexpected exception gives the error verdict, and it carries exactly the first 50 characters of the error text. |
| NodeProbes.CheckPm2 | agent/agent.py:317-364 | Runs the steps in source order: exit status, decoding, an empty list, then the by-name search or the online count. The result is exactly `Pm2VerdictOf`. |
| NodeProbes.Pm2VerdictPassed | agent/agent.py:317-364 | PM2 passes iff it lists some processes and they pass: with a name, the first match is online; without one, some process is online. It answers `None` iff PM2 could not be asked or its output did not decode. |
| Broadcast.StorageSendsClosedForm | agent/agent.py:801-807 | Over `n` successful cycles with a send whenever the counter is a multiple of `c`, there are `ceil(n / c)` sends. |
| Broadcast.StorageSendsPeriodic | agent/agent.py:801-807 | Every `c` consecutive cycles hold exactly one storage send. |
| Broadcast.StorageSendsEveryCycle | agent/agent.py:801-807 | With `storage_cycles` equal to 1, every cycle sends. |
| Broadcast.Agent.constructor | agent/agent.py:33-41 | The agent starts with the configured intervals and both counters at 0. |
| Broadcast.Agent.BroadcastCycle | agent/agent.py:792-810 | A successful cycle sends to storage iff the broadcast counter is a multiple of `storage_cycles`, and increments the broadcast counter. Each send increments the storage counter, and is the one send `StorageSends` adds for that step. A failed cycle, or `storage_cycles` of 0, changes nothing. The agreement between the two counters is preserved. |
| Broadcast.Agent.Run | agent/agent.py:783-812 | Over a run of cycles, the broadcast counter grows by the number that emitted. The number of sends is exactly the number of multiples of `storage_cycles` the broadcast counter passed, whatever the starting counters; the storage counter grows by it, and stays in agreement with the broadcast counter. |
| Broadcast.Agent.ConfigUpdate | agent/agent.py:827-843 | A matching `vmId` (both absent counts as matching) sets only the intervals the event carries and resets both counters. Any other event changes nothing. |
| Broadcast.RunFromReset | agent/agent.py:783-807 | From start-up, `n` successful cycles leave the broadcast counter at `n` and the storage counter at `ceil(n / storage_cycles)`. |

## Left out

- The probes are inputs:
  - HTTP GET, TCP and Unix socket connects, command runs, `systemctl`, the process-table search, `pm2 jlist`, `ps aux` and `pgrep` are operating-system and network I/O;
  - `json.loads` of the PM2 output is given as a decoded list of records, or as a decoding error;
  - list-shaped JSON is assumed: a JSON object or scalar in place of the list, and records that are not objects, are not modelled.
- Probe messages:
  - the PM2 and Node.js probes return structured verdicts (`Pm2Verdict`, `NodeVerdict`) in place of their formatted message text;
  - in `ServiceHealth` every message is an opaque string.
- `NodeProbes.CheckPm2` is not wired into `ServiceHealth`. `check_service` calls `check_pm2()` without a service name. `ServiceHealth.Probes` takes the PM2 and Node.js results as `Probe` values, which correspond to `Pm2Verdict.Passed()` and `NodeVerdict.Passed()`.
- `Text.Lower` changes only the ASCII letters. Python's `lower()` also maps other Unicode letters.
- `Text.ParseInt` accepts an optional sign and ASCII digits. It does not accept digit-group underscores, non-ASCII digits or surrounding whitespace; `split()` fields never carry the whitespace.
- Metric collection through `psutil`/`os` and the floating-point percentages are left out: they are operating-system I/O.
- The timestamp functions are left out: they read the wall clock.
- Loading `config.json` is file I/O. `storage_cycles = int(STORAGE_INTERVAL / BROADCAST_INTERVAL)` is floating-point division; `storage_cycles` is a natural-number parameter instead.
- `Broadcast.Agent.Run` models a finite run of cycles with `storage_cycles` fixed, as the source computes it once before its endless loop.
  - Also left out: the `asyncio.sleep` timing, and the interleaving of `config_update` with the loop.
- `Broadcast.Agent.ConfigUpdate` treats an interval key as either absent or holding a number. A key present with a `null` value, which the source would store, is not modelled.
- The second `config_update` handler (agent/agent.py:847-863) is identical to the one modelled and is not repeated.
- The Socket.IO and aiohttp servers, the registration and reconnect loops, and `send_to_server_for_storage` are left out: they are network plumbing. A storage send counts whether or not the server connection is up, as in the source.
- Dictionary iteration order in `check_all_services` is left out. Each result depends only on its own service, so the map is the same in any order.
- The alert-evaluation engine is not part of this model: it lives in server code outside `agent/agent.py`.
