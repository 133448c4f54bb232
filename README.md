# rainbowd: zero-downtime redeploys, modelled in Dafny

rainbowd runs one backend process behind a front HTTP server on port 7000. A redeploy
(`POST /redeploy/` on the control port, or start-up) launches a new backend on a
fresh port. When the new backend is judged ready, the live-backend pointer switches to it,
and the backend that was live when the launch began is flagged as "expected to die" and sent TERM. The exit callback
of a backend tests exec's `error` argument before it reads the flag: any exit that exec
reports as an error is fatal, and so is a clean exit of an unflagged backend. A backend
that dies from the TERM itself reaches the callback with an error (the signal, or the
shell's exit code 143), so it too stops the daemon; the flag only saves a backend that
catches TERM and exits with code 0. Readiness is decided by one of two strategies, chosen
from the configuration:
- a health check: probe the backend until three probes in a row get an HTTP response
  (of any status code: a 404 or a 500 counts as a success, only a request error counts as
  a failure), or until a 15-second timeout forces the switch;
- a fixed warmup delay.

index.js is the earlier version of the same daemon. It has no readiness strategy: it switches
as soon as the port is known and kills the old process with `kill()`.

The model has one module per concern:

- `Lifecycle` (lifecycle.dfy): the exit-callback verdict and the request handler's
  guard, which both daemons share.
- `HealthCheck` (health_check.dfy): the closure of `healthCheckCutover`.
  - Pure transition functions `Fire`, `Probe`, `Succeeded`, `Failed` and `TimedOut` over the
    `Checker` record.
  - `Run` over a sequence of events.
  - Reference definitions on the event history: `Streak` (successes since the last failure),
    `Answers` and `Triggered`.
  - The class `HealthCheckCutover`, whose methods update the closure variables in place and
    are proved equal to the pure transitions.
- `Config` (config.dfy): start-up validation of `warmupTime` / `healthCheckPath`, with
  JavaScript truthiness, and the per-launch choice of strategy.
- `Rainbowd` (rainbowd.dfy): the daemon of rainbowd.js.
  - The live pointer `backend`, the backend records with their `expectToDie` flag, the pending
    launches (each one the `old_backend` captured by a `launchBackend` call, plus its candidate
    once spawned), and the TERM signals sent.
  - Pure operations, an invariant `Valid`, runs of events, and the class `Daemon`, whose
    methods are proved equal to the pure operations.
- `Legacy` (legacy.dfy): the same for index.js (`server_port`, `server_process`,
  `time_to_die`, `kill()`).

Effects become inputs or records:
- A probe answer and the timer are events delivered to the checker.
- A found port and a fresh backend identity are arguments.
- A `kill`/TERM is an entry appended to a sequence.
- `process.exit(1)` is the `Fatal` outcome.

Notes on the code:
- Overlapping deploys orphan a backend. Two launches begun while the same backend is live
  both capture it, and both cutovers flag and TERM that one backend. If the cutovers fire in
  launch order, the first candidate is left running unflagged. If they fire in reverse order,
  the older candidate becomes live again and the newer one is left running unflagged. Either
  orphan's eventual exit is fatal. The same happens when the start-up launch and an early
  redeploy both capture "no backend".
- With no live backend, the request handler throws. It does not answer 503. Nothing catches
  the exception, so it ends the daemon process just as `process.exit` does. The front server
  listens before the first cutover, so a request during the first warmup or health check
  kills the daemon. This branch is `RouteResult.NoBackend`.
- There is no backend limit and no drain delay before TERM.
- The exit callback does not clear the live pointer. An unflagged exit is fatal in any case.

## Model

| member | source | states |
|---|---|---|
| Lifecycle.ClassifyExit | rainbowd.js:95-108 | an exit lets the daemon continue exactly when exec reported no error and the process was flagged to die; any error is fatal |
| Lifecycle.RouteTo | rainbowd.js:159-163 | no known port takes the throwing branch, which ends the daemon; a known port means the request is forwarded to that port |
| HealthCheck.Fire | rainbowd.js:33-39 | `startCutover` leaves a started cutover untouched; otherwise it starts the cutover and calls the callback once |
| HealthCheck.Probe | rainbowd.js:41-50 | `check` sends no probe once the cutover has started; otherwise it sends exactly one probe |
| HealthCheck.StartValid | rainbowd.js:27-78 | the strategy starts with zero counters, no cutover, and exactly one probe out |
| HealthCheck.Succeeded | rainbowd.js:52-61 | both counters go up by one; the cutover starts exactly when the streak reaches 3; below 3 another probe is sent; the invariant is kept |
| HealthCheck.Failed | rainbowd.js:63-67 | the streak resets to 0 and attempts go up by one; another probe is sent unless the cutover started; the invariant is kept |
| HealthCheck.TimedOut | rainbowd.js:69-76 | the timeout forces the cutover if it has not started: one callback call, and the counters and the outstanding probe stay as they were; after a cutover it changes nothing |
| HealthCheck.RunKeepsInv | rainbowd.js:27-78 | along any event sequence, successes ≤ attempts, probes sent = answers + outstanding, at most one probe is outstanding, and one is outstanding until the cutover |
| HealthCheck.CutoverFiresAtMostOnce | rainbowd.js:33-39 | whatever the probes answer and whenever the timeout fires, the cutover callback runs at most once, and it has run exactly when the cutover has started |
| HealthCheck.CountersBeforeCutover | rainbowd.js:52-67 | before the cutover, `successfulChecks` equals the successes since the last failure, `attemptedChecks` equals the answers received, and no timeout has fired |
| HealthCheck.StaysStarted | rainbowd.js:33-44 | no event un-starts a cutover |
| HealthCheck.StartedIffTriggered | rainbowd.js:52-76 | the cutover has started exactly when some prefix of the history ends in the timeout or in three consecutive successes |
| HealthCheck.QuietAfterCutover | rainbowd.js:41-44 | from a started cutover, no sequence of events sends a probe or calls the callback |
| HealthCheck.NoProbesAfterCutover | rainbowd.js:41-44 | once the history holds a timeout or three consecutive successes, no later events send a probe or call the callback again |
| HealthCheck.FailTwiceThenPassThrice | rainbowd.js:52-67 | two failures and two successes leave the cutover unstarted; a third success starts it after five probes |
| HealthCheck.TimeoutFallsOpen | rainbowd.js:69-76 | probes that only fail, followed by the timeout, start the cutover with exactly one callback call |
| HealthCheck.HealthCheckCutover.constructor | rainbowd.js:27-78 | the closure starts in the `Start` state and keeps the port, path and timeout |
| HealthCheck.HealthCheckCutover.StartCutover | rainbowd.js:33-39 | the in-place update equals `Fire` |
| HealthCheck.HealthCheckCutover.Check | rainbowd.js:41-50 | the in-place update equals `Probe` |
| HealthCheck.HealthCheckCutover.SuccessfulCheck | rainbowd.js:52-61 | the in-place update equals `Succeeded` and keeps the invariant |
| HealthCheck.HealthCheckCutover.FailedCheck | rainbowd.js:63-67 | the in-place update equals `Failed` and keeps the invariant |
| HealthCheck.HealthCheckCutover.Timeout | rainbowd.js:71-76 | the in-place update equals `TimedOut` and keeps the invariant |
| Config.Validate | rainbowd.js:197-201 | the configuration is accepted exactly when one of `warmupTime` and `healthCheckPath` is set; both set and neither set are the two distinct errors |
| Config.SelectStrategy | rainbowd.js:146-154 | the health check (timeout 15000 ms) is chosen exactly when a path is set; otherwise the warmup delay when set; otherwise a 15000 ms fallback delay |
| Config.Startup | rainbowd.js:197-202 | start-up fails exactly when zero or both strategies are set; a configuration that passes never reaches the fallback, and the strategy chosen is the one that was set |
| Rainbowd.Initial | rainbowd.js:13-15 | the daemon starts with no live backend and nothing sent TERM, and satisfies the invariant |
| Rainbowd.BeginLaunch | rainbowd.js:80-81 | a launch captures the backend live at call time as its `old_backend`; nothing else changes |
| Rainbowd.Spawn | rainbowd.js:82-109 | the candidate is recorded unflagged on its port; traffic does not move yet; the invariant is kept |
| Rainbowd.Swap | rainbowd.js:120-144 | the candidate becomes live; a captured backend is flagged and sent TERM (and the new live backend is never it); with no captured backend nothing is sent TERM and no flag changes; the invariant is kept |
| Rainbowd.ExitOutcome | rainbowd.js:95-108 | a backend's exit lets the daemon continue exactly when it was clean and the backend was flagged |
| Rainbowd.Route | rainbowd.js:159-163 | with no live backend the handler throws, ending the daemon; otherwise the request is forwarded to the live backend's port |
| Rainbowd.Run | rainbowd.js:80-144 | every sequence of redeploys, port lookups and cutovers keeps the invariant: the live backend is unflagged, candidates are distinct and unflagged, and only flagged backends were sent TERM |
| Rainbowd.BackendStaysLive | rainbowd.js:120-144 | once a backend is live, no run leaves the daemon without one, so the handler never takes the throwing branch again |
| Rainbowd.RetirementIsPermanent | rainbowd.js:128-143 | along any run, a flagged backend stays flagged and never becomes live again |
| Rainbowd.LiveBackendIsNotRetired | rainbowd.js:95-108 | the live backend has never been sent TERM, and its exit is fatal |
| Rainbowd.RetiredExitIsExpected | rainbowd.js:99-107 | a backend that was sent TERM and exits cleanly is an expected exit |
| Rainbowd.SequentialDeploys | rainbowd.js:128-143 | the first deploy sends no TERM; the second makes its own backend live and retires exactly the first |
| Rainbowd.OverlappingDeploysOrphanACandidate | rainbowd.js:80-144 | two overlapping deploys whose cutovers fire in reverse order make the older candidate live, send TERM to the old backend twice, and leave the newer candidate running unflagged, so its exit is fatal |
| Rainbowd.ForwardOrderOrphans | rainbowd.js:80-144 | two overlapping deploys whose cutovers fire in launch order make the newer candidate live, send TERM to the old backend twice, and leave the first candidate running, never flagged and never sent TERM, so its exit is fatal |
| Rainbowd.Daemon.constructor | rainbowd.js:13-15 | the globals start in the `Initial` state |
| Rainbowd.Daemon.LaunchBackend | rainbowd.js:80-81 | the in-place update equals `BeginLaunch`, and the returned launch holds the captured backend |
| Rainbowd.Daemon.OnPort | rainbowd.js:82-109 | a port-lookup error is fatal and changes nothing; otherwise the update equals `Spawn` |
| Rainbowd.Daemon.Cutover | rainbowd.js:120-144 | the in-place update equals `Swap` and keeps the invariant |
| Rainbowd.Daemon.OnExit | rainbowd.js:95-108 | the verdict equals `ExitOutcome` of the state: an exit continues exactly when it is clean and the backend is flagged `expectToDie` |
| Rainbowd.Daemon.HandleRequest | rainbowd.js:159-163 | the result equals `Route` of the state: the handler throws (ending the daemon) exactly when there is no live backend; otherwise the request is forwarded to that backend's port |
| Legacy.Initial | index.js:12-14 | `server_port` and `server_process` start null, and the invariant holds |
| Legacy.BeginLaunch | index.js:23-24 | a launch captures `server_process` as its `old_backend`; nothing else changes |
| Legacy.Launch | index.js:25-57 | `server_port` becomes the new port and `server_process` the new process; a captured process is flagged `time_to_die` and killed; on the first launch nothing is killed |
| Legacy.ExitOutcome | index.js:32-46 | a process's exit lets the daemon continue exactly when it was clean and the process was flagged `time_to_die` |
| Legacy.Route | index.js:61-66 | the handler throws (ending the daemon) exactly when `server_port` is null; otherwise the request is forwarded to `server_port` |
| Legacy.Run | index.js:23-58 | every sequence of redeploys and port lookups keeps the invariant: port and process are null together, the port belongs to the live process, the live process is unflagged, and only flagged processes were killed |
| Legacy.RetirementIsPermanent | index.js:50-56 | along any run, a flagged process stays flagged and never becomes `server_process` again |
| Legacy.PortStaysKnown | index.js:23-66 | once `server_port` is set, it stays set on every run, so the handler never takes the throwing branch again |
| Legacy.LiveProcessIsNotRetired | index.js:32-56 | the live process has not been killed, and its exit is fatal |
| Legacy.KilledExitIsExpected | index.js:37-45 | a killed process that exits cleanly is an expected exit |
| Legacy.FirstAndSecondLaunch | index.js:48-56 | the first launch kills nothing and routes to its port; the second kills exactly the first process and routes to its own port |
| Legacy.LegacyDaemon.constructor | index.js:12-14 | the globals start in the `Initial` state |
| Legacy.LegacyDaemon.LaunchBackend | index.js:23-24 | the in-place update equals `BeginLaunch`, and the returned launch holds `server_process` |
| Legacy.LegacyDaemon.OnPort | index.js:25-57 | a port-lookup error is fatal and changes nothing; otherwise the update equals `Launch` |
| Legacy.LegacyDaemon.OnExit | index.js:32-46 | the verdict equals `ExitOutcome` of the state: an exit continues exactly when it is clean and the process is flagged `time_to_die` |
| Legacy.LegacyDaemon.HandleRequest | index.js:61-66 | the result equals `Route` of the state: the handler throws (ending the daemon) exactly when `server_port` is null; otherwise the request is forwarded to it |

## Left out

- HTTP proxying through http-proxy and its error handler: foreign library and network I/O.
  The model stops at the choice of target port.
- The express control server (`GET /`, `GET /pid`, `POST /redeploy/`): REST glue. A redeploy
  request is the `RedeployRequested` event.
- Config file reading and `JSON.parse`: I/O. The configuration is taken as already parsed.
  `warmupTime` is assumed to be an integer number of milliseconds (validation treats any non-zero value alike) and `healthCheckPath` a string. Other JSON types
  would follow JavaScript truthiness rules that are not modelled.
- `portfinder`, `mktemp`, `child_process.exec`: the port and a fresh backend identity are
  arguments.
- The pidfile reads and `process.kill`: a TERM attempt is recorded in `termSent`. A pidfile
  read failure only logs, so it is not distinguished.
- The link between a TERM that was sent and exec's `error` argument: the exit callback
  takes `error` as a free input, so the model does not derive that a backend killed by
  the TERM it was sent reaches the callback with an error and is therefore fatal.
- Real timers and `http.get`: they are delivered as events. The timeout value and the warmup
  delay are carried as numbers, not as time.
- The warmup strategy's timer: `setTimeout(cutover, warmupTime)` fires once. It is the
  `CutoverFired` event of the launch; no separate state is modelled.
- `request.end()` in `startCutover`: `http.get` has already ended that request, so the call
  does nothing. An answer that arrives after the cutover still runs `successfulCheck` or
  `failedCheck`, and the model processes it as such.
- Logging, including the pid log at the start of `cutover` and the misspelled messages.
- HealthCheck.Step: a probe answer delivered while no probe is outstanding cannot happen.
  The model leaves the state unchanged for such an event, so that runs over arbitrary event
  sequences are total.
- Rainbowd.Step and Legacy.Step: events that cannot be delivered are ignored in the same
  way. Examples are a port for an unknown launch or a cutover before the candidate exists.
- What happens after a `Fatal` outcome is not modelled. The process exits, so no later event
  arrives.
