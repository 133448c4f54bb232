/**
 * The earlier daemon, index.js. It has no cutover strategy: as soon as a port is found
 * for a new backend, `server_port` switches to it, the backend is spawned and becomes
 * `server_process`, and the process that was `server_process` when `launchBackend` was
 * called is flagged `time_to_die` and then killed.
 *
 * Port lookup and process spawning are effects: the port and a fresh process identity
 * are inputs, and every `kill()` sent is appended to `killed`.
 */
module Legacy {

  import opened Wrappers
  import opened Lifecycle

  /** A child process created by `child_process.exec`. */
  type ProcessId = nat

  /** One call of `launchBackend`. */
  type LaunchId = nat

  /** The child process object, with the flag the daemon sets on it. */
  datatype Process = Process(port: Port, timeToDie: bool)

  datatype LegacyState = LegacyState(
    serverPort: Option<Port>,
    serverProcess: Option<ProcessId>,
    processes: map<ProcessId, Process>,
    launches: map<LaunchId, Option<ProcessId>>,  // `old_backend` of each launch awaiting its port
    nextLaunch: LaunchId,
    killed: seq<ProcessId>)

  predicate Flagged(d: LegacyState, p: ProcessId) {
    p in d.processes && d.processes[p].timeToDie
  }

  /**
   * The invariant: `server_port` and `server_process` are null together, and otherwise
   * the port is the one the live process was spawned on; the live process is never
   * flagged; captured processes exist; every killed process had been flagged.
   */
  predicate Valid(d: LegacyState) {
    && (d.serverPort.Some? <==> d.serverProcess.Some?)
    && (d.serverProcess.Some? ==>
          && d.serverProcess.value in d.processes
          && !d.processes[d.serverProcess.value].timeToDie
          && d.serverPort == Some(d.processes[d.serverProcess.value].port))
    && (forall l :: l in d.launches ==> l < d.nextLaunch)
    && (forall l :: l in d.launches && d.launches[l].Some? ==> d.launches[l].value in d.processes)
    && (forall i :: 0 <= i < |d.killed| ==> Flagged(d, d.killed[i]))
  }

  function Initial(): (d: LegacyState)
    ensures Valid(d) && d.serverPort.None? && d.serverProcess.None?
  {
    LegacyState(None, None, map[], map[], 0, [])
  }

  /** `launchBackend`, synchronous part: `old_backend = server_process`. */
  function BeginLaunch(d: LegacyState): (t: LegacyState)
    requires Valid(d)
    ensures Valid(t)
    ensures d.nextLaunch !in d.launches
    ensures t.launches == d.launches[d.nextLaunch := d.serverProcess]
    ensures t.nextLaunch == d.nextLaunch + 1
    ensures t.serverPort == d.serverPort && t.serverProcess == d.serverProcess
    ensures t.processes == d.processes && t.killed == d.killed
  {
    d.(launches := d.launches[d.nextLaunch := d.serverProcess], nextLaunch := d.nextLaunch + 1)
  }

  /**
   * The `portfinder.getPort` callback: `server_port` becomes the new port, the new
   * process `id` is spawned and becomes `server_process`; the captured process, if any,
   * is flagged and then killed. On the first launch nothing is killed.
   */
  function Launch(d: LegacyState, l: LaunchId, port: Port, id: ProcessId): (t: LegacyState)
    requires Valid(d)
    requires l in d.launches && id !in d.processes
    ensures Valid(t)
    ensures t.serverPort == Some(port) && t.serverProcess == Some(id)
    ensures t.launches == d.launches - {l} && t.nextLaunch == d.nextLaunch
    ensures d.launches[l].None? ==>
              t.killed == d.killed && t.processes == d.processes[id := Process(port, false)]
    ensures d.launches[l].Some? ==>
              var o := d.launches[l].value;
              && t.killed == d.killed + [o]
              && t.processes == d.processes[id := Process(port, false)][o := d.processes[o].(timeToDie := true)]
  {
    var oldBackend := d.launches[l];
    var live := d.(serverPort := Some(port),
                   processes := d.processes[id := Process(port, false)],
                   serverProcess := Some(id),
                   launches := d.launches - {l});
    match oldBackend
    case None => live
    case Some(o) =>
      live.(processes := live.processes[o := live.processes[o].(timeToDie := true)],
            killed := live.killed + [o])
  }

  /** What the exit callback of process `p` does. */
  function ExitOutcome(d: LegacyState, p: ProcessId, error: bool): (o: Outcome)
    requires p in d.processes
    ensures o == Continue <==> !error && d.processes[p].timeToDie
  {
    ClassifyExit(error, d.processes[p].timeToDie)
  }

  /** What the front server does with a request: while `server_port` is null the handler throws. */
  function Route(d: LegacyState): (r: RouteResult)
    ensures r == NoBackend <==> d.serverPort.None?
    ensures d.serverPort.Some? ==> r == Forward(d.serverPort.value)
  {
    RouteTo(d.serverPort)
  }

  // ---------------------------------------------------------------------------
  // Runs of the daemon.

  datatype LegacyEvent =
    | RedeployRequested
    | PortFound(launch: LaunchId, port: Port, id: ProcessId)

  predicate Deliverable(d: LegacyState, e: LegacyEvent) {
    match e
    case RedeployRequested => true
    case PortFound(l, _, id) => l in d.launches && id !in d.processes
  }

  /** One event; an event that cannot be delivered leaves the state unchanged. */
  function Step(d: LegacyState, e: LegacyEvent): LegacyState
    requires Valid(d)
  {
    if !Deliverable(d, e) then d
    else match e
      case RedeployRequested => BeginLaunch(d)
      case PortFound(l, port, id) => Launch(d, l, port, id)
  }

  function Run(d: LegacyState, evs: seq<LegacyEvent>): (t: LegacyState)
    requires Valid(d)
    ensures Valid(t)
    decreases |evs|
  {
    if evs == [] then d else Step(Run(d, evs[..|evs| - 1]), evs[|evs| - 1])
  }

  /** Along any run, a flagged process stays flagged and never serves again. */
  lemma {:induction false} RetirementIsPermanent(d: LegacyState, evs: seq<LegacyEvent>, p: ProcessId)
    requires Valid(d) && Flagged(d, p)
    ensures Flagged(Run(d, evs), p)
    ensures Run(d, evs).serverProcess != Some(p)
    decreases |evs|
  {
    if evs != [] {
      RetirementIsPermanent(d, evs[..|evs| - 1], p);
    }
  }

  /** Once a port is known it stays known: along any run the handler never goes back to throwing. */
  lemma {:induction false} PortStaysKnown(d: LegacyState, evs: seq<LegacyEvent>)
    requires Valid(d) && d.serverPort.Some?
    ensures Run(d, evs).serverPort.Some?
    ensures Route(Run(d, evs)).Forward?
    decreases |evs|
  {
    if evs != [] {
      PortStaysKnown(d, evs[..|evs| - 1]);
    }
  }

  /** The live process has not been killed, and its exit takes the daemon down. */
  lemma LiveProcessIsNotRetired(d: LegacyState, error: bool)
    requires Valid(d) && d.serverProcess.Some?
    ensures d.serverProcess.value !in d.killed
    ensures ExitOutcome(d, d.serverProcess.value, error) == Fatal
  {
  }

  /**
   * A killed process that then exits cleanly (it caught the signal and exited with code
   * 0) is an expected exit; one ended by the signal reaches the callback with an error.
   */
  lemma KilledExitIsExpected(d: LegacyState, i: nat)
    requires Valid(d) && i < |d.killed|
    ensures ExitOutcome(d, d.killed[i], false) == Continue
  {
    assert Flagged(d, d.killed[i]);
  }

  /**
   * The first launch kills nothing and makes the router forward to its port; the
   * second, started after it, kills the first process.
   */
  lemma FirstAndSecondLaunch(a: ProcessId, b: ProcessId, portA: Port, portB: Port)
    requires a != b
    ensures var d1 := Launch(BeginLaunch(Initial()), 0, portA, a);
            && d1.killed == [] && Route(d1) == Forward(portA)
            && var d2 := Launch(BeginLaunch(d1), 1, portB, b);
               d2.killed == [a] && Flagged(d2, a) && Route(d2) == Forward(portB)
  {
  }

  // ---------------------------------------------------------------------------

  /** The daemon's globals, updated in place by its callbacks. */
  class LegacyDaemon {
    var serverPort: Option<Port>
    var serverProcess: Option<ProcessId>
    var processes: map<ProcessId, Process>
    var launches: map<LaunchId, Option<ProcessId>>
    var nextLaunch: LaunchId
    var killed: seq<ProcessId>

    ghost function State(): LegacyState
      reads this
    {
      LegacyState(serverPort, serverProcess, processes, launches, nextLaunch, killed)
    }

    ghost predicate Inv()
      reads this
    {
      Valid(State())
    }

    constructor ()
      ensures Inv() && State() == Initial()
    {
      serverPort, serverProcess := None, None;
      processes, launches, nextLaunch, killed := map[], map[], 0, [];
    }

    /** `launchBackend()`: captures `old_backend` and asks for a port. */
    method LaunchBackend() returns (l: LaunchId)
      requires Inv()
      modifies this
      ensures Inv() && State() == BeginLaunch(old(State()))
      ensures l == old(nextLaunch) && launches[l] == old(serverProcess)
    {
      l := nextLaunch;
      launches := launches[l := serverProcess];
      nextLaunch := nextLaunch + 1;
    }

    /**
     * The `portfinder.getPort` callback. A lookup error is fatal and changes nothing;
     * otherwise the switch to the new process `id` happens at once.
     */
    method OnPort(l: LaunchId, found: Option<Port>, id: ProcessId) returns (o: Outcome)
      requires Inv()
      requires l in launches && id !in processes
      modifies this
      ensures Inv()
      ensures found.None? ==> o == Fatal && State() == old(State())
      ensures found.Some? ==> o == Continue && State() == Launch(old(State()), l, found.value, id)
    {
      if found.None? {
        return Fatal;
      }
      var oldBackend := launches[l];
      launches := launches - {l};
      serverPort := found;
      processes := processes[id := Process(found.value, false)];
      serverProcess := Some(id);
      if oldBackend.Some? {
        var p := oldBackend.value;
        processes := processes[p := processes[p].(timeToDie := true)];
        killed := killed + [p];
      }
      o := Continue;
    }

    /** The exit callback of process `p`; `error` is exec's error argument. */
    method OnExit(p: ProcessId, error: bool) returns (o: Outcome)
      requires p in processes
      ensures o == ExitOutcome(State(), p, error)
      ensures o == Continue <==> !error && processes[p].timeToDie
    {
      o := ClassifyExit(error, processes[p].timeToDie);
    }

    /** The front server's request handler. */
    method HandleRequest() returns (r: RouteResult)
      ensures r == Route(State())
      ensures r == NoBackend <==> serverPort.None?
      ensures serverPort.Some? ==> r == Forward(serverPort.value)
    {
      r := RouteTo(serverPort);
    }
  }
}
