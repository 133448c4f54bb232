/**
 * The deploy daemon of rainbowd.js: `launchBackend` captures the backend that is live
 * when it is called, spawns a candidate on a fresh port, and once the cutover strategy
 * fires, `cutover` makes the candidate the live backend and retires the captured one:
 * it is flagged `expectToDie` first and then sent TERM. The exit callback of every
 * backend treats an error or an unflagged exit as fatal, and the front server throws
 * while there is no live backend.
 *
 * Port lookup, `mktemp`, process spawning, the pidfile read and `process.kill` are
 * effects: a port and a fresh backend identity are inputs, and every TERM attempted is
 * appended to `termSent`.
 */
module Rainbowd {

  import opened Wrappers
  import opened Lifecycle

  /** A spawned backend; it stands for the unique pidfile `mktemp` made for it. */
  type BackendId = nat

  /** One call of `launchBackend`. */
  type LaunchId = nat

  /** The `self` record of a backend. */
  datatype Backend = Backend(port: Port, expectToDie: bool)

  /**
   * The closure of one `launchBackend` call: `old_backend` as captured at call time,
   * and the candidate once its port was found and it was spawned.
   */
  datatype Launch = Launch(oldBackend: Option<BackendId>, candidate: Option<BackendId>)

  datatype DaemonState = DaemonState(
    backend: Option<BackendId>,
    backends: map<BackendId, Backend>,
    launches: map<LaunchId, Launch>,
    nextLaunch: LaunchId,
    termSent: seq<BackendId>)

  predicate Flagged(d: DaemonState, b: BackendId) {
    b in d.backends && d.backends[b].expectToDie
  }

  /** A captured backend is a spawned backend that is no launch's candidate. */
  predicate CapturedOk(d: DaemonState, captured: Option<BackendId>) {
    captured.Some? ==>
      captured.value in d.backends &&
      forall l :: l in d.launches ==> d.launches[l].candidate != captured
  }

  /** A candidate is a spawned, unflagged backend that is not live yet. */
  predicate CandidateOk(d: DaemonState, c: Option<BackendId>) {
    c.Some? ==> c.value in d.backends && !d.backends[c.value].expectToDie && d.backend != c
  }

  /**
   * The daemon's invariant: the live backend is spawned and never flagged, every
   * pending launch holds a sound capture and candidate, no two launches share a
   * candidate, and every backend that was sent TERM had been flagged.
   */
  predicate Valid(d: DaemonState) {
    && (d.backend.Some? ==> d.backend.value in d.backends && !Flagged(d, d.backend.value))
    && (forall l :: l in d.launches ==> l < d.nextLaunch)
    && (forall l :: l in d.launches ==> CapturedOk(d, d.launches[l].oldBackend))
    && (forall l :: l in d.launches ==> CandidateOk(d, d.launches[l].candidate))
    && (forall l1, l2 ::
          (l1 in d.launches && l2 in d.launches && d.launches[l1].candidate.Some?
           && d.launches[l1].candidate == d.launches[l2].candidate) ==> l1 == l2)
    && (forall i :: 0 <= i < |d.termSent| ==> Flagged(d, d.termSent[i]))
  }

  /** The daemon right after start-up, before the first launch. */
  function Initial(): (d: DaemonState)
    ensures Valid(d) && d.backend.None? && d.termSent == []
  {
    DaemonState(None, map[], map[], 0, [])
  }

  /** `launchBackend`, synchronous part: captures the live backend as `old_backend`. */
  function BeginLaunch(d: DaemonState): (t: DaemonState)
    requires Valid(d)
    ensures Valid(t)
    ensures d.nextLaunch !in d.launches
    ensures t.launches == d.launches[d.nextLaunch := Launch(d.backend, None)]
    ensures t.nextLaunch == d.nextLaunch + 1
    ensures t.backend == d.backend && t.backends == d.backends && t.termSent == d.termSent
  {
    d.(launches := d.launches[d.nextLaunch := Launch(d.backend, None)],
       nextLaunch := d.nextLaunch + 1)
  }

  /**
   * The port-lookup callback: the candidate `id` is spawned on `port` and, not being
   * flagged, its exit would be fatal. Traffic does not move yet.
   */
  function Spawn(d: DaemonState, l: LaunchId, id: BackendId, port: Port): (t: DaemonState)
    requires Valid(d)
    requires l in d.launches && d.launches[l].candidate.None?
    requires id !in d.backends
    ensures Valid(t)
    ensures t.backends == d.backends[id := Backend(port, false)]
    ensures t.launches == d.launches[l := Launch(d.launches[l].oldBackend, Some(id))]
    ensures t.backend == d.backend && t.nextLaunch == d.nextLaunch && t.termSent == d.termSent
  {
    d.(backends := d.backends[id := Backend(port, false)],
       launches := d.launches[l := Launch(d.launches[l].oldBackend, Some(id))])
  }

  /**
   * `cutover`: the candidate becomes the live backend; the captured backend, if there
   * was one, is flagged and then sent TERM; on the first launch nothing is sent TERM.
   * The launch is done with, so a candidate cuts over at most once.
   */
  function Swap(d: DaemonState, l: LaunchId): (t: DaemonState)
    requires Valid(d)
    requires l in d.launches && d.launches[l].candidate.Some?
    ensures Valid(t)
    ensures t.backend == d.launches[l].candidate
    ensures t.launches == d.launches - {l} && t.nextLaunch == d.nextLaunch
    ensures d.launches[l].oldBackend.None? ==> t.backends == d.backends && t.termSent == d.termSent
    ensures d.launches[l].oldBackend.Some? ==>
              var o := d.launches[l].oldBackend.value;
              && t.termSent == d.termSent + [o]
              && t.backends == d.backends[o := d.backends[o].(expectToDie := true)]
    ensures t.backend != d.launches[l].oldBackend
  {
    var launch := d.launches[l];
    var live := d.(backend := launch.candidate, launches := d.launches - {l});
    match launch.oldBackend
    case None => live
    case Some(o) =>
      live.(backends := live.backends[o := live.backends[o].(expectToDie := true)],
            termSent := live.termSent + [o])
  }

  /** What the exit callback of backend `b` does. */
  function ExitOutcome(d: DaemonState, b: BackendId, error: bool): (o: Outcome)
    requires b in d.backends
    ensures o == Continue <==> !error && d.backends[b].expectToDie
  {
    ClassifyExit(error, d.backends[b].expectToDie)
  }

  /** What the front server does with a request; with no live backend the handler throws. */
  function Route(d: DaemonState): (r: RouteResult)
    requires Valid(d)
    ensures r == NoBackend <==> d.backend.None?
    ensures d.backend.Some? ==> r == Forward(d.backends[d.backend.value].port)
  {
    RouteTo(if d.backend.None? then None else Some(d.backends[d.backend.value].port))
  }

  // ---------------------------------------------------------------------------
  // Runs of the daemon.

  datatype DaemonEvent =
    | RedeployRequested                                  // POST /redeploy/ (or start-up)
    | PortFound(launch: LaunchId, id: BackendId, port: Port)
    | CutoverFired(launch: LaunchId)                     // the launch's strategy fired

  /** Whether the event loop can deliver `e` in state `d`. */
  predicate Deliverable(d: DaemonState, e: DaemonEvent) {
    match e
    case RedeployRequested => true
    case PortFound(l, id, _) => l in d.launches && d.launches[l].candidate.None? && id !in d.backends
    case CutoverFired(l) => l in d.launches && d.launches[l].candidate.Some?
  }

  /** One event; an event that cannot be delivered leaves the state unchanged. */
  function Step(d: DaemonState, e: DaemonEvent): DaemonState
    requires Valid(d)
  {
    if !Deliverable(d, e) then d
    else match e
      case RedeployRequested => BeginLaunch(d)
      case PortFound(l, id, port) => Spawn(d, l, id, port)
      case CutoverFired(l) => Swap(d, l)
  }

  /** The state after a sequence of events, oldest first. */
  function Run(d: DaemonState, evs: seq<DaemonEvent>): (t: DaemonState)
    requires Valid(d)
    ensures Valid(t)
    decreases |evs|
  {
    if evs == [] then d else Step(Run(d, evs[..|evs| - 1]), evs[|evs| - 1])
  }

  /**
   * Along any run, a flag once set stays set and a TERM once sent stays in the record:
   * a retired backend never comes back to life in the daemon's view.
   */
  lemma {:induction false} RetirementIsPermanent(d: DaemonState, evs: seq<DaemonEvent>, b: BackendId)
    requires Valid(d) && Flagged(d, b)
    ensures Flagged(Run(d, evs), b)
    ensures Run(d, evs).backend != Some(b)
    decreases |evs|
  {
    if evs != [] {
      RetirementIsPermanent(d, evs[..|evs| - 1], b);
    }
  }

  /** Once a backend is live, the daemon always has a live backend: no run leads back to throwing. */
  lemma {:induction false} BackendStaysLive(d: DaemonState, evs: seq<DaemonEvent>)
    requires Valid(d) && d.backend.Some?
    ensures Run(d, evs).backend.Some?
    ensures Route(Run(d, evs)).Forward?
    decreases |evs|
  {
    if evs != [] {
      BackendStaysLive(d, evs[..|evs| - 1]);
    }
  }

  /** The live backend has never been sent TERM, and its exit takes the daemon down. */
  lemma LiveBackendIsNotRetired(d: DaemonState, error: bool)
    requires Valid(d) && d.backend.Some?
    ensures d.backend.value !in d.termSent
    ensures ExitOutcome(d, d.backend.value, error) == Fatal
  {
  }

  /**
   * A backend that was sent TERM and then exits cleanly (it caught the signal and exited
   * with code 0) is an expected exit; one killed by the signal reaches the callback with
   * an error and is fatal.
   */
  lemma RetiredExitIsExpected(d: DaemonState, i: nat)
    requires Valid(d) && i < |d.termSent|
    ensures ExitOutcome(d, d.termSent[i], false) == Continue
  {
    assert Flagged(d, d.termSent[i]);
  }

  /**
   * Two deploys one after the other from start-up: the first makes its backend live
   * and sends no TERM; the second makes its own backend live and retires the first.
   */
  lemma SequentialDeploys(a: BackendId, b: BackendId, portA: Port, portB: Port)
    requires a != b
    ensures var d1 := Swap(Spawn(BeginLaunch(Initial()), 0, a, portA), 0);
            && d1.backend == Some(a) && d1.termSent == [] && Route(d1) == Forward(portA)
            && var d2 := Swap(Spawn(BeginLaunch(d1), 1, b, portB), 1);
               d2.backend == Some(b) && d2.termSent == [a] && Flagged(d2, a) && Route(d2) == Forward(portB)
  {
  }

  /**
   * The hazard of overlapping deploys: two launches started while `a` is live both
   * capture `a`. When the later launch's cutover fires first, the earlier one's then
   * makes the OLDER candidate `x` live again; `a` is sent TERM twice, and the newer
   * candidate `y` is left running unflagged and unreferenced, so its eventual exit
   * takes the daemon down.
   */
  lemma OverlappingDeploysOrphanACandidate(d: DaemonState, a: BackendId, x: BackendId, y: BackendId, px: Port, py: Port)
    requires Valid(d) && d.backend == Some(a) && d.launches == map[]
    requires x !in d.backends && y !in d.backends && x != y
    ensures var l1, l2 := d.nextLaunch, d.nextLaunch + 1;
            var begun := BeginLaunch(BeginLaunch(d));
            var spawned := Spawn(Spawn(begun, l1, x, px), l2, y, py);
            var t := Swap(Swap(spawned, l2), l1);
            && t.backend == Some(x)
            && t.termSent == d.termSent + [a, a]
            && y in t.backends && !Flagged(t, y)
            && t.launches == map[]
            && ExitOutcome(t, y, false) == Fatal
  {
    var l1, l2 := d.nextLaunch, d.nextLaunch + 1;
    var b1 := BeginLaunch(d);
    var begun := BeginLaunch(b1);
    assert begun.launches[l1] == Launch(Some(a), None);
    assert begun.launches[l2] == Launch(Some(a), None);
  }

  /**
   * Overlapping deploys orphan a candidate even when their cutovers fire in launch
   * order: both launches captured `a`, so the second cutover flags `a` again instead of
   * the first candidate `x`, which is left running, never flagged and never sent TERM.
   */
  lemma ForwardOrderOrphans(d: DaemonState, a: BackendId, x: BackendId, y: BackendId, px: Port, py: Port)
    requires Valid(d) && d.backend == Some(a) && d.launches == map[]
    requires x !in d.backends && y !in d.backends && x != y
    ensures var l1, l2 := d.nextLaunch, d.nextLaunch + 1;
            var begun := BeginLaunch(BeginLaunch(d));
            var spawned := Spawn(Spawn(begun, l1, x, px), l2, y, py);
            var t := Swap(Swap(spawned, l1), l2);
            && t.backend == Some(y)
            && t.termSent == d.termSent + [a, a]
            && x in t.backends && !Flagged(t, x) && x !in t.termSent
            && t.launches == map[]
            && ExitOutcome(t, x, false) == Fatal
  {
    var l1, l2 := d.nextLaunch, d.nextLaunch + 1;
    var b1 := BeginLaunch(d);
    var begun := BeginLaunch(b1);
    assert begun.launches[l1] == Launch(Some(a), None);
    assert begun.launches[l2] == Launch(Some(a), None);
  }

  // ---------------------------------------------------------------------------

  /** The daemon's globals, updated in place by its callbacks. */
  class Daemon {
    var backend: Option<BackendId>
    var backends: map<BackendId, Backend>
    var launches: map<LaunchId, Launch>
    var nextLaunch: LaunchId
    var termSent: seq<BackendId>

    ghost function State(): DaemonState
      reads this
    {
      DaemonState(backend, backends, launches, nextLaunch, termSent)
    }

    ghost predicate Inv()
      reads this
    {
      Valid(State())
    }

    constructor ()
      ensures Inv() && State() == Initial()
    {
      backend, backends, launches, nextLaunch, termSent := None, map[], map[], 0, [];
    }

    /** `launchBackend()`: captures `old_backend` and asks for a port. */
    method LaunchBackend() returns (l: LaunchId)
      requires Inv()
      modifies this
      ensures Inv() && State() == BeginLaunch(old(State()))
      ensures l == old(nextLaunch) && launches[l] == Launch(old(backend), None)
    {
      l := nextLaunch;
      launches := launches[l := Launch(backend, None)];
      nextLaunch := nextLaunch + 1;
    }

    /**
     * The `portfinder.getPort` callback. A lookup error is fatal and changes nothing;
     * otherwise the backend `id` (a fresh pidfile) is spawned on the port found.
     */
    method OnPort(l: LaunchId, found: Option<Port>, id: BackendId) returns (o: Outcome)
      requires Inv()
      requires l in launches && launches[l].candidate.None?
      requires id !in backends
      modifies this
      ensures Inv()
      ensures found.None? ==> o == Fatal && State() == old(State())
      ensures found.Some? ==> o == Continue && State() == Spawn(old(State()), l, id, found.value)
    {
      if found.None? {
        return Fatal;
      }
      backends := backends[id := Backend(found.value, false)];
      launches := launches[l := Launch(launches[l].oldBackend, Some(id))];
      o := Continue;
    }

    /** `cutover()`, called by the launch's strategy when it fires. */
    method Cutover(l: LaunchId)
      requires Inv()
      requires l in launches && launches[l].candidate.Some?
      modifies this
      ensures Inv() && State() == Swap(old(State()), l)
    {
      var oldBackend := launches[l].oldBackend;
      backend := launches[l].candidate;
      launches := launches - {l};
      if oldBackend.Some? {
        var o := oldBackend.value;
        backends := backends[o := backends[o].(expectToDie := true)];
        termSent := termSent + [o];
      }
    }

    /** The exit callback of backend `b`; `error` is exec's error argument. */
    method OnExit(b: BackendId, error: bool) returns (o: Outcome)
      requires b in backends
      ensures o == ExitOutcome(State(), b, error)
      ensures o == Continue <==> !error && backends[b].expectToDie
    {
      o := ClassifyExit(error, backends[b].expectToDie);
    }

    /** The front server's request handler. */
    method HandleRequest() returns (r: RouteResult)
      requires Inv()
      ensures r == Route(State())
      ensures r == NoBackend <==> backend.None?
      ensures backend.Some? ==> r == Forward(backends[backend.value].port)
    {
      r := RouteTo(if backend.None? then None else Some(backends[backend.value].port));
    }
  }
}
