/**
 * The health-check cutover strategy of rainbowd.js (`healthCheckCutover`): probe the
 * candidate backend again and again, start the cutover after three successful probes
 * in a row, and start it anyway when the timeout elapses.
 *
 * The closure variables become the fields of `Checker`. The two effects the closure
 * has on the world are counted: `probesSent` is the number of `http.get` calls made,
 * `inFlight` the number whose answer has not arrived yet, and `cutoversFired` the
 * number of times the `cutover` callback was called.
 */
module HealthCheck {

  /** Successful probes in a row that start the cutover. */
  const RequiredSuccesses: nat := 3

  /**
   * What the event loop can deliver to the closure. `ProbeSucceeded` is the response
   * callback of `http.get`, which runs for any HTTP response whatever its status code
   * (a 404 or a 500 included); `ProbeFailed` is the request's `'error'` event;
   * `TimeoutElapsed` is the timer armed at the start.
   */
  datatype Event = ProbeSucceeded | ProbeFailed | TimeoutElapsed

  datatype Checker = Checker(
    successfulChecks: nat,
    attemptedChecks: nat,
    cutoverStarted: bool,
    inFlight: nat,
    probesSent: nat,
    cutoversFired: nat)

  /**
   * What holds of the closure between two events: every answered probe was counted as
   * attempted, one probe is always outstanding until the cutover starts, and the
   * callback has fired once if the cutover started and never otherwise.
   */
  predicate Inv(s: Checker) {
    && s.successfulChecks <= s.attemptedChecks
    && s.probesSent == s.attemptedChecks + s.inFlight
    && s.inFlight <= 1
    && s.cutoversFired == (if s.cutoverStarted then 1 else 0)
    && (!s.cutoverStarted ==> s.inFlight == 1 && s.successfulChecks < RequiredSuccesses)
  }

  /** `startCutover`: calls the callback the first time and does nothing afterwards. */
  function Fire(s: Checker): (t: Checker)
    ensures t.cutoverStarted
    ensures s.cutoverStarted ==> t == s
    ensures !s.cutoverStarted ==> t == s.(cutoverStarted := true, cutoversFired := s.cutoversFired + 1)
  {
    if s.cutoverStarted then s
    else s.(cutoverStarted := true, cutoversFired := s.cutoversFired + 1)
  }

  /** `check`: sends one more probe unless the cutover has started. */
  function Probe(s: Checker): (t: Checker)
    ensures s.cutoverStarted ==> t == s
    ensures !s.cutoverStarted ==> t == s.(inFlight := s.inFlight + 1, probesSent := s.probesSent + 1)
  {
    if s.cutoverStarted then s
    else s.(inFlight := s.inFlight + 1, probesSent := s.probesSent + 1)
  }

  /** The body of `healthCheckCutover`: zeroed counters, then the first `check`. */
  function Start(): Checker {
    Probe(Checker(0, 0, false, 0, 0, 0))
  }

  /** The strategy starts with one probe out, nothing counted and the cutover not started. */
  lemma StartValid()
    ensures Inv(Start()) && !Start().cutoverStarted
    ensures Start().successfulChecks == 0 && Start().attemptedChecks == 0
    ensures Start().probesSent == 1 && Start().cutoversFired == 0
  {
  }

  /**
   * `successfulCheck`: both counters go up by one; at three successes the cutover
   * starts, below three another probe goes out (if the cutover has not started).
   */
  function Succeeded(s: Checker): (t: Checker)
    requires s.inFlight > 0
    ensures t.successfulChecks == s.successfulChecks + 1
    ensures t.attemptedChecks == s.attemptedChecks + 1
    ensures t.cutoverStarted <==> s.cutoverStarted || s.successfulChecks + 1 >= RequiredSuccesses
    ensures t.probesSent == s.probesSent
              + (if !s.cutoverStarted && s.successfulChecks + 1 < RequiredSuccesses then 1 else 0)
    ensures t.cutoversFired == s.cutoversFired
              + (if !s.cutoverStarted && s.successfulChecks + 1 >= RequiredSuccesses then 1 else 0)
    ensures Inv(s) ==> Inv(t)
  {
    var answered := s.(successfulChecks := s.successfulChecks + 1,
                       attemptedChecks := s.attemptedChecks + 1,
                       inFlight := s.inFlight - 1);
    if answered.successfulChecks >= RequiredSuccesses then Fire(answered) else Probe(answered)
  }

  /** `failedCheck`: the streak restarts from zero and another probe goes out. */
  function Failed(s: Checker): (t: Checker)
    requires s.inFlight > 0
    ensures t.successfulChecks == 0
    ensures t.attemptedChecks == s.attemptedChecks + 1
    ensures t.cutoverStarted == s.cutoverStarted && t.cutoversFired == s.cutoversFired
    ensures t.probesSent == s.probesSent + (if s.cutoverStarted then 0 else 1)
    ensures Inv(s) ==> Inv(t)
  {
    Probe(s.(successfulChecks := 0,
             attemptedChecks := s.attemptedChecks + 1,
             inFlight := s.inFlight - 1))
  }

  /** The `setTimeout` callback: forces the cutover if it has not started. */
  function TimedOut(s: Checker): (t: Checker)
    ensures t.cutoverStarted
    ensures s.cutoverStarted ==> t == s
    ensures !s.cutoverStarted ==> t == s.(cutoverStarted := true, cutoversFired := s.cutoversFired + 1)
    ensures Inv(s) ==> Inv(t)
  {
    if !s.cutoverStarted then Fire(s) else s
  }

  /**
   * One delivered event. An answer to a probe can only arrive while a probe is out;
   * such an answer with nothing outstanding is not deliverable and leaves the state as
   * it is, which keeps `Run` total.
   */
  function Step(s: Checker, e: Event): Checker {
    match e
    case ProbeSucceeded => if s.inFlight > 0 then Succeeded(s) else s
    case ProbeFailed => if s.inFlight > 0 then Failed(s) else s
    case TimeoutElapsed => TimedOut(s)
  }

  /** The state after a sequence of events, oldest first. */
  function Run(s: Checker, evs: seq<Event>): Checker
    decreases |evs|
  {
    if evs == [] then s else Step(Run(s, evs[..|evs| - 1]), evs[|evs| - 1])
  }

  // ---------------------------------------------------------------------------
  // Reference definitions, stated on the event history alone.

  /** Number of probe answers in the history. */
  function Answers(evs: seq<Event>): (n: nat)
    ensures n <= |evs|
    decreases |evs|
  {
    if evs == [] then 0
    else Answers(evs[..|evs| - 1]) + (if evs[|evs| - 1] == TimeoutElapsed then 0 else 1)
  }

  /** Length of the run of successful answers at the end of the history. */
  function Streak(evs: seq<Event>): nat
    decreases |evs|
  {
    if evs == [] then 0
    else match evs[|evs| - 1]
      case ProbeSucceeded => Streak(evs[..|evs| - 1]) + 1
      case ProbeFailed => 0
      case TimeoutElapsed => Streak(evs[..|evs| - 1])
  }

  /** Some prefix of the history ends in the timeout or in three successes in a row. */
  predicate Triggered(evs: seq<Event>)
    decreases |evs|
  {
    evs != [] &&
    (Triggered(evs[..|evs| - 1])
     || evs[|evs| - 1] == TimeoutElapsed
     || Streak(evs) >= RequiredSuccesses)
  }

  // ---------------------------------------------------------------------------
  // Properties of runs.

  /** Every run keeps the invariant. */
  lemma {:induction false} RunKeepsInv(s: Checker, evs: seq<Event>)
    requires Inv(s)
    ensures Inv(Run(s, evs))
    decreases |evs|
  {
    if evs != [] {
      RunKeepsInv(s, evs[..|evs| - 1]);
    }
  }

  /** Whatever the probes answer and whenever the timeout fires, the cutover callback runs at most once. */
  lemma {:induction false} CutoverFiresAtMostOnce(evs: seq<Event>)
    ensures Run(Start(), evs).cutoversFired <= 1
    ensures Run(Start(), evs).cutoversFired == 1 <==> Run(Start(), evs).cutoverStarted
  {
    RunKeepsInv(Start(), evs);
  }

  /**
   * Before the cutover, `successfulChecks` is exactly the number of successes since the
   * last failure, `attemptedChecks` the number of answers, and no timeout has fired.
   */
  lemma {:induction false} CountersBeforeCutover(evs: seq<Event>)
    requires !Run(Start(), evs).cutoverStarted
    ensures Run(Start(), evs).successfulChecks == Streak(evs)
    ensures Run(Start(), evs).attemptedChecks == Answers(evs)
    ensures Run(Start(), evs).probesSent == Answers(evs) + 1
    ensures TimeoutElapsed !in evs
    decreases |evs|
  {
    if evs != [] {
      var prefix := evs[..|evs| - 1];
      var s := Run(Start(), prefix);
      if s.cutoverStarted {
        StaysStarted(s, evs[|evs| - 1]);
        assert false;
      }
      CountersBeforeCutover(prefix);
      RunKeepsInv(Start(), prefix);
      assert evs == prefix + [evs[|evs| - 1]];
    }
  }

  /** Once started, the cutover stays started. */
  lemma StaysStarted(s: Checker, e: Event)
    requires s.cutoverStarted
    ensures Step(s, e).cutoverStarted
  {
  }

  /** The cutover has started exactly when the history holds a timeout or three successes in a row. */
  lemma {:induction false} StartedIffTriggered(evs: seq<Event>)
    ensures Run(Start(), evs).cutoverStarted <==> Triggered(evs)
    decreases |evs|
  {
    if evs != [] {
      var prefix := evs[..|evs| - 1];
      StartedIffTriggered(prefix);
      var s := Run(Start(), prefix);
      if !s.cutoverStarted {
        CountersBeforeCutover(prefix);
        RunKeepsInv(Start(), prefix);
      }
    }
  }

  /** A run split in two is the second part run from where the first part left off. */
  lemma {:induction false} RunAppend(s: Checker, evs: seq<Event>, more: seq<Event>)
    ensures Run(s, evs + more) == Run(Run(s, evs), more)
    decreases |more|
  {
    if more == [] {
      assert evs + more == evs;
    } else {
      var all := evs + more;
      assert all[..|all| - 1] == evs + more[..|more| - 1];
      assert all[|all| - 1] == more[|more| - 1];
      RunAppend(s, evs, more[..|more| - 1]);
    }
  }

  /** After the cutover has started, no event sends a probe or calls the callback again. */
  lemma {:induction false} QuietAfterCutover(s: Checker, more: seq<Event>)
    requires s.cutoverStarted
    ensures Run(s, more).cutoverStarted
    ensures Run(s, more).probesSent == s.probesSent
    ensures Run(s, more).cutoversFired == s.cutoversFired
    decreases |more|
  {
    if more != [] {
      QuietAfterCutover(s, more[..|more| - 1]);
    }
  }

  /**
   * Once the history holds a timeout or three successes in a row, no later event sends
   * a probe or calls the callback.
   */
  lemma {:induction false} NoProbesAfterCutover(evs: seq<Event>, more: seq<Event>)
    requires Triggered(evs)
    ensures Run(Start(), evs + more).probesSent == Run(Start(), evs).probesSent
    ensures Run(Start(), evs + more).cutoversFired == Run(Start(), evs).cutoversFired
  {
    StartedIffTriggered(evs);
    RunAppend(Start(), evs, more);
    QuietAfterCutover(Run(Start(), evs), more);
  }

  /**
   * Two failed probes and then three successes: the cutover has not started after the
   * second success and starts with the third, after five probes, without the timeout.
   */
  lemma FailTwiceThenPassThrice()
    ensures !Run(Start(), [ProbeFailed, ProbeFailed, ProbeSucceeded, ProbeSucceeded]).cutoverStarted
    ensures Run(Start(), [ProbeFailed, ProbeFailed, ProbeSucceeded, ProbeSucceeded, ProbeSucceeded]).cutoverStarted
    ensures Run(Start(), [ProbeFailed, ProbeFailed, ProbeSucceeded, ProbeSucceeded, ProbeSucceeded]).probesSent == 5
  {
    var f, p := ProbeFailed, ProbeSucceeded;
    assert Run(Start(), []) == Checker(0, 0, false, 1, 1, 0);
    assert [f, f, p, p, p][..4] == [f, f, p, p] && [f, f, p, p][..3] == [f, f, p];
    assert [f, f, p][..2] == [f, f] && [f, f][..1] == [f] && [f][..0] == [];
    assert Run(Start(), [f]) == Checker(0, 1, false, 1, 2, 0);
    assert Run(Start(), [f, f]) == Checker(0, 2, false, 1, 3, 0);
    assert Run(Start(), [f, f, p]) == Checker(1, 3, false, 1, 4, 0);
    assert Run(Start(), [f, f, p, p]) == Checker(2, 4, false, 1, 5, 0);
    assert Run(Start(), [f, f, p, p, p]) == Checker(3, 5, true, 0, 5, 1);
  }

  /** A probe that never succeeds: the timeout alone starts the cutover, exactly once. */
  lemma TimeoutFallsOpen(n: nat)
    ensures Run(Start(), seq(n, _ => ProbeFailed) + [TimeoutElapsed]).cutoverStarted
    ensures Run(Start(), seq(n, _ => ProbeFailed) + [TimeoutElapsed]).cutoversFired == 1
  {
    var evs := seq(n, _ => ProbeFailed) + [TimeoutElapsed];
    assert evs[..|evs| - 1] == seq(n, _ => ProbeFailed);
    RunKeepsInv(Start(), evs);
  }

  // ---------------------------------------------------------------------------

  /** The closure of one `healthCheckCutover` call, whose callbacks update it in place. */
  class HealthCheckCutover {
    const backendPort: nat
    const path: string
    const timeoutMs: nat

    var successfulChecks: nat
    var attemptedChecks: nat
    var cutoverStarted: bool
    var inFlight: nat
    var probesSent: nat
    ghost var cutoversFired: nat

    ghost function State(): Checker
      reads this
    {
      Checker(successfulChecks, attemptedChecks, cutoverStarted, inFlight, probesSent, cutoversFired)
    }

    ghost predicate Valid()
      reads this
    {
      Inv(State())
    }

    /** `healthCheckCutover(backendPort, path, timeout, cutover)`: arms the timer and sends the first probe. */
    constructor (backendPort: nat, path: string, timeoutMs: nat)
      ensures Valid() && State() == Start()
      ensures this.backendPort == backendPort && this.path == path && this.timeoutMs == timeoutMs
    {
      this.backendPort := backendPort;
      this.path := path;
      this.timeoutMs := timeoutMs;
      successfulChecks, attemptedChecks, cutoverStarted := 0, 0, false;
      inFlight, probesSent := 0, 0;
      cutoversFired := 0;
      new;
      Check();
    }

    /** `startCutover` */
    method StartCutover()
      modifies this
      ensures State() == Fire(old(State()))
    {
      if !cutoverStarted {
        cutoverStarted := true;
        cutoversFired := cutoversFired + 1;
      }
    }

    /** `check` */
    method Check()
      modifies this
      ensures State() == Probe(old(State()))
    {
      if cutoverStarted {
        return;
      }
      inFlight := inFlight + 1;
      probesSent := probesSent + 1;
    }

    /** `successfulCheck`, the answer callback of a probe. */
    method SuccessfulCheck()
      requires Valid() && inFlight > 0
      modifies this
      ensures Valid() && State() == Succeeded(old(State()))
    {
      successfulChecks := successfulChecks + 1;
      attemptedChecks := attemptedChecks + 1;
      inFlight := inFlight - 1;
      if successfulChecks >= RequiredSuccesses {
        StartCutover();
      } else {
        Check();
      }
    }

    /** `failedCheck`, the error callback of a probe. */
    method FailedCheck()
      requires Valid() && inFlight > 0
      modifies this
      ensures Valid() && State() == Failed(old(State()))
    {
      successfulChecks := 0;
      attemptedChecks := attemptedChecks + 1;
      inFlight := inFlight - 1;
      Check();
    }

    /** The timer callback armed with `setTimeout(…, timeout)`. */
    method Timeout()
      requires Valid()
      modifies this
      ensures Valid() && State() == TimedOut(old(State()))
    {
      if !cutoverStarted {
        StartCutover();
      }
    }
  }
}
