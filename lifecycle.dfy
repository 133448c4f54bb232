/**
 * What the two daemons (rainbowd.js and its predecessor index.js) share: the way the
 * exit callback of a backend process is judged, and what the front router does with
 * a request.
 */
module Lifecycle {

  import opened Wrappers

  type Port = nat

  /** `Fatal` stands for `process.exit(1)`: the daemon itself stops. */
  datatype Outcome = Continue | Fatal

  /**
   * The exit callback handed to `child_process.exec`: an exec error is fatal, an exit
   * of a process the daemon did not flag as retiring is fatal, and only the clean exit
   * of a flagged process lets the daemon carry on. The error is tested first, so a
   * process that dies from a signal (exec then reports an error) is fatal even when
   * flagged.
   */
  function ClassifyExit(error: bool, flagged: bool): (o: Outcome)
    ensures o == Continue <==> !error && flagged
    ensures error ==> o == Fatal
  {
    if error then Fatal
    else if !flagged then Fatal
    else Continue
  }

  /** What the front server does with one request. */
  datatype RouteResult =
    | Forward(port: Port)  // proxied to http://localhost:<port>
    | NoBackend            // the handler throws; nothing catches it, so the daemon ends

  /** The request handler's guard: no known port, the handler throws and the daemon ends. */
  function RouteTo(port: Option<Port>): (r: RouteResult)
    ensures r == NoBackend <==> port.None?
    ensures port.Some? ==> r == Forward(port.value)
  {
    match port
    case None => NoBackend
    case Some(p) => Forward(p)
  }
}
