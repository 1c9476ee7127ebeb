/**
 * What the `/reason` handlers see of a request and send back, and the parts of
 * the environment they consult: the clock and the two `Math.random()` draws.
 */
module Http {
  import opened Wrappers
  import opened Js
  import opened ActivityKey
  import opened Storage

  /**
   * The request headers and address the handlers read: `user-agent`,
   * `cf-connecting-ip` and `req.ip`, each possibly absent.
   */
  datatype Request = Request(userAgent: Option<string>, forwardedIp: Option<string>, socketIp: Option<string>)

  /**
   * The moment a request is handled: the local calendar hour and the instant in
   * milliseconds, and the two draws of `Math.random()` (the cleanup trigger in
   * `trackActivity` and the reason index), each in [0, 1) for a real generator.
   */
  datatype Moment = Moment(hour: CalendarHour, nowMs: int, cleanupRoll: real, reasonRoll: real)

  /** One request and the moment it is handled. */
  datatype Event = Event(req: Request, moment: Moment)

  datatype Body = ErrorBody(error: string) | ReasonBody(reason: Option<string>)

  datatype Response = Response(status: nat, body: Body)

  /** `req.headers["user-agent"] || ""`. */
  function UserAgentOf(req: Request): string {
    OrElse(req.userAgent, "")
  }

  /** `(req.headers["cf-connecting-ip"] || req.ip) || "127.0.0.1"`: the address given to the geo lookup. */
  function LookupAddress(req: Request): (a: string)
    ensures a != ""
    ensures a == "127.0.0.1" || Some(a) == req.forwardedIp || Some(a) == req.socketIp
    ensures NonEmpty(req.forwardedIp) ==> a == req.forwardedIp.value
    ensures !NonEmpty(req.forwardedIp) && NonEmpty(req.socketIp) ==> a == req.socketIp.value
    ensures !NonEmpty(req.forwardedIp) && !NonEmpty(req.socketIp) ==> a == "127.0.0.1"
  {
    OrElse(req.forwardedIp, OrElse(req.socketIp, "127.0.0.1"))
  }

  /** `reasons[Math.floor(Math.random() * reasons.length)]`; `None` is `undefined`. */
  function ReasonFor(reasons: seq<string>, roll: real): Option<string> {
    ElementAt(reasons, FloorScaled(roll, |reasons|))
  }

  /** With a draw in [0, 1) and at least one reason, the pick is always an element of the list. */
  lemma ReasonFromList(reasons: seq<string>, roll: real)
    requires 0.0 <= roll < 1.0
    requires |reasons| > 0
    ensures ReasonFor(reasons, roll).Some?
    ensures ReasonFor(reasons, roll).value in reasons
  {
    FloorScaledInRange(roll, |reasons|);
  }

  /** Every element can be picked: the draws in [i/n, (i+1)/n) choose the i-th reason. */
  lemma EveryReasonReachable(reasons: seq<string>, i: nat)
    requires i < |reasons|
    ensures ReasonFor(reasons, i as real / |reasons| as real) == Some(reasons[i])
  {
    var n := |reasons| as real;
    assert i as real / n * n == i as real;
  }
}
