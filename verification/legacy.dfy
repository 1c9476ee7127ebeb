/**
 * The older, self-contained server of index.js. Its stats and activity stores
 * are copies of the storage layer's (the same load, increment, tracking and
 * cleanup code), so they are modelled by the Storage module; what differs is
 * the `/reason` handler: a seven-token bot pattern, no analytics, and bots are
 * answered like everyone else but not counted.
 */
module Legacy {
  import opened Wrappers
  import opened Tally
  import opened ActivityKey
  import opened Storage
  import opened Classify
  import opened Http
  import Routes

  /** The alternatives of index.js's bot pattern, in source order. */
  const BotTokens: seq<string> := ["bot", "crawler", "spider", "slurp", "lighthouse", "curl", "python"]

  predicate IsBot(ua: string) {
    MatchesAnyToken(ua, BotTokens)
  }

  /** The seven tokens are the first seven of the router's twelve. */
  lemma TokensArePrefixOfRouter()
    ensures BotTokens == Routes.BotTokens[..7]
  {
  }

  /** Every agent index.js treats as a bot, the router refuses too. */
  lemma BotIsRouterBot(ua: string)
    ensures IsBot(ua) ==> Routes.IsBot(ua)
  {
    TokensArePrefixOfRouter();
    MatchesPrefixList(ua, Routes.BotTokens, 7);
  }

  /** `curl/7.68.0` is a bot here too. */
  lemma CurlIsBot()
    ensures IsBot("curl/7.68.0")
  {
    MatchAt("curl/7.68.0", BotTokens, 5, 0);
  }

  /** The two stores index.js keeps. */
  datatype Server = Server(stats: Stats, activity: Counts)

  datatype Outcome = Outcome(server: Server, writes: seq<Write>, response: Response)

  /**
   * One `/reason` request to index.js. Every caller gets 404 with the picked
   * reason; only a request that is not a bot is counted and logged, the counter
   * first and the activity log second.
   */
  function HandleReason(s: Server, localTime: LocalTime, req: Request, m: Moment, reasons: seq<string>): (o: Outcome)
    ensures o.response == Response(404, ReasonBody(ReasonFor(reasons, m.reasonRoll)))
    ensures IsBot(UserAgentOf(req)) ==> o.server == s && o.writes == []
    ensures !IsBot(UserAgentOf(req)) ==>
      var tracked := TrackActivity(s.activity, m.hour, m.nowMs, localTime, m.cleanupRoll);
      && o.server.stats.totalFetches == s.stats.totalFetches + 1
      && o.server.activity == tracked.state
      && o.writes == [StatsSaved(o.server.stats)] + tracked.writes
  {
    var response := Response(404, ReasonBody(ReasonFor(reasons, m.reasonRoll)));
    if IsBot(UserAgentOf(req)) then
      Outcome(s, [], response)
    else
      var counted := IncrementCounter(s.stats);
      var tracked := TrackActivity(s.activity, m.hour, m.nowMs, localTime, m.cleanupRoll);
      Outcome(Server(counted.state, tracked.state), counted.writes + tracked.writes, response)
  }

  /**
   * A bot still gets a reason from the list, and neither store changes; this is
   * where index.js differs from the router, which refuses bots with 403.
   */
  lemma BotGetsReasonUncounted(s: Server, localTime: LocalTime, req: Request, m: Moment, reasons: seq<string>)
    requires IsBot(UserAgentOf(req))
    requires 0.0 <= m.reasonRoll < 1.0
    requires |reasons| > 0
    ensures var o := HandleReason(s, localTime, req, m, reasons);
      && o.server == s
      && o.response.status == 404
      && o.response.body.reason.Some? && o.response.body.reason.value in reasons
  {
    ReasonFromList(reasons, m.reasonRoll);
  }

  /**
   * With a consistent clock, a human request raises the counter and the
   * current hour's bucket by exactly one each.
   */
  lemma HumanRequestCounts(s: Server, localTime: LocalTime, req: Request, m: Moment, reasons: seq<string>)
    requires !IsBot(UserAgentOf(req))
    requires ClockAgrees(m.hour, m.nowMs, localTime)
    ensures var t := HandleReason(s, localTime, req, m, reasons).server;
      var key := FormatKey(m.hour);
      && t.stats.totalFetches == s.stats.totalFetches + 1
      && key in t.activity && t.activity[key] == CountOf(s.activity, key) + 1
  {
    TrackActivityCountsOnce(s.activity, m.hour, m.nowMs, localTime, m.cleanupRoll);
  }

  /**
   * When a human request draws the cleanup, the log afterwards holds exactly the
   * buckets (old ones plus the current hour's) that are not older than fourteen
   * days, and the surviving old buckets keep their counts.
   */
  lemma CleanupDuringRequest(s: Server, localTime: LocalTime, req: Request, m: Moment, reasons: seq<string>)
    requires !IsBot(UserAgentOf(req))
    requires m.cleanupRoll < CleanupChance
    ensures var a := HandleReason(s, localTime, req, m, reasons).server.activity;
      var cutoff := m.nowMs - RetentionMs;
      && (forall k :: k in s.activity && k != FormatKey(m.hour) ==>
            (k in a <==> !Stale(k, cutoff, localTime)) && (k in a ==> a[k] == s.activity[k]))
      && (forall k :: k in a ==> k in s.activity || k == FormatKey(m.hour))
  {
  }

  /** The number of requests index.js counts. */
  function Humans(events: seq<Event>): nat {
    if |events| == 0 then 0
    else (if IsBot(UserAgentOf(events[0].req)) then 0 else 1) + Humans(events[1..])
  }

  /** The stores after serving `events` in order. */
  function Serve(s: Server, localTime: LocalTime, events: seq<Event>, reasons: seq<string>): Server
    decreases |events|
  {
    if |events| == 0 then s
    else Serve(HandleReason(s, localTime, events[0].req, events[0].moment, reasons).server, localTime, events[1..], reasons)
  }

  /** After any run of requests the counter has grown by exactly the number of non-bot requests. */
  lemma {:induction false} ServeCountsHumans(s: Server, localTime: LocalTime, events: seq<Event>, reasons: seq<string>)
    ensures Serve(s, localTime, events, reasons).stats.totalFetches == s.stats.totalFetches + Humans(events)
    decreases |events|
  {
    if |events| > 0 {
      var next := HandleReason(s, localTime, events[0].req, events[0].moment, reasons).server;
      ServeCountsHumans(next, localTime, events[1..], reasons);
    }
  }
}
