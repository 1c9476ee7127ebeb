/**
 * The `/reason` handler of src/routes.js: refuse automated agents with 403;
 * otherwise classify the client, record the fetch in the counter, the activity
 * log and the analytics (in that order), and answer 404 with a random reason.
 */
module Routes {
  import opened Wrappers
  import opened Js
  import opened Tally
  import opened ActivityKey
  import opened Storage
  import opened Classify
  import opened Http
  import Text

  /** The alternatives of the router's bot pattern, in source order. */
  const BotTokens: seq<string> := [
    "bot", "crawler", "spider", "slurp", "lighthouse", "curl", "python",
    "wget", "go-http-client", "node-fetch", "axios", "headless"
  ]

  /** The pattern's tokens are lower-case, so lower-casing the agent is all the `i` flag adds. */
  lemma BotTokensLowerCase()
    ensures LowerCaseTokens(BotTokens)
  {
  }

  const DeniedMessage: string := "Access denied for automated agents."

  predicate IsBot(ua: string) {
    MatchesAnyToken(ua, BotTokens)
  }

  /**
   * The external collaborators: the user-agent parser's browser and OS names,
   * the offline geo database's country for an address, and the local-time
   * constructor `new Date(y, m, d, h)`.
   */
  datatype Env = Env(
    browserName: string -> Option<string>,
    osName: string -> Option<string>,
    countryOf: string -> Option<string>,
    localTime: LocalTime)

  datatype Facets = Facets(browser: string, os: string, country: string)

  /**
   * Browser and OS are the parser's name when it gives a non-empty one, and
   * "Other" otherwise; the country is whatever the lookup found, even an empty
   * string, and "Unknown" when it found nothing.
   */
  function FacetsOf(env: Env, req: Request): (f: Facets)
    ensures f.browser != "" && f.os != ""
    ensures NonEmpty(env.browserName(UserAgentOf(req))) ==> f.browser == env.browserName(UserAgentOf(req)).value
    ensures !NonEmpty(env.browserName(UserAgentOf(req))) ==> f.browser == "Other"
    ensures NonEmpty(env.osName(UserAgentOf(req))) ==> f.os == env.osName(UserAgentOf(req)).value
    ensures !NonEmpty(env.osName(UserAgentOf(req))) ==> f.os == "Other"
    ensures env.countryOf(LookupAddress(req)).Some? ==> f.country == env.countryOf(LookupAddress(req)).value
    ensures env.countryOf(LookupAddress(req)).None? ==> f.country == "Unknown"
  {
    var ua := UserAgentOf(req);
    var geo := env.countryOf(LookupAddress(req));
    Facets(OrElse(env.browserName(ua), "Other"), OrElse(env.osName(ua), "Other"),
           if geo.Some? then geo.value else "Unknown")
  }

  /**
   * A country the lookup reports as "" is passed through as the facet key: the
   * router tests only whether a record was found, not whether its country is set.
   */
  lemma EmptyCountryPassesThrough(env: Env, req: Request)
    requires env.countryOf(LookupAddress(req)) == Some("")
    ensures FacetsOf(env, req).country == ""
    ensures FacetsOf(env, req).country != "Unknown"
  {
  }

  /** The three stores of src/storage.js. */
  datatype Server = Server(stats: Stats, activity: Counts, analytics: Analytics)

  datatype Outcome = Outcome(server: Server, writes: seq<Write>, response: Response)

  /**
   * One `/reason` request. A bot gets 403 and leaves every store and file as it
   * was. Anyone else is counted once in each store, the counter first, then the
   * activity log, then the analytics, each flushed as it changes, and gets 404
   * with the picked reason.
   */
  function HandleReason(s: Server, env: Env, req: Request, m: Moment, reasons: seq<string>): (o: Outcome)
    ensures IsBot(UserAgentOf(req)) ==>
      o.server == s && o.writes == [] && o.response == Response(403, ErrorBody(DeniedMessage))
    ensures !IsBot(UserAgentOf(req)) ==>
      var f := FacetsOf(env, req);
      var tracked := TrackActivity(s.activity, m.hour, m.nowMs, env.localTime, m.cleanupRoll);
      && o.server.stats.totalFetches == s.stats.totalFetches + 1
      && o.server.activity == tracked.state
      && (forall k :: CountOf(o.server.analytics.browser, k) == CountOf(s.analytics.browser, k) + (if k == f.browser then 1 else 0))
      && (forall k :: CountOf(o.server.analytics.os, k) == CountOf(s.analytics.os, k) + (if k == f.os then 1 else 0))
      && (forall k :: CountOf(o.server.analytics.country, k) == CountOf(s.analytics.country, k) + (if k == f.country then 1 else 0))
      && o.writes == [StatsSaved(o.server.stats)] + tracked.writes + [AnalyticsSaved(o.server.analytics)]
      && o.response == Response(404, ReasonBody(ReasonFor(reasons, m.reasonRoll)))
  {
    var ua := UserAgentOf(req);
    if IsBot(ua) then
      Outcome(s, [], Response(403, ErrorBody(DeniedMessage)))
    else
      var f := FacetsOf(env, req);
      var counted := IncrementCounter(s.stats);
      var tracked := TrackActivity(s.activity, m.hour, m.nowMs, env.localTime, m.cleanupRoll);
      var recorded := UpdateAnalytics(s.analytics, f.browser, f.os, f.country);
      Outcome(Server(counted.state, tracked.state, recorded.state),
              counted.writes + tracked.writes + recorded.writes,
              Response(404, ReasonBody(ReasonFor(reasons, m.reasonRoll))))
  }

  /** A missing user-agent header is read as "", which is not a bot. */
  lemma MissingAgentIsHuman(req: Request)
    requires req.userAgent.None?
    ensures !IsBot(UserAgentOf(req))
  {
    EmptyAgentMatchesNothing(BotTokens);
  }

  /** `curl/7.68.0` and `HeadlessChrome/120.0`, in any letter case, are refused. */
  lemma ScriptedAgentsAreBots()
    ensures IsBot("curl/7.68.0")
    ensures IsBot("CURL/7.68.0")
    ensures IsBot("HeadlessChrome/120.0")
  {
    AgentStartingWithTokenIsBot("curl/7.68.0", 5);
    AgentStartingWithTokenIsBot("CURL/7.68.0", 5);
    AgentStartingWithTokenIsBot("HeadlessChrome/120.0", 11);
  }

  /** An agent whose lower-cased text starts with one of the tokens is refused. */
  lemma AgentStartingWithTokenIsBot(ua: string, i: nat)
    requires i < |BotTokens|
    requires |BotTokens[i]| <= |ua| && Text.Lower(ua[..|BotTokens[i]|]) == BotTokens[i]
    ensures IsBot(ua)
  {
    assert Text.Lower(ua)[..|BotTokens[i]|] == Text.Lower(ua[..|BotTokens[i]|]);
    MatchAt(ua, BotTokens, i, 0);
  }

  /**
   * With a consistent clock, a human request raises the current hour's bucket by
   * exactly one, whether or not a cleanup pass ran.
   */
  lemma HumanRequestCountsHour(s: Server, env: Env, req: Request, m: Moment, reasons: seq<string>)
    requires !IsBot(UserAgentOf(req))
    requires ClockAgrees(m.hour, m.nowMs, env.localTime)
    ensures var a := HandleReason(s, env, req, m, reasons).server.activity;
      FormatKey(m.hour) in a && a[FormatKey(m.hour)] == CountOf(s.activity, FormatKey(m.hour)) + 1
  {
    TrackActivityCountsOnce(s.activity, m.hour, m.nowMs, env.localTime, m.cleanupRoll);
  }

  /** A human request adds exactly one to the total of each analytics facet. */
  lemma HumanRequestFacetTotals(s: Server, env: Env, req: Request, m: Moment, reasons: seq<string>)
    requires !IsBot(UserAgentOf(req))
    ensures var a := HandleReason(s, env, req, m, reasons).server.analytics;
      && Total(a.browser) == Total(s.analytics.browser) + 1
      && Total(a.os) == Total(s.analytics.os) + 1
      && Total(a.country) == Total(s.analytics.country) + 1
  {
    var f := FacetsOf(env, req);
    assert HandleReason(s, env, req, m, reasons).server.analytics == UpdateAnalytics(s.analytics, f.browser, f.os, f.country).state;
    UpdateAnalyticsTotals(s.analytics, f.browser, f.os, f.country);
  }

  /**
   * A human request is answered 404 with one of the reasons, and its writes go
   * to the counter first and the analytics last.
   */
  lemma HumanRequestAnswer(s: Server, env: Env, req: Request, m: Moment, reasons: seq<string>)
    requires !IsBot(UserAgentOf(req))
    requires 0.0 <= m.reasonRoll < 1.0
    requires |reasons| > 0
    ensures var o := HandleReason(s, env, req, m, reasons);
      && o.writes[0].StatsSaved? && o.writes[|o.writes| - 1].AnalyticsSaved?
      && o.response.status == 404
      && o.response.body.reason.Some? && o.response.body.reason.value in reasons
  {
    ReasonFromList(reasons, m.reasonRoll);
  }

  // ---------------------------------------------------------------------------
  // Many requests

  /** The number of requests that are not refused as bots. */
  function Humans(events: seq<Event>): nat {
    if |events| == 0 then 0
    else (if IsBot(UserAgentOf(events[0].req)) then 0 else 1) + Humans(events[1..])
  }

  /** The stores after serving `events` in order. */
  function Serve(s: Server, env: Env, events: seq<Event>, reasons: seq<string>): Server
    decreases |events|
  {
    if |events| == 0 then s
    else Serve(HandleReason(s, env, events[0].req, events[0].moment, reasons).server, env, events[1..], reasons)
  }

  /**
   * After any run of requests, the counter and every analytics facet's total
   * have grown by exactly the number of requests that were not bots.
   */
  lemma {:induction false} ServeCountsHumans(s: Server, env: Env, events: seq<Event>, reasons: seq<string>)
    ensures var t := Serve(s, env, events, reasons);
      && t.stats.totalFetches == s.stats.totalFetches + Humans(events)
      && Total(t.analytics.browser) == Total(s.analytics.browser) + Humans(events)
      && Total(t.analytics.os) == Total(s.analytics.os) + Humans(events)
      && Total(t.analytics.country) == Total(s.analytics.country) + Humans(events)
    decreases |events|
  {
    if |events| > 0 {
      var e := events[0];
      var next := HandleReason(s, env, e.req, e.moment, reasons).server;
      ServeCountsHumans(next, env, events[1..], reasons);
      if !IsBot(UserAgentOf(e.req)) {
        var f := FacetsOf(env, e.req);
        UpdateAnalyticsTotals(s.analytics, f.browser, f.os, f.country);
      }
    }
  }
}
