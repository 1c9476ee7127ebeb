/**
 * The storage layer of src/storage.js: the fetch counter, the hourly activity
 * log with its fourteen-day cleanup, and the analytics facets, each loaded once
 * at start-up and written back in full after every change.
 *
 * State is passed in and returned explicitly. A file write is recorded as a
 * `Write` carrying the whole value written, so the order and content of the
 * flushes are part of each operation's result.
 */
module Storage {
  import opened Wrappers
  import opened Js
  import opened Tally
  import opened ActivityKey

  // ---------------------------------------------------------------------------
  // Shared shapes

  datatype Stats = Stats(totalFetches: int)

  /** One count per browser name, operating system name and country code. */
  datatype Analytics = Analytics(browser: Counts, os: Counts, country: Counts)

  /** A whole-file rewrite of one of the three data files. */
  datatype Write =
    | StatsSaved(stats: Stats)
    | ActivitySaved(activity: Counts)
    | AnalyticsSaved(analytics: Analytics)

  /** The state after an operation and the writes it made, in order. */
  datatype Step<S> = Step(state: S, writes: seq<Write>)

  // ---------------------------------------------------------------------------
  // Stats

  const DefaultStats := Stats(0)

  /** The file parsed to an object whose `totalFetches` is a number. */
  predicate HoldsCount(file: Stored) {
    file.Parsed? && file.value.JObject? && "totalFetches" in file.value.fields
    && file.value.fields["totalFetches"].JNumber?
  }

  /**
   * Start-up load of the stats file: the stored `totalFetches` is taken only when
   * it is a number; a missing or unreadable file, a value that is not an object
   * (reading a field of `null` throws and is caught) or a non-numeric field all
   * leave the default 0.
   */
  function LoadStats(file: Stored): (s: Stats)
    ensures HoldsCount(file) ==> s.totalFetches == file.value.fields["totalFetches"].n
    ensures !HoldsCount(file) ==> s == DefaultStats
  {
    match file
    case Parsed(v) =>
      (match NumberField(v, "totalFetches")
       case Some(n) => Stats(n)
       case None => DefaultStats)
    case _ => DefaultStats
  }

  /** What `JSON.stringify(stats)` writes. */
  function StatsJson(s: Stats): Json {
    JObject(map["totalFetches" := JNumber(s.totalFetches)])
  }

  /** A counter written by the service is read back unchanged at the next start. */
  lemma LoadSavedStats(s: Stats)
    ensures LoadStats(Parsed(StatsJson(s))) == s
  {
  }

  /** `totalFetches++` followed by a rewrite of the stats file. */
  function IncrementCounter(s: Stats): (r: Step<Stats>)
    ensures r.state.totalFetches == s.totalFetches + 1
    ensures r.writes == [StatsSaved(r.state)]
  {
    var next := Stats(s.totalFetches + 1);
    Step(next, [StatsSaved(next)])
  }

  // ---------------------------------------------------------------------------
  // Activity

  /** Fourteen days in milliseconds: `14 * 24 * 60 * 60 * 1000`. */
  const RetentionMs: int := 14 * 24 * 60 * 60 * 1000

  const HourMs: int := 60 * 60 * 1000

  /** `Math.random() < 0.01` triggers a cleanup pass. */
  const CleanupChance: real := 0.01

  /**
   * `new Date(year, monthIndex, day, hours).getTime()`: the instant, in
   * milliseconds, that local-time fields denote. Time zones and the
   * normalisation of out-of-range fields live inside this function.
   */
  type LocalTime = (int, int, int, int) -> int

  /**
   * `date < cutoff` for the date a key names. A key that does not parse gives an
   * Invalid Date, and every comparison with it is false, so it is never stale.
   */
  predicate Stale(key: string, cutoff: int, localTime: LocalTime) {
    match ParseKey(key)
    case None => false
    case Some(c) => localTime(c.year, c.month - 1, c.day, c.hour) < cutoff
  }

  datatype Cleanup = Cleanup(kept: Counts, changed: bool)

  /**
   * One cleanup pass at instant `nowMs`: every bucket strictly older than
   * fourteen days is deleted, the others keep their counts, and `changed`
   * reports whether anything was deleted (the file is rewritten only then).
   */
  function CleanupOldActivity(activity: Counts, nowMs: int, localTime: LocalTime): (r: Cleanup)
    ensures r.kept.Keys <= activity.Keys
    ensures forall k :: k in activity ==> (k in r.kept <==> !Stale(k, nowMs - RetentionMs, localTime))
    ensures forall k :: k in r.kept ==> r.kept[k] == activity[k]
    ensures r.changed <==> exists k :: k in activity && Stale(k, nowMs - RetentionMs, localTime)
  {
    var cutoff := nowMs - RetentionMs;
    var kept := map k | k in activity && !Stale(k, cutoff, localTime) :: activity[k];
    Cleanup(kept, kept.Keys != activity.Keys)
  }

  /**
   * The cleanup pass as the source runs it: a walk over a snapshot of the keys
   * that deletes each stale bucket in place and raises `changed`.
   */
  method CleanupLoop(activity: Counts, nowMs: int, localTime: LocalTime) returns (kept: Counts, changed: bool)
    ensures Cleanup(kept, changed) == CleanupOldActivity(activity, nowMs, localTime)
  {
    var cutoff := nowMs - RetentionMs;
    var keys := activity.Keys;
    kept := activity;
    changed := false;
    while keys != {}
      invariant keys <= activity.Keys
      invariant kept.Keys <= activity.Keys
      invariant forall k :: k in activity ==> (k in kept <==> k in keys || !Stale(k, cutoff, localTime))
      invariant forall k :: k in kept ==> kept[k] == activity[k]
      invariant changed <==> exists k :: k in activity && k !in keys && Stale(k, cutoff, localTime)
      decreases keys
    {
      var key :| key in keys;
      if Stale(key, cutoff, localTime) {
        kept := kept - {key};
        changed := true;
      }
      keys := keys - {key};
    }
    assert kept == CleanupOldActivity(activity, nowMs, localTime).kept;
  }

  /** A second pass at the same instant deletes nothing and changes nothing. */
  lemma CleanupIdempotent(activity: Counts, nowMs: int, localTime: LocalTime)
    ensures var once := CleanupOldActivity(activity, nowMs, localTime);
      var twice := CleanupOldActivity(once.kept, nowMs, localTime);
      twice.kept == once.kept && !twice.changed
  {
  }

  /** A bucket whose key does not name an hour is never deleted. */
  lemma MalformedKeysSurvive(activity: Counts, nowMs: int, localTime: LocalTime, key: string)
    requires key in activity
    requires ParseKey(key).None?
    ensures key in CleanupOldActivity(activity, nowMs, localTime).kept
    ensures CleanupOldActivity(activity, nowMs, localTime).kept[key] == activity[key]
  {
  }

  /**
   * For a bucket the service itself created, staleness is exactly "the hour the
   * bucket was created for began strictly before now minus fourteen days".
   */
  lemma StaleFormattedKey(c: CalendarHour, cutoff: int, localTime: LocalTime)
    ensures Stale(FormatKey(c), cutoff, localTime) <==> localTime(c.year, c.month - 1, c.day, c.hour) < cutoff
  {
    ParseFormatRoundTrip(c);
  }

  /** The clock's calendar fields and its instant agree: `nowMs` lies in the hour the fields name. */
  predicate ClockAgrees(now: CalendarHour, nowMs: int, localTime: LocalTime) {
    var start := localTime(now.year, now.month - 1, now.day, now.hour);
    start <= nowMs < start + HourMs
  }

  /** Every bucket key names an hour: true of every log built by `TrackActivity` alone. */
  predicate WellFormed(activity: Counts) {
    forall k :: k in activity ==> ParseKey(k).Some?
  }

  /**
   * `trackActivity`: count one event in the current hour's bucket, then, when the
   * roll comes up below 1%, run a cleanup pass, and finally rewrite the file.
   */
  function TrackActivity(activity: Counts, now: CalendarHour, nowMs: int, localTime: LocalTime, cleanupRoll: real)
    : (r: Step<Counts>)
    ensures var key := FormatKey(now);
      && (key in r.state ==> r.state[key] == CountOf(activity, key) + 1)
      && (forall k :: k in r.state && k != key ==> k in activity && r.state[k] == activity[k])
    ensures cleanupRoll >= CleanupChance ==>
      r.state.Keys == activity.Keys + {FormatKey(now)}
    ensures cleanupRoll < CleanupChance ==>
      forall k :: k in r.state <==> (k in activity || k == FormatKey(now)) && !Stale(k, nowMs - RetentionMs, localTime)
    ensures |r.writes| >= 1 && r.writes[|r.writes| - 1] == ActivitySaved(r.state)
    ensures forall i :: 0 <= i < |r.writes| ==> r.writes[i] == ActivitySaved(r.state)
  {
    var bumped := Bump(activity, FormatKey(now));
    if cleanupRoll < CleanupChance then
      var c := CleanupOldActivity(bumped, nowMs, localTime);
      Step(c.kept, (if c.changed then [ActivitySaved(c.kept)] else []) + [ActivitySaved(c.kept)])
    else
      Step(bumped, [ActivitySaved(bumped)])
  }

  /**
   * When the clock is consistent the current bucket is never swept away: it ends
   * exactly one higher than before, whether or not a cleanup pass ran.
   */
  lemma TrackActivityCountsOnce(activity: Counts, now: CalendarHour, nowMs: int, localTime: LocalTime, cleanupRoll: real)
    requires ClockAgrees(now, nowMs, localTime)
    ensures var r := TrackActivity(activity, now, nowMs, localTime, cleanupRoll).state;
      FormatKey(now) in r && r[FormatKey(now)] == CountOf(activity, FormatKey(now)) + 1
  {
    StaleFormattedKey(now, nowMs - RetentionMs, localTime);
  }

  /** Recording events keeps every bucket key readable. */
  lemma TrackActivityWellFormed(activity: Counts, now: CalendarHour, nowMs: int, localTime: LocalTime, cleanupRoll: real)
    requires WellFormed(activity)
    ensures WellFormed(TrackActivity(activity, now, nowMs, localTime, cleanupRoll).state)
  {
    ParseFormatRoundTrip(now);
  }

  // ---------------------------------------------------------------------------
  // Analytics

  const EmptyAnalytics := Analytics(map[], map[], map[])

  /** The counts held by a stored facet object; entries that are not counts are dropped. */
  function CountsOf(v: Json): Counts {
    match v
    case JObject(f) => map k | k in f && f[k].JNumber? && f[k].n >= 0 :: f[k].n as nat
    case _ => map[]
  }

  /** What `JSON.stringify` writes for one facet. */
  function CountsJson(m: Counts): Json {
    JObject(map k | k in m :: JNumber(m[k]))
  }

  /** `if (!analytics.name) analytics.name = {}`: a missing or falsy facet becomes empty. */
  function FacetOf(fields: map<string, Json>, name: string): Counts {
    if name in fields && Truthy(fields[name]) then CountsOf(fields[name]) else map[]
  }

  /**
   * Start-up load of the analytics file, keeping the default empty facets
   * whenever the stored value is not an object.
   */
  function LoadAnalytics(file: Stored): (a: Analytics)
    ensures !(file.Parsed? && file.value.JObject?) ==> a == EmptyAnalytics
    ensures file.Parsed? && file.value.JObject? ==>
      var f := file.value.fields;
      && ("browser" !in f || !Truthy(f["browser"]) ==> a.browser == map[])
      && ("os" !in f || !Truthy(f["os"]) ==> a.os == map[])
      && ("country" !in f || !Truthy(f["country"]) ==> a.country == map[])
  {
    match file
    case Parsed(JObject(f)) => Analytics(FacetOf(f, "browser"), FacetOf(f, "os"), FacetOf(f, "country"))
    case _ => EmptyAnalytics
  }

  /**
   * The load as written: the parsed value replaces the default before its facets
   * are checked. `None` stands for a `null`, boolean, number or string left in
   * `analytics`, on which every later `updateAnalytics` throws a TypeError.
   * An array behaves like an object with no facets.
   */
  function LoadAnalyticsAsWritten(file: Stored): (r: Option<Analytics>)
    ensures r.None? <==> file.Parsed? && !file.value.JObject? && !file.value.JArray?
    ensures r.Some? ==> r.value == LoadAnalytics(file)
  {
    match file
    case Parsed(v) =>
      (match v
       case JObject(f) => Some(Analytics(FacetOf(f, "browser"), FacetOf(f, "os"), FacetOf(f, "country")))
       case JArray(_) => Some(EmptyAnalytics)
       case _ => None)
    case _ => Some(EmptyAnalytics)
  }

  /**
   * An analytics file holding `null` leaves the service without analytics (the
   * TypeError on `null.browser` is caught only after `null` was stored), where
   * the evidently intended fallback keeps the empty default.
   */
  lemma NullAnalyticsFileIsUnusable()
    ensures LoadAnalyticsAsWritten(Parsed(JNull)).None?
    ensures LoadAnalytics(Parsed(JNull)) == EmptyAnalytics
  {
  }

  /** What `JSON.stringify(analytics)` writes. */
  function AnalyticsJson(a: Analytics): Json {
    JObject(map["browser" := CountsJson(a.browser), "os" := CountsJson(a.os), "country" := CountsJson(a.country)])
  }

  lemma CountsRoundTrip(m: Counts)
    ensures CountsOf(CountsJson(m)) == m
  {
    var f := CountsJson(m).fields;
    assert forall k :: k in f ==> f[k] == JNumber(m[k]);
  }

  /** Analytics written by the service are read back unchanged at the next start. */
  lemma LoadSavedAnalytics(a: Analytics)
    ensures LoadAnalytics(Parsed(AnalyticsJson(a))) == a
  {
    CountsRoundTrip(a.browser);
    CountsRoundTrip(a.os);
    CountsRoundTrip(a.country);
  }

  /**
   * `updateAnalytics(browser, os, country)`: one more event under the given key
   * of each facet, no other count touched, then one rewrite of the file.
   */
  function UpdateAnalytics(a: Analytics, browser: string, os: string, country: string): (r: Step<Analytics>)
    ensures r.state.browser.Keys == a.browser.Keys + {browser}
    ensures r.state.os.Keys == a.os.Keys + {os}
    ensures r.state.country.Keys == a.country.Keys + {country}
    ensures forall k :: CountOf(r.state.browser, k) == CountOf(a.browser, k) + (if k == browser then 1 else 0)
    ensures forall k :: CountOf(r.state.os, k) == CountOf(a.os, k) + (if k == os then 1 else 0)
    ensures forall k :: CountOf(r.state.country, k) == CountOf(a.country, k) + (if k == country then 1 else 0)
    ensures r.writes == [AnalyticsSaved(r.state)]
  {
    var next := Analytics(Bump(a.browser, browser), Bump(a.os, os), Bump(a.country, country));
    Step(next, [AnalyticsSaved(next)])
  }

  /** Each facet's total grows by exactly one per recorded event. */
  lemma UpdateAnalyticsTotals(a: Analytics, browser: string, os: string, country: string)
    ensures var r := UpdateAnalytics(a, browser, os, country).state;
      && Total(r.browser) == Total(a.browser) + 1
      && Total(r.os) == Total(a.os) + 1
      && Total(r.country) == Total(a.country) + 1
  {
    TotalBump(a.browser, browser);
    TotalBump(a.os, os);
    TotalBump(a.country, country);
  }
}
