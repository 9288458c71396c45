/**
 * Two ways the refresh of `Get` works against the staleness gate and the
 * freshness stamp, each shown on `Refresh` (the Go code as written) and
 * put right in `RefreshIntended`.
 */
module RefreshFindings {
  import opened Wrappers
  import opened Events
  import opened IcalCache

  /**
   * As written: a HEAD answered with an unchanged Last-Modified serves the
   * stored events but does not record the check, so every later call, even
   * one nanosecond later, sends another HEAD.
   */
  lemma NotModifiedKeepsProbing(s: CacheState, now: int, stamp: int, fetch: Fetch, t2: int,
                                defaultZone: string, resolves: string -> bool)
    requires Probes(s, now) && stamp <= s.lastModified
    requires t2 >= now
    ensures var out := Refresh(s, now, Probed(Some(stamp)), fetch, defaultZone, resolves);
            out.result == Success(s.events) && Probes(out.state, t2)
  {
  }

  /**
   * As written: a body without a calendar succeeds but does not record the
   * check, so while upstream sends no Last-Modified every later call GETs
   * the whole feed again.
   */
  lemma EmptyFeedKeepsRefetching(s: CacheState, now: int, t2: int, defaultZone: string, resolves: string -> bool)
    requires Refetches(s, now, Probed(None))
    requires t2 >= now
    ensures var out := Refresh(s, now, Probed(None), NoCalendar, defaultZone, resolves);
            out.result == Success([]) && Refetches(out.state, t2, Probed(None))
  {
  }

  /**
   * As written: a newer Last-Modified is stored before the GET, so when the
   * GET, the decoding or the extraction fails, the next call with the same
   * header stops at the Last-Modified comparison and serves the old events
   * with no error, whatever the GET would now return.
   */
  lemma FailedRefreshHidesUpdate(s: CacheState, now: int, stamp: int, fetch: Fetch,
                                 t2: int, fetch2: Fetch, defaultZone: string, resolves: string -> bool)
    requires Refetches(s, now, Probed(Some(stamp)))
    requires fetch.FetchFailed? || fetch.Undecodable?
             || (fetch.Calendar? && ExtractAll(fetch.entries, defaultZone, resolves).Failure?)
    requires t2 >= now
    ensures var out := Refresh(s, now, Probed(Some(stamp)), fetch, defaultZone, resolves);
            && out.result.Failure?
            && Refresh(out.state, t2, Probed(Some(stamp)), fetch2, defaultZone, resolves)
               == Outcome(out.state, Success(s.events))
  {
  }

  /**
   * Corrected: after any successful call that contacted upstream, calls
   * within the interval contact nobody and return the same events.
   */
  lemma IntendedQuietWithinInterval(s: CacheState, t1: int, probe1: Probe, fetch1: Fetch,
                                    t2: int, probe2: Probe, fetch2: Fetch,
                                    defaultZone: string, resolves: string -> bool)
    requires Probes(s, t1)
    requires var first := RefreshIntended(s, t1, probe1, fetch1, defaultZone, resolves);
             first.result.Success? && t2 - t1 < first.state.Interval
    ensures var first := RefreshIntended(s, t1, probe1, fetch1, defaultZone, resolves);
            && !Probes(first.state, t2)
            && RefreshIntended(first.state, t2, probe2, fetch2, defaultZone, resolves) == first
  {
  }

  /**
   * Corrected: a failed refresh leaves the stamp alone, so the next call
   * with the same Last-Modified header tries the GET again.
   */
  lemma IntendedRetriesAfterFailure(s: CacheState, now: int, probe: Probe, fetch: Fetch, t2: int,
                                    defaultZone: string, resolves: string -> bool)
    requires Refetches(s, now, probe)
    requires RefreshIntended(s, now, probe, fetch, defaultZone, resolves).result.Failure?
    requires t2 >= now
    ensures Refetches(RefreshIntended(s, now, probe, fetch, defaultZone, resolves).state, t2, probe)
  {
  }

  /**
   * The corrections touch only the flawed paths: a disabled cache, a call
   * within the interval and a fully successful refresh behave as in the Go
   * code.
   */
  lemma IntendedAgreesElsewhere(s: CacheState, now: int, probe: Probe, fetch: Fetch,
                                defaultZone: string, resolves: string -> bool)
    requires !Probes(s, now)
             || (Refetches(s, now, probe) && fetch.Calendar? && ExtractAll(fetch.entries, defaultZone, resolves).Success?)
    ensures RefreshIntended(s, now, probe, fetch, defaultZone, resolves) == Refresh(s, now, probe, fetch, defaultZone, resolves)
  {
  }
}
