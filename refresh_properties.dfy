/**
 * What one call of `Get` (its specification `Refresh`) does on each path, and
 * what two calls in a row do.
 */
module RefreshProperties {
  import opened Wrappers
  import opened Clock
  import opened Events
  import opened IcalCache

  /** Without a URL the cache is disabled: nothing is returned, nothing fetched, no field changed. */
  lemma DisabledIsInert(s: CacheState, now: int, probe: Probe, fetch: Fetch, defaultZone: string, resolves: string -> bool)
    requires s.URL == ""
    ensures Refresh(s, now, probe, fetch, defaultZone, resolves) == Outcome(s, Success([]))
  {
  }

  /** With a URL, every call leaves a usable interval, and changes the interval only if it was too short. */
  lemma IntervalIsClamped(s: CacheState, now: int, probe: Probe, fetch: Fetch, defaultZone: string, resolves: string -> bool)
    requires s.URL != ""
    ensures var after := Refresh(s, now, probe, fetch, defaultZone, resolves).state;
            && after.URL == s.URL
            && after.Interval >= MinInterval
            && (s.Interval >= MinInterval ==> after.Interval == s.Interval)
            && (s.Interval < MinInterval ==> after.Interval == DefaultInterval)
  {
  }

  /** Within the interval the stored events are returned and nothing but the interval clamp happens. */
  lemma FreshSnapshotServed(s: CacheState, now: int, probe: Probe, fetch: Fetch, defaultZone: string, resolves: string -> bool)
    requires s.URL != ""
    requires now - s.lastChecked < ClampInterval(s.Interval)
    ensures Refresh(s, now, probe, fetch, defaultZone, resolves) == Outcome(Clamped(s), Success(s.events))
  {
  }

  /** A failed HEAD request fails the call and changes nothing but the interval clamp. */
  lemma ProbeFailureChangesNothing(s: CacheState, now: int, cause: Cause, fetch: Fetch, defaultZone: string, resolves: string -> bool)
    requires s.URL != ""
    requires now - s.lastChecked >= ClampInterval(s.Interval)
    ensures Refresh(s, now, ProbeFailed(cause), fetch, defaultZone, resolves)
            == Outcome(Clamped(s), Failure(TransportError(cause)))
  {
  }

  /**
   * A Last-Modified header no later than the stored one ends the call with
   * the stored events: no GET (the fetch plays no part), no field changed.
   */
  lemma NotModifiedServed(s: CacheState, now: int, stamp: int, fetch: Fetch, defaultZone: string, resolves: string -> bool)
    requires s.URL != ""
    requires now - s.lastChecked >= ClampInterval(s.Interval)
    requires stamp <= s.lastModified
    ensures Refresh(s, now, Probed(Some(stamp)), fetch, defaultZone, resolves) == Outcome(Clamped(s), Success(s.events))
  {
  }

  /** A later Last-Modified header is adopted before the GET, so it stays adopted whatever the GET does. */
  lemma NewerLastModifiedAdopted(s: CacheState, now: int, probe: Probe, fetch: Fetch, defaultZone: string, resolves: string -> bool)
    requires Refetches(s, now, probe) && probe.lastModified.Some?
    ensures Refresh(s, now, probe, fetch, defaultZone, resolves).state.lastModified == probe.lastModified.value
  {
  }

  /**
   * A failed GET or an undecodable body fails the call; the events, the hash
   * and the last check are left as they were, but a newer Last-Modified
   * header has already been adopted.
   */
  lemma FetchFailureKeepsEvents(s: CacheState, now: int, probe: Probe, fetch: Fetch, defaultZone: string, resolves: string -> bool)
    requires Refetches(s, now, probe)
    requires fetch.FetchFailed? || fetch.Undecodable?
    ensures var out := Refresh(s, now, probe, fetch, defaultZone, resolves);
            && out.result == Failure(if fetch.FetchFailed? then TransportError(fetch.cause) else DecodeError(fetch.cause))
            && out.state == Clamped(s).(lastModified := probe.lastModified.GetOr(s.lastModified))
  {
  }

  /** A feed without a calendar empties the events and succeeds; the hash and the last check stay. */
  lemma EmptyFeedClearsEvents(s: CacheState, now: int, probe: Probe, defaultZone: string, resolves: string -> bool)
    requires Refetches(s, now, probe)
    ensures var out := Refresh(s, now, probe, NoCalendar, defaultZone, resolves);
            && out.result == Success([])
            && out.state == Clamped(s).(events := [], lastModified := probe.lastModified.GetOr(s.lastModified))
  {
  }

  /**
   * After a decoded calendar the stored hash is the new one. Without a
   * Last-Modified header the stamp moves to `now` exactly when the hash
   * changed; with one, the stamp is the header's.
   */
  lemma HashFallback(s: CacheState, now: int, probe: Probe, hashSum: string, entries: seq<Entry>,
                     defaultZone: string, resolves: string -> bool)
    requires Refetches(s, now, probe)
    ensures var after := Refresh(s, now, probe, Calendar(hashSum, entries), defaultZone, resolves).state;
            && after.lastHashSum == hashSum
            && (probe.lastModified.None? && hashSum != s.lastHashSum ==> after.lastModified == now)
            && (probe.lastModified.None? && hashSum == s.lastHashSum ==> after.lastModified == s.lastModified)
            && (probe.lastModified.Some? ==> after.lastModified == probe.lastModified.value)
  {
  }

  /**
   * An entry that fails to extract fails the call with that entry's error;
   * the stored events and the last check are untouched, while the hash and
   * the stamp have already moved on.
   */
  lemma ExtractionFailureKeepsEvents(s: CacheState, now: int, probe: Probe, hashSum: string, entries: seq<Entry>,
                                     defaultZone: string, resolves: string -> bool)
    requires Refetches(s, now, probe)
    requires ExtractAll(entries, defaultZone, resolves).Failure?
    ensures var out := Refresh(s, now, probe, Calendar(hashSum, entries), defaultZone, resolves);
            && out.result == Failure(Extraction(ExtractAll(entries, defaultZone, resolves).error))
            && out.state.events == s.events
            && out.state.lastChecked == s.lastChecked
            && out.state.lastHashSum == hashSum
  {
  }

  /**
   * A call whose every entry extracts returns and stores one Event per
   * entry, in entry order, and records `now` as the last check.
   */
  lemma SuccessfulRefresh(s: CacheState, now: int, probe: Probe, hashSum: string, entries: seq<Entry>,
                          defaultZone: string, resolves: string -> bool)
    requires Refetches(s, now, probe)
    requires forall k :: 0 <= k < |entries| ==> ExtractEvent(entries[k], defaultZone, resolves).Success?
    ensures var out := Refresh(s, now, probe, Calendar(hashSum, entries), defaultZone, resolves);
            && out.result == Success(out.state.events)
            && out.state.lastChecked == now
            && |out.state.events| == |entries|
            && forall k :: 0 <= k < |entries| ==> ExtractEvent(entries[k], defaultZone, resolves) == Success(out.state.events[k])
  {
  }

  /** The last check moves only on a call that fetched a calendar and extracted all of it, and then to `now`. */
  lemma LastCheckedOnlyOnSuccess(s: CacheState, now: int, probe: Probe, fetch: Fetch, defaultZone: string, resolves: string -> bool)
    ensures var out := Refresh(s, now, probe, fetch, defaultZone, resolves);
            out.state.lastChecked == s.lastChecked ||
            (&& out.state.lastChecked == now
             && Refetches(s, now, probe)
             && fetch.Calendar?
             && ExtractAll(fetch.entries, defaultZone, resolves).Success?
             && out.result == Success(out.state.events))
  {
  }

  /**
   * The stored events are always the previous ones, the empty list of a feed
   * without a calendar, or the complete extraction of a fetched calendar.
   */
  lemma EventsProvenance(s: CacheState, now: int, probe: Probe, fetch: Fetch, defaultZone: string, resolves: string -> bool)
    ensures var out := Refresh(s, now, probe, fetch, defaultZone, resolves);
            || out.state.events == s.events
            || (fetch == NoCalendar && out.state.events == [])
            || (fetch.Calendar? && ExtractAll(fetch.entries, defaultZone, resolves) == Success(out.state.events))
  {
  }

  /**
   * A successful call that recorded its time as the last check is followed,
   * within the interval, by calls that return the same events and change
   * nothing, whatever upstream would have answered.
   */
  lemma CachedWithinInterval(s: CacheState, t1: int, probe1: Probe, fetch1: Fetch,
                            t2: int, probe2: Probe, fetch2: Fetch,
                            defaultZone: string, resolves: string -> bool)
    requires var first := Refresh(s, t1, probe1, fetch1, defaultZone, resolves);
             first.result.Success? && first.state.lastChecked == t1 && t2 - t1 < first.state.Interval
    ensures var first := Refresh(s, t1, probe1, fetch1, defaultZone, resolves);
            Refresh(first.state, t2, probe2, fetch2, defaultZone, resolves) == first
  {
  }
}
