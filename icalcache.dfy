/**
 * The refresh state machine of `Cache.Get`: the staleness gate, the interval
 * clamp, the HEAD probe with its Last-Modified comparison, the GET with its
 * "no calendar" case, the hash fallback and the extraction of the events.
 *
 * The network and the decoder are inputs: a `Probe` is what the HEAD request
 * came back with, a `Fetch` what the GET request and the decoder came back
 * with. `now` is the clock.
 */
module IcalCache {
  import opened Wrappers
  import opened Clock
  import opened Events

  /** Intervals below this are replaced (it stays above the 5 second request timeout). */
  const MinInterval: Duration := 30 * Second
  /** What a too-short interval becomes. */
  const DefaultInterval: Duration := 2 * Minute

  /** The HEAD request: a transport failure, or a response whose Last-Modified header parsed to an instant or not. */
  datatype Probe = ProbeFailed(cause: Cause) | Probed(lastModified: Option<int>)

  /**
   * The GET request and the decoding of its body: a transport failure, a
   * decoder error, the decoder's end-of-file ("no calendars in file"), or a
   * calendar with the hash of the bytes read and its VEVENT entries.
   */
  datatype Fetch =
    | FetchFailed(cause: Cause)
    | Undecodable(cause: Cause)
    | NoCalendar
    | Calendar(hashSum: string, entries: seq<Entry>)

  /** What `Get` reports besides its events. */
  datatype Error =
    | TransportError(cause: Cause)
    | DecodeError(cause: Cause)
    | Extraction(reason: ExtractionError)

  /** The fields of a `Cache` that `Get` reads or writes. */
  datatype CacheState = CacheState(
    URL: string,
    Interval: Duration,
    events: seq<Event>,
    lastChecked: int,
    lastHashSum: string,
    lastModified: int)

  /** The cache after one call, and what the call returned. */
  datatype Outcome = Outcome(state: CacheState, result: Result<seq<Event>, Error>)

  /** The interval clamp: a usable interval is kept, a too-short one becomes the default. */
  function ClampInterval(d: Duration): (r: Duration)
    ensures r >= MinInterval
    ensures d >= MinInterval ==> r == d
    ensures d < MinInterval ==> r == DefaultInterval
  {
    if d < MinInterval then DefaultInterval else d
  }

  /** The state after the interval clamp, which every call with a URL starts from. */
  function Clamped(s: CacheState): CacheState
  {
    s.(Interval := ClampInterval(s.Interval))
  }

  /**
   * One call of `Get` on a cache in state `s`, step by step as the Go code
   * takes it; every `return` of `Get` is one arm here.
   */
  function Refresh(s: CacheState, now: int, probe: Probe, fetch: Fetch,
                   defaultZone: string, resolves: string -> bool): (out: Outcome)
    ensures out.state.URL == s.URL
    // a failed call leaves the stored events and the last check as they were
    ensures out.result.Failure? ==> out.state.events == s.events && out.state.lastChecked == s.lastChecked
  {
    if s.URL == "" then Outcome(s, Success([]))
    else
      var s1 := Clamped(s);
      if Sub(now, s1.lastChecked) < s1.Interval then Outcome(s1, Success(s1.events))
      else
        match probe
        case ProbeFailed(cause) => Outcome(s1, Failure(TransportError(cause)))
        case Probed(lastModified) =>
          if lastModified.Some? && lastModified.value <= s1.lastModified then Outcome(s1, Success(s1.events))
          else
            var s2 := if lastModified.Some? then s1.(lastModified := lastModified.value) else s1;
            match fetch
            case FetchFailed(cause) => Outcome(s2, Failure(TransportError(cause)))
            case Undecodable(cause) => Outcome(s2, Failure(DecodeError(cause)))
            case NoCalendar => Outcome(s2.(events := []), Success([]))
            case Calendar(hashSum, entries) =>
              var stamp := if lastModified.None? && hashSum != s2.lastHashSum then now else s2.lastModified;
              var s3 := s2.(lastModified := stamp, lastHashSum := hashSum);
              match ExtractAll(entries, defaultZone, resolves)
              case Failure(reason) => Outcome(s3, Failure(Extraction(reason)))
              case Success(events) => Outcome(s3.(events := events, lastChecked := now), Success(events))
  }

  /** The call gets past the staleness gate and issues the HEAD request. */
  predicate Probes(s: CacheState, now: int)
  {
    s.URL != "" && now - s.lastChecked >= ClampInterval(s.Interval)
  }

  /** The call also gets past the Last-Modified comparison and issues the GET. */
  predicate Refetches(s: CacheState, now: int, probe: Probe)
  {
    && Probes(s, now)
    && probe.Probed?
    && (probe.lastModified.Some? ==> probe.lastModified.value > s.lastModified)
  }

  /**
   * `Refresh` with the two corrections the staleness gate and the freshness
   * stamp call for: every call that contacted upstream and succeeded records
   * `now` as the last check, and the hash and the stamp are adopted only
   * together with the events, so a failed call changes nothing but the
   * interval clamp.
   */
  function RefreshIntended(s: CacheState, now: int, probe: Probe, fetch: Fetch,
                           defaultZone: string, resolves: string -> bool): (out: Outcome)
    ensures out.state.URL == s.URL
    // a failed call changes nothing but the clamp
    ensures out.result.Failure? ==> out.state == Clamped(s)
    // a successful call that sent a HEAD request records the check
    ensures out.result.Success? && Probes(s, now) ==> out.state.lastChecked == now
  {
    if s.URL == "" then Outcome(s, Success([]))
    else
      var s1 := Clamped(s);
      if Sub(now, s1.lastChecked) < s1.Interval then Outcome(s1, Success(s1.events))
      else
        match probe
        case ProbeFailed(cause) => Outcome(s1, Failure(TransportError(cause)))
        case Probed(lastModified) =>
          if lastModified.Some? && lastModified.value <= s1.lastModified then
            Outcome(s1.(lastChecked := now), Success(s1.events))
          else
            match fetch
            case FetchFailed(cause) => Outcome(s1, Failure(TransportError(cause)))
            case Undecodable(cause) => Outcome(s1, Failure(DecodeError(cause)))
            case NoCalendar =>
              Outcome(s1.(events := [], lastModified := lastModified.GetOr(s1.lastModified), lastChecked := now),
                      Success([]))
            case Calendar(hashSum, entries) =>
              var stamp := if lastModified.Some? then lastModified.value
                           else if hashSum != s1.lastHashSum then now else s1.lastModified;
              match ExtractAll(entries, defaultZone, resolves)
              case Failure(reason) => Outcome(s1, Failure(Extraction(reason)))
              case Success(events) =>
                Outcome(s1.(events := events, lastChecked := now, lastHashSum := hashSum, lastModified := stamp),
                        Success(events))
  }

  /**
   * The extraction loop of `Get`: appends one Event per entry to a local
   * buffer and gives up at the first entry that fails.
   */
  method BuildEvents(entries: seq<Entry>, defaultZone: string, resolves: string -> bool)
    returns (r: Result<seq<Event>, ExtractionError>)
    ensures r == ExtractAll(entries, defaultZone, resolves)
  {
    var buffer: seq<Event> := [];
    var i := 0;
    while i < |entries|
      invariant 0 <= i <= |entries|
      invariant ExtractAll(entries[..i], defaultZone, resolves) == Success(buffer)
    {
      var event := ExtractEvent(entries[i], defaultZone, resolves);
      assert entries[..i + 1][..i] == entries[..i];
      if event.Failure? {
        PrefixFailureIsFinal(entries, i + 1, defaultZone, resolves);
        return Failure(event.error);
      }
      buffer := buffer + [event.value];
      i := i + 1;
    }
    assert entries[..i] == entries;
    return Success(buffer);
  }

  class Cache {
    var URL: string
    var Interval: Duration
    var events: seq<Event>
    var lastChecked: int
    var lastHashSum: string
    var lastModified: int

    /** A cache as a caller writes it, `Cache{Config: ..., Interval: ...}`: every other field at its zero value. */
    constructor (url: string, interval: Duration)
      ensures State() == CacheState(url, interval, [], 0, "", 0)
    {
      URL := url;
      Interval := interval;
      events := [];
      lastChecked := 0;
      lastHashSum := "";
      lastModified := 0;
    }

    function State(): CacheState
      reads this
    {
      CacheState(URL, Interval, events, lastChecked, lastHashSum, lastModified)
    }

    /**
     * Returns the events, refreshing them from upstream once the interval
     * has passed. The new events are built in a local buffer and stored
     * only after every entry has been extracted.
     */
    method Get(now: int, probe: Probe, fetch: Fetch, defaultZone: string, resolves: string -> bool)
      returns (r: Result<seq<Event>, Error>)
      modifies this
      ensures Outcome(State(), r) == Refresh(old(State()), now, probe, fetch, defaultZone, resolves)
    {
      if URL == "" {
        return Success([]);
      }

      if Interval < MinInterval {
        Interval := DefaultInterval;
      }

      if Sub(now, lastChecked) < Interval {
        return Success(events);
      }

      if probe.ProbeFailed? {
        return Failure(TransportError(probe.cause));
      }

      var lastModifiedWasAvailable := false;
      if probe.lastModified.Some? {
        lastModifiedWasAvailable := true;
        if probe.lastModified.value <= lastModified {
          return Success(events);
        }
        lastModified := probe.lastModified.value;
      }

      match fetch {
        case FetchFailed(cause) =>
          return Failure(TransportError(cause));
        case NoCalendar =>
          events := [];
          return Success(events);
        case Undecodable(cause) =>
          return Failure(DecodeError(cause));
        case Calendar(hashSum, entries) =>
          if !lastModifiedWasAvailable {
            if hashSum != lastHashSum {
              lastModified := now;
            }
          }
          lastHashSum := hashSum;

          var extracted := BuildEvents(entries, defaultZone, resolves);
          if extracted.Failure? {
            return Failure(Extraction(extracted.error));
          }

          events := extracted.value;
          lastChecked := now;
      }
      return Success(events);
    }
  }
}
