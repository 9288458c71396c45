# A verified model of go-ical-cache's refresh state machine

go-ical-cache keeps a snapshot of the events of one remote iCalendar feed.
`Cache.Get` gives the stored events back until an interval has passed since
the last check. After that it sends a HEAD request. A `Last-Modified` header
that is no later than the stored one ends the call. Otherwise it GETs and
decodes the feed. When no such header came, the hash of the body decides
whether the freshness stamp moves. Then every VEVENT becomes a flat `Event`.

This model covers that state machine and the event extraction:

- `wrappers.dfy`: `Option` and `Result`.
- `clock.dfy` (`Clock`): instants and 64-bit durations. An instant is a count
  of nanoseconds since Go's zero `time.Time`, so a fresh cache has
  `lastChecked == 0` and `lastModified == 0`. `Sub` is `time.Time.Sub` with its
  saturation.
- `events.dfy` (`Events`): the decoded entry (`Entry`, `DateProp`), the `Event`
  record, the TZID workaround (`Retarget`), and the extraction of one entry
  (`ExtractEvent`) and of all of them (`ExtractAll`).
- `icalcache.dfy` (`IcalCache`): the `Cache` class and its fields `URL`,
  `Interval`, `events`, `lastChecked`, `lastHashSum` and `lastModified`.
  `Cache.Get` is the imperative method, with the extraction loop in
  `BuildEvents`. `Refresh` is a pure function giving the new state and the
  result of one call. The `ensures` of `Get` says it does exactly what
  `Refresh` gives.
- `refresh_properties.dfy` (`RefreshProperties`): what `Refresh` does on each
  path, and what two calls in a row do.
- `refresh_findings.dfy` (`RefreshFindings`): the two findings below, on
  `Refresh` and on `RefreshIntended`.

The outside world is supplied as inputs to `Get`:

- `now`: the clock.
- A `Probe`: the outcome of the HEAD request. It is either a transport
  failure, or a response whose `Last-Modified` header did or did not parse
  into an instant.
- A `Fetch`: the outcome of the GET and of the decoder. It is a transport
  failure, a decode error, the decoder's end-of-file ("no calendars in
  file"), or a calendar with its hash string and its entries.
- `defaultZone`: the name of the default location.
- `resolves`: whether `time.LoadLocation` accepts a zone name.

An error is a `Failure` of the returned `Result`. It stands for the Go code's
`nil` list paired with an error.

Four details of `Get` that the model keeps:

- `lastChecked` is set to `now` only after a fully successful extraction
  (icalcache.go:218). A Last-Modified short-circuit, an empty feed and every
  error leave it unchanged.
- Every error path returns a nil list with the error (icalcache.go:99,
  121, 132, 147).
- The new events are collected in a local list and stored only after the
  last entry is extracted (icalcache.go:143, 205, 217). An extraction error
  leaves the stored events as they were (`ExtractionFailureKeepsEvents`).
- A newer `Last-Modified` value is stored before the GET (icalcache.go:108).
  The new hash and a moved stamp are stored before extraction
  (icalcache.go:135-141). Both stay stored when a later step fails.

`RefreshIntended` is `Refresh` with the two corrections described under
"## Findings". `Get` models the Go code as written, so it follows `Refresh`.

## Model

| member | source | states |
|---|---|---|
| `Clock.Sub` | icalcache.go:77 | the elapsed duration of `time.Since` is exact when it fits in 64 bits and saturates at the bound it overflowed otherwise |
| `Clock.SubBelow` | icalcache.go:77 | for any interval above the minimum duration, the saturated gate "less than `Interval` elapsed" is the same as `now - lastChecked < Interval` |
| `Events.Retarget` | icalcache.go:162-174 | a property keeps its value type and value; only a non-empty TZID that does not resolve is replaced, and every such TZID is replaced by the default location; with a resolvable default, what remains resolves |
| `Events.RetargetedDecode` | icalcache.go:162-191 | after the workaround, a present start or end property yields a time exactly when its value reads and its zone (own TZID or default) is usable; that time is the reading in its own resolvable TZID, else in the default location; a missing DTSTART gives the zero time |
| `Events.UnresolvableZoneFallsBack` | icalcache.go:162-190 | an unresolvable TZID is not an error when the default location resolves: the time is taken in the default location |
| `Events.ExtractEvent` | icalcache.go:145-214 | an entry yields an Event exactly when every lookup succeeds and both times decode; then uid, summary and description are the looked-up texts, `allDay` holds iff the start property exists with value type DATE, the start is the resolved DTSTART (zero time when absent), the end the resolved DTEND or, without one, the library's derived end, and URL and recurrence rule are "" when absent; otherwise the error names the first failing lookup in the order uid, summary, description, url, start, end, recurrence rule, and a failed derived end is the end's error |
| `Events.ExtractAll` | icalcache.go:143-215 | the extraction succeeds iff every entry extracts, and then yields exactly one Event per entry in entry order; otherwise its error is that of the first entry that fails |
| `Events.PrefixFailureIsFinal` | icalcache.go:144-198 | once an entry fails, no later entry changes the outcome: the whole extraction fails with that entry's error |
| `IcalCache.ClampInterval` | icalcache.go:73-75 | the interval after the clamp is at least 30 seconds; one below 30 seconds becomes exactly 2 minutes, any other is kept |
| `IcalCache.Refresh` | icalcache.go:68-226 | one call never changes `URL`; a failed call leaves the stored events and `lastChecked` as they were |
| `IcalCache.BuildEvents` | icalcache.go:143-215 | the loop that appends to a local buffer returns exactly the extraction of all entries, or the first entry's error |
| `IcalCache.Cache.constructor` | icalcache.go:57-65 | a new cache has the given URL and interval, no events, an empty hash and the zero time as last check and stamp |
| `IcalCache.Cache.Get` | icalcache.go:68-226 | the new values of all six fields and the result are exactly those `Refresh` gives for the old fields and the same inputs |
| `IcalCache.RefreshIntended` | icalcache.go:102-141 | the corrected call: a failed call changes nothing but the clamp, and every successful call that sent a HEAD request records `now` as the last check |
| `RefreshProperties.DisabledIsInert` | icalcache.go:69-71 | with an empty URL the call returns no events, no error, and changes no field, not even the interval |
| `RefreshProperties.IntervalIsClamped` | icalcache.go:73-75 | with a URL, after any call the interval is at least 30 seconds; a shorter one became exactly 2 minutes, any other is unchanged |
| `RefreshProperties.FreshSnapshotServed` | icalcache.go:77-79 | when less than the interval has passed since `lastChecked`, the stored events are returned and nothing changes but the clamp, whatever upstream would answer |
| `RefreshProperties.ProbeFailureChangesNothing` | icalcache.go:97-100 | a failed HEAD request is a transport error and changes nothing but the clamp |
| `RefreshProperties.NotModifiedServed` | icalcache.go:103-107 | a parsed Last-Modified no later than the stored one returns the stored events, changes nothing but the clamp and does not depend on the GET |
| `RefreshProperties.NewerLastModifiedAdopted` | icalcache.go:103-109 | a parsed Last-Modified later than the stored one becomes `lastModified` whatever the GET then does |
| `RefreshProperties.FetchFailureKeepsEvents` | icalcache.go:119-133 | a failed GET is a transport error and an undecodable body a decode error; either leaves everything but the clamp and an adopted Last-Modified unchanged |
| `RefreshProperties.EmptyFeedClearsEvents` | icalcache.go:127-130 | a body without a calendar empties the stored events and returns them with no error; `lastHashSum` and `lastChecked` are unchanged |
| `RefreshProperties.HashFallback` | icalcache.go:135-141 | after a decoded calendar `lastHashSum` is the new hash; with no usable Last-Modified, `lastModified` becomes `now` iff the hash changed and stays otherwise; with one, it is the header's value |
| `RefreshProperties.ExtractionFailureKeepsEvents` | icalcache.go:143-198 | an entry that fails to extract fails the call with that error; stored events and `lastChecked` stay, `lastHashSum` has already moved to the new hash |
| `RefreshProperties.SuccessfulRefresh` | icalcache.go:143-218 | when every entry extracts, the call returns and stores one Event per entry in entry order and sets `lastChecked` to `now` |
| `RefreshProperties.LastCheckedOnlyOnSuccess` | icalcache.go:217-218 | `lastChecked` changes only on a call that fetched a calendar and extracted it completely, and then becomes `now` |
| `RefreshProperties.EventsProvenance` | icalcache.go:127-130 | the stored events are always the previous ones, the empty list of a feed without a calendar, or the complete extraction of the fetched calendar |
| `RefreshProperties.CachedWithinInterval` | icalcache.go:77-79 | after a successful call that recorded its time as the last check, any call within the interval returns the same events and leaves the state as it is |
| `RefreshFindings.NotModifiedKeepsProbing` | icalcache.go:105-106 | as written, an unchanged Last-Modified serves the stored events but leaves the gate open, so any later call sends a HEAD again |
| `RefreshFindings.EmptyFeedKeepsRefetching` | icalcache.go:127-130 | as written, an empty feed without Last-Modified leaves the gate open, so any later call GETs again |
| `RefreshFindings.FailedRefreshHidesUpdate` | icalcache.go:108 | as written, after a failed GET, decoding or extraction with a newer Last-Modified, the next call with that header serves the old events with no error, whatever the GET would return |
| `RefreshFindings.IntendedQuietWithinInterval` | icalcache.go:77-79 | corrected, after any successful call that sent a HEAD, a call within the interval sends nothing and returns the same outcome |
| `RefreshFindings.IntendedRetriesAfterFailure` | icalcache.go:103-109 | corrected, after a failed refresh the next call with the same header issues the GET again |
| `RefreshFindings.IntendedAgreesElsewhere` | icalcache.go:68-226 | the corrected call equals the Go code's for a disabled cache, a call within the interval and a fully successful refresh |

## Left out

- `LoadConfig` (icalcache.go:34-44): reading and JSON-decoding a file is I/O.
- The shared HTTP client and the change to its TLS `InsecureSkipVerify`
  setting (icalcache.go:18-25, 93-95), the building of the requests and
  Basic auth (icalcache.go:86-91, 111-117): network plumbing. They are folded
  into the `Probe` and `Fetch` inputs. An error from building a request is a
  transport failure there too.
- `TryLock`, `RLock` and `RUnlock`, and the staleness check made before the
  lock (icalcache.go:77, 83-84, 219-223): concurrency is not modelled. There
  is one sequential caller, and the lock is always acquired.
- The FNV-64 hash taken through `io.TeeReader` and its base64 encoding
  (icalcache.go:124-126, 135): the hash is an opaque string compared only for
  equality.
- The go-ical decoder and its property accessors, `time.Parse` of the
  HTTP-date (icalcache.go:103) and `time.LoadLocation` (icalcache.go:168):
  library calls. They are inputs, `Result`/`Option` values and the
  `resolves` predicate.
- `DecodeTime` stands for go-ical's `DateTime(loc)`. It pairs the library's
  reading of the value text with the zone the time is taken in. The library's
  parsing of the text and its special handling of UTC ("Z") values are not
  modelled. Without a DTEND, the library works out the end from DTSTART and
  DURATION; the model takes that end, or its error, as the input
  `derivedEnd` of the entry.
- `time.Time` and `time.Location` arithmetic and formatting: an instant is an
  integer and a location an opaque name.
- Cache.Get: reads the clock once. The Go code reads it three times, at
  icalcache.go:77, 138 and 218, and those readings differ by the time the
  call takes.

## Findings

| source | as written | input that shows it | evidently intended | confidence | as-written member | corrected member |
|---|---|---|---|---|---|---|
| icalcache.go:105-106 | a Last-Modified no later than the stored one returns the stored events without setting `lastChecked` | a cache whose interval has passed, and a HEAD whose Last-Modified equals the stored one: the call and every later call, even 1 ns later, send a HEAD | a successful check throttles the next one for the interval (the clamp at icalcache.go:73 exists to prevent unthrottled polling) | medium, not executed | `RefreshFindings.NotModifiedKeepsProbing` | `RefreshFindings.IntendedQuietWithinInterval` |
| icalcache.go:127-130 | a body without a calendar empties the events without setting `lastChecked` | a feed with no calendar and no Last-Modified header: every later call GETs the whole feed again | as above | medium, not executed | `RefreshFindings.EmptyFeedKeepsRefetching` | `RefreshFindings.IntendedQuietWithinInterval` |
| icalcache.go:108 | a newer Last-Modified is stored before the GET and stays stored when the GET, the decoding or the extraction fails | a HEAD with a newer Last-Modified, then a failing GET; the next call gets the same header and serves the old events with no error until upstream changes again | the stamp moves only together with the events, so the next call retries the GET | high, not executed | `RefreshFindings.FailedRefreshHidesUpdate` | `RefreshFindings.IntendedRetriesAfterFailure` |

`RefreshFindings.IntendedAgreesElsewhere` shows that the corrections change
nothing for a disabled cache, for a call within the interval, or for a fully
successful refresh.
