/**
 * The event extraction adapter: one decoded calendar entry becomes one flat
 * `Event`. The calendar decoder and its property accessors are outside the
 * model; an `Entry` records what each accessor returns.
 */
module Events {
  import opened Wrappers

  /** The message of an error reported by the decoder library. */
  type Cause = string

  /** The value type of a date-time property (its VALUE parameter or the property's default). */
  datatype ValueType = Date | DateTime | OtherType(name: string)

  /**
   * A DTSTART or DTEND property: its value type, its TZID parameter ("" when
   * there is none) and the library's reading of its value text as a
   * wall-clock reading, or the error the library reports for that text.
   */
  datatype DateProp = DateProp(valueType: ValueType, tzid: string, reading: Result<int, Cause>)

  /**
   * One decoded VEVENT: the result of every property lookup the adapter
   * makes. `derivedEnd` is what the library's `DateTimeEnd` gives when the
   * entry has no DTEND: an end it works out from DTSTART and DURATION, or the
   * error it reports for them.
   */
  datatype Entry = Entry(
    uid: Result<string, Cause>,
    summary: Result<string, Cause>,
    description: Result<string, Cause>,
    url: Result<Option<string>, Cause>,
    start: Option<DateProp>,
    end: Option<DateProp>,
    derivedEnd: Result<Time, Cause>,
    recurrenceRule: Result<Option<string>, Cause>)

  /** A `time.Time`: a wall-clock reading in a named location. */
  datatype Time = Time(reading: int, zone: string)

  /** The zero `time.Time`, which is in UTC. */
  const ZeroTime := Time(0, "UTC")

  datatype Event = Event(
    allDay: bool,
    start: Time,
    end: Time,
    recurrenceRule: string,
    uid: string,
    url: string,
    summary: string,
    description: string)

  /** Which lookup failed; `Get` prefixes its error with "getting <field>". */
  datatype Field = Uid | Summary | Description | Url | Start | End | RecurrenceRule

  datatype ExtractionError = ExtractionError(field: Field, cause: Cause)

  /**
   * The TZID workaround applied to one property: a TZID that does not
   * resolve (by `time.LoadLocation`, here the predicate `resolves`) is
   * replaced by the name of the default location.
   */
  function Retarget(p: Option<DateProp>, defaultZone: string, resolves: string -> bool): (q: Option<DateProp>)
    ensures q.Some? == p.Some?
    ensures q.Some? ==> q.value.valueType == p.value.valueType && q.value.reading == p.value.reading
    // only an unresolvable TZID is touched, and it becomes the default location
    ensures q.Some? && q.value.tzid != p.value.tzid ==>
              p.value.tzid != "" && !resolves(p.value.tzid) && q.value.tzid == defaultZone
    // every unresolvable TZID is replaced
    ensures p.Some? && p.value.tzid != "" && !resolves(p.value.tzid) ==> q.value.tzid == defaultZone
    // with a resolvable default, what is left always resolves
    ensures q.Some? && resolves(defaultZone) ==> q.value.tzid == "" || resolves(q.value.tzid)
  {
    match p
    case None => None
    case Some(prop) =>
      if prop.tzid != "" && !resolves(prop.tzid) then Some(prop.(tzid := defaultZone)) else p
  }

  /**
   * The library's `DateTime(loc)` on a present property: a non-empty TZID
   * must resolve and then names the location, otherwise the reading is taken
   * in `loc`. An absent property gives the zero time, as `DateTimeStart`
   * does without a DTSTART; a missing DTEND is handled by `ResolvedEnd`.
   */
  function DecodeTime(p: Option<DateProp>, loc: string, resolves: string -> bool): Result<Time, Cause>
  {
    match p
    case None => Success(ZeroTime)
    case Some(prop) =>
      if prop.tzid != "" && !resolves(prop.tzid) then Failure("unknown time zone " + prop.tzid)
      else if prop.reading.Failure? then Failure(prop.reading.error)
      else Success(Time(prop.reading.value, if prop.tzid != "" then prop.tzid else loc))
  }

  /** The location an event time ends up in: its own TZID when that resolves, else the default. */
  function EffectiveZone(tzid: string, defaultZone: string, resolves: string -> bool): string
  {
    if tzid != "" && resolves(tzid) then tzid else defaultZone
  }

  /**
   * When a start or end property yields a time after the workaround: it is
   * absent, or its value reads and either its TZID resolves or is absent, or
   * the default location's name is usable in its place.
   */
  predicate Decodable(p: Option<DateProp>, defaultZone: string, resolves: string -> bool)
  {
    p.None? ||
    (p.value.reading.Success? &&
     (p.value.tzid == "" || resolves(p.value.tzid) || defaultZone == "" || resolves(defaultZone)))
  }

  /** The time a decodable property yields. */
  function ResolvedTime(p: Option<DateProp>, defaultZone: string, resolves: string -> bool): Time
    requires Decodable(p, defaultZone, resolves)
  {
    match p
    case None => ZeroTime
    case Some(prop) => Time(prop.reading.value, EffectiveZone(prop.tzid, defaultZone, resolves))
  }

  /** When the end of an entry yields a time: from its DTEND property, or from the library's derivation without one. */
  predicate EndDecodable(e: Entry, defaultZone: string, resolves: string -> bool)
  {
    if e.end.Some? then Decodable(e.end, defaultZone, resolves) else e.derivedEnd.Success?
  }

  /** The end time of an entry whose end decodes. */
  function ResolvedEnd(e: Entry, defaultZone: string, resolves: string -> bool): Time
    requires EndDecodable(e, defaultZone, resolves)
  {
    if e.end.Some? then ResolvedTime(e.end, defaultZone, resolves) else e.derivedEnd.value
  }

  /** Decoding after the workaround agrees with the reference characterisation above. */
  lemma RetargetedDecode(p: Option<DateProp>, defaultZone: string, resolves: string -> bool)
    ensures DecodeTime(Retarget(p, defaultZone, resolves), defaultZone, resolves).Success?
            <==> Decodable(p, defaultZone, resolves)
    ensures Decodable(p, defaultZone, resolves) ==>
            DecodeTime(Retarget(p, defaultZone, resolves), defaultZone, resolves).value
            == ResolvedTime(p, defaultZone, resolves)
  {
  }

  /** An unresolvable TZID is not an error when the default location resolves: the time is taken there. */
  lemma UnresolvableZoneFallsBack(prop: DateProp, defaultZone: string, resolves: string -> bool)
    requires prop.reading.Success? && prop.tzid != "" && !resolves(prop.tzid)
    requires resolves(defaultZone)
    ensures DecodeTime(Retarget(Some(prop), defaultZone, resolves), defaultZone, resolves)
            == Success(Time(prop.reading.value, defaultZone))
  {
  }

  /**
   * One entry to one Event, as the body of the extraction loop does it: the
   * lookups in the order uid, summary, description, url, start, end,
   * recurrence rule; the first that fails is the error.
   */
  function ExtractEvent(e: Entry, defaultZone: string, resolves: string -> bool): (r: Result<Event, ExtractionError>)
    ensures r.Success? <==>
              e.uid.Success? && e.summary.Success? && e.description.Success? && e.url.Success?
              && Decodable(e.start, defaultZone, resolves) && EndDecodable(e, defaultZone, resolves)
              && e.recurrenceRule.Success?
    ensures r.Success? ==>
              && r.value.uid == e.uid.value
              && r.value.summary == e.summary.value
              && r.value.description == e.description.value
              && (r.value.allDay <==> e.start.Some? && e.start.value.valueType == Date)
              && r.value.start == ResolvedTime(e.start, defaultZone, resolves)
              && r.value.end == ResolvedEnd(e, defaultZone, resolves)
              && (e.url.value.None? ==> r.value.url == "")
              && (e.url.value.Some? ==> r.value.url == e.url.value.value)
              && (e.recurrenceRule.value.None? ==> r.value.recurrenceRule == "")
              && (e.recurrenceRule.value.Some? ==> r.value.recurrenceRule == e.recurrenceRule.value.value)
    // the error names the first lookup that failed
    ensures r.Failure? ==>
              match r.error.field
              case Uid => e.uid == Failure(r.error.cause)
              case Summary => e.uid.Success? && e.summary == Failure(r.error.cause)
              case Description => e.uid.Success? && e.summary.Success? && e.description == Failure(r.error.cause)
              case Url => e.uid.Success? && e.summary.Success? && e.description.Success? && e.url.Failure?
              case Start => e.uid.Success? && e.summary.Success? && e.description.Success? && e.url.Success?
                            && !Decodable(e.start, defaultZone, resolves)
              case End => e.uid.Success? && e.summary.Success? && e.description.Success? && e.url.Success?
                          && Decodable(e.start, defaultZone, resolves) && !EndDecodable(e, defaultZone, resolves)
                          && (e.end.None? ==> e.derivedEnd == Failure(r.error.cause))
              case RecurrenceRule => e.uid.Success? && e.summary.Success? && e.description.Success? && e.url.Success?
                                     && Decodable(e.start, defaultZone, resolves) && EndDecodable(e, defaultZone, resolves)
                                     && e.recurrenceRule == Failure(r.error.cause)
  {
    RetargetedDecode(e.start, defaultZone, resolves);
    RetargetedDecode(e.end, defaultZone, resolves);
    if e.uid.Failure? then Failure(ExtractionError(Uid, e.uid.error))
    else if e.summary.Failure? then Failure(ExtractionError(Summary, e.summary.error))
    else if e.description.Failure? then Failure(ExtractionError(Description, e.description.error))
    else if e.url.Failure? then Failure(ExtractionError(Url, e.url.error))
    else
      var start := Retarget(e.start, defaultZone, resolves);
      var end := Retarget(e.end, defaultZone, resolves);
      var allDay := start.Some? && start.value.valueType == Date;
      var startTime := DecodeTime(start, defaultZone, resolves);
      if startTime.Failure? then Failure(ExtractionError(Start, startTime.error))
      else
        var endTime := if end.Some? then DecodeTime(end, defaultZone, resolves) else e.derivedEnd;
        if endTime.Failure? then Failure(ExtractionError(End, endTime.error))
        else if e.recurrenceRule.Failure? then Failure(ExtractionError(RecurrenceRule, e.recurrenceRule.error))
        else
          Success(Event(
            allDay := allDay,
            start := startTime.value,
            end := endTime.value,
            recurrenceRule := e.recurrenceRule.value.GetOr(""),
            uid := e.uid.value,
            url := e.url.value.GetOr(""),
            summary := e.summary.value,
            description := e.description.value))
  }

  /**
   * The extraction loop over all entries: the events in entry order, or the
   * error of the first entry that fails.
   */
  function ExtractAll(entries: seq<Entry>, defaultZone: string, resolves: string -> bool): (r: Result<seq<Event>, ExtractionError>)
    decreases |entries|
    ensures r.Success? <==> forall k :: 0 <= k < |entries| ==> ExtractEvent(entries[k], defaultZone, resolves).Success?
    ensures r.Success? ==>
              |r.value| == |entries| &&
              forall k :: 0 <= k < |entries| ==> ExtractEvent(entries[k], defaultZone, resolves) == Success(r.value[k])
    ensures r.Failure? ==>
              exists k :: 0 <= k < |entries| && ExtractEvent(entries[k], defaultZone, resolves) == Failure(r.error)
                          && forall j :: 0 <= j < k ==> ExtractEvent(entries[j], defaultZone, resolves).Success?
  {
    if entries == [] then Success([])
    else
      var init := entries[..|entries| - 1];
      var last := entries[|entries| - 1];
      assert forall k :: 0 <= k < |init| ==> init[k] == entries[k];
      match ExtractAll(init, defaultZone, resolves)
      case Failure(err) => Failure(err)
      case Success(events) =>
        match ExtractEvent(last, defaultZone, resolves)
        case Failure(err) => Failure(err)
        case Success(event) => Success(events + [event])
  }

  /** Once a prefix of the entries fails, the whole extraction fails with the same error. */
  lemma PrefixFailureIsFinal(entries: seq<Entry>, i: nat, defaultZone: string, resolves: string -> bool)
    requires i <= |entries|
    requires ExtractAll(entries[..i], defaultZone, resolves).Failure?
    ensures ExtractAll(entries, defaultZone, resolves) == ExtractAll(entries[..i], defaultZone, resolves)
  {
  }
}
