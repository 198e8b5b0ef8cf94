/** The collector's in-process store: append, and query oldest first. */
module EventStores {
  import opened Wrappers
  import opened Sequences
  import opened Timestamps
  import opened Events

  /** What can stop a detection run. */
  datatype Fault = UnreadableTimestamp | InvalidAlert | DanglingEvidence

  // ------------------------------------------------------------- time order

  predicate ReadableEvent(e: SecurityEvent) {
    Parse(e.timestamp).Some?
  }

  /** Every timestamp is in the schema's format, so no `parse_timestamp` raises. */
  predicate Readable(es: seq<SecurityEvent>) {
    forall e :: e in es ==> ReadableEvent(e)
  }

  /** The moment an event happened, in microseconds. */
  function Moment(e: SecurityEvent): int {
    match Parse(e.timestamp)
    case Some(d) => d.Instant()
    case None => 0
  }

  function TimeOrder(): (SecurityEvent, SecurityEvent) -> bool {
    (a: SecurityEvent, b: SecurityEvent) => Moment(a) <= Moment(b)
  }

  lemma {:induction false} TimeOrderIsTotal()
    ensures TotalPreorder(TimeOrder())
  {
  }

  /** `sorted(events, key=parse_timestamp)`; the key is computed, and may raise,
      for every element. */
  function OldestFirst(es: seq<SecurityEvent>): Result<seq<SecurityEvent>, Fault> {
    if Readable(es) then Ok(Sort(TimeOrder(), es)) else Err(UnreadableTimestamp)
  }

  // ---------------------------------------------------------------- queries

  function OfUser(userId: string): SecurityEvent -> bool {
    (e: SecurityEvent) => e.userId == Some(userId)
  }

  function OfAddress(ip: string): SecurityEvent -> bool {
    (e: SecurityEvent) => e.sourceIp == Some(ip)
  }

  function OfService(name: string): SecurityEvent -> bool {
    (e: SecurityEvent) => e.serviceName == name
  }

  function OfCorrelation(id: string): SecurityEvent -> bool {
    (e: SecurityEvent) => e.correlationId == id
  }

  function AtOrAfter(since: Option<DateTime>): SecurityEvent -> bool {
    (e: SecurityEvent) => since.Some? ==> since.value.Instant() <= Moment(e)
  }

  function Both(p: SecurityEvent -> bool, q: SecurityEvent -> bool): SecurityEvent -> bool {
    (e: SecurityEvent) => p(e) && q(e)
  }

  /** `_query`: filter on the predicate, cut at `since`, then sort. */
  function Select(es: seq<SecurityEvent>, p: SecurityEvent -> bool, since: Option<DateTime>):
    Result<seq<SecurityEvent>, Fault>
  {
    var selected := Filter(p, es);
    if since.None? then OldestFirst(selected)
    else if !Readable(selected) then Err(UnreadableTimestamp)
    else OldestFirst(Filter(AtOrAfter(since), selected))
  }

  class EventStore {
    var events: seq<SecurityEvent>

    constructor ()
      ensures events == []
    {
      events := [];
    }

    method Append(event: SecurityEvent)
      modifies this
      ensures events == old(events) + [event]
    {
      events := events + [event];
    }

    method Extend(more: seq<SecurityEvent>) returns (added: int)
      modifies this
      ensures events == old(events) + more && added == |more|
    {
      var before := |events|;
      events := events + more;
      added := |events| - before;
    }

    function AllEvents(): Result<seq<SecurityEvent>, Fault>
      reads this
    {
      OldestFirst(events)
    }

    function EventsForUser(userId: string, since: Option<DateTime>): Result<seq<SecurityEvent>, Fault>
      reads this
    {
      Select(events, OfUser(userId), since)
    }

    function EventsForIp(ip: string, since: Option<DateTime>): Result<seq<SecurityEvent>, Fault>
      reads this
    {
      Select(events, OfAddress(ip), since)
    }

    function EventsForService(name: string, since: Option<DateTime>): Result<seq<SecurityEvent>, Fault>
      reads this
    {
      Select(events, OfService(name), since)
    }

    function ByCorrelation(id: string): Result<seq<SecurityEvent>, Fault>
      reads this
    {
      Select(events, OfCorrelation(id), None)
    }
  }

  // --------------------------------------------------------------- theorems

  /** The whole-stream view: oldest first, nothing lost or repeated, and events
      of one moment in the order they were ingested. */
  lemma {:induction false} AllEventsInOrder(es: seq<SecurityEvent>, moment: SecurityEvent)
    requires Readable(es)
    ensures var all := OldestFirst(es).value;
      && Sorted(TimeOrder(), all)
      && multiset(all) == multiset(es)
      && Filter(Ties(TimeOrder(), moment), all) == Filter(Ties(TimeOrder(), moment), es)
  {
    TimeOrderIsTotal();
    SortSorts(TimeOrder(), es);
    SortStable(TimeOrder(), es, moment);
  }

  /** Any keyed query is the same filter over the whole-stream view. */
  lemma {:induction false} QueryFiltersAllEvents(es: seq<SecurityEvent>, p: SecurityEvent -> bool,
                                                 since: Option<DateTime>)
    requires Readable(es)
    ensures Select(es, p, since) == Ok(Filter(Both(p, AtOrAfter(since)), OldestFirst(es).value))
  {
    var q, both := AtOrAfter(since), Both(p, AtOrAfter(since));
    TimeOrderIsTotal();
    FilterIn(p, es);
    FilterIn(both, es);
    FilterSort(TimeOrder(), both, es);
    if since.None? {
      FilterSame(p, both, es);
    } else {
      FilterFilter(p, q, both, es);
    }
  }

  /** A query raises exactly when an event its predicate selects is unreadable. */
  lemma {:induction false} QueryRaises(es: seq<SecurityEvent>, p: SecurityEvent -> bool, since: Option<DateTime>)
    ensures Select(es, p, since).Err? <==> exists e :: e in es && p(e) && !ReadableEvent(e)
  {
    FilterIn(p, es);
    FilterIn(AtOrAfter(since), Filter(p, es));
  }

  /** So query and whole-stream view agree, exceptions included, except when an
      unreadable event lies outside the query. */
  lemma {:induction false} QueryAgreesIff(es: seq<SecurityEvent>, p: SecurityEvent -> bool, since: Option<DateTime>)
    ensures (match OldestFirst(es)
             case Ok(all) => Select(es, p, since) == Ok(Filter(Both(p, AtOrAfter(since)), all))
             case Err(_) => Select(es, p, since).Err?)
      <==> (Readable(es) || exists e :: e in es && p(e) && !ReadableEvent(e))
  {
    QueryRaises(es, p, since);
    if Readable(es) {
      QueryFiltersAllEvents(es, p, since);
    }
  }

  /** One event of another user without a timestamp is enough: the query for
      this user still answers, the whole-stream view raises. */
  lemma {:induction false} UnreadableOutsider(outsider: SecurityEvent)
    requires outsider.timestamp == "" && outsider.userId == Some("mallory")
    ensures Select([outsider], OfUser("alice"), None) == Ok([])
    ensures OldestFirst([outsider]) == Err(UnreadableTimestamp)
  {
    assert outsider in [outsider] && !ReadableEvent(outsider);
  }

  /** `answer` holds the events of `es` that are meant, each as often as it was ingested,
      oldest first. */
  ghost predicate HoldsExactly(answer: Result<seq<SecurityEvent>, Fault>, es: seq<SecurityEvent>,
                               meant: SecurityEvent -> bool)
  {
    && answer.Ok?
    && (forall i, j :: 0 <= i < j < |answer.value| ==> Moment(answer.value[i]) <= Moment(answer.value[j]))
    && forall e :: multiset(answer.value)[e] == if meant(e) then multiset(es)[e] else 0
  }

  lemma {:induction false} SelectHolds(es: seq<SecurityEvent>, p: SecurityEvent -> bool, since: Option<DateTime>,
                                       meant: SecurityEvent -> bool)
    requires Readable(es)
    requires forall e :: meant(e) <==> p(e) && (since.None? || since.value.Instant() <= Moment(e))
    ensures HoldsExactly(Select(es, p, since), es, meant)
  {
    hide Select, Moment, DateTime.Instant, Sort, Filter, ReadableEvent;
    var both, all := Both(p, AtOrAfter(since)), Sort(TimeOrder(), es);
    QueryFiltersAllEvents(es, p, since);
    TimeOrderIsTotal();
    SortSorts(TimeOrder(), es);
    FilterKeepsSorted(TimeOrder(), both, all);
    forall e
      ensures multiset(Filter(both, all))[e] == if meant(e) then multiset(es)[e] else 0
    {
      FilterCount(both, all, e);
    }
  }

  /** The five views of a store of readable events: everything; one user's, one
      address's or one service's events, from a moment on, that moment included; and
      those of one correlation. */
  lemma {:induction false} ViewsHold(store: EventStore, key: string, since: Option<DateTime>)
    requires Readable(store.events)
    ensures HoldsExactly(store.AllEvents(), store.events, (e: SecurityEvent) => true)
    ensures HoldsExactly(store.EventsForUser(key, since), store.events, (e: SecurityEvent) =>
              e.userId == Some(key) && (since.None? || since.value.Instant() <= Moment(e)))
    ensures HoldsExactly(store.EventsForIp(key, since), store.events, (e: SecurityEvent) =>
              e.sourceIp == Some(key) && (since.None? || since.value.Instant() <= Moment(e)))
    ensures HoldsExactly(store.EventsForService(key, since), store.events, (e: SecurityEvent) =>
              e.serviceName == key && (since.None? || since.value.Instant() <= Moment(e)))
    ensures HoldsExactly(store.ByCorrelation(key), store.events, (e: SecurityEvent) => e.correlationId == key)
  {
    hide Select, Moment, DateTime.Instant, ReadableEvent, HoldsExactly;
    var es := store.events;
    AllHold(es);
    SelectHolds(es, OfUser(key), since, (e: SecurityEvent) =>
                  e.userId == Some(key) && (since.None? || since.value.Instant() <= Moment(e)));
    SelectHolds(es, OfAddress(key), since, (e: SecurityEvent) =>
                  e.sourceIp == Some(key) && (since.None? || since.value.Instant() <= Moment(e)));
    SelectHolds(es, OfService(key), since, (e: SecurityEvent) =>
                  e.serviceName == key && (since.None? || since.value.Instant() <= Moment(e)));
    SelectHolds(es, OfCorrelation(key), None, (e: SecurityEvent) => e.correlationId == key);
  }

  lemma {:induction false} AllHold(es: seq<SecurityEvent>)
    requires Readable(es)
    ensures HoldsExactly(OldestFirst(es), es, (e: SecurityEvent) => true)
  {
    hide Moment, Sort, ReadableEvent;
    TimeOrderIsTotal();
    SortSorts(TimeOrder(), es);
  }
}
