/** From the client's events to Rule 4: an open breaker is an alert. */
module OutageDetection {
  import opened Wrappers
  import opened Events
  import opened EventStores
  import opened Timestamps
  import Detection
  import Resilience
  import ResilienceTheorems
  import RuleTheorems

  /** `build_event` with the identifier and the time it generates. */
  function AsEvent(n: Resilience.Notice, id: string, timestamp: string): SecurityEvent {
    SecurityEvent(id, timestamp, n.serviceName, n.eventType, n.severity, None, None, n.endpoint, "GET", n.statusCode,
                  n.message, n.correlationId, Some(n.affectedEntity))
  }

  predicate IsNotice(e: SecurityEvent, n: Resilience.Notice) {
    e == AsEvent(n, e.eventId, e.timestamp)
  }

  /** The collector holds it, stamped inside Rule 4's five minutes. */
  predicate CollectedInTime(n: Resilience.Notice, now: DateTime, es: seq<SecurityEvent>) {
    exists e :: e in es && IsNotice(e, n) && RuleTheorems.NoOlderThan(300_000_000, now, e)
  }

  /** The last CIRCUIT_OPENED of a run. */
  function LastOpening(events: seq<Resilience.Notice>): Option<Resilience.Notice> {
    if events == [] then None
    else if events[|events| - 1].eventType == CircuitOpened then Some(events[|events| - 1])
    else LastOpening(events[..|events| - 1])
  }

  lemma {:induction false} LastOpeningIsThere(events: seq<Resilience.Notice>)
    ensures ResilienceTheorems.Told(events) == CircuitOpened ==> LastOpening(events).Some?
    ensures LastOpening(events).Some? ==>
      LastOpening(events).value in events && LastOpening(events).value.eventType == CircuitOpened
  {
    if events != [] {
      var front, last := events[..|events| - 1], events[|events| - 1];
      assert events == front + [last];
      LastOpeningIsThere(front);
    }
  }

  lemma {:induction false} EmittedByTheCaller(c: Resilience.Settings, rs: seq<Resilience.Request>, ambient: string,
                                              n: Resilience.Notice)
    requires c.Valid() && n in ResilienceTheorems.EventsAfter(c, rs, ambient)
    ensures n.serviceName == c.serviceName && n.affectedEntity == c.dependency && n.statusCode == 503
  {
    hide Resilience.Answer, Resilience.Next;
    var front, last := rs[..|rs| - 1], rs[|rs| - 1];
    if n in ResilienceTheorems.EventsAfter(c, front, ambient) {
      EmittedByTheCaller(c, front, ambient, n);
    }
  }

  /** What the schema asks of the texts a caller supplies. */
  ghost predicate Presentable(c: Resilience.Settings, rs: seq<Resilience.Request>, ambient: string) {
    && c.serviceName in SERVICE_NAMES && !Blank(ambient)
    && forall r :: r in rs ==> !Blank(r.path) && !Blank(r.correlationId)
  }

  /** Every event of a run passes the event schema, so emitting never raises. */
  lemma {:induction false} EmissionsAreValid(c: Resilience.Settings, rs: seq<Resilience.Request>, ambient: string,
                                             n: Resilience.Notice, id: string, timestamp: string)
    requires c.Valid() && Presentable(c, rs, ambient) && IdentifierIn("evt-", id)
    requires n in ResilienceTheorems.EventsAfter(c, rs, ambient)
    ensures Validate(AsEvent(n, id, timestamp)) == Ok(AsEvent(n, id, timestamp))
  {
    hide Resilience.Answer, Resilience.Next, Validate, Valid, IdentifierIn, Blank, Resilience.FailureNotice,
      Resilience.OpenedNotice, Resilience.ClosedNotice;
    var front, last := rs[..|rs| - 1], rs[|rs| - 1];
    if n in ResilienceTheorems.EventsAfter(c, front, ambient) {
      EmissionsAreValid(c, front, ambient, n, id, timestamp);
    } else {
      assert last in rs;
      NoticeIsValid(c, last, ambient, n, id, timestamp);
      ValidateKeepsValid(AsEvent(n, id, timestamp));
    }
  }

  lemma {:induction false} NoticeIsValid(c: Resilience.Settings, r: Resilience.Request, ambient: string,
                                         n: Resilience.Notice, id: string, timestamp: string)
    requires Presentable(c, [r], ambient) && IdentifierIn("evt-", id)
    requires || n == Resilience.OpenedNotice(c, ambient) || n == Resilience.ClosedNotice(c, ambient)
             || exists reason :: n == Resilience.FailureNotice(c, r, reason)
    ensures Valid(AsEvent(n, id, timestamp))
  {
    hide IdentifierIn, Blank;
    assert r in [r];
    NotBlank(n.message);
    if n.endpoint != r.path {
      NotBlank(n.endpoint);
    }
  }

  /** A breaker left open by any run of calls, however often it had tripped and
      recovered before, has its caller alerted on as long as the last opening was
      collected inside Rule 4's five minutes, whatever else was. */
  lemma {:induction false} OpenBreakerRaisesAlert(c: Resilience.Settings, rs: seq<Resilience.Request>,
                                                  ambient: string, now: DateTime, es: seq<SecurityEvent>)
    requires c.Valid() && ResilienceTheorems.BreakerAfter(c, rs).Open?
    ensures var opening := LastOpening(ResilienceTheorems.EventsAfter(c, rs, ambient));
      && opening.Some?
      && (CollectedInTime(opening.value, now, es) ==> Detection.Alerted(Detection.ByService, c.serviceName, now, es))
  {
    hide RuleTheorems.NoOlderThan, Detection.Counts, Detection.Alerted, RuleTheorems.Tally, Resilience.Settings.Valid,
      ResilienceTheorems.EventsAfter, ResilienceTheorems.BreakerAfter;
    var events := ResilienceTheorems.EventsAfter(c, rs, ambient);
    ResilienceTheorems.EventsTellTheState(c, rs, ambient);
    LastOpeningIsThere(events);
    var n := LastOpening(events).value;
    EmittedByTheCaller(c, rs, ambient, n);
    if e :| e in es && IsNotice(e, n) && RuleTheorems.NoOlderThan(300_000_000, now, e) {
      RuleTheorems.CountsOne(Detection.ByService, c.serviceName, now, e);
      assert Detection.Counts(Detection.ByService, c.serviceName, now)(e);
      RuleTheorems.AlertedIff(Detection.ByService, c.serviceName, now, es);
    }
  }

  /** An open breaker that let nothing through has emitted nothing since: once what the
      run emitted before is older than the window, the outage raises nothing, though
      it goes on. */
  lemma {:induction false} QuietOutageRaisesNothing(c: Resilience.Settings, rs: seq<Resilience.Request>,
                                                    more: seq<Resilience.Request>, ambient: string, now: DateTime,
                                                    es: seq<SecurityEvent>)
    requires c.Valid() && ResilienceTheorems.BreakerAfter(c, rs).Open?
    requires forall r :: r in more ==> !ResilienceTheorems.Admitted(c, ResilienceTheorems.BreakerAfter(c, rs), r)
    requires forall e :: e in es && e.serviceName == c.serviceName ==>
               exists n :: n in ResilienceTheorems.EventsAfter(c, rs + more, ambient) && IsNotice(e, n)
    requires forall n :: n in ResilienceTheorems.EventsAfter(c, rs, ambient) ==> !CollectedInTime(n, now, es)
    ensures ResilienceTheorems.BreakerAfter(c, rs + more).Open?
    ensures !Detection.Alerted(Detection.ByService, c.serviceName, now, es)
  {
    hide RuleTheorems.NoOlderThan, Detection.Counts, Resilience.Settings.Valid, IsNotice, Detection.Evidence,
      ResilienceTheorems.EventsAfter, ResilienceTheorems.BreakerAfter;
    ResilienceTheorems.OpenMeansQuiet(c, rs, more, ambient);
    forall e | e in es
      ensures !Detection.Counts(Detection.ByService, c.serviceName, now)(e)
    {
      if e.serviceName == c.serviceName {
        var n :| n in ResilienceTheorems.EventsAfter(c, rs + more, ambient) && IsNotice(e, n);
        assert RuleTheorems.NoOlderThan(300_000_000, now, e) ==> CollectedInTime(n, now, es);
      }
      RuleTheorems.CountsOne(Detection.ByService, c.serviceName, now, e);
    }
    RuleTheorems.NothingCounted(Detection.ByService, c.serviceName, now, es);
  }

  /** A dependency that answers each request within its attempts, be it with a 4xx every
      time, leaves no trace. */
  lemma {:induction false} HealthyRunsAreSilent(c: Resilience.Settings, rs: seq<Resilience.Request>, ambient: string)
    requires c.Valid() && forall r :: r in rs ==> ResilienceTheorems.AnswersInTime(c, r)
    ensures ResilienceTheorems.EventsAfter(c, rs, ambient) == []
    ensures ResilienceTheorems.BreakerAfter(c, rs) == Resilience.Closed(0)
  {
    hide Resilience.Exhausted, Resilience.Answer, ResilienceTheorems.Faulty;
    if rs != [] {
      var front, last := rs[..|rs| - 1], rs[|rs| - 1];
      assert last in rs && forall r :: r in front ==> r in rs;
      HealthyRunsAreSilent(c, front, ambient);
      ResilienceTheorems.FailsIffExhausted(c, last);
      ResilienceTheorems.ExhaustedIff(c, last);
    }
  }
}
