/** What the resilient client guarantees over every sequence of calls. */
module ResilienceTheorems {
  import opened Wrappers
  import opened Sequences
  import opened Timestamps
  import opened Events
  import opened Resilience

  // ------------------------------------------------------------------------ runs

  /** The breaker after a run of calls, from a breaker just built or just closed. */
  function BreakerAfter(c: Settings, rs: seq<Request>): Breaker
    requires c.Valid()
  {
    if rs == [] then Closed(0) else Next(c, BreakerAfter(c, rs[..|rs| - 1]), rs[|rs| - 1])
  }

  function EventsAfter(c: Settings, rs: seq<Request>, ambient: string): seq<Notice>
    requires c.Valid()
  {
    if rs == [] then []
    else EventsAfter(c, rs[..|rs| - 1], ambient) + Emits(c, BreakerAfter(c, rs[..|rs| - 1]), rs[|rs| - 1], ambient)
  }

  /** One long-lived client, called again and again, follows the run. */
  method Serve(client: ResilientClient, rs: seq<Request>) returns (outcomes: seq<Outcome>)
    requires client.Valid() && client.Breaker() == Closed(0) && client.events == []
    modifies client`state, client`counter, client`openedAt, client`events
    ensures client.Valid() && client.Breaker() == BreakerAfter(client.settings, rs)
    ensures client.events == EventsAfter(client.settings, rs, client.ambient)
    ensures |outcomes| == |rs|
    ensures forall i :: 0 <= i < |rs| ==>
      outcomes[i] == Delivers(client.settings, BreakerAfter(client.settings, rs[..i]), rs[i])
  {
    hide Next, Emits, Delivers;
    outcomes := [];
    for i := 0 to |rs|
      invariant client.Valid() && client.Breaker() == BreakerAfter(client.settings, rs[..i])
      invariant client.events == EventsAfter(client.settings, rs[..i], client.ambient)
      invariant |outcomes| == i
      invariant forall j :: 0 <= j < i ==>
        outcomes[j] == Delivers(client.settings, BreakerAfter(client.settings, rs[..j]), rs[j])
    {
      assert rs[..i + 1][..i] == rs[..i];
      var o, _, _ := client.Get(rs[i]);
      outcomes := outcomes + [o];
    }
    assert rs[..|rs|] == rs;
  }

  // --------------------------------------------------------------------- attempts

  lemma {:induction false} TriesStopAtFirstAnswer(c: Settings, r: Request, k: nat)
    requires c.Valid() && k < c.maxAttempts
    ensures forall j: nat :: k <= j < Tries(c, r, k) - 1 ==> Fails(c, r, j)
    ensures Tries(c, r, k) < c.maxAttempts ==> !Fails(c, r, Tries(c, r, k) - 1)
    decreases c.maxAttempts - k
  {
    hide AttemptOf;
    if Fails(c, r, k) && k + 1 < c.maxAttempts {
      TriesStopAtFirstAnswer(c, r, k + 1);
    }
  }

  /** An admitted call fails exactly when every attempt it may make would. */
  lemma {:induction false} FailsIffExhausted(c: Settings, r: Request)
    requires c.Valid()
    ensures Answer(c, r).Transient? <==> Exhausted(c, r)
    ensures Exhausted(c, r) ==> Tries(c, r, 0) == c.maxAttempts
  {
    hide AttemptOf;
    TriesStopAtFirstAnswer(c, r, 0);
    var n := Tries(c, r, 0);
    if Exhausted(c, r) {
      assert Fails(c, r, n - 1);
    } else {
      var k: nat :| k < c.maxAttempts && !Fails(c, r, k);
      assert Answer(c, r).Transient? <==> Fails(c, r, n - 1);
    }
  }

  lemma {:induction false} DoubledPositive(b: real, k: nat)
    requires b > 0.0
    ensures Doubled(b, k) > 0.0
  {
    if k > 0 {
      DoubledPositive(b, k - 1);
    }
  }

  /** A call sleeps at most b * (2 ** (n - 1) - 1) over n attempts, and exactly
      that while no wait reaches the library's cap. */
  lemma {:induction false} BackoffBound(b: real, n: nat)
    requires b > 0.0
    ensures 0.0 <= TotalWait(b, n) <= Doubled(b, n) - b
    ensures n > 0 && Doubled(b, n - 1) <= 4611686018427387903.5 ==> TotalWait(b, n) == Doubled(b, n) - b
  {
    if n > 0 {
      BackoffBound(b, n - 1);
      DoubledPositive(b, n - 1);
      if n > 1 {
        DoubledPositive(b, n - 2);
      }
    }
  }

  /** A failing or slow dependency costs a caller a bounded time, an open breaker
      none: from no attempt to the configured number, and the waits between them. */
  lemma {:induction false} CallIsBounded(c: Settings, b: Breaker, r: Request)
    requires c.Valid()
    ensures var attempts := if Suppressed(c, b, r) then 0 else Tries(c, r, 0);
      && (attempts == 0 <==> Suppressed(c, b, r))
      && attempts <= c.maxAttempts
      && (attempts > 0 ==> TotalWait(c.backoff, attempts - 1) <= Doubled(c.backoff, c.maxAttempts - 1) - c.backoff)
  {
    if !Suppressed(c, b, r) {
      var n := Tries(c, r, 0);
      BackoffBound(c.backoff, n - 1);
      DoubledGrows(c.backoff, n - 1, c.maxAttempts - 1);
    }
  }

  lemma {:induction false} DoubledGrows(b: real, m: nat, n: nat)
    requires b > 0.0 && m <= n
    ensures Doubled(b, m) <= Doubled(b, n)
    decreases n - m
  {
    if m < n {
      DoubledGrows(b, m, n - 1);
      DoubledPositive(b, n - 1);
    }
  }

  // ---------------------------------------------------- one call, over its exchanges

  /** The requirement: what retry and breaker exist for. */
  predicate Faulty(x: Exchange) {
    x.TransportError? || x.status >= 500
  }

  /** Some exchange the request is allowed is no fault. */
  ghost predicate AnswersInTime(c: Settings, r: Request) {
    exists k: nat :: k < c.maxAttempts && !Faulty(r.exchanges(k))
  }

  function FaultText(c: Settings, x: Exchange): string
    requires Faulty(x)
  {
    match x
    case TransportError(text) => text
    case Answered(status, _) => c.dependency + " returned " + Decimal(status)
  }

  /** What any other answer means to the caller: a 2xx its body, the rest its status. */
  function AnswerTo(x: Exchange): Outcome
    requires !Faulty(x)
  {
    if 200 <= x.status <= 299 then (if x.body.Some? then Fresh(x.body.value) else DecodeRaised)
    else StatusRaised(x.status)
  }

  function Fallback(r: Request, reason: string): Outcome {
    if r.fallback.Some? then Degraded(r.fallback.value) else DependencyUnavailable(reason)
  }

  /** The breaker lets the call through: it is closed, or its reset timeout has passed. */
  predicate Admitted(c: Settings, b: Breaker, r: Request) {
    b.Closed? || r.checkedAt >= b.openedAt + c.resetTimeout
  }

  lemma {:induction false} FailsIffFaulty(c: Settings, r: Request, k: nat)
    ensures Fails(c, r, k) <==> Faulty(r.exchanges(k))
  {
    hide Decimal;
  }

  /** A request fails exactly when every exchange it is allowed is a transport error or a
      5xx. */
  lemma {:induction false} ExhaustedIff(c: Settings, r: Request)
    ensures Exhausted(c, r) <==> forall k: nat :: k < c.maxAttempts ==> Faulty(r.exchanges(k))
  {
    hide Faulty, Fails;
    forall k: nat
      ensures Fails(c, r, k) <==> Faulty(r.exchanges(k))
    {
      FailsIffFaulty(c, r, k);
    }
  }

  /** A refused call touches nothing and degrades the caller. */
  lemma {:induction false} RefusedCall(c: Settings, b: Breaker, r: Request, ambient: string)
    requires c.Valid() && !Admitted(c, b, r)
    ensures Next(c, b, r) == b && Emits(c, b, r, ambient) == []
    ensures Delivers(c, b, r) == Fallback(r, "circuit breaker is open")
  {
  }

  lemma {:induction false} TriesReach(c: Settings, r: Request, i: nat, k: nat)
    requires i <= k < c.maxAttempts
    requires forall j: nat :: i <= j < k ==> Faulty(r.exchanges(j))
    requires !Faulty(r.exchanges(k)) || k == c.maxAttempts - 1
    ensures Tries(c, r, i) == k + 1
    decreases k - i
  {
    hide Faulty, Fails;
    FailsIffFaulty(c, r, i);
    if i < k {
      TriesReach(c, r, i + 1, k);
    }
  }

  /** A call whose exchange `k` is the first that is no fault makes `k + 1` attempts and
      hands that answer on; it closes the breaker, and says so if it was open. */
  lemma {:induction false} AnsweredCall(c: Settings, b: Breaker, r: Request, k: nat, ambient: string)
    requires c.Valid() && Admitted(c, b, r) && k < c.maxAttempts
    requires (forall j: nat :: j < k ==> Faulty(r.exchanges(j))) && !Faulty(r.exchanges(k))
    ensures Tries(c, r, 0) == k + 1
    ensures Next(c, b, r) == Closed(0)
    ensures Emits(c, b, r, ambient)
      == if b.Closed? then []
         else [Notice(CircuitClosed, Low, c.serviceName, "/" + c.dependency, 503,
                      "Circuit breaker closed for " + c.dependency, ambient, c.dependency)]
    ensures Delivers(c, b, r) == AnswerTo(r.exchanges(k))
  {
    TriesReach(c, r, 0, k);
  }

  /** A call whose every exchange is a fault makes every attempt, is counted once, and
      trips the breaker at the threshold or from half-open; only a call that found it
      closed reports the failure, with the last exchange's fault. */
  lemma {:induction false} FailedCall(c: Settings, b: Breaker, r: Request, ambient: string)
    requires c.Valid() && Admitted(c, b, r) && forall k: nat :: k < c.maxAttempts ==> Faulty(r.exchanges(k))
    ensures Tries(c, r, 0) == c.maxAttempts
    ensures var reason := FaultText(c, r.exchanges(c.maxAttempts - 1));
      var trips := b.Open? || b.failures + 1 >= c.failMax;
      && Next(c, b, r) == (if trips then Open(r.finishedAt) else Closed(b.failures + 1))
      && Emits(c, b, r, ambient)
         == (if trips then [Notice(CircuitOpened, High, c.serviceName, "/" + c.dependency, 503,
                                   "Circuit breaker opened for " + c.dependency, ambient, c.dependency)] else [])
            + (if b.Open? then [] else [Notice(DependencyFailure, High, c.serviceName, r.path, 503,
                                               "Call to " + c.dependency + " failed after retries: " + reason,
                                               r.correlationId, c.dependency)])
      && Delivers(c, b, r) == Fallback(r, if b.Open? then "circuit breaker is open" else reason)
  {
    hide Decimal;
    TriesReach(c, r, 0, c.maxAttempts - 1);
  }

  /** A dependency that answers every call at once, a 4xx each time if it likes, is asked
      once a call, leaves no event and a closed breaker, and its answers reach the
      callers as they are. */
  lemma {:induction false} AnsweredRunsLeaveNoTrace(c: Settings, rs: seq<Request>, ambient: string)
    requires c.Valid() && forall r :: r in rs ==> !Faulty(r.exchanges(0))
    ensures BreakerAfter(c, rs) == Closed(0) && EventsAfter(c, rs, ambient) == []
    ensures forall r :: r in rs ==>
              Tries(c, r, 0) == 1 && Delivers(c, Closed(0), r) == AnswerTo(r.exchanges(0))
  {
    hide Next, Emits, Delivers, Faulty, AnswerTo;
    if rs != [] {
      var front, last := rs[..|rs| - 1], rs[|rs| - 1];
      assert rs == front + [last];
      AnsweredRunsLeaveNoTrace(c, front, ambient);
      AnsweredCall(c, Closed(0), last, 0, ambient);
    }
  }

  // ---------------------------------------------------------------- the threshold

  /** The last `n` calls of the run all failed as whole requests. */
  predicate Streak(c: Settings, rs: seq<Request>, n: int) {
    0 <= n <= |rs| && forall j :: |rs| - n <= j < |rs| ==> Exhausted(c, rs[j])
  }

  lemma {:induction false} NextFrom(c: Settings, b: Breaker, r: Request)
    requires c.Valid() && b.Closed?
    ensures Next(c, b, r) == if !Exhausted(c, r) then Closed(0)
                             else if b.failures + 1 >= c.failMax then Open(r.finishedAt) else Closed(b.failures + 1)
  {
    hide Exhausted;
    FailsIffExhausted(c, r);
  }

  /** Over every run, recoveries included, a closed breaker holds exactly the length
      of the streak of failed requests the run ends in. */
  lemma {:induction false} ClosedCountsTheStreak(c: Settings, rs: seq<Request>)
    requires c.Valid()
    ensures var b := BreakerAfter(c, rs);
      b.Closed? ==> b.failures < c.failMax && Streak(c, rs, b.failures) && !Streak(c, rs, b.failures + 1)
  {
    hide Exhausted, Next;
    if rs != [] {
      var front, last := rs[..|rs| - 1], rs[|rs| - 1];
      assert rs == front + [last];
      ClosedCountsTheStreak(c, front);
      match BreakerAfter(c, front)
      case Closed(failures) =>
        NextFrom(c, BreakerAfter(c, front), last);
        StreakStep(c, front, last, failures);
      case Open(_) =>
        NextFromOpen(c, BreakerAfter(c, front), last);
        NoStreak(c, front, last);
    }
  }

  lemma {:induction false} NextFromOpen(c: Settings, b: Breaker, r: Request)
    requires c.Valid() && b.Open?
    ensures Next(c, b, r) == if Suppressed(c, b, r) then b
                             else if Exhausted(c, r) then Open(r.finishedAt) else Closed(0)
  {
    hide Exhausted;
    FailsIffExhausted(c, r);
  }

  lemma {:induction false} NoStreak(c: Settings, front: seq<Request>, last: Request)
    ensures !Exhausted(c, last) ==> Streak(c, front + [last], 0) && !Streak(c, front + [last], 1)
  {
    hide Exhausted;
    assert (front + [last])[|front|] == last;
  }

  lemma {:induction false} StreakStep(c: Settings, front: seq<Request>, last: Request, n: nat)
    requires Streak(c, front, n) && !Streak(c, front, n + 1)
    ensures Exhausted(c, last) ==> Streak(c, front + [last], n + 1) && !Streak(c, front + [last], n + 2)
    ensures !Exhausted(c, last) ==> Streak(c, front + [last], 0) && !Streak(c, front + [last], 1)
    ensures !Exhausted(c, last) ==> forall m :: m >= 1 ==> !Streak(c, front + [last], m)
  {
    hide Exhausted;
    var rs := front + [last];
    assert rs[|rs| - 1] == last;
    if Streak(c, rs, n + 2) {
      forall j | |front| - (n + 1) <= j < |front|
        ensures Exhausted(c, front[j])
      {
        assert rs[j] == front[j];
      }
    }
  }

  lemma {:induction false} StreakShorter(c: Settings, rs: seq<Request>, n: nat, m: nat)
    ensures Streak(c, rs, m) && n <= m ==> Streak(c, rs, n)
    ensures !Streak(c, rs, n) && n <= m ==> !Streak(c, rs, m)
    ensures n + 1 <= m && !Streak(c, rs, n + 1) ==> !Streak(c, rs, m)
  {
    hide Exhausted;
  }

  /** Whenever in a run the breaker is closed, the next request trips it exactly
      when that request completes `failMax` consecutive whole requests that failed,
      however often each was retried and whatever happened before. */
  lemma {:induction false} OpensIffConsecutiveFailures(c: Settings, rs: seq<Request>, r: Request)
    requires c.Valid() && BreakerAfter(c, rs).Closed?
    ensures BreakerAfter(c, rs + [r]).Open? <==> Streak(c, rs + [r], c.failMax)
  {
    hide Exhausted, Next;
    var failures := BreakerAfter(c, rs).failures;
    assert (rs + [r])[..|rs|] == rs;
    ClosedCountsTheStreak(c, rs);
    NextFrom(c, BreakerAfter(c, rs), r);
    StreakStep(c, rs, r, failures);
    StreakShorter(c, rs + [r], failures + 1, c.failMax);
  }

  /** Whenever it is open, the next request closes it exactly when its reset timeout
      has passed and the request is answered. */
  lemma {:induction false} ClosesIffTrialAnswered(c: Settings, rs: seq<Request>, r: Request)
    requires c.Valid() && BreakerAfter(c, rs).Open?
    ensures BreakerAfter(c, rs + [r]).Closed?
      <==> r.checkedAt >= BreakerAfter(c, rs).openedAt + c.resetTimeout && !Exhausted(c, r)
  {
    hide Exhausted, Next;
    assert (rs + [r])[..|rs|] == rs;
    NextFromOpen(c, BreakerAfter(c, rs), r);
  }

  /** An answered request, a 4xx included, puts the count back to nothing, in every
      state that lets it through. */
  lemma {:induction false} AnswersResetTheCount(c: Settings, rs: seq<Request>, r: Request)
    requires c.Valid() && Admitted(c, BreakerAfter(c, rs), r) && AnswersInTime(c, r)
    ensures BreakerAfter(c, rs + [r]) == Closed(0)
  {
    hide Exhausted, Faulty;
    assert (rs + [r])[..|rs|] == rs;
    FailsIffExhausted(c, r);
    ExhaustedIff(c, r);
  }

  // ------------------------------------------------------------ circuit events

  predicate IsCircuit(n: Notice) {
    n.eventType == CircuitOpened || n.eventType == CircuitClosed
  }

  /** The state the event stream last told of. */
  function Told(events: seq<Notice>): EventType {
    if events == [] then CircuitClosed
    else if IsCircuit(events[|events| - 1]) then events[|events| - 1].eventType
    else Told(events[..|events| - 1])
  }

  lemma {:induction false} ToldAppend(events: seq<Notice>, more: seq<Notice>)
    requires |more| <= 2
    ensures Told(events + more) == if more == [] then Told(events)
                                   else if IsCircuit(more[|more| - 1]) then more[|more| - 1].eventType
                                   else if |more| == 2 && IsCircuit(more[0]) then more[0].eventType
                                   else Told(events)
  {
    if more == [] {
      assert events + more == events;
    } else {
      assert (events + more)[..|events + more| - 1] == events + more[..|more| - 1];
      ToldAppend(events, more[..|more| - 1]);
    }
  }

  /** Reading the CIRCUIT_* events alone, the SOC knows the breaker's state: it is
      not closed exactly when the last of them is CIRCUIT_OPENED. */
  lemma {:induction false} EventsTellTheState(c: Settings, rs: seq<Request>, ambient: string)
    requires c.Valid()
    ensures BreakerAfter(c, rs).Open? <==> Told(EventsAfter(c, rs, ambient)) == CircuitOpened
    ensures BreakerAfter(c, rs).Closed? <==> Told(EventsAfter(c, rs, ambient)) == CircuitClosed
  {
    hide Answer, FailureNotice, OpenedNotice, ClosedNotice;
    if rs != [] {
      var front, last := rs[..|rs| - 1], rs[|rs| - 1];
      EventsTellTheState(c, front, ambient);
      NoticeTypes(c, last, ambient);
      ToldAppend(EventsAfter(c, front, ambient), Emits(c, BreakerAfter(c, front), last, ambient));
    }
  }

  lemma {:induction false} NoticeTypes(c: Settings, r: Request, ambient: string)
    ensures OpenedNotice(c, ambient).eventType == CircuitOpened
    ensures ClosedNotice(c, ambient).eventType == CircuitClosed
    ensures forall reason :: FailureNotice(c, r, reason).eventType == DependencyFailure
  {
  }

  /** Every recovery follows an outage: at each CIRCUIT_CLOSED the CIRCUIT_*
      event before it is a CIRCUIT_OPENED. */
  lemma {:induction false} RecoveriesFollowOutages(c: Settings, rs: seq<Request>, ambient: string, i: nat)
    requires c.Valid() && i < |EventsAfter(c, rs, ambient)|
    requires EventsAfter(c, rs, ambient)[i].eventType == CircuitClosed
    ensures Told(EventsAfter(c, rs, ambient)[..i]) == CircuitOpened
  {
    hide Answer, FailureNotice, OpenedNotice, ClosedNotice;
    var front, last := rs[..|rs| - 1], rs[|rs| - 1];
    var before := EventsAfter(c, front, ambient);
    NoticeTypes(c, last, ambient);
    if i < |before| {
      RecoveriesFollowOutages(c, front, ambient, i);
      assert EventsAfter(c, rs, ambient)[..i] == before[..i];
    } else {
      assert EventsAfter(c, rs, ambient)[..|before|] == before;
      EventsTellTheState(c, front, ambient);
    }
  }

  // --------------------------------------------------------- DEPENDENCY_FAILURE

  function Failures(): Notice -> bool {
    (n: Notice) => n.eventType == DependencyFailure
  }

  /** Calls of the run that satisfy a condition on the breaker they met. */
  function Count(c: Settings, rs: seq<Request>, p: (Breaker, Request) -> bool): nat
    requires c.Valid()
  {
    if rs == [] then 0
    else
      var front, last := rs[..|rs| - 1], rs[|rs| - 1];
      Count(c, front, p) + if p(BreakerAfter(c, front), last) then 1 else 0
  }

  function FailedWhileClosed(c: Settings): (Breaker, Request) -> bool {
    (b: Breaker, r: Request) => b.Closed? && Exhausted(c, r)
  }

  function FailedOnTheNetwork(c: Settings): (Breaker, Request) -> bool {
    (b: Breaker, r: Request) => !Suppressed(c, b, r) && Exhausted(c, r)
  }

  function FailedTrial(c: Settings): (Breaker, Request) -> bool {
    (b: Breaker, r: Request) => b.Open? && !Suppressed(c, b, r) && Exhausted(c, r)
  }

  lemma {:induction false} EmittedFailures(c: Settings, b: Breaker, r: Request, ambient: string)
    requires c.Valid()
    ensures |Filter(Failures(), Emits(c, b, r, ambient))| == if b.Closed? && Exhausted(c, r) then 1 else 0
  {
    hide Answer, FailureNotice, OpenedNotice, ClosedNotice, Exhausted;
    FailsIffExhausted(c, r);
    NoticeTypes(c, r, ambient);
    var es := Emits(c, b, r, ambient);
    if |es| == 2 {
      assert es[..1] == [es[0]] && es[..1][..0] == [];
    } else if |es| == 1 {
      assert es[..0] == [];
    }
  }

  /** Conservation: one DEPENDENCY_FAILURE for every call that found the breaker
      closed and spent all its retries, the call that trips it included, and
      none for any other. */
  lemma {:induction false} FailureEventsConserved(c: Settings, rs: seq<Request>, ambient: string)
    requires c.Valid()
    ensures |Filter(Failures(), EventsAfter(c, rs, ambient))| == Count(c, rs, FailedWhileClosed(c))
  {
    hide Next, Emits, Exhausted;
    if rs != [] {
      var front, last := rs[..|rs| - 1], rs[|rs| - 1];
      FailureEventsConserved(c, front, ambient);
      EmittedFailures(c, BreakerAfter(c, front), last, ambient);
      FilterConcat(Failures(), EventsAfter(c, front, ambient), Emits(c, BreakerAfter(c, front), last, ambient));
    }
  }

  lemma {:induction false} TrialsMakeTheDifference(c: Settings, rs: seq<Request>)
    requires c.Valid()
    ensures Count(c, rs, FailedOnTheNetwork(c)) == Count(c, rs, FailedWhileClosed(c)) + Count(c, rs, FailedTrial(c))
  {
    hide Next, Exhausted;
    if rs != [] {
      TrialsMakeTheDifference(c, rs[..|rs| - 1]);
    }
  }

  /** "One event per exhausted request" holds of a run exactly when no trial call
      of a half-open breaker failed in it: a failed trial reached the network and
      spent its retries, and leaves none. */
  lemma {:induction false} OnePerExhaustedRequestIff(c: Settings, rs: seq<Request>, ambient: string)
    requires c.Valid()
    ensures |Filter(Failures(), EventsAfter(c, rs, ambient))| == Count(c, rs, FailedOnTheNetwork(c))
      <==> Count(c, rs, FailedTrial(c)) == 0
  {
    hide Exhausted;
    FailureEventsConserved(c, rs, ambient);
    TrialsMakeTheDifference(c, rs);
  }

  function Outage(path: string, at: int): Request {
    Request(path, "corr-1", None, at, at, (k: nat) => TransportError("ConnectError: refused"))
  }

  /** A trial that fails, in any run, is one more exhausted request on the network
      and no more DEPENDENCY_FAILURE. */
  lemma {:induction false} FailedTrialIsSilent(c: Settings, rs: seq<Request>, r: Request, ambient: string)
    requires c.Valid() && FailedTrial(c)(BreakerAfter(c, rs), r)
    ensures Count(c, rs + [r], FailedOnTheNetwork(c)) == Count(c, rs, FailedOnTheNetwork(c)) + 1
    ensures Filter(Failures(), EventsAfter(c, rs + [r], ambient)) == Filter(Failures(), EventsAfter(c, rs, ambient))
  {
    hide Exhausted, Next, Emits;
    assert (rs + [r])[..|rs|] == rs;
    EmittedFailures(c, BreakerAfter(c, rs), r, ambient);
    FilterConcat(Failures(), EventsAfter(c, rs, ambient), Emits(c, BreakerAfter(c, rs), r, ambient));
  }

  function Outages(path: string, n: nat): seq<Request> {
    seq(n, i => Outage(path, 0))
  }

  /** A dead dependency trips the breaker at its threshold, whatever that is. */
  lemma {:induction false} OutagesTrip(c: Settings, path: string, n: nat)
    requires c.Valid() && n <= c.failMax
    ensures BreakerAfter(c, Outages(path, n)) == if n < c.failMax then Closed(n) else Open(0)
  {
    hide Next;
    if n > 0 {
      OutagesTrip(c, path, n - 1);
      assert Outages(path, n)[..n - 1] == Outages(path, n - 1);
      NextFrom(c, Closed(n - 1), Outage(path, 0));
    }
  }

  /** So such a trial does occur under every setting. */
  lemma {:induction false} TrialsDoFail(c: Settings, path: string)
    requires c.Valid()
    ensures FailedTrial(c)(BreakerAfter(c, Outages(path, c.failMax)), Outage(path, c.resetTimeout))
  {
    hide BreakerAfter;
    OutagesTrip(c, path, c.failMax);
    var trial := Outage(path, c.resetTimeout);
    forall k: nat | k < c.maxAttempts
      ensures Fails(c, trial, k)
    {
    }
    assert Exhausted(c, trial);
  }

  // --------------------------------------------------------------- what is served

  /** While the breaker is open and its reset timeout has not passed, no call
      reaches the network, nothing is emitted and nothing changes. */
  lemma {:induction false} OpenMeansQuiet(c: Settings, rs: seq<Request>, more: seq<Request>, ambient: string)
    requires c.Valid() && BreakerAfter(c, rs).Open?
    requires forall r :: r in more ==> r.checkedAt < BreakerAfter(c, rs).openedAt + c.resetTimeout
    ensures BreakerAfter(c, rs + more) == BreakerAfter(c, rs)
    ensures EventsAfter(c, rs + more, ambient) == EventsAfter(c, rs, ambient)
  {
    hide Answer;
    if more == [] {
      assert rs + more == rs;
    } else {
      var front, last := more[..|more| - 1], more[|more| - 1];
      assert more == front + [last];
      assert (rs + more)[..|rs + more| - 1] == rs + front;
      OpenMeansQuiet(c, rs, front, ambient);
    }
  }

  /** A caller that declares a fallback gets the dependency's own answer or the
      fallback; one that declares none gets the answer or a typed 503. What is
      fresh is the body of a 2xx that some attempt really received. */
  lemma {:induction false} CallersGetAnAnswerOrTheFallback(c: Settings, b: Breaker, r: Request)
    requires c.Valid()
    ensures var o := Delivers(c, b, r);
      && (Suppressed(c, b, r) || Exhausted(c, r) ==>
           if r.fallback.Some? then o == Degraded(r.fallback.value) else o.DependencyUnavailable?)
      && (!Suppressed(c, b, r) && !Exhausted(c, r) ==>
           exists k: nat :: k < c.maxAttempts && (forall j: nat :: j < k ==> Fails(c, r, j)) && !Fails(c, r, k)
             && (match AttemptOf(c, r.exchanges(k))
                 case Body(json) => o == Fresh(json)
                 case StatusError(status) => o == StatusRaised(status)
                 case Undecodable => o == DecodeRaised
                 case Transient(_) => false))
  {
    hide AttemptOf, Exhausted;
    FailsIffExhausted(c, r);
    TriesStopAtFirstAnswer(c, r, 0);
    if !Suppressed(c, b, r) && !Exhausted(c, r) {
      var k := Tries(c, r, 0) - 1;
      assert !Fails(c, r, k);
    }
  }
}
