/** The one sanctioned way a service calls another: a circuit breaker around a
    retry around one GET, and the events the pair of them emits. The breaker's
    transitions and the retry's stopping rule are those of the libraries used
    (pybreaker and tenacity). */
module Resilience {
  import opened Wrappers
  import opened Timestamps
  import opened Events

  // ------------------------------------------------------------------- settings

  datatype Settings = Settings(serviceName: string, dependency: string, maxAttempts: int, backoff: real,
                               failMax: int, resetTimeout: int)
  {
    predicate Valid() {
      maxAttempts >= 1 && backoff > 0.0 && failMax >= 1 && resetTimeout > 0
    }
  }

  // --------------------------------------------------------------- one attempt

  /** What one GET meets on the wire; a body that is not JSON decodes to None. */
  datatype Exchange = TransportError(text: string) | Answered(status: int, body: Option<string>)

  datatype Attempt = Body(json: string) | Transient(reason: string) | StatusError(status: int) | Undecodable

  const SERVER_ERROR_FLOOR := 500

  /** `_attempt` */
  function AttemptOf(c: Settings, x: Exchange): Attempt {
    match x
    case TransportError(text) => Transient(text)
    case Answered(status, body) =>
      if status >= SERVER_ERROR_FLOOR then Transient(c.dependency + " returned " + Decimal(status))
      else if !(200 <= status < 300) then StatusError(status)
      else if body.None? then Undecodable
      else Body(body.value)
  }

  /** One call as the world will answer it: the moments its breaker is consulted
      and it returns, and what each attempt would meet. */
  datatype Request = Request(path: string, correlationId: string, fallback: Option<string>,
                             checkedAt: int, finishedAt: int, exchanges: nat -> Exchange)

  predicate Fails(c: Settings, r: Request, k: nat) {
    AttemptOf(c, r.exchanges(k)).Transient?
  }

  /** The whole request fails: every attempt it is allowed meets a transient fault. */
  predicate Exhausted(c: Settings, r: Request) {
    forall k: nat :: k < c.maxAttempts ==> Fails(c, r, k)
  }

  // --------------------------------------------------------------------- events

  datatype Notice = Notice(eventType: EventType, severity: Severity, serviceName: string, endpoint: string,
                           statusCode: int, message: string, correlationId: string, affectedEntity: string)

  const FAILED_CALL := "Call to "
  const AFTER_RETRIES := " failed after retries: "

  function FailureNotice(c: Settings, r: Request, reason: string): Notice {
    Notice(DependencyFailure, High, c.serviceName, r.path, 503, FAILED_CALL + c.dependency + AFTER_RETRIES + reason,
           r.correlationId, c.dependency)
  }

  const OPENED := "Circuit breaker opened for "
  const CLOSED := "Circuit breaker closed for "

  /** The breaker's own two events carry the correlation id of the context. */
  function OpenedNotice(c: Settings, ambient: string): Notice {
    Notice(CircuitOpened, High, c.serviceName, "/" + c.dependency, 503, OPENED + c.dependency, ambient, c.dependency)
  }

  function ClosedNotice(c: Settings, ambient: string): Notice {
    Notice(CircuitClosed, Low, c.serviceName, "/" + c.dependency, 503, CLOSED + c.dependency, ambient, c.dependency)
  }

  // ---------------------------------------------------------------------- waits

  /** tenacity's cap on one wait, half of the largest machine integer. */
  const MAX_WAIT: real := 4611686018427387903.5

  /** `b * 2 ** k` */
  function Doubled(b: real, k: nat): real {
    if k == 0 then b else 2.0 * Doubled(b, k - 1)
  }

  /** The wait after attempt `k`, counted from one. */
  function WaitAfter(b: real, k: nat): real
    requires k >= 1
  {
    if Doubled(b, k - 1) <= MAX_WAIT then Doubled(b, k - 1) else MAX_WAIT
  }

  function TotalWait(b: real, n: nat): real {
    if n == 0 then 0.0 else TotalWait(b, n - 1) + WaitAfter(b, n)
  }

  // ------------------------------------------------------------ what a call does

  datatype Breaker = Closed(failures: nat) | Open(openedAt: int)

  datatype Outcome =
    | Fresh(body: string)
    | StatusRaised(status: int)
    | DecodeRaised
    | Degraded(value: string)
    | DependencyUnavailable(reason: string)

  /** An open breaker whose reset timeout has not elapsed refuses the call. */
  predicate Suppressed(c: Settings, b: Breaker, r: Request) {
    b.Open? && r.checkedAt < b.openedAt + c.resetTimeout
  }

  /** Attempts an admitted call makes, counting from `k` already made in vain. */
  function Tries(c: Settings, r: Request, k: nat): (n: nat)
    requires k < c.maxAttempts
    ensures k < n <= c.maxAttempts
    decreases c.maxAttempts - k
  {
    if Fails(c, r, k) && k + 1 < c.maxAttempts then Tries(c, r, k + 1) else k + 1
  }

  function Answer(c: Settings, r: Request): Attempt
    requires c.Valid()
  {
    AttemptOf(c, r.exchanges(Tries(c, r, 0) - 1))
  }

  /** What the call leaves the breaker in. */
  function Next(c: Settings, b: Breaker, r: Request): Breaker
    requires c.Valid()
  {
    if Suppressed(c, b, r) then b
    else if !Answer(c, r).Transient? then Closed(0)
    else if b.Open? || b.failures + 1 >= c.failMax then Open(r.finishedAt)
    else Closed(b.failures + 1)
  }

  /** What it writes to the event stream. */
  function Emits(c: Settings, b: Breaker, r: Request, ambient: string): seq<Notice>
    requires c.Valid()
  {
    if Suppressed(c, b, r) then []
    else if !Answer(c, r).Transient? then if b.Open? then [ClosedNotice(c, ambient)] else []
    else if b.Open? then [OpenedNotice(c, ambient)]
    else
      (if b.failures + 1 >= c.failMax then [OpenedNotice(c, ambient)] else [])
      + [FailureNotice(c, r, Answer(c, r).reason)]
  }

  const BREAKER_OPEN := "circuit breaker is open"

  function DegradedTo(r: Request, reason: string): Outcome {
    match r.fallback
    case Some(value) => Degraded(value)
    case None => DependencyUnavailable(reason)
  }

  /** What the caller gets. */
  function Delivers(c: Settings, b: Breaker, r: Request): Outcome
    requires c.Valid()
  {
    if Suppressed(c, b, r) then DegradedTo(r, BREAKER_OPEN)
    else
      match Answer(c, r)
      case Body(json) => Fresh(json)
      case StatusError(status) => StatusRaised(status)
      case Undecodable => DecodeRaised
      case Transient(reason) => DegradedTo(r, if b.Open? then BREAKER_OPEN else reason)
  }

  // --------------------------------------------------------------- the client

  datatype State = StateClosed | StateOpen | StateHalfOpen

  /** How pybreaker's `call` ends; its own error chains the fault it replaced. */
  datatype CallEnd = Finished(attempt: Attempt) | BreakerError(cause: Option<string>)

  class ResilientClient {
    const settings: Settings
    const ambient: string
    var state: State
    var counter: nat
    var openedAt: int
    var events: seq<Notice>

    ghost predicate Valid()
      reads this
    {
      settings.Valid() && state != StateHalfOpen
    }

    function Breaker(): Breaker
      reads this
    {
      if state == StateClosed then Closed(counter) else Open(openedAt)
    }

    constructor (settings: Settings, ambient: string)
      requires settings.Valid()
      ensures Valid() && this.settings == settings && this.ambient == ambient
      ensures Breaker() == Closed(0) && events == []
    {
      this.settings := settings;
      this.ambient := ambient;
      state := StateClosed;
      counter := 0;
      openedAt := 0;
      events := [];
    }

    /** `_call_with_retry`: only transient faults are retried, each wait twice
        the one before. */
    method CallWithRetry(r: Request) returns (attempt: Attempt, attempts: nat, slept: real)
      requires settings.Valid()
      ensures attempt == Answer(settings, r) && attempts == Tries(settings, r, 0)
      ensures slept == TotalWait(settings.backoff, attempts - 1)
    {
      attempts, slept := 1, 0.0;
      attempt := AttemptOf(settings, r.exchanges(0));
      while attempt.Transient? && attempts < settings.maxAttempts
        invariant 1 <= attempts <= settings.maxAttempts
        invariant attempt == AttemptOf(settings, r.exchanges(attempts - 1))
        invariant Tries(settings, r, 0) == Tries(settings, r, attempts - 1)
        invariant slept == TotalWait(settings.backoff, attempts - 1)
      {
        slept := slept + WaitAfter(settings.backoff, attempts);
        attempt := AttemptOf(settings, r.exchanges(attempts));
        attempts := attempts + 1;
      }
    }

    /** `state_change`, for the two states that are events of their own. */
    method Enter(entered: State, at: int)
      modifies this`state, this`counter, this`openedAt, this`events
      ensures state == entered
      ensures counter == if entered == StateClosed then 0 else old(counter)
      ensures openedAt == if entered == StateOpen then at else old(openedAt)
      ensures events == old(events) + match entered
                                      case StateOpen => [OpenedNotice(settings, ambient)]
                                      case StateClosed => [ClosedNotice(settings, ambient)]
                                      case StateHalfOpen => []
    {
      state := entered;
      if entered == StateOpen {
        openedAt := at;
        events := events + [OpenedNotice(settings, ambient)];
      } else if entered == StateClosed {
        counter := 0;
        events := events + [ClosedNotice(settings, ambient)];
      }
    }

    /** pybreaker's `call` around the retried request. */
    method BreakerCall(r: Request) returns (end: CallEnd, attempts: nat, slept: real)
      requires Valid()
      modifies this`state, this`counter, this`openedAt, this`events
      ensures Valid() && Breaker() == Next(settings, old(Breaker()), r)
      ensures Suppressed(settings, old(Breaker()), r) ==>
        end == BreakerError(None) && attempts == 0 && slept == 0.0 && events == old(events)
      ensures !Suppressed(settings, old(Breaker()), r) ==>
        && attempts == Tries(settings, r, 0) && slept == TotalWait(settings.backoff, attempts - 1)
        && end == (if Answer(settings, r).Transient? && Next(settings, old(Breaker()), r).Open?
                   then BreakerError(Some(Answer(settings, r).reason)) else Finished(Answer(settings, r)))
        && events == old(events)
                     + (if old(Breaker()).Closed? && Next(settings, old(Breaker()), r).Open?
                        then [OpenedNotice(settings, ambient)]
                        else if old(Breaker()).Open? then Emits(settings, old(Breaker()), r, ambient) else [])
    {
      if state == StateOpen {
        if r.checkedAt < openedAt + settings.resetTimeout {
          return BreakerError(None), 0, 0.0;
        }
        Enter(StateHalfOpen, r.checkedAt);
      }
      var attempt;
      attempt, attempts, slept := CallWithRetry(r);
      end := Finished(attempt);
      if attempt.Transient? {
        counter := counter + 1;
        if state == StateHalfOpen || counter >= settings.failMax {
          Enter(StateOpen, r.finishedAt);
          end := BreakerError(Some(attempt.reason));
        }
      } else {
        counter := 0;
        if state == StateHalfOpen {
          Enter(StateClosed, r.finishedAt);
        }
      }
    }

    /** `_degrade` */
    method Degrade(r: Request, reason: string, emit: bool) returns (o: Outcome)
      modifies this`events
      ensures events == old(events) + if emit then [FailureNotice(settings, r, reason)] else []
      ensures o == DegradedTo(r, reason)
    {
      if emit {
        events := events + [FailureNotice(settings, r, reason)];
      }
      if r.fallback.None? {
        return DependencyUnavailable(reason);
      }
      o := Degraded(r.fallback.value);
    }

    /** `get`. Whether the breaker is open is read before the call. */
    method Get(r: Request) returns (o: Outcome, attempts: nat, slept: real)
      requires Valid()
      modifies this`state, this`counter, this`openedAt, this`events
      ensures Valid() && Breaker() == Next(settings, old(Breaker()), r)
      ensures events == old(events) + Emits(settings, old(Breaker()), r, ambient)
      ensures o == Delivers(settings, old(Breaker()), r)
      ensures attempts == if Suppressed(settings, old(Breaker()), r) then 0 else Tries(settings, r, 0)
      ensures slept == if attempts == 0 then 0.0 else TotalWait(settings.backoff, attempts - 1)
    {
      hide FailureNotice, OpenedNotice, ClosedNotice, AttemptOf;
      var wasOpen := state == StateOpen;
      var end;
      end, attempts, slept := BreakerCall(r);
      match end
      case BreakerError(cause) =>
        if wasOpen {
          o := Degrade(r, BREAKER_OPEN, false);
        } else {
          o := Degrade(r, cause.value, true);
        }
      case Finished(Transient(reason)) => o := Degrade(r, reason, true);
      case Finished(Body(json)) => o := Fresh(json);
      case Finished(StatusError(status)) => o := StatusRaised(status);
      case Finished(Undecodable) => o := DecodeRaised;
    }
  }
}
