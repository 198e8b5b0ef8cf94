/** The security event schema: its fields, its validators and its rendering. */
module Events {
  import opened Wrappers

  datatype Severity = Low | Medium | High | Critical {
    function Rank(): nat {
      match this
      case Low => 0
      case Medium => 1
      case High => 2
      case Critical => 3
    }

    function Name(): string {
      match this
      case Low => "LOW"
      case Medium => "MEDIUM"
      case High => "HIGH"
      case Critical => "CRITICAL"
    }
  }

  datatype EventType =
    | AuthSuccess | AuthFailed
    | UnauthorisedAccess | RateLimitExceeded
    | RequestReceived | RequestCompleted
    | IncidentCreated | IncidentEscalated
    | AssetAccessed
    | DependencyFailure | CircuitOpened | CircuitClosed
    | ServiceError
    | HealthCheckFailed
  {
    function Name(): string {
      match this
      case AuthSuccess => "AUTH_SUCCESS"
      case AuthFailed => "AUTH_FAILED"
      case UnauthorisedAccess => "UNAUTHORISED_ACCESS"
      case RateLimitExceeded => "RATE_LIMIT_EXCEEDED"
      case RequestReceived => "REQUEST_RECEIVED"
      case RequestCompleted => "REQUEST_COMPLETED"
      case IncidentCreated => "INCIDENT_CREATED"
      case IncidentEscalated => "INCIDENT_ESCALATED"
      case AssetAccessed => "ASSET_ACCESSED"
      case DependencyFailure => "DEPENDENCY_FAILURE"
      case CircuitOpened => "CIRCUIT_OPENED"
      case CircuitClosed => "CIRCUIT_CLOSED"
      case ServiceError => "SERVICE_ERROR"
      case HealthCheckFailed => "HEALTH_CHECK_FAILED"
    }
  }

  const ALL_SEVERITIES: seq<Severity> := [Low, Medium, High, Critical]

  const ALL_EVENT_TYPES: seq<EventType> :=
    [AuthSuccess, AuthFailed, UnauthorisedAccess, RateLimitExceeded, RequestReceived,
     RequestCompleted, IncidentCreated, IncidentEscalated, AssetAccessed, DependencyFailure,
     CircuitOpened, CircuitClosed, ServiceError, HealthCheckFailed]

  datatype SecurityEvent = SecurityEvent(
    eventId: string,
    timestamp: string,
    serviceName: string,
    eventType: EventType,
    severity: Severity,
    userId: Option<string>,
    sourceIp: Option<string>,
    endpoint: string,
    httpMethod: string,
    statusCode: int,
    message: string,
    correlationId: string,
    affectedEntity: Option<string>)

  // --------------------------------------------------------------- validators

  /** The characters `str.strip` removes. */
  predicate IsSpace(c: char) {
    var n := c as int;
    || 9 <= n <= 13 || 28 <= n <= 32 || n == 0x85 || n == 0xA0 || n == 0x1680
    || 0x2000 <= n <= 0x200A || n == 0x2028 || n == 0x2029 || n == 0x202F || n == 0x205F || n == 0x3000
  }

  /** `not value.strip()` */
  predicate Blank(s: string) {
    forall c :: c in s ==> IsSpace(c)
  }

  predicate IsHex(c: char) {
    '0' <= c <= '9' || 'a' <= c <= 'f'
  }

  /** A prefix and twelve lower-case hexadecimal characters. */
  predicate IdentifierIn(prefix: string, id: string) {
    && prefix <= id
    && |id| == |prefix| + 12
    && forall c :: c in id[|prefix|..] ==> IsHex(c)
  }

  const SERVICE_NAMES: set<string> := {"auth-service", "incident-service", "asset-service", "api-gateway"}

  const PERMITTED_METHODS: set<string> := {"GET", "POST", "PUT", "PATCH", "DELETE", "HEAD", "OPTIONS"}

  function UpperChar(c: char): char {
    if 'a' <= c <= 'z' then (c as int - 32) as char else c
  }

  function Upper(s: string): (u: string)
    ensures |u| == |s|
  {
    seq(|s|, i requires 0 <= i < |s| => UpperChar(s[i]))
  }

  /** What every field of a constructed event obeys. */
  predicate Valid(e: SecurityEvent) {
    && IdentifierIn("evt-", e.eventId)
    && e.serviceName in SERVICE_NAMES
    && e.httpMethod in PERMITTED_METHODS
    && 100 <= e.statusCode <= 599
    && !Blank(e.endpoint) && !Blank(e.message) && !Blank(e.correlationId)
  }

  /** Every validator in turn, the method upper-cased first: what constructing
      an event from typed fields returns or raises. */
  function Validate(e: SecurityEvent): (r: Result<SecurityEvent, string>)
    ensures r.Ok? ==> Valid(r.value) && r.value == e.(httpMethod := Upper(e.httpMethod))
    ensures r.Err? <==> !Valid(e.(httpMethod := Upper(e.httpMethod)))
  {
    if !IdentifierIn("evt-", e.eventId) then Err("eventId")
    else if e.serviceName !in SERVICE_NAMES then Err("serviceName")
    else if Upper(e.httpMethod) !in PERMITTED_METHODS then Err("httpMethod")
    else if !(100 <= e.statusCode <= 599) then Err("statusCode")
    else if Blank(e.endpoint) || Blank(e.message) || Blank(e.correlationId) then Err("blank")
    else Ok(e.(httpMethod := Upper(e.httpMethod)))
  }

  lemma {:induction false} NotBlank(s: string)
    requires s != "" && !IsSpace(s[0])
    ensures !Blank(s)
  {
    assert s[0] in s;
  }

  lemma {:induction false} UpperFixed(s: string)
    requires forall i :: 0 <= i < |s| ==> 'A' <= s[i] <= 'Z'
    ensures Upper(s) == s
  {
  }

  lemma {:induction false} PermittedAreUpper(m: string)
    requires m in PERMITTED_METHODS
    ensures Upper(m) == m
  {
    UpperFixed(m);
  }

  /** A valid event passes its own validators unchanged. */
  lemma {:induction false} ValidateKeepsValid(e: SecurityEvent)
    requires Valid(e)
    ensures Validate(e) == Ok(e)
  {
    PermittedAreUpper(e.httpMethod);
  }
}
