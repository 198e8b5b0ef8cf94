/** The collector's reader: a mixed log stream in, the security events out. */
module Reader {
  import opened Wrappers
  import opened Events

  // ------------------------------------------------------------ JSON and lines

  datatype Json =
    | Null
    | Bool(flag: bool)
    | Number(n: int)
    | Fraction(r: real)
    | Text(s: string)
    | Array(items: seq<Json>)
    | Object(fields: map<string, Json>)

  /** One line of the stream, after `strip` and `json.loads`. */
  datatype Line = EmptyLine | NotJson(text: string) | Decoded(json: Json)

  /** A line that claims to be an event and fails the schema. */
  datatype MalformedEvent = MalformedEvent(line: Line, cause: string)

  function Nullable(s: Option<string>): Json {
    if s.Some? then Text(s.value) else Null
  }

  /** `to_json_dict`: the thirteen camel-case keys of the schema. */
  function ToJson(e: SecurityEvent): map<string, Json> {
    map[
      "eventId" := Text(e.eventId),
      "timestamp" := Text(e.timestamp),
      "serviceName" := Text(e.serviceName),
      "eventType" := Text(e.eventType.Name()),
      "severity" := Text(e.severity.Name()),
      "userId" := Nullable(e.userId),
      "sourceIp" := Nullable(e.sourceIp),
      "endpoint" := Text(e.endpoint),
      "httpMethod" := Text(e.httpMethod),
      "statusCode" := Number(e.statusCode),
      "message" := Text(e.message),
      "correlationId" := Text(e.correlationId),
      "affectedEntity" := Nullable(e.affectedEntity)]
  }

  const ALIASES: set<string> :=
    {"eventId", "timestamp", "serviceName", "eventType", "severity", "userId", "sourceIp", "endpoint",
     "httpMethod", "statusCode", "message", "correlationId", "affectedEntity"}

  // ------------------------------------------------------------------- parsing

  function TextField(fields: map<string, Json>, key: string): Result<string, string> {
    if key in fields && fields[key].Text? then Ok(fields[key].s) else Err(key)
  }

  /** An optional field may be absent or null; anything else must be text. */
  function NullableField(fields: map<string, Json>, key: string): Result<Option<string>, string> {
    if key !in fields || fields[key].Null? then Ok(None)
    else if fields[key].Text? then Ok(Some(fields[key].s))
    else Err(key)
  }

  function NumberField(fields: map<string, Json>, key: string): Result<int, string> {
    if key in fields && fields[key].Number? then Ok(fields[key].n) else Err(key)
  }

  /** The member of an enumeration that carries this value. */
  function SeverityNamed(name: string, among: seq<Severity>): Result<Severity, string> {
    if among == [] then Err("severity")
    else if among[0].Name() == name then Ok(among[0])
    else SeverityNamed(name, among[1..])
  }

  function EventTypeNamed(name: string, among: seq<EventType>): Result<EventType, string> {
    if among == [] then Err("eventType")
    else if among[0].Name() == name then Ok(among[0])
    else EventTypeNamed(name, among[1..])
  }

  /** `SecurityEvent.model_validate` on an object whose keys are all known. */
  function FromJson(fields: map<string, Json>): (r: Result<SecurityEvent, string>)
    ensures r.Ok? ==> Valid(r.value)
  {
    var eventId :- TextField(fields, "eventId");
    var timestamp :- TextField(fields, "timestamp");
    var serviceName :- TextField(fields, "serviceName");
    var typeName :- TextField(fields, "eventType");
    var eventType :- EventTypeNamed(typeName, ALL_EVENT_TYPES);
    var severityName :- TextField(fields, "severity");
    var severity :- SeverityNamed(severityName, ALL_SEVERITIES);
    var userId :- NullableField(fields, "userId");
    var sourceIp :- NullableField(fields, "sourceIp");
    var endpoint :- TextField(fields, "endpoint");
    var httpMethod :- TextField(fields, "httpMethod");
    var statusCode :- NumberField(fields, "statusCode");
    var message :- TextField(fields, "message");
    var correlationId :- TextField(fields, "correlationId");
    var affectedEntity :- NullableField(fields, "affectedEntity");
    Validate(SecurityEvent(eventId, timestamp, serviceName, eventType, severity, userId, sourceIp,
                           endpoint, httpMethod, statusCode, message, correlationId, affectedEntity))
  }

  /** The marker that separates an event from an application log line. */
  predicate Marked(line: Line) {
    line.Decoded? && line.json.Object? && "eventType" in line.json.fields
  }

  /** `parse_event_line`: `Ok(None)` skips the line, `Err` is the raise. */
  function ParseEventLine(line: Line): (r: Result<Option<SecurityEvent>, MalformedEvent>)
    ensures r == Ok(None) <==> !Marked(line)
    ensures r.Ok? && r.value.Some? ==> Valid(r.value.value)
  {
    if !Marked(line) then Ok(None)
    else if !(line.json.fields.Keys <= ALIASES) then Err(MalformedEvent(line, "non-schema keys"))
    else
      match FromJson(line.json.fields)
      case Err(field) => Err(MalformedEvent(line, field))
      case Ok(event) => Ok(Some(event))
  }

  /** What a consumer of the generator sees: the events yielded, then either
      the end of the stream or the exception that cut it off. */
  datatype Stream = Stream(events: seq<SecurityEvent>, failure: Option<MalformedEvent>)

  /** `stream_events` */
  function StreamEvents(lines: seq<Line>): Stream {
    if lines == [] then Stream([], None)
    else
      match ParseEventLine(lines[0])
      case Err(malformed) => Stream([], Some(malformed))
      case Ok(None) => StreamEvents(lines[1..])
      case Ok(Some(event)) =>
        var rest := StreamEvents(lines[1..]);
        rest.(events := [event] + rest.events)
  }

  // --------------------------------------------------------------- round trips

  lemma {:induction false} SeverityNames(s: Severity, i: nat)
    requires i <= |ALL_SEVERITIES| && s in ALL_SEVERITIES[i..]
    ensures SeverityNamed(s.Name(), ALL_SEVERITIES[i..]) == Ok(s)
    decreases |ALL_SEVERITIES| - i
  {
    var among := ALL_SEVERITIES[i..];
    if among[0] != s {
      assert |among[0].Name()| != |s.Name()|;
      assert among[1..] == ALL_SEVERITIES[i + 1..];
      SeverityNames(s, i + 1);
    }
  }

  /** No two event types print alike. */
  lemma {:induction false} EventTypeNamesDiffer(a: EventType, b: EventType)
    requires a != b
    ensures a.Name() != b.Name()
  {
  }

  lemma {:induction false} EventTypeNames(t: EventType, i: nat)
    requires i <= |ALL_EVENT_TYPES| && t in ALL_EVENT_TYPES[i..]
    ensures EventTypeNamed(t.Name(), ALL_EVENT_TYPES[i..]) == Ok(t)
    decreases |ALL_EVENT_TYPES| - i
  {
    var among := ALL_EVENT_TYPES[i..];
    if among[0] != t {
      EventTypeNamesDiffer(among[0], t);
      assert among[1..] == ALL_EVENT_TYPES[i + 1..];
      EventTypeNames(t, i + 1);
    }
  }

  function Render(e: SecurityEvent): Line {
    Decoded(Object(ToJson(e)))
  }

  /** Reading undoes rendering. */
  lemma {:induction false} ParseUndoesRender(e: SecurityEvent)
    requires Valid(e)
    ensures ParseEventLine(Render(e)) == Ok(Some(e))
  {
    EveryNameIsRead(e);
    ValidateKeepsValid(e);
    FieldsOfJson(e);
    FromJsonBuilds(ToJson(e), e);
  }

  lemma {:induction false} FieldsOfJson(e: SecurityEvent)
    ensures HoldsFields(ToJson(e), e)
    ensures "eventType" in ToJson(e)
    ensures ToJson(e).Keys <= ALIASES
  {
    hide ToJson, TextField, NullableField, NumberField;
    TextsOfJson(e);
    OthersOfJson(e);
    KeysOfJson(e);
  }

  lemma {:induction false} TextsOfJson(e: SecurityEvent)
    ensures HoldsTexts(ToJson(e), e)
  {
  }

  lemma {:induction false} OthersOfJson(e: SecurityEvent)
    ensures HoldsOthers(ToJson(e), e)
  {
  }

  lemma {:induction false} KeysOfJson(e: SecurityEvent)
    ensures "eventType" in ToJson(e)
    ensures ToJson(e).Keys <= ALIASES
  {
  }

  predicate HoldsTexts(fields: map<string, Json>, e: SecurityEvent) {
    && TextField(fields, "eventId") == Ok(e.eventId)
    && TextField(fields, "timestamp") == Ok(e.timestamp)
    && TextField(fields, "serviceName") == Ok(e.serviceName)
    && TextField(fields, "endpoint") == Ok(e.endpoint)
    && TextField(fields, "httpMethod") == Ok(e.httpMethod)
    && TextField(fields, "message") == Ok(e.message)
    && TextField(fields, "correlationId") == Ok(e.correlationId)
  }

  predicate HoldsOthers(fields: map<string, Json>, e: SecurityEvent) {
    && TextField(fields, "eventType") == Ok(e.eventType.Name())
    && TextField(fields, "severity") == Ok(e.severity.Name())
    && NullableField(fields, "userId") == Ok(e.userId)
    && NullableField(fields, "sourceIp") == Ok(e.sourceIp)
    && NumberField(fields, "statusCode") == Ok(e.statusCode)
    && NullableField(fields, "affectedEntity") == Ok(e.affectedEntity)
  }

  predicate HoldsFields(fields: map<string, Json>, e: SecurityEvent) {
    HoldsTexts(fields, e) && HoldsOthers(fields, e)
  }

  lemma {:induction false} FromJsonBuilds(fields: map<string, Json>, e: SecurityEvent)
    requires HoldsFields(fields, e)
    requires EventTypeNamed(e.eventType.Name(), ALL_EVENT_TYPES) == Ok(e.eventType)
    requires SeverityNamed(e.severity.Name(), ALL_SEVERITIES) == Ok(e.severity)
    ensures FromJson(fields) == Validate(e)
  {
  }

  lemma {:induction false} EventTypeListed(t: EventType)
    ensures t in ALL_EVENT_TYPES
  {
    var all := ALL_EVENT_TYPES;
    match t
    case AuthSuccess => assert all[0] == t;
    case AuthFailed => assert all[1] == t;
    case UnauthorisedAccess => assert all[2] == t;
    case RateLimitExceeded => assert all[3] == t;
    case RequestReceived => assert all[4] == t;
    case RequestCompleted => assert all[5] == t;
    case IncidentCreated => assert all[6] == t;
    case IncidentEscalated => assert all[7] == t;
    case AssetAccessed => assert all[8] == t;
    case DependencyFailure => assert all[9] == t;
    case CircuitOpened => assert all[10] == t;
    case CircuitClosed => assert all[11] == t;
    case ServiceError => assert all[12] == t;
    case HealthCheckFailed => assert all[13] == t;
  }

  lemma {:induction false} NamedSeverity(name: string, among: seq<Severity>)
    ensures SeverityNamed(name, among).Ok? ==> SeverityNamed(name, among).value.Name() == name
  {
    hide Severity.Name;
    if among != [] {
      NamedSeverity(name, among[1..]);
    }
  }

  lemma {:induction false} NamedEventType(name: string, among: seq<EventType>)
    ensures EventTypeNamed(name, among).Ok? ==> EventTypeNamed(name, among).value.Name() == name
  {
    hide EventType.Name;
    if among != [] {
      NamedEventType(name, among[1..]);
    }
  }

  /** What an accepted object holds. */
  lemma {:induction false} FromJsonReads(fields: map<string, Json>) returns (raw: SecurityEvent)
    requires FromJson(fields).Ok?
    ensures HoldsFields(fields, raw) && FromJson(fields) == Validate(raw)
  {
    hide TextField, NullableField, NumberField, Severity.Name, EventType.Name, Validate, SeverityNamed,
      EventTypeNamed;
    var typeName, severityName := TextField(fields, "eventType").value, TextField(fields, "severity").value;
    NamedEventType(typeName, ALL_EVENT_TYPES);
    NamedSeverity(severityName, ALL_SEVERITIES);
    raw := SecurityEvent(
      TextField(fields, "eventId").value, TextField(fields, "timestamp").value, TextField(fields, "serviceName").value,
      EventTypeNamed(typeName, ALL_EVENT_TYPES).value, SeverityNamed(severityName, ALL_SEVERITIES).value,
      NullableField(fields, "userId").value, NullableField(fields, "sourceIp").value,
      TextField(fields, "endpoint").value, TextField(fields, "httpMethod").value,
        NumberField(fields, "statusCode").value,
      TextField(fields, "message").value, TextField(fields, "correlationId").value,
      NullableField(fields, "affectedEntity").value);
  }

  /** An object is accepted as `e` exactly when its fields are those of an event that
      the schema accepts as `e`. */
  lemma {:induction false} FromJsonIff(fields: map<string, Json>, e: SecurityEvent)
    ensures FromJson(fields) == Ok(e) <==> exists raw :: HoldsFields(fields, raw) && Validate(raw) == Ok(e)
  {
    hide FromJson, HoldsFields, Validate, Severity.Name, EventType.Name;
    if FromJson(fields) == Ok(e) {
      var raw := FromJsonReads(fields);
    }
    if raw :| HoldsFields(fields, raw) && Validate(raw) == Ok(e) {
      EveryNameIsRead(raw);
      FromJsonBuilds(fields, raw);
    }
  }

  lemma {:induction false} EveryNameIsRead(e: SecurityEvent)
    ensures EventTypeNamed(e.eventType.Name(), ALL_EVENT_TYPES) == Ok(e.eventType)
    ensures SeverityNamed(e.severity.Name(), ALL_SEVERITIES) == Ok(e.severity)
  {
    assert ALL_SEVERITIES[0..] == ALL_SEVERITIES && ALL_EVENT_TYPES[0..] == ALL_EVENT_TYPES;
    SeverityListed(e.severity);
    SeverityNames(e.severity, 0);
    EventTypeListed(e.eventType);
    EventTypeNames(e.eventType, 0);
  }

  lemma {:induction false} SeverityListed(s: Severity)
    ensures s in ALL_SEVERITIES
  {
    match s
    case Low => assert ALL_SEVERITIES[0] == s;
    case Medium => assert ALL_SEVERITIES[1] == s;
    case High => assert ALL_SEVERITIES[2] == s;
    case Critical => assert ALL_SEVERITIES[3] == s;
  }

  /** Whatever the reader accepts it would accept again from its own rendering. */
  lemma {:induction false} AcceptedEventsRoundTrip(line: Line, e: SecurityEvent)
    requires ParseEventLine(line) == Ok(Some(e))
    ensures Valid(e) && ParseEventLine(Render(e)) == Ok(Some(e))
  {
    ParseUndoesRender(e);
  }

  /** A stream as its producers wrote it: events, and everything else. */
  datatype Item = Emitted(event: SecurityEvent) | Noise(line: Line)

  predicate WellFormed(item: Item) {
    match item
    case Emitted(event) => Valid(event)
    case Noise(line) => !Marked(line)
  }

  function Written(items: seq<Item>): seq<Line> {
    if items == [] then []
    else [if items[0].Emitted? then Render(items[0].event) else items[0].line] + Written(items[1..])
  }

  function EmittedEvents(items: seq<Item>): seq<SecurityEvent> {
    if items == [] then []
    else (if items[0].Emitted? then [items[0].event] else []) + EmittedEvents(items[1..])
  }

  /** Any interleaving of events with blank lines, other text and log records
      reads back as exactly the events, in order. */
  lemma {:induction false} StreamUndoesWriting(items: seq<Item>)
    requires forall i :: 0 <= i < |items| ==> WellFormed(items[i])
    ensures StreamEvents(Written(items)) == Stream(EmittedEvents(items), None)
  {
    if items != [] {
      var lines := Written(items);
      assert lines[1..] == Written(items[1..]);
      assert WellFormed(items[0]);
      if items[0].Emitted? {
        ParseUndoesRender(items[0].event);
      }
      StreamUndoesWriting(items[1..]);
    }
  }

  /** The first marked line that fails the schema ends the stream with its own
      error, whatever follows it; the events before it were yielded. */
  lemma {:induction false} FirstMalformedLineFails(before: seq<Line>, bad: Line, after: seq<Line>)
    requires StreamEvents(before).failure.None?
    requires ParseEventLine(bad).Err?
    ensures StreamEvents(before + [bad] + after)
      == Stream(StreamEvents(before).events, Some(ParseEventLine(bad).error))
  {
    var lines := before + [bad] + after;
    if before == [] {
      assert lines[0] == bad;
    } else {
      assert lines[0] == before[0] && lines[1..] == before[1..] + [bad] + after;
      FirstMalformedLineFails(before[1..], bad, after);
    }
  }

  /** A stream is cut off exactly when some marked line in it is malformed. */
  lemma {:induction false} StreamFailsIffMalformed(lines: seq<Line>)
    ensures StreamEvents(lines).failure.Some?
      <==> exists i :: 0 <= i < |lines| && ParseEventLine(lines[i]).Err?
  {
    if lines != [] {
      StreamFailsIffMalformed(lines[1..]);
      if StreamEvents(lines[1..]).failure.Some? {
        var i :| 0 <= i < |lines[1..]| && ParseEventLine(lines[1..][i]).Err?;
        assert ParseEventLine(lines[i + 1]).Err?;
      } else {
        assert forall i :: 0 < i < |lines| ==> lines[i] == lines[1..][i - 1];
      }
    }
  }

  // ------------------------------------------------- what is accepted, literally

  /** The word of the schema for each kind of event. */
  ghost predicate TypeWord(word: string, t: EventType) {
    || (word == "AUTH_SUCCESS" && t == AuthSuccess)
    || (word == "AUTH_FAILED" && t == AuthFailed)
    || (word == "UNAUTHORISED_ACCESS" && t == UnauthorisedAccess)
    || (word == "RATE_LIMIT_EXCEEDED" && t == RateLimitExceeded)
    || (word == "REQUEST_RECEIVED" && t == RequestReceived)
    || (word == "REQUEST_COMPLETED" && t == RequestCompleted)
    || (word == "INCIDENT_CREATED" && t == IncidentCreated)
    || (word == "INCIDENT_ESCALATED" && t == IncidentEscalated)
    || (word == "ASSET_ACCESSED" && t == AssetAccessed)
    || (word == "DEPENDENCY_FAILURE" && t == DependencyFailure)
    || (word == "CIRCUIT_OPENED" && t == CircuitOpened)
    || (word == "CIRCUIT_CLOSED" && t == CircuitClosed)
    || (word == "SERVICE_ERROR" && t == ServiceError)
    || (word == "HEALTH_CHECK_FAILED" && t == HealthCheckFailed)
  }

  ghost predicate SeverityWord(word: string, s: Severity) {
    || (word == "LOW" && s == Low)
    || (word == "MEDIUM" && s == Medium)
    || (word == "HIGH" && s == High)
    || (word == "CRITICAL" && s == Critical)
  }

  ghost predicate TextAt(fields: map<string, Json>, key: string, s: string) {
    key in fields && fields[key] == Text(s)
  }

  ghost predicate TextOrNullAt(fields: map<string, Json>, key: string, s: Option<string>) {
    match s
    case Some(text) => TextAt(fields, key, text)
    case None => key !in fields || fields[key] == Null
  }

  /** `typed` is `verb`, some of its letters in lower case. */
  ghost predicate SameButCase(typed: string, verb: string) {
    |typed| == |verb| && forall i :: 0 <= i < |typed| ==>
                                         typed[i] == verb[i] || typed[i] as int == verb[i] as int + 32
  }

  /** Some character is no whitespace. */
  ghost predicate Visible(s: string) {
    exists c :: c in s
      && c as int !in {9, 10, 11, 12, 13, 28, 29, 30, 31, 32, 0x85, 0xA0, 0x1680, 0x2000, 0x2001, 0x2002, 0x2003,
                       0x2004, 0x2005, 0x2006, 0x2007, 0x2008, 0x2009, 0x200A, 0x2028, 0x2029, 0x202F, 0x205F, 0x3000}
  }

  lemma {:induction false} VisibleIff(s: string)
    ensures Visible(s) <==> !Blank(s)
  {
  }

  ghost predicate NamesKind(fields: map<string, Json>, e: SecurityEvent) {
    && (exists word :: TextAt(fields, "eventType", word) && TypeWord(word, e.eventType))
    && (exists word :: TextAt(fields, "severity", word) && SeverityWord(word, e.severity))
  }

  ghost predicate NamesRequest(fields: map<string, Json>, e: SecurityEvent) {
    && TextAt(fields, "serviceName", e.serviceName)
    && e.serviceName in {"auth-service", "incident-service", "asset-service", "api-gateway"}
    && TextAt(fields, "endpoint", e.endpoint) && Visible(e.endpoint)
    && (exists typed :: TextAt(fields, "httpMethod", typed) && SameButCase(typed, e.httpMethod))
    && e.httpMethod in {"GET", "POST", "PUT", "PATCH", "DELETE", "HEAD", "OPTIONS"}
    && "statusCode" in fields && fields["statusCode"] == Number(e.statusCode) && 100 <= e.statusCode <= 599
  }

  ghost predicate NamesRest(fields: map<string, Json>, e: SecurityEvent) {
    && TextAt(fields, "eventId", e.eventId) && |e.eventId| == 16 && e.eventId[..4] == "evt-"
    && (forall i :: 4 <= i < 16 ==> '0' <= e.eventId[i] <= '9' || 'a' <= e.eventId[i] <= 'f')
    && TextAt(fields, "timestamp", e.timestamp)
    && TextAt(fields, "message", e.message) && Visible(e.message)
    && TextAt(fields, "correlationId", e.correlationId) && Visible(e.correlationId)
    && TextOrNullAt(fields, "userId", e.userId) && TextOrNullAt(fields, "sourceIp", e.sourceIp)
    && TextOrNullAt(fields, "affectedEntity", e.affectedEntity)
  }

  lemma {:induction false} TypeWordIsName(word: string, t: EventType)
    ensures TypeWord(word, t) <==> word == t.Name()
  {
  }

  lemma {:induction false} SeverityWordIsName(word: string, s: Severity)
    ensures SeverityWord(word, s) <==> word == s.Name()
  {
  }

  lemma {:induction false} UpperIff(typed: string, verb: string)
    requires verb in PERMITTED_METHODS
    ensures Upper(typed) == verb <==> SameButCase(typed, verb)
  {
    MethodLetters(verb);
    if Upper(typed) == verb {
      forall i | 0 <= i < |typed|
        ensures typed[i] == verb[i] || typed[i] as int == verb[i] as int + 32
      {
        assert verb[i] == UpperChar(typed[i]);
      }
    }
    if SameButCase(typed, verb) {
      assert forall i :: 0 <= i < |typed| ==> Upper(typed)[i] == verb[i];
    }
  }

  lemma {:induction false} MethodLetters(verb: string)
    requires verb in PERMITTED_METHODS
    ensures forall i :: 0 <= i < |verb| ==> 'A' <= verb[i] <= 'Z'
  {
  }

  lemma {:induction false} IdentifierIff(id: string)
    ensures IdentifierIn("evt-", id)
      <==> |id| == 16 && id[..4] == "evt-"
           && forall i :: 4 <= i < 16 ==> '0' <= id[i] <= '9' || 'a' <= id[i] <= 'f'
  {
    if |id| == 16 {
      assert forall i :: 4 <= i < 16 ==> id[i] == id[4..][i - 4] && id[i] in id[4..];
      assert "evt-" <= id <==> id[..4] == "evt-";
    }
  }

  /** An object is accepted as the event `e` exactly when each of its keys holds that
      field of `e`, words, identifier, method and status as the schema has them. */
  lemma {:induction false} AcceptedIff(line: Line, e: SecurityEvent)
    ensures ParseEventLine(line) == Ok(Some(e))
      <==> line.Decoded? && line.json.Object?
           && line.json.fields.Keys
              <= {"eventId", "timestamp", "serviceName", "eventType", "severity", "userId", "sourceIp", "endpoint",
                  "httpMethod", "statusCode", "message", "correlationId", "affectedEntity"}
           && NamesKind(line.json.fields, e) && NamesRequest(line.json.fields, e) && NamesRest(line.json.fields, e)
  {
    if line.Decoded? && line.json.Object? {
      FieldsIff(line.json.fields, e);
    }
  }

  lemma {:induction false} FieldsIff(fields: map<string, Json>, e: SecurityEvent)
    ensures FromJson(fields) == Ok(e) <==> NamesKind(fields, e) && NamesRequest(fields, e) && NamesRest(fields, e)
  {
    hide FromJson;
    FromJsonIff(fields, e);
    if raw :| HoldsFields(fields, raw) && Validate(raw) == Ok(e) {
      AcceptedNames(fields, raw, e);
    }
    if NamesKind(fields, e) && NamesRequest(fields, e) && NamesRest(fields, e) {
      var typed :| TextAt(fields, "httpMethod", typed) && SameButCase(typed, e.httpMethod);
      NamedIsAccepted(fields, e.(httpMethod := typed), e);
    }
  }

  lemma {:induction false} AcceptedNames(fields: map<string, Json>, raw: SecurityEvent, e: SecurityEvent)
    requires HoldsFields(fields, raw) && Validate(raw) == Ok(e)
    ensures NamesKind(fields, e) && NamesRequest(fields, e) && NamesRest(fields, e)
  {
    hide EventType.Name, Severity.Name, TypeWord, SeverityWord, Upper, SameButCase, IdentifierIn, Blank, Visible;
    TypeWordIsName(raw.eventType.Name(), e.eventType);
    SeverityWordIsName(raw.severity.Name(), e.severity);
    assert TextAt(fields, "eventType", raw.eventType.Name()) && TextAt(fields, "severity", raw.severity.Name());
    UpperIff(raw.httpMethod, e.httpMethod);
    assert TextAt(fields, "httpMethod", raw.httpMethod);
    VisibleIff(e.endpoint);
    VisibleIff(e.message);
    VisibleIff(e.correlationId);
    IdentifierIff(e.eventId);
  }

  lemma {:induction false} NamedIsAccepted(fields: map<string, Json>, raw: SecurityEvent, e: SecurityEvent)
    requires NamesKind(fields, e) && NamesRequest(fields, e) && NamesRest(fields, e)
    requires raw == e.(httpMethod := raw.httpMethod)
    requires TextAt(fields, "httpMethod", raw.httpMethod) && SameButCase(raw.httpMethod, e.httpMethod)
    ensures HoldsFields(fields, raw) && Validate(raw) == Ok(e)
  {
    hide EventType.Name, Severity.Name, TypeWord, SeverityWord, Upper, SameButCase, IdentifierIn, Blank, Visible;
    forall word: string
      ensures TypeWord(word, e.eventType) <==> word == e.eventType.Name()
      ensures SeverityWord(word, e.severity) <==> word == e.severity.Name()
    {
      TypeWordIsName(word, e.eventType);
      SeverityWordIsName(word, e.severity);
    }
    UpperIff(raw.httpMethod, e.httpMethod);
    VisibleIff(e.endpoint);
    VisibleIff(e.message);
    VisibleIff(e.correlationId);
    IdentifierIff(e.eventId);
  }
}
