/** The incident lifecycle: the repository it changes, and the events the SOC
    reads it from. */
module Incidents {
  import opened Wrappers
  import opened Timestamps
  import opened Events
  import opened AssetNames

  datatype Status = Open | Triaged | Resolved

  datatype Incident = Incident(title: string, description: string, severity: Severity, status: Status,
                               reportedBy: string, assetId: int, assetName: string)

  /** What an operation needs from outside: the event's identifier and time, the
      request's correlation id, and Python's table of printable characters. */
  datatype Stamp = Stamp(eventId: string, timestamp: string, correlationId: string, known: Printability)

  // --------------------------------------------------------------------- events

  const SERVICE_NAME := "incident-service"
  const INCIDENTS_ENDPOINT := "/api/v1/incidents"
  const ENTITY_PREFIX := "incident-"

  function EntityOf(id: nat): string {
    ENTITY_PREFIX + Decimal(id)
  }

  const INCIDENT_WORD := "Incident "
  const CREATED_WORDS := " created with severity "
  const FOR_WORD := " for "

  function CreatedLead(id: nat, severity: Severity): string {
    INCIDENT_WORD + Decimal(id) + CREATED_WORDS + severity.Name() + FOR_WORD
  }

  function CreatedMessage(known: Printability, id: nat, severity: Severity, assetName: string): string {
    CreatedLead(id, severity) + ASSET_WORD + Repr(known, assetName) + "."
  }

  /** `_emit_created` */
  function CreatedEvent(s: Stamp, id: nat, i: Incident): SecurityEvent {
    SecurityEvent(s.eventId, s.timestamp, SERVICE_NAME, IncidentCreated, i.severity, Some(i.reportedBy), None,
                  INCIDENTS_ENDPOINT, "POST", 201, CreatedMessage(s.known, id, i.severity, i.assetName),
                  s.correlationId, Some(EntityOf(id)))
  }

  function EscalatedMessage(id: nat, from: Severity, to: Severity): string {
    INCIDENT_WORD + Decimal(id) + " escalated from " + from.Name() + " to " + to.Name() + "."
  }

  /** `_emit_escalated` */
  function EscalatedEvent(s: Stamp, id: nat, from: Severity, to: Severity): SecurityEvent {
    SecurityEvent(s.eventId, s.timestamp, SERVICE_NAME, IncidentEscalated, to, None, None,
                  INCIDENTS_ENDPOINT + "/" + Decimal(id) + "/severity", "PATCH", 200, EscalatedMessage(id, from, to),
                  s.correlationId, Some(EntityOf(id)))
  }

  // ------------------------------------------------------------------ operations

  /** The body of a creation request; a new incident is always open. */
  datatype Payload = Payload(title: string, description: string, severity: Severity, reportedBy: string, assetId: int)

  datatype Changes = Changes(title: Option<string>, description: Option<string>, status: Option<Status>)

  /** `HttpStatus` is asset-service's own 4xx, `NotFound` the service's 404. */
  datatype Fault = NotFound(id: nat) | HttpStatus(code: int)

  predicate Grave(s: Severity) {
    s == High || s == Critical
  }

  /** When a change of severity is worth an event. */
  predicate Escalates(from: Severity, to: Severity) {
    Grave(to) && to != from
  }

  function Changed(i: Incident, changes: Changes): Incident {
    i.(title := if changes.title.Some? then changes.title.value else i.title,
       description := if changes.description.Some? then changes.description.value else i.description,
       status := if changes.status.Some? then changes.status.value else i.status)
  }

  /** Rows by primary key, the sequence the database numbers them from, and the
      event stream. */
  datatype State = State(rows: map<nat, Incident>, nextId: nat, events: seq<SecurityEvent>)

  datatype Operation =
    | Create(payload: Payload, asset: Result<string, int>)
    | Update(id: nat, changes: Changes)
    | ChangeSeverity(id: nat, to: Severity)
    | Delete(id: nat)

  function NewIncident(payload: Payload, assetName: string): Incident {
    Incident(payload.title, payload.description, payload.severity, Open, payload.reportedBy, payload.assetId, assetName)
  }

  /** What one operation leaves behind; refused operations change nothing. */
  function After(st: State, op: Operation, s: Stamp): State {
    match op
    case Create(payload, asset) =>
      if asset.Err? then st
      else
        var i := NewIncident(payload, asset.value);
        State(st.rows[st.nextId := i], st.nextId + 1, st.events + [CreatedEvent(s, st.nextId, i)])
    case Update(id, changes) =>
      if id !in st.rows then st else st.(rows := st.rows[id := Changed(st.rows[id], changes)])
    case ChangeSeverity(id, to) =>
      if id !in st.rows then st
      else
        var from := st.rows[id].severity;
        State(st.rows[id := st.rows[id].(severity := to)], st.nextId,
              st.events + if Escalates(from, to) then [EscalatedEvent(s, id, from, to)] else [])
    case Delete(id) => st.(rows := st.rows - {id})
  }

  class IncidentService {
    var rows: map<nat, Incident>
    var nextId: nat
    var events: seq<SecurityEvent>

    constructor ()
      ensures Contents() == State(map[], 1, [])
    {
      rows, nextId, events := map[], 1, [];
    }

    function Contents(): State
      reads this
    {
      State(rows, nextId, events)
    }

    method CreateIncident(payload: Payload, asset: Result<string, int>, s: Stamp) returns (r: Result<Incident, Fault>)
      modifies this
      ensures Contents() == After(old(Contents()), Create(payload, asset), s)
      ensures r == match asset
                   case Err(code) => Err(HttpStatus(code))
                   case Ok(name) => Ok(NewIncident(payload, name))
    {
      hide CreatedEvent;
      if asset.Err? {
        return Err(HttpStatus(asset.error));
      }
      var incident := Incident(payload.title, payload.description, payload.severity, Open, payload.reportedBy,
                               payload.assetId, asset.value);
      var id := nextId;
      rows := rows[id := incident];
      nextId := nextId + 1;
      events := events + [CreatedEvent(s, id, incident)];
      r := Ok(incident);
    }

    method UpdateIncident(id: nat, changes: Changes, s: Stamp) returns (r: Result<Incident, Fault>)
      modifies this`rows
      ensures Contents() == After(old(Contents()), Update(id, changes), s)
      ensures r == if id in old(rows) then Ok(rows[id]) else Err(NotFound(id))
    {
      if id !in rows {
        return Err(NotFound(id));
      }
      var incident := rows[id];
      if changes.title.Some? {
        incident := incident.(title := changes.title.value);
      }
      if changes.description.Some? {
        incident := incident.(description := changes.description.value);
      }
      if changes.status.Some? {
        incident := incident.(status := changes.status.value);
      }
      rows := rows[id := incident];
      r := Ok(incident);
    }

    method MoveSeverity(id: nat, to: Severity, s: Stamp) returns (r: Result<Incident, Fault>)
      modifies this`rows, this`events
      ensures Contents() == After(old(Contents()), ChangeSeverity(id, to), s)
      ensures r == if id in old(rows) then Ok(rows[id]) else Err(NotFound(id))
    {
      hide EscalatedEvent;
      if id !in rows {
        return Err(NotFound(id));
      }
      var previous := rows[id].severity;
      rows := rows[id := rows[id].(severity := to)];
      if Grave(to) && to != previous {
        events := events + [EscalatedEvent(s, id, previous, to)];
      }
      r := Ok(rows[id]);
    }

    method DeleteIncident(id: nat, s: Stamp) returns (r: Result<(), Fault>)
      modifies this`rows
      ensures Contents() == After(old(Contents()), Delete(id), s)
      ensures r == if id in old(rows) then Ok(()) else Err(NotFound(id))
    {
      if id !in rows {
        return Err(NotFound(id));
      }
      rows := rows - {id};
      r := Ok(());
    }
  }

  // --------------------------------------------------------------------- its runs

  /** The service's state after a run of stamped operations. */
  function RunOf(ops: seq<(Operation, Stamp)>): State {
    if ops == [] then State(map[], 1, []) else After(RunOf(ops[..|ops| - 1]), ops[|ops| - 1].0, ops[|ops| - 1].1)
  }
}
