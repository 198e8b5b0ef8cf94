/** What the graph can be trusted to say about incidents, over every run of the
    incident service. */
module IncidentTheorems {
  import opened Wrappers
  import opened Sequences
  import opened Strings
  import opened Timestamps
  import opened Events
  import opened EventStores
  import opened AssetNames
  import opened Incidents
  import opened Graphs
  import opened LoadEvents
  import opened LoadOrder
  import Alerts
  import LoadedGraph
  import RuleTheorems
  import Rules
  import Topology

  // --------------------------------------------------------------------- identity

  lemma {:induction false} DecimalInjective(m: nat, n: nat)
    requires Decimal(m) == Decimal(n)
    ensures m == n
  {
    var s, t := Decimal(m), Decimal(n);
    assert s[|s| - 1] == DigitChar(m % 10) && t[|t| - 1] == DigitChar(n % 10);
    if m >= 10 && n >= 10 {
      assert Decimal(m / 10) == s[..|s| - 1] && Decimal(n / 10) == t[..|t| - 1];
      DecimalInjective(m / 10, n / 10);
    }
  }

  lemma {:induction false} EntityInjective(a: nat, b: nat)
    requires EntityOf(a) == EntityOf(b)
    ensures a == b
  {
    assert Decimal(a) == EntityOf(a)[|ENTITY_PREFIX|..];
    assert Decimal(b) == EntityOf(b)[|ENTITY_PREFIX|..];
    DecimalInjective(a, b);
  }

  // ------------------------------------------------------------------ the invariant

  /** One incident's events, as they were emitted. */
  function ReportsIn(events: seq<SecurityEvent>, id: nat): seq<SecurityEvent> {
    Filter(Rules.KeyIs(IncidentOf(), EntityOf(id)), events)
  }

  /** The stream's account of a stored incident: it opens with the creation and
      its asset, reports none but grave severities after it, and its last word on a
      grave severity is the stored one. */
  ghost predicate Told(st: State, known: Printability, id: nat)
    requires id in st.rows
  {
    var reports, row := ReportsIn(st.events, id), st.rows[id];
    && reports != []
    && reports[0].eventType == IncidentCreated
    && (exists severity :: reports[0].message == CreatedMessage(known, id, severity, row.assetName))
    && (forall i :: 1 <= i < |reports| ==> Grave(reports[i].severity))
    && (Grave(row.severity) ==> reports[|reports| - 1].severity == row.severity)
  }

  ghost predicate Invariant(st: State, known: Printability) {
    && (forall id :: id in st.rows ==> id < st.nextId && Told(st, known, id))
    && (forall id: nat :: id >= st.nextId ==> ReportsIn(st.events, id) == [])
  }

  lemma {:induction false} ReportsAppend(events: seq<SecurityEvent>, e: SecurityEvent, owner: nat, id: nat)
    requires IncidentOf()(e) == Some(EntityOf(owner))
    ensures ReportsIn(events + [e], id) == if id == owner then ReportsIn(events, id) + [e] else ReportsIn(events, id)
  {
    hide EntityOf, Filter;
    FilterSnoc(Rules.KeyIs(IncidentOf(), EntityOf(id)), events, e);
    if EntityOf(id) == EntityOf(owner) {
      EntityInjective(id, owner);
    }
  }

  lemma {:induction false} CreationReports(s: Stamp, id: nat, i: Incident)
    ensures IncidentOf()(CreatedEvent(s, id, i)) == Some(EntityOf(id))
  {
    hide CreatedMessage, Decimal;
  }

  lemma {:induction false} EscalationReports(s: Stamp, id: nat, from: Severity, to: Severity)
    ensures IncidentOf()(EscalatedEvent(s, id, from, to)) == Some(EntityOf(id))
  {
    hide EscalatedMessage, Decimal;
  }

  lemma {:induction false} CreateKeeps(st: State, payload: Payload, name: string, s: Stamp)
    requires Invariant(st, s.known)
    ensures Invariant(After(st, Create(payload, Ok(name)), s), s.known)
  {
    hide ReportsIn, CreatedMessage, EntityOf, Grave;
    var i, after := NewIncident(payload, name), After(st, Create(payload, Ok(name)), s);
    CreationReports(s, st.nextId, i);
    forall id: nat
      ensures ReportsIn(after.events, id)
        == if id == st.nextId then ReportsIn(st.events, id) + [CreatedEvent(s, st.nextId, i)]
          else ReportsIn(st.events, id)
    {
      ReportsAppend(st.events, CreatedEvent(s, st.nextId, i), st.nextId, id);
    }
    assert ReportsIn(after.events, st.nextId) == [CreatedEvent(s, st.nextId, i)];
    assert Told(after, s.known, st.nextId);
    forall id | id in st.rows
      ensures Told(after, s.known, id)
    {
      assert Told(st, s.known, id);
    }
  }

  lemma {:induction false} MoveKeeps(st: State, id: nat, to: Severity, s: Stamp)
    requires Invariant(st, s.known) && id in st.rows
    ensures Invariant(After(st, ChangeSeverity(id, to), s), s.known)
  {
    hide ReportsIn, CreatedMessage, EntityOf, Told;
    var from, after := st.rows[id].severity, After(st, ChangeSeverity(id, to), s);
    var e := EscalatedEvent(s, id, from, to);
    EscalationReports(s, id, from, to);
    assert after.events == if Escalates(from, to) then st.events + [e] else st.events;
    forall other: nat
      ensures ReportsIn(st.events + [e], other)
        == if other == id then ReportsIn(st.events, other) + [e] else ReportsIn(st.events, other)
    {
      ReportsAppend(st.events, e, id, other);
    }
    forall other | other in after.rows
      ensures Told(after, s.known, other)
    {
      assert Told(st, s.known, other);
      StaysTold(st, after, s.known, other, e);
    }
  }

  /** A row stays told of when its reports stay, or grow by its new severity. */
  lemma {:induction false} StaysTold(st: State, after: State, known: Printability, id: nat, e: SecurityEvent)
    requires id in st.rows && id in after.rows && Told(st, known, id)
    requires after.rows[id].assetName == st.rows[id].assetName
    requires || (ReportsIn(after.events, id) == ReportsIn(st.events, id)
                 && (Grave(after.rows[id].severity) ==> after.rows[id].severity == st.rows[id].severity))
             || (ReportsIn(after.events, id) == ReportsIn(st.events, id) + [e] && e.severity == after.rows[id].severity
                 && Grave(e.severity))
    ensures Told(after, known, id)
  {
    hide ReportsIn, CreatedMessage, Grave;
    TailOfAppend(ReportsIn(st.events, id), e);
  }

  lemma {:induction false} TailOfAppend(reports: seq<SecurityEvent>, e: SecurityEvent)
    requires reports != []
    ensures (reports + [e])[0] == reports[0] && (reports + [e])[|reports + [e]| - 1] == e
  {
  }

  lemma {:induction false} StepKeeps(st: State, op: Operation, s: Stamp)
    requires Invariant(st, s.known)
    ensures Invariant(After(st, op, s), s.known)
  {
    hide ReportsIn, CreatedMessage;
    match op
    case Create(payload, asset) =>
      if asset.Ok? {
        CreateKeeps(st, payload, asset.value, s);
      }
    case ChangeSeverity(id, to) =>
      if id in st.rows {
        MoveKeeps(st, id, to, s);
      }
    case Update(id, changes) =>
      var after := After(st, op, s);
      forall other | other in after.rows
        ensures Told(after, s.known, other)
      {
        assert Told(st, s.known, other);
      }
    case Delete(id) =>
      var after := After(st, op, s);
      forall other | other in after.rows
        ensures Told(after, s.known, other)
      {
        assert Told(st, s.known, other);
      }
  }

  lemma {:induction false} RunKeeps(ops: seq<(Operation, Stamp)>, known: Printability)
    requires forall i :: 0 <= i < |ops| ==> ops[i].1.known == known
    ensures Invariant(RunOf(ops), known)
  {
    hide After, Invariant;
    if ops == [] {
      StartsTold(known);
    } else {
      RunKeeps(ops[..|ops| - 1], known);
      StepKeeps(RunOf(ops[..|ops| - 1]), ops[|ops| - 1].0, ops[|ops| - 1].1);
    }
  }

  lemma {:induction false} StartsTold(known: Printability)
    ensures Invariant(State(map[], 1, []), known)
  {
  }

  // ------------------------------------------------------------- as collected

  function IsReport(): SecurityEvent -> bool {
    (e: SecurityEvent) => IncidentOf()(e).Some?
  }

  /** The service stamped its events in time order, in text and in time. */
  ghost predicate Chronological(events: seq<SecurityEvent>) {
    Sorted(TimeOrder(), events) && Sorted(TextOrder(), events)
  }

  /** A clock that does not run backwards stamps chronologically. */
  lemma {:induction false} ClockStampsInOrder(events: seq<SecurityEvent>, times: seq<DateTime>)
    requires |times| == |events|
    requires forall i :: 0 <= i < |times| ==> times[i].Valid() && times[i].year >= 1000
    requires forall i :: 0 <= i < |times| ==> events[i].timestamp == Format(times[i])
    requires forall i, j :: 0 <= i < j < |times| ==>
      times[i].WholeSeconds().Instant() <= times[j].WholeSeconds().Instant()
    ensures Chronological(events)
  {
    hide Format, Parse, DateTime.Instant;
    forall i, j | 0 <= i < j < |events|
      ensures Moment(events[i]) <= Moment(events[j]) && Leq(events[i].timestamp, events[j].timestamp)
    {
      ParseUndoesFormat(times[i]);
      ParseUndoesFormat(times[j]);
      TextOrderIsTimeOrder(times[i], times[j]);
    }
  }

  /** The collector holds the service's reports in the order they were emitted,
      among whatever else it collected. */
  predicate CollectedAmong(es: seq<SecurityEvent>, events: seq<SecurityEvent>) {
    Filter(IsReport(), es) == Filter(IsReport(), events)
  }

  /** Sorting by time, then by text, gives an incident's reports back as they
      were emitted. */
  lemma {:induction false} ReportsAsEmitted(es: seq<SecurityEvent>, events: seq<SecurityEvent>, id: nat)
    requires CollectedAmong(es, events) && Chronological(events)
    ensures ReportsOf(EntityOf(id), Sort(TimeOrder(), es)) == ReportsIn(events, id)
  {
    hide TimeOrder, TextOrder, IncidentOf, EntityOf, Filter, Sort;
    var mine := Rules.KeyIs(IncidentOf(), EntityOf(id));
    TimeOrderIsTotal();
    TextOrderIsTotal();
    FilterSort(TextOrder(), mine, Sort(TimeOrder(), es));
    FilterSort(TimeOrder(), mine, es);
    FilterFilter(IsReport(), mine, mine, es);
    FilterFilter(IsReport(), mine, mine, events);
    FilterKeepsSorted(TimeOrder(), mine, events);
    FilterKeepsSorted(TextOrder(), mine, events);
    SortOfSorted(TimeOrder(), Filter(mine, events));
    SortOfSorted(TextOrder(), Filter(mine, events));
  }

  // -------------------------------------------------------------------- theorems

  /** The severity the graph gives an incident after loading what was collected. */
  function LoadedSeverity(es: seq<SecurityEvent>, alerts: seq<Alerts.Alert>, users: seq<Topology.SeedUser>,
                          assets: seq<Topology.SeedAsset>, id: nat): Value
  {
    Graphs.Get(RunAll(CollectedWrites(Sort(TimeOrder(), es), alerts, users, assets), EMPTY_GRAPH),
               IncidentKey(EntityOf(id)), PSeverity)
  }

  lemma {:induction false} NamesDiffer(a: Severity, b: Severity)
    requires a.Name() == b.Name()
    ensures a == b
  {
  }

  /** It is the last report's. */
  lemma {:induction false} LoadedIsLastReported(ops: seq<(Operation, Stamp)>, known: Printability, id: nat,
                                                es: seq<SecurityEvent>, alerts: seq<Alerts.Alert>,
                                                users: seq<Topology.SeedUser>, assets: seq<Topology.SeedAsset>)
    requires forall i :: 0 <= i < |ops| ==> ops[i].1.known == known
    requires CollectedAmong(es, RunOf(ops).events) && Chronological(RunOf(ops).events)
    requires id in RunOf(ops).rows
    ensures Told(RunOf(ops), known, id)
    ensures var reports := ReportsIn(RunOf(ops).events, id);
      reports != [] && LoadedSeverity(es, alerts, users, assets, id) == Text(reports[|reports| - 1].severity.Name())
  {
    hide RunOf, ReportsIn, CollectedWrites, RunAll, Chronological, CollectedAmong, EntityOf, CreatedMessage,
      ReportsOf;
    RunKeeps(ops, known);
    ReportsAsEmitted(es, RunOf(ops).events, id);
    LoadedGraph.IncidentPropertiesLoaded(Sort(TimeOrder(), es), alerts, users, assets, EntityOf(id));
  }

  /** Over every run, the graph gives a stored incident the severity it is stored with
      exactly when that is HIGH or CRITICAL, or the incident has been reported on once,
      at its creation, and still has the severity it had then. */
  lemma {:induction false} SeverityReachesGraphIff(ops: seq<(Operation, Stamp)>, known: Printability, id: nat,
                                                   es: seq<SecurityEvent>, alerts: seq<Alerts.Alert>,
                                                   users: seq<Topology.SeedUser>, assets: seq<Topology.SeedAsset>)
    requires forall i :: 0 <= i < |ops| ==> ops[i].1.known == known
    requires CollectedAmong(es, RunOf(ops).events) && Chronological(RunOf(ops).events)
    requires id in RunOf(ops).rows
    ensures var severity, reports := RunOf(ops).rows[id].severity, ReportsIn(RunOf(ops).events, id);
      LoadedSeverity(es, alerts, users, assets, id) == Text(severity.Name())
      <==> severity == High || severity == Critical || (|reports| == 1 && reports[0].severity == severity)
  {
    hide RunOf, ReportsIn, Chronological, CollectedAmong, EntityOf, CreatedMessage, LoadedSeverity, Severity.Name;
    LoadedIsLastReported(ops, known, id, es, alerts, users, assets);
    var severity, reports := RunOf(ops).rows[id].severity, ReportsIn(RunOf(ops).events, id);
    if LoadedSeverity(es, alerts, users, assets, id) == Text(severity.Name()) {
      NamesDiffer(reports[|reports| - 1].severity, severity);
    }
  }

  /** So a change of severity reaches a graph that was in step exactly when it is to a
      grave severity or is no change: a demotion below HIGH, or a rise within LOW and
      MEDIUM, leaves the graph behind. */
  lemma {:induction false} ChangeReachesGraphIff(ops: seq<(Operation, Stamp)>, known: Printability, id: nat,
                                                 to: Severity, s: Stamp, es: seq<SecurityEvent>,
                                                 later: seq<SecurityEvent>, alerts: seq<Alerts.Alert>,
                                                 users: seq<Topology.SeedUser>, assets: seq<Topology.SeedAsset>)
    requires s.known == known && forall i :: 0 <= i < |ops| ==> ops[i].1.known == known
    requires CollectedAmong(es, RunOf(ops).events) && Chronological(RunOf(ops).events)
    requires var next := RunOf(ops + [(ChangeSeverity(id, to), s)]).events;
      CollectedAmong(later, next) && Chronological(next)
    requires id in RunOf(ops).rows
    requires LoadedSeverity(es, alerts, users, assets, id) == Text(RunOf(ops).rows[id].severity.Name())
    ensures LoadedSeverity(later, alerts, users, assets, id) == Text(to.Name())
      <==> to == High || to == Critical || to == RunOf(ops).rows[id].severity
  {
    hide RunOf, ReportsIn, Chronological, CollectedAmong, EntityOf, CreatedMessage, LoadedSeverity, Severity.Name,
      EscalatedEvent, After, Told;
    var st, op := RunOf(ops), ChangeSeverity(id, to);
    NextOf(ops, op, s);
    LoadedIsLastReported(ops, known, id, es, alerts, users, assets);
    ChangeReported(st, id, to, s);
    LoadedIsLastReported(ops + [(op, s)], known, id, later, alerts, users, assets);
    var before, after := ReportsIn(st.events, id), ReportsIn(After(st, op, s).events, id);
    if before[|before| - 1].severity.Name() == st.rows[id].severity.Name() {
      NamesDiffer(before[|before| - 1].severity, st.rows[id].severity);
    }
    if after[|after| - 1].severity.Name() == to.Name() {
      NamesDiffer(after[|after| - 1].severity, to);
    }
  }

  lemma {:induction false} NextOf(ops: seq<(Operation, Stamp)>, op: Operation, s: Stamp)
    ensures RunOf(ops + [(op, s)]) == After(RunOf(ops), op, s)
  {
    hide After;
    assert (ops + [(op, s)])[..|ops|] == ops;
  }

  lemma {:induction false} ChangeReported(st: State, id: nat, to: Severity, s: Stamp)
    requires id in st.rows && ReportsIn(st.events, id) != []
    ensures var after, before := After(st, ChangeSeverity(id, to), s), ReportsIn(st.events, id);
      var reports := ReportsIn(after.events, id);
      && id in after.rows && after.rows[id].severity == to && reports != []
      && reports[|reports| - 1].severity
         == if Escalates(st.rows[id].severity, to) then to else before[|before| - 1].severity
  {
    hide ReportsIn, EntityOf;
    var e := EscalatedEvent(s, id, st.rows[id].severity, to);
    EscalationReports(s, id, st.rows[id].severity, to);
    ReportsAppend(st.events, e, id, id);
    assert After(st, ChangeSeverity(id, to), s).events
      == if Escalates(st.rows[id].severity, to) then st.events + [e] else st.events;
    TailOfAppend(ReportsIn(st.events, id), e);
  }

  /** The escalation of an incident, field by field. */
  ghost function Escalation(id: nat, from: Severity, to: Severity, s: Stamp): SecurityEvent {
    SecurityEvent(
      s.eventId, s.timestamp, "incident-service", IncidentEscalated, to, None, None,
      "/api/v1/incidents/" + Decimal(id) + "/severity", "PATCH", 200,
      "Incident " + Decimal(id) + " escalated from " + from.Name() + " to " + to.Name() + ".", s.correlationId,
      Some("incident-" + Decimal(id)))
  }

  lemma {:induction false} EscalationIs(id: nat, from: Severity, to: Severity, s: Stamp)
    ensures EscalatedEvent(s, id, from, to) == Escalation(id, from, to, s)
  {
    hide Decimal, Severity.Name;
    assert INCIDENTS_ENDPOINT + "/" == "/api/v1/incidents/";
  }

  /** INCIDENT_ESCALATED is emitted exactly on a change to HIGH or CRITICAL; a move
      down from CRITICAL to HIGH is one, and the only move down that is. */
  lemma {:induction false} EscalationEmittedIff(st: State, id: nat, to: Severity, s: Stamp)
    requires id in st.rows
    ensures var from, after := st.rows[id].severity, After(st, ChangeSeverity(id, to), s);
      && (after.events != st.events <==> (to == High || to == Critical) && to != from)
      && (after.events != st.events && to.Rank() < from.Rank() <==> from == Critical && to == High)
      && (after.events != st.events ==> after.events == st.events + [Escalation(id, from, to, s)])
  {
    hide EscalatedEvent, Escalation;
    var from := st.rows[id].severity;
    EscalationIs(id, from, to, s);
    assert |After(st, ChangeSeverity(id, to), s).events| == |st.events| + if Escalates(from, to) then 1 else 0;
  }

  lemma {:induction false} CreationIsFirst(reports: seq<SecurityEvent>)
    requires reports != [] && reports[0].eventType == IncidentCreated
    ensures CreationOf(reports) == reports[0]
  {
  }

  lemma {:induction false} LeadHasNoQuote(id: nat, severity: Severity)
    ensures '\'' !in CreatedLead(id, severity)
  {
    hide Decimal, Severity.Name;
    DecimalHasNoQuote(id);
    NameHasNoQuote(severity);
    assert '\'' !in INCIDENT_WORD && '\'' !in CREATED_WORDS && '\'' !in FOR_WORD;
  }

  lemma {:induction false} NameHasNoQuote(severity: Severity)
    ensures '\'' !in severity.Name()
  {
  }

  lemma {:induction false} DecimalHasNoQuote(n: nat)
    ensures '\'' !in Decimal(n)
  {
    if n >= 10 {
      DecimalHasNoQuote(n / 10);
    }
  }

  /** The incident's node is tied to the asset it was raised against exactly when
      that asset's name prints as it is. */
  lemma {:induction false} AssetReachesGraphIff(ops: seq<(Operation, Stamp)>, known: Printability, id: nat,
                                                es: seq<SecurityEvent>, alerts: seq<Alerts.Alert>,
                                                users: seq<Topology.SeedUser>, assets: seq<Topology.SeedAsset>)
    requires forall i :: 0 <= i < |ops| ==> ops[i].1.known == known
    requires CollectedAmong(es, RunOf(ops).events) && Chronological(RunOf(ops).events)
    requires id in RunOf(ops).rows
    requires EvidenceCollected(Sort(TimeOrder(), es), alerts) && Alerts.DistinctIds(alerts)
    ensures var name := RunOf(ops).rows[id].assetName;
      Edge(IncidentKey(EntityOf(id)), Affects, NodeKey(Asset, name))
        in RunAll(CollectedWrites(Sort(TimeOrder(), es), alerts, users, assets), EMPTY_GRAPH).edges
      <==> Plain(known, name)
  {
    hide RunOf, ReportsIn, CollectedWrites, RunAll, Chronological, CollectedAmong, EntityOf, ReportsOf,
      EvidenceCollected, Repr, Printable, AssetNamedIn, LoadedGraph.Recorded, CreatedLead, FirstCreation, Sort,
      TimeOrder, Alerts.DistinctIds;
    var st := RunOf(ops);
    var all, entity, name := Sort(TimeOrder(), es), EntityOf(id), st.rows[id].assetName;
    RunKeeps(ops, known);
    ReportsAsEmitted(es, st.events, id);
    assert Told(st, known, id);
    var reports := ReportsOf(entity, all);
    var severity :| reports[0].message == CreatedMessage(known, id, severity, name);
    CreationIsFirst(reports);
    LeadHasNoQuote(id, severity);
    PrintedNameRecoveredIff(known, CreatedLead(id, severity), name, ".");
    LoadedGraph.AffectsIff(all, alerts, users, assets, entity, name);
  }

  // ------------------------------------------------------- the creating request

  /** The operation at `i` created the incident `id`. */
  ghost predicate CreatedAt(ops: seq<(Operation, Stamp)>, i: nat, id: nat) {
    i < |ops| && ops[i].0.Create? && ops[i].0.asset.Ok? && RunOf(ops[..i]).nextId == id
  }

  /** The creation of an incident, field by field. */
  ghost function Creation(id: nat, request: Payload, assetName: string, s: Stamp): SecurityEvent {
    SecurityEvent(
      s.eventId, s.timestamp, "incident-service", IncidentCreated, request.severity, Some(request.reportedBy), None,
      "/api/v1/incidents", "POST", 201,
      "Incident " + Decimal(id) + " created with severity " + request.severity.Name() + " for asset "
        + Repr(s.known, assetName) + ".",
      s.correlationId, Some("incident-" + Decimal(id)))
  }

  ghost predicate OpensWith(ops: seq<(Operation, Stamp)>, i: nat, id: nat)
    requires CreatedAt(ops, i, id)
  {
    var reports, op := ReportsIn(RunOf(ops).events, id), ops[i].0;
    reports != [] && reports[0] == Creation(id, op.payload, op.asset.value, ops[i].1)
  }

  lemma {:induction false} CreationIs(id: nat, request: Payload, assetName: string, s: Stamp)
    ensures CreatedEvent(s, id, NewIncident(request, assetName)) == Creation(id, request, assetName, s)
  {
    hide Decimal, Repr, Severity.Name, CreatedMessage;
    TitleOf(s.known, id, request.severity, assetName);
  }

  lemma {:induction false} ReportsExtend(events: seq<SecurityEvent>, more: seq<SecurityEvent>, id: nat)
    requires ReportsIn(events, id) != []
    ensures ReportsIn(events + more, id) != [] && ReportsIn(events + more, id)[0] == ReportsIn(events, id)[0]
  {
    hide EntityOf, Filter;
    FilterConcat(Rules.KeyIs(IncidentOf(), EntityOf(id)), events, more);
  }

  lemma {:induction false} StepExtends(st: State, op: Operation, s: Stamp) returns (more: seq<SecurityEvent>)
    ensures After(st, op, s).events == st.events + more
  {
    hide CreatedEvent, EscalatedEvent, Escalates;
    more := After(st, op, s).events[|st.events|..];
  }

  /** The reports of a stored incident open with the one event of the request that
      created it. */
  lemma {:induction false} OpensWithCreation(ops: seq<(Operation, Stamp)>, known: Printability, id: nat)
    returns (i: nat)
    requires forall j :: 0 <= j < |ops| ==> ops[j].1.known == known
    requires id in RunOf(ops).rows
    ensures CreatedAt(ops, i, id) && OpensWith(ops, i, id)
  {
    hide ReportsIn, CreatedEvent, EscalatedEvent, Escalates, EntityOf, After, Told, Creation;
    var n := |ops| - 1;
    var before, op, s := RunOf(ops[..n]), ops[n].0, ops[n].1;
    RunKeeps(ops[..n], known);
    if op.Create? && op.asset.Ok? && before.nextId == id {
      i := n;
      FirstReport(before, op.payload, op.asset.value, s);
      CreationIs(id, op.payload, op.asset.value, s);
    } else {
      StoredBefore(before, op, s, id);
      i := OpensWithCreation(ops[..n], known, id);
      assert ops[..n][..i] == ops[..i];
      var more := StepExtends(before, op, s);
      ReportsExtend(before.events, more, id);
    }
  }

  lemma {:induction false} StoredBefore(st: State, op: Operation, s: Stamp, id: nat)
    requires id in After(st, op, s).rows && !(op.Create? && op.asset.Ok? && st.nextId == id)
    ensures id in st.rows
  {
    hide CreatedEvent, EscalatedEvent, Escalates;
  }

  lemma {:induction false} FirstReport(st: State, payload: Payload, name: string, s: Stamp)
    requires ReportsIn(st.events, st.nextId) == []
    ensures ReportsIn(After(st, Create(payload, Ok(name)), s).events, st.nextId)
      == [CreatedEvent(s, st.nextId, NewIncident(payload, name))]
  {
    hide ReportsIn, CreatedEvent, EntityOf;
    var i := NewIncident(payload, name);
    CreationReports(s, st.nextId, i);
    ReportsAppend(st.events, CreatedEvent(s, st.nextId, i), st.nextId, st.nextId);
  }

  /** Over every run, the loaded node of a stored incident reads as its creating request:
      who reported it, when, with which severity and against which asset. */
  lemma {:induction false} ReadsAsCreated(ops: seq<(Operation, Stamp)>, known: Printability, id: nat,
                                          es: seq<SecurityEvent>, alerts: seq<Alerts.Alert>,
                                          users: seq<Topology.SeedUser>, assets: seq<Topology.SeedAsset>)
    returns (i: nat)
    requires forall j :: 0 <= j < |ops| ==> ops[j].1.known == known
    requires CollectedAmong(es, RunOf(ops).events) && Chronological(RunOf(ops).events)
    requires id in RunOf(ops).rows
    ensures CreatedAt(ops, i, id)
    ensures var g := RunAll(CollectedWrites(Sort(TimeOrder(), es), alerts, users, assets), EMPTY_GRAPH);
      var n, request := IncidentKey("incident-" + Decimal(id)), ops[i].0.payload;
      && Graphs.Get(g, n, PReportedBy) == Text(request.reportedBy)
      && Graphs.Get(g, n, PCreatedAt) == Text(ops[i].1.timestamp)
      && Graphs.Get(g, n, PTitle)
         == Text("Incident " + Decimal(id) + " created with severity " + request.severity.Name() + " for asset "
                 + Repr(known, ops[i].0.asset.value) + ".")
  {
    hide RunOf, ReportsIn, CollectedWrites, RunAll, Chronological, CollectedAmong, ReportsOf, Repr, Decimal,
      FirstCreation, Sort, TimeOrder, Graphs.Get, Severity.Name;
    i := OpensWithCreation(ops, known, id);
    ReportsAsEmitted(es, RunOf(ops).events, id);
    CreationIsFirst(ReportsOf(EntityOf(id), Sort(TimeOrder(), es)));
    LoadedGraph.IncidentPropertiesLoaded(Sort(TimeOrder(), es), alerts, users, assets, EntityOf(id));
    TitleOf(known, id, ops[i].0.payload.severity, ops[i].0.asset.value);
  }

  lemma {:induction false} TitleOf(known: Printability, id: nat, severity: Severity, name: string)
    ensures CreatedMessage(known, id, severity, name)
      == "Incident " + Decimal(id) + " created with severity " + severity.Name() + " for asset " + Repr(known, name)
         + "."
  {
    hide Decimal, Repr, Severity.Name;
    assert FOR_WORD + ASSET_WORD == " for asset ";
  }

  // --------------------------------------------------------------- every emission

  /** Against nobody under any keying, at any moment. */
  ghost predicate NoEvidence(e: SecurityEvent) {
    forall k, s, now :: !RuleTheorems.Against(k, s, now)(e)
  }

  ghost predicate UsableStamp(s: Stamp) {
    IdentifierIn("evt-", s.eventId) && !Blank(s.correlationId)
  }

  lemma {:induction false} CreationIsValid(s: Stamp, id: nat, i: Incident)
    requires UsableStamp(s)
    ensures Valid(CreatedEvent(s, id, i)) && NoEvidence(CreatedEvent(s, id, i))
  {
    hide Decimal, Repr, Severity.Name, Blank, IdentifierIn;
    var e := CreatedEvent(s, id, i);
    NotBlank(e.message);
    NotBlank(e.endpoint);
  }

  lemma {:induction false} EscalationIsValid(s: Stamp, id: nat, from: Severity, to: Severity)
    requires UsableStamp(s)
    ensures Valid(EscalatedEvent(s, id, from, to)) && NoEvidence(EscalatedEvent(s, id, from, to))
  {
    hide Decimal, Severity.Name, Blank, IdentifierIn;
    var e := EscalatedEvent(s, id, from, to);
    NotBlank(e.message);
    NotBlank(e.endpoint);
  }

  /** Whatever a run emits passes the event schema and is evidence for no rule: keeping
      incidents never raises an alert. */
  lemma {:induction false} EmissionsAreValid(ops: seq<(Operation, Stamp)>)
    requires forall i :: 0 <= i < |ops| ==> UsableStamp(ops[i].1)
    ensures forall e :: e in RunOf(ops).events ==> Valid(e) && NoEvidence(e)
  {
    hide CreatedEvent, EscalatedEvent, Escalates, NoEvidence, Valid, UsableStamp;
    if ops != [] {
      var front, op, s := ops[..|ops| - 1], ops[|ops| - 1].0, ops[|ops| - 1].1;
      EmissionsAreValid(front);
      var st := RunOf(front);
      match op
      case Create(payload, asset) =>
        if asset.Ok? {
          CreationIsValid(s, st.nextId, NewIncident(payload, asset.value));
        }
      case ChangeSeverity(id, to) =>
        if id in st.rows {
          EscalationIsValid(s, id, st.rows[id].severity, to);
        }
      case _ =>
    }
  }
}
