/** Source 2 of the graph: the collected events, the alerts raised on them, and
    the incidents they report. */
module LoadEvents {
  import opened Wrappers
  import opened Sequences
  import opened Strings
  import opened Timestamps
  import opened Events
  import opened EventStores
  import opened Alerts
  import opened Graphs
  import Topology
  import Rules

  // ------------------------------------------------------------- messages, paths

  const ASSET_QUOTED := "asset '"

  /** The run of characters before the next quote, if a quote does follow. */
  function QuotedRun(s: string): Option<string> {
    if s == "" then None
    else if s[0] == '\'' then Some("")
    else
      match QuotedRun(s[1..])
      case None => None
      case Some(run) => Some([s[0]] + run)
  }

  /** `re.search(r"asset '([^']+)'", message)`: the first place where the words
      are followed by a quoted run that is not empty. */
  function AssetNamedIn(message: string): Option<string> {
    if message == "" then None
    else if ASSET_QUOTED <= message && Truthy(QuotedRun(message[|ASSET_QUOTED|..])) then
      QuotedRun(message[|ASSET_QUOTED|..])
    else AssetNamedIn(message[1..])
  }

  const KNOWN_ENDPOINTS: seq<string> :=
    [Topology.LOGIN_PATH, Topology.VERIFY_PATH, Topology.USERS_PATH, Topology.INCIDENTS_PATH, Topology.ASSETS_PATH]

  /** The longest of these that prefixes the path, if any does. */
  function LongestPrefix(known: seq<string>, path: string): (stem: Option<string>)
    ensures stem.Some? ==> stem.value in known && stem.value <= path
    ensures forall k :: k in known && k <= path ==> stem.Some? && |k| <= |stem.value|
  {
    if known == [] then None
    else
      var first, rest := known[0], LongestPrefix(known[1..], path);
      if first <= path && (rest.None? || |first| >= |rest.value|) then Some(first) else rest
  }

  /** `_endpoint_stem` */
  function EndpointStem(path: string): (stem: string)
    ensures stem <= path
    ensures stem == path || stem in KNOWN_ENDPOINTS
    ensures forall k :: k in KNOWN_ENDPOINTS && k <= path ==> |k| <= |stem|
  {
    match LongestPrefix(KNOWN_ENDPOINTS, path)
    case Some(known) => known
    case None => path
  }

  // --------------------------------------------------------------- stable identity

  /** What a firing's identifier is derived from; the description is not in it. */
  datatype Material = Material(rule: Rule, service: string, user: string, entity: string, related: seq<string>)

  /** The first twelve hexadecimal characters of the SHA-1 of the material. */
  type Digest = Material -> string

  function OrEmpty(s: Option<string>): string {
    if s.Some? then s.value else ""
  }

  function MaterialOf(a: Alert): Material {
    Material(a.rule, OrEmpty(a.affectedService), OrEmpty(a.affectedUser), OrEmpty(a.affectedEntity),
             Sort(Order(), a.relatedEvents))
  }

  function StableAlertId(digest: Digest, a: Alert): string {
    "alt-" + digest(MaterialOf(a))
  }

  function Rekeyed(digest: Digest): Alert -> Alert {
    (a: Alert) => a.(alertId := StableAlertId(digest, a))
  }

  /** `with_stable_ids` */
  function WithStableIds(digest: Digest, alerts: seq<Alert>): (keyed: seq<Alert>)
    ensures |keyed| == |alerts|
  {
    Map(Rekeyed(digest), alerts)
  }

  // ---------------------------------------------------------------------- writes

  function Tagged(statement: Statement): Write {
    Write(statement, LiveEvents)
  }

  function Nullable(s: Option<string>): Value {
    if s.Some? then Text(s.value) else Absent
  }

  function EventKey(id: string): NodeKey {
    NodeKey(Event, id)
  }

  function AlertKey(id: string): NodeKey {
    NodeKey(Label.Alert, id)
  }

  function IncidentKey(id: string): NodeKey {
    NodeKey(Incident, id)
  }

  function EventNode(e: SecurityEvent): Write {
    Tagged(MergeSet(EventKey(e.eventId), map[
      PTimestamp := Text(e.timestamp), PServiceName := Text(e.serviceName), PEventType := Text(e.eventType.Name()),
      PSeverity := Text(e.severity.Name()), PEndpoint := Text(e.endpoint), PHttpMethod := Text(e.httpMethod),
      PStatusCode := Number(e.statusCode), PMessage := Text(e.message), PCorrelationId := Text(e.correlationId),
      PUserId := Nullable(e.userId), PSourceIp := Nullable(e.sourceIp)]))
  }

  /** The asset a read of a critical asset names. */
  function AssetRead(e: SecurityEvent): Option<string> {
    if e.eventType == AssetAccessed then AssetNamedIn(e.message) else None
  }

  function AccessWrites(e: SecurityEvent): seq<Write> {
    if Truthy(AssetRead(e)) then
      [Tagged(MergeThenLink(NodeKey(Asset, AssetRead(e).value), EventKey(e.eventId), Accessed, false))]
    else []
  }

  function UserWrites(e: SecurityEvent): seq<Write> {
    if Truthy(e.userId)
      then [Tagged(MergeThenLink(NodeKey(User, e.userId.value), EventKey(e.eventId), Triggered, true))]
    else []
  }

  /** The two links every event has. */
  function StandingLinks(e: SecurityEvent): seq<Write> {
    [Tagged(MergeThenLink(NodeKey(Service, e.serviceName), EventKey(e.eventId), GeneratedBy, false)),
     Tagged(MergeThenLink(NodeKey(Endpoint, EndpointStem(e.endpoint)), EventKey(e.eventId), Targeted, false))]
  }

  /** What an event is linked to: all MERGEd here, all linked to the event's node. */
  function EventLinks(e: SecurityEvent): seq<Write> {
    StandingLinks(e) + AccessWrites(e) + UserWrites(e)
  }

  function EventWrites(e: SecurityEvent): seq<Write> {
    [EventNode(e)] + EventLinks(e)
  }

  lemma {:induction false} EventParts(e: SecurityEvent)
    ensures EventWrites(e) == [EventNode(e)] + StandingLinks(e) + AccessWrites(e) + UserWrites(e)
  {
    hide EventNode, StandingLinks, AccessWrites, UserWrites;
  }

  lemma {:induction false} LinkParts(e: SecurityEvent, w: Write)
    requires w in EventLinks(e)
    ensures w in StandingLinks(e) || w in AccessWrites(e) || w in UserWrites(e)
  {
    hide StandingLinks, AccessWrites, UserWrites;
  }

  /** `_merge_event` */
  method MergeEvent(e: SecurityEvent) returns (writes: seq<Write>)
    ensures writes == EventWrites(e)
  {
    hide EventNode, EndpointStem, AssetNamedIn, EventWrites, EventLinks;
    var here := EventKey(e.eventId);
    writes := [EventNode(e), Tagged(MergeThenLink(NodeKey(Service, e.serviceName), here, GeneratedBy, false)),
               Tagged(MergeThenLink(NodeKey(Endpoint, EndpointStem(e.endpoint)), here, Targeted, false))];
    assert writes == [EventNode(e)] + StandingLinks(e);
    var asset := if e.eventType == AssetAccessed then AssetNamedIn(e.message) else None;
    if Truthy(asset) {
      writes := writes + [Tagged(MergeThenLink(NodeKey(Asset, asset.value), here, Accessed, false))];
    }
    assert writes == [EventNode(e)] + StandingLinks(e) + AccessWrites(e);
    if Truthy(e.userId) {
      writes := writes + [Tagged(MergeThenLink(NodeKey(User, e.userId.value), here, Triggered, true))];
    }
    EventParts(e);
  }

  function AlertNode(a: Alert): Write {
    Tagged(MergeSet(AlertKey(a.alertId), map[
      PTimestamp := Text(a.timestamp), PRuleName := RuleName(a.rule), PSeverity := Text(a.severity.Name()),
      PStatus := Text(a.status.Name()), PDescription := Summary(a.description),
      PAffectedService := Nullable(a.affectedService), PAffectedUser := Nullable(a.affectedUser),
      PAffectedEntity := Nullable(a.affectedEntity), PRecommendedAction := Action(a.rule)]))
  }

  function CitationWrite(alertId: string): string -> Write {
    (eventId: string) => Tagged(MatchLink(EventKey(eventId), AlertKey(alertId), CreatedAlert))
  }

  /** `_merge_alert` */
  function AlertWrites(a: Alert): seq<Write> {
    [AlertNode(a)] + Map(CitationWrite(a.alertId), a.relatedEvents)
  }

  method MergeAlert(a: Alert) returns (writes: seq<Write>)
    ensures writes == AlertWrites(a)
  {
    writes := [AlertNode(a)];
    for i := 0 to |a.relatedEvents|
      invariant writes == AlertWrites(a)[..i + 1]
    {
      writes := writes + [Tagged(MatchLink(EventKey(a.relatedEvents[i]), AlertKey(a.alertId), CreatedAlert))];
    }
  }

  // ------------------------------------------------------------------- incidents

  const INCIDENT_WINDOW_MINUTES := 30

  /** Which incident an event reports, if it reports one. */
  function IncidentOf(): SecurityEvent -> Option<string> {
    (e: SecurityEvent) =>
      if (e.eventType == IncidentCreated || e.eventType == IncidentEscalated) && Truthy(e.affectedEntity)
      then e.affectedEntity else None
  }

  /** `sorted(events, key=lambda e: e.timestamp)`: by the text this time. */
  function TextOrder(): (SecurityEvent, SecurityEvent) -> bool {
    (a: SecurityEvent, b: SecurityEvent) => Leq(a.timestamp, b.timestamp)
  }

  /** An incident's events in time order. */
  function ReportsOf(id: string, all: seq<SecurityEvent>): seq<SecurityEvent> {
    Filter(Rules.KeyIs(IncidentOf(), id), Sort(TextOrder(), all))
  }

  function IncidentIds(all: seq<SecurityEvent>): set<string> {
    set e | e in all && IncidentOf()(e).Some? :: IncidentOf()(e).value
  }

  /** The first creation reported, or the first report at all. */
  function CreationOf(reports: seq<SecurityEvent>): SecurityEvent
    requires reports != []
  {
    FirstCreation(reports, reports[0])
  }

  function FirstCreation(reports: seq<SecurityEvent>, otherwise: SecurityEvent): SecurityEvent {
    if reports == [] then otherwise
    else if reports[0].eventType == IncidentCreated then reports[0]
    else FirstCreation(reports[1..], otherwise)
  }

  /** The creation is the first creation reported; without one, the first report. */
  lemma {:induction false} CreationIsFirstReported(reports: seq<SecurityEvent>, i: nat)
    requires i < |reports| && forall j :: 0 <= j < i ==> reports[j].eventType != IncidentCreated
    ensures reports[i].eventType == IncidentCreated ==> CreationOf(reports) == reports[i]
    ensures (forall e :: e in reports ==> e.eventType != IncidentCreated) ==> CreationOf(reports) == reports[0]
  {
    SkipsToCreation(reports, reports[0], i);
  }

  lemma {:induction false} SkipsToCreation(reports: seq<SecurityEvent>, otherwise: SecurityEvent, i: nat)
    requires i < |reports| && forall j :: 0 <= j < i ==> reports[j].eventType != IncidentCreated
    ensures reports[i].eventType == IncidentCreated ==> FirstCreation(reports, otherwise) == reports[i]
    ensures (forall e :: e in reports ==> e.eventType != IncidentCreated)
      ==> FirstCreation(reports, otherwise) == otherwise
  {
    if i > 0 {
      assert reports[1..][i - 1] == reports[i];
      SkipsToCreation(reports[1..], otherwise, i - 1);
    } else if reports[0].eventType != IncidentCreated && |reports| > 1 {
      SkipsToCreation(reports[1..], otherwise, 0);
    }
  }

  /** `{event.event_id: time}`: of events with one id the last in time order. */
  function EventTimes(all: seq<SecurityEvent>): map<string, int> {
    if all == [] then map[]
    else EventTimes(all[..|all| - 1])[all[|all| - 1].eventId := Moment(all[|all| - 1])]
  }

  /** An identifier's time is that of the last event that carries it. */
  lemma {:induction false} TimeOfLast(all: seq<SecurityEvent>, i: nat)
    requires i < |all| && forall j :: i < j < |all| ==> all[j].eventId != all[i].eventId
    ensures all[i].eventId in EventTimes(all) && EventTimes(all)[all[i].eventId] == Moment(all[i])
    decreases |all|
  {
    hide Moment;
    if i < |all| - 1 {
      var front := all[..|all| - 1];
      assert front[i] == all[i] && forall j :: 0 <= j < |front| ==> front[j] == all[j];
      TimeOfLast(front, i);
    }
  }

  predicate InIncidentWindow(moment: int, createdAt: int) {
    createdAt - Minutes(INCIDENT_WINDOW_MINUTES) <= moment <= createdAt
  }

  /** An incident groups the HIGH and CRITICAL alerts with evidence in the half
      hour before it was raised. */
  predicate Grouped(a: Alert, createdAt: int, times: map<string, int>) {
    && (a.severity == High || a.severity == Critical)
    && exists id :: id in a.relatedEvents && id in times && InIncidentWindow(times[id], createdAt)
  }

  function ConcernsWrite(incidentId: string): SecurityEvent -> Write {
    (e: SecurityEvent) => Tagged(MatchLink(EventKey(e.eventId), IncidentKey(incidentId), Concerns))
  }

  function ContainsWrites(incidentId: string, createdAt: int, times: map<string, int>): Alert -> seq<Write> {
    (a: Alert) =>
      if Grouped(a, createdAt, times)
      then [Tagged(MatchLink(IncidentKey(incidentId), AlertKey(a.alertId), Contains))] else []
  }

  function IncidentNode(incidentId: string, created: SecurityEvent, latest: SecurityEvent): Write {
    Tagged(MergeSet(IncidentKey(incidentId), map[
      PTitle := Text(created.message), PSeverity := Text(latest.severity.Name()),
      PCreatedAt := Text(created.timestamp), PReportedBy := Nullable(created.userId)]))
  }

  function AffectsWrites(incidentId: string, created: SecurityEvent): seq<Write> {
    var asset := AssetNamedIn(created.message);
    if Truthy(asset) then
      [Tagged(MergeThenLink(NodeKey(Asset, asset.value), IncidentKey(incidentId), Affects, false))]
    else []
  }

  /** `_incident_writes` */
  function IncidentWrites(incidentId: string, reports: seq<SecurityEvent>, alerts: seq<Alert>,
                          times: map<string, int>): seq<Write>
    requires reports != []
  {
    var created := CreationOf(reports);
    [IncidentNode(incidentId, created, reports[|reports| - 1])]
    + Map(ConcernsWrite(incidentId), reports)
    + AffectsWrites(incidentId, created)
    + FlatMap(ContainsWrites(incidentId, Moment(created), times), alerts)
  }

  /** The loop over the alerts at the end of `_incident_writes`. */
  method BuildContains(incidentId: string, createdAt: int, alerts: seq<Alert>, times: map<string, int>)
    returns (writes: seq<Write>)
    ensures writes == FlatMap(ContainsWrites(incidentId, createdAt, times), alerts)
  {
    hide Grouped;
    writes := [];
    for i := 0 to |alerts|
      invariant writes == FlatMap(ContainsWrites(incidentId, createdAt, times), alerts[..i])
    {
      assert alerts[..i + 1][..i] == alerts[..i];
      if Grouped(alerts[i], createdAt, times) {
        writes := writes + [Tagged(MatchLink(IncidentKey(incidentId), AlertKey(alerts[i].alertId), Contains))];
      }
    }
    assert alerts[..|alerts|] == alerts;
  }

  method BuildIncident(incidentId: string, reports: seq<SecurityEvent>, alerts: seq<Alert>, times: map<string, int>)
    returns (writes: seq<Write>)
    requires reports != []
    ensures writes == IncidentWrites(incidentId, reports, alerts, times)
  {
    hide Moment, IncidentNode, AffectsWrites, Grouped, FlatMap;
    var created, latest := CreationOf(reports), reports[|reports| - 1];
    writes := [IncidentNode(incidentId, created, latest)];
    for i := 0 to |reports|
      invariant writes == [IncidentNode(incidentId, created, latest)] + Map(ConcernsWrite(incidentId), reports)[..i]
    {
      writes := writes + [Tagged(MatchLink(EventKey(reports[i].eventId), IncidentKey(incidentId), Concerns))];
    }
    assert Map(ConcernsWrite(incidentId), reports)[..|reports|] == Map(ConcernsWrite(incidentId), reports);
    var contained := BuildContains(incidentId, Moment(created), alerts, times);
    writes := writes + AffectsWrites(incidentId, created) + contained;
  }

  function IncidentBlock(all: seq<SecurityEvent>, alerts: seq<Alert>): string -> seq<Write> {
    (id: string) =>
      if ReportsOf(id, all) == [] then [] else IncidentWrites(id, ReportsOf(id, all), alerts, EventTimes(all))
  }

  /** Every incident the stream mentions, in the order of their ids. */
  function IncidentsWrites(all: seq<SecurityEvent>, alerts: seq<Alert>): seq<Write> {
    FlatMap(IncidentBlock(all, alerts), SortedKeys(IncidentIds(all)))
  }

  /** The whole source: events, then alerts, then incidents. */
  function EventsWrites(all: seq<SecurityEvent>, alerts: seq<Alert>): seq<Write> {
    FlatMap(EventWrites, all) + FlatMap(AlertWrites, alerts) + IncidentsWrites(all, alerts)
  }

  lemma {:induction false} TextOrderIsTotal()
    ensures TotalPreorder(TextOrder())
  {
    forall a, b
      ensures TextOrder()(a, b) || TextOrder()(b, a)
    {
      LeqTotal(a.timestamp, b.timestamp);
    }
    forall a, b, c | TextOrder()(a, b) && TextOrder()(b, c)
      ensures TextOrder()(a, c)
    {
      LeqTransitive(a.timestamp, b.timestamp, c.timestamp);
    }
  }

  /** Grouping the reports by incident finds each incident's reports. */
  lemma {:induction false} ReportsGrouped(all: seq<SecurityEvent>, grouped: map<string, seq<SecurityEvent>>)
    requires var sorted := Sort(TextOrder(), all);
      && grouped.Keys == (set e | e in sorted && IncidentOf()(e).Some? :: IncidentOf()(e).value)
      && forall s :: s in grouped ==> grouped[s] == Filter(Rules.KeyIs(IncidentOf(), s), sorted)
    ensures grouped.Keys == IncidentIds(all)
    ensures forall s :: s in grouped ==> grouped[s] == ReportsOf(s, all) && grouped[s] != []
  {
    hide TextOrder, IncidentOf, Sort, Filter;
    var sorted := Sort(TextOrder(), all);
    TextOrderIsTotal();
    SortSorts(TextOrder(), all);
    forall s | s in grouped
      ensures grouped[s] != []
    {
      FilterIn(Rules.KeyIs(IncidentOf(), s), sorted);
      assert exists e :: e in sorted && Rules.KeyIs(IncidentOf(), s)(e);
    }
  }

  method BuildEventTimes(all: seq<SecurityEvent>) returns (times: map<string, int>)
    ensures times == EventTimes(all)
  {
    hide Moment;
    times := map[];
    for i := 0 to |all|
      invariant times == EventTimes(all[..i])
    {
      assert all[..i + 1][..i] == all[..i];
      times := times[all[i].eventId := Moment(all[i])];
    }
    assert all[..|all|] == all;
  }

  /** `incidents` */
  method BuildIncidents(store: EventStore, alertStore: AlertStore) returns (r: Result<seq<Write>, Fault>)
    requires KeyedById(alertStore.alerts)
    ensures Readable(store.events) ==>
      r == Ok(IncidentsWrites(OldestFirst(store.events).value, Listing(alertStore.alerts, EVERYTHING)))
    ensures !Readable(store.events) ==> r == Err(UnreadableTimestamp)
  {
    hide ReadableEvent, Moment, TextOrder, IncidentOf, Filter, SortedKeys, Listing, IncidentWrites, ReportsOf,
      IncidentIds;
    var all :- store.AllEvents();
    var raised := Rules.GroupBy(Sort(TextOrder(), all), IncidentOf());
    ReportsGrouped(all, raised);
    var times := BuildEventTimes(all);
    var alerts := alertStore.List(EVERYTHING);
    ListingIsListing(alertStore.alerts, EVERYTHING);
    ListingUnique(alerts, Listing(alertStore.alerts, EVERYTHING), alertStore.alerts, EVERYTHING);
    var ids := SortedKeys(raised.Keys);
    var writes: seq<Write> := [];
    for i := 0 to |ids|
      invariant writes == FlatMap(IncidentBlock(all, alerts), ids[..i])
    {
      assert ids[..i + 1][..i] == ids[..i];
      var block := BuildIncident(ids[i], raised[ids[i]], alerts, times);
      writes := writes + block;
    }
    assert ids[..|ids|] == ids;
    r := Ok(writes);
  }

  /** `events` */
  method BuildEvents(store: EventStore, alertStore: AlertStore) returns (r: Result<seq<Write>, Fault>)
    requires KeyedById(alertStore.alerts)
    ensures Readable(store.events) ==>
      r == Ok(EventsWrites(OldestFirst(store.events).value, Listing(alertStore.alerts, EVERYTHING)))
    ensures !Readable(store.events) ==> r == Err(UnreadableTimestamp)
  {
    hide ReadableEvent, Moment, Listing, IncidentsWrites, EventWrites, AlertWrites, Sort, TimeOrder, IsListing,
      KeyedById;
    var all :- store.AllEvents();
    var writes: seq<Write> := [];
    for i := 0 to |all|
      invariant writes == FlatMap(EventWrites, all[..i])
    {
      assert all[..i + 1][..i] == all[..i];
      var block := MergeEvent(all[i]);
      writes := writes + block;
    }
    assert all[..|all|] == all;
    var alerts := alertStore.List(EVERYTHING);
    ListingIsListing(alertStore.alerts, EVERYTHING);
    ListingUnique(alerts, Listing(alertStore.alerts, EVERYTHING), alertStore.alerts, EVERYTHING);
    for i := 0 to |alerts|
      invariant writes == FlatMap(EventWrites, all) + FlatMap(AlertWrites, alerts[..i])
    {
      assert alerts[..i + 1][..i] == alerts[..i];
      var block := MergeAlert(alerts[i]);
      writes := writes + block;
    }
    assert alerts[..|alerts|] == alerts;
    var built := BuildIncidents(store, alertStore);
    r := Ok(writes + built.value);
  }
}
