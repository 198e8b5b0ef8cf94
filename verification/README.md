# Sentinel-IR in Dafny

This project models the second phase of Sentinel-IR, from the events its services
emit to the answers a responder reads, and proves what that pipeline promises.

* **The knowledge-graph loader** (`Graphs`, `WriteOrder`, `Topology`, `Knowledge`,
  `LoadEvents`, `LoadOrder`, `LoadedGraph`, `LoadedKnowledge`, `LoadedTables`,
  `Loader`, `ReloadTheorems`). A list of writes is a program in a small language of
  MERGE, MATCH and SET statements with a meaning over graphs. A MATCH that finds nothing makes the rest of its statement do
  nothing, so a list of idempotent statements need not be idempotent. The project says
  which order is safe, proves that the three sources are loaded in such an order for
  every stream, says exactly which nodes' properties and which edges a load leaves
  behind, and which alerts outlive a stream that has grown.
* **Detection** (`EventStore`, `Detection`, `Rules`, `RuleTheorems`, `Alerts`). The
  four rules are loops proved against one specification of who is alerted on, when and
  on which evidence; the theorems are about whole streams: soundness and completeness,
  independence of ingestion order, monotonicity.
* **The resilient client** (`ResilientClient`, `ResilienceTheorems`,
  `OutageDetection`): a circuit breaker around a retry around one GET, with the events
  it emits, over every sequence of calls. pybreaker's transitions (a closed breaker
  counts failures and trips at the threshold; an open one refuses until its reset
  timeout, then admits one trial) and tenacity's stop and wait rule are built into the
  model as those libraries document them.
* **Incidents** (`IncidentService`, `AssetNames`, `IncidentTheorems`): the service's
  runs, what the loader makes of the events they emit, and what its regular
  expression reads out of the messages they print.
* **Retrieval and generation** (`Intent`, `Questions`, `Retrieval`,
  `RetrievalTheorems`, `EvidenceColumns`, `Templates`, `TemplateTheorems`,
  `CompletenessTheorems`, `Attribution`, `AnswerTheorems`). An answer is a
  sequence of pieces that say where they come from; its fixed wording is an
  enumeration, so everything else has to be evidence.
* **Schema, reader, time** (`Events`, `Reader`, `Timestamps`, `Strings`, `Sequences`,
  `Wrappers`): the event schema and its rendering, `strptime` and `strftime` over the
  one format used (the profile of section 5.6 of RFC 3339 with whole seconds and `Z`),
  Python's order on strings and its stable sort.

A method is tied to a function, and the functions the main results rest on to
statements that do not name them: in the fields of events, the columns of rows, the
exchanges of a call, and the literal types, statuses, minutes, words and tables of the
source.

The source column cites the repository by path and line. Every lemma
switches Dafny's automatic induction off; proofs by recursion are written out.

## Where the code is not what its documentation says

* `stable_alert_id` leaves the description out, so Rule 1's alert on a user and its
  alert on an address can share an identifier and the first is lost: exactly when the
  user's failures are all, and all the failures, of one address (`Loader.LostIff`).
* The stable identifier makes a reload of the same stream idempotent. It digests the
  evidence, so a reload of a stream that has grown can leave alerts the rules no longer
  raise (`ReloadTheorems.NoStaleAlertIff`).
* The recommended action an answer prints is the alert's, and stands behind no name in a
  response, behind the technique's in an explanation
  (`Attribution.PropertiesFollowTheirOwnerIff`); no other property strays
  (`Attribution.OtherPropertiesFollowTheirOwner`).
* CIRCUIT_CLOSED is said to be read only to note a recovery. One that carries a refusal's
  status code is evidence for Rule 2 and can be its third refusal
  (`RuleTheorems.ClosuresDecideIff`).
* Whom an alert names can depend on the order of ingestion of events of one moment
  (`RuleTheorems.AttributionSettledIff`).
* Incident reports are sorted as text. A timestamp that is readable and not written as
  the services write it sorts wrongly against some they write
  (`Timestamps.SortsRightlyIff`).
* The graph's severity of an incident is its last report's, and a demotion is not
  reported (`IncidentTheorems.SeverityReachesGraphIff`).
* The client reads whether the breaker is open before the call. A failing trial of a
  half-open breaker therefore reaches the network and leaves no DEPENDENCY_FAILURE
  (`ResilienceTheorems.OnePerExhaustedRequestIff`).
* A move from CRITICAL to HIGH emits INCIDENT_ESCALATED, although a demotion is said
  never to (`IncidentTheorems.EscalationEmittedIff`).
* A list of MERGE statements is not idempotent for that reason alone
  (`Graphs.MergesAloneAreNotIdempotent`); the loader's lists are
  (`LoadOrder.ReloadReachesSameGraph`).
* The alert templates index the first Alert node of evidence that need not have one
  (`AnswerTheorems.AnswerFailsIff`).

## Model

| member | source | states |
|---|---|---|
| `Graphs.Session.Apply` | c_sentinel-ir/kg/loader/writes.py:36-48 | running a list of writes in one transaction leaves what the list means, statement after statement, and counts every statement |
| `Graphs.Session.Run` | c_sentinel-ir/kg/loader/writes.py:43-46 | one statement changes nodes, properties and edges as its MERGE, MATCH and SET clauses say; a MATCH without a row does nothing further |
| `Graphs.ResumeReachesSameGraph` | c_sentinel-ir/kg/loader/writes.py:36-48 | a list in safe order, run again after any of its prefixes and from any graph, reaches exactly the graph of one uninterrupted run |
| `Graphs.OrderedLoadsAreIdempotent` | c_sentinel-ir/kg/loader/writes.py:9-10 | applying a list in safe order twice leaves the graph unchanged the second time |
| `Graphs.MergesAloneAreNotIdempotent` | c_sentinel-ir/kg/loader/writes.py:9-10 | statement-wise idempotence is not enough: two nodes merged after the edge that matches them is a list whose second run adds an edge |
| `Graphs.RunProperty` | c_sentinel-ir/kg/loader/writes.py:43-46 | a property holds what the last SET of it wrote, else what it held before |
| `WriteOrder.LoadAddsDeclaredEdges` | c_sentinel-ir/kg/loader/main.py:73-87 | a list whose every key match finds its node adds exactly the edges its statements declare, property matches taken on the finished graph |
| `WriteOrder.RowsAreFinal` | c_sentinel-ir/kg/loader/load_security_knowledge.py:273-292 | a property match placed after the last write of its label selects the rows of the finished graph |
| `Topology.BuildTopology` | c_sentinel-ir/kg/loader/load_topology.py:155-171 | the topology's writes for whatever the seed files hold, the bootstrap account first |
| `Topology.TopologyClosed` | c_sentinel-ir/kg/loader/load_topology.py:155-171 | every node the topology matches was merged earlier in its own list |
| `Topology.TopologyDeclares` | c_sentinel-ir/kg/loader/load_topology.py:41-133 | the topology's edges are EXPOSES from a service to its endpoint, DEPENDS_ON between services and HAS_ROLE from each user to its role, no others |
| `Knowledge.BuildKnowledge` | c_sentinel-ir/kg/loader/load_security_knowledge.py:295-311 | the knowledge source in its order, the rule links last |
| `Knowledge.MergeVulnerabilities` | c_sentinel-ir/kg/loader/load_security_knowledge.py:186-209 | each vulnerability is merged before the techniques exploiting it are linked to it |
| `Knowledge.MergeControls` | c_sentinel-ir/kg/loader/load_security_knowledge.py:212-235 | each control is merged before it is linked to the techniques it mitigates |
| `Knowledge.MergeDocuments` | c_sentinel-ir/kg/loader/load_security_knowledge.py:238-270 | each runbook is merged, linked to its control, then to the techniques it responds to |
| `Knowledge.ReferenceClosed` | c_sentinel-ir/kg/loader/load_security_knowledge.py:142-270 | every technique, control and runbook is merged before a statement matches it |
| `Knowledge.ReferenceDeclares` | c_sentinel-ir/kg/loader/load_security_knowledge.py:75-139 | the knowledge edges are those of the six fact tables, each in its direction, no others |
| `Knowledge.RuleLinksExact` | c_sentinel-ir/kg/loader/load_security_knowledge.py:273-292 | there is one INDICATES statement per detection rule, to that rule's technique, and no other |
| `LoadedKnowledge.TablesLoaded` | c_sentinel-ir/kg/loader/load_security_knowledge.py:75-139 | whatever was collected, the loaded graph relates controls, runbooks, techniques, weaknesses, services and paths exactly as the tables do, pair by pair, no pair more |
| `LoadedKnowledge.EveryAlertHasResponse` | c_sentinel-ir/kg/loader/load_security_knowledge.py:273-311 | from any readable stream, every alert of the loaded graph indicates its own rule's technique, and a runbook that answers this technique describes a control that mitigates it |
| `LoadedTables.CalledAsTabled` | c_sentinel-ir/kg/loader/load_security_knowledge.py:31-131 | whatever was collected, each technique, weakness, control and runbook bears in the loaded graph the name the tables give it, and each technique its tactic |
| `LoadedTables.TopologyReadsAsGiven` | c_sentinel-ir/kg/loader/load_topology.py:28-133 | whatever was collected, a service has its port, a path its method and whether it needs a token, an account the role of its last entry, the bootstrap account's counted first, an asset the type and criticality of its last entry |
| `LoadEvents.EndpointStem` | c_sentinel-ir/kg/loader/load_events.py:114-122 | the longest known endpoint that prefixes the path, or the path itself |
| `LoadEvents.MergeEvent` | c_sentinel-ir/kg/loader/load_events.py:125-194 | an event's node first, then its service, endpoint, asset and user links |
| `LoadEvents.MergeAlert` | c_sentinel-ir/kg/loader/load_events.py:197-238 | an alert's node first, then one citation per related event |
| `LoadEvents.BuildIncident` | c_sentinel-ir/kg/loader/load_events.py:241-302 | an incident's node from its creation and its latest report, then its events, its asset and the alerts it groups |
| `LoadEvents.BuildContains` | c_sentinel-ir/kg/loader/load_events.py:288-301 | a CONTAINS statement for each alert the incident groups (which those are, in literals, is LoadedGraph.ContainsIff), in the order given, none for any other |
| `LoadEvents.BuildIncidents` | c_sentinel-ir/kg/loader/load_events.py:305-321 | every incident the stream mentions, in order of identifier, from its own reports in text order; raises only on an unreadable timestamp |
| `LoadEvents.BuildEvents` | c_sentinel-ir/kg/loader/load_events.py:324-339 | events, then alerts as the store lists them, then incidents |
| `LoadEvents.CreationIsFirstReported` | c_sentinel-ir/kg/loader/load_events.py:249 | an incident's creation is the first creation reported, without one the first report |
| `LoadEvents.TimeOfLast` | c_sentinel-ir/kg/loader/load_events.py:316 | an identifier's time is that of the last event carrying it |
| `LoadEvents.BuildEventTimes` | c_sentinel-ir/kg/loader/load_events.py:316 | each identifier's time, of events with one identifier the last |
| `LoadOrder.CollectedInOrder` | c_sentinel-ir/kg/loader/main.py:80-87 | for any events and any alerts, even ones whose evidence is missing, the three sources form a list in safe order; with the evidence collected every key match finds its node |
| `LoadOrder.ReloadReachesSameGraph` | c_sentinel-ir/kg/loader/main.py:80-87 | loading topology, events and knowledge again, after any interruption and from any graph, gives exactly the graph of loading once |
| `LoadedGraph.EdgesAsRecorded` | c_sentinel-ir/kg/loader/load_events.py:324-339 | after a load into the empty graph an edge exists if and only if the events, the alerts or the fact tables call for it: no edge write is silently skipped |
| `LoadedGraph.CreatedAlertIff` | c_sentinel-ir/kg/loader/load_events.py:228-237 | an event is recorded as creating an alert exactly when the alert cites it |
| `LoadedGraph.ContainsIff` | c_sentinel-ir/kg/loader/load_events.py:288-301 | an incident contains an alert exactly when the alert is HIGH or CRITICAL and some event it cites, of events with that identifier the last, happened from 1 800 000 000 microseconds before the incident's creation up to it, both ends included |
| `LoadedGraph.EventLinksIff` | c_sentinel-ir/kg/loader/load_events.py:158-194 | the graph ties an event to a service, an endpoint, a user or an asset exactly when some collected event with its identifier has that service, a path of which that endpoint is the longest of five literal prefixes or else the whole, that user, or is an ASSET_ACCESSED whose message names that asset |
| `LoadedGraph.ConcernsIff` | c_sentinel-ir/kg/loader/load_events.py:267-276 | an event concerns an incident exactly when it is an INCIDENT_CREATED or INCIDENT_ESCALATED that names it |
| `LoadedGraph.AffectsIff` | c_sentinel-ir/kg/loader/load_events.py:277-287 | an incident affects an asset exactly when its creation message names that asset |
| `LoadedGraph.IndicatesIff` | c_sentinel-ir/kg/loader/load_security_knowledge.py:273-292 | an alert indicates exactly the technique of the rule that raised it |
| `LoadedGraph.EventReadsAsCollected` | c_sentinel-ir/kg/loader/load_events.py:134-157 | an event's node carries the event's fields, and nothing for a field that is null; of events that share an identifier it carries the last one's in time order |
| `LoadedGraph.AlertReadsAsRaised` | c_sentinel-ir/kg/loader/load_events.py:205-227 | an alert's node carries the alert's fields, its rule's recommended action included |
| `LoadedGraph.IncidentPropertiesLoaded` | c_sentinel-ir/kg/loader/load_events.py:249-266 | an incident's node carries title, time and reporter of its creation and the severity of its latest report |
| `LoadedGraph.AlertNodesLoaded` | c_sentinel-ir/kg/loader/load_events.py:205-227 | the Alert nodes are those of the given alerts, no others |
| `Loader.EvaluatedAtNewest` | c_sentinel-ir/kg/loader/main.py:60-70 | the rules are evaluated at the moment of some collected event that none is later than, at the clock's without events |
| `Loader.MomentForgetsOrder` | c_sentinel-ir/kg/loader/main.py:60-70 | that moment does not depend on the order of ingestion |
| `Loader.RaiseAlerts` | c_sentinel-ir/kg/loader/main.py:80-82 | the run's own alert store holds the catalogue's alerts under stable identifiers; raises exactly on an unreadable timestamp |
| `Loader.CollectWrites` | c_sentinel-ir/kg/loader/main.py:73-87 | three (source, writes) pairs in order, a function of the events, the clock and the digest alone: the supply of fresh identifiers does not occur in it |
| `Loader.Load` | c_sentinel-ir/kg/loader/main.py:138-145 | a load leaves the graph the collected writes make of what was there and reports how many there were; an unreadable stream touches nothing |
| `Loader.FreshIdsForgotten` | c_sentinel-ir/kg/loader/load_events.py:90-100 | re-keyed alerts do not depend on the identifiers they were minted with |
| `Loader.CitationOrderForgotten` | c_sentinel-ir/kg/loader/load_events.py:77-87 | the stable identifier does not depend on the order in which evidence is cited |
| `Loader.IdentityIff` | c_sentinel-ir/kg/loader/load_events.py:77-87 | alerts are one to the graph exactly when they are of one rule, name the same service, user and entity, a missing one read as empty, and cite the same events, each as often: severity, time, status and description do not matter |
| `Loader.RekeyedIn` | c_sentinel-ir/kg/loader/load_events.py:90-100 | re-keying changes an alert's identifier and nothing else, to alt- and a digest of that identity |
| `Loader.StoredIsLast` | c_sentinel-ir/kg/loader/main.py:80-82 | the alerts loaded are, of those sharing a stable identifier, the last in catalogue order, one each |
| `Loader.NothingLostIff` | c_sentinel-ir/kg/loader/load_events.py:65-87 | no raised alert is lost if and only if alerts sharing a stable identifier are alike in everything |
| `Loader.SharedIdentityIff` | c_sentinel-ir/kg/loader/load_events.py:77-87 | a per-user and a per-address alert of Rule 1 get one identity exactly when they cite the same events, name the one user and end at one service, although their descriptions differ |
| `Loader.SharedIdentityLosesUserAlert` | c_sentinel-ir/soc/rules/rule_failed_logins.py:78-80 | when they do, the per-user alert never reaches the graph, whatever the digest |
| `Loader.OneAttackerIsEnough` | c_sentinel-ir/soc/rules/rule_failed_logins.py:82-144 | an account over its threshold whose windowed failures are those of one address is such a case, whatever else was collected |
| `Loader.LostIff` | c_sentinel-ir/kg/loader/load_events.py:65-100 | with identifiers that identify events and no collision of digests, an alert of the catalogue is lost if and only if it is Rule 1's on a user whose windowed failures are exactly those of some address; no other keying loses any |
| `Loader.StoredEvidenceResolves` | c_sentinel-ir/kg/loader/main.py:80-82 | for every store, each alert handed to the graph cites at least one event and only collected ones |
| `Loader.EveryAlertIsExplained` | c_sentinel-ir/kg/loader/load_events.py:20-23 | in the graph loaded from any readable stream every alert has a collected event that caused it and its rule's technique |
| `ReloadTheorems.AlertNodesOfBothLoads` | c_sentinel-ir/kg/loader/main.py:80-87 | after loading a stream and then a longer one the Alert nodes are exactly those stored for either |
| `ReloadTheorems.NoStaleNodeIffIdsStay` | c_sentinel-ir/kg/loader/main.py:80-87 | whatever the digest, those Alert nodes are those of one load exactly when every identifier stored for the first stream is stored for the grown one |
| `ReloadTheorems.IdStaysIff` | c_sentinel-ir/kg/loader/load_events.py:77-87 | an alert's stable identifier is stored for the grown stream exactly when under its rule the same events count again, none fewer and none that came later |
| `ReloadTheorems.NoStaleAlertIff` | c_sentinel-ir/kg/loader/load_events.py:65-87 | with identifiers that identify events and no collision of digests, the Alert nodes after loading a stream and then a longer one are those of loading the longer one alone if and only if every alert of the first has exactly its counted events counted again |
| `ReloadTheorems.NewEvidenceLeavesStaleAlert` | c_sentinel-ir/kg/loader/load_events.py:65-87 | so one more event against an alerted subject of Rules 2 to 4 leaves the alert of before in the graph, beside whatever is raised now |
| `EventStores.EventStore.Append` | c_sentinel-ir/soc/collector/store.py:55-61 | an event goes behind all others |
| `EventStores.EventStore.Extend` | c_sentinel-ir/soc/collector/store.py:63-72 | events go behind all others in order; the count is of events added |
| `EventStores.AllEventsInOrder` | c_sentinel-ir/soc/collector/store.py:74-81 | the whole-stream view is sorted by time, loses and repeats nothing, and keeps ingestion order among events of one moment |
| `EventStores.ViewsHold` | c_sentinel-ir/soc/collector/store.py:74-126 | the whole-stream view holds every event, the view of a user, an address, a service or a correlation exactly the events whose own field has that value, from the given moment on with that moment included, each as often as it was ingested, oldest first |
| `EventStores.QueryFiltersAllEvents` | c_sentinel-ir/soc/collector/store.py:128-143 | every keyed query is the same filter over the whole-stream view |
| `EventStores.QueryRaises` | c_sentinel-ir/soc/collector/store.py:128-152 | a query raises exactly when an event its predicate selects is unreadable |
| `EventStores.QueryAgreesIff` | c_sentinel-ir/soc/collector/store.py:128-152 | query and whole-stream view agree, exceptions included, exactly unless an unreadable event lies outside the query |
| `EventStores.UnreadableOutsider` | c_sentinel-ir/soc/collector/store.py:128-152 | an event of another user without a timestamp separates the two |
| `Sequences.StableSortUnique` | c_sentinel-ir/soc/collector/store.py:145-152 | a sorted arrangement that keeps the order of ties is the stable sort, the only one |
| `Sequences.FilterSort` | c_sentinel-ir/soc/collector/store.py:128-143 | filtering and the stable sort commute |
| `Strings.LeqIff` | c_sentinel-ir/soc/alert_service/store.py:138-148 | a text sorts before another exactly when it starts it, or has the smaller character where the two first differ |
| `Timestamps.ParseIff` | c_sentinel-ir/soc/collector/store.py:28-36 | a text is read as a moment exactly when it can be cut, in any way, into pieces that spell the moment's fields, and these are a date |
| `Timestamps.InstantOrder` | c_sentinel-ir/soc/rules/base.py:102-128 | ordering by microseconds is ordering field by field |
| `Timestamps.DaysAndSeconds` | c_sentinel-ir/soc/rules/base.py:102-128 | by that measure the next day of the calendar is 86 400 seconds away at every end of month and year, an hour is 3600 and a minute 60 |
| `Timestamps.PrintedForm` | c_sentinel-ir/soc/rules/base.py:92-99 | what is printed is year-month-dayThour:minute:secondZ, all but the year in two digits |
| `Timestamps.ParseUndoesFormat` | c_sentinel-ir/soc/rules/base.py:92-99 | parsing undoes formatting, up to the fraction of a second, exactly for years from 1000; earlier years print too short to be read |
| `Timestamps.TextOrderIsTimeOrder` | c_sentinel-ir/soc/alert_service/store.py:138-148 | formatted timestamps sort as text as they do in time |
| `Timestamps.SortsRightlyIff` | c_sentinel-ir/kg/loader/load_events.py:313 | a readable timestamp sorts as text as it does in time against everything the services print, both ways, if and only if it is the text they would print for its moment or its year is before 1000 |
| `Timestamps.LooseTimestampsSortWrong` | c_sentinel-ir/kg/loader/load_events.py:313 | one that is not: a month of one digit is read and sorts behind every later month of two digits of its year |
| `Events.Validate` | c_sentinel-ir/libs/common/events.py:135-208 | an event is accepted exactly when its fields, the method upper-cased, obey the schema, and is changed in nothing else |
| `Events.ValidateKeepsValid` | c_sentinel-ir/libs/common/events.py:135-208 | a valid event passes unchanged |
| `Reader.FromJsonIff` | c_sentinel-ir/soc/collector/reader.py:28-34 | an object is accepted as an event exactly when its fields are those of an event that the schema accepts as that event |
| `Reader.AcceptedIff` | c_sentinel-ir/soc/collector/reader.py:62-91 | a line is accepted as an event exactly when it is an object of schema keys alone, each of which holds that field of the event: the event type and severity by the schema's own words, an identifier of evt- and twelve hexadecimal digits, one of four services, one of seven methods in letters of either case, a status from 100 to 599, three texts that are not blank |
| `Reader.ParseEventLine` | c_sentinel-ir/soc/collector/reader.py:62-91 | a line is passed over exactly when it is not an object with an event type; what is returned is a valid event |
| `Reader.ParseUndoesRender` | c_sentinel-ir/libs/common/events.py:210-217 | parsing a rendered event gives the event back |
| `Reader.AcceptedEventsRoundTrip` | c_sentinel-ir/soc/collector/reader.py:62-91 | whatever line was accepted, its event renders and parses to itself |
| `Reader.StreamUndoesWriting` | c_sentinel-ir/soc/collector/reader.py:94-107 | among any blank, non-JSON and unmarked lines, exactly the rendered events come out, in order |
| `Reader.FirstMalformedLineFails` | c_sentinel-ir/soc/collector/reader.py:94-107 | the first marked but invalid line fails the stream there, the events before it delivered |
| `Reader.StreamFailsIffMalformed` | c_sentinel-ir/soc/collector/reader.py:94-107 | a stream fails if and only if it holds such a line |
| `Alerts.FreshIds.Next` | c_sentinel-ir/soc/alert_service/models.py:41-47 | the next identifier of the supply |
| `Alerts.AlertStore.Add` | c_sentinel-ir/soc/alert_service/store.py:41-50 | the alert is held under its identifier, replacing any before it |
| `Alerts.AlertStore.Extend` | c_sentinel-ir/soc/alert_service/store.py:52-62 | every alert is added in turn; the number returned counts new identifiers, not alerts |
| `Alerts.AlertStore.Clear` | c_sentinel-ir/soc/alert_service/store.py:64-72 | nothing is held |
| `Alerts.AlertStore.SetStatus` | c_sentinel-ir/soc/alert_service/store.py:115-126 | one alert's status changes, or nothing when it is unknown |
| `Alerts.AlertStore.List` | c_sentinel-ir/soc/alert_service/store.py:88-113 | every alert the filters admit, once, strictly newest first |
| `Alerts.ListingUnique` | c_sentinel-ir/soc/alert_service/store.py:138-148 | there is one such listing: it depends on the contents, not on insertion order |
| `Alerts.ListingIsListing` | c_sentinel-ir/soc/alert_service/store.py:88-113 | the listing as a function of the contents is it |
| `Alerts.SetStatusKeepsPositions` | c_sentinel-ir/soc/alert_service/store.py:115-126 | after a change of status the listing is the old one with that alert replaced in place |
| `Alerts.RunsStayKeyed` | c_sentinel-ir/soc/alert_service/store.py:41-126 | over every run of operations each key is its alert's identifier |
| `Alerts.LastOneWins` | c_sentinel-ir/soc/alert_service/store.py:52-62 | of alerts added under one identifier the last is held |
| `Alerts.OnePerIdentifier` | c_sentinel-ir/soc/alert_service/store.py:52-62 | exactly the identifiers handed in are held |
| `Rules.GroupBy` | c_sentinel-ir/soc/rules/rule_failed_logins.py:168-182 | each key's group is the events with that key, in order, and every key has one |
| `Rules.BuildAlert` | c_sentinel-ir/soc/rules/base.py:58-89 | an open alert stamped with the evaluation moment, citing the given events in order; without any, the schema's refusal |
| `Rules.EvaluateFailedLogins` | c_sentinel-ir/soc/rules/rule_failed_logins.py:56-80 | Rule 1's alerts, users first, then addresses; raises only on an unreadable timestamp, before minting anything |
| `Rules.AlertsForUsers` | c_sentinel-ir/soc/rules/rule_failed_logins.py:82-111 | one alert per user with five failures in the window, users ascending |
| `Rules.AlertsForIps` | c_sentinel-ir/soc/rules/rule_failed_logins.py:113-144 | one alert per address with five failures in the window, addresses ascending |
| `Rules.EvaluateUnauthorisedAccess` | c_sentinel-ir/soc/rules/rule_unauthorised_access.py:69-93 | Rule 2's alerts, subjects ascending; which events these rest on, by type and status, is RuleTheorems.CountsIff |
| `Rules.RaiseForSubject` | c_sentinel-ir/soc/rules/rule_unauthorised_access.py:95-130 | a subject's alert, HIGH when a privileged route was refused |
| `Rules.EvaluateAbnormalRate` | c_sentinel-ir/soc/rules/rule_abnormal_rate.py:71-111 | Rule 3's alerts, sources ascending |
| `Rules.RaiseForSource` | c_sentinel-ir/soc/rules/rule_abnormal_rate.py:87-139 | a source's alert on either signal, over both signals' events merged in time order |
| `Rules.EvaluateServiceFailure` | c_sentinel-ir/soc/rules/rule_service_failure.py:80-134 | Rule 4's alerts, services ascending |
| `Rules.RaiseForService` | c_sentinel-ir/soc/rules/rule_service_failure.py:110-182 | a service's alert on an immediate signal or on three failures |
| `Rules.EvaluateAll` | c_sentinel-ir/soc/rules/catalogue.py:42-56 | every rule over one store at one moment, in catalogue order, under fresh identifiers in that order |
| `Rules.PersistAlerts` | c_sentinel-ir/soc/rules/main.py:32-50 | alerts are stored exactly when all their evidence is in the event store, else none is |
| `RuleTheorems.CountsIff` | c_sentinel-ir/soc/rules/rule_unauthorised_access.py:133-149 | what each rule counts, in event fields: AUTH_FAILED of the user or of the address inside 300 seconds; UNAUTHORISED_ACCESS, or status 401 or 403 of any type but AUTH_FAILED, of the user, else the address, else 'unattributed', inside 600; refusals and requests of the address inside 60; outage and failure events of the service inside 300 |
| `RuleTheorems.LoginFailuresAreNoRefusals` | c_sentinel-ir/soc/rules/rule_unauthorised_access.py:145-148 | without its AUTH_FAILED events a stream raises exactly the same alerts of Rule 2 |
| `RuleTheorems.AlertedIff` | c_sentinel-ir/soc/rules/rule_service_failure.py:109-122 | a rule alerts on a subject exactly when, of the events as ingested, enough of the literal types and statuses its requirement names, of its window of literal length, are against that subject |
| `RuleTheorems.RulesSoundAndComplete` | c_sentinel-ir/soc/rules/rule_failed_logins.py:65-144 | each keying raises one alert per subject over its threshold and no other, in ascending order, citing exactly the events its requirement counts, oldest first, and saying of them what the event fields hold |
| `RuleTheorems.IngestionOrderIrrelevant` | c_sentinel-ir/soc/rules/catalogue.py:42-56 | at a fixed moment the order of ingestion changes no alerted subject, severity, description or multiset of evidence |
| `RuleTheorems.AttributionSettledIff` | c_sentinel-ir/soc/rules/rule_unauthorised_access.py:111-130 | for every rule, no order of ingestion changes the service, user or entity an alert names if and only if the events of its evidence's latest moment agree on what is read off the last one |
| `RuleTheorems.TiesDecideAttribution` | c_sentinel-ir/soc/rules/rule_failed_logins.py:97-110 | two services failing one user's logins at the latest moment are enough: some order of the same events names another service |
| `RuleTheorems.MoreEventsNeverSilence` | c_sentinel-ir/soc/rules/rule_unauthorised_access.py:105-109 | appended events never silence a subject, lower its severity or drop its evidence |
| `RuleTheorems.ClosedEventsAreSilentIff` | c_sentinel-ir/soc/rules/rule_service_failure.py:95-122 | CIRCUIT_CLOSED events are no part of a subject's evidence if and only if none counts against it |
| `RuleTheorems.ClosuresCountForRefusals` | c_sentinel-ir/soc/rules/rule_unauthorised_access.py:133-149 | one counts exactly for Rule 2, inside its window, with status 401 or 403, against its refused subject |
| `RuleTheorems.ClosuresDecideIff` | c_sentinel-ir/soc/rules/rule_unauthorised_access.py:95-109 | they change whether a subject is alerted on if and only if Rule 2 has three refusals with them and fewer without |
| `RuleTheorems.RefusedClosureCounts` | c_sentinel-ir/soc/rules/rule_unauthorised_access.py:133-149 | with two ordinary refusals a refused closure is the third and fires Rule 2 |
| `RuleTheorems.CatalogueResolves` | c_sentinel-ir/soc/alert_service/models.py:105-128 | everything the catalogue raises passes the alert schema and cites only events of the store it was raised from |
| `RuleTheorems.DetectAndPersist` | c_sentinel-ir/soc/rules/main.py:150-184 | evaluating the catalogue and persisting on the same store never raises on readable events, and stores every alert |
| `Resilience.ResilientClient.CallWithRetry` | c_sentinel-ir/libs/common/http_client.py:164-202 | the number of attempts, the answer of the last and the time slept: attempts go on while they fail transiently and the limit allows, each wait twice the last; what is transient, by status, is ResilienceTheorems.ExhaustedIff |
| `Resilience.ResilientClient.BreakerCall` | c_sentinel-ir/libs/common/http_client.py:86-100 | one retried request through the breaker: refused while open, counted once, tripping at the threshold, closing on any answer of a trial |
| `Resilience.ResilientClient.Get` | c_sentinel-ir/libs/common/http_client.py:112-202 | the new breaker, the events appended, the outcome, the attempts and the time slept of one call, which RefusedCall, AnsweredCall and FailedCall spell out over its exchanges |
| `Resilience.ResilientClient.Degrade` | c_sentinel-ir/libs/common/http_client.py:204-237 | the declared fallback or a typed 503, with one event unless told not to |
| `Resilience.ResilientClient.Enter` | c_sentinel-ir/libs/common/circuit_events.py:74-116 | one event for opening, one for closing, none for the half-open probe |
| `ResilienceTheorems.Serve` | c_sentinel-ir/libs/common/http_client.py:55-70 | a long-lived client serves any sequence of calls as the run says |
| `ResilienceTheorems.FailsIffExhausted` | c_sentinel-ir/libs/common/http_client.py:164-202 | an admitted request fails exactly when every attempt it may make meets a transient fault |
| `ResilienceTheorems.ExhaustedIff` | c_sentinel-ir/libs/common/http_client.py:182-202 | a request fails exactly when each exchange it is allowed is a transport error or has status 500 or more |
| `ResilienceTheorems.RefusedCall` | c_sentinel-ir/libs/common/http_client.py:138-149 | while the breaker refuses, a call makes no attempt, emits nothing and gives its caller the fallback or a 503 |
| `ResilienceTheorems.AnsweredCall` | c_sentinel-ir/libs/common/http_client.py:164-202 | a call whose first exchange that is no fault is the k-th makes k attempts, closes the breaker, reports a closing only if it was open, and gives its caller a 2xx body or the status as it came |
| `ResilienceTheorems.FailedCall` | c_sentinel-ir/libs/common/http_client.py:138-162 | a call all of whose exchanges are faults makes every attempt, is counted once, trips the breaker at the threshold or from half-open, and emits, field by field, the opening and, only from a closed breaker, the failure with its last fault |
| `ResilienceTheorems.AnsweredRunsLeaveNoTrace` | c_sentinel-ir/libs/common/http_client.py:192-202 | a run of requests whose first exchange is below 500, a 4xx each time if it likes, makes one attempt each, leaves no event and a closed breaker, and hands every status on |
| `ResilienceTheorems.BackoffBound` | c_sentinel-ir/libs/common/http_client.py:174-180 | n attempts sleep at most b(2^(n-1) - 1), exactly that below the library's cap |
| `ResilienceTheorems.CallIsBounded` | c_sentinel-ir/libs/common/http_client.py:134-162 | a refused call makes no attempt, any other from one to the configured number |
| `ResilienceTheorems.ClosedCountsTheStreak` | c_sentinel-ir/libs/common/http_client.py:86-100 | over every run, recoveries included, a closed breaker holds exactly the length of the streak of failed whole requests the run ends in |
| `ResilienceTheorems.OpensIffConsecutiveFailures` | c_sentinel-ir/libs/common/http_client.py:8-18 | whenever the breaker is closed, first time or after recoveries, the next request trips it exactly when it completes the configured number of consecutive failed whole requests, whatever was retried |
| `ResilienceTheorems.ClosesIffTrialAnswered` | c_sentinel-ir/libs/common/http_client.py:86-100 | whenever it is open, the next request closes it exactly when the reset timeout has passed and the request is answered |
| `ResilienceTheorems.AnswersResetTheCount` | c_sentinel-ir/libs/common/http_client.py:90-92 | an admitted request some exchange of which is below 500 closes the breaker and clears its count |
| `ResilienceTheorems.EventsTellTheState` | c_sentinel-ir/libs/common/circuit_events.py:74-116 | the breaker is not closed exactly when the last CIRCUIT event is CIRCUIT_OPENED |
| `ResilienceTheorems.RecoveriesFollowOutages` | c_sentinel-ir/libs/common/circuit_events.py:74-116 | before every CIRCUIT_CLOSED the last CIRCUIT event is CIRCUIT_OPENED |
| `ResilienceTheorems.FailureEventsConserved` | c_sentinel-ir/libs/common/http_client.py:138-162 | DEPENDENCY_FAILURE events number the calls that found the breaker closed and spent their retries, the tripping call included |
| `ResilienceTheorems.OnePerExhaustedRequestIff` | c_sentinel-ir/libs/common/circuit_events.py:28-38 | one event per exhausted request holds of a run exactly when no trial call of a half-open breaker failed in it |
| `ResilienceTheorems.FailedTrialIsSilent` | c_sentinel-ir/libs/common/http_client.py:138-149 | in any run, a trial that fails is one more exhausted request on the network and no more DEPENDENCY_FAILURE |
| `ResilienceTheorems.TrialsDoFail` | c_sentinel-ir/libs/common/http_client.py:86-100 | under every setting a dead dependency comes to such a trial |
| `ResilienceTheorems.OpenMeansQuiet` | c_sentinel-ir/libs/common/http_client.py:141-149 | until the reset timeout no call of an open breaker emits or changes anything |
| `ResilienceTheorems.CallersGetAnAnswerOrTheFallback` | c_sentinel-ir/libs/common/http_client.py:127-133 | the caller gets the first answer that was not transient, or its fallback, or a typed 503, never a transport error |
| `OutageDetection.OpenBreakerRaisesAlert` | c_sentinel-ir/soc/rules/rule_service_failure.py:42-51 | a breaker left open by any run of calls, however often it had recovered, has its caller alerted on by Rule 4 while the run's last CIRCUIT_OPENED is collected inside the rule's five minutes |
| `OutageDetection.QuietOutageRaisesNothing` | c_sentinel-ir/soc/rules/rule_service_failure.py:80-108 | an open breaker that has let nothing through since then raises nothing once those five minutes are over |
| `OutageDetection.EmissionsAreValid` | c_sentinel-ir/libs/common/events.py:220-259 | every event a run emits passes the event schema |
| `OutageDetection.HealthyRunsAreSilent` | c_sentinel-ir/libs/common/http_client.py:15-18 | a dependency that answers each request in time, with any status below 500, leaves no event and a closed breaker, so nothing for Rule 4 |
| `AssetNames.PatternIsLeftmost` | c_sentinel-ir/kg/loader/load_events.py:52-62 | the name found is the capture of the leftmost match of the pattern, and none is found exactly when it matches nowhere |
| `AssetNames.PrintedNameRecoveredIff` | c_sentinel-ir/kg/loader/load_events.py:52-62 | the pattern recovers the asset name a message printed exactly when the name is not empty and holds no single quote, backslash or unprintable character |
| `AssetNames.PrintedAsIs` | c_sentinel-ir/services/incident-service/app/services/incident_service.py:183-186 | a name that needs no escape prints between single quotes, or between double quotes when it holds a single and no double one |
| `Incidents.IncidentService.CreateIncident` | c_sentinel-ir/services/incident-service/app/services/incident_service.py:79-105 | a new open row under the next number and one INCIDENT_CREATED, or the asset lookup's own error and no change |
| `Incidents.IncidentService.UpdateIncident` | c_sentinel-ir/services/incident-service/app/services/incident_service.py:107-121 | the given fields change, silently; an unknown incident is refused |
| `Incidents.IncidentService.MoveSeverity` | c_sentinel-ir/services/incident-service/app/services/incident_service.py:123-144 | the severity changes, with INCIDENT_ESCALATED on a change to HIGH or CRITICAL |
| `Incidents.IncidentService.DeleteIncident` | c_sentinel-ir/services/incident-service/app/services/incident_service.py:146-156 | the row goes, silently |
| `IncidentTheorems.RunKeeps` | c_sentinel-ir/services/incident-service/app/services/incident_service.py:79-156 | over every run each stored incident's reports open with its creation, naming its asset, report only HIGH or CRITICAL after it, and the last agrees with a stored HIGH or CRITICAL severity |
| `IncidentTheorems.ReadsAsCreated` | c_sentinel-ir/services/incident-service/app/services/incident_service.py:158-188 | over every run the loaded node of a stored incident carries the reporter, the time, the severity and the asset of the very request that created it |
| `IncidentTheorems.SeverityReachesGraphIff` | c_sentinel-ir/kg/loader/load_events.py:249-266 | over every run the loaded graph gives a stored incident the severity it is stored with if and only if that is HIGH or CRITICAL, or the incident has been reported on once, at its creation, with that severity |
| `IncidentTheorems.ChangeReachesGraphIff` | c_sentinel-ir/services/incident-service/app/services/incident_service.py:140-144 | when the graph loaded after a run agrees with the store, the graph loaded after one more change of severity does exactly when the change is to HIGH or CRITICAL or is none |
| `IncidentTheorems.EscalationEmittedIff` | c_sentinel-ir/services/incident-service/app/services/incident_service.py:34-36 | an escalation, field by field the one of the source, is emitted exactly on a change to HIGH or CRITICAL; from CRITICAL to HIGH is the one move down that is one |
| `IncidentTheorems.EmissionsAreValid` | c_sentinel-ir/services/incident-service/app/services/incident_service.py:167-218 | every event a run emits passes the event schema and is evidence for no rule, against no subject, at no moment |
| `IncidentTheorems.ReportsAsEmitted` | c_sentinel-ir/kg/loader/load_events.py:312-315 | the loader's two sorts give an incident's reports back in the order of emission |
| `IncidentTheorems.ClockStampsInOrder` | c_sentinel-ir/kg/loader/load_events.py:313 | a clock that does not run backwards makes the text sort and the time sort agree |
| `IncidentTheorems.AssetReachesGraphIff` | c_sentinel-ir/services/incident-service/app/services/incident_service.py:183-188 | the loaded incident affects the asset it was raised against exactly when that asset's name prints as it is |
| `Retrieval.ShapeRows` | c_sentinel-ir/rag/retrieval/retriever.py:229-250 | evidence is the rows' keyed nodes and two-ended relationships, each identity once |
| `Retrieval.Deduplicate` | c_sentinel-ir/rag/retrieval/retriever.py:308-322 | the first item of each identity, in order |
| `Retrieval.ShapeControlsRow` | c_sentinel-ir/rag/retrieval/retriever.py:42-76 | the alert, its technique, and each control and runbook tied to the technique |
| `Retrieval.ShapeThreatsRow` | c_sentinel-ir/rag/retrieval/retriever.py:103-130 | the technique, the vulnerabilities it exploits and the controls that mitigate it |
| `Retrieval.ShapeUserRow` | c_sentinel-ir/rag/retrieval/retriever.py:133-159 | the user and the events it triggered |
| `Retrieval.ShapeIncidentRow` | c_sentinel-ir/rag/retrieval/retriever.py:175-211 | the incident, its asset when named, and its alerts that have an identifier |
| `RetrievalTheorems.KeepsTheFirst` | c_sentinel-ir/rag/retrieval/retriever.py:308-322 | an item is kept exactly when it is the first of its identity |
| `RetrievalTheorems.KeepsEachIdentityOnce` | c_sentinel-ir/rag/retrieval/retriever.py:308-322 | no identity is lost and none is kept twice |
| `RetrievalTheorems.LongerListsKeepMore` | c_sentinel-ir/rag/retrieval/retriever.py:308-322 | what is kept of a list starts what is kept of any longer one, and repeated identities add nothing |
| `RetrievalTheorems.RepeatedRowsChangeNothing` | c_sentinel-ir/rag/retrieval/retriever.py:229-250 | rows already seen change nothing, for each of the six queries |
| `RetrievalTheorems.EvidenceIsClosed` | c_sentinel-ir/rag/retrieval/retriever.py:229-250 | both ends of every relationship kept are nodes kept, of the labels its type runs between |
| `RetrievalTheorems.EvidenceComesFromRows` | c_sentinel-ir/rag/retrieval/retriever.py:244-250 | a node kept is the first of its identity some row gave, a relationship kept is one some row gave with both ends |
| `EvidenceColumns.NodesInColumns` | c_sentinel-ir/rag/retrieval/retriever.py:42-250 | evidence holds a node of a label and key exactly when some row has that key in the column of that label for that query |
| `EvidenceColumns.PropertiesInColumns` | c_sentinel-ir/rag/retrieval/retriever.py:42-250 | each property of such a node is what one such row holds in that property's own column |
| `EvidenceColumns.LinksInColumns` | c_sentinel-ir/rag/retrieval/retriever.py:42-250 | evidence holds a relationship exactly when some row states it, by type and by the columns of its two ends |
| `Intents.BestIsEarliest` | c_sentinel-ir/rag/retrieval/intent.py:228-230 | the chosen index is the earliest of maximal score and no other |
| `Intents.ClassifiedByEarliestBest` | c_sentinel-ir/rag/retrieval/intent.py:216-251 | a question is refused exactly when it is blank or nothing scores, else gets the earliest intent of maximal score and its entity |
| `Intents.EntityIsFirstWord` | c_sentinel-ir/rag/retrieval/intent.py:183-213 | the entity is the first match in the question, never empty, and missing exactly when nothing matches |
| `Intents.MatchIsWord` | c_sentinel-ir/rag/retrieval/intent.py:27-34 | what matches is a whole word, an alert identifier or a service name |
| `Intents.QueriesMatchEntities` | c_sentinel-ir/rag/retrieval/cypher_builder.py:27-35 | every intent has a query, which takes exactly the kind of entity the intent extracts |
| `Intents.QueryRunsIff` | c_sentinel-ir/rag/retrieval/cypher_builder.py:27-82 | a query is built exactly when an intent scores and the question names the entity it needs; it is that intent's own and binds that entity alone |
| `Intents.Retrieve` | c_sentinel-ir/rag/retrieval/retriever.py:253-293 | the runner is called once with the built query, or not at all, and the evidence is shaped from its rows; whose rows and columns these are is EvidenceColumns.QuestionsGetTheirOwn |
| `Questions.ClassifiedIff` | c_sentinel-ir/rag/retrieval/intent.py:75-251 | a question is taken for an intent exactly when it is not blank, says some of the intent's phrases in letters of either case, and says fewer of every other intent's, or as many of one declared later |
| `Questions.EntityIff` | c_sentinel-ir/rag/retrieval/intent.py:28-213 | the entity is the first alert identifier, or the first of five service names, that stands in the question in letters of either case with no word running into or out of it |
| `Questions.QueryOfIntent` | c_sentinel-ir/rag/retrieval/cypher_builder.py:27-82 | each intent runs its own query with that entity under its own parameter, or says that the question is empty, unsupported or names no entity |
| `EvidenceColumns.QuestionsGetTheirOwn` | c_sentinel-ir/rag/retrieval/cypher_builder.py:27-35 | each kind of question is answered from its own query's rows, and lists exactly the alerts, techniques, users, services or incidents that these name in that label's own column |
| `EvidenceColumns.DocumentsAreRunbooks` | c_sentinel-ir/rag/retrieval/retriever.py:268-293 | the documents evidence lists are exactly the keys of its Document nodes |
| `Intents.EmptyIffReason` | c_sentinel-ir/rag/retrieval/retriever.py:268-293 | evidence has no node exactly when it states a reason |
| `Templates.GenerateAnswer` | c_sentinel-ir/rag/generation/templates.py:281-293 | the intent's template, or the honest refusal when there is no evidence or no template; what it must say is CompletenessTheorems.AnswersAreComplete |
| `Templates.BuildResponse` | c_sentinel-ir/rag/generation/templates.py:101-123 | action, controls and runbooks that the evidence holds, every one of them, else that nothing is known |
| `Templates.BuildServiceAlerts` | c_sentinel-ir/rag/generation/templates.py:137-158 | a heading and a line per alert |
| `Templates.BuildUserLinkage` | c_sentinel-ir/rag/generation/templates.py:181-203 | a heading and a line per user |
| `Templates.BuildImpact` | c_sentinel-ir/rag/generation/templates.py:206-222 | every service affected, with its hops |
| `Templates.BuildIncidentLinkage` | c_sentinel-ir/rag/generation/templates.py:225-254 | a heading and a line per incident, with every alert it contains |
| `TemplateTheorems.AnswersAreGrounded` | c_sentinel-ir/rag/generation/templates.py:76-293 | every piece of an answer that is not fixed wording is a node key, a stated property, a relationship's end, a bound parameter, a true count or the evidence's own reason |
| `TemplateTheorems.GenerateFailsIff` | c_sentinel-ir/rag/generation/templates.py:83-109 | a template indexes out of range exactly when an alert is asked about and the evidence, not empty, holds none |
| `CompletenessTheorems.AnswersAreComplete` | c_sentinel-ir/rag/generation/templates.py:76-254 | every answer says, line by line and in the order of the evidence, all the evidence holds for its question and nothing twice: nodes, properties, ends of relationships, counts, and the wording that says what they are |
| `CompletenessTheorems.EveryOneIsNamed` | c_sentinel-ir/rag/generation/templates.py:101-254 | the keys an answer prints are, in order and each as often, those of the evidence's controls and then runbooks in a response, techniques and then controls for a service, alerts, users, services or incidents where these are asked for |
| `CompletenessTheorems.SentenceIsSpelled` | c_sentinel-ir/rag/generation/templates.py:38-46 | a list reads item by item with commas between and 'and' before the last, no item dropped |
| `Attribution.PropertiesFollowTheirOwnerIff` | c_sentinel-ir/rag/generation/templates.py:76-254 | each property an answer prints belongs to the node whose key, or whose end of a relationship, was printed last before it, exactly unless it prints an alert's recommended action in a response that names nothing first, or after an explanation that named a technique of another key |
| `Attribution.OtherPropertiesFollowTheirOwner` | c_sentinel-ir/rag/generation/templates.py:76-254 | every property but the recommended action follows its owner in every answer |
| `AnswerTheorems.UserEventsCountedOnce` | c_sentinel-ir/rag/generation/templates.py:190-202 | the count beside a user is the number of distinct events over all rows naming that user |
| `AnswerTheorems.RuleComesFromItsAlert` | c_sentinel-ir/rag/retrieval/retriever.py:202-210 | the rule beside an incident's alert was paired with that alert in one row |
| `AnswerTheorems.AnswerFailsIff` | c_sentinel-ir/rag/generation/templates.py:83-109 | from question to answer, generation fails exactly when the alert query returned something and no row carried an alert identifier |

## Left out

* The wording of the static texts: a `Rule` stands for its name and its recommended
  action, a `Description` for what a rule's sentence interpolates, and `Prose` for the
  paragraph the fact tables write about a service, a technique, a vulnerability or a
  control.
* SHA-1: the digest is a parameter, any function of a firing's material, and collisions
  beyond equal material are allowed for. The separators with which the source joins the
  material into one text are not modelled.
* JSON lexing: a line is empty, not JSON, or a decoded object. Pydantic's lax coercions
  of field types (a numeric string for a status code) are not modelled.
* `strptime` on digits outside ASCII, case mapping outside ASCII, and the overflow of a
  window that starts before year 1.
* The Neo4j driver, the schema statements, transaction rollback, and parallel edges of
  one type between two nodes; the graph's starting state holds no property that is null.
* Reading the seed files and the clock: users, assets and the moment are parameters, as
  are the identifiers and times that events and alerts are given.
* The rules' `setdefault` loops are one shared `GroupBy`; in `BuildEvents` the event
  stream is sorted once for the events and again for the incidents, as in the source.
* Two requests at once: calls of the resilient client follow one another, each with its
  own moments; its messages keep their subject and reason but not the full sentence. A
  fallback that itself raises is not modelled.
* FastAPI routers, the databases, Consul, authentication, the console and the Gemini
  generator. The incident service's rows are a map numbered by a sequence that never
  reuses a number; an explicit null in an update is not modelled.
* Query rows whose columns have types the six queries do not return, and the queries
  themselves: rows are arbitrary.
* Joining an answer's pieces into text: `Templates.Words` is the fixed wording, a table
  no statement rests on; `Line.stripped` says which lines lose trailing blanks. The
  evidence block's `render` and `describe` are left out, and so is the wording of the
  reasons a classification gives, beyond those of a refusal.
* `AlertStore.resolve_events`, the choice of evaluation moment on the rules' command line,
  the command-line front ends and the printing of alerts.
