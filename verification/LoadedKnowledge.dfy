/** The reference knowledge as the loaded graph holds it, and what it adds to an alert. */
module LoadedKnowledge {
  import opened Wrappers
  import opened Sequences
  import opened Timestamps
  import opened Events
  import opened EventStores
  import opened Alerts
  import opened Detection
  import opened Graphs
  import opened LoadEvents
  import opened LoadOrder
  import opened LoadedGraph
  import opened Loader
  import Knowledge
  import Topology

  // ----------------------------------------------------------------- the tables

  /** Which control mitigates which technique. */
  ghost predicate KnownToMitigate(control: string, technique: string) {
    || (control == "CTRL-LOCKOUT" && technique in {"T1110", "T1110.001", "T1110.003"})
    || (control == "CTRL-MFA" && technique in {"T1110", "T1110.004", "T1078"})
    || (control == "CTRL-PWRESET" && technique in {"T1110", "T1078"})
    || (control == "CTRL-RATELIMIT" && technique in {"T1498", "T1499"})
  }

  /** Which runbook answers which technique. */
  ghost predicate KnownToAnswer(runbook: string, technique: string) {
    || (runbook == "RB-BRUTE-FORCE" && technique == "T1110")
    || (runbook == "RB-CRED-COMPROMISE" && technique in {"T1110", "T1078"})
    || (runbook == "RB-DOS" && technique in {"T1498", "T1499"})
  }

  /** Which control a runbook describes. */
  ghost predicate KnownToDescribe(runbook: string, control: string) {
    || (runbook == "RB-BRUTE-FORCE" && control == "CTRL-LOCKOUT")
    || (runbook == "RB-CRED-COMPROMISE" && control == "CTRL-PWRESET")
    || (runbook == "RB-DOS" && control == "CTRL-RATELIMIT")
  }

  /** Which technique exploits which weakness. */
  ghost predicate KnownToExploit(technique: string, weakness: string) {
    || (weakness == "SENTINEL-VULN-001" && technique in {"T1110", "T1110.001", "T1110.003", "T1110.004"})
    || (weakness == "SENTINEL-VULN-002" && technique in {"T1110", "T1078"})
    || (weakness == "SENTINEL-VULN-003" && technique in {"T1498", "T1499"})
  }

  /** Which technique is aimed at which service. */
  ghost predicate KnownToTarget(technique: string, service: string) {
    || (technique in {"T1110", "T1078"} && service == "auth-service")
    || (technique == "T1498" && service == "api-gateway")
    || (technique == "T1499" && service == "incident-service")
  }

  /** Which service serves which path. */
  ghost predicate KnownToExpose(service: string, path: string) {
    || (service == "auth-service" && path in {"/api/v1/auth/login", "/api/v1/auth/verify", "/api/v1/auth/users"})
    || (service == "incident-service" && path == "/api/v1/incidents")
    || (service == "asset-service" && path == "/api/v1/assets")
  }

  lemma {:induction false} MitigatesTable(a: string, b: string)
    ensures (exists c :: c in Knowledge.CONTROLS && c.controlId == a && b in c.threats) <==> KnownToMitigate(a, b)
  {
    var all := Knowledge.CONTROLS;
    assert all[0] in all && all[1] in all && all[2] in all && all[3] in all;
  }

  lemma {:induction false} AnswersTable(a: string, b: string)
    ensures (exists d :: d in Knowledge.DOCUMENTS && d.docId == a && b in d.respondsTo) <==> KnownToAnswer(a, b)
    ensures (exists d :: d in Knowledge.DOCUMENTS && d.docId == a && d.describes == b) <==> KnownToDescribe(a, b)
  {
    var all := Knowledge.DOCUMENTS;
    assert all[0] in all && all[1] in all && all[2] in all;
  }

  lemma {:induction false} ExploitsTable(a: string, b: string)
    ensures (exists v :: v in Knowledge.VULNERABILITIES && v.vulnId == b && a in v.threats) <==> KnownToExploit(a, b)
  {
    var all := Knowledge.VULNERABILITIES;
    assert all[0] in all && all[1] in all && all[2] in all;
  }

  lemma {:induction false} TargetsTable(a: string, b: string)
    ensures (exists l :: l in Knowledge.THREAT_TARGETS && l.technique == a && l.other == b) <==> KnownToTarget(a, b)
    ensures (exists l :: l in Knowledge.SUBTECHNIQUES && l.technique == a && l.other == b)
      <==> a in {"T1110.001", "T1110.002", "T1110.003", "T1110.004"} && b == "T1110"
  {
    var all, subs := Knowledge.THREAT_TARGETS, Knowledge.SUBTECHNIQUES;
    assert all[0] in all && all[1] in all && all[2] in all && all[3] in all;
    assert subs[0] in subs && subs[1] in subs && subs[2] in subs && subs[3] in subs;
  }

  lemma {:induction false} ExposesTable(a: string, b: string)
    ensures (exists e :: e in Topology.ENDPOINTS && e.service == a && e.path == b) <==> KnownToExpose(a, b)
    ensures (exists d :: d in Topology.DEPENDENCIES && d.caller == a && d.callee == b)
      <==> a == "incident-service" && b == "asset-service"
  {
    var all, calls := Topology.ENDPOINTS, Topology.DEPENDENCIES;
    assert all[0] in all && all[1] in all && all[2] in all && all[3] in all && all[4] in all;
    assert calls[0] in calls;
  }

  // -------------------------------------------------------------- the loaded graph

  /** The graph one load leaves of these events and alerts. */
  function Loaded(all: seq<SecurityEvent>, alerts: seq<Alert>, users: seq<Topology.SeedUser>,
                  assets: seq<Topology.SeedAsset>): Graph
  {
    RunAll(CollectedWrites(all, alerts, users, assets), EMPTY_GRAPH)
  }

  lemma {:induction false} ReferenceOnly(all: seq<SecurityEvent>, alerts: seq<Alert>, users: seq<Topology.SeedUser>,
                                         assets: seq<Topology.SeedAsset>, x: Edge)
    requires EvidenceCollected(all, alerts) && DistinctIds(alerts)
    requires x.kind in {Mitigates, SupportsResponseTo, Describes, Exploits, Targets, SubtechniqueOf, Exposes, DependsOn}
    ensures x in Loaded(all, alerts, users, assets).edges <==> Topology.Charted(x, users) || Knowledge.Charted(x)
  {
    hide Topology.Charted, Knowledge.Charted, CollectedWrites, RunAll, ReportsOf, EventTimes, Grouped, EndpointStem,
      AssetRead, AssetNamedIn, Truthy, FirstCreation, EventStores.Moment;
    EdgesAsRecorded(all, alerts, users, assets, x);
  }

  lemma {:induction false} ControlCharted(a: string, b: string, users: seq<Topology.SeedUser>)
    ensures var x := Edge(NodeKey(Control, a), Mitigates, NodeKey(Threat, b));
      Topology.Charted(x, users) || Knowledge.Charted(x) <==> KnownToMitigate(a, b)
  {
    hide Knowledge.CONTROLS, Knowledge.DOCUMENTS, Knowledge.VULNERABILITIES, Knowledge.THREAT_TARGETS,
      Knowledge.SUBTECHNIQUES, Topology.ENDPOINTS, Topology.DEPENDENCIES, KnownToMitigate;
    MitigatesTable(a, b);
    if c :| c in Knowledge.CONTROLS && c.controlId == a && b in c.threats {
      assert Edge(NodeKey(Control, c.controlId), Mitigates, Knowledge.ThreatKey(b))
        == Edge(NodeKey(Control, a), Mitigates, NodeKey(Threat, b));
    }
  }

  lemma {:induction false} ResponseCharted(a: string, b: string, users: seq<Topology.SeedUser>)
    ensures var x := Edge(NodeKey(Document, a), SupportsResponseTo, NodeKey(Threat, b));
      Topology.Charted(x, users) || Knowledge.Charted(x) <==> KnownToAnswer(a, b)
  {
    hide Knowledge.CONTROLS, Knowledge.DOCUMENTS, Knowledge.VULNERABILITIES, Knowledge.THREAT_TARGETS,
      Knowledge.SUBTECHNIQUES, Topology.ENDPOINTS, Topology.DEPENDENCIES, KnownToAnswer, KnownToDescribe;
    AnswersTable(a, b);
    if d :| d in Knowledge.DOCUMENTS && d.docId == a && b in d.respondsTo {
      assert Edge(NodeKey(Document, d.docId), SupportsResponseTo, Knowledge.ThreatKey(b))
        == Edge(NodeKey(Document, a), SupportsResponseTo, NodeKey(Threat, b));
    }
  }

  lemma {:induction false} RunbookCharted(a: string, b: string, users: seq<Topology.SeedUser>)
    ensures var x := Edge(NodeKey(Document, a), Describes, NodeKey(Control, b));
      Topology.Charted(x, users) || Knowledge.Charted(x) <==> KnownToDescribe(a, b)
  {
    hide Knowledge.CONTROLS, Knowledge.DOCUMENTS, Knowledge.VULNERABILITIES, Knowledge.THREAT_TARGETS,
      Knowledge.SUBTECHNIQUES, Topology.ENDPOINTS, Topology.DEPENDENCIES, KnownToAnswer, KnownToDescribe;
    AnswersTable(a, b);
  }

  lemma {:induction false} ExploitCharted(a: string, b: string, users: seq<Topology.SeedUser>)
    ensures var x := Edge(NodeKey(Threat, a), Exploits, NodeKey(Vulnerability, b));
      Topology.Charted(x, users) || Knowledge.Charted(x) <==> KnownToExploit(a, b)
  {
    hide Knowledge.CONTROLS, Knowledge.DOCUMENTS, Knowledge.VULNERABILITIES, Knowledge.THREAT_TARGETS,
      Knowledge.SUBTECHNIQUES, Topology.ENDPOINTS, Topology.DEPENDENCIES, KnownToExploit;
    ExploitsTable(a, b);
    if v :| v in Knowledge.VULNERABILITIES && v.vulnId == b && a in v.threats {
      assert Edge(Knowledge.ThreatKey(a), Exploits, NodeKey(Vulnerability, v.vulnId))
        == Edge(NodeKey(Threat, a), Exploits, NodeKey(Vulnerability, b));
    }
  }

  lemma {:induction false} TargetCharted(a: string, b: string, users: seq<Topology.SeedUser>)
    ensures var x := Edge(NodeKey(Threat, a), Targets, NodeKey(Service, b));
      Topology.Charted(x, users) || Knowledge.Charted(x) <==> KnownToTarget(a, b)
  {
    hide Knowledge.CONTROLS, Knowledge.DOCUMENTS, Knowledge.VULNERABILITIES, Knowledge.THREAT_TARGETS,
      Knowledge.SUBTECHNIQUES, Topology.ENDPOINTS, Topology.DEPENDENCIES, KnownToTarget;
    TargetsTable(a, b);
  }

  lemma {:induction false} SubtechniqueCharted(a: string, b: string, users: seq<Topology.SeedUser>)
    ensures var x := Edge(NodeKey(Threat, a), SubtechniqueOf, NodeKey(Threat, b));
      Topology.Charted(x, users) || Knowledge.Charted(x)
      <==> a in {"T1110.001", "T1110.002", "T1110.003", "T1110.004"} && b == "T1110"
  {
    hide Knowledge.CONTROLS, Knowledge.DOCUMENTS, Knowledge.VULNERABILITIES, Knowledge.THREAT_TARGETS,
      Knowledge.SUBTECHNIQUES, Topology.ENDPOINTS, Topology.DEPENDENCIES, KnownToTarget;
    TargetsTable(a, b);
  }

  lemma {:induction false} PathCharted(a: string, b: string, users: seq<Topology.SeedUser>)
    ensures var x := Edge(NodeKey(Service, a), Exposes, NodeKey(Endpoint, b));
      Topology.Charted(x, users) || Knowledge.Charted(x) <==> KnownToExpose(a, b)
  {
    hide Knowledge.CONTROLS, Knowledge.DOCUMENTS, Knowledge.VULNERABILITIES, Knowledge.THREAT_TARGETS,
      Knowledge.SUBTECHNIQUES, Topology.ENDPOINTS, Topology.DEPENDENCIES, KnownToExpose;
    ExposesTable(a, b);
  }

  lemma {:induction false} CallCharted(a: string, b: string, users: seq<Topology.SeedUser>)
    ensures var x := Edge(NodeKey(Service, a), DependsOn, NodeKey(Service, b));
      Topology.Charted(x, users) || Knowledge.Charted(x) <==> a == "incident-service" && b == "asset-service"
  {
    hide Knowledge.CONTROLS, Knowledge.DOCUMENTS, Knowledge.VULNERABILITIES, Knowledge.THREAT_TARGETS,
      Knowledge.SUBTECHNIQUES, Topology.ENDPOINTS, Topology.DEPENDENCIES, KnownToExpose;
    ExposesTable(a, b);
  }

  /** Whatever was collected, the loaded graph relates techniques, weaknesses, controls,
      runbooks, services and paths exactly as the tables have it. */
  lemma {:induction false} TablesLoaded(all: seq<SecurityEvent>, alerts: seq<Alert>, users: seq<Topology.SeedUser>,
                                        assets: seq<Topology.SeedAsset>, a: string, b: string)
    requires EvidenceCollected(all, alerts) && DistinctIds(alerts)
    ensures var edges := Loaded(all, alerts, users, assets).edges;
      && (Edge(NodeKey(Control, a), Mitigates, NodeKey(Threat, b)) in edges <==> KnownToMitigate(a, b))
      && (Edge(NodeKey(Document, a), SupportsResponseTo, NodeKey(Threat, b)) in edges <==> KnownToAnswer(a, b))
      && (Edge(NodeKey(Document, a), Describes, NodeKey(Control, b)) in edges <==> KnownToDescribe(a, b))
      && (Edge(NodeKey(Threat, a), Exploits, NodeKey(Vulnerability, b)) in edges <==> KnownToExploit(a, b))
      && (Edge(NodeKey(Threat, a), Targets, NodeKey(Service, b)) in edges <==> KnownToTarget(a, b))
      && (Edge(NodeKey(Threat, a), SubtechniqueOf, NodeKey(Threat, b)) in edges
          <==> a in {"T1110.001", "T1110.002", "T1110.003", "T1110.004"} && b == "T1110")
      && (Edge(NodeKey(Service, a), Exposes, NodeKey(Endpoint, b)) in edges <==> KnownToExpose(a, b))
      && (Edge(NodeKey(Service, a), DependsOn, NodeKey(Service, b)) in edges
          <==> a == "incident-service" && b == "asset-service")
  {
    hide Loaded, Topology.Charted, Knowledge.Charted, EvidenceCollected, DistinctIds, KnownToMitigate, KnownToAnswer,
      KnownToDescribe, KnownToExploit, KnownToTarget, KnownToExpose;
    ReferenceOnly(all, alerts, users, assets, Edge(NodeKey(Control, a), Mitigates, NodeKey(Threat, b)));
    ReferenceOnly(all, alerts, users, assets, Edge(NodeKey(Document, a), SupportsResponseTo, NodeKey(Threat, b)));
    ReferenceOnly(all, alerts, users, assets, Edge(NodeKey(Document, a), Describes, NodeKey(Control, b)));
    ReferenceOnly(all, alerts, users, assets, Edge(NodeKey(Threat, a), Exploits, NodeKey(Vulnerability, b)));
    ReferenceOnly(all, alerts, users, assets, Edge(NodeKey(Threat, a), Targets, NodeKey(Service, b)));
    ReferenceOnly(all, alerts, users, assets, Edge(NodeKey(Threat, a), SubtechniqueOf, NodeKey(Threat, b)));
    ReferenceOnly(all, alerts, users, assets, Edge(NodeKey(Service, a), Exposes, NodeKey(Endpoint, b)));
    ReferenceOnly(all, alerts, users, assets, Edge(NodeKey(Service, a), DependsOn, NodeKey(Service, b)));
    ControlCharted(a, b, users);
    ResponseCharted(a, b, users);
    RunbookCharted(a, b, users);
    ExploitCharted(a, b, users);
    TargetCharted(a, b, users);
    SubtechniqueCharted(a, b, users);
    PathCharted(a, b, users);
    CallCharted(a, b, users);
  }

  // ------------------------------------------------------------ from alert to response

  /** The technique the alerts of a rule are evidence of. */
  ghost predicate EvidenceOf(rule: Rule, technique: string) {
    || (rule == MultipleFailedLoginsRule && technique == "T1110")
    || (rule == UnauthorisedAccessRule && technique == "T1078")
    || (rule == AbnormalRequestRateRule && technique == "T1498")
    || (rule == ServiceFailureRule && technique == "T1499")
  }

  /** In `g` the alert is evidence of that technique, and a runbook that answers the
      technique describes a control that mitigates it. */
  ghost predicate Answered(g: Graph, alertId: string, technique: string, control: string, runbook: string) {
    && Edge(NodeKey(Label.Alert, alertId), Indicates, NodeKey(Threat, technique)) in g.edges
    && Edge(NodeKey(Control, control), Mitigates, NodeKey(Threat, technique)) in g.edges
    && Edge(NodeKey(Document, runbook), SupportsResponseTo, NodeKey(Threat, technique)) in g.edges
    && Edge(NodeKey(Document, runbook), Describes, NodeKey(Control, control)) in g.edges
  }

  /** From any readable stream: every alert of the loaded graph leads, by its own rule's
      technique, to a control and to the runbook that describes it. */
  lemma {:induction false} EveryAlertHasResponse(es: seq<SecurityEvent>, clock: DateTime, digest: Digest,
                                                 users: seq<Topology.SeedUser>, assets: seq<Topology.SeedAsset>,
                                                 a: Alert)
    returns (technique: string, control: string, runbook: string)
    requires clock.Valid() && Readable(es)
    requires a in StoredAlerts(digest, AllDrafts(EvaluationMoment(es, clock), es))
    ensures EvidenceOf(a.rule, technique)
    ensures Answered(RunAll(LoadedWrites(es, clock, digest, users, assets), EMPTY_GRAPH), a.alertId, technique,
                     control, runbook)
  {
    hide AllDrafts, StoredAlerts, Sort, TimeOrder, RunAll, CollectedWrites, EvaluationMoment, ReadableEvent,
      EvidenceCollected, DistinctIds;
    technique := match a.rule
      case MultipleFailedLoginsRule => "T1110"
      case UnauthorisedAccessRule => "T1078"
      case AbnormalRequestRateRule => "T1498"
      case ServiceFailureRule => "T1499";
    control := match a.rule
      case MultipleFailedLoginsRule => "CTRL-LOCKOUT"
      case UnauthorisedAccessRule => "CTRL-PWRESET"
      case _ => "CTRL-RATELIMIT";
    runbook := match a.rule
      case MultipleFailedLoginsRule => "RB-BRUTE-FORCE"
      case UnauthorisedAccessRule => "RB-CRED-COMPROMISE"
      case _ => "RB-DOS";
    var now := EvaluationMoment(es, clock);
    var all, stored := Sort(TimeOrder(), es), StoredAlerts(digest, AllDrafts(now, es));
    StoredEvidenceResolves(digest, now, es);
    IndicatesIff(all, stored, users, assets, a, technique);
    TablesLoaded(all, stored, users, assets, control, technique);
    TablesLoaded(all, stored, users, assets, runbook, technique);
    TablesLoaded(all, stored, users, assets, runbook, control);
  }
}
