/** What the loaded graph says of the nodes the topology and the fact tables describe. */
module LoadedTables {
  import opened Wrappers
  import opened Sequences
  import opened Strings
  import opened Events
  import opened Alerts
  import opened Graphs
  import opened LoadEvents
  import opened LoadOrder
  import opened LoadedGraph
  import opened LoadedKnowledge
  import Knowledge
  import Topology

  // ------------------------------------------------- whose properties they are

  /** The events, alerts and incidents set properties of their own nodes alone. */
  ghost predicate SetsLive(w: Write) {
    w.statement.MergeSet? ==> w.statement.node.tag in {Event, Label.Alert, Incident}
  }

  lemma {:induction false} EventSetsLive(e: SecurityEvent, w: Write)
    requires w in EventWrites(e)
    ensures SetsLive(w)
  {
    hide EventNode, EventLinks, EndpointStem, AssetRead, Truthy;
    if w in EventLinks(e) {
      LinkParts(e, w);
    } else {
      EventNodeShape(e);
    }
  }

  lemma {:induction false} AlertSetsLive(a: Alert, w: Write)
    requires w in AlertWrites(a)
    ensures SetsLive(w)
  {
  }

  lemma {:induction false} IncidentSetsLive(id: string, reports: seq<SecurityEvent>, alerts: seq<Alert>,
                                            times: map<string, int>, w: Write)
    requires reports != [] && w in IncidentWrites(id, reports, alerts, times)
    ensures SetsLive(w)
  {
    hide FlatMap, Grouped, FirstCreation, EventStores.Moment, AssetNamedIn, Truthy;
    FlatMapIn(ContainsWrites(id, EventStores.Moment(CreationOf(reports)), times), alerts, w);
  }

  lemma {:induction false} LiveSetsLive(all: seq<SecurityEvent>, alerts: seq<Alert>, w: Write)
    requires w in FlatMap(EventWrites, all) || w in FlatMap(AlertWrites, alerts) || w in IncidentsWrites(all, alerts)
    ensures SetsLive(w)
  {
    hide EventWrites, AlertWrites, IncidentWrites, FlatMap, SetsLive, ReportsOf, EventTimes, SortedKeys, IncidentIds;
    FlatMapIn(EventWrites, all, w);
    FlatMapIn(AlertWrites, alerts, w);
    FlatMapIn(IncidentBlock(all, alerts), SortedKeys(IncidentIds(all)), w);
    if e :| e in all && w in EventWrites(e) {
      EventSetsLive(e, w);
    } else if a :| a in alerts && w in AlertWrites(a) {
      AlertSetsLive(a, w);
    } else {
      var id :| id in SortedKeys(IncidentIds(all)) && w in IncidentBlock(all, alerts)(id);
      if ReportsOf(id, all) != [] {
        IncidentSetsLive(id, ReportsOf(id, all), alerts, EventTimes(all), w);
      }
    }
  }

  lemma {:induction false} OverlayElsewhere(ws: seq<Write>, n: NodeKey, p: Property, v: Value)
    requires forall w :: w in ws && w.statement.MergeSet? ==> w.statement.node != n
    ensures Overlay(ws, n, p, v) == v
  {
    if ws != [] {
      assert ws[|ws| - 1] in ws;
      OverlayElsewhere(ws[..|ws| - 1], n, p, v);
    }
  }

  /** A property of any other node is the last one the topology or the tables set. */
  lemma {:induction false} TablesDecide(all: seq<SecurityEvent>, alerts: seq<Alert>, users: seq<Topology.SeedUser>,
                                        assets: seq<Topology.SeedAsset>, n: NodeKey, p: Property)
    requires n.tag !in {Event, Label.Alert, Incident}
    ensures Get(Loaded(all, alerts, users, assets), n, p)
      == Overlay(Knowledge.ReferenceWrites(), n, p, Overlay(Topology.TopologyWrites(users, assets), n, p, Absent))
  {
    hide CollectedWrites, RunAll, Overlay, FlatMap, Topology.TopologyWrites, IncidentsWrites, Knowledge.ReferenceWrites,
      Knowledge.RuleLinks;
    var a, b, c := Topology.TopologyWrites(users, assets), FlatMap(EventWrites, all), FlatMap(AlertWrites, alerts);
    var d, e, f := IncidentsWrites(all, alerts), Knowledge.ReferenceWrites(), Knowledge.RuleLinks();
    FourParts(all, alerts, users, assets);
    RunProperty(CollectedWrites(all, alerts, users, assets), EMPTY_GRAPH, n, p);
    var topology := Overlay(a, n, p, Absent);
    OverlayConcat(a + b, c + (d + (e + f)), n, p, Absent);
    OverlayConcat(a, b, n, p, Absent);
    OverlayConcat(c, d + (e + f), n, p, topology);
    OverlayConcat(d, e + f, n, p, topology);
    OverlayConcat(e, f, n, p, topology);
    LiveElsewhere(all, alerts, n, p, topology);
    LinksElsewhere(n, p, Overlay(e, n, p, topology));
  }

  lemma {:induction false} LiveElsewhere(all: seq<SecurityEvent>, alerts: seq<Alert>, n: NodeKey, p: Property, v: Value)
    requires n.tag !in {Event, Label.Alert, Incident}
    ensures Overlay(FlatMap(EventWrites, all), n, p, v) == v
    ensures Overlay(FlatMap(AlertWrites, alerts), n, p, v) == v
    ensures Overlay(IncidentsWrites(all, alerts), n, p, v) == v
  {
    hide FlatMap, IncidentsWrites, Overlay;
    forall w | w in FlatMap(EventWrites, all) || w in FlatMap(AlertWrites, alerts) || w in IncidentsWrites(all, alerts)
      ensures SetsLive(w)
    {
      LiveSetsLive(all, alerts, w);
    }
    OverlayElsewhere(FlatMap(EventWrites, all), n, p, v);
    OverlayElsewhere(FlatMap(AlertWrites, alerts), n, p, v);
    OverlayElsewhere(IncidentsWrites(all, alerts), n, p, v);
  }

  lemma {:induction false} LinksElsewhere(n: NodeKey, p: Property, v: Value)
    ensures Overlay(Knowledge.RuleLinks(), n, p, v) == v
  {
    hide Overlay, Knowledge.RuleLinks;
    forall w | w in Knowledge.RuleLinks()
      ensures !w.statement.MergeSet?
    {
      Knowledge.RuleLinksExact(w);
    }
    OverlayElsewhere(Knowledge.RuleLinks(), n, p, v);
  }

  // -------------------------------------------------------------- the fact tables

  /** What a SET of the tables is: one fact's. */
  lemma {:induction false} TableSets(w: Write)
    requires w in Knowledge.ReferenceWrites() && w.statement.MergeSet?
    ensures || (exists t :: t in Knowledge.THREATS && w == Knowledge.ThreatWrite(t))
            || (exists v :: v in Knowledge.VULNERABILITIES
                            && w == Knowledge.NamedNode(NodeKey(Vulnerability, v.vulnId), v.name))
            || (exists c :: c in Knowledge.CONTROLS && w == Knowledge.NamedNode(NodeKey(Control, c.controlId), c.name))
            || (exists d :: d in Knowledge.DOCUMENTS && w == Knowledge.DocumentWrites(d)[0])
  {
    hide FlatMap, Knowledge.CONTROLS, Knowledge.DOCUMENTS, Knowledge.VULNERABILITIES, Knowledge.THREAT_TARGETS,
      Knowledge.SUBTECHNIQUES, Knowledge.THREATS;
    FlatMapIn(Knowledge.VulnerabilityWrites, Knowledge.VULNERABILITIES, w);
    FlatMapIn(Knowledge.ControlWrites, Knowledge.CONTROLS, w);
    FlatMapIn(Knowledge.DocumentWrites, Knowledge.DOCUMENTS, w);
  }

  /** What a SET of the topology is: one service's, endpoint's, account's, role's or asset's. */
  lemma {:induction false} TopologySets(users: seq<Topology.SeedUser>, assets: seq<Topology.SeedAsset>, w: Write)
    requires w in Topology.TopologyWrites(users, assets) && w.statement.MergeSet?
    ensures || (exists s :: s in Topology.SERVICES && w == Topology.ServiceWrite(s))
            || (exists e :: e in Topology.ENDPOINTS && w == Topology.EndpointWrites(e)[0])
            || w.statement.node.tag in {User, Role, Asset}
  {
    hide FlatMap, Topology.SERVICES, Topology.ENDPOINTS, Topology.DEPENDENCIES;
    FlatMapIn(Topology.EndpointWrites, Topology.ENDPOINTS, w);
    FlatMapIn(Topology.UserWrites, [Topology.ADMIN] + users, w);
  }

  lemma {:induction false} TableWritten(t: Knowledge.ThreatFact, v: Knowledge.VulnerabilityFact,
                                        c: Knowledge.ControlFact, d: Knowledge.DocumentFact)
    ensures t in Knowledge.THREATS ==> Knowledge.ThreatWrite(t) in Knowledge.ReferenceWrites()
    ensures v in Knowledge.VULNERABILITIES ==>
      Knowledge.NamedNode(NodeKey(Vulnerability, v.vulnId), v.name) in Knowledge.ReferenceWrites()
    ensures c in Knowledge.CONTROLS ==>
      Knowledge.NamedNode(NodeKey(Control, c.controlId), c.name) in Knowledge.ReferenceWrites()
    ensures d in Knowledge.DOCUMENTS ==> Knowledge.DocumentWrites(d)[0] in Knowledge.ReferenceWrites()
  {
    hide FlatMap, Knowledge.CONTROLS, Knowledge.DOCUMENTS, Knowledge.VULNERABILITIES, Knowledge.THREAT_TARGETS,
      Knowledge.SUBTECHNIQUES, Knowledge.THREATS;
    if t in Knowledge.THREATS {
      var i :| 0 <= i < |Knowledge.THREATS| && Knowledge.THREATS[i] == t;
      assert Map(Knowledge.ThreatWrite, Knowledge.THREATS)[i] == Knowledge.ThreatWrite(t);
    }
    FlatMapIn(Knowledge.VulnerabilityWrites, Knowledge.VULNERABILITIES,
              Knowledge.NamedNode(NodeKey(Vulnerability, v.vulnId), v.name));
    assert Knowledge.VulnerabilityWrites(v)[0] == Knowledge.NamedNode(NodeKey(Vulnerability, v.vulnId), v.name);
    FlatMapIn(Knowledge.ControlWrites, Knowledge.CONTROLS, Knowledge.NamedNode(NodeKey(Control, c.controlId), c.name));
    assert Knowledge.ControlWrites(c)[0] == Knowledge.NamedNode(NodeKey(Control, c.controlId), c.name);
    FlatMapIn(Knowledge.DocumentWrites, Knowledge.DOCUMENTS, Knowledge.DocumentWrites(d)[0]);
  }

  /** What the tables call a node; of a runbook, its title. */
  ghost function CalledIn(n: NodeKey): Option<string> {
    match n.tag
    case Threat => TechniqueCalled(n.key)
    case Vulnerability =>
      if n.key == "SENTINEL-VULN-001" then Some("No account lockout")
      else if n.key == "SENTINEL-VULN-002" then Some("Single-factor authentication")
      else if n.key == "SENTINEL-VULN-003" then Some("Unbounded per-caller throughput")
      else None
    case Control =>
      if n.key == "CTRL-LOCKOUT" then Some("Account lockout")
      else if n.key == "CTRL-MFA" then Some("Multi-factor authentication")
      else if n.key == "CTRL-PWRESET" then Some("Forced password reset")
      else if n.key == "CTRL-RATELIMIT" then Some("Gateway rate limiting")
      else None
    case Document =>
      if n.key == "RB-BRUTE-FORCE" then Some("Runbook: brute-force response")
      else if n.key == "RB-CRED-COMPROMISE" then Some("Runbook: suspected account compromise")
      else if n.key == "RB-DOS" then Some("Runbook: service under load")
      else None
    case _ => None
  }

  ghost function TechniqueCalled(id: string): Option<string> {
    if id == "T1110" then Some("Brute Force")
    else if id == "T1110.001" then Some("Password Guessing")
    else if id == "T1110.002" then Some("Password Cracking")
    else if id == "T1110.003" then Some("Password Spraying")
    else if id == "T1110.004" then Some("Credential Stuffing")
    else if id == "T1078" then Some("Valid Accounts")
    else if id == "T1498" then Some("Network Denial of Service")
    else if id == "T1499" then Some("Endpoint Denial of Service")
    else None
  }

  ghost predicate IsCalled(n: NodeKey, name: string) {
    CalledIn(n) == Some(name)
  }

  ghost predicate HasTactic(technique: string, tactic: string) {
    || (technique in {"T1110", "T1110.001", "T1110.002", "T1110.003", "T1110.004"} && tactic == "Credential Access")
    || (technique == "T1078" && tactic == "Defense Evasion")
    || (technique in {"T1498", "T1499"} && tactic == "Impact")
  }

  lemma {:induction false} ThreatsCalled(t: Knowledge.ThreatFact)
    requires t in Knowledge.THREATS
    ensures IsCalled(NodeKey(Threat, t.techniqueId), t.name) && HasTactic(t.techniqueId, t.tactic)
  {
  }

  lemma {:induction false} WeaknessCalled(v: Knowledge.VulnerabilityFact)
    requires v in Knowledge.VULNERABILITIES
    ensures IsCalled(NodeKey(Vulnerability, v.vulnId), v.name)
  {
  }

  lemma {:induction false} ControlCalled(c: Knowledge.ControlFact)
    requires c in Knowledge.CONTROLS
    ensures IsCalled(NodeKey(Control, c.controlId), c.name)
  {
  }

  lemma {:induction false} RunbookCalled(d: Knowledge.DocumentFact)
    requires d in Knowledge.DOCUMENTS
    ensures IsCalled(NodeKey(Document, d.docId), d.title)
  {
  }

  lemma {:induction false} CalledThreat(n: NodeKey, name: string) returns (t: Knowledge.ThreatFact)
    requires IsCalled(n, name) && n.tag == Threat
    ensures t in Knowledge.THREATS && t.techniqueId == n.key
  {
    var id, all := n.key, Knowledge.THREATS;
    var i := if id == "T1110" then 0 else if id == "T1110.001" then 1 else if id == "T1110.002" then 2
             else if id == "T1110.003" then 3 else if id == "T1110.004" then 4 else if id == "T1078" then 5
             else if id == "T1498" then 6 else 7;
    t := all[i];
  }

  lemma {:induction false} CalledOther(n: NodeKey, name: string) returns (w: Write)
    requires IsCalled(n, name) && n.tag != Threat
    ensures w in Knowledge.ReferenceWrites() && w.statement.MergeSet? && w.statement.node == n
  {
    hide Knowledge.ReferenceWrites;
    var v, c, d := Knowledge.VULNERABILITIES[0], Knowledge.CONTROLS[0], Knowledge.DOCUMENTS[0];
    if n.tag == Vulnerability {
      v := CalledWeakness(n, name);
      w := Knowledge.NamedNode(NodeKey(Vulnerability, v.vulnId), v.name);
    } else if n.tag == Control {
      c := CalledControl(n, name);
      w := Knowledge.NamedNode(NodeKey(Control, c.controlId), c.name);
    } else {
      d := CalledRunbook(n, name);
      w := Knowledge.DocumentWrites(d)[0];
    }
    TableWritten(Knowledge.THREATS[0], v, c, d);
  }

  lemma {:induction false} CalledWeakness(n: NodeKey, name: string) returns (v: Knowledge.VulnerabilityFact)
    requires IsCalled(n, name) && n.tag == Vulnerability
    ensures v in Knowledge.VULNERABILITIES && v.vulnId == n.key
  {
    var all := Knowledge.VULNERABILITIES;
    v := all[if n.key == "SENTINEL-VULN-001" then 0 else if n.key == "SENTINEL-VULN-002" then 1 else 2];
  }

  lemma {:induction false} CalledControl(n: NodeKey, name: string) returns (c: Knowledge.ControlFact)
    requires IsCalled(n, name) && n.tag == Control
    ensures c in Knowledge.CONTROLS && c.controlId == n.key
  {
    var id, all := n.key, Knowledge.CONTROLS;
    c := all[if id == "CTRL-LOCKOUT" then 0 else if id == "CTRL-MFA" then 1 else if id == "CTRL-PWRESET" then 2 else 3];
  }

  lemma {:induction false} CalledRunbook(n: NodeKey, name: string) returns (d: Knowledge.DocumentFact)
    requires IsCalled(n, name) && n.tag == Document
    ensures d in Knowledge.DOCUMENTS && d.docId == n.key
  {
    var all := Knowledge.DOCUMENTS;
    d := all[if n.key == "RB-BRUTE-FORCE" then 0 else if n.key == "RB-CRED-COMPROMISE" then 1 else 2];
  }

  /** The property a node of the tables is called by. */
  ghost function NameOf(n: NodeKey): Property {
    if n.tag == Document then PTitle else PName
  }

  lemma {:induction false} SetsItsName(w: Write, n: NodeKey, name: string)
    requires w in Knowledge.ReferenceWrites() && w.statement.MergeSet? && w.statement.node == n && IsCalled(n, name)
    ensures NameOf(n) in w.statement.props && w.statement.props[NameOf(n)] == Text(name)
  {
    hide Knowledge.ReferenceWrites, IsCalled, HasTactic, Knowledge.CONTROLS, Knowledge.DOCUMENTS,
      Knowledge.VULNERABILITIES, Knowledge.THREATS;
    TableSets(w);
    if t :| t in Knowledge.THREATS && w == Knowledge.ThreatWrite(t) {
      NamesThreat(t, n, name);
    } else if v :| v in Knowledge.VULNERABILITIES
                   && w == Knowledge.NamedNode(NodeKey(Vulnerability, v.vulnId), v.name) {
      WeaknessCalled(v);
      NamesNode(NodeKey(Vulnerability, v.vulnId), v.name, n, name);
    } else if c :| c in Knowledge.CONTROLS && w == Knowledge.NamedNode(NodeKey(Control, c.controlId), c.name) {
      ControlCalled(c);
      NamesNode(NodeKey(Control, c.controlId), c.name, n, name);
    } else {
      var d :| d in Knowledge.DOCUMENTS && w == Knowledge.DocumentWrites(d)[0];
      NamesRunbook(d, n, name);
    }
  }

  lemma {:induction false} NamesThreat(t: Knowledge.ThreatFact, n: NodeKey, name: string)
    requires t in Knowledge.THREATS && IsCalled(n, name) && n == NodeKey(Threat, t.techniqueId)
    ensures Knowledge.ThreatWrite(t).statement.props[PName] == Text(name)
  {
    hide CalledIn, Knowledge.THREATS;
    ThreatsCalled(t);
  }

  lemma {:induction false} NamesNode(m: NodeKey, called: string, n: NodeKey, name: string)
    requires IsCalled(m, called) && IsCalled(n, name) && n == m
    requires m.tag != Document
    ensures Knowledge.NamedNode(m, called).statement.props[NameOf(n)] == Text(name)
  {
    hide CalledIn;
  }

  lemma {:induction false} NamesRunbook(d: Knowledge.DocumentFact, n: NodeKey, name: string)
    requires d in Knowledge.DOCUMENTS && IsCalled(n, name) && n == NodeKey(Document, d.docId)
    ensures Knowledge.DocumentWrites(d)[0].statement.props[PTitle] == Text(name)
  {
    hide CalledIn, Knowledge.DOCUMENTS;
    RunbookCalled(d);
  }

  lemma {:induction false} SetsItsTactic(w: Write, technique: string, tactic: string)
    requires w in Knowledge.ReferenceWrites() && w.statement.MergeSet?
    requires w.statement.node == NodeKey(Threat, technique) && HasTactic(technique, tactic)
    ensures PTactic in w.statement.props && w.statement.props[PTactic] == Text(tactic)
  {
    hide Knowledge.ReferenceWrites, IsCalled, HasTactic, Knowledge.CONTROLS, Knowledge.DOCUMENTS,
      Knowledge.VULNERABILITIES, Knowledge.THREATS;
    TableSets(w);
    var t :| t in Knowledge.THREATS && w == Knowledge.ThreatWrite(t);
    ThreatsCalled(t);
    OneTactic(technique, tactic, t.tactic);
  }

  lemma {:induction false} OneTactic(technique: string, a: string, b: string)
    requires HasTactic(technique, a) && HasTactic(technique, b)
    ensures a == b
  {
  }

  /** Whatever was collected, each technique, weakness, control and runbook is called in
      the loaded graph what the tables call it, and each technique has its tactic. */
  lemma {:induction false} CalledAsTabled(all: seq<SecurityEvent>, alerts: seq<Alert>, users: seq<Topology.SeedUser>,
                                          assets: seq<Topology.SeedAsset>, n: NodeKey, name: string, tactic: string)
    requires IsCalled(n, name)
    ensures Get(Loaded(all, alerts, users, assets), n, if n.tag == Document then PTitle else PName) == Text(name)
    ensures n.tag == Threat && HasTactic(n.key, tactic) ==>
      Get(Loaded(all, alerts, users, assets), n, PTactic) == Text(tactic)
  {
    hide Loaded, Knowledge.ReferenceWrites, Topology.TopologyWrites, Overlay, IsCalled, HasTactic, Get,
      Knowledge.THREATS;
    var w := WrittenAs(n, name);
    var ws := Knowledge.ReferenceWrites();
    NotLive(n, name);
    TablesDecide(all, alerts, users, assets, n, NameOf(n));
    TablesDecide(all, alerts, users, assets, n, PTactic);
    forall x | x in ws && x.statement.MergeSet? && x.statement.node == n
      ensures NameOf(n) in x.statement.props && x.statement.props[NameOf(n)] == Text(name)
      ensures n.tag == Threat && HasTactic(n.key, tactic) ==>
        PTactic in x.statement.props && x.statement.props[PTactic] == Text(tactic)
    {
      SetsItsName(x, n, name);
      if n.tag == Threat && HasTactic(n.key, tactic) {
        SetsItsTactic(x, n.key, tactic);
      }
    }
    var topology := Topology.TopologyWrites(users, assets);
    OverlayAgreed(ws, n, NameOf(n), Text(name), Overlay(topology, n, NameOf(n), Absent));
    if n.tag == Threat && HasTactic(n.key, tactic) {
      OverlayAgreed(ws, n, PTactic, Text(tactic), Overlay(topology, n, PTactic, Absent));
    }
  }

  lemma {:induction false} WrittenAs(n: NodeKey, name: string) returns (w: Write)
    requires IsCalled(n, name)
    ensures w in Knowledge.ReferenceWrites() && w.statement.MergeSet? && w.statement.node == n
  {
    hide Knowledge.ReferenceWrites, IsCalled;
    if n.tag == Threat {
      var t := CalledThreat(n, name);
      w := Knowledge.ThreatWrite(t);
      TableWritten(t, Knowledge.VULNERABILITIES[0], Knowledge.CONTROLS[0], Knowledge.DOCUMENTS[0]);
    } else {
      w := CalledOther(n, name);
    }
  }

  lemma {:induction false} NotLive(n: NodeKey, name: string)
    requires IsCalled(n, name)
    ensures n.tag in {Threat, Vulnerability, Control, Document}
  {
  }

  // ---------------------------------------------------------------- the topology

  /** The port a service listens on. */
  ghost predicate ListensOn(service: string, port: int) {
    || (service == "api-gateway" && port == 8000)
    || (service == "auth-service" && port == 8001)
    || (service == "incident-service" && port == 8002)
    || (service == "asset-service" && port == 8003)
  }

  /** How a path is asked; logging in is all that needs no token. */
  ghost predicate IsAsked(path: string, verb: string, guarded: bool) {
    || (path == "/api/v1/auth/login" && verb == "POST" && !guarded)
    || (path == "/api/v1/auth/verify" && verb == "GET" && guarded)
    || (path == "/api/v1/auth/users" && verb == "POST" && guarded)
    || (path == "/api/v1/incidents" && verb == "GET" && guarded)
    || (path == "/api/v1/assets" && verb == "GET" && guarded)
  }

  lemma {:induction false} PortsListed(name: string, port: int) returns (s: Topology.ServiceFact)
    requires ListensOn(name, port)
    ensures s in Topology.SERVICES && s.name == name
  {
    var all := Topology.SERVICES;
    s := all[if name == "auth-service" then 0 else if name == "incident-service" then 1
             else if name == "asset-service" then 2 else 3];
  }

  lemma {:induction false} ListedPort(s: Topology.ServiceFact, port: int)
    requires s in Topology.SERVICES && ListensOn(s.name, port)
    ensures s.port == port
  {
  }

  lemma {:induction false} PathsListed(path: string, verb: string, guarded: bool) returns (e: Topology.EndpointFact)
    requires IsAsked(path, verb, guarded)
    ensures e in Topology.ENDPOINTS && e.path == path
  {
    var all := Topology.ENDPOINTS;
    e := all[if path == "/api/v1/auth/login" then 0 else if path == "/api/v1/auth/verify" then 1
             else if path == "/api/v1/auth/users" then 2 else if path == "/api/v1/incidents" then 3 else 4];
  }

  lemma {:induction false} ListedPath(e: Topology.EndpointFact, verb: string, guarded: bool)
    requires e in Topology.ENDPOINTS && IsAsked(e.path, verb, guarded)
    ensures e.httpMethod == verb && e.requiresToken == guarded
  {
  }

  lemma {:induction false} TopologyWritten(users: seq<Topology.SeedUser>, assets: seq<Topology.SeedAsset>,
                                           s: Topology.ServiceFact, e: Topology.EndpointFact)
    ensures s in Topology.SERVICES ==> Topology.ServiceWrite(s) in Topology.TopologyWrites(users, assets)
    ensures e in Topology.ENDPOINTS ==> Topology.EndpointWrites(e)[0] in Topology.TopologyWrites(users, assets)
  {
    hide FlatMap, Topology.SERVICES, Topology.ENDPOINTS, Topology.DEPENDENCIES;
    if s in Topology.SERVICES {
      var i :| 0 <= i < |Topology.SERVICES| && Topology.SERVICES[i] == s;
      assert Map(Topology.ServiceWrite, Topology.SERVICES)[i] == Topology.ServiceWrite(s);
    }
    FlatMapIn(Topology.EndpointWrites, Topology.ENDPOINTS, Topology.EndpointWrites(e)[0]);
  }

  lemma {:induction false} TablesSetNoTopology(n: NodeKey, p: Property, v: Value)
    requires n.tag in {Service, Endpoint, User, Role, Asset}
    ensures Overlay(Knowledge.ReferenceWrites(), n, p, v) == v
  {
    hide Knowledge.ReferenceWrites, Overlay, Knowledge.CONTROLS, Knowledge.DOCUMENTS, Knowledge.VULNERABILITIES,
      Knowledge.THREATS;
    forall w | w in Knowledge.ReferenceWrites() && w.statement.MergeSet?
      ensures w.statement.node != n
    {
      TableSets(w);
    }
    OverlayElsewhere(Knowledge.ReferenceWrites(), n, p, v);
  }

  lemma {:induction false} PortLoaded(all: seq<SecurityEvent>, alerts: seq<Alert>, users: seq<Topology.SeedUser>,
                                      assets: seq<Topology.SeedAsset>, name: string, port: int)
    requires ListensOn(name, port)
    ensures Get(Loaded(all, alerts, users, assets), NodeKey(Service, name), PPort) == Number(port)
  {
    hide Loaded, Topology.TopologyWrites, Knowledge.ReferenceWrites, Overlay, ListensOn, Get, Topology.SERVICES,
      Topology.ENDPOINTS;
    var ws, n := Topology.TopologyWrites(users, assets), NodeKey(Service, name);
    var s := PortsListed(name, port);
    TopologyWritten(users, assets, s, Topology.EndpointFact("", "", false, ""));
    TablesDecide(all, alerts, users, assets, n, PPort);
    TablesSetNoTopology(n, PPort, Overlay(ws, n, PPort, Absent));
    forall w | w in ws && w.statement.MergeSet? && w.statement.node == n
      ensures PPort in w.statement.props && w.statement.props[PPort] == Number(port)
    {
      TopologySets(users, assets, w);
      var r :| r in Topology.SERVICES && w == Topology.ServiceWrite(r);
      ListedPort(r, port);
    }
    OverlayAgreed(ws, n, PPort, Number(port), Absent);
  }

  lemma {:induction false} PathLoaded(all: seq<SecurityEvent>, alerts: seq<Alert>, users: seq<Topology.SeedUser>,
                                      assets: seq<Topology.SeedAsset>, path: string, verb: string, guarded: bool)
    requires IsAsked(path, verb, guarded)
    ensures var g, n := Loaded(all, alerts, users, assets), NodeKey(Endpoint, path);
      Get(g, n, PMethod) == Text(verb) && Get(g, n, PProtected) == Flag(guarded)
  {
    hide Loaded, Topology.TopologyWrites, Knowledge.ReferenceWrites, Overlay, IsAsked, Get, Topology.SERVICES,
      Topology.ENDPOINTS;
    var ws, n := Topology.TopologyWrites(users, assets), NodeKey(Endpoint, path);
    var e := PathsListed(path, verb, guarded);
    TopologyWritten(users, assets, Topology.ServiceFact("", 0), e);
    TablesDecide(all, alerts, users, assets, n, PMethod);
    TablesDecide(all, alerts, users, assets, n, PProtected);
    TablesSetNoTopology(n, PMethod, Overlay(ws, n, PMethod, Absent));
    TablesSetNoTopology(n, PProtected, Overlay(ws, n, PProtected, Absent));
    forall w | w in ws && w.statement.MergeSet? && w.statement.node == n
      ensures PMethod in w.statement.props && w.statement.props[PMethod] == Text(verb)
      ensures PProtected in w.statement.props && w.statement.props[PProtected] == Flag(guarded)
    {
      TopologySets(users, assets, w);
      var f :| f in Topology.ENDPOINTS && w == Topology.EndpointWrites(f)[0];
      ListedPath(f, verb, guarded);
    }
    OverlayAgreed(ws, n, PMethod, Text(verb), Absent);
    OverlayAgreed(ws, n, PProtected, Flag(guarded), Absent);
  }

  // ------------------------------------------------------------------ the seed files

  lemma {:induction false} OneUserSets(u: Topology.SeedUser, name: string, v: Value)
    ensures Overlay(Topology.UserWrites(u), NodeKey(User, name), PRole, v)
      == if u.username == name then Text(u.role) else v
  {
    hide Overlay;
    var ws, n := Topology.UserWrites(u), NodeKey(User, name);
    assert ws == [ws[0]] + [ws[1], ws[2]];
    OverlayConcat([ws[0]], [ws[1], ws[2]], n, PRole, v);
    OverlayOfOne(ws[0], n, PRole, v);
    OverlayElsewhere([ws[1], ws[2]], n, PRole, Overlay([ws[0]], n, PRole, v));
  }

  lemma {:induction false} OverlayOfOne(w: Write, n: NodeKey, p: Property, v: Value)
    ensures Overlay([w], n, p, v)
      == if w.statement.MergeSet? && w.statement.node == n && p in w.statement.props then w.statement.props[p] else v
  {
    assert [w][..0] == [];
  }

  /** Of the entries for one account the last one's role stays. */
  lemma {:induction false} LastUserSets(us: seq<Topology.SeedUser>, i: nat, v: Value)
    requires i < |us| && forall j :: i < j < |us| ==> us[j].username != us[i].username
    ensures Overlay(FlatMap(Topology.UserWrites, us), NodeKey(User, us[i].username), PRole, v) == Text(us[i].role)
  {
    hide Topology.UserWrites, Overlay;
    var front, last, name := us[..|us| - 1], us[|us| - 1], us[i].username;
    OverlayConcat(FlatMap(Topology.UserWrites, front), Topology.UserWrites(last), NodeKey(User, name), PRole, v);
    OneUserSets(last, name, Overlay(FlatMap(Topology.UserWrites, front), NodeKey(User, name), PRole, v));
    if i < |front| {
      assert front[i] == us[i];
      LastUserSets(front, i, v);
    }
  }

  /** Of the entries for one asset the last one's values stay. */
  lemma {:induction false} LastAssetSets(xs: seq<Topology.SeedAsset>, i: nat, v: Value)
    requires i < |xs| && forall j :: i < j < |xs| ==> xs[j].name != xs[i].name
    ensures var ws, n := Map(Topology.AssetWrite, xs), NodeKey(Asset, xs[i].name);
      && Overlay(ws, n, PAssetType, v) == Text(xs[i].assetType)
      && Overlay(ws, n, PCriticality, v) == Text(xs[i].criticality)
  {
    var front, last := xs[..|xs| - 1], xs[|xs| - 1];
    assert Map(Topology.AssetWrite, xs)[..|xs| - 1] == Map(Topology.AssetWrite, front);
    if i < |front| {
      assert front[i] == xs[i];
      LastAssetSets(front, i, v);
    }
  }

  /** Services, paths and calls set nothing of accounts and assets, nor these of each other. */
  lemma {:induction false} SeededParts(users: seq<Topology.SeedUser>, assets: seq<Topology.SeedAsset>, n: NodeKey,
                                       p: Property)
    ensures n.tag == User ==>
      Overlay(Topology.TopologyWrites(users, assets), n, p, Absent)
      == Overlay(FlatMap(Topology.UserWrites, [Topology.ADMIN] + users), n, p, Absent)
    ensures n.tag == Asset ==>
      Overlay(Topology.TopologyWrites(users, assets), n, p, Absent)
      == Overlay(Map(Topology.AssetWrite, assets), n, p, Absent)
  {
    hide Overlay, FlatMap, Map, Topology.SERVICES, Topology.ENDPOINTS, Topology.DEPENDENCIES;
    var fixed := Map(Topology.ServiceWrite, Topology.SERVICES) + FlatMap(Topology.EndpointWrites, Topology.ENDPOINTS)
                 + Map(Topology.DependencyWrite, Topology.DEPENDENCIES);
    var us, xs := FlatMap(Topology.UserWrites, [Topology.ADMIN] + users), Map(Topology.AssetWrite, assets);
    assert Topology.TopologyWrites(users, assets) == fixed + us + xs;
    OverlayConcat(fixed + us, xs, n, p, Absent);
    OverlayConcat(fixed, us, n, p, Absent);
    if n.tag == User || n.tag == Asset {
      FixedElsewhere(n, p);
      AssetsElsewhere(assets, n, p, Overlay(us, n, p, Absent));
      UsersElsewhere([Topology.ADMIN] + users, n, p, Absent);
    }
  }

  lemma {:induction false} FixedElsewhere(n: NodeKey, p: Property)
    requires n.tag in {User, Asset}
    ensures Overlay(Map(Topology.ServiceWrite, Topology.SERVICES) + FlatMap(Topology.EndpointWrites, Topology.ENDPOINTS)
                    + Map(Topology.DependencyWrite, Topology.DEPENDENCIES), n, p, Absent) == Absent
  {
    hide Overlay, FlatMap, Topology.SERVICES, Topology.ENDPOINTS, Topology.DEPENDENCIES;
    var ws := Map(Topology.ServiceWrite, Topology.SERVICES) + FlatMap(Topology.EndpointWrites, Topology.ENDPOINTS)
              + Map(Topology.DependencyWrite, Topology.DEPENDENCIES);
    forall w | w in ws && w.statement.MergeSet?
      ensures w.statement.node != n
    {
      FlatMapIn(Topology.EndpointWrites, Topology.ENDPOINTS, w);
    }
    OverlayElsewhere(ws, n, p, Absent);
  }

  lemma {:induction false} UsersElsewhere(us: seq<Topology.SeedUser>, n: NodeKey, p: Property, v: Value)
    ensures n.tag == Asset ==> Overlay(FlatMap(Topology.UserWrites, us), n, p, v) == v
  {
    hide Overlay, FlatMap;
    if n.tag == Asset {
      forall w | w in FlatMap(Topology.UserWrites, us) && w.statement.MergeSet?
        ensures w.statement.node != n
      {
        FlatMapIn(Topology.UserWrites, us, w);
      }
      OverlayElsewhere(FlatMap(Topology.UserWrites, us), n, p, v);
    }
  }

  lemma {:induction false} AssetsElsewhere(assets: seq<Topology.SeedAsset>, n: NodeKey, p: Property, v: Value)
    ensures n.tag == User ==> Overlay(Map(Topology.AssetWrite, assets), n, p, v) == v
  {
    hide Overlay;
    if n.tag == User {
      OverlayElsewhere(Map(Topology.AssetWrite, assets), n, p, v);
    }
  }

  /** Whatever was collected, a service has its port, a path its method and its guard, an
      account the role its last entry gives it, the bootstrap account's before any, and an
      asset the type and criticality of its last entry. */
  lemma {:induction false} TopologyReadsAsGiven(all: seq<SecurityEvent>, alerts: seq<Alert>,
                                                users: seq<Topology.SeedUser>, assets: seq<Topology.SeedAsset>,
                                                key: string)
    ensures var g := Loaded(all, alerts, users, assets);
      && (forall port :: ListensOn(key, port) ==> Get(g, NodeKey(Service, key), PPort) == Number(port))
      && (forall verb, guarded :: IsAsked(key, verb, guarded) ==>
            Get(g, NodeKey(Endpoint, key), PMethod) == Text(verb)
            && Get(g, NodeKey(Endpoint, key), PProtected) == Flag(guarded))
    ensures var g, us := Loaded(all, alerts, users, assets), [Topology.SeedUser("admin", "admin")] + users;
      forall i :: LastEntry(us, i) && us[i].username == key ==>
        Get(g, NodeKey(User, key), PRole) == Text(us[i].role)
    ensures var g := Loaded(all, alerts, users, assets);
      forall i :: LastAsset(assets, i) && assets[i].name == key ==>
        && Get(g, NodeKey(Asset, key), PAssetType) == Text(assets[i].assetType)
        && Get(g, NodeKey(Asset, key), PCriticality) == Text(assets[i].criticality)
  {
    hide Loaded, Get, ListensOn, IsAsked;
    forall port | ListensOn(key, port)
      ensures Get(Loaded(all, alerts, users, assets), NodeKey(Service, key), PPort) == Number(port)
    {
      PortLoaded(all, alerts, users, assets, key, port);
    }
    forall verb, guarded | IsAsked(key, verb, guarded)
      ensures Get(Loaded(all, alerts, users, assets), NodeKey(Endpoint, key), PMethod) == Text(verb)
      ensures Get(Loaded(all, alerts, users, assets), NodeKey(Endpoint, key), PProtected) == Flag(guarded)
    {
      PathLoaded(all, alerts, users, assets, key, verb, guarded);
    }
    var us := [Topology.SeedUser("admin", "admin")] + users;
    forall i | LastEntry(us, i) && us[i].username == key
      ensures Get(Loaded(all, alerts, users, assets), NodeKey(User, key), PRole) == Text(us[i].role)
    {
      AccountLoaded(all, alerts, users, assets, i);
    }
    forall i | LastAsset(assets, i) && assets[i].name == key
      ensures Get(Loaded(all, alerts, users, assets), NodeKey(Asset, key), PAssetType) == Text(assets[i].assetType)
      ensures Get(Loaded(all, alerts, users, assets), NodeKey(Asset, key), PCriticality) == Text(assets[i].criticality)
    {
      AssetLoaded(all, alerts, users, assets, i);
    }
  }

  ghost predicate LastEntry(us: seq<Topology.SeedUser>, i: int) {
    0 <= i < |us| && forall j :: i < j < |us| ==> us[j].username != us[i].username
  }

  ghost predicate LastAsset(xs: seq<Topology.SeedAsset>, i: int) {
    0 <= i < |xs| && forall j :: i < j < |xs| ==> xs[j].name != xs[i].name
  }

  lemma {:induction false} AccountLoaded(all: seq<SecurityEvent>, alerts: seq<Alert>, users: seq<Topology.SeedUser>,
                                         assets: seq<Topology.SeedAsset>, i: nat)
    requires LastEntry([Topology.SeedUser("admin", "admin")] + users, i)
    ensures var u := ([Topology.SeedUser("admin", "admin")] + users)[i];
      Get(Loaded(all, alerts, users, assets), NodeKey(User, u.username), PRole) == Text(u.role)
  {
    hide Loaded, Get, Overlay, FlatMap, Topology.TopologyWrites, Knowledge.ReferenceWrites;
    var us := [Topology.SeedUser("admin", "admin")] + users;
    assert us == [Topology.ADMIN] + users;
    var n := NodeKey(User, us[i].username);
    TablesDecide(all, alerts, users, assets, n, PRole);
    TablesSetNoTopology(n, PRole, Overlay(Topology.TopologyWrites(users, assets), n, PRole, Absent));
    SeededParts(users, assets, n, PRole);
    LastUserSets(us, i, Absent);
  }

  lemma {:induction false} AssetLoaded(all: seq<SecurityEvent>, alerts: seq<Alert>, users: seq<Topology.SeedUser>,
                                       assets: seq<Topology.SeedAsset>, i: nat)
    requires LastAsset(assets, i)
    ensures var g, n := Loaded(all, alerts, users, assets), NodeKey(Asset, assets[i].name);
      Get(g, n, PAssetType) == Text(assets[i].assetType) && Get(g, n, PCriticality) == Text(assets[i].criticality)
  {
    hide Loaded, Get, Overlay, Map, Topology.TopologyWrites, Knowledge.ReferenceWrites;
    var n := NodeKey(Asset, assets[i].name);
    TablesDecide(all, alerts, users, assets, n, PAssetType);
    TablesDecide(all, alerts, users, assets, n, PCriticality);
    TablesSetNoTopology(n, PAssetType, Overlay(Topology.TopologyWrites(users, assets), n, PAssetType, Absent));
    TablesSetNoTopology(n, PCriticality, Overlay(Topology.TopologyWrites(users, assets), n, PCriticality, Absent));
    SeededParts(users, assets, n, PAssetType);
    SeededParts(users, assets, n, PCriticality);
    LastAssetSets(assets, i, Absent);
  }
}
