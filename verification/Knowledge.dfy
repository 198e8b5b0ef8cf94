/** Source 3 of the graph: what is known about the threats. */
module Knowledge {
  import opened Wrappers
  import opened Sequences
  import opened Alerts
  import opened Graphs
  import opened WriteOrder
  import Topology

  const T1110 := "T1110"
  const T1110_001 := "T1110.001"
  const T1110_002 := "T1110.002"
  const T1110_003 := "T1110.003"
  const T1110_004 := "T1110.004"
  const T1078 := "T1078"
  const T1498 := "T1498"
  const T1499 := "T1499"

  const CTRL_LOCKOUT := "CTRL-LOCKOUT"
  const CTRL_MFA := "CTRL-MFA"
  const CTRL_PWRESET := "CTRL-PWRESET"
  const CTRL_RATELIMIT := "CTRL-RATELIMIT"

  datatype ThreatFact = ThreatFact(techniqueId: string, name: string, tactic: string, rule: Option<Rule>)
  datatype LinkFact = LinkFact(technique: string, other: string)
  datatype VulnerabilityFact = VulnerabilityFact(vulnId: string, name: string, threats: seq<string>)
  datatype ControlFact = ControlFact(controlId: string, name: string, threats: seq<string>)
  datatype DocumentFact = DocumentFact(docId: string, title: string, describes: string, respondsTo: seq<string>)

  const THREATS: seq<ThreatFact> := [
    ThreatFact(T1110, "Brute Force", "Credential Access", Some(MultipleFailedLoginsRule)),
    ThreatFact(T1110_001, "Password Guessing", "Credential Access", None),
    ThreatFact(T1110_002, "Password Cracking", "Credential Access", None),
    ThreatFact(T1110_003, "Password Spraying", "Credential Access", None),
    ThreatFact(T1110_004, "Credential Stuffing", "Credential Access", None),
    ThreatFact(T1078, "Valid Accounts", "Defense Evasion", Some(UnauthorisedAccessRule)),
    ThreatFact(T1498, "Network Denial of Service", "Impact", Some(AbnormalRequestRateRule)),
    ThreatFact(T1499, "Endpoint Denial of Service", "Impact", Some(ServiceFailureRule))]

  /** Sub-technique and parent. */
  const SUBTECHNIQUES: seq<LinkFact> := [
    LinkFact(T1110_001, T1110), LinkFact(T1110_002, T1110), LinkFact(T1110_003, T1110), LinkFact(T1110_004, T1110)]

  const THREAT_TARGETS: seq<LinkFact> := [
    LinkFact(T1110, Topology.AUTH_SERVICE), LinkFact(T1078, Topology.AUTH_SERVICE),
    LinkFact(T1498, Topology.API_GATEWAY), LinkFact(T1499, Topology.INCIDENT_SERVICE)]

  const VULNERABILITIES: seq<VulnerabilityFact> := [
    VulnerabilityFact("SENTINEL-VULN-001", "No account lockout", [T1110, T1110_001, T1110_003, T1110_004]),
    VulnerabilityFact("SENTINEL-VULN-002", "Single-factor authentication", [T1110, T1078]),
    VulnerabilityFact("SENTINEL-VULN-003", "Unbounded per-caller throughput", [T1498, T1499])]

  const CONTROLS: seq<ControlFact> := [
    ControlFact(CTRL_LOCKOUT, "Account lockout", [T1110, T1110_001, T1110_003]),
    ControlFact(CTRL_MFA, "Multi-factor authentication", [T1110, T1110_004, T1078]),
    ControlFact(CTRL_PWRESET, "Forced password reset", [T1110, T1078]),
    ControlFact(CTRL_RATELIMIT, "Gateway rate limiting", [T1498, T1499])]

  const DOCUMENTS: seq<DocumentFact> := [
    DocumentFact("RB-BRUTE-FORCE", "Runbook: brute-force response", CTRL_LOCKOUT, [T1110]),
    DocumentFact("RB-CRED-COMPROMISE", "Runbook: suspected account compromise", CTRL_PWRESET, [T1110, T1078]),
    DocumentFact("RB-DOS", "Runbook: service under load", CTRL_RATELIMIT, [T1498, T1499])]

  function Tagged(statement: Statement): Write {
    Write(statement, SecurityKnowledge)
  }

  function ThreatKey(techniqueId: string): NodeKey {
    NodeKey(Threat, techniqueId)
  }

  function ThreatWrite(t: ThreatFact): Write {
    var node := ThreatKey(t.techniqueId);
    Tagged(MergeSet(node, map[PName := Text(t.name), PTactic := Text(t.tactic), PDescription := Prose(node)]))
  }

  function SubtechniqueWrite(l: LinkFact): Write {
    Tagged(MatchLink(ThreatKey(l.technique), ThreatKey(l.other), SubtechniqueOf))
  }

  function TargetWrite(l: LinkFact): Write {
    Tagged(MatchThenMerge(ThreatKey(l.technique), NodeKey(Service, l.other), Targets))
  }

  function ExploitsWrite(vulnId: string): string -> Write {
    (technique: string) => Tagged(MatchLink(ThreatKey(technique), NodeKey(Vulnerability, vulnId), Exploits))
  }

  /** A node with its name and its description. */
  function NamedNode(node: NodeKey, name: string): Write {
    Tagged(MergeSet(node, map[PName := Text(name), PDescription := Prose(node)]))
  }

  function VulnerabilityWrites(v: VulnerabilityFact): seq<Write> {
    [NamedNode(NodeKey(Vulnerability, v.vulnId), v.name)]
    + Map(ExploitsWrite(v.vulnId), v.threats)
  }

  function MitigatesWrite(controlId: string): string -> Write {
    (technique: string) => Tagged(MatchLink(NodeKey(Control, controlId), ThreatKey(technique), Mitigates))
  }

  function ControlWrites(c: ControlFact): seq<Write> {
    [NamedNode(NodeKey(Control, c.controlId), c.name)]
    + Map(MitigatesWrite(c.controlId), c.threats)
  }

  function RespondsWrite(docId: string): string -> Write {
    (technique: string) => Tagged(MatchLink(NodeKey(Document, docId), ThreatKey(technique), SupportsResponseTo))
  }

  function DocumentWrites(d: DocumentFact): seq<Write> {
    [Tagged(MergeSet(NodeKey(Document, d.docId), map[PTitle := Text(d.title), PKind := Text("runbook")])),
     Tagged(MatchLink(NodeKey(Document, d.docId), NodeKey(Control, d.describes), Describes))]
    + Map(RespondsWrite(d.docId), d.respondsTo)
  }

  /** Matched by the alert's rule, so that this loader need not know the alerts. */
  function RuleLink(t: ThreatFact): seq<Write> {
    if t.rule.Some? then
      [Tagged(LinkWhere(Label.Alert, PRuleName, RuleName(t.rule.value), ThreatKey(t.techniqueId), Indicates))]
    else []
  }

  function ReferenceWrites(): seq<Write> {
    Map(ThreatWrite, THREATS) + Map(SubtechniqueWrite, SUBTECHNIQUES) + Map(TargetWrite, THREAT_TARGETS)
    + FlatMap(VulnerabilityWrites, VULNERABILITIES) + FlatMap(ControlWrites, CONTROLS)
      + FlatMap(DocumentWrites, DOCUMENTS)
  }

  /** `rule_threat_links` */
  function RuleLinks(): seq<Write> {
    FlatMap(RuleLink, THREATS)
  }

  /** `knowledge` */
  function KnowledgeWrites(): seq<Write> {
    ReferenceWrites() + RuleLinks()
  }

  method MergeVulnerabilities() returns (writes: seq<Write>)
    ensures writes == FlatMap(VulnerabilityWrites, VULNERABILITIES)
  {
    writes := [];
    for i := 0 to |VULNERABILITIES|
      invariant writes == FlatMap(VulnerabilityWrites, VULNERABILITIES[..i])
    {
      var v := VULNERABILITIES[i];
      ghost var before := writes;
      assert VULNERABILITIES[..i + 1][..i] == VULNERABILITIES[..i];
      writes := writes + [NamedNode(NodeKey(Vulnerability, v.vulnId), v.name)];
      for j := 0 to |v.threats|
        invariant writes == before + VulnerabilityWrites(v)[..j + 1]
      {
        writes := writes + [Tagged(MatchLink(ThreatKey(v.threats[j]), NodeKey(Vulnerability, v.vulnId), Exploits))];
      }
      assert VulnerabilityWrites(v)[..|v.threats| + 1] == VulnerabilityWrites(v);
    }
    assert VULNERABILITIES[..|VULNERABILITIES|] == VULNERABILITIES;
  }

  method MergeControls() returns (writes: seq<Write>)
    ensures writes == FlatMap(ControlWrites, CONTROLS)
  {
    writes := [];
    for i := 0 to |CONTROLS|
      invariant writes == FlatMap(ControlWrites, CONTROLS[..i])
    {
      var c := CONTROLS[i];
      ghost var before := writes;
      assert CONTROLS[..i + 1][..i] == CONTROLS[..i];
      writes := writes + [NamedNode(NodeKey(Control, c.controlId), c.name)];
      for j := 0 to |c.threats|
        invariant writes == before + ControlWrites(c)[..j + 1]
      {
        writes := writes + [Tagged(MatchLink(NodeKey(Control, c.controlId), ThreatKey(c.threats[j]), Mitigates))];
      }
      assert ControlWrites(c)[..|c.threats| + 1] == ControlWrites(c);
    }
    assert CONTROLS[..|CONTROLS|] == CONTROLS;
  }

  method MergeDocuments() returns (writes: seq<Write>)
    ensures writes == FlatMap(DocumentWrites, DOCUMENTS)
  {
    writes := [];
    for i := 0 to |DOCUMENTS|
      invariant writes == FlatMap(DocumentWrites, DOCUMENTS[..i])
    {
      var d := DOCUMENTS[i];
      ghost var before := writes;
      assert DOCUMENTS[..i + 1][..i] == DOCUMENTS[..i];
      writes := writes
        + [Tagged(MergeSet(NodeKey(Document, d.docId), map[PTitle := Text(d.title), PKind := Text("runbook")]))];
      writes := writes + [Tagged(MatchLink(NodeKey(Document, d.docId), NodeKey(Control, d.describes), Describes))];
      for j := 0 to |d.respondsTo|
        invariant writes == before + DocumentWrites(d)[..j + 2]
      {
        writes := writes
          + [Tagged(MatchLink(NodeKey(Document, d.docId), ThreatKey(d.respondsTo[j]), SupportsResponseTo))];
      }
      assert DocumentWrites(d)[..|d.respondsTo| + 2] == DocumentWrites(d);
    }
    assert DOCUMENTS[..|DOCUMENTS|] == DOCUMENTS;
  }

  method BuildKnowledge() returns (writes: seq<Write>)
    ensures writes == KnowledgeWrites()
  {
    hide FlatMap;
    var vulnerabilities := MergeVulnerabilities();
    var controls := MergeControls();
    var documents := MergeDocuments();
    writes := Map(ThreatWrite, THREATS) + Map(SubtechniqueWrite, SUBTECHNIQUES) + Map(TargetWrite, THREAT_TARGETS)
      + vulnerabilities + controls + documents + RuleLinks();
  }

  // ----------------------------------------------------------------- its order

  const TECHNIQUES: set<string> := {T1110, T1110_001, T1110_002, T1110_003, T1110_004, T1078, T1498, T1499}

  lemma {:induction false} ThreatsSecured(id: string)
    requires id in TECHNIQUES
    ensures ThreatKey(id) in Secured(Map(ThreatWrite, THREATS))
  {
    var ws := Map(ThreatWrite, THREATS);
    var i := if id == T1110 then 0 else if id == T1110_001 then 1 else if id == T1110_002 then 2
             else if id == T1110_003 then 3 else if id == T1110_004 then 4 else if id == T1078 then 5
             else if id == T1498 then 6 else 7;
    assert THREATS[i].techniqueId == id;
    assert ws[i] in ws && ThreatKey(id) in Secures(ws[i].statement);
  }

  lemma {:induction false} ControlsSecured(id: string)
    requires id == CTRL_LOCKOUT || id == CTRL_PWRESET || id == CTRL_RATELIMIT
    ensures NodeKey(Control, id) in Secured(FlatMap(ControlWrites, CONTROLS))
  {
    var i := if id == CTRL_LOCKOUT then 0 else if id == CTRL_PWRESET then 2 else 3;
    assert CONTROLS[i].controlId == id && CONTROLS[i] in CONTROLS;
    var w := ControlWrites(CONTROLS[i])[0];
    FlatMapIn(ControlWrites, CONTROLS, w);
    assert NodeKey(Control, id) in Secures(w.statement);
  }

  predicate KnowsTechniques(before: set<NodeKey>) {
    forall id :: id in TECHNIQUES ==> ThreatKey(id) in before
  }

  lemma {:induction false} VulnerabilitiesClosed(before: set<NodeKey>)
    requires KnowsTechniques(before)
    ensures ClosedUpTo(FlatMap(VulnerabilityWrites, VULNERABILITIES), before, {})
  {
    hide ClosedUpTo, FlatMap;
    forall v | v in VULNERABILITIES
      ensures ClosedUpTo(VulnerabilityWrites(v), before, {})
    {
      assert forall id :: id in v.threats ==> id in TECHNIQUES;
      HeadedBlockClosed(VulnerabilityWrites(v)[0], Map(ExploitsWrite(v.vulnId), v.threats), before, {});
    }
    ClosedFlatMap(VulnerabilityWrites, VULNERABILITIES, before, {});
  }

  lemma {:induction false} ControlsClosed(before: set<NodeKey>)
    requires KnowsTechniques(before)
    ensures ClosedUpTo(FlatMap(ControlWrites, CONTROLS), before, {})
  {
    hide ClosedUpTo, FlatMap;
    forall c | c in CONTROLS
      ensures ClosedUpTo(ControlWrites(c), before, {})
    {
      assert forall id :: id in c.threats ==> id in TECHNIQUES;
      HeadedBlockClosed(ControlWrites(c)[0], Map(MitigatesWrite(c.controlId), c.threats), before, {});
    }
    ClosedFlatMap(ControlWrites, CONTROLS, before, {});
  }

  lemma {:induction false} DocumentsClosed(before: set<NodeKey>)
    requires KnowsTechniques(before) && Secured(FlatMap(ControlWrites, CONTROLS)) <= before
    ensures ClosedUpTo(FlatMap(DocumentWrites, DOCUMENTS), before, {})
  {
    hide ClosedUpTo, FlatMap, Secured;
    forall d | d in DOCUMENTS
      ensures ClosedUpTo(DocumentWrites(d), before, {})
    {
      assert forall id :: id in d.respondsTo ==> id in TECHNIQUES;
      ControlsSecured(d.describes);
      DocumentBlockClosed(d, before);
    }
    ClosedFlatMap(DocumentWrites, DOCUMENTS, before, {});
  }

  lemma {:induction false} DocumentBlockClosed(d: DocumentFact, before: set<NodeKey>)
    requires NodeKey(Control, d.describes) in before
    requires forall id :: id in d.respondsTo ==> ThreatKey(id) in before
    ensures ClosedUpTo(DocumentWrites(d), before, {})
  {
    hide ClosedUpTo;
    var ws := DocumentWrites(d);
    assert ws == [ws[0]] + ([ws[1]] + Map(RespondsWrite(d.docId), d.respondsTo));
    HeadedBlockClosed(ws[0], [ws[1]] + Map(RespondsWrite(d.docId), d.respondsTo), before, {});
  }

  lemma {:induction false} FlatPartsClosed(before: set<NodeKey>)
    requires KnowsTechniques(before)
    ensures ClosedUpTo(Map(SubtechniqueWrite, SUBTECHNIQUES), before, {})
    ensures ClosedUpTo(Map(TargetWrite, THREAT_TARGETS), before, {})
  {
    hide ClosedUpTo;
    assert forall l :: l in SUBTECHNIQUES ==> l.technique in TECHNIQUES && l.other in TECHNIQUES;
    assert forall l :: l in THREAT_TARGETS ==> l.technique in TECHNIQUES;
    ClosedPointwise(Map(SubtechniqueWrite, SUBTECHNIQUES), before, {});
    ClosedPointwise(Map(TargetWrite, THREAT_TARGETS), before, {});
  }

  /** Techniques, controls and runbooks come before the edges that MATCH them. */
  lemma {:induction false} ReferenceClosed()
    ensures ClosedUpTo(ReferenceWrites(), {}, {})
    ensures KnowsTechniques(Secured(ReferenceWrites()))
  {
    hide ClosedUpTo, FlatMap, Secured, ThreatWrite, SubtechniqueWrite, TargetWrite, VulnerabilityWrites,
      ControlWrites, DocumentWrites;
    var a, b, c := Map(ThreatWrite, THREATS), Map(SubtechniqueWrite, SUBTECHNIQUES), Map(TargetWrite, THREAT_TARGETS);
    var d, e, f := FlatMap(VulnerabilityWrites, VULNERABILITIES), FlatMap(ControlWrites, CONTROLS),
      FlatMap(DocumentWrites, DOCUMENTS);
    forall id | id in TECHNIQUES
      ensures ThreatKey(id) in Secured(a)
    {
      ThreatsSecured(id);
    }
    ThreatsNeedNothing();
    SecuredConcat(a, b);
    SecuredConcat(a + b, c);
    SecuredConcat(a + b + c, d);
    SecuredConcat(a + b + c + d, e);
    SecuredConcat(a + b + c + d + e, f);
    FlatPartsClosed({} + Secured(a));
    ClosedConcat(a, b, {}, {});
    FlatPartsClosed({} + Secured(a + b));
    ClosedConcat(a + b, c, {}, {});
    VulnerabilitiesClosed({} + Secured(a + b + c));
    ClosedConcat(a + b + c, d, {}, {});
    ControlsClosed({} + Secured(a + b + c + d));
    ClosedConcat(a + b + c + d, e, {}, {});
    DocumentsClosed({} + Secured(a + b + c + d + e));
    ClosedConcat(a + b + c + d + e, f, {}, {});
  }

  lemma {:induction false} ThreatsNeedNothing()
    ensures ClosedUpTo(Map(ThreatWrite, THREATS), {}, {})
  {
    ClosedPointwise(Map(ThreatWrite, THREATS), {}, {});
  }

  /** The labels the reference part makes, and the kinds of edge it draws. */
  lemma {:induction false} ReferenceShape(w: Write)
    requires w in ReferenceWrites()
    ensures w.statement.MergeSet?
            || ((w.statement.MatchLink? || w.statement.MatchThenMerge?)
                && w.statement.kind in {SubtechniqueOf, Targets, Exploits, Mitigates, Describes, SupportsResponseTo})
    ensures forall n :: n in Creates(w.statement) ==>
      n.tag == Threat || n.tag == Service || n.tag == Vulnerability || n.tag == Control || n.tag == Document
  {
    hide FlatMap;
    FlatMapIn(VulnerabilityWrites, VULNERABILITIES, w);
    FlatMapIn(ControlWrites, CONTROLS, w);
    FlatMapIn(DocumentWrites, DOCUMENTS, w);
  }

  /** The technique a rule's alerts indicate. */
  function TechniqueOf(rule: Rule): string {
    match rule
    case MultipleFailedLoginsRule => T1110
    case UnauthorisedAccessRule => T1078
    case AbnormalRequestRateRule => T1498
    case ServiceFailureRule => T1499
  }

  function IndicatesWrite(rule: Rule): Write {
    Tagged(LinkWhere(Label.Alert, PRuleName, RuleName(rule), ThreatKey(TechniqueOf(rule)), Indicates))
  }

  /** Each rule is the rule of one technique. */
  lemma {:induction false} TechniqueListed(rule: Rule) returns (t: ThreatFact)
    ensures t in THREATS && t.rule == Some(rule) && t.techniqueId == TechniqueOf(rule)
  {
    var i := match rule
             case MultipleFailedLoginsRule => 0
             case UnauthorisedAccessRule => 5
             case AbnormalRequestRateRule => 6
             case ServiceFailureRule => 7;
    t := THREATS[i];
  }

  lemma {:induction false} ListedTechnique(t: ThreatFact)
    requires t in THREATS && t.rule.Some?
    ensures t.techniqueId == TechniqueOf(t.rule.value)
  {
  }

  /** One link per rule of the catalogue, and no other. */
  lemma {:induction false} RuleLinksExact(w: Write)
    ensures w in RuleLinks() <==> exists rule: Rule :: w == IndicatesWrite(rule)
  {
    hide FlatMap, TechniqueOf;
    FlatMapIn(RuleLink, THREATS, w);
    if rule: Rule :| w == IndicatesWrite(rule) {
      var t := TechniqueListed(rule);
      assert w in RuleLink(t);
    }
    if w in RuleLinks() {
      var t :| t in THREATS && w in RuleLink(t);
      ListedTechnique(t);
      assert w == IndicatesWrite(t.rule.value);
    }
  }

  /** The links come last and look up only techniques. */
  lemma {:induction false} RuleLinksOrdered(before: set<NodeKey>)
    requires KnowsTechniques(before)
    ensures Ordered(RuleLinks(), before, {})
    ensures ClosedUpTo(RuleLinks(), before, {})
    ensures LabelsMade(RuleLinks()) == {}
  {
    var ws := RuleLinks();
    forall w | w in ws
      ensures w.statement.LinkWhere? && w.statement.target in before && Creates(w.statement) == {}
    {
      RuleLinksExact(w);
    }
    ClosedPointwise(ws, before, {});
    forall i | 0 <= i < |ws|
      ensures OrderedAt(ws[i].statement, before + Secured(ws[..i]), LabelsMade(ws[i..]) + {})
    {
      assert ws[i] in ws;
      assert forall w :: w in ws[i..] ==> w in ws;
      assert LabelsMade(ws[i..]) == {};
    }
  }

  // ------------------------------------------------------------------- its edges

  /** What is known about the threats, as edges. */
  ghost predicate Charted(x: Edge) {
    || (exists l :: l in SUBTECHNIQUES && x == Edge(ThreatKey(l.technique), SubtechniqueOf, ThreatKey(l.other)))
    || (exists l :: l in THREAT_TARGETS && x == Edge(ThreatKey(l.technique), Targets, NodeKey(Service, l.other)))
    || (exists v, t :: v in VULNERABILITIES && t in v.threats
          && x == Edge(ThreatKey(t), Exploits, NodeKey(Vulnerability, v.vulnId)))
    || (exists c, t :: c in CONTROLS && t in c.threats
          && x == Edge(NodeKey(Control, c.controlId), Mitigates, ThreatKey(t)))
    || (exists d :: d in DOCUMENTS && x == Edge(NodeKey(Document, d.docId), Describes, NodeKey(Control, d.describes)))
    || (exists d, t :: d in DOCUMENTS && t in d.respondsTo
          && x == Edge(NodeKey(Document, d.docId), SupportsResponseTo, ThreatKey(t)))
  }

  /** A node, then one edge per name. */
  lemma {:induction false} HeadedDeclares(head: Write, f: string -> Write, names: seq<string>, final: Graph, x: Edge)
    requires head.statement.MergeSet?
    ensures x in DeclaredEdges([head] + Map(f, names), final)
      <==> exists t :: t in names && x in EdgesOf(f(t).statement, final)
  {
    hide DeclaredEdges, Rows;
    DeclaredConcat([head], Map(f, names), final);
    DeclaredOne(head, final);
    DeclaredMap(f, names, final, x);
  }

  lemma {:induction false} VulnerabilityDeclares(v: VulnerabilityFact, final: Graph, x: Edge)
    ensures x in DeclaredEdges(VulnerabilityWrites(v), final)
      <==> exists t :: t in v.threats && x == Edge(ThreatKey(t), Exploits, NodeKey(Vulnerability, v.vulnId))
  {
    hide DeclaredEdges, Rows;
    HeadedDeclares(VulnerabilityWrites(v)[0], ExploitsWrite(v.vulnId), v.threats, final, x);
  }

  lemma {:induction false} ControlDeclares(c: ControlFact, final: Graph, x: Edge)
    ensures x in DeclaredEdges(ControlWrites(c), final)
      <==> exists t :: t in c.threats && x == Edge(NodeKey(Control, c.controlId), Mitigates, ThreatKey(t))
  {
    hide DeclaredEdges, Rows;
    HeadedDeclares(ControlWrites(c)[0], MitigatesWrite(c.controlId), c.threats, final, x);
  }

  lemma {:induction false} DocumentDeclares(d: DocumentFact, final: Graph, x: Edge)
    ensures x in DeclaredEdges(DocumentWrites(d), final)
      <==> (x == Edge(NodeKey(Document, d.docId), Describes, NodeKey(Control, d.describes))
            || exists t :: t in d.respondsTo && x == Edge(NodeKey(Document, d.docId), SupportsResponseTo, ThreatKey(t)))
  {
    hide DeclaredEdges, Rows;
    var ws := DocumentWrites(d);
    var node, describes := ws[0], ws[1];
    assert ws == [node] + [describes] + Map(RespondsWrite(d.docId), d.respondsTo);
    DeclaredConcat([node] + [describes], Map(RespondsWrite(d.docId), d.respondsTo), final);
    DeclaredConcat([node], [describes], final);
    DeclaredOne(node, final);
    DeclaredOne(describes, final);
    DeclaredMap(RespondsWrite(d.docId), d.respondsTo, final, x);
  }

  lemma {:induction false} ThreatDeclaresNothing(t: ThreatFact, final: Graph)
    ensures EdgesOf(ThreatWrite(t).statement, final) == {}
  {
    hide Rows;
  }

  lemma {:induction false} FlatDeclares(l: LinkFact, final: Graph)
    ensures EdgesOf(SubtechniqueWrite(l).statement, final)
      == {Edge(ThreatKey(l.technique), SubtechniqueOf, ThreatKey(l.other))}
    ensures EdgesOf(TargetWrite(l).statement, final)
      == {Edge(ThreatKey(l.technique), Targets, NodeKey(Service, l.other))}
  {
    hide Rows;
  }

  lemma {:induction false} FlatPartsDeclare(final: Graph, x: Edge)
    ensures x in DeclaredEdges(Map(ThreatWrite, THREATS) + Map(SubtechniqueWrite, SUBTECHNIQUES)
                               + Map(TargetWrite, THREAT_TARGETS), final)
      <==> ((exists l :: l in SUBTECHNIQUES && x == Edge(ThreatKey(l.technique), SubtechniqueOf, ThreatKey(l.other)))
            || (exists l :: l in THREAT_TARGETS
                              && x == Edge(ThreatKey(l.technique), Targets, NodeKey(Service, l.other))))
  {
    hide DeclaredEdges, EdgesOf, ThreatWrite, SubtechniqueWrite, TargetWrite;
    var a, b, c := Map(ThreatWrite, THREATS), Map(SubtechniqueWrite, SUBTECHNIQUES), Map(TargetWrite, THREAT_TARGETS);
    DeclaredConcat(a + b, c, final);
    DeclaredConcat(a, b, final);
    DeclaredMap(ThreatWrite, THREATS, final, x);
    DeclaredMap(SubtechniqueWrite, SUBTECHNIQUES, final, x);
    DeclaredMap(TargetWrite, THREAT_TARGETS, final, x);
    forall l: LinkFact
      ensures EdgesOf(SubtechniqueWrite(l).statement, final)
        == {Edge(ThreatKey(l.technique), SubtechniqueOf, ThreatKey(l.other))}
      ensures EdgesOf(TargetWrite(l).statement, final)
        == {Edge(ThreatKey(l.technique), Targets, NodeKey(Service, l.other))}
    {
      FlatDeclares(l, final);
    }
    forall t: ThreatFact
      ensures EdgesOf(ThreatWrite(t).statement, final) == {}
    {
      ThreatDeclaresNothing(t, final);
    }
  }

  lemma {:induction false} NestedPartsDeclare(final: Graph, x: Edge)
    ensures x in DeclaredEdges(FlatMap(VulnerabilityWrites, VULNERABILITIES), final)
      <==> exists v, t :: v in VULNERABILITIES && t in v.threats
                            && x == Edge(ThreatKey(t), Exploits, NodeKey(Vulnerability, v.vulnId))
    ensures x in DeclaredEdges(FlatMap(ControlWrites, CONTROLS), final)
      <==> exists c, t :: c in CONTROLS && t in c.threats
                            && x == Edge(NodeKey(Control, c.controlId), Mitigates, ThreatKey(t))
  {
    hide DeclaredEdges, FlatMap, VulnerabilityWrites, ControlWrites, ThreatKey;
    DeclaredFlatMap(VulnerabilityWrites, VULNERABILITIES, final, x);
    DeclaredFlatMap(ControlWrites, CONTROLS, final, x);
    forall v
      ensures x in DeclaredEdges(VulnerabilityWrites(v), final)
        <==> exists t :: t in v.threats && x == Edge(ThreatKey(t), Exploits, NodeKey(Vulnerability, v.vulnId))
    {
      VulnerabilityDeclares(v, final, x);
    }
    forall c
      ensures x in DeclaredEdges(ControlWrites(c), final)
        <==> exists t :: t in c.threats && x == Edge(NodeKey(Control, c.controlId), Mitigates, ThreatKey(t))
    {
      ControlDeclares(c, final, x);
    }
  }

  lemma {:induction false} DocumentsDeclare(final: Graph, x: Edge)
    ensures x in DeclaredEdges(FlatMap(DocumentWrites, DOCUMENTS), final)
      <==> ((exists d :: d in DOCUMENTS
                           && x == Edge(NodeKey(Document, d.docId), Describes, NodeKey(Control, d.describes)))
            || exists d, t :: d in DOCUMENTS && t in d.respondsTo
                                && x == Edge(NodeKey(Document, d.docId), SupportsResponseTo, ThreatKey(t)))
  {
    hide DeclaredEdges, FlatMap, DocumentWrites, ThreatKey;
    DeclaredFlatMap(DocumentWrites, DOCUMENTS, final, x);
    forall d
      ensures x in DeclaredEdges(DocumentWrites(d), final)
        <==> (x == Edge(NodeKey(Document, d.docId), Describes, NodeKey(Control, d.describes))
              || exists t :: t in d.respondsTo
                               && x == Edge(NodeKey(Document, d.docId), SupportsResponseTo, ThreatKey(t)))
    {
      DocumentDeclares(d, final, x);
    }
  }

  /** The reference part declares the chart and nothing else. */
  lemma {:induction false} ReferenceDeclares(final: Graph, x: Edge)
    ensures x in DeclaredEdges(ReferenceWrites(), final) <==> Charted(x)
  {
    hide DeclaredEdges, FlatMap, ThreatKey, ThreatWrite, SubtechniqueWrite, TargetWrite, VulnerabilityWrites,
      ControlWrites, DocumentWrites;
    var a := Map(ThreatWrite, THREATS) + Map(SubtechniqueWrite, SUBTECHNIQUES) + Map(TargetWrite, THREAT_TARGETS);
    var d, e, f := FlatMap(VulnerabilityWrites, VULNERABILITIES), FlatMap(ControlWrites, CONTROLS),
      FlatMap(DocumentWrites, DOCUMENTS);
    DeclaredConcat(a + d + e, f, final);
    DeclaredConcat(a + d, e, final);
    DeclaredConcat(a, d, final);
    FlatPartsDeclare(final, x);
    NestedPartsDeclare(final, x);
    DocumentsDeclare(final, x);
  }
}
