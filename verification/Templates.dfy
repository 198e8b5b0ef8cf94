/** One answer per intent, in pieces that say where each of them comes from. */
module Templates {
  import opened Wrappers
  import opened Sequences
  import opened Graphs
  import opened Retrieval
  import opened Intents

  // ---------------------------------------------------------------------- pieces

  /** The fixed wording of the templates. */
  datatype Wording =
    | AlertWord | WasCreatedByRule | WasCreatedByARule | IndicatesTechnique
    | RecommendedActionIs | ControlsAre | ProcedureIsIn
    | AlertsAffect | TheService | Colon | Bullet | ColonSpace | Dash
    | IsTargetedBy | TechniquesMitigatedBy
    | UsersLinked | On | EventsOfEvidence
    | If | Fails | ServicesAffected | Hops
    | IncidentsGroup | AgainstAsset | ContainsWord | ContainsNoAlert
    | NotHeld | NothingMatched
    | Space | Stop | StopSpace | Comma | And | OpenParen | CloseParen | OpenSquare | CloseSquare

  function Words(w: Wording): string {
    match w
    case AlertWord => "Alert "
    case WasCreatedByRule => " was created by the detection rule "
    case WasCreatedByARule => " was created by a detection rule."
    case IndicatesTechnique => " The alert indicates ATT&CK technique "
    case RecommendedActionIs => "The rule's recommended action is: "
    case ControlsAre => "The controls that mitigate this threat are "
    case ProcedureIsIn => "The response procedure is documented in "
    case AlertsAffect => " alert(s) affect "
    case TheService => "the service"
    case Colon => ":"
    case Bullet => "  - "
    case ColonSpace => ": "
    case Dash => " - "
    case IsTargetedBy => " is targeted by "
    case TechniquesMitigatedBy => " The controls that mitigate these techniques are "
    case UsersLinked => " user account(s) are linked to HIGH or CRITICAL alerts:"
    case On => " on "
    case EventsOfEvidence => " event(s) of evidence"
    case If => "If "
    case Fails => " fails, "
    case ServicesAffected => " service(s) are affected: "
    case Hops => " hop(s)"
    case IncidentsGroup => " incident(s) group the alerts:"
    case AgainstAsset => " against asset "
    case ContainsWord => " contains "
    case ContainsNoAlert => " contains no alert"
    case NotHeld => "The knowledge graph does not hold an answer to this question: "
    case NothingMatched => "no supported question type matched"
    case Space => " "
    case Stop => "."
    case StopSpace => ". "
    case Comma => ", "
    case And => " and "
    case OpenParen => " ("
    case CloseParen => ")"
    case OpenSquare => " ["
    case CloseSquare => "]"
  }

  datatype Counted = NodesTagged(tag: Label) | LinksFrom(kind: Kind, start: string)

  datatype Piece =
    | Fixed(wording: Wording)
    | KeyPiece(node: Node)
    | Property(node: Node, column: Column)
    | QuotedProperty(node: Node, column: Column)
    | UnpunctuatedProperty(node: Node, column: Column)
    | EndPiece(link: Link)
    | Bound(parameter: Parameter)
    | Count(n: nat, of: Counted)
    | Why

  /** A line of an answer; some have their trailing blanks stripped. */
  datatype Line = Line(pieces: seq<Piece>, stripped: bool)

  function Tagged(tag: Label): Node -> bool {
    (n: Node) => n.tag == tag
  }

  /** `nodes_of` */
  function NodesTaggedAs(e: Evidence, tag: Label): seq<Node> {
    Filter(Tagged(tag), e.nodes)
  }

  function Leaving(kind: Kind, start: string): Link -> bool {
    (l: Link) => l.kind == kind && l.start == start
  }

  function LinksLeaving(e: Evidence, kind: Kind, start: string): seq<Link> {
    Filter(Leaving(kind, start), e.links)
  }

  function CountNodes(e: Evidence, tag: Label): Piece {
    Count(|NodesTaggedAs(e, tag)|, NodesTagged(tag))
  }

  /** The graph populates the property with something to show. */
  predicate Stated(n: Node, c: Column) {
    c in n.properties && match n.properties[c]
                         case Text(s) => s != ""
                         case Number(_) => true
                         case _ => false
  }

  /** Where a piece that is not wording must come from. */
  predicate Grounded(e: Evidence, p: Piece) {
    match p
    case Fixed(_) => true
    case KeyPiece(n) => n in e.nodes
    case Property(n, c) => n in e.nodes && Stated(n, c)
    case QuotedProperty(n, c) => n in e.nodes && Stated(n, c)
    case UnpunctuatedProperty(n, c) => n in e.nodes && Stated(n, c)
    case EndPiece(l) => l in e.links
    case Bound(parameter) => parameter in e.parameters
    case Count(n, NodesTagged(tag)) => n == |NodesTaggedAs(e, tag)|
    case Count(n, LinksFrom(kind, start)) => n == |LinksLeaving(e, kind, start)|
    case Why => e.reason != ""
  }

  predicate AllGrounded(e: Evidence, ps: seq<Piece>) {
    forall p :: p in ps ==> Grounded(e, p)
  }

  predicate LinesGrounded(e: Evidence, lines: seq<Line>) {
    forall line :: line in lines ==> AllGrounded(e, line.pieces)
  }

  // ------------------------------------------------------------------ small parts

  /** `_qualifier`: an optional value in parentheses, or nothing. */
  function Qualifier(inner: seq<Piece>): seq<Piece> {
    if inner == [] then [] else [Fixed(OpenParen)] + inner + [Fixed(CloseParen)]
  }

  /** `_stated`, as pieces. */
  function StatedPieces(n: Node, c: Column): seq<Piece> {
    if Stated(n, c) then [Property(n, c)] else []
  }

  function Joined(items: seq<seq<Piece>>): seq<Piece> {
    if items == [] then []
    else if |items| == 1 then items[0]
    else Joined(items[..|items| - 1]) + [Fixed(Comma)] + items[|items| - 1]
  }

  /** `_sentence_list`: "a, b and c". */
  function SentenceList(items: seq<seq<Piece>>): seq<Piece> {
    if |items| <= 1 then Joined(items)
    else Joined(items[..|items| - 1]) + [Fixed(And)] + items[|items| - 1]
  }

  function KeyPieces(): Node -> seq<Piece> {
    (n: Node) => [KeyPiece(n)]
  }

  function ServicePiece(e: Evidence): Piece {
    if ServiceParameter in e.parameters then Bound(ServiceParameter) else Fixed(TheService)
  }

  /** `_nothing_known` */
  function NothingKnown(e: Evidence): seq<Piece> {
    [Fixed(NotHeld), if e.reason != "" then Why else Fixed(NothingMatched), Fixed(Stop)]
  }

  // ------------------------------------------------------------------- templates

  /** `nodes_of("Alert")[0]` */
  datatype IndexError = IndexError

  function FirstTagged(e: Evidence, tag: Label): Result<Node, IndexError> {
    var nodes := NodesTaggedAs(e, tag);
    if nodes == [] then Err(IndexError) else Ok(nodes[0])
  }

  function ExplanationOf(e: Evidence, alert: Node): seq<Piece> {
    [Fixed(AlertWord), KeyPiece(alert)]
    + (if Stated(alert, CRuleName) then [Fixed(WasCreatedByRule), QuotedProperty(alert, CRuleName), Fixed(Stop)]
       else [Fixed(WasCreatedByARule)])
    + match FirstTagged(e, Threat)
      case Err(_) => []
      case Ok(threat) =>
        [Fixed(IndicatesTechnique), KeyPiece(threat)] + Qualifier(StatedPieces(threat, CName)) + [Fixed(Stop)]
  }

  /** `_alert_explanation` */
  function AlertExplained(e: Evidence): Result<seq<Piece>, IndexError> {
    var alert :- FirstTagged(e, Alert);
    Ok(ExplanationOf(e, alert))
  }

  function ActionPart(alert: Node): seq<seq<Piece>> {
    if Stated(alert, CRecommendedAction)
    then [[Fixed(RecommendedActionIs), UnpunctuatedProperty(alert, CRecommendedAction)]] else []
  }

  function ListPart(wording: Wording, nodes: seq<Node>): seq<seq<Piece>> {
    if nodes == [] then [] else [[Fixed(wording)] + SentenceList(Map(KeyPieces(), nodes))]
  }

  function WithStops(parts: seq<seq<Piece>>): seq<Piece> {
    if parts == [] then []
    else if |parts| == 1 then parts[0]
    else WithStops(parts[..|parts| - 1]) + [Fixed(StopSpace)] + parts[|parts| - 1]
  }

  function ResponseParts(e: Evidence, alert: Node): seq<seq<Piece>> {
    ActionPart(alert) + ListPart(ControlsAre, NodesTaggedAs(e, Control))
    + ListPart(ProcedureIsIn, NodesTaggedAs(e, Document))
  }

  /** `_response_procedure` */
  function ResponseDescribed(e: Evidence): Result<seq<Piece>, IndexError> {
    var alert :- FirstTagged(e, Alert);
    var parts := ResponseParts(e, alert);
    Ok(if parts == [] then NothingKnown(e) else WithStops(parts) + [Fixed(Stop)])
  }

  /** `_alert_and_response` */
  function AlertAndResponse(e: Evidence): Result<seq<Piece>, IndexError> {
    var explanation :- AlertExplained(e);
    var response :- ResponseDescribed(e);
    Ok(explanation + [Fixed(Space)] + response)
  }

  function StateOf(n: Node): seq<Piece> {
    var severity, status := StatedPieces(n, CSeverity), StatedPieces(n, CStatus);
    severity + (if severity != [] && status != [] then [Fixed(Comma)] else []) + status
  }

  function AlertLine(): Node -> Line {
    (n: Node) =>
      Line([Fixed(Bullet), KeyPiece(n), Fixed(ColonSpace)] + StatedPieces(n, CRuleName) + Qualifier(StateOf(n))
           + (if Stated(n, CDescription) then [Fixed(Dash), Property(n, CDescription)] else []),
           true)
  }

  /** `_service_alerts` */
  function ServiceAlertLines(e: Evidence): seq<Line> {
    [Line([CountNodes(e, Alert), Fixed(AlertsAffect), ServicePiece(e), Fixed(Colon)], false)]
    + Map(AlertLine(), NodesTaggedAs(e, Alert))
  }

  function ThreatName(): Node -> seq<Piece> {
    (n: Node) => [KeyPiece(n)] + Qualifier(StatedPieces(n, CName))
  }

  /** `_threat_mitigation` */
  function ThreatsDescribed(e: Evidence): seq<Piece> {
    var controls := NodesTaggedAs(e, Control);
    [ServicePiece(e), Fixed(IsTargetedBy)] + SentenceList(Map(ThreatName(), NodesTaggedAs(e, Threat))) + [Fixed(Stop)]
    + (if controls == [] then []
       else [Fixed(TechniquesMitigatedBy)] + SentenceList(Map(KeyPieces(), controls)) + [Fixed(Stop)])
  }

  function UserLine(e: Evidence): Node -> Line {
    (n: Node) =>
      Line([Fixed(Bullet), KeyPiece(n)] + Qualifier(StatedPieces(n, CRole))
           + (if Stated(n, CRuleName) then [Fixed(On), Property(n, CRuleName)] else [])
           + (if Stated(n, CSeverity) then [Fixed(OpenSquare), Property(n, CSeverity), Fixed(CloseSquare)] else [])
           + [Fixed(Comma), Count(|LinksLeaving(e, Triggered, n.key)|, LinksFrom(Triggered, n.key)),
              Fixed(EventsOfEvidence)],
           false)
  }

  /** `_user_linkage` */
  function UserLines(e: Evidence): seq<Line> {
    [Line([CountNodes(e, User), Fixed(UsersLinked)], false)] + Map(UserLine(e), NodesTaggedAs(e, User))
  }

  function ImpactedName(): Node -> seq<Piece> {
    (n: Node) => [KeyPiece(n)] + Qualifier(if Stated(n, CHops) then [Property(n, CHops), Fixed(Hops)] else [])
  }

  /** `_dependency_impact` */
  function ImpactDescribed(e: Evidence): seq<Piece> {
    [Fixed(If), ServicePiece(e), Fixed(Fails), CountNodes(e, Service), Fixed(ServicesAffected)]
    + SentenceList(Map(ImpactedName(), NodesTaggedAs(e, Service))) + [Fixed(Stop)]
  }

  /** `{node.key: ...}` over the Alert nodes: of two with one key the later. */
  function AlertNamed(alerts: seq<Node>, key: string): Option<Node> {
    if alerts == [] then None
    else if alerts[|alerts| - 1].key == key then Some(alerts[|alerts| - 1])
    else AlertNamed(alerts[..|alerts| - 1], key)
  }

  /** A contained alert, with its own rule beside it. */
  function ContainedAlert(e: Evidence): Link -> seq<Piece> {
    (l: Link) =>
      [EndPiece(l)] + match AlertNamed(NodesTaggedAs(e, Alert), l.end)
                      case None => []
                      case Some(alert) => Qualifier(StatedPieces(alert, CRuleName))
  }

  function AssetPieces(affected: seq<Link>): seq<Piece> {
    if affected != [] && affected[0].end != "" then [Fixed(AgainstAsset), EndPiece(affected[0])] else []
  }

  function IncidentLine(e: Evidence): Node -> Line {
    (n: Node) =>
      var contained := LinksLeaving(e, Contains, n.key);
      Line([Fixed(Bullet), KeyPiece(n)]
           + (if Stated(n, CSeverity) then [Fixed(OpenSquare), Property(n, CSeverity), Fixed(CloseSquare)] else [])
           + AssetPieces(LinksLeaving(e, Affects, n.key))
           + (if contained == [] then [Fixed(ContainsNoAlert)]
              else [Fixed(ContainsWord)] + SentenceList(Map(ContainedAlert(e), contained))),
           false)
  }

  /** `_incident_linkage` */
  function IncidentLines(e: Evidence): seq<Line> {
    [Line([CountNodes(e, Incident), Fixed(IncidentsGroup)], false)] + Map(IncidentLine(e), NodesTaggedAs(e, Incident))
  }

  function OneLine(pieces: seq<Piece>): seq<Line> {
    [Line(pieces, false)]
  }

  /** `generate` */
  function Generate(e: Evidence): Result<seq<Line>, IndexError> {
    if e.nodes == [] then Ok(OneLine(NothingKnown(e)))
    else
      match e.intent
      case AlertExplanation => var pieces :- AlertAndResponse(e); Ok(OneLine(pieces))
      case ResponseProcedure => var pieces :- ResponseDescribed(e); Ok(OneLine(pieces))
      case ServiceAlerts => Ok(ServiceAlertLines(e))
      case ThreatMitigation => Ok(OneLine(ThreatsDescribed(e)))
      case UserLinkage => Ok(UserLines(e))
      case ImpactOfFailure => Ok(OneLine(ImpactDescribed(e)))
      case IncidentLinkage => Ok(IncidentLines(e))
      case Unsupported => Ok(OneLine(NothingKnown(e)))
  }

  // --------------------------------------------------- the templates, step by step

  method BuildResponse(e: Evidence) returns (r: Result<seq<Piece>, IndexError>)
    ensures r == ResponseDescribed(e)
  {
    hide Filter, SentenceList, WithStops, Stated;
    var alert :- FirstTagged(e, Alert);
    var controls, runbooks := NodesTaggedAs(e, Control), NodesTaggedAs(e, Document);
    var parts: seq<seq<Piece>> := [];
    if Stated(alert, CRecommendedAction) {
      parts := parts + [[Fixed(RecommendedActionIs), UnpunctuatedProperty(alert, CRecommendedAction)]];
    }
    if controls != [] {
      parts := parts + [[Fixed(ControlsAre)] + SentenceList(Map(KeyPieces(), controls))];
    }
    if runbooks != [] {
      parts := parts + [[Fixed(ProcedureIsIn)] + SentenceList(Map(KeyPieces(), runbooks))];
    }
    assert parts == ResponseParts(e, alert);
    r := Ok(if parts != [] then WithStops(parts) + [Fixed(Stop)] else NothingKnown(e));
  }

  method BuildServiceAlerts(e: Evidence) returns (lines: seq<Line>)
    ensures lines == ServiceAlertLines(e)
  {
    hide Filter, Stated, StateOf, Qualifier;
    var alerts := NodesTaggedAs(e, Alert);
    lines := [Line([CountNodes(e, Alert), Fixed(AlertsAffect), ServicePiece(e), Fixed(Colon)], false)];
    for i := 0 to |alerts|
      invariant lines == ServiceAlertLines(e)[..i + 1]
    {
      var n := alerts[i];
      var pieces := [Fixed(Bullet), KeyPiece(n), Fixed(ColonSpace)] + StatedPieces(n, CRuleName)
        + Qualifier(StateOf(n));
      if Stated(n, CDescription) {
        pieces := pieces + [Fixed(Dash), Property(n, CDescription)];
      }
      assert Line(pieces, true) == AlertLine()(n);
      lines := lines + [Line(pieces, true)];
    }
  }

  method BuildUserLinkage(e: Evidence) returns (lines: seq<Line>)
    ensures lines == UserLines(e)
  {
    hide Filter, Stated, Qualifier, UserLine;
    var users := NodesTaggedAs(e, User);
    lines := [Line([CountNodes(e, User), Fixed(UsersLinked)], false)];
    for i := 0 to |users|
      invariant lines == UserLines(e)[..i + 1]
    {
      lines := lines + [UserLine(e)(users[i])];
    }
  }

  method BuildImpact(e: Evidence) returns (pieces: seq<Piece>)
    ensures pieces == ImpactDescribed(e)
  {
    hide Filter, Stated, Qualifier, SentenceList;
    var impacted := NodesTaggedAs(e, Service);
    var described: seq<seq<Piece>> := [];
    for i := 0 to |impacted|
      invariant described == Map(ImpactedName(), impacted)[..i]
    {
      described := described + [ImpactedName()(impacted[i])];
    }
    assert described == Map(ImpactedName(), impacted);
    pieces := [Fixed(If), ServicePiece(e), Fixed(Fails), CountNodes(e, Service), Fixed(ServicesAffected)]
      + SentenceList(described) + [Fixed(Stop)];
  }

  method BuildIncidentLinkage(e: Evidence) returns (lines: seq<Line>)
    ensures lines == IncidentLines(e)
  {
    hide Filter, IncidentLine;
    var incidents := NodesTaggedAs(e, Incident);
    lines := [Line([CountNodes(e, Incident), Fixed(IncidentsGroup)], false)];
    for i := 0 to |incidents|
      invariant lines == IncidentLines(e)[..i + 1]
    {
      lines := lines + [IncidentLine(e)(incidents[i])];
    }
  }

  method GenerateAnswer(e: Evidence) returns (r: Result<seq<Line>, IndexError>)
    ensures r == Generate(e)
  {
    hide ServiceAlertLines, UserLines, ImpactDescribed, IncidentLines, ThreatsDescribed, ExplanationOf,
      ResponseParts, WithStops, Filter;
    if e.nodes == [] || e.intent == Unsupported {
      return Ok(OneLine(NothingKnown(e)));
    }
    match e.intent
    case AlertExplanation =>
      var explanation :- AlertExplained(e);
      var response := BuildResponse(e);
      r := Ok(OneLine(explanation + [Fixed(Space)] + response.value));
    case ResponseProcedure =>
      var pieces :- BuildResponse(e);
      r := Ok(OneLine(pieces));
    case ServiceAlerts =>
      var lines := BuildServiceAlerts(e);
      r := Ok(lines);
    case ThreatMitigation => r := Ok(OneLine(ThreatsDescribed(e)));
    case UserLinkage =>
      var lines := BuildUserLinkage(e);
      r := Ok(lines);
    case ImpactOfFailure =>
      var pieces := BuildImpact(e);
      r := Ok(OneLine(pieces));
    case IncidentLinkage =>
      var lines := BuildIncidentLinkage(e);
      r := Ok(lines);
    case Unsupported => r := Ok(OneLine(NothingKnown(e)));
  }
}
