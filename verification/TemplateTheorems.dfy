/** No answer says what its evidence does not hold. */
module TemplateTheorems {
  import opened Wrappers
  import opened Sequences
  import opened Graphs
  import opened Retrieval
  import opened Intents
  import opened Templates

  // ----------------------------------------------------------------- groundedness

  lemma {:induction false} GroundedConcat(e: Evidence, a: seq<Piece>, b: seq<Piece>)
    ensures AllGrounded(e, a + b) <==> AllGrounded(e, a) && AllGrounded(e, b)
  {
    assert forall p :: p in a + b <==> p in a || p in b;
  }

  lemma {:induction false} TaggedAreNodes(e: Evidence, tag: Label)
    ensures forall n :: n in NodesTaggedAs(e, tag) <==> n in e.nodes && n.tag == tag
  {
    FilterIn(Tagged(tag), e.nodes);
  }

  predicate EachGrounded(e: Evidence, items: seq<seq<Piece>>) {
    forall i :: 0 <= i < |items| ==> AllGrounded(e, items[i])
  }

  lemma {:induction false} JoinedGrounded(e: Evidence, items: seq<seq<Piece>>)
    requires EachGrounded(e, items)
    ensures AllGrounded(e, Joined(items)) && AllGrounded(e, WithStops(items))
  {
    hide Grounded, AllGrounded;
    FixedGrounded(e, Comma);
    FixedGrounded(e, StopSpace);
    if |items| == 0 {
      NothingGrounded(e);
    } else if |items| > 1 {
      var front, last := items[..|items| - 1], items[|items| - 1];
      JoinedGrounded(e, front);
      GroundedConcat(e, Joined(front), [Fixed(Comma)]);
      GroundedConcat(e, Joined(front) + [Fixed(Comma)], last);
      GroundedConcat(e, WithStops(front), [Fixed(StopSpace)]);
      GroundedConcat(e, WithStops(front) + [Fixed(StopSpace)], last);
    }
  }

  lemma {:induction false} NothingGrounded(e: Evidence)
    ensures AllGrounded(e, [])
  {
  }

  lemma {:induction false} FixedGrounded(e: Evidence, w: Wording)
    ensures AllGrounded(e, [Fixed(w)])
  {
  }

  lemma {:induction false} SentenceGrounded(e: Evidence, items: seq<seq<Piece>>)
    requires EachGrounded(e, items)
    ensures AllGrounded(e, SentenceList(items))
  {
    hide Grounded, AllGrounded;
    JoinedGrounded(e, items);
    if |items| > 1 {
      var front, last := items[..|items| - 1], items[|items| - 1];
      JoinedGrounded(e, front);
      FixedGrounded(e, And);
      GroundedConcat(e, Joined(front), [Fixed(And)]);
      GroundedConcat(e, Joined(front) + [Fixed(And)], last);
    }
  }

  lemma {:induction false} QualifierGrounded(e: Evidence, inner: seq<Piece>)
    requires AllGrounded(e, inner)
    ensures AllGrounded(e, Qualifier(inner))
  {
    hide Grounded;
    FixedGrounded(e, OpenParen);
    FixedGrounded(e, CloseParen);
    GroundedConcat(e, [Fixed(OpenParen)], inner);
    GroundedConcat(e, [Fixed(OpenParen)] + inner, [Fixed(CloseParen)]);
  }

  /** A node's key and a stated property of it are evidence. */
  lemma {:induction false} NodeGrounded(e: Evidence, n: Node, c: Column)
    requires n in e.nodes
    ensures AllGrounded(e, [KeyPiece(n)]) && AllGrounded(e, StatedPieces(n, c))
    ensures AllGrounded(e, Qualifier(StatedPieces(n, c)))
  {
    QualifierGrounded(e, StatedPieces(n, c));
  }

  lemma {:induction false} ExplanationGrounded(e: Evidence, alert: Node)
    requires alert in e.nodes
    ensures AllGrounded(e, ExplanationOf(e, alert))
  {
    hide Stated;
    TaggedAreNodes(e, Threat);
    var head := [Fixed(AlertWord), KeyPiece(alert)];
    var rule := if Stated(alert, CRuleName)
      then [Fixed(WasCreatedByRule), QuotedProperty(alert, CRuleName), Fixed(Stop)]
                else [Fixed(WasCreatedByARule)];
    assert AllGrounded(e, head) && AllGrounded(e, rule);
    GroundedConcat(e, head, rule);
    match FirstTagged(e, Threat)
    case Err(_) =>
      assert ExplanationOf(e, alert) == head + rule;
    case Ok(threat) =>
      assert threat in NodesTaggedAs(e, Threat);
      NodeGrounded(e, threat, CName);
      var start, name := [Fixed(IndicatesTechnique), KeyPiece(threat)], Qualifier(StatedPieces(threat, CName));
      assert AllGrounded(e, start);
      FixedGrounded(e, Stop);
      GroundedConcat(e, start, name);
      GroundedConcat(e, start + name, [Fixed(Stop)]);
      GroundedConcat(e, head + rule, start + name + [Fixed(Stop)]);
  }

  lemma {:induction false} KeysGrounded(e: Evidence, wording: Wording, tag: Label)
    ensures AllGrounded(e, [Fixed(wording)] + SentenceList(Map(KeyPieces(), NodesTaggedAs(e, tag))))
  {
    hide Filter;
    TaggedAreNodes(e, tag);
    var items := Map(KeyPieces(), NodesTaggedAs(e, tag));
    forall i | 0 <= i < |items|
      ensures AllGrounded(e, items[i])
    {
      assert NodesTaggedAs(e, tag)[i] in NodesTaggedAs(e, tag);
    }
    SentenceGrounded(e, items);
    FixedGrounded(e, wording);
    GroundedConcat(e, [Fixed(wording)], SentenceList(items));
  }

  lemma {:induction false} NothingKnownGrounded(e: Evidence)
    ensures AllGrounded(e, NothingKnown(e))
  {
  }

  lemma {:induction false} ResponseGrounded(e: Evidence)
    requires ResponseDescribed(e).Ok?
    ensures AllGrounded(e, ResponseDescribed(e).value)
  {
    hide Filter, Grounded, SentenceList, WithStops;
    TaggedAreNodes(e, Label.Alert);
    var alert := FirstTagged(e, Label.Alert).value;
    var parts := ResponseParts(e, alert);
    assert alert in NodesTaggedAs(e, Label.Alert);
    KeysGrounded(e, ControlsAre, Control);
    KeysGrounded(e, ProcedureIsIn, Document);
    ActionGrounded(e, alert);
    var a, b, c := ActionPart(alert), ListPart(ControlsAre, NodesTaggedAs(e, Control)),
      ListPart(ProcedureIsIn, NodesTaggedAs(e, Document));
    PartsGrounded(e, a, b);
    PartsGrounded(e, a + b, c);
    JoinedGrounded(e, parts);
    FixedGrounded(e, Stop);
    GroundedConcat(e, WithStops(parts), [Fixed(Stop)]);
    NothingKnownGrounded(e);
  }

  lemma {:induction false} PartsGrounded(e: Evidence, a: seq<seq<Piece>>, b: seq<seq<Piece>>)
    requires EachGrounded(e, a) && EachGrounded(e, b)
    ensures EachGrounded(e, a + b)
  {
    hide AllGrounded;
  }

  lemma {:induction false} ActionGrounded(e: Evidence, alert: Node)
    requires alert in e.nodes
    ensures EachGrounded(e, ActionPart(alert))
  {
  }

  lemma {:induction false} CountGrounded(e: Evidence, tag: Label)
    ensures AllGrounded(e, [CountNodes(e, tag)]) && AllGrounded(e, [ServicePiece(e)])
  {
    hide Filter;
  }

  lemma {:induction false} AlertLineGrounded(e: Evidence, n: Node)
    requires n in e.nodes
    ensures AllGrounded(e, AlertLine()(n).pieces)
  {
    hide Grounded, Stated, AllGrounded;
    var a, b, c := [Fixed(Bullet), KeyPiece(n), Fixed(ColonSpace)], StatedPieces(n, CRuleName), Qualifier(StateOf(n));
    var d := if Stated(n, CDescription) then [Fixed(Dash), Property(n, CDescription)] else [];
    NodeGrounded(e, n, CRuleName);
    StateGrounded(e, n);
    QualifierGrounded(e, StateOf(n));
    BulletGrounded(e, n);
    DescriptionGrounded(e, n);
    GroundedConcat(e, a, b);
    GroundedConcat(e, a + b, c);
    GroundedConcat(e, a + b + c, d);
  }

  lemma {:induction false} BulletGrounded(e: Evidence, n: Node)
    requires n in e.nodes
    ensures AllGrounded(e, [Fixed(Bullet), KeyPiece(n), Fixed(ColonSpace)])
      && AllGrounded(e, [Fixed(Bullet), KeyPiece(n)])
  {
  }

  lemma {:induction false} DescriptionGrounded(e: Evidence, n: Node)
    requires n in e.nodes
    ensures AllGrounded(e, if Stated(n, CDescription) then [Fixed(Dash), Property(n, CDescription)] else [])
    ensures AllGrounded(e, if Stated(n, CRuleName) then [Fixed(On), Property(n, CRuleName)] else [])
    ensures AllGrounded(e, if Stated(n, CSeverity) then [Fixed(OpenSquare), Property(n, CSeverity), Fixed(CloseSquare)]
                        else [])
    ensures AllGrounded(e, if Stated(n, CHops) then [Property(n, CHops), Fixed(Hops)] else [])
  {
    hide Stated;
  }

  lemma {:induction false} StateGrounded(e: Evidence, n: Node)
    requires n in e.nodes
    ensures AllGrounded(e, StateOf(n))
  {
    hide Grounded, Stated, AllGrounded;
    var severity, status := StatedPieces(n, CSeverity), StatedPieces(n, CStatus);
    var comma := if severity != [] && status != [] then [Fixed(Comma)] else [];
    NodeGrounded(e, n, CSeverity);
    NodeGrounded(e, n, CStatus);
    FixedGrounded(e, Comma);
    NothingGrounded(e);
    GroundedConcat(e, severity, comma);
    GroundedConcat(e, severity + comma, status);
  }

  lemma {:induction false} UserLineGrounded(e: Evidence, n: Node)
    requires n in e.nodes
    ensures AllGrounded(e, UserLine(e)(n).pieces)
  {
    hide Grounded, Stated, AllGrounded, LinksLeaving;
    var a, b := [Fixed(Bullet), KeyPiece(n)], Qualifier(StatedPieces(n, CRole));
    var c := if Stated(n, CRuleName) then [Fixed(On), Property(n, CRuleName)] else [];
    var d := if Stated(n, CSeverity) then [Fixed(OpenSquare), Property(n, CSeverity), Fixed(CloseSquare)] else [];
    var f := [Fixed(Comma), Count(|LinksLeaving(e, Triggered, n.key)|, LinksFrom(Triggered, n.key)),
              Fixed(EventsOfEvidence)];
    BulletGrounded(e, n);
    NodeGrounded(e, n, CRole);
    DescriptionGrounded(e, n);
    EventCountGrounded(e, n);
    GroundedConcat(e, a, b);
    GroundedConcat(e, a + b, c);
    GroundedConcat(e, a + b + c, d);
    GroundedConcat(e, a + b + c + d, f);
  }

  lemma {:induction false} EventCountGrounded(e: Evidence, n: Node)
    ensures AllGrounded(e, [Fixed(Comma), Count(|LinksLeaving(e, Triggered, n.key)|, LinksFrom(Triggered, n.key)),
                            Fixed(EventsOfEvidence)])
  {
    hide LinksLeaving;
  }

  lemma {:induction false} NamedGrounded(e: Evidence, n: Node)
    requires n in e.nodes
    ensures AllGrounded(e, ThreatName()(n)) && AllGrounded(e, ImpactedName()(n))
  {
    hide Grounded, Stated, AllGrounded;
    var hops := if Stated(n, CHops) then [Property(n, CHops), Fixed(Hops)] else [];
    NodeGrounded(e, n, CName);
    DescriptionGrounded(e, n);
    QualifierGrounded(e, hops);
    GroundedConcat(e, [KeyPiece(n)], Qualifier(StatedPieces(n, CName)));
    GroundedConcat(e, [KeyPiece(n)], Qualifier(hops));
  }

  lemma {:induction false} ThreatsGrounded(e: Evidence)
    ensures AllGrounded(e, ThreatsDescribed(e))
  {
    hide Filter, Grounded, SentenceList, AllGrounded;
    TaggedAreNodes(e, Threat);
    var items := Map(ThreatName(), NodesTaggedAs(e, Threat));
    forall i | 0 <= i < |items|
      ensures AllGrounded(e, items[i])
    {
      assert NodesTaggedAs(e, Threat)[i] in NodesTaggedAs(e, Threat);
      NamedGrounded(e, NodesTaggedAs(e, Threat)[i]);
    }
    var controls := [Fixed(TechniquesMitigatedBy)] + SentenceList(Map(KeyPieces(), NodesTaggedAs(e, Control)));
    SentenceGrounded(e, items);
    CountGrounded(e, Threat);
    FixedGrounded(e, IsTargetedBy);
    FixedGrounded(e, Stop);
    NothingGrounded(e);
    KeysGrounded(e, TechniquesMitigatedBy, Control);
    assert [ServicePiece(e), Fixed(IsTargetedBy)] == [ServicePiece(e)] + [Fixed(IsTargetedBy)];
    GroundedConcat(e, [ServicePiece(e)], [Fixed(IsTargetedBy)]);
    var start := [ServicePiece(e), Fixed(IsTargetedBy)] + SentenceList(items);
    GroundedConcat(e, [ServicePiece(e), Fixed(IsTargetedBy)], SentenceList(items));
    GroundedConcat(e, start, [Fixed(Stop)]);
    GroundedConcat(e, controls, [Fixed(Stop)]);
    GroundedConcat(e, start + [Fixed(Stop)], if NodesTaggedAs(e, Control) == [] then [] else controls + [Fixed(Stop)]);
  }

  lemma {:induction false} ImpactGrounded(e: Evidence)
    ensures AllGrounded(e, ImpactDescribed(e))
  {
    hide Filter, Grounded, SentenceList, AllGrounded;
    TaggedAreNodes(e, Service);
    var items := Map(ImpactedName(), NodesTaggedAs(e, Service));
    forall i | 0 <= i < |items|
      ensures AllGrounded(e, items[i])
    {
      assert NodesTaggedAs(e, Service)[i] in NodesTaggedAs(e, Service);
      NamedGrounded(e, NodesTaggedAs(e, Service)[i]);
    }
    SentenceGrounded(e, items);
    FixedGrounded(e, Stop);
    ImpactHeadGrounded(e);
    var head := [Fixed(If), ServicePiece(e), Fixed(Fails), CountNodes(e, Service), Fixed(ServicesAffected)];
    GroundedConcat(e, head, SentenceList(items));
    GroundedConcat(e, head + SentenceList(items), [Fixed(Stop)]);
  }

  lemma {:induction false} ImpactHeadGrounded(e: Evidence)
    ensures AllGrounded(e, [Fixed(If), ServicePiece(e), Fixed(Fails), CountNodes(e, Service), Fixed(ServicesAffected)])
  {
    hide Filter;
  }

  lemma {:induction false} AlertNamedIsOwn(alerts: seq<Node>, key: string)
    ensures AlertNamed(alerts, key).Some?
      ==> AlertNamed(alerts, key).value in alerts && AlertNamed(alerts, key).value.key == key
    ensures AlertNamed(alerts, key).None? ==> forall n :: n in alerts ==> n.key != key
  {
    if alerts != [] {
      assert alerts == alerts[..|alerts| - 1] + [alerts[|alerts| - 1]];
      AlertNamedIsOwn(alerts[..|alerts| - 1], key);
    }
  }

  lemma {:induction false} ContainedGrounded(e: Evidence, l: Link)
    requires l in e.links
    ensures AllGrounded(e, ContainedAlert(e)(l))
  {
    hide Filter, Stated;
    TaggedAreNodes(e, Label.Alert);
    AlertNamedIsOwn(NodesTaggedAs(e, Label.Alert), l.end);
    match AlertNamed(NodesTaggedAs(e, Label.Alert), l.end)
    case None =>
    case Some(alert) =>
      NodeGrounded(e, alert, CRuleName);
      GroundedConcat(e, [EndPiece(l)], Qualifier(StatedPieces(alert, CRuleName)));
  }

  lemma {:induction false} ContainsGrounded(e: Evidence, key: string)
    ensures var contained := LinksLeaving(e, Contains, key);
      AllGrounded(e, if contained == [] then [Fixed(ContainsNoAlert)]
                     else [Fixed(ContainsWord)] + SentenceList(Map(ContainedAlert(e), contained)))
    ensures AllGrounded(e, AssetPieces(LinksLeaving(e, Affects, key)))
  {
    hide SentenceList, ContainedAlert;
    var contained := LinksLeaving(e, Contains, key);
    FilterIn(Leaving(Contains, key), e.links);
    FilterIn(Leaving(Affects, key), e.links);
    var items := Map(ContainedAlert(e), contained);
    forall i | 0 <= i < |items|
      ensures AllGrounded(e, items[i])
    {
      assert contained[i] in contained;
      ContainedGrounded(e, contained[i]);
    }
    SentenceGrounded(e, items);
    FixedGrounded(e, ContainsWord);
    GroundedConcat(e, [Fixed(ContainsWord)], SentenceList(items));
    var affected := LinksLeaving(e, Affects, key);
    if affected != [] {
      assert affected[0] in affected;
    }
  }

  lemma {:induction false} IncidentLineGrounded(e: Evidence, n: Node)
    requires n in e.nodes
    ensures AllGrounded(e, IncidentLine(e)(n).pieces)
  {
    hide Grounded, Stated, AllGrounded, LinksLeaving, SentenceList, ContainedAlert, AssetPieces;
    var a := [Fixed(Bullet), KeyPiece(n)];
    var b := if Stated(n, CSeverity) then [Fixed(OpenSquare), Property(n, CSeverity), Fixed(CloseSquare)] else [];
    var c, contained := AssetPieces(LinksLeaving(e, Affects, n.key)), LinksLeaving(e, Contains, n.key);
    var d := if contained == [] then [Fixed(ContainsNoAlert)]
             else [Fixed(ContainsWord)] + SentenceList(Map(ContainedAlert(e), contained));
    BulletGrounded(e, n);
    DescriptionGrounded(e, n);
    ContainsGrounded(e, n.key);
    GroundedConcat(e, a, b);
    GroundedConcat(e, a + b, c);
    GroundedConcat(e, a + b + c, d);
  }

  /** A heading, and one line per node of a label. */
  lemma {:induction false} ListGrounded(e: Evidence, head: seq<Piece>, f: Node -> Line, tag: Label)
    requires AllGrounded(e, head)
    requires forall n :: n in e.nodes ==> AllGrounded(e, f(n).pieces)
    ensures LinesGrounded(e, [Line(head, false)] + Map(f, NodesTaggedAs(e, tag)))
  {
    hide AllGrounded, Filter;
    TaggedAreNodes(e, tag);
    var nodes := NodesTaggedAs(e, tag);
    forall line | line in Map(f, nodes)
      ensures AllGrounded(e, line.pieces)
    {
      var i :| 0 <= i < |nodes| && Map(f, nodes)[i] == line;
      assert nodes[i] in nodes;
    }
  }

  lemma {:induction false} HeadsGrounded(e: Evidence)
    ensures AllGrounded(e, [CountNodes(e, Label.Alert), Fixed(AlertsAffect), ServicePiece(e), Fixed(Colon)])
    ensures AllGrounded(e, [CountNodes(e, User), Fixed(UsersLinked)])
    ensures AllGrounded(e, [CountNodes(e, Incident), Fixed(IncidentsGroup)])
  {
    hide Filter;
  }

  lemma {:induction false} LinesOfNodesGrounded(e: Evidence)
    ensures LinesGrounded(e, ServiceAlertLines(e)) && LinesGrounded(e, UserLines(e))
      && LinesGrounded(e, IncidentLines(e))
  {
    hide AllGrounded, Filter, AlertLine, UserLine, IncidentLine, LinesGrounded;
    HeadsGrounded(e);
    forall n | n in e.nodes
      ensures AllGrounded(e, AlertLine()(n).pieces)
      ensures AllGrounded(e, UserLine(e)(n).pieces)
      ensures AllGrounded(e, IncidentLine(e)(n).pieces)
    {
      AlertLineGrounded(e, n);
      UserLineGrounded(e, n);
      IncidentLineGrounded(e, n);
    }
    ListGrounded(e, [CountNodes(e, Label.Alert), Fixed(AlertsAffect), ServicePiece(e), Fixed(Colon)], AlertLine(),
                 Label.Alert);
    ListGrounded(e, [CountNodes(e, User), Fixed(UsersLinked)], UserLine(e), User);
    ListGrounded(e, [CountNodes(e, Incident), Fixed(IncidentsGroup)], IncidentLine(e), Incident);
  }

  /** Whatever the evidence, an answer is made of the templates' own words and of
      what the evidence holds: node keys, stated properties, relationship ends,
      bound parameters, true counts and its own reason. */
  lemma {:induction false} AnswersAreGrounded(e: Evidence)
    requires Generate(e).Ok?
    ensures LinesGrounded(e, Generate(e).value)
  {
    hide AllGrounded, ServiceAlertLines, UserLines, IncidentLines, ThreatsDescribed, ImpactDescribed, NothingKnown,
      ResponseDescribed, AlertAndResponse;
    NothingKnownGrounded(e);
    LinesOfNodesGrounded(e);
    ThreatsGrounded(e);
    ImpactGrounded(e);
    if e.intent == ResponseProcedure && e.nodes != [] {
      ResponseGrounded(e);
    }
    if e.intent == AlertExplanation && e.nodes != [] {
      BothGrounded(e);
    }
  }

  lemma {:induction false} BothGrounded(e: Evidence)
    requires AlertAndResponse(e).Ok?
    ensures AllGrounded(e, AlertAndResponse(e).value)
  {
    hide AllGrounded, Filter, ResponseDescribed, ExplanationOf;
    TaggedAreNodes(e, Label.Alert);
    var alert := FirstTagged(e, Label.Alert).value;
    assert alert in NodesTaggedAs(e, Label.Alert);
    var explanation, response := ExplanationOf(e, alert), ResponseDescribed(e).value;
    ExplanationGrounded(e, alert);
    ResponseGrounded(e);
    FixedGrounded(e, Space);
    GroundedConcat(e, explanation, [Fixed(Space)]);
    GroundedConcat(e, explanation + [Fixed(Space)], response);
  }

  /** A template indexes out of range exactly when an alert is asked about and the
      evidence, not empty, holds none. */
  lemma {:induction false} GenerateFailsIff(e: Evidence)
    ensures Generate(e).Err?
      <==> e.nodes != [] && (e.intent == AlertExplanation || e.intent == ResponseProcedure)
           && forall n :: n in e.nodes ==> n.tag != Label.Alert
  {
    hide Filter, ExplanationOf, ResponseParts, NothingKnown, ServiceAlertLines, UserLines, IncidentLines,
      ThreatsDescribed, ImpactDescribed;
    TaggedAreNodes(e, Label.Alert);
    var alerts := NodesTaggedAs(e, Label.Alert);
    if alerts != [] {
      assert alerts[0] in alerts;
    }
    if n :| n in e.nodes && n.tag == Label.Alert {
      assert n in alerts;
    }
  }
}
