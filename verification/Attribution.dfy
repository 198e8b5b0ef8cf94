/** What an answer says of a thing stands right behind that thing's own name. */
module Attribution {
  import opened Wrappers
  import opened Sequences
  import opened Graphs
  import opened Retrieval
  import opened Intents
  import opened Templates

  /** The last key or relationship end printed. */
  function LastName(ps: seq<Piece>): Option<string> {
    if ps == [] then None
    else
      match ps[|ps| - 1]
      case KeyPiece(n) => Some(n.key)
      case EndPiece(l) => Some(l.end)
      case _ => LastName(ps[..|ps| - 1])
  }

  predicate ShowsProperty(p: Piece) {
    p.Property? || p.QuotedProperty? || p.UnpunctuatedProperty?
  }

  /** Every property printed belongs to the node whose key was printed last. */
  predicate Attributed(ps: seq<Piece>) {
    forall i :: 0 <= i < |ps| && ShowsProperty(ps[i]) ==> LastName(ps[..i]) == Some(ps[i].node.key)
  }

  /** Names nothing, and shows properties of `key` only. */
  predicate About(ps: seq<Piece>, key: string) {
    forall p :: p in ps ==> !p.KeyPiece? && !p.EndPiece? && (ShowsProperty(p) ==> p.node.key == key)
  }

  lemma {:induction false} LastNameConcat(a: seq<Piece>, b: seq<Piece>)
    ensures LastName(a + b) == if LastName(b).Some? then LastName(b) else LastName(a)
  {
    if b == [] {
      assert a + b == a;
    } else {
      assert (a + b)[..|a + b| - 1] == a + b[..|b| - 1];
      LastNameConcat(a, b[..|b| - 1]);
    }
  }

  lemma {:induction false} AttributedConcat(a: seq<Piece>, b: seq<Piece>)
    requires Attributed(a) && Attributed(b)
    ensures Attributed(a + b)
  {
    forall i | 0 <= i < |a + b| && ShowsProperty((a + b)[i])
      ensures LastName((a + b)[..i]) == Some((a + b)[i].node.key)
    {
      if i < |a| {
        assert (a + b)[..i] == a[..i];
      } else {
        assert (a + b)[..i] == a + b[..i - |a|];
        LastNameConcat(a, b[..i - |a|]);
      }
    }
  }

  lemma {:induction false} AboutNamesNothing(ps: seq<Piece>, key: string)
    requires About(ps, key)
    ensures LastName(ps) == None
  {
    if ps != [] {
      assert ps[|ps| - 1] in ps;
      AboutNamesNothing(ps[..|ps| - 1], key);
    }
  }

  /** Properties of the thing named last may follow. */
  lemma {:induction false} AttributedAbout(head: seq<Piece>, rest: seq<Piece>, key: string)
    requires Attributed(head) && LastName(head) == Some(key) && About(rest, key)
    ensures Attributed(head + rest) && LastName(head + rest) == Some(key)
  {
    AboutNamesNothing(rest, key);
    LastNameConcat(head, rest);
    forall i | 0 <= i < |head + rest| && ShowsProperty((head + rest)[i])
      ensures LastName((head + rest)[..i]) == Some((head + rest)[i].node.key)
    {
      if i < |head| {
        assert (head + rest)[..i] == head[..i];
      } else {
        assert (head + rest)[..i] == head + rest[..i - |head|];
        assert rest[i - |head|] in rest;
        AboutNamesNothing(rest[..i - |head|], key);
        LastNameConcat(head, rest[..i - |head|]);
      }
    }
  }

  predicate EachAttributed(items: seq<seq<Piece>>) {
    forall i :: 0 <= i < |items| ==> Attributed(items[i])
  }

  lemma {:induction false} PlainAttributed(ps: seq<Piece>)
    requires forall p :: p in ps ==> !ShowsProperty(p)
    ensures Attributed(ps)
  {
  }

  lemma {:induction false} JoinedAttributed(items: seq<seq<Piece>>)
    requires EachAttributed(items)
    ensures Attributed(Joined(items)) && Attributed(WithStops(items))
  {
    hide Attributed;
    PlainAttributed([]);
    if |items| > 1 {
      var front, last := items[..|items| - 1], items[|items| - 1];
      JoinedAttributed(front);
      PlainAttributed([Fixed(Comma)]);
      PlainAttributed([Fixed(StopSpace)]);
      AttributedConcat(Joined(front), [Fixed(Comma)]);
      AttributedConcat(Joined(front) + [Fixed(Comma)], last);
      AttributedConcat(WithStops(front), [Fixed(StopSpace)]);
      AttributedConcat(WithStops(front) + [Fixed(StopSpace)], last);
    }
  }

  lemma {:induction false} SentenceAttributed(items: seq<seq<Piece>>)
    requires EachAttributed(items)
    ensures Attributed(SentenceList(items))
  {
    hide Attributed;
    JoinedAttributed(items);
    if |items| > 1 {
      var front, last := items[..|items| - 1], items[|items| - 1];
      JoinedAttributed(front);
      PlainAttributed([Fixed(And)]);
      AttributedConcat(Joined(front), [Fixed(And)]);
      AttributedConcat(Joined(front) + [Fixed(And)], last);
    }
  }

  lemma {:induction false} StatedIsAbout(n: Node, c: Column)
    ensures About(StatedPieces(n, c), n.key) && About(Qualifier(StatedPieces(n, c)), n.key)
  {
    hide Stated;
  }

  lemma {:induction false} AboutConcat(a: seq<Piece>, b: seq<Piece>, key: string)
    requires About(a, key) && About(b, key)
    ensures About(a + b, key)
  {
  }

  lemma {:induction false} NamedHead(w: Wording, n: Node)
    ensures Attributed([KeyPiece(n)]) && LastName([KeyPiece(n)]) == Some(n.key)
    ensures Attributed([Fixed(w), KeyPiece(n)]) && LastName([Fixed(w), KeyPiece(n)]) == Some(n.key)
  {
  }

  // --------------------------------------------------------------- template parts

  lemma {:induction false} SmallPartsAbout(n: Node)
    ensures About(if Stated(n, CDescription) then [Fixed(Dash), Property(n, CDescription)] else [], n.key)
    ensures About(if Stated(n, CRuleName) then [Fixed(On), Property(n, CRuleName)] else [], n.key)
    ensures About(if Stated(n, CSeverity) then [Fixed(OpenSquare), Property(n, CSeverity), Fixed(CloseSquare)]
                  else [], n.key)
  {
    hide Stated;
  }

  lemma {:induction false} OtherPartsAbout(n: Node)
    ensures About(Qualifier(StateOf(n)), n.key)
    ensures About(Qualifier(if Stated(n, CHops) then [Property(n, CHops), Fixed(Hops)] else []), n.key)
    ensures About(if Stated(n, CRuleName) then [Fixed(WasCreatedByRule), QuotedProperty(n, CRuleName), Fixed(Stop)]
                  else [Fixed(WasCreatedByARule)], n.key)
  {
    hide Stated;
    AboutInside(StateOf(n), n.key);
    AboutInside(if Stated(n, CHops) then [Property(n, CHops), Fixed(Hops)] else [], n.key);
  }

  lemma {:induction false} AboutInside(inner: seq<Piece>, key: string)
    requires About(inner, key)
    ensures About(Qualifier(inner), key)
  {
  }

  lemma {:induction false} AlertLineAttributed(n: Node)
    ensures Attributed(AlertLine()(n).pieces)
  {
    hide Attributed, About, Stated, StateOf, LastName;
    var b, c := StatedPieces(n, CRuleName), Qualifier(StateOf(n));
    var d := if Stated(n, CDescription) then [Fixed(Dash), Property(n, CDescription)] else [];
    var head := [Fixed(Bullet), KeyPiece(n)];
    NamedHead(Bullet, n);
    WordsAreAbout([Fixed(ColonSpace)], n.key);
    StatedIsAbout(n, CRuleName);
    SmallPartsAbout(n);
    OtherPartsAbout(n);
    AboutConcat([Fixed(ColonSpace)], b, n.key);
    AboutConcat([Fixed(ColonSpace)] + b, c, n.key);
    AboutConcat([Fixed(ColonSpace)] + b + c, d, n.key);
    AttributedAbout(head, [Fixed(ColonSpace)] + b + c + d, n.key);
    assert AlertLine()(n).pieces == head + ([Fixed(ColonSpace)] + b + c + d);
  }

  lemma {:induction false} WordsAreAbout(ps: seq<Piece>, key: string)
    requires forall p :: p in ps ==> p.Fixed? || p.Count?
    ensures About(ps, key)
  {
  }

  lemma {:induction false} UserLineAttributed(e: Evidence, n: Node)
    ensures Attributed(UserLine(e)(n).pieces)
  {
    hide Attributed, About, Stated, LastName, LinksLeaving, Qualifier;
    var b := Qualifier(StatedPieces(n, CRole));
    var c := if Stated(n, CRuleName) then [Fixed(On), Property(n, CRuleName)] else [];
    var d := if Stated(n, CSeverity) then [Fixed(OpenSquare), Property(n, CSeverity), Fixed(CloseSquare)] else [];
    var f := [Fixed(Comma), Count(|LinksLeaving(e, Triggered, n.key)|, LinksFrom(Triggered, n.key)),
              Fixed(EventsOfEvidence)];
    var head := [Fixed(Bullet), KeyPiece(n)];
    NamedHead(Bullet, n);
    StatedIsAbout(n, CRole);
    SmallPartsAbout(n);
    WordsAreAbout(f, n.key);
    AboutConcat(b, c, n.key);
    AboutConcat(b + c, d, n.key);
    AboutConcat(b + c + d, f, n.key);
    AttributedAbout(head, b + c + d + f, n.key);
    assert UserLine(e)(n).pieces == head + (b + c + d + f);
  }

  lemma {:induction false} NamesAttributed(n: Node)
    ensures Attributed(ThreatName()(n)) && Attributed(ImpactedName()(n)) && Attributed(KeyPieces()(n))
  {
    hide Attributed, About, Stated, LastName, Qualifier;
    NamedHead(Bullet, n);
    StatedIsAbout(n, CName);
    OtherPartsAbout(n);
    AttributedAbout([KeyPiece(n)], Qualifier(StatedPieces(n, CName)), n.key);
    AttributedAbout([KeyPiece(n)], Qualifier(if Stated(n, CHops) then [Property(n, CHops), Fixed(Hops)] else []),
                    n.key);
  }

  /** The rule printed beside a contained alert is that alert's. */
  lemma {:induction false} ContainedAttributed(e: Evidence, l: Link)
    ensures Attributed(ContainedAlert(e)(l)) && LastName(ContainedAlert(e)(l)) == Some(l.end)
  {
    hide Attributed, About, Stated, Qualifier, Filter;
    EndAttributed(l);
    NamedByKey(NodesTaggedAs(e, Label.Alert), l.end);
    match AlertNamed(NodesTaggedAs(e, Label.Alert), l.end)
    case None =>
      assert ContainedAlert(e)(l) == [EndPiece(l)];
    case Some(alert) =>
      StatedIsAbout(alert, CRuleName);
      AttributedAbout([EndPiece(l)], Qualifier(StatedPieces(alert, CRuleName)), l.end);
  }

  lemma {:induction false} EndAttributed(l: Link)
    ensures Attributed([EndPiece(l)]) && LastName([EndPiece(l)]) == Some(l.end)
  {
  }

  lemma {:induction false} NamedByKey(alerts: seq<Node>, key: string)
    ensures AlertNamed(alerts, key).Some? ==> AlertNamed(alerts, key).value.key == key
  {
    if alerts != [] {
      NamedByKey(alerts[..|alerts| - 1], key);
    }
  }

  lemma {:induction false} IncidentLineAttributed(e: Evidence, n: Node)
    ensures Attributed(IncidentLine(e)(n).pieces)
  {
    hide Attributed, About, Stated, LastName, LinksLeaving, ContainedAlert, SentenceList;
    var a := [Fixed(Bullet), KeyPiece(n)];
    var b := if Stated(n, CSeverity) then [Fixed(OpenSquare), Property(n, CSeverity), Fixed(CloseSquare)] else [];
    var c, contained := AssetPieces(LinksLeaving(e, Affects, n.key)), LinksLeaving(e, Contains, n.key);
    var items := Map(ContainedAlert(e), contained);
    forall i | 0 <= i < |items|
      ensures Attributed(items[i])
    {
      ContainedAttributed(e, contained[i]);
    }
    SentenceAttributed(items);
    PlainAttributed([Fixed(ContainsWord)]);
    PlainAttributed([Fixed(ContainsNoAlert)]);
    PlainAttributed(c);
    AttributedConcat([Fixed(ContainsWord)], SentenceList(items));
    var d := if contained == [] then [Fixed(ContainsNoAlert)] else [Fixed(ContainsWord)] + SentenceList(items);
    NamedHead(Bullet, n);
    SmallPartsAbout(n);
    AttributedAbout(a, b, n.key);
    AttributedConcat(a + b, c);
    AttributedConcat(a + b + c, d);
    assert IncidentLine(e)(n).pieces == a + b + c + d;
  }

  lemma {:induction false} ListAttributed(f: Node -> seq<Piece>, nodes: seq<Node>)
    requires forall n :: Attributed(f(n))
    ensures Attributed(SentenceList(Map(f, nodes)))
  {
    hide Attributed;
    SentenceAttributed(Map(f, nodes));
  }

  lemma {:induction false} SentencesAttributed(nodes: seq<Node>)
    ensures Attributed(SentenceList(Map(KeyPieces(), nodes)))
    ensures Attributed(SentenceList(Map(ThreatName(), nodes)))
    ensures Attributed(SentenceList(Map(ImpactedName(), nodes)))
  {
    hide Attributed, SentenceList, KeyPieces, ThreatName, ImpactedName;
    forall n: Node
      ensures Attributed(ThreatName()(n)) && Attributed(ImpactedName()(n)) && Attributed(KeyPieces()(n))
    {
      NamesAttributed(n);
    }
    ListAttributed(KeyPieces(), nodes);
    ListAttributed(ThreatName(), nodes);
    ListAttributed(ImpactedName(), nodes);
  }

  lemma {:induction false} ExplanationAttributed(e: Evidence, alert: Node)
    ensures Attributed(ExplanationOf(e, alert))
    ensures LastName(ExplanationOf(e, alert)) == Some(match FirstTagged(e, Threat)
                                                      case Ok(threat) => threat.key
                                                      case Err(_) => alert.key)
  {
    hide Attributed, About, Stated, LastName, Qualifier, Filter;
    var head := [Fixed(AlertWord), KeyPiece(alert)];
    var rule := if Stated(alert, CRuleName)
      then [Fixed(WasCreatedByRule), QuotedProperty(alert, CRuleName), Fixed(Stop)]
                else [Fixed(WasCreatedByARule)];
    NamedHead(AlertWord, alert);
    OtherPartsAbout(alert);
    AttributedAbout(head, rule, alert.key);
    match FirstTagged(e, Threat)
    case Err(_) =>
      assert ExplanationOf(e, alert) == head + rule;
    case Ok(threat) =>
      var start, name := [Fixed(IndicatesTechnique), KeyPiece(threat)], Qualifier(StatedPieces(threat, CName));
      NamedHead(IndicatesTechnique, threat);
      StatedIsAbout(threat, CName);
      AttributedAbout(start, name, threat.key);
      PlainAttributed([Fixed(Stop)]);
      AttributedConcat(start + name, [Fixed(Stop)]);
      AttributedConcat(head + rule, start + name + [Fixed(Stop)]);
      WordsAreAbout([Fixed(Stop)], threat.key);
      AboutNamesNothing([Fixed(Stop)], threat.key);
      LastNameConcat(start + name, [Fixed(Stop)]);
      LastNameConcat(head + rule, start + name + [Fixed(Stop)]);
      assert ExplanationOf(e, alert) == head + rule + (start + name + [Fixed(Stop)]);
  }

  /** The alert an answer speaks of states what its rule recommends. */
  predicate StatesAction(e: Evidence) {
    FirstTagged(e, Label.Alert).Ok? && Stated(FirstTagged(e, Label.Alert).value, CRecommendedAction)
  }

  lemma {:induction false} ListPartAttributed(wording: Wording, nodes: seq<Node>)
    ensures EachAttributed(ListPart(wording, nodes))
    ensures forall part, p :: part in ListPart(wording, nodes) && p in part ==> !ShowsProperty(p)
  {
    hide Attributed, SentenceList;
    SentencesAttributed(nodes);
    PlainAttributed([Fixed(wording)]);
    AttributedConcat([Fixed(wording)], SentenceList(Map(KeyPieces(), nodes)));
    KeysShowNothing(Map(KeyPieces(), nodes));
  }

  predicate ShowNothing(items: seq<seq<Piece>>) {
    forall i, p :: 0 <= i < |items| && p in items[i] ==> !ShowsProperty(p)
  }

  lemma {:induction false} KeysShowNothing(items: seq<seq<Piece>>)
    requires ShowNothing(items)
    ensures forall p :: p in SentenceList(items) || p in Joined(items) || p in WithStops(items) ==> !ShowsProperty(p)
  {
    if |items| > 1 {
      var front := items[..|items| - 1];
      assert forall i :: 0 <= i < |front| ==> front[i] == items[i];
      KeysShowNothing(front);
    }
  }

  /** What a response says after the recommended action shows no property. */
  lemma {:induction false} ListsShowNothing(e: Evidence)
    ensures ShowNothing(ListPart(ControlsAre, NodesTaggedAs(e, Control))
                        + ListPart(ProcedureIsIn, NodesTaggedAs(e, Document)))
  {
    hide SentenceList, ShowsProperty, Filter;
    var a, b := ListPart(ControlsAre, NodesTaggedAs(e, Control)), ListPart(ProcedureIsIn, NodesTaggedAs(e, Document));
    ListPartAttributed(ControlsAre, NodesTaggedAs(e, Control));
    ListPartAttributed(ProcedureIsIn, NodesTaggedAs(e, Document));
    forall i, p | 0 <= i < |a + b| && p in (a + b)[i]
      ensures !ShowsProperty(p)
    {
      assert (a + b)[i] in a || (a + b)[i] in b;
    }
  }

  /** Without a recommended action a response shows no property at all. */
  lemma {:induction false} ResponseAttributed(e: Evidence)
    requires ResponseDescribed(e).Ok? && !StatesAction(e)
    ensures Attributed(ResponseDescribed(e).value)
  {
    hide Attributed, Stated, Filter, SentenceList, WithStops;
    var alert := FirstTagged(e, Label.Alert).value;
    var parts := ResponseParts(e, alert);
    assert parts == ListPart(ControlsAre, NodesTaggedAs(e, Control))
      + ListPart(ProcedureIsIn, NodesTaggedAs(e, Document));
    ListsShowNothing(e);
    KeysShowNothing(parts);
    PlainAttributed(NothingKnown(e));
    PlainAttributed(WithStops(parts) + [Fixed(Stop)]);
  }

  /** A list of parts starts with its first. */
  lemma {:induction false} StopsStart(parts: seq<seq<Piece>>)
    requires parts != []
    ensures parts[0] <= WithStops(parts)
  {
    if |parts| > 1 {
      StopsStart(parts[..|parts| - 1]);
    }
  }

  /** With one, the response starts with it, before anything is named. */
  lemma {:induction false} ActionComesFirst(e: Evidence)
    requires ResponseDescribed(e).Ok? && StatesAction(e)
    ensures var response := ResponseDescribed(e).value;
      && |response| >= 2 && response[0] == Fixed(RecommendedActionIs)
      && response[1] == UnpunctuatedProperty(FirstTagged(e, Label.Alert).value, CRecommendedAction)
      && forall i :: 2 <= i < |response| ==> !ShowsProperty(response[i])
  {
    hide Stated, Filter, SentenceList, WithStops, ListPart;
    var alert := FirstTagged(e, Label.Alert).value;
    var parts := ResponseParts(e, alert);
    var rest := ListPart(ControlsAre, NodesTaggedAs(e, Control)) + ListPart(ProcedureIsIn, NodesTaggedAs(e, Document));
    var action := [Fixed(RecommendedActionIs), UnpunctuatedProperty(alert, CRecommendedAction)];
    assert parts == [action] + rest;
    ListsShowNothing(e);
    StopsStart(parts);
    StopsTail(action, rest);
  }

  lemma {:induction false} StopsTail(first: seq<Piece>, rest: seq<seq<Piece>>)
    requires ShowNothing(rest)
    ensures first <= WithStops([first] + rest)
    ensures forall i :: |first| <= i < |WithStops([first] + rest)| ==> !ShowsProperty(WithStops([first] + rest)[i])
  {
    if rest != [] {
      var front, last := rest[..|rest| - 1], rest[|rest| - 1];
      assert ([first] + rest)[..|rest|] == [first] + front;
      assert ([first] + rest)[|rest|] == last;
      StopsTail(first, front);
      var s := WithStops([first] + front);
      assert WithStops([first] + rest) == s + [Fixed(StopSpace)] + last;
      forall i | |first| <= i < |s + [Fixed(StopSpace)] + last|
        ensures !ShowsProperty((s + [Fixed(StopSpace)] + last)[i])
      {
        if i > |s| {
          assert (s + [Fixed(StopSpace)] + last)[i] in last;
        }
      }
    }
  }

  /** The action is then attributed exactly to what was named before the response. */
  lemma {:induction false} ActionAttributedIff(e: Evidence, before: seq<Piece>)
    requires ResponseDescribed(e).Ok? && StatesAction(e) && Attributed(before)
    ensures Attributed(before + ResponseDescribed(e).value)
      <==> LastName(before) == Some(FirstTagged(e, Label.Alert).value.key)
  {
    hide ResponseDescribed, FirstTagged, LastName;
    var response, alert := ResponseDescribed(e).value, FirstTagged(e, Label.Alert).value;
    ActionComesFirst(e);
    var all := before + response;
    assert all[..|before| + 1] == before + [Fixed(RecommendedActionIs)];
    WordsAreAbout([Fixed(RecommendedActionIs)], alert.key);
    AboutNamesNothing([Fixed(RecommendedActionIs)], alert.key);
    LastNameConcat(before, [Fixed(RecommendedActionIs)]);
    assert all[|before| + 1] == response[1];
    if LastName(before) == Some(alert.key) {
      forall i | 0 <= i < |all| && ShowsProperty(all[i])
        ensures LastName(all[..i]) == Some(all[i].node.key)
      {
        if i < |before| {
          assert all[..i] == before[..i];
        } else {
          assert all[i] == response[i - |before|];
        }
      }
    }
  }

  lemma {:induction false} ThreatsAttributed(e: Evidence)
    ensures Attributed(ThreatsDescribed(e)) && Attributed(ImpactDescribed(e))
  {
    hide Attributed, Filter, SentenceList, KeyPieces, ThreatName, ImpactedName;
    var threats, services := NodesTaggedAs(e, Threat), NodesTaggedAs(e, Service);
    SentencesAttributed(threats);
    SentencesAttributed(services);
    SentencesAttributed(NodesTaggedAs(e, Control));
    var named, impacted := SentenceList(Map(ThreatName(), threats)), SentenceList(Map(ImpactedName(), services));
    var controls := SentenceList(Map(KeyPieces(), NodesTaggedAs(e, Control)));
    var head := [ServicePiece(e), Fixed(IsTargetedBy)];
    var heads := [Fixed(If), ServicePiece(e), Fixed(Fails), CountNodes(e, Service), Fixed(ServicesAffected)];
    PlainAttributed([]);
    PlainAttributed([Fixed(Stop)]);
    PlainAttributed(head);
    PlainAttributed(heads);
    PlainAttributed([Fixed(TechniquesMitigatedBy)]);
    AttributedConcat(head, named);
    AttributedConcat(head + named, [Fixed(Stop)]);
    AttributedConcat([Fixed(TechniquesMitigatedBy)], controls);
    AttributedConcat([Fixed(TechniquesMitigatedBy)] + controls, [Fixed(Stop)]);
    AttributedConcat(head + named + [Fixed(Stop)], if NodesTaggedAs(e, Control) == [] then []
                                                  else [Fixed(TechniquesMitigatedBy)] + controls + [Fixed(Stop)]);
    AttributedConcat(heads, impacted);
    AttributedConcat(heads + impacted, [Fixed(Stop)]);
  }

  predicate LinesAttributed(lines: seq<Line>) {
    forall i :: 0 <= i < |lines| ==> Attributed(lines[i].pieces)
  }

  lemma {:induction false} LinesOfNodesAttributed(e: Evidence)
    ensures LinesAttributed(ServiceAlertLines(e)) && LinesAttributed(UserLines(e)) && LinesAttributed(IncidentLines(e))
  {
    hide Attributed, Filter, AlertLine, UserLine, IncidentLine;
    PlainAttributed([CountNodes(e, Label.Alert), Fixed(AlertsAffect), ServicePiece(e), Fixed(Colon)]);
    PlainAttributed([CountNodes(e, User), Fixed(UsersLinked)]);
    PlainAttributed([CountNodes(e, Incident), Fixed(IncidentsGroup)]);
    forall n: Node
      ensures Attributed(AlertLine()(n).pieces) && Attributed(UserLine(e)(n).pieces)
        && Attributed(IncidentLine(e)(n).pieces)
    {
      AlertLineAttributed(n);
      UserLineAttributed(e, n);
      IncidentLineAttributed(e, n);
    }
  }

  /** When an answer's properties all follow their owner: always, but for a
      recommended action that stands behind no name or behind another's. */
  predicate ActionFollowsItsAlert(e: Evidence) {
    match e.intent
    case ResponseProcedure => !StatesAction(e)
    case AlertExplanation =>
      || !StatesAction(e)
      || FirstTagged(e, Threat).Err?
      || FirstTagged(e, Threat).value.key == FirstTagged(e, Label.Alert).value.key
    case _ => true
  }

  lemma {:induction false} ExplainedAttributedIff(e: Evidence)
    requires AlertAndResponse(e).Ok?
    ensures Attributed(AlertAndResponse(e).value)
      <==> (!StatesAction(e) || FirstTagged(e, Threat).Err?
            || FirstTagged(e, Threat).value.key == FirstTagged(e, Label.Alert).value.key)
  {
    hide Attributed, ExplanationOf, ResponseDescribed, Filter, Stated;
    var alert := FirstTagged(e, Label.Alert).value;
    var explanation, response := ExplanationOf(e, alert), ResponseDescribed(e).value;
    ExplanationAttributed(e, alert);
    PlainAttributed([Fixed(Space)]);
    AttributedConcat(explanation, [Fixed(Space)]);
    WordsAreAbout([Fixed(Space)], alert.key);
    AboutNamesNothing([Fixed(Space)], alert.key);
    LastNameConcat(explanation, [Fixed(Space)]);
    if StatesAction(e) {
      ActionAttributedIff(e, explanation + [Fixed(Space)]);
    } else {
      ResponseAttributed(e);
      AttributedConcat(explanation + [Fixed(Space)], response);
    }
  }

  lemma {:induction false} RespondedAttributedIff(e: Evidence)
    requires ResponseDescribed(e).Ok?
    ensures Attributed(ResponseDescribed(e).value) <==> !StatesAction(e)
  {
    hide Attributed, ResponseDescribed, Filter, Stated;
    if StatesAction(e) {
      PlainAttributed([]);
      ActionAttributedIff(e, []);
      assert [] + ResponseDescribed(e).value == ResponseDescribed(e).value;
    } else {
      ResponseAttributed(e);
    }
  }

  /** Each property an answer prints is of the node whose key, or whose end of a
      relationship, was printed last before it, exactly unless a recommended action
      is printed that follows no name, or the name of a technique. */
  lemma {:induction false} PropertiesFollowTheirOwnerIff(e: Evidence)
    requires Generate(e).Ok?
    ensures LinesAttributed(Generate(e).value) <==> e.nodes == [] || ActionFollowsItsAlert(e)
  {
    hide Attributed, ServiceAlertLines, UserLines, IncidentLines, ThreatsDescribed, ImpactDescribed, NothingKnown,
      ResponseDescribed, ExplanationOf, Filter, AlertAndResponse, StatesAction;
    NothingAttributed(e);
    LinesOfNodesAttributed(e);
    ThreatsAttributed(e);
    if e.nodes != [] && e.intent == ResponseProcedure {
      RespondedAttributedIff(e);
      assert Generate(e).value[0].pieces == ResponseDescribed(e).value;
    }
    if e.nodes != [] && e.intent == AlertExplanation {
      ExplainedAttributedIff(e);
      assert Generate(e).value[0].pieces == AlertAndResponse(e).value;
    }
  }

  /** Only the recommended action can stray: every other property of every answer
      follows its owner. */
  predicate OthersAttributed(ps: seq<Piece>) {
    forall i :: 0 <= i < |ps| && ShowsProperty(ps[i]) && !ps[i].UnpunctuatedProperty? ==>
      LastName(ps[..i]) == Some(ps[i].node.key)
  }

  lemma {:induction false} OthersOfResponse(e: Evidence, before: seq<Piece>)
    requires ResponseDescribed(e).Ok? && Attributed(before)
    ensures OthersAttributed(before + ResponseDescribed(e).value)
  {
    hide ResponseDescribed, LastName, StatesAction;
    var response := ResponseDescribed(e).value;
    if StatesAction(e) {
      ActionComesFirst(e);
      assert forall i :: |before| <= i < |before + response| ==> (before + response)[i] == response[i - |before|];
      forall i | 0 <= i < |before + response| && ShowsProperty((before + response)[i])
                 && !(before + response)[i].UnpunctuatedProperty?
        ensures LastName((before + response)[..i]) == Some((before + response)[i].node.key)
      {
        assert i < |before|;
        assert (before + response)[..i] == before[..i];
      }
    } else {
      ResponseAttributed(e);
      AttributedConcat(before, response);
    }
  }

  lemma {:induction false} OtherPropertiesFollowTheirOwner(e: Evidence, line: Line)
    requires Generate(e).Ok? && line in Generate(e).value
    ensures OthersAttributed(line.pieces)
  {
    hide Attributed, ServiceAlertLines, UserLines, IncidentLines, ThreatsDescribed, ImpactDescribed, NothingKnown,
      ResponseDescribed, ExplanationOf, Filter, StatesAction, OthersAttributed;
    if e.nodes != [] && e.intent == ResponseProcedure {
      PlainAttributed([]);
      OthersOfResponse(e, []);
      assert [] + ResponseDescribed(e).value == ResponseDescribed(e).value;
    } else if e.nodes != [] && e.intent == AlertExplanation {
      var alert := FirstTagged(e, Label.Alert).value;
      ExplanationAttributed(e, alert);
      PlainAttributed([Fixed(Space)]);
      AttributedConcat(ExplanationOf(e, alert), [Fixed(Space)]);
      OthersOfResponse(e, ExplanationOf(e, alert) + [Fixed(Space)]);
    } else {
      PropertiesFollowTheirOwnerIff(e);
      AttributedIsOthers(line.pieces);
    }
  }

  lemma {:induction false} AttributedIsOthers(ps: seq<Piece>)
    ensures Attributed(ps) ==> OthersAttributed(ps)
  {
  }

  lemma {:induction false} NothingAttributed(e: Evidence)
    ensures Attributed(NothingKnown(e))
  {
    PlainAttributed(NothingKnown(e));
  }
}
