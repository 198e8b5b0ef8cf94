/** An answer prints everything its evidence holds for it, in the order of the evidence. */
module CompletenessTheorems {
  import opened Wrappers
  import opened Sequences
  import opened Graphs
  import opened Retrieval
  import opened Intents
  import opened Templates

  // --------------------------------------------------------------------- content

  /** Punctuation between the parts of a line; brackets are part of what it says. */
  predicate Glue(w: Wording) {
    || w == Comma || w == And || w == Stop || w == StopSpace || w == Space || w == Colon || w == ColonSpace || w == Dash
    || w == Bullet
  }

  function Telling(): Piece -> bool {
    (p: Piece) => !(p.Fixed? && Glue(p.wording))
  }

  /** What a line says, without its punctuation. */
  function Content(ps: seq<Piece>): seq<Piece> {
    Filter(Telling(), ps)
  }

  function ContentOf(): seq<Piece> -> seq<Piece> {
    (ps: seq<Piece>) => Content(ps)
  }

  lemma {:induction false} ContentConcat(a: seq<Piece>, b: seq<Piece>)
    ensures Content(a + b) == Content(a) + Content(b)
  {
    FilterConcat(Telling(), a, b);
  }

  lemma {:induction false} ContentOne(p: Piece)
    ensures Content([p]) == if p.Fixed? && Glue(p.wording) then [] else [p]
    ensures Content([]) == []
  {
    assert [p][..0] == [];
  }

  lemma {:induction false} ContentTwo(p: Piece, q: Piece)
    ensures Content([p, q]) == Content([p]) + Content([q])
  {
    assert [p, q] == [p] + [q];
    ContentConcat([p], [q]);
  }

  lemma {:induction false} ContentThree(p: Piece, q: Piece, r: Piece)
    ensures Content([p, q, r]) == Content([p]) + Content([q]) + Content([r])
  {
    assert [p, q, r] == [p] + [q, r];
    ContentConcat([p], [q, r]);
    ContentTwo(q, r);
  }

  // ----------------------------------------------------------------- joined lists

  lemma {:induction false} FlatMapSnoc<T(!new), U(!new)>(f: T -> seq<U>, front: seq<T>, last: T)
    ensures FlatMap(f, front + [last]) == FlatMap(f, front) + f(last)
  {
    assert (front + [last])[..|front|] == front;
  }

  /** Joining loses no item. */
  lemma {:induction false} JoinedSaysAll(items: seq<seq<Piece>>)
    ensures Content(Joined(items)) == FlatMap(ContentOf(), items)
    ensures Content(WithStops(items)) == FlatMap(ContentOf(), items)
  {
    hide Content, FlatMap;
    NoItems();
    ContentOne(Fixed(Comma));
    ContentOne(Fixed(StopSpace));
    if |items| > 0 {
      var front, last := items[..|items| - 1], items[|items| - 1];
      assert items == front + [last];
      FlatMapSnoc(ContentOf(), front, last);
      JoinedSaysAll(front);
      ContentConcat(Joined(front), [Fixed(Comma)]);
      ContentConcat(Joined(front) + [Fixed(Comma)], last);
      ContentConcat(WithStops(front), [Fixed(StopSpace)]);
      ContentConcat(WithStops(front) + [Fixed(StopSpace)], last);
    }
  }

  lemma {:induction false} NoItems()
    ensures FlatMap(ContentOf(), []) == [] && Content([]) == []
  {
  }

  lemma {:induction false} SentenceSaysAll(items: seq<seq<Piece>>)
    ensures Content(SentenceList(items)) == FlatMap(ContentOf(), items)
  {
    hide Content, Joined;
    ContentOne(Fixed(And));
    JoinedSaysAll(items);
    if |items| > 1 {
      var front, last := items[..|items| - 1], items[|items| - 1];
      assert items == front + [last];
      FlatMapSnoc(ContentOf(), front, last);
      JoinedSaysAll(front);
      ContentConcat(Joined(front), [Fixed(And)]);
      ContentConcat(Joined(front) + [Fixed(And)], last);
    }
  }

  /** "a, b and c", read from the front. */
  function Spelled(items: seq<seq<Piece>>): seq<Piece> {
    if items == [] then []
    else if |items| == 1 then items[0]
    else items[0] + [Fixed(if |items| == 2 then And else Comma)] + Spelled(items[1..])
  }

  lemma {:induction false} JoinedFromFront(first: seq<Piece>, items: seq<seq<Piece>>)
    requires items != []
    ensures Joined([first] + items) == first + [Fixed(Comma)] + Joined(items)
  {
    var all := [first] + items;
    assert all[..|all| - 1] == [first] + items[..|items| - 1];
    if |items| > 1 {
      JoinedFromFront(first, items[..|items| - 1]);
    }
  }

  /** A list reads as it should: commas between its items, "and" before the last. */
  lemma {:induction false} SentenceIsSpelled(items: seq<seq<Piece>>)
    ensures SentenceList(items) == Spelled(items)
  {
    if |items| > 2 {
      SentenceIsSpelled(items[1..]);
      var front := items[..|items| - 1];
      assert front == [items[0]] + front[1..];
      assert items[1..][..|items| - 2] == front[1..];
      JoinedFromFront(items[0], front[1..]);
    }
  }

  lemma {:induction false} MappedContent<T(!new)>(f: T -> seq<Piece>, g: T -> seq<Piece>, xs: seq<T>)
    requires forall x :: x in xs ==> Content(f(x)) == g(x)
    ensures FlatMap(ContentOf(), Map(f, xs)) == FlatMap(g, xs)
  {
    hide Content;
    if xs != [] {
      var front, last := xs[..|xs| - 1], xs[|xs| - 1];
      assert xs == front + [last];
      MappedContent(f, g, front);
      assert Map(f, xs) == Map(f, front) + [f(last)];
      FlatMapSnoc(ContentOf(), Map(f, front), f(last));
    }
  }

  // -------------------------------------------------------------- what is to be told

  function Labelled(tag: Label): Node -> bool {
    (n: Node) => n.tag == tag
  }

  /** The evidence's nodes of a label, in its order. */
  function All(e: Evidence, tag: Label): seq<Node> {
    Filter(Labelled(tag), e.nodes)
  }

  function Out(kind: Kind, start: string): Link -> bool {
    (l: Link) => l.start == start && l.kind == kind
  }

  function LinksOut(e: Evidence, kind: Kind, start: string): seq<Link> {
    Filter(Out(kind, start), e.links)
  }

  lemma {:induction false} SameNodes(e: Evidence, tag: Label)
    ensures NodesTaggedAs(e, tag) == All(e, tag)
  {
    FilterSame(Tagged(tag), Labelled(tag), e.nodes);
  }

  lemma {:induction false} SameLinks(e: Evidence, kind: Kind, start: string)
    ensures LinksLeaving(e, kind, start) == LinksOut(e, kind, start)
  {
    FilterSame(Leaving(kind, start), Out(kind, start), e.links);
  }

  /** The graph has a text, or a number, to show. */
  predicate Known(n: Node, c: Column) {
    c in n.properties && (n.properties[c].Number? || (n.properties[c].Text? && n.properties[c].s != ""))
  }

  function Told(n: Node, c: Column): seq<Piece> {
    if Known(n, c) then [Property(n, c)] else []
  }

  /** In parentheses, if there is anything. */
  function Aside(said: seq<Piece>): seq<Piece> {
    if said == [] then [] else [Fixed(OpenParen)] + said + [Fixed(CloseParen)]
  }

  function Severe(n: Node): seq<Piece> {
    if Known(n, CSeverity) then [Fixed(OpenSquare), Property(n, CSeverity), Fixed(CloseSquare)] else []
  }

  function Keys(): Node -> seq<Piece> {
    (n: Node) => [KeyPiece(n)]
  }

  function AboutAlert(): Node -> seq<Piece> {
    (n: Node) =>
      [KeyPiece(n)] + Told(n, CRuleName) + Aside(Told(n, CSeverity) + Told(n, CStatus)) + Told(n, CDescription)
  }

  function AboutThreat(): Node -> seq<Piece> {
    (n: Node) => [KeyPiece(n)] + Aside(Told(n, CName))
  }

  function AboutService(): Node -> seq<Piece> {
    (n: Node) => [KeyPiece(n)] + Aside(if Known(n, CHops) then [Property(n, CHops), Fixed(Hops)] else [])
  }

  function AboutUser(e: Evidence): Node -> seq<Piece> {
    (n: Node) =>
      [KeyPiece(n)] + Aside(Told(n, CRole)) + (if Known(n, CRuleName) then [Fixed(On), Property(n, CRuleName)] else [])
      + Severe(n)
      + [Count(|LinksOut(e, Triggered, n.key)|, LinksFrom(Triggered, n.key)), Fixed(EventsOfEvidence)]
  }

  function AlertKeyed(key: string): Node -> bool {
    (n: Node) => n.tag == Label.Alert && n.key == key
  }

  /** A contained alert with its rule, if the evidence has the alert. */
  function AboutContained(e: Evidence): Link -> seq<Piece> {
    (l: Link) =>
      var named := Filter(AlertKeyed(l.end), e.nodes);
      [EndPiece(l)] + if named == [] then [] else Aside(Told(named[|named| - 1], CRuleName))
  }

  function AboutIncident(e: Evidence): Node -> seq<Piece> {
    (n: Node) =>
      var affected, contained := LinksOut(e, Affects, n.key), LinksOut(e, Contains, n.key);
      [KeyPiece(n)] + Severe(n)
      + (if affected == [] || affected[0].end == "" then [] else [Fixed(AgainstAsset), EndPiece(affected[0])])
      + (if contained == [] then [Fixed(ContainsNoAlert)]
         else [Fixed(ContainsWord)] + FlatMap(AboutContained(e), contained))
  }

  function Subject(e: Evidence): Piece {
    if ServiceParameter in e.parameters then Bound(ServiceParameter) else Fixed(TheService)
  }

  function Nothing(e: Evidence): seq<Piece> {
    [Fixed(NotHeld), if e.reason != "" then Why else Fixed(NothingMatched)]
  }

  function Listed(wording: Wording, nodes: seq<Node>): seq<Piece> {
    if nodes == [] then [] else [Fixed(wording)] + FlatMap(Keys(), nodes)
  }

  function Response(e: Evidence, alert: Node): seq<Piece> {
    var said :=
      (if Known(alert, CRecommendedAction)
       then [Fixed(RecommendedActionIs), UnpunctuatedProperty(alert, CRecommendedAction)] else [])
      + Listed(ControlsAre, All(e, Control)) + Listed(ProcedureIsIn, All(e, Document));
    if said == [] then Nothing(e) else said
  }

  function Explanation(e: Evidence, alert: Node): seq<Piece> {
    [Fixed(AlertWord), KeyPiece(alert)]
    + (if Known(alert, CRuleName) then [Fixed(WasCreatedByRule), QuotedProperty(alert, CRuleName)]
       else [Fixed(WasCreatedByARule)])
    + (if All(e, Threat) == [] then [] else [Fixed(IndicatesTechnique)] + AboutThreat()(All(e, Threat)[0]))
  }

  function Headed(head: seq<Piece>, f: Node -> seq<Piece>, nodes: seq<Node>): seq<seq<Piece>> {
    [head] + Map(f, nodes)
  }

  /** What the answer is to say, line by line; an alert's answer is about the first
      alert the evidence holds. */
  function Answer(e: Evidence): seq<seq<Piece>> {
    if e.nodes == [] || e.intent == Unsupported then [Nothing(e)]
    else
      match e.intent
      case AlertExplanation =>
        if All(e, Label.Alert) == [] then []
        else [Explanation(e, All(e, Label.Alert)[0]) + Response(e, All(e, Label.Alert)[0])]
      case ResponseProcedure => if All(e, Label.Alert) == [] then [] else [Response(e, All(e, Label.Alert)[0])]
      case ServiceAlerts =>
        Headed([Count(|All(e, Label.Alert)|, NodesTagged(Label.Alert)), Fixed(AlertsAffect), Subject(e)], AboutAlert(),
               All(e, Label.Alert))
      case ThreatMitigation =>
        [[Subject(e), Fixed(IsTargetedBy)] + FlatMap(AboutThreat(), All(e, Threat))
         + Listed(TechniquesMitigatedBy, All(e, Control))]
      case UserLinkage =>
        Headed([Count(|All(e, User)|, NodesTagged(User)), Fixed(UsersLinked)], AboutUser(e), All(e, User))
      case ImpactOfFailure =>
        [[Fixed(If), Subject(e), Fixed(Fails), Count(|All(e, Service)|, NodesTagged(Service)), Fixed(ServicesAffected)]
         + FlatMap(AboutService(), All(e, Service))]
      case IncidentLinkage =>
        Headed([Count(|All(e, Incident)|, NodesTagged(Incident)), Fixed(IncidentsGroup)], AboutIncident(e),
               All(e, Incident))
  }

  // --------------------------------------------------------------------- small parts

  lemma {:induction false} StatedIff(n: Node, c: Column)
    ensures Stated(n, c) <==> Known(n, c)
  {
  }

  lemma {:induction false} QualifierSays(inner: seq<Piece>)
    requires inner == [] <==> Content(inner) == []
    ensures Content(Qualifier(inner)) == Aside(Content(inner))
  {
    hide Content;
    ContentOne(Fixed(OpenParen));
    ContentOne(Fixed(CloseParen));
    if inner != [] {
      ContentConcat([Fixed(OpenParen)], inner);
      ContentConcat([Fixed(OpenParen)] + inner, [Fixed(CloseParen)]);
    }
  }

  lemma {:induction false} StatedSays(n: Node, c: Column)
    ensures Content(StatedPieces(n, c)) == Told(n, c)
    ensures Content(Qualifier(StatedPieces(n, c))) == Aside(Told(n, c))
  {
    hide Content, Stated, Known;
    StatedIff(n, c);
    ContentOne(Property(n, c));
    QualifierSays(StatedPieces(n, c));
  }

  lemma {:induction false} StateSays(n: Node)
    ensures Content(Qualifier(StateOf(n))) == Aside(Told(n, CSeverity) + Told(n, CStatus))
  {
    hide Content, Stated, Known;
    var severity, status := StatedPieces(n, CSeverity), StatedPieces(n, CStatus);
    var comma := if severity != [] && status != [] then [Fixed(Comma)] else [];
    StatedSays(n, CSeverity);
    StatedSays(n, CStatus);
    StatedIff(n, CSeverity);
    StatedIff(n, CStatus);
    ContentOne(Fixed(Comma));
    ContentConcat(severity, comma);
    ContentConcat(severity + comma, status);
    QualifierSays(StateOf(n));
  }

  lemma {:induction false} AlertLineSays(n: Node)
    ensures Content(AlertLine()(n).pieces) == AboutAlert()(n)
  {
    hide Content, Stated, Known, StatedPieces, StateOf, Qualifier, Told;
    var a, b, c := [Fixed(Bullet), KeyPiece(n), Fixed(ColonSpace)], StatedPieces(n, CRuleName), Qualifier(StateOf(n));
    var d := if Stated(n, CDescription) then [Fixed(Dash), Property(n, CDescription)] else [];
    ContentConcat(a + b + c, d);
    ContentConcat(a + b, c);
    ContentConcat(a, b);
    BulletSays(n);
    StatedSays(n, CRuleName);
    StateSays(n);
    DashSays(n);
  }

  lemma {:induction false} BulletSays(n: Node)
    ensures Content([Fixed(Bullet), KeyPiece(n), Fixed(ColonSpace)]) == [KeyPiece(n)]
    ensures Content([Fixed(Bullet), KeyPiece(n)]) == [KeyPiece(n)]
  {
    hide Content;
    ContentThree(Fixed(Bullet), KeyPiece(n), Fixed(ColonSpace));
    ContentTwo(Fixed(Bullet), KeyPiece(n));
    ContentOne(Fixed(Bullet));
    ContentOne(KeyPiece(n));
    ContentOne(Fixed(ColonSpace));
  }

  lemma {:induction false} DashSays(n: Node)
    ensures Content(if Stated(n, CDescription) then [Fixed(Dash), Property(n, CDescription)] else [])
      == Told(n, CDescription)
  {
    hide Content, Stated, Known;
    StatedIff(n, CDescription);
    ContentTwo(Fixed(Dash), Property(n, CDescription));
    ContentOne(Fixed(Dash));
    ContentOne(Property(n, CDescription));
  }

  lemma {:induction false} SquareSays(n: Node)
    ensures Content(if Stated(n, CSeverity) then [Fixed(OpenSquare), Property(n, CSeverity), Fixed(CloseSquare)]
                    else []) == Severe(n)
  {
    hide Content, Stated, Known;
    StatedIff(n, CSeverity);
    ContentThree(Fixed(OpenSquare), Property(n, CSeverity), Fixed(CloseSquare));
    ContentOne(Fixed(OpenSquare));
    ContentOne(Property(n, CSeverity));
    ContentOne(Fixed(CloseSquare));
  }

  lemma {:induction false} OnSays(n: Node)
    ensures Content(if Stated(n, CRuleName) then [Fixed(On), Property(n, CRuleName)] else [])
      == if Known(n, CRuleName) then [Fixed(On), Property(n, CRuleName)] else []
  {
    hide Content, Stated, Known;
    StatedIff(n, CRuleName);
    ContentTwo(Fixed(On), Property(n, CRuleName));
    ContentOne(Fixed(On));
    ContentOne(Property(n, CRuleName));
  }

  lemma {:induction false} EventCountSays(e: Evidence, n: Node)
    ensures Content([Fixed(Comma), Count(|LinksLeaving(e, Triggered, n.key)|, LinksFrom(Triggered, n.key)),
                     Fixed(EventsOfEvidence)])
      == [Count(|LinksOut(e, Triggered, n.key)|, LinksFrom(Triggered, n.key)), Fixed(EventsOfEvidence)]
  {
    hide Content, LinksLeaving, LinksOut;
    SameLinks(e, Triggered, n.key);
    var count := Count(|LinksLeaving(e, Triggered, n.key)|, LinksFrom(Triggered, n.key));
    ContentThree(Fixed(Comma), count, Fixed(EventsOfEvidence));
    ContentOne(Fixed(Comma));
    ContentOne(count);
    ContentOne(Fixed(EventsOfEvidence));
  }

  lemma {:induction false} UserLineSays(e: Evidence, n: Node)
    ensures Content(UserLine(e)(n).pieces) == AboutUser(e)(n)
  {
    hide Content, Stated, Known, StatedPieces, Qualifier, Told, LinksLeaving, LinksOut;
    var a, b := [Fixed(Bullet), KeyPiece(n)], Qualifier(StatedPieces(n, CRole));
    var c := if Stated(n, CRuleName) then [Fixed(On), Property(n, CRuleName)] else [];
    var d := if Stated(n, CSeverity) then [Fixed(OpenSquare), Property(n, CSeverity), Fixed(CloseSquare)] else [];
    var f := [Fixed(Comma), Count(|LinksLeaving(e, Triggered, n.key)|, LinksFrom(Triggered, n.key)),
              Fixed(EventsOfEvidence)];
    ContentConcat(a + b + c + d, f);
    ContentConcat(a + b + c, d);
    ContentConcat(a + b, c);
    ContentConcat(a, b);
    BulletSays(n);
    StatedSays(n, CRole);
    OnSays(n);
    SquareSays(n);
    EventCountSays(e, n);
  }

  lemma {:induction false} ThreatNameSays(n: Node)
    ensures Content(ThreatName()(n)) == AboutThreat()(n)
  {
    hide Content, StatedPieces, Qualifier, Told;
    ContentConcat([KeyPiece(n)], Qualifier(StatedPieces(n, CName)));
    ContentOne(KeyPiece(n));
    StatedSays(n, CName);
  }

  lemma {:induction false} ImpactedNameSays(n: Node)
    ensures Content(ImpactedName()(n)) == AboutService()(n)
  {
    hide Content, Stated, Known, Qualifier;
    var hops := if Stated(n, CHops) then [Property(n, CHops), Fixed(Hops)] else [];
    StatedIff(n, CHops);
    ContentConcat([KeyPiece(n)], Qualifier(hops));
    ContentOne(KeyPiece(n));
    ContentOne(Why);
    ContentTwo(Property(n, CHops), Fixed(Hops));
    ContentOne(Property(n, CHops));
    ContentOne(Fixed(Hops));
    QualifierSays(hops);
  }

  lemma {:induction false} LastKeyed(nodes: seq<Node>, key: string)
    ensures var named := Filter(AlertKeyed(key), nodes);
      AlertNamed(Filter(Tagged(Label.Alert), nodes), key)
      == if named == [] then None else Some(named[|named| - 1])
  {
    if nodes != [] {
      var front, last := nodes[..|nodes| - 1], nodes[|nodes| - 1];
      assert nodes == front + [last];
      LastKeyed(front, key);
      FilterSnoc(Tagged(Label.Alert), front, last);
      FilterSnoc(AlertKeyed(key), front, last);
      var alerts := Filter(Tagged(Label.Alert), front);
      assert (alerts + [last])[..|alerts|] == alerts;
    }
  }

  lemma {:induction false} ContainedSays(e: Evidence, l: Link)
    ensures Content(ContainedAlert(e)(l)) == AboutContained(e)(l)
  {
    hide Content, StatedPieces, Qualifier, Told, Filter, AlertNamed;
    LastKeyed(e.nodes, l.end);
    ContentOne(EndPiece(l));
    match AlertNamed(NodesTaggedAs(e, Label.Alert), l.end)
    case None => assert ContainedAlert(e)(l) == [EndPiece(l)];
    case Some(alert) =>
      ContentConcat([EndPiece(l)], Qualifier(StatedPieces(alert, CRuleName)));
      StatedSays(alert, CRuleName);
  }

  lemma {:induction false} AssetSays(affected: seq<Link>)
    ensures Content(AssetPieces(affected))
      == if affected == [] || affected[0].end == "" then [] else [Fixed(AgainstAsset), EndPiece(affected[0])]
  {
    hide Content;
    ContentOne(Fixed(AgainstAsset));
    if affected != [] {
      ContentTwo(Fixed(AgainstAsset), EndPiece(affected[0]));
      ContentOne(EndPiece(affected[0]));
    }
  }

  lemma {:induction false} ContainsSays(e: Evidence, contained: seq<Link>)
    ensures Content(if contained == [] then [Fixed(ContainsNoAlert)]
                    else [Fixed(ContainsWord)] + SentenceList(Map(ContainedAlert(e), contained)))
      == if contained == [] then [Fixed(ContainsNoAlert)]
         else [Fixed(ContainsWord)] + FlatMap(AboutContained(e), contained)
  {
    hide Content, ContainedAlert, AboutContained, SentenceList;
    ContentOne(Fixed(ContainsNoAlert));
    ContentOne(Fixed(ContainsWord));
    forall l | l in contained
      ensures Content(ContainedAlert(e)(l)) == AboutContained(e)(l)
    {
      ContainedSays(e, l);
    }
    SentenceSaysAll(Map(ContainedAlert(e), contained));
    MappedContent(ContainedAlert(e), AboutContained(e), contained);
    ContentConcat([Fixed(ContainsWord)], SentenceList(Map(ContainedAlert(e), contained)));
  }

  lemma {:induction false} IncidentLineSays(e: Evidence, n: Node)
    ensures Content(IncidentLine(e)(n).pieces) == AboutIncident(e)(n)
  {
    hide Content, Stated, Known, Told, LinksLeaving, LinksOut, ContainedAlert, AboutContained, SentenceList,
      AssetPieces, FlatMap;
    var affected, contained := LinksLeaving(e, Affects, n.key), LinksLeaving(e, Contains, n.key);
    SameLinks(e, Affects, n.key);
    SameLinks(e, Contains, n.key);
    var a := [Fixed(Bullet), KeyPiece(n)];
    var b := if Stated(n, CSeverity) then [Fixed(OpenSquare), Property(n, CSeverity), Fixed(CloseSquare)] else [];
    var c := AssetPieces(affected);
    var d := if contained == [] then [Fixed(ContainsNoAlert)]
             else [Fixed(ContainsWord)] + SentenceList(Map(ContainedAlert(e), contained));
    ContentConcat(a + b + c, d);
    ContentConcat(a + b, c);
    ContentConcat(a, b);
    BulletSays(n);
    SquareSays(n);
    AssetSays(affected);
    ContainsSays(e, contained);
  }

  // ------------------------------------------------------------------ whole answers

  lemma {:induction false} NothingSays(e: Evidence)
    ensures Content(NothingKnown(e)) == Nothing(e)
  {
    hide Content;
    var why := if e.reason != "" then Why else Fixed(NothingMatched);
    ContentThree(Fixed(NotHeld), why, Fixed(Stop));
    ContentOne(Fixed(NotHeld));
    ContentOne(why);
    ContentOne(Fixed(Stop));
  }

  lemma {:induction false} KeysSay(nodes: seq<Node>)
    ensures Content(SentenceList(Map(KeyPieces(), nodes))) == FlatMap(Keys(), nodes)
  {
    hide Content, SentenceList;
    SentenceSaysAll(Map(KeyPieces(), nodes));
    forall n | n in nodes
      ensures Content(KeyPieces()(n)) == Keys()(n)
    {
      ContentOne(KeyPiece(n));
    }
    MappedContent(KeyPieces(), Keys(), nodes);
  }

  lemma {:induction false} ListPartSays(wording: Wording, nodes: seq<Node>)
    requires !Glue(wording)
    ensures FlatMap(ContentOf(), ListPart(wording, nodes)) == Listed(wording, nodes)
  {
    hide Content, SentenceList;
    ContentOne(Fixed(wording));
    KeysSay(nodes);
    var items := SentenceList(Map(KeyPieces(), nodes));
    ContentConcat([Fixed(wording)], items);
    if nodes != [] {
      FlatMapSnoc(ContentOf(), [], [Fixed(wording)] + items);
      assert [] + [[Fixed(wording)] + items] == [[Fixed(wording)] + items];
    }
  }

  lemma {:induction false} ActionSays(alert: Node)
    ensures FlatMap(ContentOf(), ActionPart(alert))
      == if Known(alert, CRecommendedAction)
         then [Fixed(RecommendedActionIs), UnpunctuatedProperty(alert, CRecommendedAction)] else []
  {
    hide Content, Stated, Known;
    StatedIff(alert, CRecommendedAction);
    var action := [Fixed(RecommendedActionIs), UnpunctuatedProperty(alert, CRecommendedAction)];
    ContentTwo(action[0], action[1]);
    ContentOne(action[0]);
    ContentOne(action[1]);
    FlatMapSnoc(ContentOf(), [], action);
    assert [] + [action] == [action];
  }

  lemma {:induction false} ResponseSays(e: Evidence)
    requires ResponseDescribed(e).Ok?
    ensures All(e, Label.Alert) != []
    ensures Content(ResponseDescribed(e).value) == Response(e, All(e, Label.Alert)[0])
  {
    hide Content, Stated, Known, Filter, SentenceList, WithStops, ListPart, ActionPart, Listed, NothingKnown, Nothing;
    SameNodes(e, Label.Alert);
    SameNodes(e, Control);
    SameNodes(e, Document);
    NothingSays(e);
    var alert := All(e, Label.Alert)[0];
    var a, b, c := ActionPart(alert), ListPart(ControlsAre, All(e, Control)), ListPart(ProcedureIsIn, All(e, Document));
    FlatMapConcat(ContentOf(), a + b, c);
    FlatMapConcat(ContentOf(), a, b);
    ActionSays(alert);
    ListPartSays(ControlsAre, All(e, Control));
    ListPartSays(ProcedureIsIn, All(e, Document));
    JoinedSaysAll(a + b + c);
    ContentConcat(WithStops(a + b + c), [Fixed(Stop)]);
    ContentOne(Fixed(Stop));
    PartsSaySomething(e, alert);
  }

  lemma {:induction false} PartsSaySomething(e: Evidence, alert: Node)
    ensures ActionPart(alert) + ListPart(ControlsAre, All(e, Control)) + ListPart(ProcedureIsIn, All(e, Document)) == []
      <==> (!Known(alert, CRecommendedAction) && All(e, Control) == [] && All(e, Document) == [])
    ensures !Known(alert, CRecommendedAction) && All(e, Control) == [] && All(e, Document) == []
      <==> (if Known(alert, CRecommendedAction)
            then [Fixed(RecommendedActionIs), UnpunctuatedProperty(alert, CRecommendedAction)] else [])
           + Listed(ControlsAre, All(e, Control)) + Listed(ProcedureIsIn, All(e, Document)) == []
  {
    hide Stated, Known, SentenceList, All, FlatMap;
    StatedIff(alert, CRecommendedAction);
  }

  lemma {:induction false} ExplanationSays(e: Evidence, alert: Node)
    ensures Content(ExplanationOf(e, alert)) == Explanation(e, alert)
  {
    hide Content, Stated, Known, Filter, ThreatName, AboutThreat, Qualifier, StatedPieces;
    SameNodes(e, Threat);
    StatedIff(alert, CRuleName);
    var head := [Fixed(AlertWord), KeyPiece(alert)];
    var rule := if Stated(alert, CRuleName)
                then [Fixed(WasCreatedByRule), QuotedProperty(alert, CRuleName), Fixed(Stop)]
                else [Fixed(WasCreatedByARule)];
    HeadSays(alert);
    ContentConcat(head, rule);
    if All(e, Threat) == [] {
      assert ExplanationOf(e, alert) == head + rule;
    } else {
      var threat := All(e, Threat)[0];
      var named := [Fixed(IndicatesTechnique), KeyPiece(threat)] + Qualifier(StatedPieces(threat, CName))
                   + [Fixed(Stop)];
      assert ExplanationOf(e, alert) == head + rule + named;
      ContentConcat(head + rule, named);
      TechniqueSays(threat);
    }
  }

  lemma {:induction false} HeadSays(alert: Node)
    ensures Content([Fixed(AlertWord), KeyPiece(alert)]) == [Fixed(AlertWord), KeyPiece(alert)]
    ensures Content([Fixed(WasCreatedByRule), QuotedProperty(alert, CRuleName), Fixed(Stop)])
      == [Fixed(WasCreatedByRule), QuotedProperty(alert, CRuleName)]
    ensures Content([Fixed(WasCreatedByARule)]) == [Fixed(WasCreatedByARule)]
  {
    hide Content;
    ContentTwo(Fixed(AlertWord), KeyPiece(alert));
    ContentThree(Fixed(WasCreatedByRule), QuotedProperty(alert, CRuleName), Fixed(Stop));
    ContentOne(Fixed(AlertWord));
    ContentOne(KeyPiece(alert));
    ContentOne(Fixed(WasCreatedByRule));
    ContentOne(QuotedProperty(alert, CRuleName));
    ContentOne(Fixed(Stop));
    ContentOne(Fixed(WasCreatedByARule));
  }

  lemma {:induction false} TechniqueSays(threat: Node)
    ensures Content([Fixed(IndicatesTechnique), KeyPiece(threat)] + Qualifier(StatedPieces(threat, CName))
                    + [Fixed(Stop)])
      == [Fixed(IndicatesTechnique)] + AboutThreat()(threat)
  {
    hide Content, Qualifier, StatedPieces, Told;
    var head, name := [Fixed(IndicatesTechnique), KeyPiece(threat)], Qualifier(StatedPieces(threat, CName));
    ContentConcat(head + name, [Fixed(Stop)]);
    ContentConcat(head, name);
    ContentTwo(Fixed(IndicatesTechnique), KeyPiece(threat));
    ContentOne(Fixed(IndicatesTechnique));
    ContentOne(KeyPiece(threat));
    ContentOne(Fixed(Stop));
    StatedSays(threat, CName);
  }

  lemma {:induction false} SubjectSays(e: Evidence)
    ensures Content([ServicePiece(e)]) == [Subject(e)]
  {
    ContentOne(ServicePiece(e));
  }

  lemma {:induction false} NumberSays(e: Evidence, tag: Label)
    ensures Content([CountNodes(e, tag)]) == [Count(|All(e, tag)|, NodesTagged(tag))]
  {
    hide NodesTaggedAs, All;
    SameNodes(e, tag);
    ContentOne(CountNodes(e, tag));
  }

  lemma {:induction false} NamedThreatsSay(threats: seq<Node>)
    ensures Content(SentenceList(Map(ThreatName(), threats))) == FlatMap(AboutThreat(), threats)
  {
    hide Content, SentenceList, ThreatName, AboutThreat;
    forall n | n in threats
      ensures Content(ThreatName()(n)) == AboutThreat()(n)
    {
      ThreatNameSays(n);
    }
    SentenceSaysAll(Map(ThreatName(), threats));
    MappedContent(ThreatName(), AboutThreat(), threats);
  }

  lemma {:induction false} NamedServicesSay(services: seq<Node>)
    ensures Content(SentenceList(Map(ImpactedName(), services))) == FlatMap(AboutService(), services)
  {
    hide Content, SentenceList, ImpactedName, AboutService;
    forall n | n in services
      ensures Content(ImpactedName()(n)) == AboutService()(n)
    {
      ImpactedNameSays(n);
    }
    SentenceSaysAll(Map(ImpactedName(), services));
    MappedContent(ImpactedName(), AboutService(), services);
  }

  lemma {:induction false} MitigationSays(controls: seq<Node>)
    ensures Content(if controls == [] then []
                    else [Fixed(TechniquesMitigatedBy)] + SentenceList(Map(KeyPieces(), controls)) + [Fixed(Stop)])
      == Listed(TechniquesMitigatedBy, controls)
  {
    hide Content, SentenceList;
    var items := SentenceList(Map(KeyPieces(), controls));
    KeysSay(controls);
    ContentOne(Fixed(TechniquesMitigatedBy));
    ContentOne(Fixed(Stop));
    ContentConcat([Fixed(TechniquesMitigatedBy)], items);
    ContentConcat([Fixed(TechniquesMitigatedBy)] + items, [Fixed(Stop)]);
  }

  /** A head, what follows it, a full stop and perhaps a further sentence. */
  lemma {:induction false} SentenceSays(head: seq<Piece>, named: seq<Piece>, rest: seq<Piece>)
    ensures Content(head + named + [Fixed(Stop)] + rest) == Content(head) + Content(named) + Content(rest)
  {
    hide Content;
    ContentConcat(head + named + [Fixed(Stop)], rest);
    ContentConcat(head + named, [Fixed(Stop)]);
    ContentConcat(head, named);
    ContentOne(Fixed(Stop));
  }

  lemma {:induction false} TargetedSays(e: Evidence)
    ensures Content([ServicePiece(e), Fixed(IsTargetedBy)]) == [Subject(e), Fixed(IsTargetedBy)]
  {
    hide Content, ServicePiece, Subject;
    ContentTwo(ServicePiece(e), Fixed(IsTargetedBy));
    SubjectSays(e);
    ContentOne(Fixed(IsTargetedBy));
  }

  lemma {:induction false} ThreatsSay(e: Evidence)
    ensures Content(ThreatsDescribed(e))
      == [Subject(e), Fixed(IsTargetedBy)] + FlatMap(AboutThreat(), All(e, Threat))
         + Listed(TechniquesMitigatedBy, All(e, Control))
  {
    hide Content, NodesTaggedAs, All, SentenceList, ThreatName, AboutThreat, ServicePiece, Subject, FlatMap, Listed;
    SameNodes(e, Threat);
    SameNodes(e, Control);
    TargetedSays(e);
    NamedThreatsSay(All(e, Threat));
    MitigationSays(All(e, Control));
    SentenceSays([ServicePiece(e), Fixed(IsTargetedBy)], SentenceList(Map(ThreatName(), All(e, Threat))),
                 if All(e, Control) == [] then []
                 else [Fixed(TechniquesMitigatedBy)] + SentenceList(Map(KeyPieces(), All(e, Control))) + [Fixed(Stop)]);
  }

  lemma {:induction false} FailureSays(e: Evidence)
    ensures Content([Fixed(If), ServicePiece(e), Fixed(Fails), CountNodes(e, Service), Fixed(ServicesAffected)])
      == [Fixed(If), Subject(e), Fixed(Fails), Count(|All(e, Service)|, NodesTagged(Service)), Fixed(ServicesAffected)]
  {
    hide Content, ServicePiece, Subject, CountNodes, All;
    var a, b := [Fixed(If), ServicePiece(e)], [Fixed(Fails), CountNodes(e, Service), Fixed(ServicesAffected)];
    assert [Fixed(If), ServicePiece(e), Fixed(Fails), CountNodes(e, Service), Fixed(ServicesAffected)] == a + b;
    ContentConcat(a, b);
    ContentTwo(a[0], a[1]);
    ContentThree(b[0], b[1], b[2]);
    ContentOne(Fixed(If));
    ContentOne(Fixed(Fails));
    ContentOne(Fixed(ServicesAffected));
    SubjectSays(e);
    NumberSays(e, Service);
  }

  lemma {:induction false} ImpactSays(e: Evidence)
    ensures Content(ImpactDescribed(e))
      == [Fixed(If), Subject(e), Fixed(Fails), Count(|All(e, Service)|, NodesTagged(Service)), Fixed(ServicesAffected)]
         + FlatMap(AboutService(), All(e, Service))
  {
    hide Content, NodesTaggedAs, All, SentenceList, ImpactedName, AboutService, ServicePiece, Subject, CountNodes,
      FlatMap;
    SameNodes(e, Service);
    FailureSays(e);
    NamedServicesSay(All(e, Service));
    var head := [Fixed(If), ServicePiece(e), Fixed(Fails), CountNodes(e, Service), Fixed(ServicesAffected)];
    var named := SentenceList(Map(ImpactedName(), All(e, Service)));
    ContentConcat(head + named, [Fixed(Stop)]);
    ContentConcat(head, named);
    ContentOne(Fixed(Stop));
  }

  /** The lines of an answer say what they are to say. */
  ghost predicate Say(lines: seq<Line>, contents: seq<seq<Piece>>) {
    |lines| == |contents| && forall i :: 0 <= i < |lines| ==> Content(lines[i].pieces) == contents[i]
  }

  lemma {:induction false} HeadedSays(head: seq<Piece>, content: seq<Piece>, f: Node -> Line, g: Node -> seq<Piece>,
                                      nodes: seq<Node>)
    requires Content(head) == content
    requires forall n :: n in nodes ==> Content(f(n).pieces) == g(n)
    ensures Say([Line(head, false)] + Map(f, nodes), Headed(content, g, nodes))
  {
    hide Content;
    assert forall i :: 0 <= i < |nodes| ==> nodes[i] in nodes;
  }

  lemma {:induction false} LinesSay(e: Evidence)
    ensures Say(ServiceAlertLines(e),
                Headed([Count(|All(e, Label.Alert)|, NodesTagged(Label.Alert)), Fixed(AlertsAffect), Subject(e)],
                       AboutAlert(), All(e, Label.Alert)))
    ensures Say(UserLines(e), Headed([Count(|All(e, User)|, NodesTagged(User)), Fixed(UsersLinked)], AboutUser(e),
                                     All(e, User)))
    ensures Say(IncidentLines(e), Headed([Count(|All(e, Incident)|, NodesTagged(Incident)), Fixed(IncidentsGroup)],
                                         AboutIncident(e), All(e, Incident)))
  {
    hide Content, Filter, AlertLine, UserLine, IncidentLine, AboutAlert, AboutUser, AboutIncident, Say, Headed;
    SameNodes(e, Label.Alert);
    SameNodes(e, User);
    SameNodes(e, Incident);
    HeadingsSay(e);
    forall n: Node
      ensures Content(AlertLine()(n).pieces) == AboutAlert()(n)
      ensures Content(UserLine(e)(n).pieces) == AboutUser(e)(n)
      ensures Content(IncidentLine(e)(n).pieces) == AboutIncident(e)(n)
    {
      AlertLineSays(n);
      UserLineSays(e, n);
      IncidentLineSays(e, n);
    }
    HeadedSays([CountNodes(e, Label.Alert), Fixed(AlertsAffect), ServicePiece(e), Fixed(Colon)],
               [Count(|All(e, Label.Alert)|, NodesTagged(Label.Alert)), Fixed(AlertsAffect), Subject(e)],
               AlertLine(), AboutAlert(), All(e, Label.Alert));
    HeadedSays([CountNodes(e, User), Fixed(UsersLinked)],
               [Count(|All(e, User)|, NodesTagged(User)), Fixed(UsersLinked)], UserLine(e), AboutUser(e), All(e, User));
    HeadedSays([CountNodes(e, Incident), Fixed(IncidentsGroup)],
               [Count(|All(e, Incident)|, NodesTagged(Incident)), Fixed(IncidentsGroup)], IncidentLine(e),
               AboutIncident(e), All(e, Incident));
  }

  lemma {:induction false} HeadingsSay(e: Evidence)
    ensures Content([CountNodes(e, Label.Alert), Fixed(AlertsAffect), ServicePiece(e), Fixed(Colon)])
      == [Count(|All(e, Label.Alert)|, NodesTagged(Label.Alert)), Fixed(AlertsAffect), Subject(e)]
    ensures Content([CountNodes(e, User), Fixed(UsersLinked)])
      == [Count(|All(e, User)|, NodesTagged(User)), Fixed(UsersLinked)]
    ensures Content([CountNodes(e, Incident), Fixed(IncidentsGroup)])
      == [Count(|All(e, Incident)|, NodesTagged(Incident)), Fixed(IncidentsGroup)]
  {
    hide Content, CountNodes, ServicePiece, Subject, All;
    AlertsHeadingSays(e);
    ContentTwo(CountNodes(e, User), Fixed(UsersLinked));
    NumberSays(e, User);
    ContentOne(Fixed(UsersLinked));
    ContentTwo(CountNodes(e, Incident), Fixed(IncidentsGroup));
    NumberSays(e, Incident);
    ContentOne(Fixed(IncidentsGroup));
  }

  lemma {:induction false} AlertsHeadingSays(e: Evidence)
    ensures Content([CountNodes(e, Label.Alert), Fixed(AlertsAffect), ServicePiece(e), Fixed(Colon)])
      == [Count(|All(e, Label.Alert)|, NodesTagged(Label.Alert)), Fixed(AlertsAffect), Subject(e)]
  {
    hide Content, CountNodes, ServicePiece, Subject, All;
    var alerts, affect, service := CountNodes(e, Label.Alert), Fixed(AlertsAffect), ServicePiece(e);
    assert [alerts, affect, service, Fixed(Colon)] == [alerts, affect, service] + [Fixed(Colon)];
    ContentConcat([alerts, affect, service], [Fixed(Colon)]);
    ContentThree(alerts, affect, service);
    NumberSays(e, Label.Alert);
    ContentOne(affect);
    SubjectSays(e);
    ContentOne(Fixed(Colon));
  }

  lemma {:induction false} ExplainedSays(e: Evidence)
    requires AlertAndResponse(e).Ok?
    ensures All(e, Label.Alert) != []
    ensures Content(AlertAndResponse(e).value)
      == Explanation(e, All(e, Label.Alert)[0]) + Response(e, All(e, Label.Alert)[0])
  {
    hide Content, Filter, ExplanationOf, ResponseDescribed, Explanation, Response;
    SameNodes(e, Label.Alert);
    var alert := All(e, Label.Alert)[0];
    ResponseSays(e);
    ExplanationSays(e, alert);
    ContentOne(Fixed(Space));
    ContentConcat(ExplanationOf(e, alert), [Fixed(Space)]);
    ContentConcat(ExplanationOf(e, alert) + [Fixed(Space)], ResponseDescribed(e).value);
  }

  /** Every answer says, line by line and in the order of the evidence, exactly what the
      evidence holds for its question: nothing is left out and nothing is repeated. */
  lemma {:induction false} AnswersAreComplete(e: Evidence)
    requires Generate(e).Ok?
    ensures Say(Generate(e).value, Answer(e))
  {
    hide Content, Filter, ServiceAlertLines, UserLines, IncidentLines, ThreatsDescribed, ImpactDescribed, NothingKnown,
      Nothing, ResponseDescribed, AlertAndResponse, Headed, All, Explanation, Response, FlatMap, Listed, Subject;
    NothingSays(e);
    if e.nodes != [] {
      match e.intent
      case AlertExplanation => ExplainedSays(e);
      case ResponseProcedure => ResponseSays(e);
      case ThreatMitigation => ThreatsSay(e);
      case ImpactOfFailure => ImpactSays(e);
      case Unsupported =>
      case _ => LinesSay(e);
    }
  }

  // ------------------------------------------------------------- each named once

  function NamedBy(): Piece -> seq<Node> {
    (p: Piece) => if p.KeyPiece? then [p.node] else []
  }

  /** The nodes whose keys a text prints, in order. */
  function Names(ps: seq<Piece>): seq<Node> {
    FlatMap(NamedBy(), ps)
  }

  function NamesOf(): seq<Piece> -> seq<Node> {
    (ps: seq<Piece>) => Names(ps)
  }

  function PiecesOf(): Line -> seq<Piece> {
    (line: Line) => line.pieces
  }

  lemma {:induction false} NamesConcat(a: seq<Piece>, b: seq<Piece>)
    ensures Names(a + b) == Names(a) + Names(b)
  {
    FlatMapConcat(NamedBy(), a, b);
  }

  lemma {:induction false} NamesOne(p: Piece)
    ensures Names([p]) == if p.KeyPiece? then [p.node] else []
    ensures Names([]) == []
  {
    FlatMapSnoc(NamedBy(), [], p);
    assert [] + [p] == [p];
  }

  /** Punctuation names nothing. */
  lemma {:induction false} ContentNames(ps: seq<Piece>)
    ensures Names(Content(ps)) == Names(ps)
  {
    if ps != [] {
      var front, last := ps[..|ps| - 1], ps[|ps| - 1];
      assert ps == front + [last];
      ContentNames(front);
      ContentConcat(front, [last]);
      ContentOne(last);
      NamesConcat(Content(front), Content([last]));
      NamesConcat(front, [last]);
      NamesOne(last);
    }
  }

  lemma {:induction false} NamesOfEach(g: Node -> seq<Piece>, nodes: seq<Node>)
    requires forall n :: n in nodes ==> Names(g(n)) == [n]
    ensures Names(FlatMap(g, nodes)) == nodes
  {
    hide Names;
    if nodes == [] {
      NamesOne(Why);
    } else {
      var front, last := nodes[..|nodes| - 1], nodes[|nodes| - 1];
      assert nodes == front + [last];
      NamesOfEach(g, front);
      FlatMapSnoc(g, front, last);
      NamesConcat(FlatMap(g, front), g(last));
    }
  }

  /** A text that names one node first and properties after it. */
  lemma {:induction false} NamesHead(n: Node, rest: seq<Piece>)
    requires forall p :: p in rest ==> !p.KeyPiece?
    ensures Names([KeyPiece(n)] + rest) == [n]
  {
    hide Names;
    NamesConcat([KeyPiece(n)], rest);
    NamesOne(KeyPiece(n));
    NamesNothing(rest);
  }

  lemma {:induction false} NamesNothing(ps: seq<Piece>)
    requires forall p :: p in ps ==> !p.KeyPiece?
    ensures Names(ps) == []
  {
    if ps != [] {
      assert ps[|ps| - 1] in ps;
      NamesNothing(ps[..|ps| - 1]);
    }
  }

  lemma {:induction false} EachAboutItsOwn(e: Evidence, n: Node)
    ensures Names(Keys()(n)) == [n] && Names(AboutAlert()(n)) == [n] && Names(AboutThreat()(n)) == [n]
    ensures Names(AboutService()(n)) == [n] && Names(AboutUser(e)(n)) == [n]
  {
    hide Names, Known, LinksOut, Aside, AboutUser;
    AsideNamesNothing(Told(n, CSeverity) + Told(n, CStatus));
    AsideNamesNothing(Told(n, CName));
    AsideNamesNothing(if Known(n, CHops) then [Property(n, CHops), Fixed(Hops)] else []);
    NamesHead(n, []);
    assert [KeyPiece(n)] + [] == [KeyPiece(n)];
    var a := Told(n, CRuleName) + Aside(Told(n, CSeverity) + Told(n, CStatus)) + Told(n, CDescription);
    NamesHead(n, a);
    assert AboutAlert()(n) == [KeyPiece(n)] + a;
    NamesHead(n, Aside(Told(n, CName)));
    NamesHead(n, Aside(if Known(n, CHops) then [Property(n, CHops), Fixed(Hops)] else []));
    UserNamesOne(e, n);
  }

  lemma {:induction false} UserNamesOne(e: Evidence, n: Node)
    ensures Names(AboutUser(e)(n)) == [n]
  {
    hide Names, Known, LinksOut, Aside;
    AsideNamesNothing(Told(n, CRole));
    var rest := Aside(Told(n, CRole)) + (if Known(n, CRuleName) then [Fixed(On), Property(n, CRuleName)] else [])
                + Severe(n)
                + [Count(|LinksOut(e, Triggered, n.key)|, LinksFrom(Triggered, n.key)), Fixed(EventsOfEvidence)];
    NamesHead(n, rest);
    assert AboutUser(e)(n) == [KeyPiece(n)] + rest;
  }

  lemma {:induction false} IncidentNamesOne(e: Evidence, n: Node)
    ensures Names(AboutIncident(e)(n)) == [n]
  {
    hide Names, Known, LinksOut, FlatMap, AboutContained;
    var affected, contained := LinksOut(e, Affects, n.key), LinksOut(e, Contains, n.key);
    var listed := FlatMap(AboutContained(e), contained);
    ContainedNameNothing(e, contained);
    var rest := Severe(n)
                + (if affected == [] || affected[0].end == "" then [] else [Fixed(AgainstAsset), EndPiece(affected[0])])
                + (if contained == [] then [Fixed(ContainsNoAlert)] else [Fixed(ContainsWord)] + listed);
    NamesHead(n, rest);
    assert AboutIncident(e)(n) == [KeyPiece(n)] + rest;
  }

  lemma {:induction false} ContainedNameNothing(e: Evidence, contained: seq<Link>)
    ensures forall p :: p in FlatMap(AboutContained(e), contained) ==> !p.KeyPiece?
  {
    hide AboutContained;
    if contained != [] {
      ContainedNameNothing(e, contained[..|contained| - 1]);
      OneContainedNamesNothing(e, contained[|contained| - 1]);
    }
  }

  lemma {:induction false} OneContainedNamesNothing(e: Evidence, l: Link)
    ensures forall p :: p in AboutContained(e)(l) ==> !p.KeyPiece?
  {
    hide Known, Filter, Aside;
    var named := Filter(AlertKeyed(l.end), e.nodes);
    if named != [] {
      AsideNamesNothing(Told(named[|named| - 1], CRuleName));
    }
  }

  lemma {:induction false} AsideNamesNothing(said: seq<Piece>)
    requires forall p :: p in said ==> !p.KeyPiece?
    ensures forall p :: p in Aside(said) ==> !p.KeyPiece?
  {
  }

  lemma {:induction false} ListedNames(wording: Wording, nodes: seq<Node>)
    ensures Names(Listed(wording, nodes)) == nodes
  {
    hide Names, FlatMap;
    NamesOne(Fixed(wording));
    forall n | n in nodes
      ensures Names(Keys()(n)) == [n]
    {
      NamesOne(KeyPiece(n));
    }
    NamesOfEach(Keys(), nodes);
    NamesConcat([Fixed(wording)], FlatMap(Keys(), nodes));
  }

  lemma {:induction false} ResponseNames(e: Evidence, alert: Node)
    ensures Names(Response(e, alert)) == All(e, Control) + All(e, Document)
  {
    hide Names, Known, All, Listed;
    var action := if Known(alert, CRecommendedAction)
                  then [Fixed(RecommendedActionIs), UnpunctuatedProperty(alert, CRecommendedAction)] else [];
    var a, b := Listed(ControlsAre, All(e, Control)), Listed(ProcedureIsIn, All(e, Document));
    NamesConcat(action + a, b);
    NamesConcat(action, a);
    NamesNothing(action);
    NamesNothing(Nothing(e));
    ListedNames(ControlsAre, All(e, Control));
    ListedNames(ProcedureIsIn, All(e, Document));
    NamesOne(Why);
  }

  lemma {:induction false} ExplanationNames(e: Evidence, alert: Node)
    ensures Names(Explanation(e, alert)) == [alert] + if All(e, Threat) == [] then [] else [All(e, Threat)[0]]
  {
    hide Names, Known, All, AboutThreat;
    var head := [Fixed(AlertWord), KeyPiece(alert)];
    var rule := if Known(alert, CRuleName) then [Fixed(WasCreatedByRule), QuotedProperty(alert, CRuleName)]
                else [Fixed(WasCreatedByARule)];
    NamesConcat([Fixed(AlertWord)], [KeyPiece(alert)]);
    assert head == [Fixed(AlertWord)] + [KeyPiece(alert)];
    NamesOne(Fixed(AlertWord));
    NamesOne(KeyPiece(alert));
    NamesNothing(rule);
    NamesConcat(head, rule);
    NamesOne(Fixed(IndicatesTechnique));
    if All(e, Threat) == [] {
      assert Explanation(e, alert) == head + rule;
    } else {
      var about := AboutThreat()(All(e, Threat)[0]);
      NamesConcat(head + rule, [Fixed(IndicatesTechnique)] + about);
      NamesConcat([Fixed(IndicatesTechnique)], about);
      EachAboutItsOwn(e, All(e, Threat)[0]);
    }
  }

  /** The names of a list of texts, one after another. */
  lemma {:induction false} LinesName(lines: seq<Line>, contents: seq<seq<Piece>>)
    requires Say(lines, contents)
    ensures Names(FlatMap(PiecesOf(), lines)) == FlatMap(NamesOf(), contents)
  {
    hide Names, Content;
    if lines == [] {
      NamesOne(Why);
    } else {
      var front, last := lines[..|lines| - 1], lines[|lines| - 1];
      var before, said := contents[..|contents| - 1], contents[|contents| - 1];
      assert lines == front + [last] && contents == before + [said];
      LinesName(front, before);
      FlatMapSnoc(PiecesOf(), front, last);
      FlatMapSnoc(NamesOf(), before, said);
      NamesConcat(FlatMap(PiecesOf(), front), last.pieces);
      ContentNames(last.pieces);
    }
  }

  lemma {:induction false} OneText(text: seq<Piece>)
    ensures FlatMap(NamesOf(), [text]) == Names(text)
  {
    FlatMapSnoc(NamesOf(), [], text);
    assert [] + [text] == [text];
  }

  lemma {:induction false} HeadedNames(head: seq<Piece>, f: Node -> seq<Piece>, nodes: seq<Node>)
    requires forall p :: p in head ==> !p.KeyPiece?
    requires forall n :: n in nodes ==> Names(f(n)) == [n]
    ensures FlatMap(NamesOf(), Headed(head, f, nodes)) == nodes
  {
    hide Names;
    NamesNothing(head);
    OneText(head);
    FlatMapConcat(NamesOf(), [head], Map(f, nodes));
    MappedNames(f, nodes);
  }

  lemma {:induction false} MappedNames(f: Node -> seq<Piece>, nodes: seq<Node>)
    requires forall n :: n in nodes ==> Names(f(n)) == [n]
    ensures FlatMap(NamesOf(), Map(f, nodes)) == nodes
  {
    hide Names;
    if nodes != [] {
      var front, last := nodes[..|nodes| - 1], nodes[|nodes| - 1];
      assert nodes == front + [last];
      MappedNames(f, front);
      assert Map(f, nodes) == Map(f, front) + [f(last)];
      FlatMapSnoc(NamesOf(), Map(f, front), f(last));
    }
  }

  lemma {:induction false} ThreatsAndControlsNamed(e: Evidence)
    ensures Names([Subject(e), Fixed(IsTargetedBy)] + FlatMap(AboutThreat(), All(e, Threat))
                  + Listed(TechniquesMitigatedBy, All(e, Control)))
      == All(e, Threat) + All(e, Control)
  {
    hide Names, FlatMap, All, Listed, AboutThreat;
    var head, threats := [Subject(e), Fixed(IsTargetedBy)], FlatMap(AboutThreat(), All(e, Threat));
    NamesNothing(head);
    NamesConcat(head + threats, Listed(TechniquesMitigatedBy, All(e, Control)));
    NamesConcat(head, threats);
    forall n {
      EachAboutItsOwn(e, n);
    }
    NamesOfEach(AboutThreat(), All(e, Threat));
    ListedNames(TechniquesMitigatedBy, All(e, Control));
  }

  lemma {:induction false} ServicesNamed(e: Evidence)
    ensures Names([Fixed(If), Subject(e), Fixed(Fails), Count(|All(e, Service)|, NodesTagged(Service)),
                   Fixed(ServicesAffected)] + FlatMap(AboutService(), All(e, Service))) == All(e, Service)
  {
    hide Names, FlatMap, All, AboutService;
    var head := [Fixed(If), Subject(e), Fixed(Fails), Count(|All(e, Service)|, NodesTagged(Service)),
                 Fixed(ServicesAffected)];
    NamesNothing(head);
    NamesConcat(head, FlatMap(AboutService(), All(e, Service)));
    forall n {
      EachAboutItsOwn(e, n);
    }
    NamesOfEach(AboutService(), All(e, Service));
  }

  lemma {:induction false} AnswerNames(e: Evidence)
    requires Generate(e).Ok? && e.nodes != []
    ensures var names := FlatMap(NamesOf(), Answer(e));
      match e.intent
      case AlertExplanation =>
        All(e, Label.Alert) != [] &&
        names == [All(e, Label.Alert)[0]] + (if All(e, Threat) == [] then [] else [All(e, Threat)[0]])
                 + (All(e, Control) + All(e, Document))
      case ResponseProcedure => names == All(e, Control) + All(e, Document)
      case ServiceAlerts => names == All(e, Label.Alert)
      case ThreatMitigation => names == All(e, Threat) + All(e, Control)
      case UserLinkage => names == All(e, User)
      case ImpactOfFailure => names == All(e, Service)
      case IncidentLinkage => names == All(e, Incident)
      case Unsupported => names == []
  {
    hide Names, FlatMap, All, Listed, Explanation, Response, Headed, AboutAlert, AboutThreat, AboutService, AboutUser,
      AboutIncident, ServiceAlertLines, UserLines, IncidentLines, ThreatsDescribed, ImpactDescribed, NothingKnown,
      ExplanationOf, ResponseParts, WithStops, NodesTaggedAs;
    SameNodes(e, Label.Alert);
    match e.intent
    case AlertExplanation =>
      var alert := All(e, Label.Alert)[0];
      OneText(Explanation(e, alert) + Response(e, alert));
      NamesConcat(Explanation(e, alert), Response(e, alert));
      ExplanationNames(e, alert);
      ResponseNames(e, alert);
    case ResponseProcedure =>
      OneText(Response(e, All(e, Label.Alert)[0]));
      ResponseNames(e, All(e, Label.Alert)[0]);
    case ThreatMitigation =>
      OneText([Subject(e), Fixed(IsTargetedBy)] + FlatMap(AboutThreat(), All(e, Threat))
              + Listed(TechniquesMitigatedBy, All(e, Control)));
      ThreatsAndControlsNamed(e);
    case ImpactOfFailure =>
      OneText([Fixed(If), Subject(e), Fixed(Fails), Count(|All(e, Service)|, NodesTagged(Service)),
               Fixed(ServicesAffected)] + FlatMap(AboutService(), All(e, Service)));
      ServicesNamed(e);
    case Unsupported =>
      OneText(Nothing(e));
      NamesNothing(Nothing(e));
    case _ => ListsName(e);
  }

  lemma {:induction false} ListsName(e: Evidence)
    ensures FlatMap(NamesOf(), Headed([Count(|All(e, Label.Alert)|, NodesTagged(Label.Alert)), Fixed(AlertsAffect),
                                       Subject(e)], AboutAlert(), All(e, Label.Alert))) == All(e, Label.Alert)
    ensures FlatMap(NamesOf(), Headed([Count(|All(e, User)|, NodesTagged(User)), Fixed(UsersLinked)], AboutUser(e),
                                      All(e, User))) == All(e, User)
    ensures FlatMap(NamesOf(), Headed([Count(|All(e, Incident)|, NodesTagged(Incident)), Fixed(IncidentsGroup)],
                                      AboutIncident(e), All(e, Incident))) == All(e, Incident)
  {
    hide Names, FlatMap, All, Headed, AboutAlert, AboutThreat, AboutService, AboutUser, AboutIncident;
    forall n: Node
      ensures Names(AboutAlert()(n)) == [n]
      ensures Names(AboutUser(e)(n)) == [n]
      ensures Names(AboutIncident(e)(n)) == [n]
    {
      EachAboutItsOwn(e, n);
      IncidentNamesOne(e, n);
    }
    HeadedNames([Count(|All(e, Label.Alert)|, NodesTagged(Label.Alert)), Fixed(AlertsAffect), Subject(e)],
                AboutAlert(), All(e, Label.Alert));
    HeadedNames([Count(|All(e, User)|, NodesTagged(User)), Fixed(UsersLinked)], AboutUser(e), All(e, User));
    HeadedNames([Count(|All(e, Incident)|, NodesTagged(Incident)), Fixed(IncidentsGroup)], AboutIncident(e),
                All(e, Incident));
  }

  /** So the keys an answer prints are those of the evidence's nodes it is about, all of
      them, each as often as the evidence holds it and in its order: controls and then
      runbooks in a response, techniques and then controls for a service, and the alerts,
      users, services or incidents where those are asked for. */
  lemma {:induction false} EveryOneIsNamed(e: Evidence)
    requires Generate(e).Ok? && e.nodes != []
    ensures var names := Names(FlatMap(PiecesOf(), Generate(e).value));
      match e.intent
      case AlertExplanation =>
        All(e, Label.Alert) != [] &&
        names == [All(e, Label.Alert)[0]] + (if All(e, Threat) == [] then [] else [All(e, Threat)[0]])
                 + (All(e, Control) + All(e, Document))
      case ResponseProcedure => names == All(e, Control) + All(e, Document)
      case ServiceAlerts => names == All(e, Label.Alert)
      case ThreatMitigation => names == All(e, Threat) + All(e, Control)
      case UserLinkage => names == All(e, User)
      case ImpactOfFailure => names == All(e, Service)
      case IncidentLinkage => names == All(e, Incident)
      case Unsupported => names == []
  {
    hide Names, FlatMap, All, Answer, Generate, Say;
    AnswersAreComplete(e);
    LinesName(Generate(e).value, Answer(e));
    AnswerNames(e);
  }
}
