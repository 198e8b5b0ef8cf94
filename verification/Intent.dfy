/** Which question is this, what is it about, and which query answers it. */
module Intents {
  import opened Wrappers
  import opened Sequences
  import opened Events
  import opened Retrieval

  // ---------------------------------------------------------------------- matching

  function LowerChar(c: char): char {
    if 'A' <= c <= 'Z' then (c as int + 32) as char else c
  }

  /** `str.lower`, on the letters the phrases and the entity names are made of. */
  function Lower(s: string): (l: string)
    ensures |l| == |s|
  {
    seq(|s|, i requires 0 <= i < |s| => LowerChar(s[i]))
  }

  /** `phrase in question` */
  predicate Occurs(phrase: string, question: string) {
    exists i :: 0 <= i <= |question| && phrase <= question[i..]
  }

  predicate WordChar(c: char) {
    'a' <= c <= 'z' || 'A' <= c <= 'Z' || '0' <= c <= '9' || c == '_'
  }

  /** The `n` characters at `i` stand between word boundaries. */
  predicate WholeWord(s: string, i: nat, n: nat) {
    && i + n <= |s|
    && (i == 0 || !WordChar(s[i - 1]))
    && (i + n == |s| || !WordChar(s[i + n]))
  }

  /** `re.search`: the leftmost place at or after `i` where the pattern matches. */
  function Search(at: (string, nat) -> Option<string>, s: string, i: nat): Option<string>
    decreases |s| + 1 - i
  {
    if i > |s| then None
    else if at(s, i).Some? then at(s, i)
    else Search(at, s, i + 1)
  }

  const ALERT_PREFIX := "alt-"

  /** `\balt-[0-9a-f]{12}\b` */
  function AlertIdAt(): (string, nat) -> Option<string> {
    (s: string, i: nat) =>
      if WholeWord(s, i, 16) && IdentifierIn(ALERT_PREFIX, s[i..i + 16]) then Some(s[i..i + 16]) else None
  }

  const SERVICES: seq<string> := ["auth-service", "incident-service", "asset-service", "alert-service", "graph-service"]

  function FirstNameAt(names: seq<string>, s: string, i: nat): Option<string> {
    if names == [] then None
    else if WholeWord(s, i, |names[0]|) && s[i..i + |names[0]|] == names[0] then Some(names[0])
    else FirstNameAt(names[1..], s, i)
  }

  function ServiceAt(): (string, nat) -> Option<string> {
    (s: string, i: nat) => FirstNameAt(SERVICES, s, i)
  }

  // ----------------------------------------------------------------------- intents

  datatype IntentName = AlertExplanation | ResponseProcedure | ServiceAlerts | ThreatMitigation | UserLinkage
                      | ImpactOfFailure | IncidentLinkage | Unsupported

  datatype EntityKind = AlertEntity | ServiceEntity | NoEntity

  datatype IntentRule = IntentRule(name: IntentName, phrases: seq<string>, entityKind: EntityKind)

  const INTENTS: seq<IntentRule> := [
    IntentRule(AlertExplanation, ["why was", "why did", "what caused", "cause of", "explain", "raised"], AlertEntity),
    IntentRule(ResponseProcedure, ["what should be done", "what should i do", "how do i respond", "response procedure",
                                   "runbook", "remediate", "respond to"], AlertEntity),
    IntentRule(ServiceAlerts, ["which alerts", "what alerts", "alerts for", "alerts affecting", "wrong with"],
               ServiceEntity),
    IntentRule(ThreatMitigation,
               ["which threats", "what threats", "which techniques", "attack techniques", "exposed to",
                                  "which controls", "what controls", "mitigate"], ServiceEntity),
    IntentRule(UserLinkage, ["which users", "what users", "which accounts", "whose account", "failed logins",
                             "under attack"], NoEntity),
    IntentRule(ImpactOfFailure,
               ["impact if", "if this service fails", "which services are affected", "what is affected",
                                 "blast radius", "depends on", "goes down", "fails"], ServiceEntity),
    IntentRule(IncidentLinkage,
               ["incidents", "which incidents", "what incidents", "incidents linked", "incident contain",
                                 "security incident", "wider security incident", "wider incident"], NoEntity)]

  function OccursIn(question: string): string -> bool {
    (phrase: string) => Occurs(phrase, question)
  }

  /** `IntentRule.score` */
  function Score(question: string): IntentRule -> nat {
    (rule: IntentRule) => |Filter(OccursIn(question), rule.phrases)|
  }

  /** `max(scored, key=lambda row: (row[0], -row[1]))`, as an index. */
  function BestIndex(scores: seq<nat>): (b: nat)
    requires scores != []
    ensures b < |scores|
  {
    if |scores| == 1 then 0
    else
      var front := BestIndex(scores[..|scores| - 1]);
      if scores[|scores| - 1] > scores[front] then |scores| - 1 else front
  }

  /** The highest score, and of those the earliest declared. */
  ghost predicate EarliestBest(scores: seq<nat>, b: nat) {
    && b < |scores|
    && (forall j :: 0 <= j < |scores| ==> scores[j] <= scores[b])
    && (forall j :: 0 <= j < b ==> scores[j] < scores[b])
  }

  lemma {:induction false} BestIsEarliest(scores: seq<nat>, b: nat)
    requires scores != []
    ensures EarliestBest(scores, b) <==> b == BestIndex(scores)
  {
    if |scores| > 1 {
      var front := scores[..|scores| - 1];
      assert forall j :: 0 <= j < |front| ==> front[j] == scores[j];
      BestIsEarliest(front, BestIndex(front));
    }
  }

  datatype Intent = Intent(name: IntentName, entity: Option<string>, reason: string, matched: seq<string>)

  const QUESTION_EMPTY := "the question was empty"
  const NOTHING_MATCHED := "no supported question type matched"
  const MATCHED_ON := "matched"

  function PatternOf(kind: EntityKind): (string, nat) -> Option<string> {
    if kind == AlertEntity then AlertIdAt() else ServiceAt()
  }

  /** `_extract` */
  function Extract(kind: EntityKind, question: string): Option<string> {
    if kind == NoEntity then None else Search(PatternOf(kind), Lower(question), 0)
  }

  function Scores(question: string): (scores: seq<nat>)
    ensures |scores| == |INTENTS|
  {
    Map(Score(Lower(question)), INTENTS)
  }

  function BestRule(question: string): IntentRule {
    INTENTS[BestIndex(Scores(question))]
  }

  /** `classify` */
  function Classify(question: string): Intent {
    if Blank(question) then Intent(Unsupported, None, QUESTION_EMPTY, [])
    else
      var best := BestRule(question);
      if Score(Lower(question))(best) == 0 then Intent(Unsupported, None, NOTHING_MATCHED, [])
      else
        Intent(best.name, Extract(best.entityKind, question), MATCHED_ON,
               Filter(OccursIn(Lower(question)), best.phrases))
  }

  // ----------------------------------------------------------------------- queries

  datatype Parameter = AlertIdParameter | ServiceParameter

  /** `INTENT_QUERIES` */
  function QueryOf(name: IntentName): Option<(QueryKey, Option<Parameter>)> {
    match name
    case AlertExplanation => Some((ControlsForAlert, Some(AlertIdParameter)))
    case ResponseProcedure => Some((ControlsForAlert, Some(AlertIdParameter)))
    case ServiceAlerts => Some((AlertsForService, Some(ServiceParameter)))
    case ThreatMitigation => Some((ThreatsForService, Some(ServiceParameter)))
    case UserLinkage => Some((UsersHighSeverity, None))
    case ImpactOfFailure => Some((DependencyImpact, Some(ServiceParameter)))
    case IncidentLinkage => Some((IncidentsAndAlerts, None))
    case Unsupported => None
  }

  const UNSUPPORTED_QUESTION := "unsupported question"
  const NO_ENTITY_NAMED := "the question names no entity"

  /** `build_query`: the query and its bound parameters, or the reason there is none. */
  function BuildQuery(intent: Intent): Result<(QueryKey, map<Parameter, string>), string> {
    match QueryOf(intent.name)
    case None => Err(if intent.reason != "" then intent.reason else UNSUPPORTED_QUESTION)
    case Some((key, None)) => Ok((key, map[]))
    case Some((key, Some(parameter))) =>
      if Truthy(intent.entity) then Ok((key, map[parameter := intent.entity.value])) else Err(NO_ENTITY_NAMED)
  }

  // ---------------------------------------------------------------------- retrieval

  datatype Evidence = Evidence(
    question: string,
    intent: IntentName,
    query: Option<QueryKey>,
    parameters: map<Parameter, string>,
    nodes: seq<Node>,
    links: seq<Link>,
    documents: seq<string>,
    rows: seq<Row>,
    reason: string)

  type Call = (QueryKey, map<Parameter, string>)

  /** The query executor, with the queries it has run. */
  class Runner {
    const answers: Call -> seq<Row>
    var calls: seq<Call>

    constructor (answers: Call -> seq<Row>)
      ensures this.answers == answers && calls == []
    {
      this.answers := answers;
      calls := [];
    }

    method Run(call: Call) returns (rows: seq<Row>)
      modifies this
      ensures calls == old(calls) + [call] && rows == answers(call)
    {
      calls := calls + [call];
      rows := answers(call);
    }
  }

  const NO_RESULT := "the graph holds no result"

  function IsDocument(): Node -> bool {
    (n: Node) => n.tag.Document?
  }

  function KeyOf(): Node -> string {
    (n: Node) => n.key
  }

  /** What a question is answered with, given what each query would return. */
  function Retrieved(question: string, answers: Call -> seq<Row>): Evidence {
    var intent := Classify(question);
    match BuildQuery(intent)
    case Err(reason) => Evidence(question, intent.name, None, map[], [], [], [], [], reason)
    case Ok((key, parameters)) =>
      var rows := answers((key, parameters));
      var shaped := ShapedRows(key, rows);
      Evidence(question, intent.name, Some(key), parameters, shaped.nodes, shaped.links,
               Map(KeyOf(), Filter(IsDocument(), shaped.nodes)), rows, if shaped.nodes == [] then NO_RESULT else "")
  }

  /** `retrieve` */
  method Retrieve(question: string, runner: Runner) returns (e: Evidence)
    modifies runner
    ensures e == Retrieved(question, runner.answers)
    ensures runner.calls == old(runner.calls)
                            + match BuildQuery(Classify(question))
                              case Ok(call) => [call]
                              case Err(_) => []
  {
    hide Classify, ShapedRows, Filter;
    var intent := Classify(question);
    var built := BuildQuery(intent);
    if built.Err? {
      return Evidence(question, intent.name, None, map[], [], [], [], [], built.error);
    }
    var rows := runner.Run(built.value);
    var shaped := ShapeRows(built.value.0, rows);
    e := Evidence(question, intent.name, Some(built.value.0), built.value.1, shaped.nodes, shaped.links,
                  Map(KeyOf(), Filter(IsDocument(), shaped.nodes)), rows,
                  if shaped.nodes == [] then NO_RESULT else "");
  }

  // ----------------------------------------------------------------------- theorems

  /** A search returns the leftmost match, and fails only when there is none. */
  lemma {:induction false} SearchIsLeftmost(at: (string, nat) -> Option<string>, s: string, i: nat)
    ensures Search(at, s, i).Some? ==>
      exists j: nat :: i <= j <= |s| && at(s, j) == Search(at, s, i) && forall k: nat :: i <= k < j ==> at(s, k).None?
    ensures Search(at, s, i).None? ==> forall k: nat :: i <= k <= |s| ==> at(s, k).None?
    decreases |s| + 1 - i
  {
    if i <= |s| && at(s, i).None? {
      SearchIsLeftmost(at, s, i + 1);
    }
  }

  /** The table of queries asks for the entity each intent extracts, and no other. */
  lemma {:induction false} QueriesMatchEntities(i: nat)
    requires i < |INTENTS|
    ensures var rule := INTENTS[i];
      && QueryOf(rule.name).Some?
      && QueryOf(rule.name).value.1 == (match rule.entityKind
                                        case AlertEntity => Some(AlertIdParameter)
                                        case ServiceEntity => Some(ServiceParameter)
                                        case NoEntity => None)
  {
    assert i == 0 || i == 1 || i == 2 || i == 3 || i == 4 || i == 5 || i == 6;
  }

  /** The intent is the earliest declared of those that score highest; a question
      is refused exactly when it is blank or nothing scores. */
  lemma {:induction false} ClassifiedByEarliestBest(question: string, b: nat)
    requires EarliestBest(Scores(question), b)
    ensures Classify(question).name == Unsupported
      <==> Blank(question) || forall i :: 0 <= i < |Scores(question)| ==> Scores(question)[i] == 0
    ensures Classify(question).name != Unsupported ==>
      && Classify(question).name == INTENTS[b].name
      && Classify(question).entity == Extract(INTENTS[b].entityKind, question)
  {
    hide Extract, Blank, Score;
    BestIsEarliest(Scores(question), b);
    assert Scores(question)[b] == Score(Lower(question))(INTENTS[b]);
    QueriesMatchEntities(b);
  }

  lemma {:induction false} NameFound(names: seq<string>, s: string, i: nat)
    ensures FirstNameAt(names, s, i).Some? ==>
      var name := FirstNameAt(names, s, i).value;
      name in names && WholeWord(s, i, |name|) && s[i..i + |name|] == name
    ensures FirstNameAt(names, s, i).None? ==>
      forall name :: name in names && WholeWord(s, i, |name|) ==> s[i..i + |name|] != name
  {
    if names != [] {
      assert forall name :: name in names <==> name == names[0] || name in names[1..];
      NameFound(names[1..], s, i);
    }
  }

  /** An entity is a whole word of the question, and the first that qualifies; it
      is missing exactly when no word does. */
  lemma {:induction false} EntityIsFirstWord(kind: EntityKind, question: string)
    requires kind != NoEntity
    ensures Extract(kind, question).Some? ==>
      && Extract(kind, question).value != ""
      && exists j: nat :: PatternOf(kind)(Lower(question), j) == Extract(kind, question)
                          && forall k: nat :: k < j ==> PatternOf(kind)(Lower(question), k).None?
    ensures Extract(kind, question).None? ==>
      forall k: nat :: k <= |question| ==> PatternOf(kind)(Lower(question), k).None?
  {
    hide PatternOf, Lower;
    var words := Lower(question);
    SearchIsLeftmost(PatternOf(kind), words, 0);
    if j: nat :| j <= |words| && PatternOf(kind)(words, j).Some?
                   && PatternOf(kind)(words, j) == Extract(kind, question) {
      MatchIsWord(kind, words, j);
    }
  }

  /** What matches at a place is there, between word boundaries, and is an alert's
      identifier or a service's name. */
  lemma {:induction false} MatchIsWord(kind: EntityKind, s: string, j: nat)
    requires kind != NoEntity && PatternOf(kind)(s, j).Some?
    ensures var word := PatternOf(kind)(s, j).value;
      && word != "" && WholeWord(s, j, |word|) && s[j..j + |word|] == word
      && if kind == AlertEntity then IdentifierIn(ALERT_PREFIX, word) else word in SERVICES
  {
    if kind == ServiceEntity {
      NameFound(SERVICES, s, j);
    }
  }

  /** What a query is given: its entity, under its own parameter. */
  function Binding(kind: EntityKind, entity: Option<string>): Option<map<Parameter, string>> {
    match kind
    case NoEntity => Some(map[])
    case AlertEntity => if entity.Some? then Some(map[AlertIdParameter := entity.value]) else None
    case ServiceEntity => if entity.Some? then Some(map[ServiceParameter := entity.value]) else None
  }

  /** A query is run exactly when some intent scores and the question names the
      entity that intent's query needs; it binds that entity and nothing else. */
  lemma {:induction false} QueryRunsIff(question: string, b: nat)
    requires EarliestBest(Scores(question), b)
    ensures var rule, built := INTENTS[b], BuildQuery(Classify(question));
      var bound := Binding(rule.entityKind, Extract(rule.entityKind, question));
      && (built.Ok? <==> !Blank(question) && Scores(question)[b] > 0 && bound.Some?)
      && (built.Ok? ==> built.value.1 == bound.value && rule.name != Unsupported
                        && built.value.0 == (match rule.name
                                             case AlertExplanation => ControlsForAlert
                                             case ResponseProcedure => ControlsForAlert
                                             case ServiceAlerts => AlertsForService
                                             case ThreatMitigation => ThreatsForService
                                             case UserLinkage => UsersHighSeverity
                                             case ImpactOfFailure => DependencyImpact
                                             case IncidentLinkage => IncidentsAndAlerts
                                             case Unsupported => built.value.0))
  {
    hide Extract, Blank, Scores, Classify, INTENTS;
    ClassifiedByEarliestBest(question, b);
    QueriesMatchEntities(b);
    if INTENTS[b].entityKind != NoEntity {
      EntityIsFirstWord(INTENTS[b].entityKind, question);
    }
  }

  /** Evidence is empty exactly when it says why. */
  lemma {:induction false} EmptyIffReason(question: string, answers: Call -> seq<Row>)
    ensures Retrieved(question, answers).nodes == [] <==> Retrieved(question, answers).reason != ""
  {
    hide ShapedRows, Extract, Blank, Scores, BestRule;
  }
}
