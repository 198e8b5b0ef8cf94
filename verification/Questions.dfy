/** What a question has to say to be taken for one intent or another, and to name an
    alert or a service. */
module Questions {
  import opened Wrappers
  import opened Sequences
  import opened Events
  import opened Intents
  import opened Retrieval

  // ------------------------------------------------------------------ what is said

  /** `typed` is `wanted`, or its capital. */
  ghost predicate AnyCase(typed: char, wanted: char) {
    typed == wanted || ('a' <= wanted <= 'z' && typed as int + 32 == wanted as int)
  }

  /** The text stands at `i` of the question, in letters of either case. */
  ghost predicate StandsAt(question: string, i: nat, text: string) {
    i + |text| <= |question| && forall k :: 0 <= k < |text| ==> AnyCase(question[i + k], text[k])
  }

  ghost predicate Says(question: string, phrase: string) {
    exists i: nat :: StandsAt(question, i, phrase)
  }

  ghost predicate Uncapitalised(text: string) {
    forall c :: c in text ==> !('A' <= c <= 'Z')
  }

  lemma {:induction false} StandsIffLower(question: string, i: nat, text: string)
    requires Uncapitalised(text) && i + |text| <= |question|
    ensures Lower(question)[i..i + |text|] == text <==> StandsAt(question, i, text)
  {
    var low := Lower(question);
    assert forall k :: 0 <= k < |text| ==> low[i..i + |text|][k] == LowerChar(question[i + k]) && text[k] in text;
    if StandsAt(question, i, text) {
      assert forall k :: 0 <= k < |text| ==> AnyCase(question[i + k], text[k]);
    }
  }

  lemma {:induction false} OccursIffSaid(question: string, phrase: string)
    requires Uncapitalised(phrase)
    ensures Occurs(phrase, Lower(question)) <==> Says(question, phrase)
  {
    hide Lower, StandsAt;
    var low := Lower(question);
    forall i: nat | i + |phrase| <= |question|
      ensures phrase <= low[i..] <==> StandsAt(question, i, phrase)
    {
      StandsIffLower(question, i, phrase);
      assert low[i..][..|phrase|] == low[i..i + |phrase|];
    }
    if i: nat :| StandsAt(question, i, phrase) {
      StandsWithin(question, i, phrase);
      assert phrase <= low[i..];
    }
  }

  lemma {:induction false} StandsWithin(question: string, i: nat, text: string)
    requires StandsAt(question, i, text)
    ensures i + |text| <= |question|
  {
  }

  // ---------------------------------------------------------------- what it counts for

  /** The phrases that count for each intent. */
  ghost function CountsFor(name: IntentName): set<string> {
    match name
    case AlertExplanation => {"why was", "why did", "what caused", "cause of", "explain", "raised"}
    case ResponseProcedure => {"what should be done", "what should i do", "how do i respond", "response procedure",
                               "runbook", "remediate", "respond to"}
    case ServiceAlerts => {"which alerts", "what alerts", "alerts for", "alerts affecting", "wrong with"}
    case ThreatMitigation => {"which threats", "what threats", "which techniques", "attack techniques", "exposed to",
                              "which controls", "what controls", "mitigate"}
    case UserLinkage => {"which users", "what users", "which accounts", "whose account", "failed logins",
                         "under attack"}
    case ImpactOfFailure => {"impact if", "if this service fails", "which services are affected", "what is affected",
                             "blast radius", "depends on", "goes down", "fails"}
    case IncidentLinkage => {"incidents", "which incidents", "what incidents", "incidents linked", "incident contain",
                             "security incident", "wider security incident", "wider incident"}
    case Unsupported => {}
  }

  /** How many of an intent's phrases a question says. */
  ghost function Points(question: string, name: IntentName): nat {
    |set phrase | phrase in CountsFor(name) && Says(question, phrase)|
  }

  /** The order in which ties are broken. */
  ghost function Turn(name: IntentName): nat {
    match name
    case AlertExplanation => 0
    case ResponseProcedure => 1
    case ServiceAlerts => 2
    case ThreatMitigation => 3
    case UserLinkage => 4
    case ImpactOfFailure => 5
    case IncidentLinkage => 6
    case Unsupported => 7
  }

  ghost predicate NoRepeats(xs: seq<string>) {
    forall i, j :: 0 <= i < j < |xs| ==> xs[i] != xs[j]
  }

  lemma {:induction false} DistinctCount(p: string -> bool, xs: seq<string>, kept: set<string>)
    requires NoRepeats(xs)
    requires forall x :: x in kept <==> x in xs && p(x)
    ensures |Filter(p, xs)| == |kept|
  {
    if xs == [] {
      assert kept == {};
    } else {
      var front, last := xs[..|xs| - 1], xs[|xs| - 1];
      assert xs == front + [last];
      assert forall i :: 0 <= i < |front| ==> front[i] == xs[i];
      assert last !in front;
      DistinctCount(p, front, kept - {last});
    }
  }

  lemma {:induction false} AlertExplanationPhrases()
    ensures INTENTS[0].name == AlertExplanation && NoRepeats(INTENTS[0].phrases)
    ensures forall phrase :: phrase in INTENTS[0].phrases <==> phrase in CountsFor(AlertExplanation)
  {
    hide Uncapitalised;
  }

  lemma {:induction false} AlertExplanationLower()
    ensures forall phrase :: phrase in INTENTS[0].phrases ==> Uncapitalised(phrase)
  {
  }

  lemma {:induction false} ResponseProcedurePhrases()
    ensures INTENTS[1].name == ResponseProcedure && NoRepeats(INTENTS[1].phrases)
    ensures forall phrase :: phrase in INTENTS[1].phrases <==> phrase in CountsFor(ResponseProcedure)
  {
    hide Uncapitalised;
  }

  lemma {:induction false} ResponseProcedureLower()
    ensures forall phrase :: phrase in INTENTS[1].phrases ==> Uncapitalised(phrase)
  {
  }

  lemma {:induction false} ServiceAlertsPhrases()
    ensures INTENTS[2].name == ServiceAlerts && NoRepeats(INTENTS[2].phrases)
    ensures forall phrase :: phrase in INTENTS[2].phrases <==> phrase in CountsFor(ServiceAlerts)
  {
    hide Uncapitalised;
  }

  lemma {:induction false} ServiceAlertsLower()
    ensures forall phrase :: phrase in INTENTS[2].phrases ==> Uncapitalised(phrase)
  {
  }

  lemma {:induction false} ThreatMitigationPhrases()
    ensures INTENTS[3].name == ThreatMitigation && NoRepeats(INTENTS[3].phrases)
    ensures forall phrase :: phrase in INTENTS[3].phrases <==> phrase in CountsFor(ThreatMitigation)
  {
    hide Uncapitalised;
  }

  lemma {:induction false} ThreatMitigationLower()
    ensures forall phrase :: phrase in INTENTS[3].phrases ==> Uncapitalised(phrase)
  {
  }

  lemma {:induction false} UserLinkagePhrases()
    ensures INTENTS[4].name == UserLinkage && NoRepeats(INTENTS[4].phrases)
    ensures forall phrase :: phrase in INTENTS[4].phrases <==> phrase in CountsFor(UserLinkage)
  {
    hide Uncapitalised;
  }

  lemma {:induction false} UserLinkageLower()
    ensures forall phrase :: phrase in INTENTS[4].phrases ==> Uncapitalised(phrase)
  {
  }

  lemma {:induction false} ImpactOfFailurePhrases()
    ensures INTENTS[5].name == ImpactOfFailure && NoRepeats(INTENTS[5].phrases)
    ensures forall phrase :: phrase in INTENTS[5].phrases <==> phrase in CountsFor(ImpactOfFailure)
  {
    hide Uncapitalised;
  }

  lemma {:induction false} ImpactOfFailureLower()
    ensures forall phrase :: phrase in INTENTS[5].phrases ==> Uncapitalised(phrase)
  {
  }

  lemma {:induction false} IncidentLinkagePhrases()
    ensures INTENTS[6].name == IncidentLinkage && NoRepeats(INTENTS[6].phrases)
    ensures forall phrase :: phrase in INTENTS[6].phrases <==> phrase in CountsFor(IncidentLinkage)
  {
    hide Uncapitalised;
  }

  lemma {:induction false} IncidentLinkageLower()
    ensures forall phrase :: phrase in INTENTS[6].phrases ==> Uncapitalised(phrase)
  {
  }

  lemma {:induction false} PhrasesOf(i: nat)
    requires i < |INTENTS|
    ensures NoRepeats(INTENTS[i].phrases)
    ensures forall phrase :: phrase in INTENTS[i].phrases <==> phrase in CountsFor(INTENTS[i].name)
    ensures forall phrase :: phrase in INTENTS[i].phrases ==> Uncapitalised(phrase)
    ensures Turn(INTENTS[i].name) == i
  {
    hide NoRepeats, CountsFor, Uncapitalised;
    match i
    case 0 =>
      AlertExplanationPhrases();
      AlertExplanationLower();
    case 1 =>
      ResponseProcedurePhrases();
      ResponseProcedureLower();
    case 2 =>
      ServiceAlertsPhrases();
      ServiceAlertsLower();
    case 3 =>
      ThreatMitigationPhrases();
      ThreatMitigationLower();
    case 4 =>
      UserLinkagePhrases();
      UserLinkageLower();
    case 5 =>
      ImpactOfFailurePhrases();
      ImpactOfFailureLower();
    case 6 =>
      IncidentLinkagePhrases();
      IncidentLinkageLower();
  }

  lemma {:induction false} ScoresArePoints(question: string, i: nat)
    requires i < |INTENTS|
    ensures Scores(question)[i] == Points(question, INTENTS[i].name)
  {
    hide CountsFor, Uncapitalised, NoRepeats, Says, Occurs, Lower, Filter, INTENTS;
    PhrasesOf(i);
    var phrases := INTENTS[i].phrases;
    var said := set phrase | phrase in CountsFor(INTENTS[i].name) && Says(question, phrase);
    forall phrase | phrase in phrases
      ensures Occurs(phrase, Lower(question)) <==> Says(question, phrase)
    {
      OccursIffSaid(question, phrase);
    }
    DistinctCount(OccursIn(Lower(question)), phrases, said);
  }

  lemma {:induction false} InTurn(name: IntentName)
    requires name != Unsupported
    ensures Turn(name) < |INTENTS| && INTENTS[Turn(name)].name == name
  {
  }

  /** A question is taken for an intent exactly when it is not blank, says some of the
      intent's phrases, and says fewer of every other's, or as many of one that is later
      in turn. */
  lemma {:induction false} ClassifiedIff(question: string, name: IntentName)
    requires name != Unsupported
    ensures Classify(question).name == name
      <==> !Blank(question) && Points(question, name) > 0
           && forall other :: Points(question, other) < Points(question, name)
                              || (Points(question, other) == Points(question, name) && Turn(name) <= Turn(other))
  {
    hide Classify, Scores, Points, Turn, Blank, INTENTS;
    InTurn(name);
    var b, t := BestIndex(Scores(question)), Turn(name);
    BestIsEarliest(Scores(question), b);
    ClassifiedByEarliestBest(question, b);
    ScoresArePoints(question, t);
    ScoresArePoints(question, b);
    PhrasesOf(b);
    forall other
      ensures other != Unsupported ==>
        Turn(other) < |INTENTS| && Scores(question)[Turn(other)] == Points(question, other)
      ensures other == Unsupported ==> Points(question, other) == 0
    {
      if other != Unsupported {
        InTurn(other);
        ScoresArePoints(question, Turn(other));
      } else {
        NoPoints(question);
      }
    }
  }

  lemma {:induction false} NoPoints(question: string)
    ensures Points(question, Unsupported) == 0
  {
  }

  // ------------------------------------------------------------------- what it names

  /** Part of a word: a letter, a digit or an underscore. */
  ghost predicate Wordy(c: char) {
    'a' <= c <= 'z' || 'A' <= c <= 'Z' || '0' <= c <= '9' || c == '_'
  }

  /** No word runs on into the `n` characters at `i`, or out of them. */
  ghost predicate ApartAt(question: string, i: nat, n: nat)
    requires i + n <= |question|
  {
    (i == 0 || !Wordy(question[i - 1])) && (i + n == |question| || !Wordy(question[i + n]))
  }

  ghost predicate IsAlertId(text: string) {
    && |text| == 16 && text[..4] == "alt-"
    && forall k :: 4 <= k < 16 ==> '0' <= text[k] <= '9' || 'a' <= text[k] <= 'f'
  }

  ghost predicate IsServiceName(text: string) {
    text in {"auth-service", "incident-service", "asset-service", "alert-service", "graph-service"}
  }

  ghost predicate NamesAt(kind: EntityKind, question: string, i: nat, text: string) {
    && StandsAt(question, i, text) && ApartAt(question, i, |text|)
    && match kind
       case AlertEntity => IsAlertId(text)
       case ServiceEntity => IsServiceName(text)
       case NoEntity => false
  }

  lemma {:induction false} WordyIff(c: char)
    ensures Wordy(c) <==> WordChar(LowerChar(c))
  {
  }

  lemma {:induction false} ApartIff(question: string, i: nat, n: nat)
    requires i + n <= |question|
    ensures ApartAt(question, i, n) <==> WholeWord(Lower(question), i, n)
  {
    hide Wordy, WordChar, LowerChar;
    if i > 0 {
      WordyIff(question[i - 1]);
    }
    if i + n < |question| {
      WordyIff(question[i + n]);
    }
  }

  lemma {:induction false} AlertIdsAreLower(text: string)
    requires IsAlertId(text)
    ensures Uncapitalised(text)
  {
    assert text == "alt-" + text[4..];
  }

  lemma {:induction false} ServiceNamesAreLower(text: string)
    requires IsServiceName(text)
    ensures Uncapitalised(text)
  {
  }

  /** Two service names that start alike are one. */
  lemma {:induction false} ServiceNamesDiffer(a: string, b: string)
    requires IsServiceName(a) && IsServiceName(b) && a[..2] == b[..2]
    ensures a == b
  {
    assert a[0] == a[..2][0] == b[0] && a[1] == a[..2][1] == b[1];
  }

  lemma {:induction false} ServicesListed(text: string)
    ensures text in SERVICES <==> IsServiceName(text)
  {
  }

  lemma {:induction false} AlertMatchIff(question: string, i: nat, text: string)
    requires i <= |question|
    ensures AlertIdAt()(Lower(question), i) == Some(text) <==> NamesAt(AlertEntity, question, i, text)
  {
    hide Lower, WholeWord, ApartAt, StandsAt, Uncapitalised;
    var low := Lower(question);
    if i + 16 <= |question| {
      ApartIff(question, i, 16);
      AlertIdIff(low[i..i + 16]);
      if IsAlertId(text) {
        AlertIdsAreLower(text);
        StandsIffLower(question, i, text);
      }
    } else {
      Short(low, question, i);
    }
  }

  lemma {:induction false} Short(low: string, question: string, i: nat)
    requires |low| == |question| && i + 16 > |question|
    ensures !WholeWord(low, i, 16)
    ensures forall text: string :: |text| == 16 ==> !StandsAt(question, i, text)
  {
  }

  lemma {:induction false} AlertIdIff(text: string)
    requires |text| == 16
    ensures IdentifierIn(ALERT_PREFIX, text) <==> IsAlertId(text)
  {
    assert forall k :: 4 <= k < 16 ==> text[k] == text[4..][k - 4] && text[k] in text[4..];
    assert "alt-" <= text <==> text[..4] == "alt-";
  }

  lemma {:induction false} ServiceMatchIff(question: string, i: nat, text: string)
    requires i <= |question|
    ensures ServiceAt()(Lower(question), i) == Some(text) <==> NamesAt(ServiceEntity, question, i, text)
  {
    hide Lower, WordChar, ApartAt, StandsAt, Uncapitalised, IsServiceName, SERVICES;
    var low := Lower(question);
    NameFound(SERVICES, low, i);
    forall name | name in SERVICES
      ensures WholeWord(low, i, |name|) && low[i..i + |name|] == name <==> NamesAt(ServiceEntity, question, i, name)
    {
      NamedIff(question, i, name);
    }
    ServicesListed(text);
    if FirstNameAt(SERVICES, low, i).Some? {
      var name := FirstNameAt(SERVICES, low, i).value;
      ServicesListed(name);
      if NamesAt(ServiceEntity, question, i, text) {
        OneNameThere(low, question, i, name, text);
      }
    }
  }

  lemma {:induction false} NamedIff(question: string, i: nat, name: string)
    requires i <= |question| && name in SERVICES
    ensures WholeWord(Lower(question), i, |name|) && Lower(question)[i..i + |name|] == name
      <==> NamesAt(ServiceEntity, question, i, name)
  {
    hide Lower, ApartAt, Uncapitalised, IsServiceName, SERVICES;
    ServicesListed(name);
    ServiceNamesAreLower(name);
    if i + |name| <= |question| {
      ApartIff(question, i, |name|);
      StandsIffLower(question, i, name);
    }
  }

  lemma {:induction false} OneNameThere(low: string, question: string, i: nat, a: string, b: string)
    requires low == Lower(question) && NamesAt(ServiceEntity, question, i, b) && IsServiceName(a)
    requires i + |a| <= |question| && low[i..i + |a|] == a
    ensures a == b
  {
    hide Lower, ApartAt, Uncapitalised, IsServiceName;
    ServiceNamesAreLower(b);
    StandsIffLower(question, i, b);
    TwoLetters(a);
    TwoLetters(b);
    assert a[..2] == low[i..i + 2] == b[..2];
    ServiceNamesDiffer(a, b);
  }

  lemma {:induction false} TwoLetters(name: string)
    requires IsServiceName(name)
    ensures |name| >= 2
  {
  }

  lemma {:induction false} MatchIff(kind: EntityKind, question: string, i: nat, text: string)
    requires i <= |question| && kind != NoEntity
    ensures PatternOf(kind)(Lower(question), i) == Some(text) <==> NamesAt(kind, question, i, text)
  {
    hide Lower, NamesAt, AlertIdAt, ServiceAt;
    if kind == AlertEntity {
      AlertMatchIff(question, i, text);
    } else {
      ServiceMatchIff(question, i, text);
    }
  }

  /** The entity read out of a question is the first it names: an alert's identifier, or
      one of five services, in letters of either case and apart from other words. */
  lemma {:induction false} EntityIff(kind: EntityKind, question: string, text: string)
    requires kind != NoEntity
    ensures Extract(kind, question) == Some(text)
      <==> exists i: nat :: (NamesAt(kind, question, i, text)
                             && forall k: nat, other :: k < i ==> !NamesAt(kind, question, k, other))
  {
    hide PatternOf, Lower, NamesAt, Extract;
    var low := Lower(question);
    EntityIsFirstWord(kind, question);
    forall i: nat, other
      ensures PatternOf(kind)(low, i) == Some(other) <==> NamesAt(kind, question, i, other)
    {
      MatchAnywhereIff(kind, question, i, other);
    }
    if i: nat :| NamesAt(kind, question, i, text)
                 && forall k: nat, other :: k < i ==> !NamesAt(kind, question, k, other) {
      NamedWithin(kind, question, i, text);
      var j: nat :| PatternOf(kind)(low, j) == Extract(kind, question)
                    && forall k: nat :: k < j ==> PatternOf(kind)(low, k).None?;
      assert PatternOf(kind)(low, i) == Some(text);
      assert NamesAt(kind, question, j, Extract(kind, question).value);
    }
    if Extract(kind, question) == Some(text) {
      var j: nat :| PatternOf(kind)(low, j) == Some(text)
                    && forall k: nat :: k < j ==> PatternOf(kind)(low, k).None?;
      assert NamesAt(kind, question, j, text);
    }
  }

  lemma {:induction false} MatchAnywhereIff(kind: EntityKind, question: string, i: nat, text: string)
    requires kind != NoEntity
    ensures PatternOf(kind)(Lower(question), i) == Some(text) <==> NamesAt(kind, question, i, text)
  {
    hide PatternOf, Lower, NamesAt;
    if i <= |question| {
      MatchIff(kind, question, i, text);
    } else {
      if PatternOf(kind)(Lower(question), i).Some? {
        MatchIsWord(kind, Lower(question), i);
      }
      if NamesAt(kind, question, i, text) {
        NamedWithin(kind, question, i, text);
      }
    }
  }

  lemma {:induction false} NamedWithin(kind: EntityKind, question: string, i: nat, text: string)
    requires NamesAt(kind, question, i, text)
    ensures i <= |question|
  {
  }

  // ------------------------------------------------------------------ what it runs

  /** The query with the entity the question names, or the refusal of one that names none. */
  ghost function Asking(key: QueryKey, parameter: Parameter, entity: Option<string>):
    Result<(QueryKey, map<Parameter, string>), string>
  {
    if entity.Some? then Ok((key, map[parameter := entity.value])) else Err("the question names no entity")
  }

  /** What each intent runs: about one alert, about one service, or about everything;
      never with another entity's parameter. */
  lemma {:induction false} QueryOfIntent(question: string)
    ensures var alertId, service := Extract(AlertEntity, question), Extract(ServiceEntity, question);
      BuildQuery(Classify(question))
      == match Classify(question).name
         case AlertExplanation => Asking(ControlsForAlert, AlertIdParameter, alertId)
         case ResponseProcedure => Asking(ControlsForAlert, AlertIdParameter, alertId)
         case ServiceAlerts => Asking(AlertsForService, ServiceParameter, service)
         case ThreatMitigation => Asking(ThreatsForService, ServiceParameter, service)
         case UserLinkage => Ok((UsersHighSeverity, map[]))
         case ImpactOfFailure => Asking(DependencyImpact, ServiceParameter, service)
         case IncidentLinkage => Ok((IncidentsAndAlerts, map[]))
         case Unsupported =>
           Err(if Blank(question) then "the question was empty" else "no supported question type matched")
  {
    hide Extract, Blank, Scores, Classify, Score;
    var b := BestIndex(Scores(question));
    BestIsEarliest(Scores(question), b);
    ClassifiedByEarliestBest(question, b);
    RefusedFor(question);
    if Classify(question).name != Unsupported {
      EntityOfRule(b);
      Named(AlertEntity, question);
      Named(ServiceEntity, question);
    }
  }

  lemma {:induction false} RefusedFor(question: string)
    ensures Classify(question).name == Unsupported ==>
      Classify(question).reason
      == if Blank(question) then "the question was empty" else "no supported question type matched"
  {
    hide Extract, Blank, Scores, Score, Filter, BestRule;
    if !Blank(question) {
      RulesAreSupported(question);
    }
  }

  lemma {:induction false} RulesAreSupported(question: string)
    ensures BestRule(question).name != Unsupported
  {
    hide Scores;
    QueriesMatchEntities(BestIndex(Scores(question)));
  }

  lemma {:induction false} EntityOfRule(i: nat)
    requires i < |INTENTS|
    ensures INTENTS[i].entityKind
      == match INTENTS[i].name
         case AlertExplanation => AlertEntity
         case ResponseProcedure => AlertEntity
         case UserLinkage => NoEntity
         case IncidentLinkage => NoEntity
         case _ => ServiceEntity
  {
  }

  lemma {:induction false} Named(kind: EntityKind, question: string)
    requires kind != NoEntity
    ensures Extract(kind, question).Some? ==> Extract(kind, question).value != ""
  {
    hide Extract;
    EntityIsFirstWord(kind, question);
  }
}
