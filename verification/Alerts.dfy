/** The alert schema, and the in-process store the alert API serves from. */
module Alerts {
  import opened Wrappers
  import opened Sequences
  import opened Strings
  import opened Events

  datatype Status = Open | Acknowledged | Closed {
    function Name(): string {
      match this
      case Open => "OPEN"
      case Acknowledged => "ACKNOWLEDGED"
      case Closed => "CLOSED"
    }
  }

  /** The catalogue's four rules, in the order of `all_rules`. A rule stands for
      its fixed name and its fixed recommended action, neither of them blank. */
  datatype Rule = MultipleFailedLoginsRule | UnauthorisedAccessRule | AbnormalRequestRateRule | ServiceFailureRule {
    function DefaultSeverity(): Severity {
      if UnauthorisedAccessRule? then Medium else High
    }
  }

  const ALL_RULES: seq<Rule> :=
    [MultipleFailedLoginsRule, UnauthorisedAccessRule, AbnormalRequestRateRule, ServiceFailureRule]

  /** What a rule's one-sentence description interpolates; the wording around
      these values is fixed per rule and never blank. */
  datatype Description =
    | FailedLoginsForUser(count: nat, user: string, addresses: nat)
    | FailedLoginsFromAddress(count: nat, address: string, usernames: nat)
    | UnauthorisedRequests(count: nat, subject: string, endpoints: nat, privileged: seq<string>)
    | AbnormalRate(source: string, refused: Option<nat>, received: Option<nat>, services: seq<string>)
    | ServiceFailing(service: string, breakerOpened: bool, healthFailed: bool, errors: nat, recovered: bool)

  datatype Alert = Alert(
    alertId: string,
    timestamp: string,
    rule: Rule,
    severity: Severity,
    status: Status,
    description: Description,
    relatedEvents: seq<string>,
    affectedService: Option<string>,
    affectedUser: Option<string>,
    affectedEntity: Option<string>)

  /** The validators; the identifier's own is not run on the minted default. */
  predicate ValidAlert(a: Alert) {
    a.relatedEvents != [] && !Blank(a.timestamp)
  }

  /** The process's supply of fresh `alt-` identifiers. */
  class FreshIds {
    const supply: nat -> string
    var drawn: nat

    constructor (supply: nat -> string)
      ensures this.supply == supply && drawn == 0
    {
      this.supply := supply;
      drawn := 0;
    }

    method Next() returns (id: string)
      modifies this
      ensures id == supply(old(drawn)) && drawn == old(drawn) + 1
    {
      id := supply(drawn);
      drawn := drawn + 1;
    }
  }

  // ------------------------------------------------------------ alert store

  /** Newest first by timestamp, ties by identifier, both descending. */
  function NewestFirst(): (Alert, Alert) -> bool {
    (a: Alert, b: Alert) =>
      if a.timestamp == b.timestamp then Leq(b.alertId, a.alertId) else Leq(b.timestamp, a.timestamp)
  }

  datatype Filters = Filters(severity: Option<Severity>, affectedService: Option<string>, status: Option<Status>) {
    predicate Admits(a: Alert) {
      && (severity.Some? ==> a.severity == severity.value)
      && (affectedService.Some? ==> a.affectedService == affectedService)
      && (status.Some? ==> a.status == status.value)
    }
  }

  const EVERYTHING := Filters(None, None, None)

  /** Each key is the identifier of the alert it holds. */
  predicate KeyedById(alerts: map<string, Alert>) {
    forall k :: k in alerts ==> alerts[k].alertId == k
  }

  /** `a` is later than `b`, or of the same moment with the greater identifier. */
  ghost predicate Precedes(a: Alert, b: Alert) {
    && Leq(b.timestamp, a.timestamp)
    && (a.timestamp == b.timestamp ==> Leq(b.alertId, a.alertId))
    && a.alertId != b.alertId
  }

  /** Strictly newest first: by timestamp, then by identifier, no two alike. */
  ghost predicate StrictlyNewestFirst(xs: seq<Alert>) {
    forall i, j :: 0 <= i < j < |xs| ==> Precedes(xs[i], xs[j])
  }

  /** `a` has whatever severity, service and status are asked for. */
  ghost predicate Matches(a: Alert, filters: Filters) {
    && filters.severity in {None, Some(a.severity)}
    && (filters.affectedService == None || filters.affectedService == a.affectedService)
    && filters.status in {None, Some(a.status)}
  }

  ghost predicate DistinctIds(xs: seq<Alert>) {
    forall i, j :: 0 <= i < j < |xs| ==> xs[i].alertId != xs[j].alertId
  }

  /** What a listing must be, whatever order the dict is walked in: every alert
      the filters admit, once, strictly newest first. */
  ghost predicate IsListing(xs: seq<Alert>, alerts: map<string, Alert>, filters: Filters) {
    && StrictlyNewestFirst(xs)
    && forall a :: a in xs <==> exists k :: k in alerts && alerts[k] == a && Matches(a, filters)
  }

  /** `_alerts[alert.alert_id] = alert` for each alert in turn. */
  function AddAll(alerts: map<string, Alert>, more: seq<Alert>): map<string, Alert> {
    if more == [] then alerts
    else
      var last := more[|more| - 1];
      AddAll(alerts, more[..|more| - 1])[last.alertId := last]
  }

  class AlertStore {
    var alerts: map<string, Alert>

    constructor ()
      ensures alerts == map[]
    {
      alerts := map[];
    }

    method Add(alert: Alert) returns (added: Alert)
      modifies this
      ensures alerts == old(alerts)[alert.alertId := alert] && added == alert
    {
      alerts := alerts[alert.alertId := alert];
      added := alert;
    }

    /** The number returned counts new keys, not the alerts handed in. */
    method Extend(more: seq<Alert>) returns (added: int)
      modifies this
      ensures alerts == AddAll(old(alerts), more)
      ensures added == |alerts.Keys - old(alerts).Keys|
    {
      var before := |alerts|;
      ghost var held := alerts;
      for i := 0 to |more|
        invariant alerts == AddAll(held, more[..i])
        invariant held.Keys <= alerts.Keys
      {
        assert more[..i + 1][..i] == more[..i];
        alerts := alerts[more[i].alertId := more[i]];
      }
      assert more[..|more|] == more;
      added := |alerts| - before;
      assert alerts.Keys == held.Keys + (alerts.Keys - held.Keys);
      assert |alerts| == |alerts.Keys| && |held| == |held.Keys|;
    }

    method Clear()
      modifies this
      ensures alerts == map[]
    {
      alerts := map[];
    }

    /** `None` is the NotFoundError. */
    function Get(alertId: string): Option<Alert>
      reads this
    {
      if alertId in alerts then Some(alerts[alertId]) else None
    }

    method SetStatus(alertId: string, status: Status) returns (updated: Option<Alert>)
      modifies this
      ensures alertId !in old(alerts) ==> updated == None && alerts == old(alerts)
      ensures alertId in old(alerts) ==>
        updated == Some(old(alerts)[alertId].(status := status)) && alerts == old(alerts)[alertId := updated.value]
    {
      var current := Get(alertId);
      if current.None? {
        return None;
      }
      updated := Some(current.value.(status := status));
      alerts := alerts[alertId := updated.value];
    }

    /** The listing walks the dict in whatever order it comes. */
    method List(filters: Filters) returns (listing: seq<Alert>)
      requires KeyedById(alerts)
      ensures IsListing(listing, alerts, filters)
    {
      var selected: seq<Alert> := [];
      var walked: set<string> := {};
      while walked != alerts.Keys
        invariant walked <= alerts.Keys
        invariant DistinctIds(selected)
        invariant forall a :: a in selected <==>
                    exists k :: k in walked && k in alerts && alerts[k] == a && filters.Admits(a)
        decreases alerts.Keys - walked
      {
        Unwalked(alerts.Keys, walked);
        var k :| k in alerts.Keys && k !in walked;
        if filters.Admits(alerts[k]) {
          forall a | a in selected
            ensures a.alertId != k
          {
          }
          selected := selected + [alerts[k]];
        }
        walked := walked + {k};
      }
      listing := Sort(NewestFirst(), selected);
      SortedListing(selected, alerts, filters);
    }
  }

  function Holding(alerts: map<string, Alert>): string -> seq<Alert> {
    (k: string) => if k in alerts then [alerts[k]] else []
  }

  function Admitting(filters: Filters): Alert -> bool {
    (a: Alert) => filters.Admits(a)
  }

  /** The listing as a function of the contents. */
  function Listing(alerts: map<string, Alert>, filters: Filters): seq<Alert> {
    Sort(NewestFirst(), Filter(Admitting(filters), FlatMap(Holding(alerts), SortedKeys(alerts.Keys))))
  }

  // --------------------------------------------------------------- theorems

  lemma {:induction false} HeldDistinct(alerts: map<string, Alert>, keys: seq<string>)
    requires KeyedById(alerts) && StrictlyAscending(keys) && forall k :: k in keys ==> k in alerts
    ensures var held := FlatMap(Holding(alerts), keys);
      && |held| == |keys| && forall i :: 0 <= i < |keys| ==> held[i] == alerts[keys[i]]
  {
    if keys != [] {
      HeldDistinct(alerts, keys[..|keys| - 1]);
    }
  }

  lemma {:induction false} FilterDistinct(p: Alert -> bool, xs: seq<Alert>)
    requires DistinctIds(xs)
    ensures DistinctIds(Filter(p, xs))
  {
    if xs != [] {
      var front, last := xs[..|xs| - 1], xs[|xs| - 1];
      FilterDistinct(p, front);
      FilterIn(p, front);
      var kept := Filter(p, front);
      forall i | 0 <= i < |kept|
        ensures kept[i].alertId != last.alertId
      {
        assert kept[i] in front;
        var j :| 0 <= j < |front| && front[j] == kept[i];
        assert xs[j] == front[j];
      }
      assert xs == front + [last];
      FilterSnoc(p, front, last);
    }
  }

  /** The function returns a listing, hence the only one. */
  lemma {:induction false} ListingIsListing(alerts: map<string, Alert>, filters: Filters)
    requires KeyedById(alerts)
    ensures IsListing(Listing(alerts, filters), alerts, filters)
  {
    hide Filter, FlatMap, Sort, NewestFirst, SortedKeys;
    var keys := SortedKeys(alerts.Keys);
    var held := FlatMap(Holding(alerts), keys);
    HeldDistinct(alerts, keys);
    FilterDistinct(Admitting(filters), held);
    FilterIn(Admitting(filters), held);
    var selected := Filter(Admitting(filters), held);
    forall a
      ensures a in selected <==> exists k :: k in alerts && alerts[k] == a && filters.Admits(a)
    {
      if k :| k in alerts && alerts[k] == a && filters.Admits(a) {
        assert k in keys;
        var i :| 0 <= i < |keys| && keys[i] == k;
        assert held[i] == a;
      }
      if a in selected {
        assert a in held;
        var i :| 0 <= i < |held| && held[i] == a;
        assert keys[i] in alerts;
      }
    }
    SortedListing(selected, alerts, filters);
  }

  lemma {:induction false} NewestFirstIsTotal()
    ensures TotalPreorder(NewestFirst())
  {
    forall a, b
      ensures NewestFirst()(a, b) || NewestFirst()(b, a)
    {
      LeqTotal(a.alertId, b.alertId);
      LeqTotal(a.timestamp, b.timestamp);
    }
    forall a, b, c | NewestFirst()(a, b) && NewestFirst()(b, c)
      ensures NewestFirst()(a, c)
    {
      if a.timestamp == b.timestamp == c.timestamp {
        LeqTransitive(c.alertId, b.alertId, a.alertId);
      } else {
        LeqTotal(a.timestamp, a.timestamp);
        LeqTotal(c.timestamp, c.timestamp);
        LeqTransitive(c.timestamp, b.timestamp, a.timestamp);
        if a.timestamp == c.timestamp {
          LeqAntisymmetric(a.timestamp, b.timestamp);
        }
      }
    }
  }

  lemma {:induction false} Unwalked(keys: set<string>, walked: set<string>)
    requires walked <= keys && walked != keys
    ensures exists k :: k in keys && k !in walked
  {
  }

  lemma {:induction false} SortedListing(selected: seq<Alert>, alerts: map<string, Alert>, filters: Filters)
    requires DistinctIds(selected)
    requires forall a :: a in selected <==> exists k :: k in alerts && alerts[k] == a && filters.Admits(a)
    ensures IsListing(Sort(NewestFirst(), selected), alerts, filters)
  {
    var xs := Sort(NewestFirst(), selected);
    hide Sort, Leq, Filters.Admits, Matches;
    NewestFirstIsTotal();
    SortSorts(NewestFirst(), selected);
    DistinctKept(selected, xs);
    forall i, j | 0 <= i < j < |xs|
      ensures Precedes(xs[i], xs[j])
    {
      assert NewestFirst()(xs[i], xs[j]);
      LeqTotal(xs[i].timestamp, xs[i].timestamp);
    }
    forall a
      ensures a in xs <==> a in selected
      ensures filters.Admits(a) <==> Matches(a, filters)
    {
      AdmitsIff(a, filters);
    }
  }

  lemma {:induction false} AdmitsIff(a: Alert, filters: Filters)
    ensures filters.Admits(a) <==> Matches(a, filters)
  {
  }

  /** A permutation of alerts with distinct identifiers has distinct identifiers. */
  lemma {:induction false} DistinctKept(xs: seq<Alert>, ys: seq<Alert>)
    requires multiset(xs) == multiset(ys)
    requires DistinctIds(xs)
    ensures DistinctIds(ys)
  {
    forall i, j | 0 <= i < j < |ys|
      ensures ys[i].alertId != ys[j].alertId
    {
      assert ys[i] in multiset(xs) && ys[j] in multiset(xs);
      assert ys[i] in xs && ys[j] in xs;
      if ys[i] == ys[j] {
        TwiceIn(ys, i, j);
        OnceIn(xs, ys[i]);
      }
    }
  }

  lemma {:induction false} TwiceIn(ys: seq<Alert>, i: nat, j: nat)
    requires i < j < |ys| && ys[i] == ys[j]
    ensures multiset(ys)[ys[i]] >= 2
  {
    assert ys == ys[..j] + ys[j..];
    assert ys[i] in ys[..j] && ys[j] in ys[j..];
    assert multiset(ys) == multiset(ys[..j]) + multiset(ys[j..]);
  }

  lemma {:induction false} OnceIn(xs: seq<Alert>, a: Alert)
    requires DistinctIds(xs)
    ensures multiset(xs)[a] <= 1
  {
    if xs != [] {
      var front, last := xs[..|xs| - 1], xs[|xs| - 1];
      assert xs == front + [last];
      OnceIn(front, a);
      if last == a {
        assert a !in front;
      }
    }
  }

  /** The listing is determined by the contents alone. */
  lemma {:induction false} ListingUnique(xs: seq<Alert>, ys: seq<Alert>, alerts: map<string, Alert>, filters: Filters)
    requires IsListing(xs, alerts, filters) && IsListing(ys, alerts, filters)
    ensures xs == ys
  {
    SameMembers(xs, ys);
  }

  lemma {:induction false} SameMembers(xs: seq<Alert>, ys: seq<Alert>)
    requires StrictlyNewestFirst(xs) && StrictlyNewestFirst(ys)
    requires forall a :: a in xs <==> a in ys
    ensures xs == ys
  {
    if xs == [] || ys == [] {
      if xs != [] {
        HasAlert(xs);
      } else if ys != [] {
        HasAlert(ys);
      }
    } else {
      SameFirst(xs, ys);
      var x := xs[0];
      assert xs == [x] + xs[1..] && ys == [x] + ys[1..];
      forall a
        ensures a in xs[1..] <==> a in ys[1..]
      {
        assert a in xs[1..] <==> a in xs && a != x;
        assert a in ys[1..] <==> a in ys && a != x;
      }
      SameMembers(xs[1..], ys[1..]);
    }
  }

  lemma {:induction false} HasAlert(xs: seq<Alert>)
    requires xs != []
    ensures exists a :: a in xs
  {
    assert xs[0] in xs;
  }

  lemma {:induction false} SameFirst(xs: seq<Alert>, ys: seq<Alert>)
    requires StrictlyNewestFirst(xs) && StrictlyNewestFirst(ys)
    requires xs != [] && ys != []
    requires forall a :: a in xs <==> a in ys
    ensures xs[0] == ys[0]
  {
    assert xs[0] in ys && ys[0] in xs;
    var i :| 0 <= i < |ys| && ys[i] == xs[0];
    var j :| 0 <= j < |xs| && xs[j] == ys[0];
    if i != 0 && j != 0 {
      NeverBothWays(xs[0], ys[0]);
    }
  }

  lemma {:induction false} NeverBothWays(a: Alert, b: Alert)
    requires Precedes(a, b)
    ensures !Precedes(b, a)
  {
    if Precedes(b, a) {
      LeqAntisymmetric(a.timestamp, b.timestamp);
      LeqAntisymmetric(a.alertId, b.alertId);
    }
  }

  /** Changing a status changes that one field and moves nothing. */
  lemma {:induction false} SetStatusKeepsPositions(alerts: map<string, Alert>, id: string, status: Status,
                                                   xs: seq<Alert>, i: nat)
    requires KeyedById(alerts) && id in alerts
    requires IsListing(xs, alerts, EVERYTHING)
    requires i < |xs| && xs[i].alertId == id
    ensures IsListing(xs[i := xs[i].(status := status)], alerts[id := alerts[id].(status := status)], EVERYTHING)
  {
    var changed := alerts[id].(status := status);
    var ys, after := xs[i := xs[i].(status := status)], alerts[id := changed];
    assert xs[i] in xs;
    assert xs[i] == alerts[id];
    forall a
      ensures a in ys <==> exists k :: k in after && after[k] == a && EVERYTHING.Admits(a)
    {
      if a in ys {
        var j :| 0 <= j < |ys| && ys[j] == a;
        assert xs[j] in xs;
        assert after[a.alertId] == a;
      }
      if k :| k in after && after[k] == a {
        assert k != id ==> alerts[k] in xs;
        assert k == id ==> ys[i] == a;
        if k != id {
          var j :| 0 <= j < |xs| && xs[j] == a;
          assert ys[j] == a;
        }
      }
    }
  }

  // ---------------------------------------------------------- runs of the store

  datatype Operation =
    | AddOne(alert: Alert)
    | AddMany(more: seq<Alert>)
    | ChangeStatus(id: string, status: Status)
    | DropAll

  /** What one operation leaves behind; the methods above promise the same. */
  function Apply(alerts: map<string, Alert>, op: Operation): map<string, Alert> {
    match op
    case AddOne(a) => alerts[a.alertId := a]
    case AddMany(more) => AddAll(alerts, more)
    case ChangeStatus(id, status) => if id in alerts then alerts[id := alerts[id].(status := status)] else alerts
    case DropAll => map[]
  }

  function ApplyAll(alerts: map<string, Alert>, ops: seq<Operation>): map<string, Alert> {
    if ops == [] then alerts else Apply(ApplyAll(alerts, ops[..|ops| - 1]), ops[|ops| - 1])
  }

  lemma {:induction false} AddAllKeyed(alerts: map<string, Alert>, more: seq<Alert>)
    requires KeyedById(alerts)
    ensures KeyedById(AddAll(alerts, more))
  {
    if more != [] {
      AddAllKeyed(alerts, more[..|more| - 1]);
    }
  }

  /** Over every run from the empty store, each key is its alert's identifier. */
  lemma {:induction false} RunsStayKeyed(ops: seq<Operation>)
    ensures KeyedById(ApplyAll(map[], ops))
  {
    if ops != [] {
      var before := ApplyAll(map[], ops[..|ops| - 1]);
      RunsStayKeyed(ops[..|ops| - 1]);
      if ops[|ops| - 1].AddMany? {
        AddAllKeyed(before, ops[|ops| - 1].more);
      }
    }
  }

  /** `id` was last given to the alert at `i`. */
  ghost predicate LastWith(more: seq<Alert>, i: nat, id: string) {
    i < |more| && more[i].alertId == id && forall j :: i < j < |more| ==> more[j].alertId != id
  }

  /** Of several alerts with one identifier the last one added is held. */
  lemma {:induction false} LastOneWins(more: seq<Alert>, id: string)
    ensures id in AddAll(map[], more) <==> exists i: nat :: LastWith(more, i, id)
    ensures forall i: nat :: LastWith(more, i, id) ==> id in AddAll(map[], more) && AddAll(map[], more)[id] == more[i]
  {
    if more != [] {
      var front, last := more[..|more| - 1], more[|more| - 1];
      LastOneWins(front, id);
      if last.alertId == id {
        assert LastWith(more, |more| - 1, id);
      } else {
        forall i: nat
          ensures LastWith(more, i, id) <==> LastWith(front, i, id)
        {
          assert forall j :: 0 <= j < |front| ==> front[j] == more[j];
        }
      }
    }
  }

  /** The store holds one alert per identifier handed in, none else. */
  lemma {:induction false} OnePerIdentifier(more: seq<Alert>)
    ensures AddAll(map[], more).Keys == set i | 0 <= i < |more| :: more[i].alertId
  {
    if more != [] {
      var front := more[..|more| - 1];
      OnePerIdentifier(front);
      assert forall i :: 0 <= i < |front| ==> front[i] == more[i];
    }
  }
}
