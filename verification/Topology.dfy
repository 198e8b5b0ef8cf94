/** Source 1 of the graph: what the application is. */
module Topology {
  import opened Sequences
  import opened Graphs
  import opened WriteOrder

  const AUTH_SERVICE := "auth-service"
  const INCIDENT_SERVICE := "incident-service"
  const ASSET_SERVICE := "asset-service"
  const API_GATEWAY := "api-gateway"

  datatype ServiceFact = ServiceFact(name: string, port: int)
  datatype EndpointFact = EndpointFact(path: string, httpMethod: string, requiresToken: bool, service: string)
  datatype DependencyFact = DependencyFact(caller: string, callee: string)
  datatype SeedUser = SeedUser(username: string, role: string)
  datatype SeedAsset = SeedAsset(name: string, assetType: string, criticality: string)

  const SERVICES: seq<ServiceFact> :=
    [ServiceFact(AUTH_SERVICE, 8001), ServiceFact(INCIDENT_SERVICE, 8002),
     ServiceFact(ASSET_SERVICE, 8003), ServiceFact(API_GATEWAY, 8000)]

  const LOGIN_PATH := "/api/v1/auth/login"
  const VERIFY_PATH := "/api/v1/auth/verify"
  const USERS_PATH := "/api/v1/auth/users"
  const INCIDENTS_PATH := "/api/v1/incidents"
  const ASSETS_PATH := "/api/v1/assets"

  const ENDPOINTS: seq<EndpointFact> :=
    [EndpointFact(LOGIN_PATH, "POST", false, AUTH_SERVICE), EndpointFact(VERIFY_PATH, "GET", true, AUTH_SERVICE),
     EndpointFact(USERS_PATH, "POST", true, AUTH_SERVICE), EndpointFact(INCIDENTS_PATH, "GET", true, INCIDENT_SERVICE),
     EndpointFact(ASSETS_PATH, "GET", true, ASSET_SERVICE)]

  const DEPENDENCIES: seq<DependencyFact> := [DependencyFact(INCIDENT_SERVICE, ASSET_SERVICE)]

  /** The bootstrap account the seed file leaves out. */
  const ADMIN := SeedUser("admin", "admin")

  function Tagged(statement: Statement): Write {
    Write(statement, Topology)
  }

  function ServiceWrite(s: ServiceFact): Write {
    var node := NodeKey(Service, s.name);
    Tagged(MergeSet(node, map[PPort := Number(s.port), PDescription := Prose(node)]))
  }

  function EndpointWrites(e: EndpointFact): seq<Write> {
    [Tagged(MergeSet(NodeKey(Endpoint, e.path),
                     map[PMethod := Text(e.httpMethod), PProtected := Flag(e.requiresToken)])),
     Tagged(MatchLink(NodeKey(Service, e.service), NodeKey(Endpoint, e.path), Exposes))]
  }

  function DependencyWrite(d: DependencyFact): Write {
    Tagged(MatchLink(NodeKey(Service, d.caller), NodeKey(Service, d.callee), DependsOn))
  }

  function UserWrites(u: SeedUser): seq<Write> {
    [Tagged(MergeSet(NodeKey(User, u.username), map[PRole := Text(u.role)])),
     Tagged(MergeSet(NodeKey(Role, u.role), map[])),
     Tagged(MatchLink(NodeKey(User, u.username), NodeKey(Role, u.role), HasRole))]
  }

  function AssetWrite(a: SeedAsset): Write {
    Tagged(MergeSet(NodeKey(Asset, a.name), map[PAssetType := Text(a.assetType), PCriticality := Text(a.criticality)]))
  }

  /** The whole source for whatever the seed files hold. */
  function TopologyWrites(users: seq<SeedUser>, assets: seq<SeedAsset>): seq<Write> {
    Map(ServiceWrite, SERVICES) + FlatMap(EndpointWrites, ENDPOINTS) + Map(DependencyWrite, DEPENDENCIES)
    + FlatMap(UserWrites, [ADMIN] + users) + Map(AssetWrite, assets)
  }

  /** `topology` */
  method BuildTopology(users: seq<SeedUser>, assets: seq<SeedAsset>) returns (writes: seq<Write>)
    ensures writes == TopologyWrites(users, assets)
  {
    hide EndpointWrites, UserWrites, AssetWrite;
    var services := Map(ServiceWrite, SERVICES);
    writes := services;
    for i := 0 to |ENDPOINTS|
      invariant writes == services + FlatMap(EndpointWrites, ENDPOINTS[..i])
    {
      assert ENDPOINTS[..i + 1][..i] == ENDPOINTS[..i];
      writes := writes + EndpointWrites(ENDPOINTS[i]);
    }
    assert ENDPOINTS[..|ENDPOINTS|] == ENDPOINTS;
    writes := writes + Map(DependencyWrite, DEPENDENCIES);
    ghost var fixed := writes;
    var accounts := [ADMIN] + users;
    for i := 0 to |accounts|
      invariant writes == fixed + FlatMap(UserWrites, accounts[..i])
    {
      assert accounts[..i + 1][..i] == accounts[..i];
      writes := writes + UserWrites(accounts[i]);
    }
    assert accounts[..|accounts|] == accounts;
    writes := writes + Map(AssetWrite, assets);
  }

  // ----------------------------------------------------------------- its order

  predicate ServiceKnown(name: string) {
    name == AUTH_SERVICE || name == INCIDENT_SERVICE || name == ASSET_SERVICE || name == API_GATEWAY
  }

  lemma {:induction false} ServicesSecured(name: string)
    requires ServiceKnown(name)
    ensures NodeKey(Service, name) in Secured(Map(ServiceWrite, SERVICES))
  {
    var ws := Map(ServiceWrite, SERVICES);
    var i := if name == AUTH_SERVICE then 0 else if name == INCIDENT_SERVICE then 1
             else if name == ASSET_SERVICE then 2 else 3;
    assert SERVICES[i].name == name;
    assert ws[i] in ws && NodeKey(Service, name) in Secures(ws[i].statement);
  }

  lemma {:induction false} EndpointBlockClosed(e: EndpointFact, before: set<NodeKey>)
    requires NodeKey(Service, e.service) in before
    ensures ClosedUpTo(EndpointWrites(e), before, {})
  {
    var ws := EndpointWrites(e);
    assert ws[..1] == [ws[0]];
    SecuredBy(ws[..1], ws[0], NodeKey(Endpoint, e.path));
  }

  lemma {:induction false} UserBlockClosed(u: SeedUser, before: set<NodeKey>)
    ensures ClosedUpTo(UserWrites(u), before, {})
  {
    var ws := UserWrites(u);
    assert ws[..2] == [ws[0], ws[1]];
    SecuredBy(ws[..2], ws[0], NodeKey(User, u.username));
    SecuredBy(ws[..2], ws[1], NodeKey(Role, u.role));
  }

  lemma {:induction false} EndpointsClosed(before: set<NodeKey>)
    requires Secured(Map(ServiceWrite, SERVICES)) <= before
    ensures ClosedUpTo(FlatMap(EndpointWrites, ENDPOINTS), before, {})
  {
    hide ClosedUpTo, Secured, EndpointWrites;
    forall e | e in ENDPOINTS
      ensures ClosedUpTo(EndpointWrites(e), before, {})
    {
      assert ServiceKnown(e.service);
      ServicesSecured(e.service);
      EndpointBlockClosed(e, before);
    }
    ClosedFlatMap(EndpointWrites, ENDPOINTS, before, {});
  }

  lemma {:induction false} DependenciesClosed(before: set<NodeKey>)
    requires Secured(Map(ServiceWrite, SERVICES)) <= before
    ensures ClosedUpTo(Map(DependencyWrite, DEPENDENCIES), before, {})
  {
    ServicesSecured(INCIDENT_SERVICE);
    ServicesSecured(ASSET_SERVICE);
    ClosedPointwise(Map(DependencyWrite, DEPENDENCIES), before, {});
  }

  /** Nodes come before the edges that MATCH them, whatever is seeded. */
  lemma {:induction false} TopologyClosed(users: seq<SeedUser>, assets: seq<SeedAsset>)
    ensures ClosedUpTo(TopologyWrites(users, assets), {}, {})
  {
    hide ClosedUpTo, FlatMap, EndpointWrites, UserWrites, ServiceWrite, DependencyWrite, AssetWrite;
    var a, b, c := Map(ServiceWrite, SERVICES), FlatMap(EndpointWrites, ENDPOINTS), Map(DependencyWrite, DEPENDENCIES);
    var d, e := FlatMap(UserWrites, [ADMIN] + users), Map(AssetWrite, assets);
    NodesNeedNothing(assets);
    SecuredConcat(a, b);
    EndpointsClosed({} + Secured(a));
    ClosedConcat(a, b, {}, {});
    DependenciesClosed({} + Secured(a + b));
    ClosedConcat(a + b, c, {}, {});
    UsersClosed(users, {} + Secured(a + b + c));
    ClosedConcat(a + b + c, d, {}, {});
    ClosedWiden(e, {}, {} + Secured(a + b + c + d), {}, {});
    ClosedConcat(a + b + c + d, e, {}, {});
  }

  lemma {:induction false} NodesNeedNothing(assets: seq<SeedAsset>)
    ensures ClosedUpTo(Map(ServiceWrite, SERVICES), {}, {})
    ensures ClosedUpTo(Map(AssetWrite, assets), {}, {})
  {
    hide ClosedUpTo;
    ClosedPointwise(Map(ServiceWrite, SERVICES), {}, {});
    ClosedPointwise(Map(AssetWrite, assets), {}, {});
  }

  lemma {:induction false} UsersClosed(users: seq<SeedUser>, before: set<NodeKey>)
    ensures ClosedUpTo(FlatMap(UserWrites, [ADMIN] + users), before, {})
  {
    hide ClosedUpTo, UserWrites;
    forall u | u in [ADMIN] + users
      ensures ClosedUpTo(UserWrites(u), before, {})
    {
      UserBlockClosed(u, before);
    }
    ClosedFlatMap(UserWrites, [ADMIN] + users, before, {});
  }

  lemma {:induction false} TopologyHasNoPropertyMatch(users: seq<SeedUser>, assets: seq<SeedAsset>)
    ensures NoPropertyMatch(TopologyWrites(users, assets))
  {
    hide TopologyWrites;
    forall w | w in TopologyWrites(users, assets)
      ensures !w.statement.LinkWhere?
    {
      TopologyShape(users, assets, w);
    }
  }

  /** The labels the topology makes, and the kinds of edge it draws. */
  lemma {:induction false} TopologyShape(users: seq<SeedUser>, assets: seq<SeedAsset>, w: Write)
    requires w in TopologyWrites(users, assets)
    ensures w.statement.MergeSet?
            || (w.statement.MatchLink? && w.statement.kind in {Exposes, DependsOn, HasRole})
    ensures forall n :: n in Creates(w.statement) ==>
      n.tag == Service || n.tag == Endpoint || n.tag == User || n.tag == Role || n.tag == Asset
  {
    hide FlatMap;
    FlatMapIn(EndpointWrites, ENDPOINTS, w);
    FlatMapIn(UserWrites, [ADMIN] + users, w);
  }

  // ---------------------------------------------------------------- its edges

  /** What the application is, as edges. */
  ghost predicate Charted(x: Edge, users: seq<SeedUser>) {
    || (exists e :: e in ENDPOINTS && x == Edge(NodeKey(Service, e.service), Exposes, NodeKey(Endpoint, e.path)))
    || (exists d :: d in DEPENDENCIES && x == Edge(NodeKey(Service, d.caller), DependsOn, NodeKey(Service, d.callee)))
    || (exists u :: u in [ADMIN] + users && x == Edge(NodeKey(User, u.username), HasRole, NodeKey(Role, u.role)))
  }

  lemma {:induction false} EndpointDeclares(e: EndpointFact, final: Graph)
    ensures DeclaredEdges(EndpointWrites(e), final)
      == {Edge(NodeKey(Service, e.service), Exposes, NodeKey(Endpoint, e.path))}
  {
    hide DeclaredEdges, Rows;
    var ws := EndpointWrites(e);
    assert ws == [ws[0]] + [ws[1]];
    DeclaredConcat([ws[0]], [ws[1]], final);
    DeclaredOne(ws[0], final);
    DeclaredOne(ws[1], final);
  }

  lemma {:induction false} UserDeclares(u: SeedUser, final: Graph)
    ensures DeclaredEdges(UserWrites(u), final) == {Edge(NodeKey(User, u.username), HasRole, NodeKey(Role, u.role))}
  {
    hide DeclaredEdges, Rows;
    var ws := UserWrites(u);
    assert ws == [ws[0]] + [ws[1]] + [ws[2]];
    DeclaredConcat([ws[0]] + [ws[1]], [ws[2]], final);
    DeclaredConcat([ws[0]], [ws[1]], final);
    DeclaredOne(ws[0], final);
    DeclaredOne(ws[1], final);
    DeclaredOne(ws[2], final);
  }

  lemma {:induction false} ServiceDeclaresNothing(s: ServiceFact, final: Graph)
    ensures EdgesOf(ServiceWrite(s).statement, final) == {}
  {
    hide Rows;
  }

  lemma {:induction false} AssetDeclaresNothing(a: SeedAsset, final: Graph)
    ensures EdgesOf(AssetWrite(a).statement, final) == {}
  {
    hide Rows;
  }

  lemma {:induction false} DependencyDeclares(d: DependencyFact, final: Graph)
    ensures EdgesOf(DependencyWrite(d).statement, final)
      == {Edge(NodeKey(Service, d.caller), DependsOn, NodeKey(Service, d.callee))}
  {
    hide Rows;
  }

  /** The topology's statements declare the chart and nothing else. */
  lemma {:induction false} TopologyDeclares(users: seq<SeedUser>, assets: seq<SeedAsset>, final: Graph, x: Edge)
    ensures x in DeclaredEdges(TopologyWrites(users, assets), final) <==> Charted(x, users)
  {
    hide DeclaredEdges, FlatMap, EndpointWrites, UserWrites, ServiceWrite, DependencyWrite, AssetWrite, EdgesOf;
    var a, b, c := Map(ServiceWrite, SERVICES), FlatMap(EndpointWrites, ENDPOINTS), Map(DependencyWrite, DEPENDENCIES);
    var d, e := FlatMap(UserWrites, [ADMIN] + users), Map(AssetWrite, assets);
    DeclaredConcat(a + b + c + d, e, final);
    DeclaredConcat(a + b + c, d, final);
    DeclaredConcat(a + b, c, final);
    DeclaredConcat(a, b, final);
    DeclaredMap(ServiceWrite, SERVICES, final, x);
    DeclaredFlatMap(EndpointWrites, ENDPOINTS, final, x);
    DeclaredMap(DependencyWrite, DEPENDENCIES, final, x);
    DeclaredFlatMap(UserWrites, [ADMIN] + users, final, x);
    DeclaredMap(AssetWrite, assets, final, x);
    forall s: ServiceFact
      ensures EdgesOf(ServiceWrite(s).statement, final) == {}
    {
      ServiceDeclaresNothing(s, final);
    }
    forall m: SeedAsset
      ensures EdgesOf(AssetWrite(m).statement, final) == {}
    {
      AssetDeclaresNothing(m, final);
    }
    forall f: EndpointFact
      ensures DeclaredEdges(EndpointWrites(f), final)
        == {Edge(NodeKey(Service, f.service), Exposes, NodeKey(Endpoint, f.path))}
    {
      EndpointDeclares(f, final);
    }
    forall g: DependencyFact
      ensures EdgesOf(DependencyWrite(g).statement, final)
        == {Edge(NodeKey(Service, g.caller), DependsOn, NodeKey(Service, g.callee))}
    {
      DependencyDeclares(g, final);
    }
    forall u: SeedUser
      ensures DeclaredEdges(UserWrites(u), final) == {Edge(NodeKey(User, u.username), HasRole, NodeKey(Role, u.role))}
    {
      UserDeclares(u, final);
    }
  }
}
