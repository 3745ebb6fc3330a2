/** `AppConfig::validate` (src/config.rs), for the facts the router relies on. */
module Config {
  import opened Domain
  import JsonModel
  import opened Requests
  import opened Ordering
  import Routing

  /** The checks on endpoints, secrets and headers are library code; their verdicts are given. */
  datatype ProviderConfig = ProviderConfig(id: string, endpointOk: bool)

  datatype RouteConfig = RouteConfig(id: string, models: seq<string>, targets: seq<Target>)

  datatype ClientConfig = ClientConfig(id: string, keyOk: bool, requestsPerMinute: U32, concurrentRequests: U32,
                                       allowedRoutes: seq<string>)

  datatype AppConfig = AppConfig(
    clients: seq<ClientConfig>, providers: seq<ProviderConfig>, routes: seq<RouteConfig>,
    globalConcurrency: nat, maxAttempts: nat)

  /** Ids are not empty and not repeated. */
  predicate UniqueIds(ids: seq<string>) {
    && (forall i | 0 <= i < |ids| :: ids[i] != "")
    && forall i, j | 0 <= i < j < |ids| :: ids[i] != ids[j]
  }

  function ProviderIds(ps: seq<ProviderConfig>): (r: seq<string>) ensures |r| == |ps| {
    seq(|ps|, i requires 0 <= i < |ps| => ps[i].id)
  }

  function RouteIds(rs: seq<RouteConfig>): (r: seq<string>) ensures |r| == |rs| {
    seq(|rs|, i requires 0 <= i < |rs| => rs[i].id)
  }

  function ClientIds(cs: seq<ClientConfig>): (r: seq<string>) ensures |r| == |cs| {
    seq(|cs|, i requires 0 <= i < |cs| => cs[i].id)
  }

  predicate RouteOk(providers: seq<string>, r: RouteConfig) {
    r.models != [] && r.targets != [] && forall t | t in r.targets :: t.provider in providers && t.weight > 0
  }

  predicate ClientOk(routes: seq<string>, c: ClientConfig) {
    && c.keyOk && c.concurrentRequests > 0 && c.requestsPerMinute > 0
    && forall r | r in c.allowedRoutes :: r in routes
  }

  predicate Sane(c: AppConfig) {
    && c.clients != [] && c.providers != [] && c.routes != [] && c.globalConcurrency > 0 && c.maxAttempts > 0
    && UniqueIds(ProviderIds(c.providers)) && (forall p | p in c.providers :: p.endpointOk)
    && UniqueIds(RouteIds(c.routes)) && (forall r | r in c.routes :: RouteOk(ProviderIds(c.providers), r))
    && UniqueIds(ClientIds(c.clients)) && (forall x | x in c.clients :: ClientOk(RouteIds(c.routes), x))
  }

  /** `unique_id` on each id in turn. */
  method CheckIds(ids: seq<string>) returns (ok: bool)
    ensures ok <==> UniqueIds(ids)
  {
    var seen: set<string> := {};
    for n := 0 to |ids|
      invariant UniqueIds(ids[..n])
      invariant forall id :: id in seen <==> id in ids[..n]
    {
      if ids[n] == "" || ids[n] in seen {
        assert ids[n] in ids[..n] ==> exists i :: 0 <= i < n && ids[i] == ids[n];
        return false;
      }
      assert ids[..n + 1] == ids[..n] + [ids[n]];
      seen := seen + {ids[n]};
    }
    assert ids[..|ids|] == ids;
    return true;
  }

  method CheckTargets(providers: seq<string>, targets: seq<Target>) returns (ok: bool)
    ensures ok <==> forall t | t in targets :: t.provider in providers && t.weight > 0
  {
    for n := 0 to |targets|
      invariant forall t | t in targets[..n] :: t.provider in providers && t.weight > 0
    {
      if targets[n].provider !in providers || targets[n].weight == 0 {
        return false;
      }
      assert targets[..n + 1] == targets[..n] + [targets[n]];
    }
    assert targets[..|targets|] == targets;
    return true;
  }

  method CheckRoutes(providers: seq<string>, routes: seq<RouteConfig>) returns (ok: bool)
    ensures ok <==> forall r | r in routes :: RouteOk(providers, r)
  {
    for n := 0 to |routes|
      invariant forall r | r in routes[..n] :: RouteOk(providers, r)
    {
      var targetsOk := CheckTargets(providers, routes[n].targets);
      if routes[n].models == [] || routes[n].targets == [] || !targetsOk {
        assert !RouteOk(providers, routes[n]);
        return false;
      }
      assert routes[..n + 1] == routes[..n] + [routes[n]];
    }
    assert routes[..|routes|] == routes;
    return true;
  }

  method CheckClients(routes: seq<string>, clients: seq<ClientConfig>) returns (ok: bool)
    ensures ok <==> forall c | c in clients :: ClientOk(routes, c)
  {
    for n := 0 to |clients|
      invariant forall c | c in clients[..n] :: ClientOk(routes, c)
    {
      var c := clients[n];
      if !c.keyOk || c.concurrentRequests == 0 || c.requestsPerMinute == 0 ||
         exists r | r in c.allowedRoutes :: r !in routes {
        assert !ClientOk(routes, clients[n]);
        return false;
      }
      assert clients[..n + 1] == clients[..n] + [c];
    }
    assert clients[..|clients|] == clients;
    return true;
  }

  method Validate(c: AppConfig) returns (ok: bool)
    ensures ok <==> Sane(c)
  {
    if c.clients == [] || c.providers == [] || c.routes == [] {
      return false;
    }
    if c.globalConcurrency == 0 || c.maxAttempts == 0 {
      return false;
    }
    var providerIds := CheckIds(ProviderIds(c.providers));
    if !providerIds || exists p | p in c.providers :: !p.endpointOk {
      return false;
    }
    var routeIds := CheckIds(RouteIds(c.routes));
    if !routeIds {
      return false;
    }
    var routesOk := CheckRoutes(ProviderIds(c.providers), c.routes);
    if !routesOk {
      return false;
    }
    var clientIds := CheckIds(ClientIds(c.clients));
    if !clientIds {
      return false;
    }
    ok := CheckClients(RouteIds(c.routes), c.clients);
  }

  /** Which configurations are accepted, condition by condition. */
  lemma SaneExactly(c: AppConfig)
    ensures Sane(c) <==>
            && |c.clients| > 0 && |c.providers| > 0 && |c.routes| > 0
            && c.globalConcurrency >= 1 && c.maxAttempts >= 1
            && (forall i | 0 <= i < |c.providers| :: c.providers[i].id != "" && c.providers[i].endpointOk)
            && (forall i | 0 <= i < |c.routes| ::
                  c.routes[i].id != "" && |c.routes[i].models| > 0 && |c.routes[i].targets| > 0)
            && (forall i | 0 <= i < |c.clients| ::
                  && c.clients[i].id != "" && c.clients[i].keyOk
                  && c.clients[i].requestsPerMinute >= 1 && c.clients[i].concurrentRequests >= 1)
            && (forall i, j | 0 <= i < j < |c.providers| :: c.providers[i].id != c.providers[j].id)
            && (forall i, j | 0 <= i < j < |c.routes| :: c.routes[i].id != c.routes[j].id)
            && (forall i, j | 0 <= i < j < |c.clients| :: c.clients[i].id != c.clients[j].id)
            && (forall r, t | r in c.routes && t in r.targets ::
                  t.weight >= 1 && exists p :: p in c.providers && p.id == t.provider)
            && (forall x, id | x in c.clients && id in x.allowedRoutes :: exists r :: r in c.routes && r.id == id)
  {
    ProvidersSane(c);
    RoutesSane(c);
    ClientsSane(c);
    TargetsSane(c);
    AllowedSane(c);
  }

  lemma TargetsSane(c: AppConfig)
    ensures (forall r | r in c.routes :: RouteOk(ProviderIds(c.providers), r)) <==>
            && (forall i | 0 <= i < |c.routes| :: |c.routes[i].models| > 0 && |c.routes[i].targets| > 0)
            && (forall r, t | r in c.routes && t in r.targets ::
                  t.weight >= 1 && exists p :: p in c.providers && p.id == t.provider)
  {
    forall id ensures id in ProviderIds(c.providers) <==> exists p :: p in c.providers && p.id == id {
      ProviderIdIn(c.providers, id);
    }
    if forall r | r in c.routes :: RouteOk(ProviderIds(c.providers), r) {
      forall i | 0 <= i < |c.routes| ensures |c.routes[i].models| > 0 && |c.routes[i].targets| > 0 {
        assert RouteOk(ProviderIds(c.providers), c.routes[i]);
      }
      forall r, t | r in c.routes && t in r.targets
        ensures t.weight >= 1 && exists p :: p in c.providers && p.id == t.provider
      {
        assert RouteOk(ProviderIds(c.providers), r);
        ProviderIdIn(c.providers, t.provider);
      }
    } else {
      var r :| r in c.routes && !RouteOk(ProviderIds(c.providers), r);
      var i :| 0 <= i < |c.routes| && c.routes[i] == r;
    }
  }

  lemma AllowedSane(c: AppConfig)
    ensures (forall x | x in c.clients :: ClientOk(RouteIds(c.routes), x)) <==>
            && (forall i | 0 <= i < |c.clients| ::
                  && c.clients[i].keyOk && c.clients[i].requestsPerMinute >= 1 && c.clients[i].concurrentRequests >= 1)
            && (forall x, id | x in c.clients && id in x.allowedRoutes :: exists r :: r in c.routes && r.id == id)
  {
    forall id ensures id in RouteIds(c.routes) <==> exists r :: r in c.routes && r.id == id {
      RouteIdIn(c.routes, id);
    }
    assert forall i | 0 <= i < |c.clients| :: c.clients[i] in c.clients;
  }

  lemma ProviderIdIn(ps: seq<ProviderConfig>, id: string)
    ensures id in ProviderIds(ps) <==> exists p :: p in ps && p.id == id
  {
    var ids := ProviderIds(ps);
    if i :| 0 <= i < |ids| && ids[i] == id {
      assert ps[i] in ps;
    }
    if p :| p in ps && p.id == id {
      var i :| 0 <= i < |ps| && ps[i] == p;
      assert ids[i] == id;
    }
  }

  lemma RouteIdIn(rs: seq<RouteConfig>, id: string)
    ensures id in RouteIds(rs) <==> exists r :: r in rs && r.id == id
  {
    var ids := RouteIds(rs);
    if i :| 0 <= i < |ids| && ids[i] == id {
      assert rs[i] in rs;
    }
    if r :| r in rs && r.id == id {
      var i :| 0 <= i < |rs| && rs[i] == r;
      assert ids[i] == id;
    }
  }

  lemma ProvidersSane(c: AppConfig)
    ensures UniqueIds(ProviderIds(c.providers)) && (forall p | p in c.providers :: p.endpointOk) <==>
            && (forall i | 0 <= i < |c.providers| :: c.providers[i].id != "" && c.providers[i].endpointOk)
            && (forall i, j | 0 <= i < j < |c.providers| :: c.providers[i].id != c.providers[j].id)
  {
    var ids := ProviderIds(c.providers);
    assert forall i | 0 <= i < |c.providers| :: ids[i] == c.providers[i].id;
  }

  lemma RoutesSane(c: AppConfig)
    ensures UniqueIds(RouteIds(c.routes)) <==>
            && (forall i | 0 <= i < |c.routes| :: c.routes[i].id != "")
            && (forall i, j | 0 <= i < j < |c.routes| :: c.routes[i].id != c.routes[j].id)
  {
    var ids := RouteIds(c.routes);
    assert forall i | 0 <= i < |c.routes| :: ids[i] == c.routes[i].id;
  }

  lemma ClientsSane(c: AppConfig)
    ensures UniqueIds(ClientIds(c.clients)) <==>
            && (forall i | 0 <= i < |c.clients| :: c.clients[i].id != "")
            && (forall i, j | 0 <= i < j < |c.clients| :: c.clients[i].id != c.clients[j].id)
  {
    var ids := ClientIds(c.clients);
    assert forall i | 0 <= i < |c.clients| :: ids[i] == c.clients[i].id;
  }

  /**
   * Under an accepted configuration the router never lacks a provider, never draws from an empty
   * range, and always makes at least one attempt when there is a candidate.
   */
  lemma RouterIsSafe(c: AppConfig, r: RouteConfig, show: JsonModel.Json -> string, profiles: Routing.Profiles,
                     up: nat -> set<string>, request: Request)
    requires Sane(c) && r in c.routes
    requires profiles.Keys == set id | id in ProviderIds(c.providers)
    ensures Routing.Known(profiles, r.targets)
    ensures var compatible := Sort(Routing.Compatible(show, profiles, up, r.targets, request));
            && (forall draws: seq<nat> | InRange(compatible, draws) && Left(compatible, draws) != [] ::
                  Total(Tier(Left(compatible, draws))) > 0)
            && exists draws :: Fits(compatible, draws)
    ensures c.maxAttempts > 0
  {
    assert RouteOk(ProviderIds(c.providers), r);
    var compatible := Routing.Compatible(show, profiles, up, r.targets, request);
    Routing.CompatibleSuited(show, profiles, up, r.targets, request);
    SortSorts(compatible);
    forall x | x in Sort(compatible) ensures x.target.weight > 0 {
      SameMembers(Sort(compatible), compatible, x);
      assert Routing.WasUp(up, r.targets, x.target);
      assert x.target in r.targets;
    }
    forall draws: seq<nat> | InRange(Sort(compatible), draws) && Left(Sort(compatible), draws) != []
      ensures Total(Tier(Left(Sort(compatible), draws))) > 0
    {
      NeverEmptyRange(Sort(compatible), draws);
    }
    var some := EveryOrderPossible(Sort(compatible), Sort(compatible));
  }
}
