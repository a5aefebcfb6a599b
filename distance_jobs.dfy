/** The two jobs that run when the route handler creates a
    `distance_job_gates:` or `distance_job_lightyears:` key (index.ts:487-498,
    515-545). The runtime's "created" event is modelled as a call. */
module DistanceJobs {
  import opened Wrappers
  import opened KeyValue
  import opened Topology

  /** The security list the gates job records for a route. */
  function RouteSecurities(views: seq<SystemView>, route: seq<nat>): (secs: seq<Option<real>>)
    ensures |secs| == |route|
  {
    seq(|route|, i requires 0 <= i < |route| => LastSecurity(views, route[i]))
  }

  /** No view carries an id, so the security map stays empty. */
  lemma {:induction false} LastSecurityOfAnonymous(views: seq<SystemView>, id: nat)
    requires forall k :: 0 <= k < |views| ==> views[k].systemId.None?
    ensures LastSecurity(views, id) == None
    decreases |views|
  {
    if |views| > 0 {
      LastSecurityOfAnonymous(views[..|views| - 1], id);
    }
  }

  /** When some view carries `id` and all those that do agree on security `s`,
      the map holds `s`. */
  lemma {:induction false} LastSecurityFound(views: seq<SystemView>, id: nat, s: Option<real>, k: nat)
    requires k < |views| && views[k].systemId == Some(id)
    requires forall j :: 0 <= j < |views| && views[j].systemId == Some(id) ==> views[j].securityStatus == s
    ensures LastSecurity(views, id) == s
    decreases |views|
  {
    var n := |views| - 1;
    if views[n].systemId != Some(id) {
      LastSecurityFound(views[..n], id, s, k);
    }
  }

  /** The gates job: resolve the two names, fetch the route, look every system
      up, and store `distance:<o>:<d>:gates` with the hop count and one
      security per system (no TTL). `ids` is ESI's reply to the name lookup and
      `route` its reply for the route between the first two ids. */
  method RunGatesJob(store: Store, origin: Option<string>, destination: Option<string>,
                     ids: Reply<seq<nat>>, route: Reply<seq<nat>>, esi: map<nat, EsiSystem>)
    returns (o: Outcome<Value>)
    requires store.Valid()
    modifies store
    ensures store.Valid()
    ensures SystemRecordsFit(old(store.data))
    ensures ids.Err? || |ids.payload| < 2 || route.Err? ==> o.Threw? && store.data == old(store.data)
    ensures o.Threw? ==> store.ttl == old(store.ttl)
    ensures o.Returned? ==> store.ttl == old(store.ttl) - {GatesDistanceKey(origin, destination)}
    ensures ids.Ok? && |ids.payload| >= 2 && route.Ok? ==>
      var lookups := LookupAll(old(store.data), route.payload, esi);
      && (lookups.Threw? ==> o.Threw?)
      && (lookups.Returned? ==>
            var record := GatesDistance(origin, destination, |route.payload|, RouteSecurities(lookups.value.0, route.payload));
            o == Returned(record) && store.data == lookups.value.1[GatesDistanceKey(origin, destination) := record])
  {
    ValidRecordsFit(store);
    if ids.Err? || |ids.payload| < 2 || route.Err? {
      return Threw;
    }
    var systemIds := route.payload;
    var views := LookupSystems(store, systemIds, esi);
    if views.Threw? {
      return Threw;
    }
    var secs := Securities(views.value, systemIds);
    assert secs == RouteSecurities(views.value, systemIds);
    var record := GatesDistance(origin, destination, |systemIds|, secs);
    DistanceKeyKind(origin, destination, "gates");
    store.Set(GatesDistanceKey(origin, destination), record, None);
    o := Returned(record);
  }

  /** On a route none of whose systems was cached and which visits no system
      twice, the job records no security at all: the fresh lookups hand back
      ESI's raw objects, which have no `systemId`. */
  lemma GatesJobColdCache(data: map<string, Value>, route: seq<nat>, esi: map<nat, EsiSystem>)
    requires SystemRecordsFit(data)
    requires forall k :: 0 <= k < |route| ==> SystemInfoKey(route[k]) !in data
    requires forall j, k :: 0 <= j < k < |route| ==> route[j] != route[k]
    requires LookupAll(data, route, esi).Returned?
    ensures forall i :: 0 <= i < |route| ==> RouteSecurities(LookupAll(data, route, esi).value.0, route)[i] == None
  {
    var views := LookupAll(data, route, esi).value.0;
    forall k | 0 <= k < |route| ensures views[k].systemId.None? {
      LookupAllFreshUnseen(data, route, esi, k);
    }
    forall i | 0 <= i < |route| ensures LastSecurity(views, route[i]) == None {
      LastSecurityOfAnonymous(views, route[i]);
    }
  }

  /** On a route all of whose systems were cached under their own id, the job
      records each system's stored security status. */
  lemma GatesJobWarmCache(data: map<string, Value>, route: seq<nat>, esi: map<nat, EsiSystem>)
    requires SystemRecordsFit(data)
    requires forall k :: 0 <= k < |route| ==> SystemInfoKey(route[k]) in data
    requires forall k :: 0 <= k < |route| ==> data[SystemInfoKey(route[k])].systemId == route[k]
    requires LookupAll(data, route, esi).Returned?
    ensures forall i :: 0 <= i < |route| ==>
      RouteSecurities(LookupAll(data, route, esi).value.0, route)[i] == Some(data[SystemInfoKey(route[i])].securityStatus)
  {
    var views := LookupAll(data, route, esi).value.0;
    forall k | 0 <= k < |route| ensures views[k] == Cached(data[SystemInfoKey(route[k])]) {
      LookupAllSeesCached(data, route, esi, k);
    }
    forall i | 0 <= i < |route|
      ensures LastSecurity(views, route[i]) == Some(data[SystemInfoKey(route[i])].securityStatus)
    {
      var s := Some(data[SystemInfoKey(route[i])].securityStatus);
      forall j | 0 <= j < |views| && views[j].systemId == Some(route[i])
        ensures views[j].securityStatus == s
      {
        assert route[j] == route[i];
      }
      LastSecurityFound(views, route[i], s, i);
    }
  }

  /** The lightyears job: store `distance:<o>:<d>:lightyears` with the
      distance Black Frog's calculator reports (no TTL). */
  method RunLightyearsJob(store: Store, origin: Option<string>, destination: Option<string>, reply: Reply<real>)
    returns (o: Outcome<Value>)
    requires store.Valid()
    modifies store
    ensures store.Valid()
    ensures reply.Err? ==> o.Threw? && store.data == old(store.data) && store.ttl == old(store.ttl)
    ensures reply.Ok? ==>
      o == Returned(LightyearsDistance(origin, destination, reply.payload))
      && store.data == old(store.data)[LightyearsDistanceKey(origin, destination) := o.value]
      && store.ttl == old(store.ttl) - {LightyearsDistanceKey(origin, destination)}
  {
    if reply.Err? {
      return Threw;
    }
    var record := LightyearsDistance(origin, destination, reply.payload);
    DistanceKeyKind(origin, destination, "lightyears");
    store.Set(LightyearsDistanceKey(origin, destination), record, None);
    o := Returned(record);
  }
}
