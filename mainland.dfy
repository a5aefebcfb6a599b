/** The mainland probe (index.ts:14-49): a system is "mainland" when Red
    Frog's calculator accepts a highsec route from it to Jita. Answers about
    the route are cached forever under `mainland:<system>`. */
module Mainland {
  import opened Wrappers
  import opened Text
  import opened FrogErrors
  import opened KeyValue
  import opened Topology

  /** What the probe's reply says: accepted, a route answer (`false`), or an
      outage, which is rethrown. */
  function ProbeAnswer(probe: Reply<()>): (o: Outcome<bool>)
    ensures o == Returned(true) <==> probe.Ok?
    ensures o == Returned(false) <==> probe.Err? && IsRouteAnswer(MapFrogError(probe.errorText))
    ensures o.Threw? <==> probe.Err? && MapFrogError(probe.errorText) == UnavailableMessage
  {
    match probe
    case Ok(_) => Returned(true)
    case Err(text) => if IsRouteAnswer(MapFrogError(text)) then Returned(false) else Threw
  }

  /** `isMainland(origin)` on the map `data`: the answer and the map after it. */
  function MainlandStep(data: map<string, Value>, origin: string, probe: Reply<()>): (r: (Outcome<bool>, map<string, Value>))
    requires MainlandKey(origin) in data ==> data[MainlandKey(origin)].MainlandFlag?
    ensures MainlandKey(origin) in data ==> r == (Returned(data[MainlandKey(origin)].isMainland), data)
    ensures MainlandKey(origin) !in data && r.0.Returned? ==> r.1 == data[MainlandKey(origin) := MainlandFlag(r.0.value)]
    ensures r.0.Threw? ==> r.1 == data
  {
    var key := MainlandKey(origin);
    if key in data then (Returned(data[key].isMainland), data)
    else
      match ProbeAnswer(probe)
      case Returned(b) => (Returned(b), data[key := MainlandFlag(b)])
      case Threw => (Threw, data)
  }

  /** Once an answer is cached it never changes, whatever later probes say. */
  lemma MainlandAnswerSticks(data: map<string, Value>, origin: string, p1: Reply<()>, p2: Reply<()>)
    requires MainlandKey(origin) in data ==> data[MainlandKey(origin)].MainlandFlag?
    requires MainlandStep(data, origin, p1).0.Returned?
    ensures MainlandStep(MainlandStep(data, origin, p1).1, origin, p2).0 == MainlandStep(data, origin, p1).0
  {
  }

  method IsMainland(store: Store, origin: string, probe: Reply<()>) returns (o: Outcome<bool>)
    requires store.Valid()
    modifies store
    ensures store.Valid()
    ensures MainlandKey(origin) in old(store.data) ==> old(store.data)[MainlandKey(origin)].MainlandFlag?
    ensures (o, store.data) == MainlandStep(old(store.data), origin, probe)
    ensures o.Returned? && MainlandKey(origin) !in old(store.data) ==> store.ttl == old(store.ttl) - {MainlandKey(origin)}
    ensures o.Threw? || MainlandKey(origin) in old(store.data) ==> store.ttl == old(store.ttl)
  {
    var key := MainlandKey(origin);
    MainlandKeyKind(origin);
    if key in store.data {
      return Returned(store.data[key].isMainland);
    }
    o := ProbeAnswer(probe);
    if o.Returned? {
      store.Set(key, MainlandFlag(o.value), None);
    }
  }

  /** Every `mainland:` key holds a cached answer. */
  ghost predicate MainlandFlagsFit(data: map<string, Value>) {
    forall origin :: MainlandKey(origin) in data ==> data[MainlandKey(origin)].MainlandFlag?
  }

  lemma ValidMainlandFlagsFit(store: Store)
    requires store.Valid()
    ensures MainlandFlagsFit(store.data)
  {
    forall origin | MainlandKey(origin) in store.data
      ensures store.data[MainlandKey(origin)].MainlandFlag?
    {
      MainlandKeyKind(origin);
    }
  }

  /** A lookup stores a system record, never a mainland answer. */
  lemma LookupKeepsMainlandFlags(data: map<string, Value>, id: nat, esi: map<nat, EsiSystem>)
    requires SystemRecordsFit(data) && MainlandFlagsFit(data) && Lookup(data, id, esi).Returned?
    ensures MainlandFlagsFit(Lookup(data, id, esi).value.1)
  {
    forall origin | MainlandKey(origin) in Lookup(data, id, esi).value.1
      ensures Lookup(data, id, esi).value.1[MainlandKey(origin)].MainlandFlag?
    {
      MainlandKeyKind(origin);
      SystemInfoKeyKind(id);
    }
  }

  /** `isMainlandWithId(id)` on the map `data`: the answer and the map after it. */
  function MainlandWithIdStep(data: map<string, Value>, id: nat, esi: map<nat, EsiSystem>, probe: Reply<()>)
    : (r: (Outcome<bool>, map<string, Value>))
    requires SystemRecordsFit(data) && MainlandFlagsFit(data)
  {
    match Lookup(data, id, esi)
    case Threw => (Threw, data)
    case Returned((view, data')) =>
      if view.securityStatus.Some? && view.securityStatus.value < 0.45 then (Returned(false), data')
      else
        LookupKeepsMainlandFlags(data, id, esi);
        MainlandStep(data', ToLower(view.name), probe)
  }

  /** A stored system known to be below 0.45 is answered `false` without a
      probe and without a write. */
  lemma CachedLowsecNotProbed(data: map<string, Value>, id: nat, esi: map<nat, EsiSystem>, p1: Reply<()>, p2: Reply<()>)
    requires SystemRecordsFit(data) && MainlandFlagsFit(data)
    requires SystemInfoKey(id) in data && data[SystemInfoKey(id)].securityStatus < 0.45
    ensures MainlandWithIdStep(data, id, esi, p1) == (Returned(false), data)
    ensures MainlandWithIdStep(data, id, esi, p1) == MainlandWithIdStep(data, id, esi, p2)
  {
  }

  /** `isMainlandWithId` (index.ts:20-26): a system known to be below 0.45
      is not mainland; otherwise its lower-cased name is probed. A system
      looked up for the first time has no security status, so it is probed
      whatever its status. */
  method IsMainlandWithId(store: Store, id: nat, esi: map<nat, EsiSystem>, probe: Reply<()>) returns (o: Outcome<bool>)
    requires store.Valid()
    modifies store
    ensures store.Valid()
    ensures SystemRecordsFit(old(store.data)) && MainlandFlagsFit(old(store.data))
    ensures (o, store.data) == MainlandWithIdStep(old(store.data), id, esi, probe)
    ensures Lookup(old(store.data), id, esi).Threw? ==> o.Threw? && store.data == old(store.data)
    ensures Lookup(old(store.data), id, esi).Returned? ==>
      var view := Lookup(old(store.data), id, esi).value.0;
      var data' := Lookup(old(store.data), id, esi).value.1;
      if view.securityStatus.Some? && view.securityStatus.value < 0.45 then
        o == Returned(false) && store.data == data'
      else
        (MainlandKey(ToLower(view.name)) in data' ==> data'[MainlandKey(ToLower(view.name))].MainlandFlag?)
        && (o, store.data) == MainlandStep(data', ToLower(view.name), probe)
  {
    ValidMainlandFlagsFit(store);
    var info := GetSystemInfo(store, id, esi);
    if info.Threw? {
      return Threw;
    }
    var view := info.value;
    if view.securityStatus.Some? && view.securityStatus.value < 0.45 {
      return Returned(false);
    }
    o := IsMainland(store, ToLower(view.name), probe);
  }

  /** A first-time lookup of a lowsec system still reaches the probe: the
      security test sees no status and passes. */
  lemma UncachedSystemIsProbed(data: map<string, Value>, id: nat, esi: map<nat, EsiSystem>)
    requires SystemRecordsFit(data) && SystemInfoKey(id) !in data && id in esi
    ensures Lookup(data, id, esi).Returned? && Lookup(data, id, esi).value.0.securityStatus.None?
  {
  }

  /** `/api/mainland` (index.ts:14-18): a non-empty `systemName` is probed by
      name, lower-cased; otherwise `systemId` is looked up. */
  method HandleMainland(store: Store, systemName: Option<string>, systemId: nat,
                        esi: map<nat, EsiSystem>, probe: Reply<()>) returns (o: Outcome<bool>)
    requires store.Valid()
    modifies store
    ensures store.Valid()
    ensures SystemRecordsFit(old(store.data))
    ensures systemName.Some? && systemName.value != "" ==>
      (MainlandKey(ToLower(systemName.value)) in old(store.data) ==> old(store.data)[MainlandKey(ToLower(systemName.value))].MainlandFlag?)
      && (o, store.data) == MainlandStep(old(store.data), ToLower(systemName.value), probe)
    ensures systemName.None? || systemName.value == "" ==>
      MainlandFlagsFit(old(store.data))
      && (o, store.data) == MainlandWithIdStep(old(store.data), systemId, esi, probe)
    ensures (systemName.None? || systemName.value == "") && Lookup(old(store.data), systemId, esi).Threw? ==> o.Threw?
  {
    ValidRecordsFit(store);
    ValidMainlandFlagsFit(store);
    if systemName.Some? && systemName.value != "" {
      o := IsMainland(store, ToLower(systemName.value), probe);
    } else {
      o := IsMainlandWithId(store, systemId, esi, probe);
    }
  }
}
