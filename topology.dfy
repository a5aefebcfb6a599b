/** Solar-system lookups through the `systemInfo:<id>` cache (index.ts:500-513)
    and the two distance jobs the route handler enqueues (index.ts:487-498,
    515-545). ESI is a map from system id to its record: an id outside the
    map makes the request fail. */
module Topology {
  import opened Wrappers
  import opened Text
  import opened KeyValue

  /** The fields of ESI's `/universe/systems/<id>/` reply the server reads. */
  datatype EsiSystem = EsiSystem(name: string, constellationId: nat, securityStatus: real, systemId: nat)

  /** What `getSystemInfo` hands back. From the cache: the stored record.
      On a miss: ESI's raw object, whose `securityStatus` and `systemId`
      fields do not exist (it spells them `security_status`, `system_id`). */
  datatype SystemView = SystemView(name: string, securityStatus: Option<real>, systemId: Option<nat>)

  /** Every `systemInfo:` key of the map holds a system record. */
  ghost predicate SystemRecordsFit(data: map<string, Value>) {
    forall id: nat :: SystemInfoKey(id) in data ==> data[SystemInfoKey(id)].SystemRecord?
  }

  lemma ValidRecordsFit(store: Store)
    requires store.Valid()
    ensures SystemRecordsFit(store.data)
  {
    forall id: nat | SystemInfoKey(id) in store.data
      ensures store.data[SystemInfoKey(id)].SystemRecord?
    {
      SystemInfoKeyKind(id);
    }
  }

  /** A write under a key of another kind leaves every system record in place. */
  lemma WriteKeepsRecordsFit(data: map<string, Value>, key: string, v: Value)
    requires SystemRecordsFit(data) && KindOf(key) != SystemInfoKind
    ensures SystemRecordsFit(data[key := v])
  {
    forall id: nat | SystemInfoKey(id) in data[key := v]
      ensures data[key := v][SystemInfoKey(id)].SystemRecord?
    {
      SystemInfoKeyKind(id);
    }
  }

  function Record(s: EsiSystem): Value {
    SystemRecord(s.name, s.constellationId, s.securityStatus, s.systemId)
  }

  /** The view of a stored record. */
  function Cached(r: Value): SystemView
    requires r.SystemRecord?
  {
    SystemView(r.name, Some(r.securityStatus), Some(r.systemId))
  }

  /** `getSystemInfo(id)` on the map `data`: the view it returns and the map after it. */
  function Lookup(data: map<string, Value>, id: nat, esi: map<nat, EsiSystem>): (o: Outcome<(SystemView, map<string, Value>)>)
    requires SystemRecordsFit(data)
    ensures o.Returned? ==> SystemRecordsFit(o.value.1)
    ensures o.Returned? && SystemInfoKey(id) in data ==>
      o.value.1 == data && o.value.0 == Cached(data[SystemInfoKey(id)])
    ensures o.Returned? && SystemInfoKey(id) !in data ==>
      (id in esi && o.value.1 == data[SystemInfoKey(id) := Record(esi[id])]
       && o.value.0 == SystemView(esi[id].name, None, None))
    ensures o.Threw? <==> SystemInfoKey(id) !in data && id !in esi
  {
    var key := SystemInfoKey(id);
    if key in data then
      Returned((Cached(data[key]), data))
    else if id in esi then
      var s := esi[id];
      var data' := data[key := Record(s)];
      assert SystemRecordsFit(data') by {
        forall id': nat | SystemInfoKey(id') in data' ensures data'[SystemInfoKey(id')].SystemRecord? {
          SystemInfoKeyInjective(id, id');
        }
      }
      Returned((SystemView(s.name, None, None), data'))
    else
      Threw
  }

  /** The first lookup of an uncached system and the next one disagree: only
      the second sees the security status. */
  lemma LookupNotIdempotent(data: map<string, Value>, id: nat, esi: map<nat, EsiSystem>)
    requires SystemRecordsFit(data) && SystemInfoKey(id) !in data && id in esi
    ensures Lookup(data, id, esi).Returned?
    ensures Lookup(data, id, esi).value.0.securityStatus == None
    ensures Lookup(Lookup(data, id, esi).value.1, id, esi) ==
      Returned((SystemView(esi[id].name, Some(esi[id].securityStatus), Some(esi[id].systemId)),
                Lookup(data, id, esi).value.1))
  {
  }

  method GetSystemInfo(store: Store, id: nat, esi: map<nat, EsiSystem>) returns (o: Outcome<SystemView>)
    requires store.Valid()
    modifies store
    ensures store.Valid()
    ensures SystemRecordsFit(old(store.data))
    ensures Lookup(old(store.data), id, esi).Threw? ==> o.Threw? && store.data == old(store.data)
    ensures Lookup(old(store.data), id, esi).Returned? ==>
      o == Returned(Lookup(old(store.data), id, esi).value.0) && store.data == Lookup(old(store.data), id, esi).value.1
    ensures store.ttl == old(store.ttl)
  {
    ValidRecordsFit(store);
    var key := SystemInfoKey(id);
    if key in store.data {
      var r := store.data[key];
      return Returned(SystemView(r.name, Some(r.securityStatus), Some(r.systemId)));
    }
    if id !in esi {
      return Threw;
    }
    var s := esi[id];
    SystemInfoKeyKind(id);
    store.Set(key, Record(s), None);
    o := Returned(SystemView(s.name, None, None));
  }

  /** `Promise.all(ids.map(getSystemInfo))`, one lookup after the other. */
  function LookupAll(data: map<string, Value>, ids: seq<nat>, esi: map<nat, EsiSystem>): (o: Outcome<(seq<SystemView>, map<string, Value>)>)
    requires SystemRecordsFit(data)
    ensures o.Returned? ==> |o.value.0| == |ids| && SystemRecordsFit(o.value.1)
    decreases |ids|
  {
    if |ids| == 0 then Returned(([], data))
    else
      match Lookup(data, ids[0], esi)
      case Threw => Threw
      case Returned((v, data')) =>
        match LookupAll(data', ids[1..], esi)
        case Threw => Threw
        case Returned((vs, data'')) => Returned(([v] + vs, data''))
  }

  /** The stored data once `LookupAll` is over: every lookup up to the first
      one that throws has stored its record, and that one stored nothing. */
  function LookupAllData(data: map<string, Value>, ids: seq<nat>, esi: map<nat, EsiSystem>): (d: map<string, Value>)
    requires SystemRecordsFit(data)
    ensures SystemRecordsFit(d)
    decreases |ids|
  {
    if |ids| == 0 then data
    else
      match Lookup(data, ids[0], esi)
      case Threw => data
      case Returned((_, data')) => LookupAllData(data', ids[1..], esi)
  }

  /** When every lookup succeeds, the data they leave is the data
      `LookupAll` returns. */
  lemma {:induction false} LookupAllDataReturned(data: map<string, Value>, ids: seq<nat>, esi: map<nat, EsiSystem>)
    requires SystemRecordsFit(data) && LookupAll(data, ids, esi).Returned?
    ensures LookupAllData(data, ids, esi) == LookupAll(data, ids, esi).value.1
    decreases |ids|
  {
    if |ids| > 0 {
      LookupAllDataReturned(Lookup(data, ids[0], esi).value.1, ids[1..], esi);
    }
  }

  /** `after` is `before` with some `systemInfo:` records added: every key
      already present keeps its value. */
  ghost predicate OnlyAddsRecords(before: map<string, Value>, after: map<string, Value>) {
    && (forall k | k in before :: k in after && after[k] == before[k])
    && (forall k | k in after && k !in before :: KindOf(k) == SystemInfoKind)
  }

  /** One lookup only adds its own `systemInfo:` record. */
  lemma LookupOnlyAddsRecords(data: map<string, Value>, id: nat, esi: map<nat, EsiSystem>)
    requires SystemRecordsFit(data) && Lookup(data, id, esi).Returned?
    ensures OnlyAddsRecords(data, Lookup(data, id, esi).value.1)
  {
    SystemInfoKeyKind(id);
  }

  lemma OnlyAddsRecordsTransitive(a: map<string, Value>, b: map<string, Value>, c: map<string, Value>)
    requires OnlyAddsRecords(a, b) && OnlyAddsRecords(b, c)
    ensures OnlyAddsRecords(a, c)
  {
  }

  /** The lookups up to the first failure only add `systemInfo:` records. */
  lemma {:induction false} LookupAllDataOnlyAddsRecords(data: map<string, Value>, ids: seq<nat>, esi: map<nat, EsiSystem>)
    requires SystemRecordsFit(data)
    ensures OnlyAddsRecords(data, LookupAllData(data, ids, esi))
    decreases |ids|
  {
    if |ids| > 0 && Lookup(data, ids[0], esi).Returned? {
      var data' := Lookup(data, ids[0], esi).value.1;
      LookupOnlyAddsRecords(data, ids[0], esi);
      LookupAllDataOnlyAddsRecords(data', ids[1..], esi);
      OnlyAddsRecordsTransitive(data, data', LookupAllData(data', ids[1..], esi));
    }
  }

  /** The lookups only add `systemInfo:` records. */
  lemma {:induction false} LookupAllOnlyAddsRecords(data: map<string, Value>, ids: seq<nat>, esi: map<nat, EsiSystem>)
    requires SystemRecordsFit(data) && LookupAll(data, ids, esi).Returned?
    ensures OnlyAddsRecords(data, LookupAll(data, ids, esi).value.1)
    decreases |ids|
  {
    if |ids| > 0 {
      var data' := Lookup(data, ids[0], esi).value.1;
      LookupAllOnlyAddsRecords(data', ids[1..], esi);
      SystemInfoKeyKind(ids[0]);
    }
  }

  /** Every id whose record was cached before the lookups comes back with its
      stored security status. */
  lemma {:induction false} LookupAllSeesCached(data: map<string, Value>, ids: seq<nat>, esi: map<nat, EsiSystem>, i: nat)
    requires SystemRecordsFit(data) && i < |ids| && SystemInfoKey(ids[i]) in data
    requires LookupAll(data, ids, esi).Returned?
    ensures LookupAll(data, ids, esi).value.0[i] == Cached(data[SystemInfoKey(ids[i])])
    decreases |ids|
  {
    var first := Lookup(data, ids[0], esi);
    var data' := first.value.1;
    assert data' == data || data' == data[SystemInfoKey(ids[0]) := Record(esi[ids[0]])];
    if i > 0 {
      assert SystemInfoKey(ids[i]) in data';
      if SystemInfoKey(ids[0]) != SystemInfoKey(ids[i]) {
        assert data'[SystemInfoKey(ids[i])] == data[SystemInfoKey(ids[i])];
      }
      LookupAllSeesCached(data', ids[1..], esi, i - 1);
    }
  }

  /** No lookup reports the security status or id of a system that was not
      cached when the lookups began, unless the same id came up earlier. */
  lemma {:induction false} LookupAllFreshUnseen(data: map<string, Value>, ids: seq<nat>, esi: map<nat, EsiSystem>, i: nat)
    requires SystemRecordsFit(data) && i < |ids| && SystemInfoKey(ids[i]) !in data
    requires ids[i] !in ids[..i]
    requires LookupAll(data, ids, esi).Returned?
    ensures LookupAll(data, ids, esi).value.0[i].securityStatus == None
    ensures LookupAll(data, ids, esi).value.0[i].systemId == None
    decreases |ids|
  {
    var data' := Lookup(data, ids[0], esi).value.1;
    if i > 0 {
      assert ids[0] in ids[..i];
      SystemInfoKeyInjective(ids[0], ids[i]);
      assert ids[1..][..i - 1] == ids[1..i];
      LookupAllFreshUnseen(data', ids[1..], esi, i - 1);
    }
  }

  method LookupSystems(store: Store, ids: seq<nat>, esi: map<nat, EsiSystem>) returns (o: Outcome<seq<SystemView>>)
    requires store.Valid()
    modifies store
    ensures store.Valid()
    ensures SystemRecordsFit(old(store.data))
    ensures LookupAll(old(store.data), ids, esi).Returned? ==>
      o == Returned(LookupAll(old(store.data), ids, esi).value.0) && store.data == LookupAll(old(store.data), ids, esi).value.1
    ensures LookupAll(old(store.data), ids, esi).Threw? ==> o.Threw?
    ensures store.data == LookupAllData(old(store.data), ids, esi)
    ensures OnlyAddsRecords(old(store.data), store.data)
    ensures store.ttl == old(store.ttl)
  {
    ValidRecordsFit(store);
    LookupAllDataOnlyAddsRecords(store.data, ids, esi);
    var views: seq<SystemView> := [];
    var i := 0;
    assert ids[0..] == ids;
    assert Prepend([], LookupAll(store.data, ids, esi)) == LookupAll(store.data, ids, esi) by {
      if LookupAll(store.data, ids, esi).Returned? {
        assert [] + LookupAll(store.data, ids, esi).value.0 == LookupAll(store.data, ids, esi).value.0;
      }
    }
    while i < |ids|
      invariant 0 <= i <= |ids|
      invariant store.Valid() && store.ttl == old(store.ttl)
      invariant SystemRecordsFit(store.data)
      invariant LookupAll(old(store.data), ids, esi) == Prepend(views, LookupAll(store.data, ids[i..], esi))
      invariant LookupAllData(old(store.data), ids, esi) == LookupAllData(store.data, ids[i..], esi)
      decreases |ids| - i
    {
      PrependStep(views, store.data, ids[i..], esi);
      var v := GetSystemInfo(store, ids[i], esi);
      if v.Threw? {
        return Threw;
      }
      assert ids[i..][1..] == ids[i + 1..];
      views := views + [v.value];
      i := i + 1;
    }
    assert ids[i..] == [];
    assert views + [] == views;
    o := Returned(views);
  }

  /** Prefix `views` to the views of a successful lookup. */
  function Prepend(views: seq<SystemView>, o: Outcome<(seq<SystemView>, map<string, Value>)>): Outcome<(seq<SystemView>, map<string, Value>)> {
    match o
    case Threw => Threw
    case Returned((vs, d)) => Returned((views + vs, d))
  }

  /** One lookup of the loop in `LookupSystems`. */
  lemma PrependStep(views: seq<SystemView>, data: map<string, Value>, ids: seq<nat>, esi: map<nat, EsiSystem>)
    requires SystemRecordsFit(data) && |ids| > 0
    ensures Lookup(data, ids[0], esi).Threw? ==>
      Prepend(views, LookupAll(data, ids, esi)).Threw? && LookupAllData(data, ids, esi) == data
    ensures Lookup(data, ids[0], esi).Returned? ==>
      && Prepend(views, LookupAll(data, ids, esi)) ==
         Prepend(views + [Lookup(data, ids[0], esi).value.0], LookupAll(Lookup(data, ids[0], esi).value.1, ids[1..], esi))
      && LookupAllData(data, ids, esi) == LookupAllData(Lookup(data, ids[0], esi).value.1, ids[1..], esi)
  {
    var first := Lookup(data, ids[0], esi);
    if first.Returned? {
      var rest := LookupAll(first.value.1, ids[1..], esi);
      if rest.Returned? {
        assert views + ([first.value.0] + rest.value.0) == views + [first.value.0] + rest.value.0;
      }
    }
  }

  /** The value the gates job's `securityMap` holds for `id`: the security
      status of the last view carrying that `systemId`. */
  function LastSecurity(views: seq<SystemView>, id: nat): Option<real>
    decreases |views|
  {
    if |views| == 0 then None
    else if views[|views| - 1].systemId == Some(id) then views[|views| - 1].securityStatus
    else LastSecurity(views[..|views| - 1], id)
  }

  /** The two loops of the gates job (index.ts:524-532): fill `securityMap`
      from the views, then read one security per system of the route. */
  method Securities(views: seq<SystemView>, route: seq<nat>) returns (secs: seq<Option<real>>)
    ensures |secs| == |route|
    ensures forall i :: 0 <= i < |route| ==> secs[i] == LastSecurity(views, route[i])
  {
    var securityMap: map<nat, Option<real>> := map[];
    var j := 0;
    while j < |views|
      invariant 0 <= j <= |views|
      invariant forall id :: id in securityMap ==> securityMap[id] == LastSecurity(views[..j], id)
      invariant forall id :: id !in securityMap ==> LastSecurity(views[..j], id) == None
    {
      assert views[..j + 1][..j] == views[..j];
      if views[j].systemId.Some? {
        securityMap := securityMap[views[j].systemId.value := views[j].securityStatus];
      }
      j := j + 1;
    }
    assert views[..j] == views;
    secs := [];
    var i := 0;
    while i < |route|
      invariant 0 <= i <= |route|
      invariant |secs| == i
      invariant forall k :: 0 <= k < i ==> secs[k] == LastSecurity(views, route[k])
    {
      var s := if route[i] in securityMap then securityMap[route[i]] else None;
      secs := secs + [s];
      i := i + 1;
    }
  }
}
