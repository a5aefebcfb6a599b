/** The HTTP handlers of the server other than `/api/mainland`
    (index.ts:5-12, 51-117): `/api/systems` and `/api/route`. The upstream
    services' replies are inputs, bundled in `Upstream`; `nowMs` stands for
    the clock and `rs` for the `Math.random()` draw of each adapter. */
module RouteApi {
  import opened Wrappers
  import opened Text
  import opened Quotes
  import opened RouteKeys
  import opened KeyValue
  import opened Topology
  import opened Adapters

  // ----- /api/systems (index.ts:5-12) -----

  const NamesVersion: string := "20211018"

  datatype SystemsResponse = SystemsResponse(systemNames: seq<string>, version: string)

  /** A client that already holds the current list gets an empty one. */
  function HandleSystems(names: seq<string>, clientVersion: Option<string>): (resp: SystemsResponse)
    ensures resp.version == NamesVersion
    ensures resp.systemNames == [] || resp.systemNames == names
    ensures clientVersion == Some(NamesVersion) ==> resp.systemNames == []
    ensures clientVersion != Some(NamesVersion) ==> resp.systemNames == names
  {
    if clientVersion != Some(NamesVersion) then SystemsResponse(names, NamesVersion)
    else SystemsResponse([], NamesVersion)
  }

  // ----- provider selection (index.ts:62-75, 117) -----

  /** `providerFunctions`: the order adapters run in by default. */
  const DefaultProviders: seq<Adapter> := [RedFrog, PurpleFrog, BlackFrog, Ghsol, Push]

  /** The name of an adapter in the `providers` query parameter. */
  function Token(a: Adapter): (t: string)
    ensures ',' !in t
  {
    match a
    case RedFrog => "redfrog"
    case PurpleFrog => "purplefrog"
    case BlackFrog => "blackfrog"
    case Push => "pushx"
    case Ghsol => "ghsol"
  }

  /** The `switch` of the provider list; any other name maps to `null`. */
  function AdapterOf(token: string): (a: Option<Adapter>)
    ensures a.Some? ==> Token(a.value) == token
  {
    if token == "redfrog" then Some(RedFrog)
    else if token == "purplefrog" then Some(PurpleFrog)
    else if token == "blackfrog" then Some(BlackFrog)
    else if token == "pushx" then Some(Push)
    else if token == "ghsol" then Some(Ghsol)
    else None
  }

  lemma AdapterOfToken(a: Adapter)
    ensures AdapterOf(Token(a)) == Some(a)
  {
  }

  /** `.map(switch).filter(x => x)`: known names in order, unknown ones dropped. */
  function Choose(tokens: seq<string>): (ps: seq<Adapter>)
    ensures |ps| <= |tokens|
    ensures forall a :: a in ps ==> Token(a) in tokens
  {
    if |tokens| == 0 then []
    else
      var rest := Choose(tokens[1..]);
      assert forall t :: t in tokens[1..] ==> t in tokens;
      match AdapterOf(tokens[0])
      case Some(a) => [a] + rest
      case None => rest
  }

  function Tokens(ps: seq<Adapter>): (ts: seq<string>)
    ensures |ts| == |ps|
    ensures forall i :: 0 <= i < |ps| ==> ts[i] == Token(ps[i])
  {
    if |ps| == 0 then [] else [Token(ps[0])] + Tokens(ps[1..])
  }

  /** The adapters a request runs: the default ones when `providers` is
      absent or empty. */
  function ParseProviders(providers: Option<string>): (ps: seq<Adapter>)
    ensures providers.None? || providers.value == "" ==> ps == DefaultProviders
  {
    if providers.None? || providers.value == "" then DefaultProviders
    else Choose(Split(providers.value, ','))
  }

  lemma {:induction false} ChooseTokens(ps: seq<Adapter>)
    ensures Choose(Tokens(ps)) == ps
  {
    if |ps| > 0 {
      assert Tokens(ps)[1..] == Tokens(ps[1..]);
      AdapterOfToken(ps[0]);
      ChooseTokens(ps[1..]);
    }
  }

  /** Naming any non-empty list of adapters, comma-separated, runs exactly
      those adapters in that order. */
  lemma ParseProvidersRoundTrip(ps: seq<Adapter>)
    requires |ps| >= 1
    ensures Join(Tokens(ps), ",") != ""
    ensures ParseProviders(Some(Join(Tokens(ps), ","))) == ps
  {
    var ts := Tokens(ps);
    var joined := Join(ts, ",");
    assert joined != "" by {
      TokensHaveNoComma(ps);
      JoinNonEmpty(ts);
    }
    assert Split(joined, ',') == ts by {
      TokensHaveNoComma(ps);
      assert [','] == ",";
      SplitJoin(ts, ',');
    }
    assert Choose(ts) == ps by {
      ChooseTokens(ps);
    }
    ParseSplit(joined, ts, ps);
  }

  lemma ParseSplit(s: string, ts: seq<string>, ps: seq<Adapter>)
    requires s != "" && Split(s, ',') == ts && Choose(ts) == ps
    ensures ParseProviders(Some(s)) == ps
  {
  }

  lemma TokensHaveNoComma(ps: seq<Adapter>)
    requires |ps| >= 1
    ensures Tokens(ps)[0] != ""
    ensures forall i :: 0 <= i < |Tokens(ps)| ==> ',' !in Tokens(ps)[i]
  {
    assert Tokens(ps)[0] == Token(ps[0]);
  }

  lemma {:induction false} JoinNonEmpty(ts: seq<string>)
    requires |ts| >= 1 && ts[0] != ""
    ensures Join(ts, ",") != ""
  {
    if |ts| > 1 {
      assert |Join(ts, ",")| >= |ts[0]|;
    }
  }

  /** One name runs its adapter, or nothing when the name is unknown. */
  lemma ChooseSingle(t: string)
    ensures Choose([t]) == if AdapterOf(t).Some? then [AdapterOf(t).value] else []
  {
    assert [t][1..] == [];
  }

  /** The names are read one by one: the adapters of a concatenation are
      those of each part, in order. */
  lemma {:induction false} ChooseAppend(a: seq<string>, b: seq<string>)
    ensures Choose(a + b) == Choose(a) + Choose(b)
    decreases |a|
  {
    if |a| == 0 {
      assert a + b == b;
    } else {
      assert (a + b)[0] == a[0];
      assert (a + b)[1..] == a[1..] + b;
      ChooseAppend(a[1..], b);
      if AdapterOf(a[0]).Some? {
        assert [AdapterOf(a[0]).value] + (Choose(a[1..]) + Choose(b))
            == [AdapterOf(a[0]).value] + Choose(a[1..]) + Choose(b);
      }
    }
  }

  /** An unknown name in the middle of the list is skipped. */
  lemma ChooseSkipsUnknown()
    ensures Choose(["redfrog", "foo", "pushx"]) == [RedFrog, Push]
  {
    ChooseSingle("redfrog");
    ChooseSingle("foo");
    ChooseSingle("pushx");
    ChooseAppend(["foo"], ["pushx"]);
    ChooseAppend(["redfrog"], ["foo", "pushx"]);
    assert ["redfrog"] + ["foo", "pushx"] == ["redfrog", "foo", "pushx"];
  }

  /** A list naming no known adapter runs none. */
  lemma {:induction false} UnknownNamesRunNothing(tokens: seq<string>)
    requires forall i :: 0 <= i < |tokens| ==> AdapterOf(tokens[i]).None?
    ensures Choose(tokens) == []
  {
    if |tokens| > 0 {
      UnknownNamesRunNothing(tokens[1..]);
    }
  }

  // ----- /api/route (index.ts:51-115) -----

  /** The upstream replies the adapters would get for this request. */
  datatype Upstream = Upstream(
    push: Reply<PushQuote>, ghsolIds: Reply<seq<nat>>, esi: map<nat, EsiSystem>,
    red: Reply<FrogQuote>, purple: Reply<FrogQuote>, black: Reply<FrogQuote>)

  /** What the client receives: the 400, or the flattened entries. */
  datatype RouteResponse = MissingParameter | Providers(entries: seq<Entry>)

  /** `!volume || !collateral || !origin || !destination` on the query
      strings: only an absent or empty parameter is falsy. */
  predicate Missing(params: RouteParameters) {
    || params.volume.None? || params.collateral.None?
    || params.origin.None? || params.origin.value == ""
    || params.destination.None? || params.destination.value == ""
  }

  /** The keys the adapters write: route records, rate markers and system records. */
  predicate AdapterKind(k: Kind) {
    k.RouteKind? || k == RateKind || k == SystemInfoKind
  }

  /** `after` differs from `before` only in keys an adapter writes. */
  ghost predicate AdapterFrame(before: map<string, Value>, after: map<string, Value>) {
    && (forall k | k in before :: k in after && (AdapterKind(KindOf(k)) || after[k] == before[k]))
    && (forall k | k in after && k !in before :: AdapterKind(KindOf(k)))
  }

  lemma FrameOfWrite(before: map<string, Value>, key: string, v: Value)
    requires AdapterKind(KindOf(key))
    ensures AdapterFrame(before, before[key := v])
  {
  }

  lemma FrameOfRecords(before: map<string, Value>, after: map<string, Value>)
    requires OnlyAddsRecords(before, after)
    ensures AdapterFrame(before, after)
  {
  }

  lemma FrameTransitive(a: map<string, Value>, b: map<string, Value>, c: map<string, Value>)
    requires AdapterFrame(a, b) && AdapterFrame(b, c)
    ensures AdapterFrame(a, c)
  {
  }

  /** One adapter of `providerFunctions` on the stored data: its outcome and
      the data it leaves behind. */
  function AdapterStep(a: Adapter, data: map<string, Value>, params: RouteParameters, nowMs: nat, up: Upstream)
    : (r: (Outcome<RouteRecord>, map<string, Value>))
    requires SystemRecordsFit(data)
    ensures r.0.Threw? ==> a == Ghsol
  {
    match a
    case Push =>
      var step := PushStep(data, params, nowMs, up.push);
      (Returned(step.0), step.1)
    case Ghsol => GhsolStep(data, params, up.ghsolIds, up.esi)
    case BlackFrog =>
      var step := FrogStep(BlackFrog, data, params, up.black);
      (Returned(step.0), step.1)
    case RedFrog =>
      var step := FrogStep(RedFrog, data, params, up.red);
      (Returned(step.0), step.1)
    case PurpleFrog =>
      var step := FrogStep(PurpleFrog, data, params, up.purple);
      (Returned(step.0), step.1)
  }

  /** Every adapter refuses a capped request and answers a stored one from
      the cache, both without touching the store. */
  lemma AdapterStepGate(a: Adapter, data: map<string, Value>, params: RouteParameters, nowMs: nat, up: Upstream)
    requires SystemRecordsFit(data)
    ensures GateOf(a, params, data).Capped? ==>
      AdapterStep(a, data, params, nowMs, up) == (Returned(Refusal(a, GateOf(a, params, data).message)), data)
    ensures GateOf(a, params, data).Hit? ==>
      AdapterStep(a, data, params, nowMs, up) == (Returned(MarkCached(GateOf(a, params, data).rec)), data)
  {
  }

  /** No adapter stores anything but a system record under a `systemInfo:` key. */
  lemma AdapterStepFits(a: Adapter, data: map<string, Value>, params: RouteParameters, nowMs: nat, up: Upstream)
    requires SystemRecordsFit(data)
    ensures SystemRecordsFit(AdapterStep(a, data, params, nowMs, up).1)
  {
    RouteKeyKind(a, params);
    match a {
      case Push =>
        RateKeyKind(nowMs);
        WriteKeepsRecordsFit(data, RateKey(nowMs), RateMarker(nowMs));
        if PushOutcome(up.push).Some? {
          WriteKeepsRecordsFit(data[RateKey(nowMs) := RateMarker(nowMs)], RouteKey(Push, params),
                               Route(PushOutcome(up.push).value));
        }
      case Ghsol =>
        if up.ghsolIds.Ok? && LookupAll(data, up.ghsolIds.payload, up.esi).Returned? {
          var lookups := LookupAll(data, up.ghsolIds.payload, up.esi).value;
          WriteKeepsRecordsFit(lookups.1, RouteKey(Ghsol, params), Route(GhsolRecord(lookups.0, params.collateral)));
        }
      case BlackFrog =>
        WriteKeepsRecordsFit(data, RouteKey(a, params), Route(FrogStep(BlackFrog, data, params, up.black).0));
      case RedFrog =>
        WriteKeepsRecordsFit(data, RouteKey(a, params), Route(FrogStep(RedFrog, data, params, up.red).0));
      case PurpleFrog =>
        WriteKeepsRecordsFit(data, RouteKey(a, params), Route(FrogStep(PurpleFrog, data, params, up.purple).0));
    }
  }

  lemma PushStepFrame(data: map<string, Value>, params: RouteParameters, nowMs: nat, reply: Reply<PushQuote>)
    ensures AdapterFrame(data, PushStep(data, params, nowMs, reply).1)
  {
    RouteKeyKind(Push, params);
    RateKeyKind(nowMs);
    var marked := data[RateKey(nowMs) := RateMarker(nowMs)];
    FrameOfWrite(data, RateKey(nowMs), RateMarker(nowMs));
    if PushOutcome(reply).Some? {
      FrameOfWrite(marked, RouteKey(Push, params), Route(PushOutcome(reply).value));
      FrameTransitive(data, marked, marked[RouteKey(Push, params) := Route(PushOutcome(reply).value)]);
    }
  }

  lemma GhsolStepFrame(data: map<string, Value>, params: RouteParameters, ids: Reply<seq<nat>>, esi: map<nat, EsiSystem>)
    requires SystemRecordsFit(data)
    ensures AdapterFrame(data, GhsolStep(data, params, ids, esi).1)
  {
    if ids.Ok? {
      var lookups := LookupAll(data, ids.payload, esi);
      if lookups.Returned? {
        RouteKeyKind(Ghsol, params);
        LookupAllOnlyAddsRecords(data, ids.payload, esi);
        FrameOfRecords(data, lookups.value.1);
        var rec := GhsolRecord(lookups.value.0, params.collateral);
        FrameOfWrite(lookups.value.1, RouteKey(Ghsol, params), Route(rec));
        FrameTransitive(data, lookups.value.1, lookups.value.1[RouteKey(Ghsol, params) := Route(rec)]);
      } else {
        LookupAllDataOnlyAddsRecords(data, ids.payload, esi);
        FrameOfRecords(data, LookupAllData(data, ids.payload, esi));
      }
    }
  }

  lemma FrogStepFrame(a: Frog, data: map<string, Value>, params: RouteParameters, reply: Reply<FrogQuote>)
    ensures AdapterFrame(data, FrogStep(a, data, params, reply).1)
  {
    RouteKeyKind(a, params);
    FrameOfWrite(data, RouteKey(a, params), Route(FrogStep(a, data, params, reply).0));
  }

  /** An adapter writes only route records, rate markers and system records. */
  lemma AdapterStepFrame(a: Adapter, data: map<string, Value>, params: RouteParameters, nowMs: nat, up: Upstream)
    requires SystemRecordsFit(data)
    ensures AdapterFrame(data, AdapterStep(a, data, params, nowMs, up).1)
  {
    match a {
      case Push => PushStepFrame(data, params, nowMs, up.push);
      case Ghsol => GhsolStepFrame(data, params, up.ghsolIds, up.esi);
      case BlackFrog => FrogStepFrame(BlackFrog, data, params, up.black);
      case RedFrog => FrogStepFrame(RedFrog, data, params, up.red);
      case PurpleFrog => FrogStepFrame(PurpleFrog, data, params, up.purple);
    }
  }

  /** The adapters of `ps` on the stored data, one after the other: whether
      none threw, the records of those that returned, in list order, and the
      data they leave behind. */
  function RunAll(ps: seq<Adapter>, data: map<string, Value>, params: RouteParameters, nowMs: nat, up: Upstream)
    : (r: (bool, seq<RouteRecord>, map<string, Value>))
    requires SystemRecordsFit(data)
    ensures SystemRecordsFit(r.2)
    ensures r.0 ==> |r.1| == |ps|
    ensures !r.0 ==> Ghsol in ps
    decreases |ps|
  {
    if |ps| == 0 then (true, [], data)
    else
      var earlier := RunAll(ps[..|ps| - 1], data, params, nowMs, up);
      AdapterStepFits(ps[|ps| - 1], earlier.2, params, nowMs, up);
      var step := AdapterStep(ps[|ps| - 1], earlier.2, params, nowMs, up);
      assert Ghsol in ps[..|ps| - 1] ==> Ghsol in ps;
      if step.0.Threw? then (false, earlier.1, step.1)
      else (earlier.0, earlier.1 + [step.0.value], step.1)
  }

  /** Running one more adapter extends the fold by that adapter's step. */
  lemma RunAllSnoc(ps: seq<Adapter>, i: nat, data: map<string, Value>, params: RouteParameters, nowMs: nat, up: Upstream,
                   completed: bool, records: seq<RouteRecord>, mid: map<string, Value>,
                   o: Outcome<RouteRecord>, after: map<string, Value>)
    requires SystemRecordsFit(data) && i < |ps|
    requires (completed, records, mid) == RunAll(ps[..i], data, params, nowMs, up)
    requires (o, after) == AdapterStep(ps[i], mid, params, nowMs, up)
    ensures RunAll(ps[..i + 1], data, params, nowMs, up) ==
      if o.Threw? then (false, records, after) else (completed, records + [o.value], after)
  {
    assert ps[..i + 1][..i] == ps[..i];
  }

  /** Together the adapters write only route records, rate markers and
      system records. */
  lemma {:induction false} RunAllFrame(ps: seq<Adapter>, data: map<string, Value>, params: RouteParameters, nowMs: nat, up: Upstream)
    requires SystemRecordsFit(data)
    ensures AdapterFrame(data, RunAll(ps, data, params, nowMs, up).2)
    decreases |ps|
  {
    if |ps| > 0 {
      var earlier := RunAll(ps[..|ps| - 1], data, params, nowMs, up);
      RunAllFrame(ps[..|ps| - 1], data, params, nowMs, up);
      AdapterStepFrame(ps[|ps| - 1], earlier.2, params, nowMs, up);
      FrameTransitive(data, earlier.2, AdapterStep(ps[|ps| - 1], earlier.2, params, nowMs, up).1);
    }
  }

  /** One adapter of `providerFunctions` applied to the request. Only the
      Galactic Hauling Solutions adapter can throw. */
  method CallAdapter(store: Store, a: Adapter, params: RouteParameters, nowMs: nat, r: real, up: Upstream)
    returns (o: Outcome<RouteRecord>)
    requires store.Valid() && 0.0 <= r < 1.0
    modifies store
    ensures store.Valid()
    ensures AdapterFrame(old(store.data), store.data)
    ensures SystemRecordsFit(old(store.data))
    ensures (o, store.data) == AdapterStep(a, old(store.data), params, nowMs, up)
    ensures o.Returned? ==> RecordFrom(o.value, a) && WellFormedRecord(o.value)
  {
    ValidRecordsFit(store);
    ghost var before := store.data;
    AdapterStepFrame(a, before, params, nowMs, up);
    var rec: RouteRecord;
    match a {
      case Push =>
        rec := GetPushX(store, params, nowMs, r, up.push);
      case Ghsol =>
        o := GetGhsol(store, params, up.ghsolIds, up.esi);
        return;
      case BlackFrog =>
        rec := GetBlackFrog(store, params, r, up.black);
      case RedFrog =>
        rec := GetRedFrog(store, params, r, up.red);
      case PurpleFrog =>
        rec := GetPurpleFrog(store, params, r, up.purple);
    }
    o := Returned(rec);
  }

  /** A key under `distance:<origin>:<destination>:` is a distance record. */
  lemma DistancePrefixKind(k: string, origin: Option<string>, destination: Option<string>)
    requires HasPrefix(k, DistancePrefix(origin, destination))
    ensures KindOf(k) == DistanceKind
  {
    var p := DistancePrefix(origin, destination);
    assert k == p + k[|p|..];
    DistanceKeyKind(origin, destination, k[|p|..]);
  }

  /** No distance record of the route is stored. */
  predicate NoDistance(data: map<string, Value>, origin: Option<string>, destination: Option<string>) {
    forall k | k in data :: !HasPrefix(k, DistancePrefix(origin, destination))
  }

  /** The adapters neither add nor remove distance records. */
  lemma AdaptersKeepDistances(before: map<string, Value>, after: map<string, Value>,
                              origin: Option<string>, destination: Option<string>)
    requires AdapterFrame(before, after)
    ensures NoDistance(before, origin, destination) <==> NoDistance(after, origin, destination)
  {
    forall k | k in after && HasPrefix(k, DistancePrefix(origin, destination))
      ensures k in before
    {
      DistancePrefixKind(k, origin, destination);
    }
  }

  /** Writing a key that is not a distance record keeps the route's distances. */
  lemma WriteKeepsDistances(data: map<string, Value>, key: string, v: Value,
                            origin: Option<string>, destination: Option<string>)
    requires KindOf(key) != DistanceKind
    ensures NoDistance(data, origin, destination) <==> NoDistance(data[key := v], origin, destination)
  {
    if HasPrefix(key, DistancePrefix(origin, destination)) {
      DistancePrefixKind(key, origin, destination);
    }
  }

  /** `Promise.all(pf.map(provider => provider(routeParams)))`, one adapter
      after the other in list order. If one throws the others still run;
      `completed` says none threw, and then `records` holds their results. */
  method RunAdapters(store: Store, ps: seq<Adapter>, params: RouteParameters, nowMs: nat, rs: seq<real>, up: Upstream)
    returns (completed: bool, records: seq<RouteRecord>)
    requires store.Valid()
    requires |rs| == |ps| && forall i :: 0 <= i < |rs| ==> 0.0 <= rs[i] < 1.0
    modifies store
    ensures store.Valid()
    ensures SystemRecordsFit(old(store.data))
    ensures (completed, records, store.data) == RunAll(ps, old(store.data), params, nowMs, up)
    ensures !completed ==> Ghsol in ps
    ensures completed ==>
      && |records| == |ps|
      && forall i :: 0 <= i < |records| ==> RecordFrom(records[i], ps[i]) && WellFormedRecord(records[i])
  {
    ValidRecordsFit(store);
    ghost var before := store.data;
    completed, records := true, [];
    var i := 0;
    while i < |ps|
      invariant 0 <= i <= |ps|
      invariant store.Valid()
      invariant (completed, records, store.data) == RunAll(ps[..i], before, params, nowMs, up)
      invariant completed ==> forall j :: 0 <= j < |records| ==> RecordFrom(records[j], ps[j]) && WellFormedRecord(records[j])
      decreases |ps| - i
    {
      ghost var mid := store.data;
      var out := CallAdapter(store, ps[i], params, nowMs, rs[i], up);
      RunAllSnoc(ps, i, before, params, nowMs, up, completed, records, mid, out, store.data);
      if out.Threw? {
        completed := false;
      } else {
        records := records + [out.value];
      }
      i := i + 1;
    }
    assert ps[..i] == ps;
  }

  /** The tail of the handler (index.ts:78-112): enqueue both distance jobs
      when the route has no distance record, then store the response under
      `results:<now>` without TTL. */
  method EnqueueAndRecord(store: Store, params: RouteParameters, nowMs: nat, providers: seq<Entry>)
    requires store.Valid()
    modifies store
    ensures store.Valid()
    ensures store.data == AfterRecord(old(store.data), params, nowMs, providers)
  {
    ghost var before := store.data;
    var job := DistanceJob(params.origin, params.destination);
    var stored := store.KeysWithPrefix(DistancePrefix(params.origin, params.destination));
    NoDistanceIffNoKeys(store, params.origin, params.destination);
    if stored == {} {
      JobsFit(params.origin, params.destination);
      store.Set(GatesJobKey(params.origin, params.destination), job, None);
      store.Set(LightyearsJobKey(params.origin, params.destination), job, None);
    }
    HistoryFits(nowMs, providers);
    store.Set(ResultsKey(nowMs), History(providers), None);
  }

  lemma JobsFit(origin: Option<string>, destination: Option<string>)
    ensures Fits(KindOf(GatesJobKey(origin, destination)), DistanceJob(origin, destination))
    ensures Fits(KindOf(LightyearsJobKey(origin, destination)), DistanceJob(origin, destination))
  {
    GatesJobKeyKind(origin, destination);
    LightyearsJobKeyKind(origin, destination);
  }

  lemma HistoryFits(nowMs: nat, providers: seq<Entry>)
    ensures Fits(KindOf(ResultsKey(nowMs)), History(providers))
  {
    ResultsKeyKind(nowMs);
  }

  /** `data.get('distance:<origin>:<destination>:*')` is empty exactly when
      the route has no distance record. */
  lemma NoDistanceIffNoKeys(store: Store, origin: Option<string>, destination: Option<string>)
    ensures store.KeysWithPrefix(DistancePrefix(origin, destination)) == {} <==> NoDistance(store.data, origin, destination)
  {
    var ks := store.KeysWithPrefix(DistancePrefix(origin, destination));
    if ks != {} {
      var k :| k in ks;
      assert !NoDistance(store.data, origin, destination);
    }
  }

  /** The map after `EnqueueAndRecord`: both jobs queued when the route has
      no distance record, then the response under `results:<nowMs>`. */
  ghost function AfterRecord(data: map<string, Value>, params: RouteParameters, nowMs: nat, providers: seq<Entry>): map<string, Value> {
    var job := DistanceJob(params.origin, params.destination);
    var queued :=
      if NoDistance(data, params.origin, params.destination)
      then data[GatesJobKey(params.origin, params.destination) := job][LightyearsJobKey(params.origin, params.destination) := job]
      else data;
    queued[ResultsKey(nowMs) := History(providers)]
  }

  /** After the handler's tail `results:<nowMs>` holds the response and,
      when the route had no distance record, both jobs are queued; otherwise
      nothing else changed. */
  lemma AfterRecordValues(data: map<string, Value>, params: RouteParameters, nowMs: nat, providers: seq<Entry>)
    ensures var after := AfterRecord(data, params, nowMs, providers);
      && ResultsKey(nowMs) in after && after[ResultsKey(nowMs)] == History(providers)
      && (NoDistance(data, params.origin, params.destination) ==>
            && GatesJobKey(params.origin, params.destination) in after
            && after[GatesJobKey(params.origin, params.destination)] == DistanceJob(params.origin, params.destination)
            && LightyearsJobKey(params.origin, params.destination) in after
            && after[LightyearsJobKey(params.origin, params.destination)] == DistanceJob(params.origin, params.destination))
      && (!NoDistance(data, params.origin, params.destination) ==>
            after == data[ResultsKey(nowMs) := History(providers)])
  {
    GatesJobKeyKind(params.origin, params.destination);
    LightyearsJobKeyKind(params.origin, params.destination);
    ResultsKeyKind(nowMs);
  }

  /** What the handler's tail changes: only the jobs and `results:<nowMs>`,
      and never whether the route has a distance record. */
  lemma AfterRecordFrame(data: map<string, Value>, params: RouteParameters, nowMs: nat, providers: seq<Entry>)
    ensures RecordFrame(data, AfterRecord(data, params, nowMs, providers), nowMs)
    ensures NoDistance(data, params.origin, params.destination)
        <==> NoDistance(AfterRecord(data, params, nowMs, providers), params.origin, params.destination)
  {
    var job := DistanceJob(params.origin, params.destination);
    var gatesJob := GatesJobKey(params.origin, params.destination);
    var lightyearsJob := LightyearsJobKey(params.origin, params.destination);
    GatesJobKeyKind(params.origin, params.destination);
    LightyearsJobKeyKind(params.origin, params.destination);
    ResultsKeyKind(nowMs);
    var queued := data;
    if NoDistance(data, params.origin, params.destination) {
      WriteKeepsDistances(data, gatesJob, job, params.origin, params.destination);
      WriteKeepsDistances(data[gatesJob := job], lightyearsJob, job, params.origin, params.destination);
      queued := data[gatesJob := job][lightyearsJob := job];
    }
    WriteKeepsDistances(queued, ResultsKey(nowMs), History(providers), params.origin, params.destination);
  }

  /** `GET /api/route`. The 400 for a missing parameter does not end the
      handler: the adapters, the distance jobs and the history still run
      (with `undefined` in the keys), and the client keeps the 400. If an
      adapter throws, the others' writes stay, nothing else is written, and
      a client not already answered gets no response. The `distances` of
      the response are never set. */
  method HandleRoute(store: Store, params: RouteParameters, nowMs: nat, rs: seq<real>, up: Upstream)
    returns (o: Outcome<RouteResponse>, completed: bool, records: seq<RouteRecord>)
    requires store.Valid()
    requires |rs| == |ParseProviders(params.providers)| && forall i :: 0 <= i < |rs| ==> 0.0 <= rs[i] < 1.0
    modifies store
    ensures store.Valid()
    ensures SystemRecordsFit(old(store.data))
    ensures var run := RunAll(ParseProviders(params.providers), old(store.data), params, nowMs, up);
      && completed == run.0 && records == run.1
      && store.data == if completed then AfterRecord(run.2, params, nowMs, Flatten(records)) else run.2
    ensures Missing(params) ==> o == Returned(MissingParameter)
    ensures !Missing(params) ==> (o.Threw? <==> !completed)
    ensures o.Returned? && o.value.Providers? ==>
      forall e | e in o.value.entries :: e.provider in ParseProviders(params.providers) && WellFormed(e)
    ensures !completed ==> Ghsol in ParseProviders(params.providers)
    ensures completed ==>
      && |records| == |ParseProviders(params.providers)|
      && (forall i :: 0 <= i < |records| ==>
            RecordFrom(records[i], ParseProviders(params.providers)[i]) && WellFormedRecord(records[i]))
      && (!Missing(params) ==> o == Returned(Providers(Flatten(records))))
      && ResultsKey(nowMs) in store.data && store.data[ResultsKey(nowMs)] == History(Flatten(records))
    ensures completed && NoDistance(old(store.data), params.origin, params.destination) ==>
      && GatesJobKey(params.origin, params.destination) in store.data
      && store.data[GatesJobKey(params.origin, params.destination)] == DistanceJob(params.origin, params.destination)
      && LightyearsJobKey(params.origin, params.destination) in store.data
      && store.data[LightyearsJobKey(params.origin, params.destination)] == DistanceJob(params.origin, params.destination)
    ensures !(completed && NoDistance(old(store.data), params.origin, params.destination)) ==>
      KeepsJobs(old(store.data), store.data)
    ensures KeepsOthers(old(store.data), store.data, nowMs)
    ensures NoDistance(old(store.data), params.origin, params.destination)
        <==> NoDistance(store.data, params.origin, params.destination)
  {
    ghost var start := store.data;
    var ps := ParseProviders(params.providers);
    completed, records := RunAdapters(store, ps, params, nowMs, rs, up);
    ghost var mid := store.data;
    RunAllFrame(ps, start, params, nowMs, up);
    AdaptersKeepDistances(start, mid, params.origin, params.destination);
    AdapterFrameKeeps(start, mid, nowMs);
    if !completed {
      o := if Missing(params) then Returned(MissingParameter) else Threw;
      return;
    }
    var providers := Flatten(records);
    assert forall e | e in providers :: e.provider in ps && WellFormed(e) by {
      FlattenProviders(records, ps);
      FlattenWellFormed(records);
    }
    EnqueueAndRecord(store, params, nowMs, providers);
    AfterRecordFrame(mid, params, nowMs, providers);
    AfterRecordValues(mid, params, nowMs, providers);
    ComposeFrames(start, mid, store.data, nowMs);
    if !NoDistance(start, params.origin, params.destination) {
      ResultsKeepJobs(start, mid, nowMs, History(providers));
    }
    o := if Missing(params) then Returned(MissingParameter) else Returned(Providers(providers));
  }

  /** Every distance-job key of `before` keeps its value in `after`. */
  ghost predicate KeepsJobs(before: map<string, Value>, after: map<string, Value>) {
    forall k | k in before && (KindOf(k) == GatesJobKind || KindOf(k) == LightyearsJobKind) ::
      k in after && after[k] == before[k]
  }

  /** Every key of `before` that is not written by an adapter, is not a
      distance job and is not `results:<nowMs>` keeps its value in `after`. */
  ghost predicate KeepsOthers(before: map<string, Value>, after: map<string, Value>, nowMs: nat) {
    forall k | k in before && !AdapterKind(KindOf(k)) && KindOf(k) != GatesJobKind
               && KindOf(k) != LightyearsJobKind && k != ResultsKey(nowMs) ::
      k in after && after[k] == before[k]
  }

  /** `after` differs from `before` only in `results:<nowMs>` and the distance jobs. */
  ghost predicate RecordFrame(before: map<string, Value>, after: map<string, Value>, nowMs: nat) {
    && (forall k | k in before && KindOf(k) != GatesJobKind && KindOf(k) != LightyearsJobKind
                   && k != ResultsKey(nowMs) ::
          k in after && after[k] == before[k])
    && (forall k | k in after && k !in before ::
          k == ResultsKey(nowMs) || KindOf(k) == GatesJobKind || KindOf(k) == LightyearsJobKind)
  }

  /** The adapters keep the distance jobs and every key they do not write. */
  lemma AdapterFrameKeeps(before: map<string, Value>, after: map<string, Value>, nowMs: nat)
    requires AdapterFrame(before, after)
    ensures KeepsJobs(before, after) && KeepsOthers(before, after, nowMs)
  {
  }

  /** The adapters' writes followed by the handler's tail keep every other key. */
  lemma ComposeFrames(start: map<string, Value>, mid: map<string, Value>, end: map<string, Value>, nowMs: nat)
    requires AdapterFrame(start, mid) && RecordFrame(mid, end, nowMs)
    ensures KeepsOthers(start, end, nowMs)
  {
  }

  /** Writing only `results:<nowMs>` after the adapters keeps the distance jobs. */
  lemma ResultsKeepJobs(start: map<string, Value>, mid: map<string, Value>, nowMs: nat, v: Value)
    requires KeepsJobs(start, mid)
    ensures KeepsJobs(start, mid[ResultsKey(nowMs) := v])
  {
    ResultsKeyKind(nowMs);
  }
}
