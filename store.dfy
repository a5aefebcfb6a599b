/** The key-value store `data` of the serverless runtime, as the server uses
    it: one map from keys to stored objects, and the TTL each key was last
    written with. What a key may hold is fixed by its first `:`-separated
    segment, and every write of the server keeps to that (`Valid`). */
module KeyValue {
  import opened Wrappers
  import opened Text
  import opened Quotes
  import opened RouteKeys

  /** The objects the server stores. */
  datatype Value =
    | Route(rec: RouteRecord)                   // routes:<provider>:...
    | RateMarker(ms: nat)                       // apirate:push:<second>, `{date}`
    | MainlandFlag(isMainland: bool)            // mainland:<system>
    | SystemRecord(name: string, constellationId: nat, securityStatus: real, systemId: nat)
                                                // systemInfo:<id>
    | DistanceJob(origin: Option<string>, destination: Option<string>)
                                                // distance_job_gates:..., distance_job_lightyears:...
    | GatesDistance(origin: Option<string>, destination: Option<string>, systems: nat,
                    systemSecurities: seq<Option<real>>)
                                                // distance:<o>:<d>:gates
    | LightyearsDistance(origin: Option<string>, destination: Option<string>, distance: real)
                                                // distance:<o>:<d>:lightyears
    | History(providers: seq<Entry>)            // results:<ms>

  datatype Kind =
    | RouteKind(adapter: Adapter) | RateKind | MainlandKind | SystemInfoKind
    | GatesJobKind | LightyearsJobKind | DistanceKind | ResultsKind | OtherKind

  function RouteKindOf(name: string): Kind {
    if name == "push" then RouteKind(Push)
    else if name == "ghsol" then RouteKind(Ghsol)
    else if name == "blackfrog" then RouteKind(BlackFrog)
    else if name == "redfrog" then RouteKind(RedFrog)
    else if name == "purplefrog" then RouteKind(PurpleFrog)
    else OtherKind
  }

  /** The text before the first `:` (`key.split(':')[0]`). */
  function Segment(s: string): string {
    if |s| == 0 || s[0] == ':' then "" else [s[0]] + Segment(s[1..])
  }

  /** The text after the first `:`, empty when there is none. */
  function AfterColon(s: string): string {
    if |s| == 0 then "" else if s[0] == ':' then s[1..] else AfterColon(s[1..])
  }

  /** The kind of a key, read from its first segment (and, for routes, the second). */
  function KindOf(key: string): Kind {
    KindOfHead(Segment(key), Segment(AfterColon(key)))
  }

  function KindOfHead(head: string, second: string): Kind {
    if head == "routes" then RouteKindOf(second)
    else if head == "apirate" then RateKind
    else if head == "mainland" then MainlandKind
    else if head == "systemInfo" then SystemInfoKind
    else if head == "distance_job_gates" then GatesJobKind
    else if head == "distance_job_lightyears" then LightyearsJobKind
    else if head == "distance" then DistanceKind
    else if head == "results" then ResultsKind
    else OtherKind
  }

  /** What a key of each kind may hold. A route key holds records of its own
      provider with non-empty error texts; Purple Frog only ever stores one
      object, which its cache hit relies on. */
  predicate Fits(kind: Kind, v: Value) {
    match kind
    case RouteKind(a) =>
      v.Route? && RecordFrom(v.rec, a) && WellFormedRecord(v.rec) && (a == PurpleFrog ==> v.rec.Single?)
    case RateKind => v.RateMarker?
    case MainlandKind => v.MainlandFlag?
    case SystemInfoKind => v.SystemRecord?
    case GatesJobKind => v.DistanceJob?
    case LightyearsJobKind => v.DistanceJob?
    case DistanceKind => v.GatesDistance? || v.LightyearsDistance?
    case ResultsKind => v.History?
    case OtherKind => true
  }

  /** The first segment of `head + [':'] + rest` is `head`, and `rest` follows it. */
  lemma {:induction false} HeadSegment(head: string, rest: string)
    requires ':' !in head
    ensures Segment(head + [':'] + rest) == head
    ensures AfterColon(head + [':'] + rest) == rest
  {
    var s := head + [':'] + rest;
    if |head| > 0 {
      assert s[0] == head[0] && s[1..] == head[1..] + [':'] + rest;
      HeadSegment(head[1..], rest);
    } else {
      assert s == [':'] + rest;
    }
  }

  /** Apart from route keys, the kind depends on the first segment alone. */
  lemma KindByHead(head: string, rest: string)
    requires ':' !in head && head != "routes"
    ensures KindOf(head + [':'] + rest) == KindOfHead(head, "")
  {
    HeadSegment(head, rest);
  }

  lemma KindOfRouteName(a: Adapter)
    ensures RouteKindOf(KeyName(a)) == RouteKind(a)
  {
  }

  /** Every route key is of its own provider's kind. */
  lemma RouteKeyKind(a: Adapter, params: RouteParameters)
    ensures KindOf(RouteKey(a, params)) == RouteKind(a)
  {
    var key := RouteKey(a, params);
    var rest := RouteTail(params);
    KeyNames(a, a);
    assert key == "routes" + [':'] + (KeyName(a) + [':'] + rest);
    HeadSegment("routes", KeyName(a) + [':'] + rest);
    HeadSegment(KeyName(a), rest);
    KindOfRouteName(a);
  }

  /** A record of adapter `a` may be stored under `a`'s route keys. */
  lemma RouteFits(a: Adapter, params: RouteParameters, rec: RouteRecord)
    requires RecordFrom(rec, a) && WellFormedRecord(rec) && (a == PurpleFrog ==> rec.Single?)
    ensures Fits(KindOf(RouteKey(a, params)), Route(rec))
  {
    RouteKeyKind(a, params);
  }

  function RateKey(ms: nat): string {
    "apirate:push:" + NatToString(CeilDiv(ms, 1_000))
  }

  lemma RateKeyKind(ms: nat)
    ensures KindOf(RateKey(ms)) == RateKind
  {
    var rest := "push:" + NatToString(CeilDiv(ms, 1_000));
    assert RateKey(ms) == "apirate" + [':'] + rest;
    HeadSegment("apirate", rest);
  }

  lemma RateFits(ms: nat)
    ensures Fits(KindOf(RateKey(ms)), RateMarker(ms))
  {
    RateKeyKind(ms);
  }

  function MainlandKey(system: string): string {
    "mainland:" + system
  }

  lemma MainlandKeyKind(system: string)
    ensures KindOf(MainlandKey(system)) == MainlandKind
  {
    assert MainlandKey(system) == "mainland" + [':'] + system;
    HeadSegment("mainland", system);
  }

  function SystemInfoKey(id: nat): string {
    "systemInfo:" + NatToString(id)
  }

  lemma SystemInfoKeyKind(id: nat)
    ensures KindOf(SystemInfoKey(id)) == SystemInfoKind
  {
    assert SystemInfoKey(id) == "systemInfo" + [':'] + NatToString(id);
    HeadSegment("systemInfo", NatToString(id));
  }

  lemma SystemInfoKeyInjective(a: nat, b: nat)
    ensures SystemInfoKey(a) == SystemInfoKey(b) <==> a == b
  {
    assert SystemInfoKey(a)[11..] == NatToString(a);
    assert SystemInfoKey(b)[11..] == NatToString(b);
    NatToStringInjective(a, b);
  }

  /** `<prefix>:${origin}:${destination}`, with `undefined` for a missing end. */
  function PairKey(prefix: string, origin: Option<string>, destination: Option<string>): string {
    prefix + ":" + Show(origin) + ":" + Show(destination)
  }

  lemma PairKeyKind(prefix: string, origin: Option<string>, destination: Option<string>)
    requires ':' !in prefix && prefix != "routes"
    ensures KindOf(PairKey(prefix, origin, destination)) == KindOfHead(prefix, "")
  {
    var rest := Show(origin) + ":" + Show(destination);
    assert PairKey(prefix, origin, destination) == prefix + [':'] + rest;
    KindByHead(prefix, rest);
  }

  function GatesJobKey(origin: Option<string>, destination: Option<string>): string {
    PairKey("distance_job_gates", origin, destination)
  }

  lemma GatesJobKeyKind(origin: Option<string>, destination: Option<string>)
    ensures KindOf(GatesJobKey(origin, destination)) == GatesJobKind
  {
    GatesJobHead();
    PairKeyKind("distance_job_gates", origin, destination);
  }

  lemma GatesJobHead()
    ensures ':' !in "distance_job_gates" && "distance_job_gates" != "routes"
    ensures KindOfHead("distance_job_gates", "") == GatesJobKind
  {
  }

  function LightyearsJobKey(origin: Option<string>, destination: Option<string>): string {
    PairKey("distance_job_lightyears", origin, destination)
  }

  lemma LightyearsJobKeyKind(origin: Option<string>, destination: Option<string>)
    ensures KindOf(LightyearsJobKey(origin, destination)) == LightyearsJobKind
  {
    LightyearsJobHead();
    PairKeyKind("distance_job_lightyears", origin, destination);
  }

  lemma LightyearsJobHead()
    ensures ':' !in "distance_job_lightyears" && "distance_job_lightyears" != "routes"
    ensures KindOfHead("distance_job_lightyears", "") == LightyearsJobKind
  {
  }

  /** The prefix `distance:${origin}:${destination}:` of both distance records. */
  function DistancePrefix(origin: Option<string>, destination: Option<string>): string {
    PairKey("distance", origin, destination) + ":"
  }

  function GatesDistanceKey(origin: Option<string>, destination: Option<string>): string {
    DistancePrefix(origin, destination) + "gates"
  }

  function LightyearsDistanceKey(origin: Option<string>, destination: Option<string>): string {
    DistancePrefix(origin, destination) + "lightyears"
  }

  lemma DistanceKeyKind(origin: Option<string>, destination: Option<string>, suffix: string)
    ensures KindOf(DistancePrefix(origin, destination) + suffix) == DistanceKind
  {
    var head, pair := "distance" + [':'], Show(origin) + ":" + Show(destination);
    var rest := pair + ":" + suffix;
    assert DistancePrefix(origin, destination) + suffix == head + rest by {
    calc {
      DistancePrefix(origin, destination) + suffix;
      "distance" + ":" + Show(origin) + ":" + Show(destination) + ":" + suffix;
      { assert "distance" + ":" + Show(origin) + ":" + Show(destination) == head + pair; }
      head + pair + ":" + suffix;
      { assert head + pair + ":" == head + (pair + ":"); }
      head + (pair + ":") + suffix;
      head + rest;
    }
    }
    KindByHead("distance", rest);
    DistanceHead();
  }

  lemma DistanceHead()
    ensures KindOfHead("distance", "") == DistanceKind
  {
  }

  function ResultsKey(ms: nat): string {
    "results:" + NatToString(ms)
  }

  lemma ResultsKeyKind(ms: nat)
    ensures KindOf(ResultsKey(ms)) == ResultsKind
  {
    assert ResultsKey(ms) == "results" + [':'] + NatToString(ms);
    HeadSegment("results", NatToString(ms));
  }

  class Store {
    var data: map<string, Value>
    /** The TTL, in seconds, of every key last written with one. */
    var ttl: map<string, nat>

    ghost predicate Valid()
      reads this
    {
      && (forall k | k in data :: Fits(KindOf(k), data[k]))
      && ttl.Keys <= data.Keys
    }

    constructor()
      ensures data == map[] && ttl == map[]
      ensures Valid()
    {
      data := map[];
      ttl := map[];
    }

    /** `data.set(key, value, {ttl})`; without a TTL the key does not expire. */
    method Set(key: string, v: Value, t: Option<nat>)
      modifies this
      ensures data == old(data)[key := v]
      ensures t.Some? ==> ttl == old(ttl)[key := t.value]
      ensures t.None? ==> ttl == old(ttl) - {key}
      ensures old(Valid()) && Fits(KindOf(key), v) ==> Valid()
    {
      data := data[key := v];
      ttl := if t.Some? then ttl[key := t.value] else ttl - {key};
    }

    /** The keys starting with `p` (`data.get(p + '*')`). */
    function KeysWithPrefix(p: string): (ks: set<string>)
      reads this
      ensures forall k :: k in ks <==> k in data && HasPrefix(k, p)
    {
      set k | k in data.Keys && HasPrefix(k, p)
    }

    /** The number of items `data.get(p + '*', {limit})` returns. */
    function CountWithPrefix(p: string, limit: nat): (n: nat)
      reads this
      ensures n <= limit
      ensures n < limit <==> |KeysWithPrefix(p)| < limit
      ensures n == 0 <==> limit == 0 || KeysWithPrefix(p) == {}
    {
      var all := |KeysWithPrefix(p)|;
      if all < limit then all else limit
    }
  }
}
