/** The values the route API returns: one entry per offer or per error of a
    provider (index.ts:146-169), and what one adapter returns: a single object
    or an array of them. */
module Quotes {
  import opened Wrappers
  import opened JsNumbers

  /** The query of `/api/route` (index.ts:148-154). A parameter missing from
      the query is `None` (`undefined`); volume and collateral are whole
      numbers. */
  datatype RouteParameters = RouteParameters(
    origin: Option<string>, destination: Option<string>,
    volume: Option<nat>, collateral: Option<nat>, providers: Option<string>)

  /** The keys of `providerDetails` (index.ts:119-144). */
  datatype Provider = Push | Ghsol | RedFrog | PurpleFrog | BlackFrog | HaulersChannel

  /** The five providers that have an adapter in `providerFunctions` and a route cache. */
  type Adapter = p: Provider | !p.HaulersChannel? witness Push

  /** `providerDetails[p].provider`. */
  function DisplayName(p: Provider): string {
    match p
    case Push => "Push Industries"
    case Ghsol => "Galactic Hauling Solutions Inc."
    case RedFrog => "Red Frog Freight"
    case PurpleFrog => "Purple Frog Transport"
    case BlackFrog => "Black Frog Logistics"
    case HaulersChannel => "Haulers Channel"
  }

  /** `providerDetails[p].url`. */
  function Url(p: Provider): string {
    match p
    case Push => "https://www.pushx.net/"
    case Ghsol => "https://forums.eveonline.com/t/service-ghsol-a-simple-flat-rate-low-sec-jf-courier-service-moving-your-cargo-for-the-last-6-years"
    case RedFrog => "https://red-frog.org/"
    case PurpleFrog => "https://red-frog.org/purple_calculator"
    case BlackFrog => "https://red-frog.org/black_calculator"
    case HaulersChannel => "https://forums.eveonline.com/t/haulers-channel"
  }

  /** A RouteResult (an offer) or a RouteError. `cached` absent is `false`.
      `rewardRush` is the extra `rewardRush` field (with `hasRush: false`)
      that only Purple Frog offers carry. */
  datatype Entry =
    | Offer(provider: Provider, reward: real, daysToComplete: JsNum, daysExpiration: JsNum,
            rushDurationHours: Option<JsNum>, rewardRush: Option<real>, cached: bool)
    | Failure(provider: Provider, error: string, cached: bool)

  /** A ProviderResult: one object, or an array of objects. */
  datatype RouteRecord = Single(entry: Entry) | Many(entries: seq<Entry>)

  function Entries(r: RouteRecord): seq<Entry> {
    match r
    case Single(e) => [e]
    case Many(es) => es
  }

  /** Every error text is non-empty, so `p.error` is truthy exactly on failures. */
  predicate WellFormed(e: Entry) {
    e.Failure? ==> e.error != ""
  }

  predicate WellFormedRecord(r: RouteRecord) {
    forall e | e in Entries(r) :: WellFormed(e)
  }

  predicate RecordFrom(r: RouteRecord, p: Provider) {
    forall e | e in Entries(r) :: e.provider == p
  }

  function WithCached(e: Entry, c: bool): Entry {
    match e
    case Offer(p, rw, d, x, h, rr, _) => Offer(p, rw, d, x, h, rr, c)
    case Failure(p, err, _) => Failure(p, err, c)
  }

  /** A record as the upstream produced it: every `cached` flag cleared. */
  function Fresh(r: RouteRecord): RouteRecord {
    match r
    case Single(e) => Single(WithCached(e, false))
    case Many(es) => Many(seq(|es|, i requires 0 <= i < |es| => WithCached(es[i], false)))
  }

  predicate AllCached(r: RouteRecord) {
    forall e | e in Entries(r) :: e.cached
  }

  /** `returnExistingRecord`: the stored record with `cached = true` on every
      entry; same shape, same length, every other field untouched. */
  function MarkCached(r: RouteRecord): (m: RouteRecord)
    ensures m.Single? == r.Single?
    ensures |Entries(m)| == |Entries(r)|
    ensures AllCached(m)
    ensures Fresh(m) == Fresh(r)
    ensures forall i :: 0 <= i < |Entries(r)| ==> Entries(m)[i].provider == Entries(r)[i].provider
  {
    match r
    case Single(e) => Single(WithCached(e, true))
    case Many(es) =>
      var marked := seq(|es|, i requires 0 <= i < |es| => WithCached(es[i], true));
      assert Fresh(Many(marked)).entries == Fresh(r).entries by {
        forall i | 0 <= i < |es| ensures WithCached(marked[i], false) == WithCached(es[i], false) { }
      }
      Many(marked)
  }

  /** Marking a cache hit twice changes nothing more. */
  lemma MarkCachedIdempotent(r: RouteRecord)
    ensures MarkCached(MarkCached(r)) == MarkCached(r)
  {
    match r
    case Single(e) =>
    case Many(es) =>
      var once := MarkCached(r).entries;
      assert MarkCached(MarkCached(r)).entries == once;
  }

  /** Marking preserves the provider tag and well-formedness of a record. */
  lemma MarkCachedKeeps(r: RouteRecord, p: Provider)
    ensures RecordFrom(r, p) ==> RecordFrom(MarkCached(r), p)
    ensures WellFormedRecord(r) ==> WellFormedRecord(MarkCached(r))
  {
    var m := MarkCached(r);
    forall e | e in Entries(m)
      ensures RecordFrom(r, p) ==> e.provider == p
      ensures WellFormedRecord(r) ==> WellFormed(e)
    {
      var i :| 0 <= i < |Entries(m)| && Entries(m)[i] == e;
      assert Entries(r)[i] in Entries(r);
    }
  }

  /** `.flatMap(x => x)` over the adapters' results, in call order. */
  function Flatten(rs: seq<RouteRecord>): seq<Entry> {
    if |rs| == 0 then [] else Entries(rs[0]) + Flatten(rs[1..])
  }

  function TotalEntries(rs: seq<RouteRecord>): nat {
    if |rs| == 0 then 0 else |Entries(rs[0])| + TotalEntries(rs[1..])
  }

  /** Flattening keeps every entry, in order: it distributes over concatenation
      and its length is the sum of the record lengths. */
  lemma {:induction false} FlattenAppend(a: seq<RouteRecord>, b: seq<RouteRecord>)
    ensures Flatten(a + b) == Flatten(a) + Flatten(b)
    ensures |Flatten(a)| == TotalEntries(a)
  {
    if |a| > 0 {
      assert (a + b)[1..] == a[1..] + b;
      FlattenAppend(a[1..], b);
    } else {
      assert a + b == b;
    }
  }

  /** An entry of the flattened response comes from one of the records, so it
      names the provider of that record. */
  lemma {:induction false} FlattenProviders(rs: seq<RouteRecord>, ps: seq<Provider>)
    requires |rs| == |ps|
    requires forall i :: 0 <= i < |rs| ==> RecordFrom(rs[i], ps[i])
    ensures forall e | e in Flatten(rs) :: e.provider in ps
  {
    if |rs| > 0 {
      FlattenProviders(rs[1..], ps[1..]);
      forall e | e in Flatten(rs) ensures e.provider in ps {
        if e in Entries(rs[0]) {
          assert e.provider == ps[0];
        } else {
          assert e in Flatten(rs[1..]);
          assert e.provider in ps[1..];
        }
      }
    }
  }

  /** Flattening well-formed records gives well-formed entries. */
  lemma {:induction false} FlattenWellFormed(rs: seq<RouteRecord>)
    requires forall i :: 0 <= i < |rs| ==> WellFormedRecord(rs[i])
    ensures forall e | e in Flatten(rs) :: WellFormed(e)
  {
    if |rs| > 0 {
      FlattenWellFormed(rs[1..]);
    }
  }
}
