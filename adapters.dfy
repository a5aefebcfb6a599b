/** The provider adapters (index.ts:211-472). Each one checks its volume cap,
    then its collateral cap, then the route cache, and only on a miss asks
    its upstream service (whose reply is an input here), normalises the reply
    and writes it back with a TTL. `r` stands for `Math.random()`. */
module Adapters {
  import opened Wrappers
  import opened Text
  import opened JsNumbers
  import opened Quotes
  import opened RouteKeys
  import opened FrogErrors
  import opened KeyValue
  import opened Topology

  const Day: nat := 24 * 60 * 60
  const HalfDay: nat := 12 * 60 * 60

  const TooMuchVolume: string := "Too much volume."
  const TooMuchCollateral: string := "Too much collateral."

  function VolumeCap(a: Adapter): nat {
    match a
    case Push => 1_126_500
    case Ghsol => 360_000
    case BlackFrog => 320_000
    case RedFrog => 845_000
    case PurpleFrog => 62_500
  }

  function CollateralCap(a: Adapter): nat {
    match a
    case Push => 50_000_000_000
    case Ghsol => 7_000_000_000
    case BlackFrog => 25_000_000_000
    case RedFrog => 1_500_000_000
    case PurpleFrog => 10_000_000_000
  }

  /** `x > cap`; a missing parameter compares false. */
  predicate Exceeds(x: Option<nat>, cap: nat) {
    x.Some? && x.value > cap
  }

  /** Where an adapter's request goes before any upstream call: refused by a
      cap, answered from the cache, or a miss. */
  datatype Gate = Capped(message: string) | Hit(rec: RouteRecord) | Miss

  function GateOf(a: Adapter, params: RouteParameters, data: map<string, Value>): (g: Gate)
    ensures g == Capped(TooMuchVolume) <==> Exceeds(params.volume, VolumeCap(a))
    ensures g == Capped(TooMuchCollateral) <==>
      !Exceeds(params.volume, VolumeCap(a)) && Exceeds(params.collateral, CollateralCap(a))
    ensures g.Hit? ==> RouteKey(a, params) in data && data[RouteKey(a, params)] == Route(g.rec)
    ensures g.Miss? <==>
      !Exceeds(params.volume, VolumeCap(a)) && !Exceeds(params.collateral, CollateralCap(a))
      && !(RouteKey(a, params) in data && data[RouteKey(a, params)].Route?)
  {
    if Exceeds(params.volume, VolumeCap(a)) then Capped(TooMuchVolume)
    else if Exceeds(params.collateral, CollateralCap(a)) then Capped(TooMuchCollateral)
    else
      var key := RouteKey(a, params);
      if key in data && data[key].Route? then Hit(data[key].rec) else Miss
  }

  /** In a valid store every route key of the adapter holds a record, so a
      stored key is always a hit, and the record is the adapter's own. */
  lemma GateOfValid(store: Store, a: Adapter, params: RouteParameters)
    requires store.Valid()
    ensures GateOf(a, params, store.data).Miss? ==> RouteKey(a, params) !in store.data
    ensures GateOf(a, params, store.data).Hit? ==>
      var rec := GateOf(a, params, store.data).rec;
      RecordFrom(rec, a) && WellFormedRecord(rec) && (a == PurpleFrog ==> rec.Single?)
  {
    RouteKeyKind(a, params);
  }

  /** `Math.floor(r * width) + base` for `0 <= r < 1`. */
  function RandomTtl(r: real, width: nat, base: nat): (t: nat)
    requires 0.0 <= r < 1.0 && width > 0
    ensures base <= t < base + width
  {
    ScaledFloor(r, width);
    (r * width as real).Floor + base
  }

  lemma ScaledFloor(r: real, w: nat)
    requires 0.0 <= r < 1.0 && w > 0
    ensures 0 <= (r * w as real).Floor < w
  {
    ScaleBelow(r, w as real);
    FloorBelow(r * w as real, w);
  }

  lemma FloorBelow(x: real, w: nat)
    requires 0.0 <= x < w as real
    ensures 0 <= x.Floor < w
  {
  }

  lemma ScaleBelow(r: real, w: real)
    requires 0.0 <= r < 1.0 && w > 0.0
    ensures 0.0 <= r * w < w
  {
    assert w - r * w == (1.0 - r) * w;
  }

  /** The answer to a cap refusal. */
  function Refusal(a: Adapter, message: string): RouteRecord {
    Single(Failure(a, message, false))
  }

  // ----- Push Industries (index.ts:211-278) -----

  const RateLimit: nat := 90
  const RatePrefix: string := "apirate:push:"
  const RateLimitMessage: string := "API rate limit exhausted. Try again later."
  const PushFailedMessage: string := "Failed to get quote for Push Industries."

  /** The fields of PushX's quote the adapter reads; an empty `priceError`
      is a falsy one. */
  datatype PushQuote = PushQuote(priceError: string, priceNormal: real, priceRush: real,
                                 daysToAccept: string, daysToComplete: string)

  /** The standard and rush day counts of `"N days (M days)"`: the first and
      the third space-separated words, the latter with its first `(` removed.
      With fewer than three words the third is `undefined` and reading it
      throws. */
  function PushDays(text: string): (d: Option<(JsNum, JsNum)>)
    ensures d.None? <==> |Split(text, ' ')| < 3
  {
    var words := Split(text, ' ');
    if |words| < 3 then None
    else Some((ToNumber(words[0]), ToNumber(RemoveFirst(words[2], '('))))
  }

  /** The day text of a Push quote. */
  function DaysText(n: nat, unit: string, m: nat, rushUnit: string): string {
    NatToString(n) + " " + unit + " (" + NatToString(m) + " " + rushUnit + ")"
  }

  /** Reading the day text of a quote gives back both counts. */
  lemma PushDaysRoundTrip(n: nat, unit: string, m: nat, rushUnit: string)
    requires ' ' !in unit && ' ' !in rushUnit
    ensures PushDays(DaysText(n, unit, m, rushUnit)) == Some((Num(n as real), Num(m as real)))
  {
    var a, c := NatToString(n), NatToString(m);
    var words := [a, unit, "(" + c, rushUnit + ")"];
    DigitsHaveNo(a, ' ');
    DigitsHaveNo(c, ' ');
    assert ' ' !in "(" + c;
    assert ' ' !in rushUnit + ")";
    assert DaysText(n, unit, m, rushUnit) == Join(words, " ") by {
      assert words[1..][1..] == words[2..] && words[2..][1..] == words[3..];
      assert Join(words[3..], " ") == rushUnit + ")";
      assert Join(words[2..], " ") == "(" + c + " " + (rushUnit + ")");
      assert Join(words[1..], " ") == unit + " " + ("(" + c + " " + (rushUnit + ")"));
    }
    SplitJoin(words, ' ');
    assert RemoveFirst("(" + c, '(') == c by {
      assert ("(" + c)[0] == '(';
      assert IndexOf("(" + c, '(') == 0;
      assert ("(" + c)[1..] == c;
    }
    NumberOfNatToString(n);
    NumberOfNatToString(m);
  }

  /** What the adapter makes of a quote; `None` when reading the day texts throws. */
  function PushResult(q: PushQuote): (r: Option<RouteRecord>)
    ensures r.Some? ==> RecordFrom(r.value, Push) && WellFormedRecord(r.value)
    ensures q.priceError != "" ==> r == Some(Single(Failure(Push, q.priceError, false)))
    ensures q.priceError == "" ==>
      (r.None? <==> PushDays(q.daysToAccept).None? || PushDays(q.daysToComplete).None?)
    ensures q.priceError == "" && r.Some? ==>
      r.value.Many? && |r.value.entries| == 2
      && r.value.entries[0].Offer? && r.value.entries[0].reward == q.priceNormal
      && r.value.entries[0].rushDurationHours.None?
      && r.value.entries[1].Offer? && r.value.entries[1].reward == q.priceRush
      && r.value.entries[1].rushDurationHours == Some(Times(24.0, r.value.entries[1].daysToComplete))
  {
    if q.priceError != "" then Some(Single(Failure(Push, q.priceError, false)))
    else
      var accept, complete := PushDays(q.daysToAccept), PushDays(q.daysToComplete);
      if accept.None? || complete.None? then None
      else
        Some(Many([
          Offer(Push, q.priceNormal, complete.value.0, accept.value.0, None, None, false),
          Offer(Push, q.priceRush, complete.value.1, accept.value.1, Some(Times(24.0, complete.value.1)), None, false)]))
  }

  /** A quote whose day texts read as `n1 (m1)` and `n2 (m2)` yields the
      standard offer with the standard days and the rush offer with the rush
      days; the expiry of each comes from the `daysToAccept` text. */
  lemma PushOffersOfQuote(q: PushQuote, n1: real, m1: real, n2: real, m2: real)
    requires q.priceError == ""
    requires PushDays(q.daysToAccept) == Some((Num(n1), Num(m1)))
    requires PushDays(q.daysToComplete) == Some((Num(n2), Num(m2)))
    ensures PushResult(q).Some? && PushResult(q).value.Many?
    ensures var es := PushResult(q).value.entries;
      && es[0].daysToComplete == Num(n2) && es[0].daysExpiration == Num(n1)
      && es[1].daysToComplete == Num(m2) && es[1].daysExpiration == Num(m1)
  {
  }

  /** The upstream outcome: a failed request and an unreadable quote both
      end in the catch block. */
  function PushOutcome(reply: Reply<PushQuote>): Option<RouteRecord> {
    if reply.Err? then None else PushResult(reply.payload)
  }

  /** Two admissions share a marker exactly when they fall in the same second
      (rounded up), so the limiter counts seconds with a request, not requests. */
  lemma RateKeySameSecond(m1: nat, m2: nat)
    ensures RateKey(m1) == RateKey(m2) <==> CeilDiv(m1, 1_000) == CeilDiv(m2, 1_000)
  {
    var s1, s2 := NatToString(CeilDiv(m1, 1_000)), NatToString(CeilDiv(m2, 1_000));
    assert RateKey(m1)[|RatePrefix|..] == s1;
    assert RateKey(m2)[|RatePrefix|..] == s2;
    NatToStringInjective(CeilDiv(m1, 1_000), CeilDiv(m2, 1_000));
  }

  lemma RateKeyCounted(ms: nat)
    ensures HasPrefix(RateKey(ms), RatePrefix)
  {
    PrefixOfConcat(RatePrefix, NatToString(CeilDiv(ms, 1_000)));
  }

  /** The keys the rate limiter counts: one per second with an admitted request. */
  function RateKeys(data: map<string, Value>): set<string> {
    set k | k in data.Keys && HasPrefix(k, RatePrefix)
  }

  /** `getPushX` on the stored data: the record it answers and the data it
      leaves behind. */
  function PushStep(data: map<string, Value>, params: RouteParameters, nowMs: nat, reply: Reply<PushQuote>)
    : (RouteRecord, map<string, Value>)
  {
    match GateOf(Push, params, data)
    case Capped(message) => (Refusal(Push, message), data)
    case Hit(rec) => (MarkCached(rec), data)
    case Miss =>
      if |RateKeys(data)| >= RateLimit then (Refusal(Push, RateLimitMessage), data)
      else
        var marked := data[RateKey(nowMs) := RateMarker(nowMs)];
        match PushOutcome(reply)
        case Some(rec) => (rec, marked[RouteKey(Push, params) := Route(rec)])
        case None => (Refusal(Push, PushFailedMessage), marked)
  }

  /** `getPushX`. */
  method GetPushX(store: Store, params: RouteParameters, nowMs: nat, r: real, reply: Reply<PushQuote>)
    returns (result: RouteRecord)
    requires store.Valid() && 0.0 <= r < 1.0
    modifies store
    ensures store.Valid()
    ensures RecordFrom(result, Push) && WellFormedRecord(result)
    ensures (result, store.data) == PushStep(old(store.data), params, nowMs, reply)
    ensures GateOf(Push, params, old(store.data)).Capped? ==>
      result == Refusal(Push, GateOf(Push, params, old(store.data)).message)
      && store.data == old(store.data) && store.ttl == old(store.ttl)
    ensures GateOf(Push, params, old(store.data)).Hit? ==>
      result == MarkCached(GateOf(Push, params, old(store.data)).rec)
      && store.data == old(store.data) && store.ttl == old(store.ttl)
    ensures GateOf(Push, params, old(store.data)).Miss? && old(store.CountWithPrefix(RatePrefix, RateLimit)) >= RateLimit ==>
      result == Refusal(Push, RateLimitMessage) && store.data == old(store.data) && store.ttl == old(store.ttl)
    ensures GateOf(Push, params, old(store.data)).Miss? && old(store.CountWithPrefix(RatePrefix, RateLimit)) < RateLimit ==>
      var key := RouteKey(Push, params);
      var marked := old(store.data)[RateKey(nowMs) := RateMarker(nowMs)];
      var markedTtl := old(store.ttl)[RateKey(nowMs) := 600];
      match PushOutcome(reply)
      case Some(rec) =>
        result == rec && store.data == marked[key := Route(rec)]
        && store.ttl == markedTtl[key := RandomTtl(r, HalfDay, HalfDay)]
      case None =>
        result == Refusal(Push, PushFailedMessage) && store.data == marked && store.ttl == markedTtl
  {
    var gate := GateOf(Push, params, store.data);
    GateOfValid(store, Push, params);
    if gate.Capped? {
      return Refusal(Push, gate.message);
    }
    if gate.Hit? {
      MarkCachedKeeps(gate.rec, Push);
      return MarkCached(gate.rec);
    }
    var previousRequests := store.CountWithPrefix(RatePrefix, RateLimit);
    assert store.KeysWithPrefix(RatePrefix) == RateKeys(store.data);
    if previousRequests >= RateLimit {
      return Refusal(Push, RateLimitMessage);
    }
    RateFits(nowMs);
    store.Set(RateKey(nowMs), RateMarker(nowMs), Some(600));
    var outcome := PushOutcome(reply);
    if outcome.None? {
      return Refusal(Push, PushFailedMessage);
    }
    result := outcome.value;
    RouteFits(Push, params, result);
    store.Set(RouteKey(Push, params), Route(result), Some(RandomTtl(r, HalfDay, HalfDay)));
  }

  // ----- Galactic Hauling Solutions (index.ts:280-335) -----

  const NullsecMessage: string := "Only highsec and lowsec allowed."

  function GhsolStandard(): Entry {
    Offer(Ghsol, 210_000_000.0, Num(3.0), Num(3.0), None, None, false)
  }

  function GhsolRush(): Entry {
    Offer(Ghsol, 300_000_000.0, Num(1.0), Num(3.0), Some(Num(24.0)), None, false)
  }

  /** The fixed-price offers: the standard one up to 4e9 collateral, then
      always the rush one. */
  function GhsolOffers(collateral: Option<nat>): (r: RouteRecord)
    ensures r.Many? && 1 <= |r.entries| <= 2
    ensures |r.entries| == 2 <==> collateral.Some? && collateral.value <= 4_000_000_000
    ensures r.entries[|r.entries| - 1] == GhsolRush()
    ensures |r.entries| == 2 ==> r.entries[0] == GhsolStandard()
  {
    if collateral.Some? && collateral.value <= 4_000_000_000 then Many([GhsolStandard(), GhsolRush()])
    else Many([GhsolRush()])
  }

  /** Some endpoint is known to be nullsec. A view without a security status
      compares false. */
  predicate AnyNullsec(views: seq<SystemView>) {
    exists i :: 0 <= i < |views| && views[i].securityStatus.Some? && views[i].securityStatus.value < 0.0
  }

  function GhsolRecord(views: seq<SystemView>, collateral: Option<nat>): (r: RouteRecord)
    ensures RecordFrom(r, Ghsol) && WellFormedRecord(r)
    ensures r.Single? <==> exists i :: 0 <= i < |views| && views[i].securityStatus.Some? && views[i].securityStatus.value < 0.0
    ensures r.Many? ==> forall e | e in r.entries :: e.Offer?
  {
    if AnyNullsec(views) then Refusal(Ghsol, NullsecMessage) else GhsolOffers(collateral)
  }

  /** Views read straight from ESI carry no security status, so a route whose
      systems were all just fetched is never refused as nullsec. */
  lemma GhsolUnknownSecurityOffers(views: seq<SystemView>, collateral: Option<nat>)
    requires forall i :: 0 <= i < |views| ==> views[i].securityStatus.None?
    ensures GhsolRecord(views, collateral) == GhsolOffers(collateral)
  {
  }

  /** `getGhsol` on the stored data: its outcome and the data it leaves
      behind, which after a failed lookup still holds the records stored
      before the failure. */
  function GhsolStep(data: map<string, Value>, params: RouteParameters, ids: Reply<seq<nat>>, esi: map<nat, EsiSystem>)
    : (Outcome<RouteRecord>, map<string, Value>)
    requires SystemRecordsFit(data)
  {
    match GateOf(Ghsol, params, data)
    case Capped(message) => (Returned(Refusal(Ghsol, message)), data)
    case Hit(rec) => (Returned(MarkCached(rec)), data)
    case Miss =>
      if ids.Err? then (Threw, data)
      else
        match LookupAll(data, ids.payload, esi)
        case Threw => (Threw, LookupAllData(data, ids.payload, esi))
        case Returned((views, looked)) =>
          var rec := GhsolRecord(views, params.collateral);
          (Returned(rec), looked[RouteKey(Ghsol, params) := Route(rec)])
  }

  /** `getGhsol`. `ids` is ESI's reply to the name lookup; it throws (there is
      no catch) when ESI fails. Both outcomes are stored without TTL. */
  method GetGhsol(store: Store, params: RouteParameters, ids: Reply<seq<nat>>, esi: map<nat, EsiSystem>)
    returns (o: Outcome<RouteRecord>)
    requires store.Valid()
    modifies store
    ensures store.Valid()
    ensures SystemRecordsFit(old(store.data))
    ensures o.Returned? ==> RecordFrom(o.value, Ghsol) && WellFormedRecord(o.value)
    ensures (o, store.data) == GhsolStep(old(store.data), params, ids, esi)
    ensures GateOf(Ghsol, params, old(store.data)).Capped? ==>
      o == Returned(Refusal(Ghsol, GateOf(Ghsol, params, old(store.data)).message))
      && store.data == old(store.data) && store.ttl == old(store.ttl)
    ensures GateOf(Ghsol, params, old(store.data)).Hit? ==>
      o == Returned(MarkCached(GateOf(Ghsol, params, old(store.data)).rec))
      && store.data == old(store.data) && store.ttl == old(store.ttl)
    ensures GateOf(Ghsol, params, old(store.data)).Miss? && ids.Err? ==>
      o.Threw? && store.data == old(store.data) && store.ttl == old(store.ttl)
    ensures o.Threw? ==> OnlyAddsRecords(old(store.data), store.data)
    ensures GateOf(Ghsol, params, old(store.data)).Miss? && ids.Ok? ==>
      var lookups := LookupAll(old(store.data), ids.payload, esi);
      && (lookups.Threw? ==> o.Threw?)
      && (lookups.Returned? ==>
            var rec := GhsolRecord(lookups.value.0, params.collateral);
            o == Returned(rec) && store.data == lookups.value.1[RouteKey(Ghsol, params) := Route(rec)]
            && store.ttl == old(store.ttl) - {RouteKey(Ghsol, params)})
  {
    ValidRecordsFit(store);
    var gate := GateOf(Ghsol, params, store.data);
    GateOfValid(store, Ghsol, params);
    if gate.Capped? {
      return Returned(Refusal(Ghsol, gate.message));
    }
    if gate.Hit? {
      MarkCachedKeeps(gate.rec, Ghsol);
      return Returned(MarkCached(gate.rec));
    }
    if ids.Err? {
      return Threw;
    }
    var systemInfos := LookupSystems(store, ids.payload, esi);
    if systemInfos.Threw? {
      return Threw;
    }
    var rec := GhsolRecord(systemInfos.value, params.collateral);
    RouteFits(Ghsol, params, rec);
    store.Set(RouteKey(Ghsol, params), Route(rec), None);
    o := Returned(rec);
  }

  // ----- Red Frog, Black Frog, Purple Frog (index.ts:337-472) -----

  /** The fields of a Red Frog calculator reply the adapters read. */
  datatype FrogQuote = FrogQuote(rewardBase: real, rewardRush: real, daysToComplete: real, daysExpiration: real)

  function BlackFrogOffer(q: FrogQuote): RouteRecord {
    Single(Offer(BlackFrog, q.rewardBase, Num(q.daysToComplete), Num(q.daysExpiration), None, None, false))
  }

  /** The standard offer and the rush offer: one day, four-hour window, same expiration. */
  function RedFrogOffers(q: FrogQuote): RouteRecord {
    Many([Offer(RedFrog, q.rewardBase, Num(q.daysToComplete), Num(q.daysExpiration), None, None, false),
          Offer(RedFrog, q.rewardRush, Num(1.0), Num(q.daysExpiration), Some(Num(4.0)), None, false)])
  }

  /** One offer, carrying the rush price as an extra field rather than a rush offer. */
  function PurpleFrogOffer(q: FrogQuote): RouteRecord {
    Single(Offer(PurpleFrog, q.rewardBase, Num(q.daysToComplete), Num(q.daysExpiration), None, Some(q.rewardRush), false))
  }

  function FrogFailure(a: Adapter, text: Option<string>): (r: RouteRecord)
    ensures r.Single? && r.entry.Failure? && r.entry.provider == a
    ensures WellFormedRecord(r)
    ensures r.entry.error in {ContiguousMessage, NotFoundMessage, UnavailableMessage}
  {
    Single(Failure(a, MapFrogError(text), false))
  }

  /** The three adapters that call the Red Frog calculator. */
  type Frog = a: Adapter | a == BlackFrog || a == RedFrog || a == PurpleFrog witness RedFrog

  function FrogOffers(a: Frog, q: FrogQuote): RouteRecord {
    if a == BlackFrog then BlackFrogOffer(q)
    else if a == RedFrog then RedFrogOffers(q)
    else PurpleFrogOffer(q)
  }

  /** A frog adapter on the stored data: the record it answers and the data
      it leaves behind. Offers are stored; a failure is stored only by Red
      and Purple Frog, and only when the route is not contiguous highsec. */
  function FrogStep(a: Frog, data: map<string, Value>, params: RouteParameters, reply: Reply<FrogQuote>)
    : (RouteRecord, map<string, Value>)
  {
    match GateOf(a, params, data)
    case Capped(message) => (Refusal(a, message), data)
    case Hit(rec) => (MarkCached(rec), data)
    case Miss =>
      var key := RouteKey(a, params);
      if reply.Ok? then (FrogOffers(a, reply.payload), data[key := Route(FrogOffers(a, reply.payload))])
      else
        var failure := FrogFailure(a, reply.errorText);
        if a != BlackFrog && MapFrogError(reply.errorText) == ContiguousMessage then (failure, data[key := Route(failure)])
        else (failure, data)
  }

  /** `getBlackFrog`: offers are kept one to eight days, failures never. */
  method GetBlackFrog(store: Store, params: RouteParameters, r: real, reply: Reply<FrogQuote>)
    returns (result: RouteRecord)
    requires store.Valid() && 0.0 <= r < 1.0
    modifies store
    ensures store.Valid()
    ensures RecordFrom(result, BlackFrog) && WellFormedRecord(result)
    ensures (result, store.data) == FrogStep(BlackFrog, old(store.data), params, reply)
    ensures GateOf(BlackFrog, params, old(store.data)).Capped? ==>
      result == Refusal(BlackFrog, GateOf(BlackFrog, params, old(store.data)).message)
      && store.data == old(store.data) && store.ttl == old(store.ttl)
    ensures GateOf(BlackFrog, params, old(store.data)).Hit? ==>
      result == MarkCached(GateOf(BlackFrog, params, old(store.data)).rec)
      && store.data == old(store.data) && store.ttl == old(store.ttl)
    ensures GateOf(BlackFrog, params, old(store.data)).Miss? && reply.Ok? ==>
      result == BlackFrogOffer(reply.payload)
      && store.data == old(store.data)[RouteKey(BlackFrog, params) := Route(result)]
      && store.ttl == old(store.ttl)[RouteKey(BlackFrog, params) := RandomTtl(r, 7 * Day, Day)]
    ensures GateOf(BlackFrog, params, old(store.data)).Miss? && reply.Err? ==>
      result == FrogFailure(BlackFrog, reply.errorText)
      && store.data == old(store.data) && store.ttl == old(store.ttl)
  {
    var gate := GateOf(BlackFrog, params, store.data);
    GateOfValid(store, BlackFrog, params);
    if gate.Capped? {
      return Refusal(BlackFrog, gate.message);
    }
    if gate.Hit? {
      MarkCachedKeeps(gate.rec, BlackFrog);
      return MarkCached(gate.rec);
    }
    if reply.Err? {
      return FrogFailure(BlackFrog, reply.errorText);
    }
    result := BlackFrogOffer(reply.payload);
    RouteFits(BlackFrog, params, result);
    store.Set(RouteKey(BlackFrog, params), Route(result), Some(RandomTtl(r, 7 * Day, Day)));
  }

  /** `getRedFrog`: offers are kept one to eight days; a failure is kept 30
      to 60 days when, and only when, the route is not contiguous highsec. */
  method GetRedFrog(store: Store, params: RouteParameters, r: real, reply: Reply<FrogQuote>)
    returns (result: RouteRecord)
    requires store.Valid() && 0.0 <= r < 1.0
    modifies store
    ensures store.Valid()
    ensures RecordFrom(result, RedFrog) && WellFormedRecord(result)
    ensures (result, store.data) == FrogStep(RedFrog, old(store.data), params, reply)
    ensures GateOf(RedFrog, params, old(store.data)).Capped? ==>
      result == Refusal(RedFrog, GateOf(RedFrog, params, old(store.data)).message)
      && store.data == old(store.data) && store.ttl == old(store.ttl)
    ensures GateOf(RedFrog, params, old(store.data)).Hit? ==>
      result == MarkCached(GateOf(RedFrog, params, old(store.data)).rec)
      && store.data == old(store.data) && store.ttl == old(store.ttl)
    ensures GateOf(RedFrog, params, old(store.data)).Miss? && reply.Ok? ==>
      result == RedFrogOffers(reply.payload)
      && store.data == old(store.data)[RouteKey(RedFrog, params) := Route(result)]
      && store.ttl == old(store.ttl)[RouteKey(RedFrog, params) := RandomTtl(r, 7 * Day, Day)]
    ensures GateOf(RedFrog, params, old(store.data)).Miss? && reply.Err? ==>
      result == FrogFailure(RedFrog, reply.errorText)
      && (MapFrogError(reply.errorText) == ContiguousMessage ==>
            store.data == old(store.data)[RouteKey(RedFrog, params) := Route(result)]
            && store.ttl == old(store.ttl)[RouteKey(RedFrog, params) := RandomTtl(r, 30 * Day, 30 * Day)])
      && (MapFrogError(reply.errorText) != ContiguousMessage ==>
            store.data == old(store.data) && store.ttl == old(store.ttl))
  {
    var gate := GateOf(RedFrog, params, store.data);
    GateOfValid(store, RedFrog, params);
    if gate.Capped? {
      return Refusal(RedFrog, gate.message);
    }
    if gate.Hit? {
      MarkCachedKeeps(gate.rec, RedFrog);
      return MarkCached(gate.rec);
    }
    if reply.Err? {
      result := FrogFailure(RedFrog, reply.errorText);
      if result.entry.error == ContiguousMessage {
        RouteFits(RedFrog, params, result);
        store.Set(RouteKey(RedFrog, params), Route(result), Some(RandomTtl(r, 30 * Day, 30 * Day)));
      }
      return;
    }
    result := RedFrogOffers(reply.payload);
    RouteFits(RedFrog, params, result);
    store.Set(RouteKey(RedFrog, params), Route(result), Some(RandomTtl(r, 7 * Day, Day)));
  }

  /** `getPurpleFrog`: the Red Frog policy, over a single object. Its cache hit
      spreads the stored object, which is sound because only single objects
      are ever stored under its keys. */
  method GetPurpleFrog(store: Store, params: RouteParameters, r: real, reply: Reply<FrogQuote>)
    returns (result: RouteRecord)
    requires store.Valid() && 0.0 <= r < 1.0
    modifies store
    ensures store.Valid()
    ensures RecordFrom(result, PurpleFrog) && WellFormedRecord(result) && result.Single?
    ensures (result, store.data) == FrogStep(PurpleFrog, old(store.data), params, reply)
    ensures GateOf(PurpleFrog, params, old(store.data)).Capped? ==>
      result == Refusal(PurpleFrog, GateOf(PurpleFrog, params, old(store.data)).message)
      && store.data == old(store.data) && store.ttl == old(store.ttl)
    ensures GateOf(PurpleFrog, params, old(store.data)).Hit? ==>
      GateOf(PurpleFrog, params, old(store.data)).rec.Single?
      && result == Single(WithCached(GateOf(PurpleFrog, params, old(store.data)).rec.entry, true))
      && store.data == old(store.data) && store.ttl == old(store.ttl)
    ensures GateOf(PurpleFrog, params, old(store.data)).Miss? && reply.Ok? ==>
      result == PurpleFrogOffer(reply.payload)
      && store.data == old(store.data)[RouteKey(PurpleFrog, params) := Route(result)]
      && store.ttl == old(store.ttl)[RouteKey(PurpleFrog, params) := RandomTtl(r, 7 * Day, Day)]
    ensures GateOf(PurpleFrog, params, old(store.data)).Miss? && reply.Err? ==>
      result == FrogFailure(PurpleFrog, reply.errorText)
      && (MapFrogError(reply.errorText) == ContiguousMessage ==>
            store.data == old(store.data)[RouteKey(PurpleFrog, params) := Route(result)]
            && store.ttl == old(store.ttl)[RouteKey(PurpleFrog, params) := RandomTtl(r, 30 * Day, 30 * Day)])
      && (MapFrogError(reply.errorText) != ContiguousMessage ==>
            store.data == old(store.data) && store.ttl == old(store.ttl))
  {
    var gate := GateOf(PurpleFrog, params, store.data);
    GateOfValid(store, PurpleFrog, params);
    if gate.Capped? {
      return Refusal(PurpleFrog, gate.message);
    }
    if gate.Hit? {
      MarkCachedKeeps(gate.rec, PurpleFrog);
      PurpleHitIsMarkCached(gate.rec.entry);
      return Single(WithCached(gate.rec.entry, true));
    }
    if reply.Err? {
      result := FrogFailure(PurpleFrog, reply.errorText);
      if result.entry.error == ContiguousMessage {
        RouteFits(PurpleFrog, params, result);
        store.Set(RouteKey(PurpleFrog, params), Route(result), Some(RandomTtl(r, 30 * Day, 30 * Day)));
      }
      return;
    }
    result := PurpleFrogOffer(reply.payload);
    RouteFits(PurpleFrog, params, result);
    store.Set(RouteKey(PurpleFrog, params), Route(result), Some(RandomTtl(r, 7 * Day, Day)));
  }

  /** On a stored single object, the spread of the Purple Frog hit is exactly
      `returnExistingRecord`. */
  lemma PurpleHitIsMarkCached(e: Entry)
    ensures Single(WithCached(e, true)) == MarkCached(Single(e))
  {
  }
}
