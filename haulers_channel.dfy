/** Haulers Channel pricing (index.ts:547-703): a piecewise rule over volume,
    jumps and collateral, and the adapter that reads the hop count and the
    securities from the gates distance record. The adapter is not among the
    providers the route handler calls. `log` stands for `Math.log`. */
module HaulersChannel {
  import opened Wrappers
  import opened JsNumbers
  import opened Quotes
  import opened KeyValue

  datatype CalcResult = Reward(amount: real) | Rejected(reason: string)

  const MissingMessage: string := "Missing parameter."
  const DoesNotFitMessage: string := "Does not fit"

  function Max(a: real, b: real): real {
    if a >= b then a else b
  }

  /** `!x` on a number: zero is falsy. */
  predicate Falsy(x: real) {
    x == 0.0
  }

  /** Low collaterals are raised towards a floor depending on the hull the
      volume needs: freighter, deep-space transport, or smaller. */
  function AdjustedCollateral(volume: real, collateral: real): (c: real)
    ensures collateral >= 1_000_000_000.0 ==> c == collateral
    ensures 0.0 <= collateral ==> c >= collateral
  {
    var c1 := if volume > 62_500.0 && collateral < 1_000_000_000.0 then (3_000_000_000.0 + collateral) / 4.0 else collateral;
    var c2 := if volume <= 60_000.0 && volume > 12_000.0 && c1 < 1_000_000_000.0 then (1_000_000_000.0 + c1) / 2.0 else c1;
    if volume <= 12_000.0 && c2 < 1_000_000_000.0 then (100_000_000.0 + c2) / 1.1 else c2
  }

  /** Same-system routes count one jump, and short routes are paid as if
      halfway to five jumps. */
  function NormalizedJumps(jumps: real): (j: real)
    ensures j >= 3.0
    ensures jumps >= 5.0 ==> j == jumps
    ensures jumps < 5.0 ==> j < 5.0
  {
    var j1 := if jumps < 1.0 then 1.0 else jumps;
    if j1 < 5.0 then (5.0 + j1) * 0.5 else j1
  }

  /** The bands added for large volumes and collaterals. */
  function Additive(volume: real, c: real): (add: real)
    ensures add >= 0.0
    ensures volume <= 500_000.0 ==> add == 0.0
  {
    if volume > 1_050_000.0 then 250_000.0 + (if c > 2_000_000_000.0 then 200_000.0 else 0.0)
    else if volume > 880_000.0 then
      (if c > 1_500_000_000.0 then 100_000.0 else 0.0)
      + (if c > 2_500_000_000.0 then 100_000.0 else 0.0)
      + (if c > 3_000_000_000.0 then 200_000.0 else 0.0)
    else if volume > 750_000.0 then
      (if c > 2_500_000_000.0 then 100_000.0 else 0.0) + (if c > 3_000_000_000.0 then 200_000.0 else 0.0)
    else if volume > 500_000.0 then
      (if c > 2_000_000_000.0 then 100_000.0 else 0.0) + (if c > 3_500_000_000.0 then 100_000.0 else 0.0)
    else 0.0
  }

  /** The collateral-driven factor of large freighter loads. */
  function CollateralFactor(volume: real, c: real, log: real -> real): (f: real)
    requires log(15.0) != 0.0
    ensures f >= 1.0
  {
    if c > 3_000_000_000.0 && volume > 60_000.0 then Max(1.0, log(c / 150_000_000.0) / log(15.0)) else 1.0
  }

  /** The rush factor: at least double, more for high collateral, and double
      again outside highsec. */
  function RushFactor(c: real, isHighsecOnly: bool, log: real -> real): (f: real)
    requires log(20.0) != 0.0
    ensures f >= 2.0
  {
    var base := if c > 2_000_000_000.0 then 2.0 * Max(1.0, log(c / 100_000_000.0) / log(20.0)) else 2.0;
    if isHighsecOnly then base else base * 2.0
  }

  function Multiplier(volume: real, c: real, isRush: bool, isHighsecOnly: bool, log: real -> real): (m: real)
    requires log(15.0) != 0.0 && log(20.0) != 0.0
    ensures m >= 1.0
  {
    CollateralFactor(volume, c, log)
      * (if isRush then RushFactor(c, isHighsecOnly, log) else 1.0)
      * (if isHighsecOnly then 1.0 else 2.0)
  }

  /** The jump-freighter table outside highsec. */
  function FreighterMultiplier(volume: real, isRush: bool): (m: real)
    ensures m > 0.0
  {
    var m := if volume < 100.0 then 0.25
             else if volume <= 12_000.0 then 0.5
             else if volume <= 60_000.0 then 0.75
             else if volume <= 340_000.0 then 1.0
             else 4.0;
    if isRush then m * 2.0 else m
  }

  /** The reward of a highsec route or a small load: `base` per billion of
      collateral, scaled, plus the bands, for every effective jump. */
  function CollateralReward(multiplier: real, base: real, c: real, add: real, j: real): real {
    ((multiplier * base * c / 1_000_000_000.0) + add) * j
  }

  /** The reward of a jump freighter: `base` per seven jumps, at least once,
      plus one percent of the collateral. */
  function FreighterReward(multiplier: real, base: real, c: real, j: real): real {
    multiplier * base * Max(1.0, j / 7.0) + c * 0.01
  }

  /** The price rule, stage by stage. */
  function Price(volume: real, jumps: real, collateral: real, isRush: bool, isHighsecOnly: bool, log: real -> real): (r: CalcResult)
    requires log(15.0) != 0.0 && log(20.0) != 0.0
    ensures r == Rejected(MissingMessage) <==> Falsy(volume) || Falsy(jumps) || Falsy(collateral)
    ensures r == Rejected(DoesNotFitMessage) <==>
      !Falsy(volume) && !Falsy(jumps) && !Falsy(collateral) && !isHighsecOnly && volume > 386_000.0
    ensures r.Reward? <==>
      !Falsy(volume) && !Falsy(jumps) && !Falsy(collateral) && (isHighsecOnly || volume <= 386_000.0)
  {
    if Falsy(volume) || Falsy(jumps) || Falsy(collateral) then Rejected(MissingMessage)
    else
      var c := AdjustedCollateral(volume, collateral);
      var j := NormalizedJumps(jumps);
      if isHighsecOnly || volume <= 62_500.0 then
        Reward(CollateralReward(Multiplier(volume, c, isRush, isHighsecOnly, log), 1_000_000.0, c, Additive(volume, c), j))
      else if volume > 386_000.0 then Rejected(DoesNotFitMessage)
      else Reward(FreighterReward(FreighterMultiplier(volume, isRush), 60_000_000.0, c, j))
  }

  /** `haulersChannelCalc`, reassigning its locals step by step as the source does. */
  method HaulersChannelCalc(volume: real, jumps: real, collateral: real, isRush: bool, isHighsecOnly: bool, log: real -> real)
    returns (r: CalcResult)
    requires log(15.0) != 0.0 && log(20.0) != 0.0
    ensures r == Price(volume, jumps, collateral, isRush, isHighsecOnly, log)
  {
    if volume == 0.0 || jumps == 0.0 || collateral == 0.0 {
      return Rejected(MissingMessage);
    }
    var base := 1_000_000.0;
    var add := 0.0;
    var multiplier := 1.0;
    var c := collateral;
    var j := jumps;
    if volume > 62_500.0 && c < 1_000_000_000.0 {
      c := (3_000_000_000.0 + c) / 4.0;
    }
    if volume <= 60_000.0 && volume > 12_000.0 && c < 1_000_000_000.0 {
      c := (1_000_000_000.0 + c) / 2.0;
    }
    if volume <= 12_000.0 && c < 1_000_000_000.0 {
      c := (100_000_000.0 + c) / 1.1;
    }
    assert c == AdjustedCollateral(volume, collateral);
    if j < 1.0 {
      j := 1.0;
    }
    if j < 5.0 {
      j := (5.0 + j) * 0.5;
    }
    assert j == NormalizedJumps(jumps);
    if c > 3_000_000_000.0 && volume > 60_000.0 {
      multiplier := multiplier * Max(1.0, log(c / 150_000_000.0) / log(15.0));
    }
    assert multiplier == CollateralFactor(volume, c, log);
    if volume > 1_050_000.0 {
      add := add + 250_000.0;
      if c > 2_000_000_000.0 {
        add := add + 200_000.0;
      }
    } else if volume > 880_000.0 {
      if c > 1_500_000_000.0 {
        add := add + 100_000.0;
      }
      if c > 2_500_000_000.0 {
        add := add + 100_000.0;
      }
      if c > 3_000_000_000.0 {
        add := add + 200_000.0;
      }
    } else if volume > 750_000.0 {
      if c > 2_500_000_000.0 {
        add := add + 100_000.0;
      }
      if c > 3_000_000_000.0 {
        add := add + 200_000.0;
      }
    } else if volume > 500_000.0 {
      if c > 2_000_000_000.0 {
        add := add + 100_000.0;
      }
      if c > 3_500_000_000.0 {
        add := add + 100_000.0;
      }
    }
    assert add == Additive(volume, c);
    if isRush {
      if c > 2_000_000_000.0 {
        multiplier := multiplier * (2.0 * Max(1.0, log(c / 100_000_000.0) / log(20.0)));
      } else {
        multiplier := multiplier * 2.0;
      }
      if !isHighsecOnly {
        multiplier := multiplier * 2.0;
      }
    }
    if !isHighsecOnly {
      multiplier := multiplier * 2.0;
    }
    assert multiplier == Multiplier(volume, c, isRush, isHighsecOnly, log);
    if isHighsecOnly || volume <= 62_500.0 {
      return Reward(CollateralReward(multiplier, base, c, add, j));
    } else if volume > 386_000.0 {
      return Rejected(DoesNotFitMessage);
    }
    base := 60_000_000.0;
    if volume < 100.0 {
      multiplier := 0.25;
    } else if volume <= 12_000.0 {
      multiplier := 0.5;
    } else if volume <= 60_000.0 {
      multiplier := 0.75;
    } else if volume <= 340_000.0 {
      multiplier := 1.0;
    } else {
      multiplier := 4.0;
    }
    if isRush {
      multiplier := multiplier * 2.0;
    }
    assert multiplier == FreighterMultiplier(volume, isRush);
    r := Reward(FreighterReward(multiplier, base, c, j));
  }

  /** Rush and standard quotes are refused together, for the same reason. */
  lemma RushAndStandardRejectTogether(volume: real, jumps: real, collateral: real, isHighsecOnly: bool, log: real -> real)
    requires log(15.0) != 0.0 && log(20.0) != 0.0
    ensures Price(volume, jumps, collateral, true, isHighsecOnly, log).Rejected?
        <==> Price(volume, jumps, collateral, false, isHighsecOnly, log).Rejected?
    ensures Price(volume, jumps, collateral, true, isHighsecOnly, log).Rejected? ==>
      Price(volume, jumps, collateral, true, isHighsecOnly, log) == Price(volume, jumps, collateral, false, isHighsecOnly, log)
  {
  }

  /** For positive volume, jumps and collateral, rush is never cheaper than standard. */
  lemma RushNeverCheaper(volume: real, jumps: real, collateral: real, isHighsecOnly: bool, log: real -> real)
    requires log(15.0) != 0.0 && log(20.0) != 0.0
    requires volume > 0.0 && jumps > 0.0 && collateral > 0.0
    ensures Price(volume, jumps, collateral, true, isHighsecOnly, log).Reward?
        <==> Price(volume, jumps, collateral, false, isHighsecOnly, log).Reward?
    ensures Price(volume, jumps, collateral, false, isHighsecOnly, log).Reward? ==>
      Price(volume, jumps, collateral, true, isHighsecOnly, log).amount
        >= Price(volume, jumps, collateral, false, isHighsecOnly, log).amount
  {
    var c := AdjustedCollateral(volume, collateral);
    var j := NormalizedJumps(jumps);
    if isHighsecOnly || volume <= 62_500.0 {
      var f := CollateralFactor(volume, c, log);
      var h := if isHighsecOnly then 1.0 else 2.0;
      var rf := RushFactor(c, isHighsecOnly, log);
      MultiplierGrows(f * h, rf);
      assert Multiplier(volume, c, true, isHighsecOnly, log) == (f * h) * rf;
      assert Multiplier(volume, c, false, isHighsecOnly, log) == f * h;
      CollateralRewardMonotone(f * h, (f * h) * rf, c, Additive(volume, c), j);
    } else if volume <= 386_000.0 {
      var fm := FreighterMultiplier(volume, false);
      assert FreighterMultiplier(volume, true) == fm * 2.0;
      MultiplierGrows(fm, 2.0);
      FreighterRewardMonotone(fm, fm * 2.0, c, j);
    }
  }

  lemma MultiplierGrows(m: real, k: real)
    requires m >= 0.0 && k >= 1.0
    ensures m * k >= m
  {
    assert m * k - m == m * (k - 1.0);
  }

  lemma CollateralRewardMonotone(m1: real, m2: real, c: real, add: real, j: real)
    requires 0.0 <= m1 <= m2 && c >= 0.0 && j >= 0.0
    ensures CollateralReward(m1, 1_000_000.0, c, add, j) <= CollateralReward(m2, 1_000_000.0, c, add, j)
  {
    var k := c / 1000.0;
    assert m1 * 1_000_000.0 * c / 1_000_000_000.0 == m1 * k;
    assert m2 * 1_000_000.0 * c / 1_000_000_000.0 == m2 * k;
    assert m2 * k - m1 * k == (m2 - m1) * k;
    var x1, x2 := m1 * k + add, m2 * k + add;
    assert x2 * j - x1 * j == (x2 - x1) * j;
  }

  lemma FreighterRewardMonotone(m1: real, m2: real, c: real, j: real)
    requires 0.0 <= m1 <= m2
    ensures FreighterReward(m1, 60_000_000.0, c, j) <= FreighterReward(m2, 60_000_000.0, c, j)
  {
    var t := 60_000_000.0 * Max(1.0, j / 7.0);
    assert m1 * 60_000_000.0 * Max(1.0, j / 7.0) == m1 * t;
    assert m2 * 60_000_000.0 * Max(1.0, j / 7.0) == m2 * t;
    assert m2 * t - m1 * t == (m2 - m1) * t;
  }

  /** Every effective jump count is at least three, and long routes are
      counted as they are. */
  lemma JumpFloor(jumps: real)
    ensures NormalizedJumps(jumps) >= 3.0
    ensures jumps >= 5.0 ==> NormalizedJumps(jumps) == jumps
  {
  }

  /** `systemSecurities.find(s => s < 0.45)`: the first known security below
      0.45. A missing entry compares false. */
  function FirstBelow(secs: seq<Option<real>>, bound: real): (f: Option<real>)
    ensures f.Some? ==> f.value < bound && exists i :: 0 <= i < |secs| && secs[i] == f
    ensures f.None? <==> forall i :: 0 <= i < |secs| ==> secs[i].None? || secs[i].value >= bound
  {
    if |secs| == 0 then None
    else if secs[0].Some? && secs[0].value < bound then secs[0]
    else
      var rest := FirstBelow(secs[1..], bound);
      assert forall i :: 1 <= i < |secs| ==> secs[i] == secs[1..][i - 1];
      rest
  }

  /** `!find(...)`: highsec-only unless a non-zero security below 0.45 comes
      first (a found `0` is falsy). */
  predicate HighsecOnly(secs: seq<Option<real>>) {
    var f := FirstBelow(secs, 0.45);
    f.None? || f.value == 0.0
  }

  /** A route whose first low security is exactly 0 passes for highsec-only,
      whatever follows. */
  lemma ZeroSecurityPassesAsHighsec(rest: seq<Option<real>>)
    ensures HighsecOnly([Some(0.0)] + rest)
  {
  }

  /** A route known to hold a non-zero low security and no zero before it is
      not highsec-only; an unknown security never makes a route low. */
  lemma HighsecOnlyIff(secs: seq<Option<real>>)
    ensures (forall i :: 0 <= i < |secs| && secs[i].Some? ==> secs[i].value >= 0.45) ==> HighsecOnly(secs)
    ensures (exists i :: 0 <= i < |secs| && secs[i].Some? && secs[i].value < 0.45
               && secs[i].value != 0.0
               && forall k :: 0 <= k < i ==> secs[k].None? || secs[k].value >= 0.45)
            ==> !HighsecOnly(secs)
  {
    if exists i :: 0 <= i < |secs| && secs[i].Some? && secs[i].value < 0.45 && secs[i].value != 0.0
                   && forall k :: 0 <= k < i ==> secs[k].None? || secs[k].value >= 0.45 {
      var i :| 0 <= i < |secs| && secs[i].Some? && secs[i].value < 0.45 && secs[i].value != 0.0
               && forall k :: 0 <= k < i ==> secs[k].None? || secs[k].value >= 0.45;
      FirstBelowAt(secs, 0.45, i);
    }
  }

  lemma {:induction false} FirstBelowAt(secs: seq<Option<real>>, bound: real, i: nat)
    requires i < |secs| && secs[i].Some? && secs[i].value < bound
    requires forall k :: 0 <= k < i ==> secs[k].None? || secs[k].value >= bound
    ensures FirstBelow(secs, bound) == secs[i]
    decreases i
  {
    if i > 0 {
      FirstBelowAt(secs[1..], bound, i - 1);
    }
  }

  function ChannelFailure(reason: string): Entry {
    Failure(HaulersChannel, reason, false)
  }

  /** The two entries of a priced route, as `getHaulersChannel` assembles them
      (index.ts:569-593). The standard entry's failure branch reports the
      rush quote: its reason when the rush quote is refused. When the rush
      quote is a number the source puts that number in `error`; the model,
      whose errors are strings, writes "Not available." there instead, a
      case `StandardBranchQuirkHarmless` shows never arises. */
  function ChannelEntries(rush: CalcResult, standard: CalcResult): seq<Entry> {
    [ match rush
      case Rejected(reason) => ChannelFailure(reason)
      case Reward(x) => Offer(HaulersChannel, x, Num(1.0), Num(7.0), Some(Num(24.0)), None, false),
      if standard.Rejected? then
        match rush
        case Rejected(reason) => ChannelFailure(reason)
        case Reward(x) => ChannelFailure("Not available.")
      else Offer(HaulersChannel, standard.amount, Num(3.0), Num(7.0), None, None, false) ]
  }

  /** What the entries would be if the standard branch reported its own quote. */
  function IntendedEntries(rush: CalcResult, standard: CalcResult): seq<Entry> {
    [ match rush
      case Rejected(reason) => ChannelFailure(reason)
      case Reward(x) => Offer(HaulersChannel, x, Num(1.0), Num(7.0), Some(Num(24.0)), None, false),
      match standard
      case Rejected(reason) => ChannelFailure(reason)
      case Reward(x) => Offer(HaulersChannel, x, Num(3.0), Num(7.0), None, None, false) ]
  }

  /** Reporting the rush quote in the standard branch is harmless: the two
      quotes are refused together and for the same reason. */
  lemma StandardBranchQuirkHarmless(volume: real, jumps: real, collateral: real, isHighsecOnly: bool, log: real -> real)
    requires log(15.0) != 0.0 && log(20.0) != 0.0
    ensures var rush := Price(volume, jumps, collateral, true, isHighsecOnly, log);
            var standard := Price(volume, jumps, collateral, false, isHighsecOnly, log);
            ChannelEntries(rush, standard) == IntendedEntries(rush, standard)
  {
    RushAndStandardRejectTogether(volume, jumps, collateral, isHighsecOnly, log);
  }

  /** A missing parameter is a number of zero. */
  function AsNumber(x: Option<nat>): real {
    if x.Some? then x.value as real else 0.0
  }

  /** `getHaulersChannel`: without a gates distance it enqueues the gates job
      and offers nothing; otherwise it prices the route. Reading a record that
      is not a gates distance throws. */
  method GetHaulersChannel(store: Store, params: RouteParameters, log: real -> real)
    returns (o: Outcome<seq<Entry>>)
    requires store.Valid() && log(15.0) != 0.0 && log(20.0) != 0.0
    modifies store
    ensures store.Valid()
    ensures GatesDistanceKey(params.origin, params.destination) !in old(store.data) ==>
      o == Returned([])
      && store.data == old(store.data)[GatesJobKey(params.origin, params.destination) := DistanceJob(params.origin, params.destination)]
      && store.ttl == old(store.ttl) - {GatesJobKey(params.origin, params.destination)}
    ensures GatesDistanceKey(params.origin, params.destination) in old(store.data) ==>
      store.data == old(store.data) && store.ttl == old(store.ttl)
      && var d := old(store.data)[GatesDistanceKey(params.origin, params.destination)];
         (!d.GatesDistance? ==> o.Threw?)
         && (d.GatesDistance? ==>
               var h := HighsecOnly(d.systemSecurities);
               o == Returned(ChannelEntries(
                      Price(AsNumber(params.volume), d.systems as real, AsNumber(params.collateral), true, h, log),
                      Price(AsNumber(params.volume), d.systems as real, AsNumber(params.collateral), false, h, log))))
  {
    var key := GatesDistanceKey(params.origin, params.destination);
    if key !in store.data {
      GatesJobKeyKind(params.origin, params.destination);
      store.Set(GatesJobKey(params.origin, params.destination), DistanceJob(params.origin, params.destination), None);
      return Returned([]);
    }
    var distance := store.data[key];
    if !distance.GatesDistance? {
      return Threw;
    }
    var isHighsecOnly := HighsecOnly(distance.systemSecurities);
    var jumps := distance.systems as real;
    var rush := HaulersChannelCalc(AsNumber(params.volume), jumps, AsNumber(params.collateral), true, isHighsecOnly, log);
    var standard := HaulersChannelCalc(AsNumber(params.volume), jumps, AsNumber(params.collateral), false, isHighsecOnly, log);
    o := Returned(ChannelEntries(rush, standard));
  }
}
