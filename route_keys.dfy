/** Cache keys of the route quotes (index.ts:171-193): volume and collateral
    are bucketed into coarse tiers so that nearby requests share a key. */
module RouteKeys {
  import opened Wrappers
  import opened Text
  import opened Quotes

  /** `Math.ceil(n / d)` on whole numbers. */
  function CeilDiv(n: nat, d: nat): (q: nat)
    requires d > 0
    ensures q * d >= n && (q == 0 || (q - 1) * d < n)
  {
    (n + d - 1) / d
  }

  /** `volumeString` (index.ts:181-189). */
  function VolumeString(volume: nat): string {
    if volume < 1_000 then NatToString(volume)
    else if volume < 1_000_000 then NatToString(CeilDiv(volume, 1_000)) + "k"
    else NatToString(CeilDiv(volume, 1_000_000)) + "m"
  }

  /** `collateralString` (index.ts:171-179). */
  function CollateralString(collateral: nat): string {
    if collateral < 1_000_000 then NatToString(collateral)
    else if collateral < 1_000_000_000 then NatToString(CeilDiv(collateral, 1_000_000)) + "m"
    else NatToString(CeilDiv(collateral, 1_000_000_000)) + "b"
  }

  /** The tier a value falls in: the value itself below `small`, otherwise
      the number of `small` (or, from `large` on, `large`) units it takes up,
      rounded up, tagged with the unit's suffix. */
  datatype Bucket = Exact(n: nat) | Units(count: nat, suffix: char)

  function Tier(v: nat, small: nat, large: nat, smallSuffix: char, largeSuffix: char): (b: Bucket)
    requires 0 < small < large
    ensures b.Exact? <==> v < small
    ensures b.Exact? ==> b.n == v
    ensures b.Units? && b.suffix == smallSuffix && smallSuffix != largeSuffix ==>
      small <= v < large && (b.count - 1) * small < v <= b.count * small
    ensures b.Units? && b.suffix == largeSuffix && smallSuffix != largeSuffix ==>
      large <= v && (b.count - 1) * large < v <= b.count * large
  {
    if v < small then Exact(v)
    else if v < large then Units(CeilDiv(v, small), smallSuffix)
    else Units(CeilDiv(v, large), largeSuffix)
  }

  function VolumeBucket(v: nat): Bucket {
    Tier(v, 1_000, 1_000_000, 'k', 'm')
  }

  function CollateralBucket(c: nat): Bucket {
    Tier(c, 1_000_000, 1_000_000_000, 'm', 'b')
  }

  function Render(b: Bucket): string {
    match b
    case Exact(n) => NatToString(n)
    case Units(k, s) => NatToString(k) + [s]
  }

  /** Distinct buckets with non-digit suffixes render to distinct text. */
  lemma RenderInjective(a: Bucket, b: Bucket)
    requires a.Units? ==> !IsDigit(a.suffix)
    requires b.Units? ==> !IsDigit(b.suffix)
    ensures Render(a) == Render(b) <==> a == b
  {
    var ra, rb := Render(a), Render(b);
    LastCharOfRender(a);
    LastCharOfRender(b);
    if ra == rb {
      if a.Exact? && b.Exact? {
        NatToStringInjective(a.n, b.n);
      } else if a.Units? && b.Units? {
        assert ra[..|ra| - 1] == NatToString(a.count);
        assert rb[..|rb| - 1] == NatToString(b.count);
        NatToStringInjective(a.count, b.count);
      }
    }
  }

  /** A rendered bucket ends in a digit exactly when it is exact. */
  lemma LastCharOfRender(b: Bucket)
    requires b.Units? ==> !IsDigit(b.suffix)
    ensures |Render(b)| > 0 && (IsDigit(Render(b)[|Render(b)| - 1]) <==> b.Exact?)
  {
  }

  /** `volumeString` renders exactly the volume tier. */
  lemma VolumeStringIsTier(v: nat)
    ensures VolumeString(v) == Render(VolumeBucket(v))
  {
  }

  lemma CollateralStringIsTier(c: nat)
    ensures CollateralString(c) == Render(CollateralBucket(c))
  {
  }

  /** Two volumes get the same text exactly when they fall in the same tier. */
  lemma VolumeStringSameIffSameBucket(a: nat, b: nat)
    ensures VolumeString(a) == VolumeString(b) <==> VolumeBucket(a) == VolumeBucket(b)
  {
    RenderInjective(VolumeBucket(a), VolumeBucket(b));
  }

  /** Two collaterals get the same text exactly when they fall in the same tier. */
  lemma CollateralStringSameIffSameBucket(a: nat, b: nat)
    ensures CollateralString(a) == CollateralString(b) <==> CollateralBucket(a) == CollateralBucket(b)
  {
    RenderInjective(CollateralBucket(a), CollateralBucket(b));
  }

  /** The largest value of a tier. */
  function TierTop(b: Bucket, small: nat, large: nat, smallSuffix: char): nat {
    match b
    case Exact(n) => n
    case Units(k, s) => if s == smallSuffix then k * small else k * large
  }

  /** Bucketing never rounds down, and the tiers are ordered like the values. */
  lemma VolumeTierMonotone(a: nat, b: nat)
    requires a <= b
    ensures a <= TierTop(VolumeBucket(a), 1_000, 1_000_000, 'k')
    ensures TierTop(VolumeBucket(a), 1_000, 1_000_000, 'k') <= TierTop(VolumeBucket(b), 1_000, 1_000_000, 'k')
  {
    TierMonotone(a, b, 1_000, 1_000_000, 'k', 'm');
  }

  lemma CollateralTierMonotone(a: nat, b: nat)
    requires a <= b
    ensures a <= TierTop(CollateralBucket(a), 1_000_000, 1_000_000_000, 'm')
    ensures TierTop(CollateralBucket(a), 1_000_000, 1_000_000_000, 'm') <= TierTop(CollateralBucket(b), 1_000_000, 1_000_000_000, 'm')
  {
    TierMonotone(a, b, 1_000_000, 1_000_000_000, 'm', 'b');
  }

  lemma TierMonotone(a: nat, b: nat, small: nat, large: nat, s1: char, s2: char)
    requires a <= b && 0 < small < large && large % small == 0 && s1 != s2
    ensures a <= TierTop(Tier(a, small, large, s1, s2), small, large, s1)
    ensures TierTop(Tier(a, small, large, s1, s2), small, large, s1) <= TierTop(Tier(b, small, large, s1, s2), small, large, s1)
  {
    var ta := TierTop(Tier(a, small, large, s1, s2), small, large, s1);
    var tb := TierTop(Tier(b, small, large, s1, s2), small, large, s1);
    if a < small {
      if b >= small {
        assert ta == a && tb >= b;
      }
    } else if a < large {
      CeilDivMonotone(a, b, small);
      if b >= large {
        // the small-unit top of `a` is at most `large`, which the large-unit top of `b` reaches
        CeilDivAtMost(a, small, large);
        assert CeilDiv(b, large) >= 1;
      }
    } else {
      CeilDivMonotone(a, b, large);
    }
  }

  lemma MulMonotone(x: int, y: int, d: nat)
    ensures x <= y ==> x * d <= y * d
  {
  }

  lemma CeilDivMonotone(a: nat, b: nat, d: nat)
    requires a <= b && d > 0
    ensures CeilDiv(a, d) * d <= CeilDiv(b, d) * d
  {
    var qa, qb := CeilDiv(a, d), CeilDiv(b, d);
    MulMonotone(qb, qa as int - 1, d);
    MulMonotone(qa, qb, d);
  }

  lemma CeilDivAtMost(a: nat, small: nat, large: nat)
    requires 0 < small && a < large && large % small == 0
    ensures CeilDiv(a, small) * small <= large
  {
    var q := CeilDiv(a, small);
    var m := large / small;
    assert large == m * small;
    MulMonotone(m, q as int - 1, small);
    MulMonotone(q, m, small);
  }

  /** The tiers of the examples the design gives. */
  lemma TierExamples()
    ensures VolumeString(999) == "999"
    ensures VolumeString(1_500) == "2k"
    ensures VolumeString(1_000_000) == "1m"
    ensures CollateralString(999_999) == "999999"
    ensures CollateralString(1_000_001) == "2m"
  {
    assert NatToString(9) == "9";
    assert NatToString(99) == "99";
    assert NatToString(999) == "999";
    assert NatToString(9999) == "9999";
    assert NatToString(99999) == "99999";
    assert NatToString(999999) == "999999";
    assert NatToString(2) == "2" && NatToString(1) == "1";
  }

  /** `undefined` in a template literal. */
  function Show(s: Option<string>): string {
    match s
    case None => "undefined"
    case Some(t) => t
  }

  /** `volumeString(undefined)`: both comparisons are false and `Math.ceil(NaN)` is NaN. */
  function VolumePart(v: Option<nat>): string {
    match v
    case None => "NaNm"
    case Some(n) => VolumeString(n)
  }

  function CollateralPart(c: Option<nat>): string {
    match c
    case None => "NaNb"
    case Some(n) => CollateralString(n)
  }

  /** The provider segment of a route key. */
  function KeyName(a: Adapter): string {
    match a
    case Push => "push"
    case Ghsol => "ghsol"
    case BlackFrog => "blackfrog"
    case RedFrog => "redfrog"
    case PurpleFrog => "purplefrog"
  }

  function RoutePrefix(a: Adapter): string {
    "routes:" + KeyName(a) + ":"
  }

  /** The route part of a route key: origin and destination. */
  function RoutePart(params: RouteParameters): string {
    Show(params.origin) + ":" + Show(params.destination) + ":"
  }

  /** The size part of a route key: volume tier and collateral tier. */
  function TierPart(params: RouteParameters): string {
    VolumePart(params.volume) + ":" + CollateralPart(params.collateral)
  }

  function RouteTail(params: RouteParameters): string {
    RoutePart(params) + TierPart(params)
  }

  /** `getRouteKey` (index.ts:191-193). */
  function RouteKey(a: Adapter, params: RouteParameters): string {
    RoutePrefix(a) + RouteTail(params)
  }

  lemma PartsHaveNoColon(params: RouteParameters)
    ensures ':' !in VolumePart(params.volume) && ':' !in CollateralPart(params.collateral)
  {
    match params.volume
    case None =>
    case Some(v) =>
      DigitsHaveNo(NatToString(v), ':');
      DigitsHaveNo(NatToString(CeilDiv(v, 1_000)), ':');
      DigitsHaveNo(NatToString(CeilDiv(v, 1_000_000)), ':');
    match params.collateral
    case None =>
    case Some(c) =>
      DigitsHaveNo(NatToString(c), ':');
      DigitsHaveNo(NatToString(CeilDiv(c, 1_000_000)), ':');
      DigitsHaveNo(NatToString(CeilDiv(c, 1_000_000_000)), ':');
  }

  /** For one provider and route, the key identifies the volume tier and the
      collateral tier: two requests share a key exactly when both tiers agree. */
  lemma RouteKeySameIffSameTiers(a: Adapter, p: RouteParameters, q: RouteParameters)
    requires p.origin == q.origin && p.destination == q.destination
    ensures RouteKey(a, p) == RouteKey(a, q) <==>
      VolumePart(p.volume) == VolumePart(q.volume) && CollateralPart(p.collateral) == CollateralPart(q.collateral)
  {
    var head := RoutePrefix(a) + RoutePart(p);
    var tp, tq := TierPart(p), TierPart(q);
    assert RoutePart(p) == RoutePart(q);
    assert RouteKey(a, p) == head + tp;
    assert RouteKey(a, q) == head + tq;
    if RouteKey(a, p) == RouteKey(a, q) {
      assert tp == (head + tp)[|head|..];
      PartsHaveNoColon(p);
      PartsHaveNoColon(q);
      SplitFirstUnique(VolumePart(p.volume), CollateralPart(p.collateral),
                       VolumePart(q.volume), CollateralPart(q.collateral), ':');
    }
  }

  /** Requests whose volumes and collaterals fall in the same tiers share the key. */
  lemma SameTiersSameKey(a: Adapter, origin: string, destination: string, v1: nat, c1: nat, v2: nat, c2: nat)
    requires VolumeBucket(v1) == VolumeBucket(v2) && CollateralBucket(c1) == CollateralBucket(c2)
    ensures RouteKey(a, RouteParameters(Some(origin), Some(destination), Some(v1), Some(c1), None))
         == RouteKey(a, RouteParameters(Some(origin), Some(destination), Some(v2), Some(c2), None))
  {
    VolumeStringIsTier(v1);
    VolumeStringIsTier(v2);
    CollateralStringIsTier(c1);
    CollateralStringIsTier(c2);
  }

  /** Provider names are distinct and free of the separator. */
  lemma KeyNames(a: Adapter, b: Adapter)
    ensures ':' !in KeyName(a)
    ensures KeyName(a) == KeyName(b) <==> a == b
  {
    assert |KeyName(a)| == |KeyName(b)| ==> a == b;
  }

  lemma TaggedDiffer(x: string, r1: string, y: string, r2: string)
    requires ':' !in x && ':' !in y && x != y
    ensures "routes:" + x + ":" + r1 != "routes:" + y + ":" + r2
  {
    var s1, s2 := "routes:" + x + ":" + r1, "routes:" + y + ":" + r2;
    assert s1[7..] == x + [':'] + r1;
    assert s2[7..] == y + [':'] + r2;
    if s1 == s2 {
      SplitFirstUnique(x, r1, y, r2, ':');
    }
  }

  /** Keys of different providers never collide. */
  lemma RouteKeysOfProvidersDiffer(a: Adapter, b: Adapter, p: RouteParameters, q: RouteParameters)
    requires a != b
    ensures RouteKey(a, p) != RouteKey(b, q)
  {
    KeyNames(a, b);
    KeyNames(b, a);
    TaggedDiffer(KeyName(a), RouteTail(p), KeyName(b), RouteTail(q));
    assert RouteKey(a, p) == "routes:" + KeyName(a) + ":" + RouteTail(p);
    assert RouteKey(b, q) == "routes:" + KeyName(b) + ":" + RouteTail(q);
  }
}
