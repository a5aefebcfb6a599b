# EVE hauling advisor, modelled in Dafny

This project models the core of the EVE hauling advisor. The advisor asks several
courier services (Push Industries, Galactic Hauling Solutions, Red, Purple and Black
Frog) what they would charge to haul a given volume and collateral from one solar
system to another, and shows the answers as a table.

The model covers these parts:

- **The serverless back end (`index.ts`).**
  - `/api/systems`, `/api/mainland` and `/api/route`.
  - The five provider adapters, with their caps, caches, rate limit and error mapping.
  - The key–value store and the key scheme it is addressed by.
  - The two distance jobs started by store events.
  - `getSystemInfo`.
  - The Haulers Channel price rule.
- **The Next.js page (`frontend/pages/index.tsx`).**
  - How a route's securities are summarised (`getSpaces`).
  - The contingent-highsec hint.
  - The order and truncation of the results table.
  - The volume and collateral inputs with their multiplier buttons.
- **The name-list generator (`scripts/generate-system-names.js`).**
  - It chunks the system ids and keeps the names of solar systems.

The store is a class, `KeyValue.Store`:

- Its `data` and `ttl` maps are updated in place.
- `Valid()` says that every key holds a value of the shape its key prefix promises.

Every handler and adapter is a method on the store. Each has two postconditions:

- one that states its new state as a function of the old one;
- one that says it keeps `Valid()`.

The pure pieces are functions with lemmas about them:

- the key rendering, the error mapping and the pricing rule;
- the response flattening, the table ordering and the input classifier.

Upstream HTTP replies are parameters of type `Reply<T>` (`Ok(payload)` or
`Err(errorText)`), and ESI's system data is a map. Where the source reads a field that
the reply does not have, or lets an exception escape, the model does the same. An
escaping exception is `Outcome.Threw`.

Modules:

| Module | What it holds |
|---|---|
| `Wrappers` | `Option`, `Reply` and `Outcome` |
| `Text` | the JavaScript string operations used |
| `JsNumbers` | `+s` and JavaScript numbers with NaN |
| `Quotes` | the response values |
| `RouteKeys` | the route cache key |
| `KeyValue` | the store and its key kinds |
| `FrogErrors` | `mapFrogError` |
| `Topology` | `getSystemInfo` |
| `Mainland` | `/api/mainland` |
| `Adapters` | the five providers |
| `DistanceJobs` | the store-event jobs |
| `HaulersChannel` | the Haulers Channel price rule |
| `RouteApi` | `/api/systems` and `/api/route` |
| `Spaces` | the frontend's route summary |
| `ResultsTable` | the results table |
| `NumericInputs` | the volume and collateral inputs |
| `SystemNames` | the name-list generator |

## Model

| member | source | states |
|---|---|---|
| RouteApi.HandleSystems | index.ts:5-12 | The name list is sent exactly when the client's version differs from `20211018`; otherwise an empty list is sent. The version is always echoed. |
| Mainland.ProbeAnswer | index.ts:35-48 | A successful Red Frog probe means mainland. A probe error that maps to "contiguous highsec" or "does not exist" means not mainland. Any other error is rethrown. All three directions are iff. |
| Mainland.MainlandStep | index.ts:28-49 | A stored flag is returned and nothing is written. Otherwise a definite answer is stored under `mainland:<name>`. A rethrown error leaves the store unchanged. |
| Mainland.MainlandAnswerSticks | index.ts:29-33 | Once a mainland answer has been returned, asking again returns the same answer whatever the probe now says. |
| Mainland.IsMainland | index.ts:28-49 | Its result and new store are exactly `MainlandStep`. The TTL map only loses the key it writes. |
| Mainland.IsMainlandWithId | index.ts:20-26 | Its result and new store are exactly `MainlandWithIdStep`. A failed lookup throws and writes nothing. |
| Mainland.CachedLowsecNotProbed | index.ts:20-26 | A stored system below 0.45 is answered `false` without writing, whatever the probe would say. |
| Mainland.LookupKeepsMainlandFlags | index.ts:20-24 | A system lookup never writes a `mainland:` key, so cached answers stay readable. |
| Mainland.UncachedSystemIsProbed | index.ts:20-26 | For a system not yet in the store, the view carries no security status. So even a nullsec system is probed rather than answered `false`. |
| Mainland.HandleMainland | index.ts:14-18 | A non-empty `systemName` is lower-cased and answered by `MainlandStep`. Otherwise the result and new store are exactly `MainlandWithIdStep` for `systemId`, and a failed lookup throws. |
| RouteApi.Token | index.ts:61-75 | No provider token contains a comma. |
| RouteApi.AdapterOf | index.ts:61-75 | A recognised token names the adapter whose token it is. |
| RouteApi.AdapterOfToken | index.ts:61-75 | Every adapter's own token maps back to that adapter. |
| RouteApi.Choose | index.ts:62-73 | The chosen adapters are no more than the tokens, and each was named by a token. |
| RouteApi.ChooseSingle | index.ts:62-73 | One known name selects its adapter; an unknown name selects nothing. |
| RouteApi.ChooseAppend | index.ts:62-73 | The names are mapped one by one: the adapters of two lists joined are those of each list, in order. With `ChooseSingle` this fixes `Choose` completely. |
| RouteApi.ChooseSkipsUnknown | index.ts:62-73 | The names `redfrog`, `foo`, `pushx` select Red Frog then Push. |
| RouteApi.ParseProviders | index.ts:60-75 | An absent or empty `providers` parameter selects the default list: Red, Purple, Black Frog, GHSOL, Push. |
| RouteApi.ChooseTokens | index.ts:62-73 | Choosing from the tokens of a list of adapters gives back that list, in order and with repeats. |
| RouteApi.ParseProvidersRoundTrip | index.ts:60-75 | For any non-empty list of adapters, parsing its comma-joined tokens returns exactly that list. |
| RouteApi.UnknownNamesRunNothing | index.ts:62-73 | A `providers` parameter with only unknown names runs no adapter. |
| RouteApi.CallAdapter | index.ts:61-76 | Its outcome and new store are exactly `AdapterStep` of the adapter on the old store. A returned record belongs to that adapter and is well formed. It writes only adapter-owned keys. |
| RouteApi.AdapterStep | index.ts:61-76 | One adapter on the stored data, as the adapter's own step function (`PushStep`, `GhsolStep`, `FrogStep`). Only GHSOL can throw. |
| RouteApi.AdapterStepGate | index.ts:195-228 | Every adapter answers a capped request with its refusal and a cached route with the marked record, both without writing. |
| RouteApi.AdapterStepFits | index.ts:61-76 | No adapter breaks the rule that `systemInfo:` keys hold system records. |
| RouteApi.AdapterStepFrame | index.ts:61-76 | An adapter writes only route records, rate markers and system records. |
| RouteApi.PushStepFrame | index.ts:211-278 | Push writes only its rate marker and its route record. |
| RouteApi.GhsolStepFrame | index.ts:280-335 | GHSOL writes only system records and its route record, also when a lookup throws. |
| RouteApi.FrogStepFrame | index.ts:337-472 | A frog adapter writes only its route record. |
| RouteApi.RunAll | index.ts:76 | The adapters one after the other on the stored data. If all complete there is one record per adapter. Not completing means GHSOL was selected. System records stay well formed. |
| RouteApi.RunAllSnoc | index.ts:76 | Running one more adapter extends the run by that adapter's step: a throw clears `completed`, a record is appended. |
| RouteApi.RunAllFrame | index.ts:76 | Together the adapters write only adapter-owned keys. |
| RouteApi.RunAdapters | index.ts:76 | Its `completed`, records and new store are exactly `RunAll` of the selected adapters on the old store, each adapter with its own random draw. If every adapter completes, each record is from its adapter and well formed. Not completing means GHSOL was selected. |
| RouteApi.AdaptersKeepDistances | index.ts:76-81 | Adapter writes never change whether any distance record exists for the pair. |
| RouteApi.NoDistanceIffNoKeys | index.ts:80-81 | The store's `distance:<o>:<d>:*` lookup is empty exactly when no distance record exists for the pair. |
| RouteApi.EnqueueAndRecord | index.ts:78-109 | The new store is `AfterRecord` of the old one. Both distance jobs are queued when no distance is known, then the response is stored under `results:<now>`. |
| RouteApi.AfterRecordValues | index.ts:78-109 | After recording, the results key holds the response. With no distance known, both job keys hold the origin and destination. With a distance known, nothing but the results key changes. |
| RouteApi.AfterRecordFrame | index.ts:78-109 | Recording changes only job keys and the results key, and keeps whether a distance is known. |
| RouteApi.HandleRoute | index.ts:51-115 | `completed` and the records are those of `RunAll` on the old store. The new store is `RunAll`'s store, followed by `AfterRecord` of the flattened entries when all adapters completed. A missing parameter answers 400 "Missing parameter.". When every adapter completes, one record comes per selected adapter, every entry comes from a selected provider and is well formed, and the flattened entries are stored under `results:<now>`. With all parameters present they are also the response. Both distance jobs are queued exactly when no distance was known and the adapters completed; otherwise job keys keep their values. If an adapter throws, the request throws and no job is queued. Keys of no other kind change. |
| Quotes.MarkCached | index.ts:195-209 | Keeps the shape and length of the record. Sets `cached` on every entry. Changes no other field. |
| Quotes.MarkCachedIdempotent | index.ts:195-209 | Marking a cache hit twice is the same as marking it once. |
| Quotes.MarkCachedKeeps | index.ts:195-209 | Marking keeps the provider of every entry and keeps well-formedness. |
| Quotes.FlattenAppend | index.ts:76 | Flattening distributes over concatenation, and its length is the total number of entries. |
| Quotes.FlattenProviders | index.ts:76 | Every entry of the flattened response names one of the providers whose records were flattened. |
| Quotes.FlattenWellFormed | index.ts:76 | Flattening well-formed records gives well-formed entries, so `error` is truthy exactly on errors. |
| RouteKeys.CeilDiv | index.ts:175-187 | `Math.ceil(n / d)`: the least `q` with `q * d >= n`. |
| RouteKeys.Tier | index.ts:171-189 | A value below the small unit is kept exactly. Otherwise it is counted in small or large units, rounded up, and the count brackets the value. |
| RouteKeys.VolumeStringIsTier | index.ts:181-189 | `volumeString` renders the volume's tier: exact below 1,000, then `k`, then `m`. |
| RouteKeys.CollateralStringIsTier | index.ts:171-179 | `collateralString` renders the collateral's tier: exact below 1e6, then `m`, then `b`. |
| RouteKeys.RenderInjective | index.ts:171-189 | Two tiers render to the same text exactly when they are equal. |
| RouteKeys.VolumeStringSameIffSameBucket | index.ts:181-189 | Two volumes render the same exactly when they fall in the same tier. |
| RouteKeys.CollateralStringSameIffSameBucket | index.ts:171-179 | Two collaterals render the same exactly when they fall in the same tier. |
| RouteKeys.VolumeTierMonotone | index.ts:181-189 | A volume is at most the top of its tier, and the tier top grows with the volume. |
| RouteKeys.CollateralTierMonotone | index.ts:171-179 | A collateral is at most the top of its tier, and the tier top grows with the collateral. |
| RouteKeys.TierExamples | index.ts:171-189 | Concrete renderings: 999 → `999`, 1,500 → `2k`, 1e6 → `1m`, 999,999 → `999999`, 1,000,001 → `2m`. |
| RouteKeys.RouteKeySameIffSameTiers | index.ts:191-193 | For one adapter and one pair of systems, two requests share a cache key exactly when their volume and collateral strings are equal. |
| RouteKeys.SameTiersSameKey | index.ts:191-193 | Requests whose volumes and collaterals fall in the same tiers share a cache entry. |
| RouteKeys.RouteKeysOfProvidersDiffer | index.ts:191-193 | Different adapters never share a cache key. |
| KeyValue.Store.Set | index.ts:269 | `data.set`: one key changes, its TTL is set or cleared, and validity is kept when the value fits the key's kind. |
| KeyValue.Store.KeysWithPrefix | index.ts:80 | `data.get('<prefix>*')`: exactly the stored keys starting with the prefix. |
| KeyValue.Store.CountWithPrefix | index.ts:231 | A `limit`-ed prefix query: the count stays within the limit, reaches it only when that many keys match, and is zero exactly when none match. |
| KeyValue.SystemInfoKeyInjective | index.ts:501 | Distinct system ids have distinct `systemInfo:` keys. |
| KeyValue.RouteKeyKind | index.ts:191-193 | A route key is classified as the cache of its own adapter. |
| Adapters.GateOf | index.ts:212-229 | An adapter refuses on too much volume first, then on too much collateral, against its own caps. Otherwise it answers from a cached route record, or misses. |
| Adapters.GateOfValid | index.ts:225-229 | On a valid store, a miss means the key is absent. A hit holds a well-formed record of that adapter (a single entry for Purple Frog). |
| Adapters.RandomTtl | index.ts:269 | `Math.floor(Math.random() * width) + base` lies in `[base, base + width)`. |
| Adapters.PushDays | index.ts:252-266 | PushX's day text has no usable day pair exactly when it has fewer than three space-separated words. |
| Adapters.PushDaysRoundTrip | index.ts:252-266 | Reading `"<n> <unit> (<m> <unit>)"` yields `n` and `m`. |
| Adapters.PushResult | index.ts:244-266 | A price error becomes a single error entry. Otherwise there are two offers, standard then rush, with their prices, and the rush hours are 24 times the rush days. It fails exactly when a day text is malformed. |
| Adapters.PushOffersOfQuote | index.ts:252-266 | The standard offer takes the first number of each day text and the rush offer the second. |
| Adapters.RateKeySameSecond | index.ts:231-242 | Two calls share a rate-limit key exactly when they fall in the same second. |
| Adapters.RateKeyCounted | index.ts:231-242 | Every rate-limit key is counted by the `apirate:push:*` query. |
| Adapters.GetPushX | index.ts:211-278 | Its record and new store are exactly `PushStep`. Caps and cache hits return without writing. At 90 recent calls it refuses without writing. Otherwise it stores a rate marker with TTL 600, then the parsed record with TTL in `[12h, 24h)`. A failed call stores no record. |
| Adapters.GhsolOffers | index.ts:314-332 | The standard offer appears exactly when collateral is at most 4e9. The rush offer is always last. |
| Adapters.GhsolRecord | index.ts:302-332 | The record is a refusal exactly when some looked-up system has a known negative security. Otherwise it holds only offers. |
| Adapters.GhsolUnknownSecurityOffers | index.ts:302-311 | Systems fetched fresh from ESI carry no `securityStatus`, so they are never refused as nullsec. |
| Adapters.GetGhsol | index.ts:280-335 | Its outcome and new store are exactly `GhsolStep`. Caps and hits return without writing. A failed id lookup throws. Otherwise it looks up the systems, stores the record without TTL, and returns it. A throw during the lookups leaves the records stored before it. |
| Adapters.FrogFailure | index.ts:367-372 | A frog error becomes one error entry carrying one of the three mapped messages. |
| Adapters.GetBlackFrog | index.ts:337-373 | Its record and new store are exactly `FrogStep`. Caps and hits return without writing. A reply is stored with TTL in `[1d, 8d)`. An error is returned and not stored. |
| Adapters.GetRedFrog | index.ts:378-424 | Its record and new store are exactly `FrogStep`. As Black Frog, but a "contiguous highsec" error is also stored, with TTL in `[30d, 60d)`. |
| Adapters.GetPurpleFrog | index.ts:426-472 | Its record and new store are exactly `FrogStep`. As Red Frog, but the result is always a single entry, and a cache hit marks that one entry. |
| Adapters.PurpleHitIsMarkCached | index.ts:441-448 | Purple Frog's own hit handling agrees with `returnExistingRecord` on a single entry. |
| FrogErrors.MapFrogError | index.ts:474-485 | A message starting with "No contiguous High Sec route found" maps to the contiguous error. Otherwise one containing "not found in our database" maps to "System does not exist.". Anything else, including a missing message, maps to the generic error. All three are iff. |
| FrogErrors.PrefixWins | index.ts:475-480 | The contiguous prefix wins even when the message also says "not found". |
| FrogErrors.NotFoundClassified | index.ts:476-482 | `"<name> not found in our database."` maps to "System does not exist.". |
| Topology.Lookup | index.ts:500-513 | A cached system returns the stored record unchanged. An uncached one is stored from ESI, and the raw reply is returned with no `securityStatus` or `systemId`. It throws exactly when the system is neither cached nor known to ESI. |
| Topology.LookupNotIdempotent | index.ts:500-513 | The second lookup of a fresh system returns its security and id, where the first returned neither. |
| Topology.GetSystemInfo | index.ts:500-513 | Its result and new store are exactly `Lookup`. TTLs are untouched. |
| Topology.LookupAll | index.ts:526 | Looking up many systems returns one view per id and keeps the store's system records well formed. |
| Topology.LookupAllOnlyAddsRecords | index.ts:526 | Looking up systems only adds `systemInfo:` records and never changes an existing key. |
| Topology.LookupAllSeesCached | index.ts:526 | A system cached before the lookups is seen with its stored data. |
| Topology.LookupAllFreshUnseen | index.ts:526 | The first lookup of an uncached system sees no security and no id. |
| Topology.LookupAllData | index.ts:526 | The store after the lookups up to the first failure keeps system records well formed. |
| Topology.LookupAllDataReturned | index.ts:526 | When every lookup succeeds, `LookupAllData` is the store `LookupAll` returns. |
| Topology.LookupAllDataOnlyAddsRecords | index.ts:526 | The lookups up to the first failure only add `systemInfo:` records. |
| Topology.WriteKeepsRecordsFit | index.ts:500-513 | A write under a key of another kind leaves every system record in place. |
| Topology.LookupSystems | index.ts:526 | The sequential lookup loop returns exactly `LookupAll`. Its new store is `LookupAllData`, also when a lookup throws, and it only adds system records. |
| Topology.Securities | index.ts:527-534 | One entry per route system: the security the last view with that id reported, or none. |
| DistanceJobs.RouteSecurities | index.ts:527-534 | The gates record lists one security per system of the route. |
| DistanceJobs.LastSecurityOfAnonymous | index.ts:527-530 | Views without an id leave the security map empty. |
| DistanceJobs.LastSecurityFound | index.ts:527-534 | When every view with an id agrees on its security, that security is listed. |
| DistanceJobs.RunGatesJob | index.ts:515-545 | A failed id or route reply, or fewer than two ids, throws and writes nothing. Otherwise the systems are looked up and `distance:<o>:<d>:gates` holds the hop count and the route securities. |
| DistanceJobs.GatesJobColdCache | index.ts:500-534 | On a cold cache every listed security is missing, because fresh lookups return the raw ESI object. |
| DistanceJobs.GatesJobWarmCache | index.ts:526-534 | On a warm cache every listed security is the stored one. |
| DistanceJobs.RunLightyearsJob | index.ts:487-498 | A reply stores `distance:<o>:<d>:lightyears` with its distance. An error throws and writes nothing. |
| HaulersChannel.AdjustedCollateral | index.ts:611-619 | Collateral of at least 1e9 is kept. Lower collateral is only ever raised. |
| HaulersChannel.NormalizedJumps | index.ts:621-626 | The jump count is at least 3. From 5 jumps it is kept, and below 5 it stays below 5. |
| HaulersChannel.Additive | index.ts:636-665 | The additive surcharge is never negative, and is zero up to 500,000 m3. |
| HaulersChannel.CollateralFactor | index.ts:632-634 | The collateral factor is at least 1. |
| HaulersChannel.RushFactor | index.ts:667-676 | The rush factor is at least 2. |
| HaulersChannel.Multiplier | index.ts:632-680 | The combined multiplier is at least 1. |
| HaulersChannel.FreighterMultiplier | index.ts:685-701 | The jump-freighter multiplier is positive. |
| HaulersChannel.Price | index.ts:598-703 | "Missing parameter." exactly when volume, jumps or collateral is 0. "Does not fit" exactly when the route leaves highsec with more than 386,000 m3. A reward in every other case. |
| HaulersChannel.HaulersChannelCalc | index.ts:598-703 | The step-by-step computation returns exactly `Price`. |
| HaulersChannel.RushAndStandardRejectTogether | index.ts:567-594 | The rush and standard prices are rejected together and for the same reason. |
| HaulersChannel.RushNeverCheaper | index.ts:667-676 | For positive inputs, rush is priced exactly when standard is, and never below it. |
| HaulersChannel.CollateralRewardMonotone | index.ts:681-682 | The highsec reward grows with the multiplier. |
| HaulersChannel.FreighterRewardMonotone | index.ts:685-701 | The jump-freighter reward grows with the multiplier. |
| HaulersChannel.JumpFloor | index.ts:621-626 | Jumps are floored at 3 and kept from 5. |
| HaulersChannel.FirstBelow | index.ts:558 | `find(s => s < bound)`: the first known security below the bound, or none exactly when there is none. |
| HaulersChannel.ZeroSecurityPassesAsHighsec | index.ts:558 | A route whose first system has security 0 counts as highsec-only, because `find` returns the falsy 0. |
| HaulersChannel.HighsecOnlyIff | index.ts:558 | All known securities at least 0.45 means highsec-only. A first low security that is not 0 means not highsec-only. |
| HaulersChannel.StandardBranchQuirkHarmless | index.ts:567-594 | Reporting the standard branch's error from the rush result never differs from the intended entries, because both reject together. |
| HaulersChannel.GetHaulersChannel | index.ts:547-595 | Without a gates distance it queues the gates job and returns no entries. With one, it prices rush and standard from the hop count and the securities, writing nothing. |
| Spaces.Find | frontend/pages/index.tsx:25-35 | `securities.find(band)`: the first security in the band, or none exactly when none is. |
| Spaces.FindHigh | frontend/pages/index.tsx:25-27 | The highsec test is truthy exactly when some security is at least 0.45. |
| Spaces.FindLow | frontend/pages/index.tsx:28-31 | The lowsec test is truthy exactly when some security is strictly between 0 and 0.45. |
| Spaces.FindNonPositive | frontend/pages/index.tsx:32-35 | The nullsec test is truthy exactly when the first non-positive security is not 0. |
| Spaces.GetSpaces | frontend/pages/index.tsx:22-37 | The summary is the comma-joined labels. It ends with the safer-route note exactly when lowsec or reported nullsec is present. |
| Spaces.ZeroHidesNullsec | frontend/pages/index.tsx:32-35 | If the first non-positive security is exactly 0, nullsec is not reported. |
| Spaces.ContingentHint | frontend/pages/index.tsx:319-324 | The hint shows once both mainland answers are known, and says yes exactly when both are mainland. |
| ResultsTable.ComparePreorder | frontend/pages/index.tsx:117-179 | Both comparators, by reward and by provider name, are total and transitive. |
| ResultsTable.SortPermutation | frontend/pages/index.tsx:117 | Sorting keeps exactly the rows it was given. |
| ResultsTable.SortSorted | frontend/pages/index.tsx:117 | Sorting with a total, transitive comparator gives a sorted list. |
| ResultsTable.InsertPermutation | frontend/pages/index.tsx:117 | Inserting a row adds exactly that row. |
| ResultsTable.InsertSorted | frontend/pages/index.tsx:117 | Inserting into a sorted list keeps it sorted. |
| ResultsTable.Offers | frontend/pages/index.tsx:117 | The offers section holds no error rows. |
| ResultsTable.Errors | frontend/pages/index.tsx:179 | The errors section holds only error rows. |
| ResultsTable.SplitIsPermutation | frontend/pages/index.tsx:117-179 | Offers and errors together are exactly the results. |
| ResultsTable.TableIsPermutation | frontend/pages/index.tsx:117-196 | The table shows every result exactly once. |
| ResultsTable.SortedGroups | frontend/pages/index.tsx:117-179 | The sorted offers are all offers and the sorted errors all errors. |
| ResultsTable.TableLayout | frontend/pages/index.tsx:117-196 | The table lists all offers first, by rising reward, then all errors, ordered by provider name. |
| ResultsTable.Truncate | frontend/pages/index.tsx:189 | An error is shown whole exactly when it has at most 83 characters. A longer one shows its first 80 characters and `...`. |
| NumericInputs.CountAllowed | frontend/pages/index.tsx:487 | The count of digits, commas and dots equals the length exactly when every character is one of them. |
| NumericInputs.Classify | frontend/pages/index.tsx:475-490 | The text is kept as typed when empty or ending in its only dot. Input is ignored when it ends in a dot with another dot before it, or has a disallowed character. Otherwise the number is the text with commas removed. |
| NumericInputs.TrailingDotSkipsCharacterCheck | frontend/pages/index.tsx:476-482 | `1a.` is kept as typed: the dot check comes before the character check. |
| NumericInputs.LetterRefused | frontend/pages/index.tsx:487-489 | `10m` is ignored. |
| NumericInputs.Grouped | frontend/pages/index.tsx:6 | The `en` grouping of a whole number holds digits and commas and ends in a digit. A comma stands exactly where a multiple of four characters remain, so the first group has one to three digits and every comma is followed by exactly three. |
| NumericInputs.CommasEveryThreeAppend | frontend/pages/index.tsx:6 | Appending a comma and three digits to a correctly grouped number keeps it correctly grouped. |
| NumericInputs.GroupedThousands | frontend/pages/index.tsx:6 | The grouping of `a` thousands and `b` is that of `a`, a comma and the three digits of `b`. |
| NumericInputs.ShortNatToString | frontend/pages/index.tsx:6 | A number below a thousand has at most three digits. |
| NumericInputs.UngroupGrouped | frontend/pages/index.tsx:490 | Removing the commas from a grouped number gives its plain decimal digits. |
| NumericInputs.ClassifyGrouped | frontend/pages/index.tsx:490-497 | Typing back a grouped whole number reads the same number. |
| NumericInputs.ClassifyNatToString | frontend/pages/index.tsx:487-490 | Typing a plain whole number reads that number. |
| NumericInputs.SeparatorsAccepted | frontend/pages/index.tsx:487-490 | `10,000` reads as 10000. |
| NumericInputs.VolumeInput.OnChange | frontend/pages/index.tsx:475-498 | An ignored input changes nothing. Kept text is stored as typed. A number is scaled and formatted, and the error is set exactly when it exceeds 1,200,000. |
| NumericInputs.VolumeInput.Scale | frontend/pages/index.tsx:510-515 | Exactly `OnChange` applied to the field's text, or to "undefined" when it has none: a refused or kept text leaves text and error as they were; a number is scaled and reformatted, and the error is set exactly when the result exceeds 1,200,000. |
| NumericInputs.UndefinedIgnored | frontend/pages/index.tsx:510-515 | A button pressed on a field with no text sends "undefined", which is refused. |
| NumericInputs.CollateralInput.OnChange | frontend/pages/index.tsx:535-552 | As the volume input, without a maximum. |
| NumericInputs.CollateralInput.Scale | frontend/pages/index.tsx:565-570 | Exactly `OnChange` applied to the field's text, or to "undefined" when it has none: a refused or kept text leaves the field as it was; a number is scaled and reformatted. |
| NumericInputs.GroupedTenThousand | cypress/cypress/integration/numeric-inputs.js:7 | 10000 is displayed as "10,000". |
| NumericInputs.GroupedMillion | cypress/cypress/integration/multipliers.js:15 | A million is displayed as "1,000,000". |
| NumericInputs.GroupedThreeHundredMillion | cypress/cypress/integration/multipliers.js:23 | 300 million is displayed as "300,000,000". |
| NumericInputs.GroupedFourBillion | cypress/cypress/integration/multipliers.js:31 | 4 billion is displayed as "4,000,000,000". |
| NumericInputs.VolumeNaturalNumber | cypress/cypress/integration/numeric-inputs.js:3-8 | With `format` grouping whole numbers, typing 10000 into the volume field shows "10,000" and no error. |
| NumericInputs.VolumeLetters | cypress/cypress/integration/numeric-inputs.js:19-24 | Typing "10m" leaves "10": the letter is refused. |
| NumericInputs.VolumeTimesThousand | cypress/cypress/integration/multipliers.js:2-8 | Typing 10, then pressing thousand, shows "10,000". |
| NumericInputs.VolumeTimesMillion | cypress/cypress/integration/multipliers.js:10-16 | Typing 1, then pressing million, shows "1,000,000" and no error. |
| NumericInputs.CollateralTimesMillion | cypress/cypress/integration/multipliers.js:18-24 | Typing 300, then pressing million, shows "300,000,000". |
| NumericInputs.CollateralTimesBillion | cypress/cypress/integration/multipliers.js:26-32 | Typing 4, then pressing billion, shows "4,000,000,000". |
| JsNumbers.ToNumber | frontend/pages/index.tsx:490 | `+s` on unsigned decimal numerals: the empty string is 0, a string that is not digits with at most one dot is NaN, and a numeral is non-negative. |
| JsNumbers.NumberOfNatToString | frontend/pages/index.tsx:490 | Reading back the decimal text of a whole number gives that number. |
| SystemNames.Chunks | scripts/generate-system-names.js:25-29 | The chunks concatenate to the input. Each is non-empty and at most `n` long, all but the last are exactly `n`, and their number is the least that fits. |
| SystemNames.ChunkCount | scripts/generate-system-names.js:25-29 | Non-empty chunks of at most `n`, full but for the last, number exactly ⌈length / n⌉. |
| SystemNames.SolarSystemNames | scripts/generate-system-names.js:17-18 | Filtering keeps at most one name per entry. |
| SystemNames.SolarSystemNamesExactly | scripts/generate-system-names.js:17-18 | A name is listed exactly when some entry with category `solar_system` carries it. |
| SystemNames.SolarSystemNamesAppend | scripts/generate-system-names.js:14-18 | Filtering distributes over concatenation. |
| SystemNames.NamesOfRepliesInOrder | scripts/generate-system-names.js:14-18 | The names of all replies are the names of each reply, in reply order. |
| Text.SplitJoin | index.ts:62 | Splitting the comma-join of comma-free parts gives back the parts. |
| Text.JoinSplit | index.ts:62 | Joining the parts of a split restores the string. |
| Text.ToLower | index.ts:16 | Lower-casing keeps the length and maps each character, changing only `A` to `Z`. |
| Text.NatToStringInjective | index.ts:173 | Distinct numbers render to distinct decimal strings. |

## Left out

- HTTP, the serverless runtime and logging are not modelled:
  - every upstream reply is a parameter;
  - a store event (`data.on("created:…")`) is a call of the job method;
  - a response is the value a handler returns.
- The store's TTL is kept as a map beside the data, but expiry is not simulated. A record stays until overwritten.
- `Promise.all` is modelled as sequential calls in list order. Interleaving between concurrent adapters, and concurrent requests, are not modelled.
- `Math.random()` is a parameter in `[0, 1)`: each adapter call gets its own draw, from the sequence `rs` that has one entry per selected adapter. The clock is the parameter `nowMs`. `Math.log` is the parameter `log`, assumed non-zero at 15 and 20 as the source's divisions need.
- Query-string values arrive as strings in the source. The model takes volume and collateral as whole numbers (`Option<nat>`), as the type declaration at index.ts:148-154 says. So the source's string comparisons and the truthiness of `"0"` are not modelled.
- RouteApi.HandleRoute: the source sends the 400 answer but does not return, so it goes on querying with `undefined` in the keys. The model runs the adapters in that case too and returns the 400 answer. What the source's second `res.send` would do is not modelled.
- If an adapter throws, the source's route handler rejects and no response is sent. The model reports this as `Threw` with `completed == false`.
- The `distances` block of the response is never filled in the source, because the inner `const` shadows it. The model never adds it.
- `getHaulersChannel` is modelled and its price rule proved, but it is not in `providerFunctions`, so the route handler does not call it, and neither does the model.
- HaulersChannel.ChannelEntries: when the standard quote is refused but the rush quote is a number, the source puts that number in the standard entry's `error`. The model writes "Not available." there instead, because its errors are strings. HaulersChannel.StandardBranchQuirkHarmless proves this case never arises.
- `nf.format` (`Intl.NumberFormat('en-EN')`) is a parameter `format` of the inputs. Only its grouping of whole numbers is modelled, as `Grouped`. Decimals, rounding to three places and locale data are not.
- `localeCompare` is modelled as code-unit order.
- The table's sort is an insertion sort, so it is stable. The stability of the browser's `sort` is not stated.
- Adapters.PushOffersOfQuote states the days of the two offers. The rush hours are stated by Adapters.PushResult.
- The React components, effects and rendering beyond the pieces listed above are not modelled: colours, links, the form, fetching and the prefill from the URL.
- The name-list script's file writing and its top-level HTTP calls are not modelled. The replies are parameters.
- JavaScript numbers are `real` with an explicit NaN where the inputs need it. Floating-point rounding is not modelled.
- JsNumbers.ToNumber reads only unsigned decimal numerals. JavaScript's `Number` also accepts signs, exponents, surrounding whitespace, hexadecimal and "Infinity". `Adapters.PushDays` applies it to Push's day text unfiltered, so such text would read as NaN in the model but as a number in the source.
- Text.ToLower maps only `A` to `Z`. The case folding `toLowerCase` applies to non-ASCII letters (index.ts:16) is not modelled.
- Mainland.HandleMainland: `systemId` is a `nat`, so an absent query parameter cannot be expressed. Without either parameter the source would look up `systemInfo:undefined`; the model does not cover that request.
