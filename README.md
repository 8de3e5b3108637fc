# Wallet web app core logic, modelled in Dafny

This project models five small pieces of a cryptocurrency wallet web
application and proves properties about them:

- **Opportunity ids** (`opportunity_id.dfy`, module `OpportunityIds`). A
  THORChain liquidity-pool opportunity is written as `<assetId>*<type>` and
  parsed back with `split('*')`. The model gives JavaScript's `split` with a
  one-character separator as `Split`, and its inverse `Join`. The
  `fromAssetId` validation is the parameter `isAssetId`. When that check
  throws, the model returns `Err(InvalidAssetId)`.
- **Longtail-to-L1 quotes** (`longtail_quote.dfy`, module `LongtailQuotes`).
  A longtail swap has a Uniswap V3 leg from an Ethereum token to the native
  asset, then a THORChain L1 quote. The model covers the three error exits:
  unsupported chain, missing native asset, and no usable best pool or
  aggregator. It also covers how the downstream request is built and how each
  returned quote and step is rewritten. The network parts are inputs:
  the chain adapter registry, pool contract data, `selectBestRate`, and the
  fee-tier-to-aggregator table (`LongtailEnv`). So is the downstream L1 quote
  function (`getL1Quote`). `decimal_strings.dfy` (module `DecimalStrings`)
  gives `BigInt.prototype.toString()` and its inverse for the new sell amount.
- **Asset data generation** (`asset_data.dfy`, module `AssetData`). An EVM
  token gets the suffix " on <Chain>" when its name also appears in another
  EVM chain's list. Only Ethereum, Avalanche, Polygon and Gnosis exempt their
  native asset. The table is keyed by asset id, and overrides are merged only
  into ids that already exist. The two `reduce`s are methods with loops
  (`GenerateAssetData`, `ApplyOverrides`). Each is proved equal to a
  specification function, and the lemmas are about those functions.
  `GeneratedAssetData` marks every asset and then stores it by id
  (`KeyedByAssetId`). `WithOverrides` is a left fold over the override
  entries.
- **Preferences slice** (`preferences.dfy`, module `PreferencesSlice`). The
  class `PreferencesStore` has the slice's fields and one method per case
  reducer. Each method's contract ties the new state to `Reduce`, the slice
  reducer on values. `Reduce` states that an action sets its own field and
  leaves every other field and flag unchanged.
- **Migration 005** (`migration_005.dfy`, module `Migration005`). The object
  spread becomes a map update: the `opportunities` slice is replaced by its
  initial state.

`wrappers.dfy` holds `Option` and `Result`. `None` stands for JavaScript's
`undefined`. `assets.dfy` holds the shared `Asset` record and the CAIP-2 chain
ids of the eight EVM chains.

Two details of the longtail quote:

- When no aggregator is found for the best pool, the code returns
  `UnsupportedTradePair` only, never `InternalError`. `InternalError` is used
  only for a missing native asset.
- The rewrite overwrites the sell asset and sell amount of every step of
  every downstream quote.

## Model

| member | source | states |
|---|---|---|
| `OpportunityIds.Split` | src/pages/ThorChainLP/utils.ts:12 | `split('*')` gives at least one piece, and no piece contains the separator |
| `OpportunityIds.JoinSplit` | src/pages/ThorChainLP/utils.ts:12 | joining the pieces of a split with the separator gives back the original string |
| `OpportunityIds.SplitJoin` | src/pages/ThorChainLP/utils.ts:12 | for pieces with no separator, splitting their join gives back the pieces |
| `OpportunityIds.SplitAtFirst` | src/pages/ThorChainLP/utils.ts:12 | `a*rest` with no `*` in `a` splits into `a` followed by the pieces of `rest` |
| `OpportunityIds.ToOpportunityId` | src/pages/ThorChainLP/utils.ts:21-23 | for an asset id without `*`, the first `*` of the printed id is the one right after the asset id, with the asset id before it and the printed side (`undefined` for a missing side) after it |
| `OpportunityIds.FromOpportunityId` | src/pages/ThorChainLP/utils.ts:11-19 | a parsed opportunity has an asset id that passes the check and contains no `*`, and a side that contains no `*` |
| `OpportunityIds.FromOpportunityIdFields` | src/pages/ThorChainLP/utils.ts:11-19 | asset id = text before the first `*`; side = text between the first and second `*` (or to the end); with no `*` the side is undefined; it fails exactly when the asset id is invalid |
| `OpportunityIds.FromIdWithoutSeparator` | src/pages/ThorChainLP/utils.ts:12-18 | an id with no `*` parses to the whole id with an undefined side, or fails if the id is not a valid asset id |
| `OpportunityIds.FromIdDropsExtraPieces` | src/pages/ThorChainLP/utils.ts:12 | anything after a second `*` is discarded |
| `OpportunityIds.FromIdFailsOnInvalidAssetId` | src/pages/ThorChainLP/utils.ts:13 | parsing fails if and only if the asset-id part is rejected by `fromAssetId` |
| `OpportunityIds.RoundTrip` | src/pages/ThorChainLP/utils.ts:11-23 | `fromOpportunityId(toOpportunityId(o)) == o` when neither part contains `*` and the asset id is valid |
| `OpportunityIds.RoundTripUndefinedKind` | src/pages/ThorChainLP/utils.ts:17-22 | an opportunity with an undefined side comes back with the side `"undefined"` |
| `OpportunityIds.ReverseRoundTrip` | src/pages/ThorChainLP/utils.ts:11-23 | an id with exactly one `*` and a valid asset-id part prints back unchanged |
| `OpportunityIds.ReverseRoundTripWithoutSeparator` | src/pages/ThorChainLP/utils.ts:11-23 | an id with no `*` prints back with `*undefined` appended |
| `DecimalStrings.NatToDecimal` | src/lib/swapper/swappers/ThorchainSwapper/utils/getLongtailQuote.ts:121 | `toString()` of a bigint gives a non-empty string of decimal digits with no leading zero |
| `DecimalStrings.DecimalRoundTrip` | src/lib/swapper/swappers/ThorchainSwapper/utils/getLongtailQuote.ts:121 | reading the decimal text back gives the quoted amount |
| `DecimalStrings.NatToDecimalInjective` | src/lib/swapper/swappers/ThorchainSwapper/utils/getLongtailQuote.ts:121 | two amounts with the same decimal text are equal |
| `LongtailQuotes.NativeBuyAsset` | src/lib/swapper/swappers/ThorchainSwapper/utils/getLongtailQuote.ts:51-54 | the native buy asset exists if and only if the sell chain has an adapter, its fee asset id is non-empty and that id is in `assetsById`; it is then the asset stored under that id |
| `LongtailQuotes.BestAggregator` | src/lib/swapper/swappers/ThorchainSwapper/utils/getLongtailQuote.ts:101-109 | the aggregator exists if and only if there is a non-empty best pool with contract data whose fee tier has an aggregator, and is then that tier's aggregator; the guard on it and on the quoted amount fails exactly on a non-viable best rate |
| `LongtailQuotes.PlanL1Request` | src/lib/swapper/swappers/ThorchainSwapper/utils/getLongtailQuote.ts:41-122 | a non-Ethereum sell asset gives `UnsupportedChain`; with no native asset the result is `InternalError`; otherwise it fails, always with the `UnsupportedTradePair` error, if and only if one of these holds: no best pool, no contract data, no or empty aggregator, zero amount. On success the request is the input with only the sell asset (now native) and the sell amount (now the decimal text of the quoted amount) changed |
| `LongtailQuotes.RewriteStep` | src/lib/swapper/swappers/ThorchainSwapper/utils/getLongtailQuote.ts:135-140 | a rewritten step has the original sell asset and amount and the TSAggregator proxy as allowance contract, and its other fields unchanged |
| `LongtailQuotes.RewriteQuote` | src/lib/swapper/swappers/ThorchainSwapper/utils/getLongtailQuote.ts:131-145 | a rewritten quote has the best aggregator, `isLongtail = true` and the expected longtail amount, keeps its other fields and its number of steps, and each step has the original sell asset and amount, the TSAggregator proxy as allowance contract, and its other fields unchanged |
| `LongtailQuotes.ComposeQuotes` | src/lib/swapper/swappers/ThorchainSwapper/utils/getLongtailQuote.ts:130-148 | an `Err` from the L1 quote is returned unchanged; an `Ok` gives the same number of quotes, each rewritten as above |
| `LongtailQuotes.GetLongtailToL1Quote` | src/lib/swapper/swappers/ThorchainSwapper/utils/getLongtailQuote.ts:30-116 | whatever the collaborators return: a non-Ethereum sell asset gives `UnsupportedChain` first, a missing native asset gives `InternalError`, a non-viable best rate gives `UnsupportedTradePair` |
| `LongtailQuotes.DownstreamRequest` | src/lib/swapper/swappers/ThorchainSwapper/utils/getLongtailQuote.ts:118-148 | once the guards pass, the result is the rewrite of the L1 quote for the input with only the sell asset and the sell amount replaced |
| `LongtailQuotes.DownstreamErrorPassesThrough` | src/lib/swapper/swappers/ThorchainSwapper/utils/getLongtailQuote.ts:124-130 | an error from the downstream L1 quote is the final result |
| `LongtailQuotes.SuccessShape` | src/lib/swapper/swappers/ThorchainSwapper/utils/getLongtailQuote.ts:41-147 | a successful result means the sell asset is on Ethereum and every quote and step carries the longtail rewrite |
| `AssetData.OtherChainNamesMembership` | scripts/generateAssetData/generateAssetData.ts:80-84 | a name is in the concatenated lists if and only if some entry for a different chain lists it |
| `AssetData.IsNotUniqueAsset` | scripts/generateAssetData/generateAssetData.ts:78-86 | `isNotUniqueAsset` holds if and only if an entry for a different EVM chain lists the asset's name; lists of its own chain are skipped |
| `AssetData.MarkOnChain` | scripts/generateAssetData/generateAssetData.ts:92-145 | one `if` block keeps id and chain, and appends " on <chain>" (changing the name) exactly when the asset is on that chain, is not its excluded native, and is not unique; otherwise it leaves the asset as it is |
| `AssetData.MarkAsset` | scripts/generateAssetData/generateAssetData.ts:88-145 | marking never changes an asset's id or chain |
| `AssetData.MarkAssetSpec` | scripts/generateAssetData/generateAssetData.ts:88-145 | the eight sequential `if` blocks together append exactly the own chain's suffix when the asset is EVM, not an excluded native, and not unique; otherwise the asset is unchanged |
| `AssetData.EthereumSuffixIff` | scripts/generateAssetData/generateAssetData.ts:78-98 | a non-native Ethereum asset gets " on Ethereum" if and only if another EVM chain lists its name; otherwise it keeps its name |
| `AssetData.SameChainRepeatsNeverMark` | scripts/generateAssetData/generateAssetData.ts:81-85 | a name that appears only in its own chain's list never causes marking |
| `AssetData.ExcludedNativeKeepsName` | scripts/generateAssetData/generateAssetData.ts:92-129 | the native assets of Ethereum, Avalanche, Polygon and Gnosis are never renamed |
| `AssetData.NoNativeExclusion` | scripts/generateAssetData/generateAssetData.ts:109-145 | on BNB Smart Chain, Arbitrum One, Arbitrum Nova and Optimism, every non-unique asset is renamed, the native asset included |
| `AssetData.NonEvmAssetKeepsName` | scripts/generateAssetData/generateAssetData.ts:88-149 | assets on non-EVM chains keep their names |
| `AssetData.AtMostOneSuffix` | scripts/generateAssetData/generateAssetData.ts:88-149 | an asset is either unchanged or has exactly its own chain's suffix |
| `AssetData.GenerateAssetData` | scripts/generateAssetData/generateAssetData.ts:88-149 | the loop over the ordered list builds `GeneratedAssetData`: every asset marked, stored under its id in list order |
| `AssetData.KeyedByAssetId` | scripts/generateAssetData/generateAssetData.ts:147 | in a table stored by id, every key is the id of the asset stored under it |
| `AssetData.KeyedKeys` | scripts/generateAssetData/generateAssetData.ts:147 | storing assets by id gives a table whose keys are exactly the ids in the list |
| `AssetData.KeyedLastWins` | scripts/generateAssetData/generateAssetData.ts:147 | in a table stored by id, the entry for an id is the last asset in the list with that id |
| `AssetData.GeneratedKeys` | scripts/generateAssetData/generateAssetData.ts:88-149 | the key set of the output is exactly the set of asset ids in the list |
| `AssetData.GeneratedKeyIsAssetId` | scripts/generateAssetData/generateAssetData.ts:147 | every entry's key is the asset id of the asset stored under it |
| `AssetData.GeneratedLastWins` | scripts/generateAssetData/generateAssetData.ts:147 | the entry for an id is the marked form of the last asset with that id; later duplicates overwrite earlier ones |
| `AssetData.ApplyOverrides` | scripts/generateAssetData/generateAssetData.ts:152-158 | the loop over the override entries builds the left fold `WithOverrides` |
| `AssetData.WithOverrides` | scripts/generateAssetData/generateAssetData.ts:152-158 | the override fold neither adds nor removes entries: unknown ids are skipped |
| `AssetData.OverridesLeaveOthers` | scripts/generateAssetData/generateAssetData.ts:152-158 | an entry that no override names is unchanged |
| `AssetData.OverrideApplied` | scripts/generateAssetData/generateAssetData.ts:154 | with one override per id, an existing entry becomes its merge with that override |
| `PreferencesSlice.InitialPreferences` | src/state/slices/preferencesSlice/preferencesSlice.ts:83-140 | clearing the feature flags leaves the initial state unchanged |
| `PreferencesSlice.InitialPreferencesValues` | src/state/slices/preferencesSlice/preferencesSlice.ts:131-139 | initial state: threshold "0", currency "USD", format en-US, welcome modal off, consent banner on, snaps modal on, no snap installed |
| `PreferencesSlice.Reduce` | src/state/slices/preferencesSlice/preferencesSlice.ts:145-179 | each action sets its own field (`setFeatureFlag` sets that flag; `clearFeatureFlags` restores the initial flags) and leaves every other field and every other flag unchanged; a full flag table stays full |
| `PreferencesSlice.ReduceIdempotent` | src/state/slices/preferencesSlice/preferencesSlice.ts:146-178 | applying the same action twice gives the same state as applying it once |
| `PreferencesSlice.FlagsDeterminedOutside` | src/state/slices/preferencesSlice/preferencesSlice.ts:149-151 | two full flag tables that agree outside one flag differ at most in that flag |
| `PreferencesSlice.ReduceDeterminedByEffect` | src/state/slices/preferencesSlice/preferencesSlice.ts:146-178 | any state that has the action's effect and agrees outside its field is the reducer's result, so the two predicates describe the reducer completely |
| `PreferencesSlice.PreferencesStore.constructor` | src/state/slices/preferencesSlice/preferencesSlice.ts:83-140 | a new store holds `initialState` |
| `PreferencesSlice.PreferencesStore.ClearFeatureFlags` | src/state/slices/preferencesSlice/preferencesSlice.ts:146-148 | the new state is `Reduce(old state, clearFeatureFlags)` |
| `PreferencesSlice.PreferencesStore.SetFeatureFlag` | src/state/slices/preferencesSlice/preferencesSlice.ts:149-151 | the new state is `Reduce(old state, setFeatureFlag(flag, value))` |
| `PreferencesSlice.PreferencesStore.SetSelectedLocale` | src/state/slices/preferencesSlice/preferencesSlice.ts:152-154 | the new state is `Reduce(old state, setSelectedLocale(locale))` |
| `PreferencesSlice.PreferencesStore.SetSelectedCurrency` | src/state/slices/preferencesSlice/preferencesSlice.ts:155-157 | the new state is `Reduce(old state, setSelectedCurrency(currency))` |
| `PreferencesSlice.PreferencesStore.SetBalanceThreshold` | src/state/slices/preferencesSlice/preferencesSlice.ts:158-160 | the new state is `Reduce(old state, setBalanceThreshold(threshold))` |
| `PreferencesSlice.PreferencesStore.SetCurrencyFormat` | src/state/slices/preferencesSlice/preferencesSlice.ts:161-163 | the new state is `Reduce(old state, setCurrencyFormat(format))` |
| `PreferencesSlice.PreferencesStore.SetChartTimeframe` | src/state/slices/preferencesSlice/preferencesSlice.ts:164-166 | the new state is `Reduce(old state, setChartTimeframe(timeframe))` |
| `PreferencesSlice.PreferencesStore.SetWelcomeModal` | src/state/slices/preferencesSlice/preferencesSlice.ts:167-169 | the new state is `Reduce(old state, setWelcomeModal(show))` |
| `PreferencesSlice.PreferencesStore.SetShowConsentBanner` | src/state/slices/preferencesSlice/preferencesSlice.ts:170-172 | the new state is `Reduce(old state, setShowConsentBanner(show))` |
| `PreferencesSlice.PreferencesStore.SetShowSnapsModal` | src/state/slices/preferencesSlice/preferencesSlice.ts:173-175 | the new state is `Reduce(old state, setShowSnapsModal(show))` |
| `PreferencesSlice.PreferencesStore.SetSnapInstalled` | src/state/slices/preferencesSlice/preferencesSlice.ts:176-178 | the new state is `Reduce(old state, setSnapInstalled(installed))` |
| `Migration005.DisableYearnOpportunities` | src/state/migrations/005_disable_yearn_opportunities.ts:5-10 | the `opportunities` slice becomes its initial state, every other top-level field is unchanged, and no other key is added |
| `Migration005.DisableYearnOpportunitiesIdempotent` | src/state/migrations/005_disable_yearn_opportunities.ts:5-10 | applying the migration twice equals applying it once |
| `Migration005.IndependentOfPreviousOpportunities` | src/state/migrations/005_disable_yearn_opportunities.ts:5-10 | the result does not depend on the previous `opportunities` value |

## Left out

- Pool address derivation, pool contract reads, simulated quoter calls,
  `selectBestRate` and `getL1quote` run over the network or in helpers that
  are not part of this model. Their outcomes are inputs (`LongtailEnv`,
  `getL1Quote`), and no tie-break of the best-rate selection is assumed.
- The factory and quoter contract addresses are passed only to those network
  calls, so they do not appear in the model. The `TradeType.LongTailToL1`
  argument to `getL1quote` does not appear either.
- The chain adapter registry is modelled as a map from chain id to fee asset
  id. The `assert` that a viem public client exists is plumbing around the
  network client and is not modelled.
- `BigInt(sellAmountIncludingProtocolFeesCryptoBaseUnit)` (getLongtailQuote.ts
  line 97) throws a `SyntaxError` when the sell amount is not an integer
  string, and `getTokenFromAsset`/`getWrappedToken` (lines 69-70) may throw
  for assets they cannot map. Those rejected promises are not modelled: the
  model assumes a valid base-unit amount and mappable tokens, and such an
  input flows through `LongtailEnv` like any other.
- `GetTradeQuoteInput`, `ThorTradeQuote` and the quote steps have more fields
  than the model carries. The model keeps a representative subset, so the
  "unchanged" claims cover only those fields.
- `FromOpportunityId`: the cast of the side to `OpportunityType` is unchecked
  at run time, so the side is any string. `fromAssetId` is the parameter
  `isAssetId`, because its CAIP-19 parser is in an external package.
- Asset data: the per-chain `getAssets()` fetches,
  `filterOutBlacklistedAssets` and `orderBy` are not modelled. The model
  starts from the filtered, ordered list. Lodash `merge` is the parameter
  `merge`. Writing the JSON file, `main` and `process.exit` are I/O.
- Asset data: assets are values. The source renames each asset object in
  place. If one object appeared twice in the list, its second visit would be
  checked again under its already-suffixed name, which the model does not
  capture: each list element is marked from its own unmarked value.
- Asset data: native asset ids (`ethAssetId`, …) are inputs
  (`NativeAssetIds`), because they come from an external package. The
  `KnownChainIds` values are constants (`eip155:1`, …).
- Preferences: the initial flag values (from environment configuration), the
  browser locale (`simpleLocale()`) and `DEFAULT_HISTORY_TIMEFRAME` are
  parameters. Currency and timeframe values are unconstrained strings. dayjs
  and Redux Toolkit/Immer wiring (action creators, draft proxies) are not
  modelled.
- Migration 005: the Redux state is a map of slice states over one value
  type. The opportunities slice's `initialState` is a parameter, because that
  slice is not part of this model.
- Context files are not modelled: UI components (`Hop.tsx`,
  `RunePercentageSlider.tsx`), the `useIsTradingActive` hook, the cosmos fee
  conversion (BigNumber arithmetic and an async adapter call), type-only
  declarations and the transaction-details test.
