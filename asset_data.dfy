/**
 * Generation of the asset table (scripts/generateAssetData/generateAssetData.ts):
 * an EVM token whose name also occurs on another EVM chain gets the suffix
 * " on <Chain>"; the table is keyed by asset id; manual overrides are then
 * merged into the entries that exist.
 *
 * The fetched per-chain lists, the blacklist filter and the ordering by
 * asset id happen before: the model starts from the ordered, filtered list
 * and from the per-chain name lists (`evmAssetNamesByChainId`).
 */
module AssetData {
  import opened Wrappers
  import opened Assets

  /** The eight EVM chains the generator knows. */
  datatype EvmChain = Ethereum | Avalanche | Optimism | BnbSmartChain | Polygon | Gnosis | Arbitrum | ArbitrumNova

  function ChainIdOf(c: EvmChain): string
  {
    match c
    case Ethereum => EthereumMainnet
    case Avalanche => AvalancheMainnet
    case Optimism => OptimismMainnet
    case BnbSmartChain => BnbSmartChainMainnet
    case Polygon => PolygonMainnet
    case Gnosis => GnosisMainnet
    case Arbitrum => ArbitrumMainnet
    case ArbitrumNova => ArbitrumNovaMainnet
  }

  /** The chain's name as it appears in the suffix. */
  function Label(c: EvmChain): string
  {
    match c
    case Ethereum => "Ethereum"
    case Avalanche => "Avalanche"
    case Optimism => "Optimism"
    case BnbSmartChain => "BNB Smart Chain"
    case Polygon => "Polygon"
    case Gnosis => "Gnosis"
    case Arbitrum => "Arbitrum One"
    case ArbitrumNova => "Arbitrum Nova"
  }

  /** The EVM chain a CAIP-2 id names, if any. */
  function EvmChainOf(chainId: string): (r: Option<EvmChain>)
    ensures r.Some? ==> ChainIdOf(r.value) == chainId
    ensures r.None? ==> forall c: EvmChain :: ChainIdOf(c) != chainId
  {
    if chainId == EthereumMainnet then Some(Ethereum)
    else if chainId == AvalancheMainnet then Some(Avalanche)
    else if chainId == OptimismMainnet then Some(Optimism)
    else if chainId == BnbSmartChainMainnet then Some(BnbSmartChain)
    else if chainId == PolygonMainnet then Some(Polygon)
    else if chainId == GnosisMainnet then Some(Gnosis)
    else if chainId == ArbitrumMainnet then Some(Arbitrum)
    else if chainId == ArbitrumNovaMainnet then Some(ArbitrumNova)
    else None
  }

  /** The native asset ids the generator refuses to mark (`ethAssetId`, `avalancheAssetId`, `polygonAssetId`, `gnosisAssetId`). */
  datatype NativeAssetIds = NativeAssetIds(ethereum: string, avalanche: string, polygon: string, gnosis: string)

  /** The native asset a chain's marking skips: only four of the eight chains skip one. */
  function ExcludedNative(c: EvmChain, natives: NativeAssetIds): Option<string>
  {
    match c
    case Ethereum => Some(natives.ethereum)
    case Avalanche => Some(natives.avalanche)
    case Polygon => Some(natives.polygon)
    case Gnosis => Some(natives.gnosis)
    case _ => None
  }

  /**
   * The reduce of `isNotUniqueAsset`: the names of every entry of
   * `Object.entries(evmAssetNamesByChainId)` whose chain is not `chainId`,
   * concatenated in order.
   */
  function OtherChainNames(namesByChainId: seq<(string, seq<string>)>, chainId: string): seq<string>
    decreases |namesByChainId|
  {
    if namesByChainId == [] then []
    else
      var n := |namesByChainId| - 1;
      var prev := OtherChainNames(namesByChainId[..n], chainId);
      if namesByChainId[n].0 == chainId then prev else prev + namesByChainId[n].1
  }

  /**
   * `isNotUniqueAsset`: the asset's name is among the other chains' names,
   * that is, some entry for a different chain lists it.
   */
  predicate IsNotUniqueAsset(asset: Asset, namesByChainId: seq<(string, seq<string>)>)
    ensures IsNotUniqueAsset(asset, namesByChainId)
        <==> exists i :: 0 <= i < |namesByChainId| && namesByChainId[i].0 != asset.chainId && asset.name in namesByChainId[i].1
  {
    OtherChainNamesMembership(namesByChainId, asset.chainId, asset.name);
    asset.name in OtherChainNames(namesByChainId, asset.chainId)
  }

  lemma {:induction false} OtherChainNamesMembership(namesByChainId: seq<(string, seq<string>)>, chainId: string, name: string)
    ensures name in OtherChainNames(namesByChainId, chainId)
        <==> exists i :: 0 <= i < |namesByChainId| && namesByChainId[i].0 != chainId && name in namesByChainId[i].1
    decreases |namesByChainId|
  {
    if namesByChainId != [] {
      var n := |namesByChainId| - 1;
      var front := namesByChainId[..n];
      OtherChainNamesMembership(front, chainId, name);
      if exists i :: 0 <= i < |namesByChainId| && namesByChainId[i].0 != chainId && name in namesByChainId[i].1 {
        var i :| 0 <= i < |namesByChainId| && namesByChainId[i].0 != chainId && name in namesByChainId[i].1;
        if i < n {
          assert front[i] == namesByChainId[i];
        }
      }
      if exists i :: 0 <= i < |front| && front[i].0 != chainId && name in front[i].1 {
        var i :| 0 <= i < |front| && front[i].0 != chainId && name in front[i].1;
        assert namesByChainId[i] == front[i];
      }
    }
  }

  /** One of the `if` blocks of lines 92-145: mark an asset of chain `c` that is not its excluded native and is not unique. */
  function MarkOnChain(asset: Asset, c: EvmChain, natives: NativeAssetIds, namesByChainId: seq<(string, seq<string>)>): (r: Asset)
    ensures r.assetId == asset.assetId && r.chainId == asset.chainId
    ensures r == asset || r.name == asset.name + " on " + Label(c)
    ensures r.name != asset.name <==>
      && asset.chainId == ChainIdOf(c)
      && (ExcludedNative(c, natives).None? || asset.assetId != ExcludedNative(c, natives).value)
      && IsNotUniqueAsset(asset, namesByChainId)
  {
    var native := ExcludedNative(c, natives);
    if asset.chainId == ChainIdOf(c) && (native.None? || asset.assetId != native.value) && IsNotUniqueAsset(asset, namesByChainId)
    then asset.(name := asset.name + " on " + Label(c))
    else asset
  }

  /** The eight `if` blocks in source order, each seeing the asset as the previous one left it. */
  function MarkAsset(asset: Asset, natives: NativeAssetIds, namesByChainId: seq<(string, seq<string>)>): (r: Asset)
    ensures r.assetId == asset.assetId && r.chainId == asset.chainId
  {
    var a1 := MarkOnChain(asset, Ethereum, natives, namesByChainId);
    var a2 := MarkOnChain(a1, Avalanche, natives, namesByChainId);
    var a3 := MarkOnChain(a2, BnbSmartChain, natives, namesByChainId);
    var a4 := MarkOnChain(a3, Polygon, natives, namesByChainId);
    var a5 := MarkOnChain(a4, Gnosis, natives, namesByChainId);
    var a6 := MarkOnChain(a5, Arbitrum, natives, namesByChainId);
    var a7 := MarkOnChain(a6, ArbitrumNova, natives, namesByChainId);
    MarkOnChain(a7, Optimism, natives, namesByChainId)
  }

  /** Whether the renaming applies: an EVM asset, not its chain's excluded native, with a name another chain also lists. */
  predicate Marked(asset: Asset, natives: NativeAssetIds, namesByChainId: seq<(string, seq<string>)>)
  {
    match EvmChainOf(asset.chainId)
    case None => false
    case Some(c) =>
      && (ExcludedNative(c, natives).None? || asset.assetId != ExcludedNative(c, natives).value)
      && exists i :: 0 <= i < |namesByChainId| && namesByChainId[i].0 != asset.chainId && asset.name in namesByChainId[i].1
  }

  /**
   * The renaming in one step: a marked asset gets exactly one suffix, that of
   * its own chain; every other asset, and every field but the name, is left alone.
   */
  lemma MarkAssetSpec(asset: Asset, natives: NativeAssetIds, namesByChainId: seq<(string, seq<string>)>)
    ensures MarkAsset(asset, natives, namesByChainId)
         == if Marked(asset, natives, namesByChainId)
            then asset.(name := asset.name + " on " + Label(EvmChainOf(asset.chainId).value))
            else asset
  {
    var r := MarkAsset(asset, natives, namesByChainId);
    match EvmChainOf(asset.chainId)
    case None =>
    case Some(c) =>
      var m := MarkOnChain(asset, c, natives, namesByChainId);
      assert m.chainId == asset.chainId;
      assert r == m by {
        assert forall d: EvmChain, b: Asset :: b.chainId == asset.chainId && d != c ==> MarkOnChain(b, d, natives, namesByChainId) == b;
      }
  }

  /** Assets of chains other than the eight EVM chains (bitcoin, cosmos, thorchain, ...) keep their names. */
  lemma NonEvmAssetKeepsName(asset: Asset, natives: NativeAssetIds, namesByChainId: seq<(string, seq<string>)>)
    requires forall c: EvmChain :: ChainIdOf(c) != asset.chainId
    ensures MarkAsset(asset, natives, namesByChainId) == asset
  {
    MarkAssetSpec(asset, natives, namesByChainId);
  }

  /** The native assets of Ethereum, Avalanche, Polygon and Gnosis are never renamed. */
  lemma ExcludedNativeKeepsName(asset: Asset, c: EvmChain, natives: NativeAssetIds, namesByChainId: seq<(string, seq<string>)>)
    requires c in {Ethereum, Avalanche, Polygon, Gnosis}
    requires asset.chainId == ChainIdOf(c) && ExcludedNative(c, natives) == Some(asset.assetId)
    ensures MarkAsset(asset, natives, namesByChainId) == asset
  {
    MarkAssetSpec(asset, natives, namesByChainId);
  }

  /** BNB Smart Chain, Arbitrum One, Arbitrum Nova and Optimism exclude no native asset: any shared name is marked. */
  lemma NoNativeExclusion(asset: Asset, c: EvmChain, natives: NativeAssetIds, namesByChainId: seq<(string, seq<string>)>)
    requires c in {BnbSmartChain, Arbitrum, ArbitrumNova, Optimism}
    requires asset.chainId == ChainIdOf(c) && IsNotUniqueAsset(asset, namesByChainId)
    ensures MarkAsset(asset, natives, namesByChainId).name == asset.name + " on " + Label(c)
  {
    MarkAssetSpec(asset, natives, namesByChainId);
  }

  /** A non-native Ethereum asset gets " on Ethereum" if and only if another EVM chain's list holds its name; otherwise it keeps its name. */
  lemma EthereumSuffixIff(asset: Asset, natives: NativeAssetIds, namesByChainId: seq<(string, seq<string>)>)
    requires asset.chainId == EthereumMainnet && asset.assetId != natives.ethereum
    ensures var r := MarkAsset(asset, natives, namesByChainId);
      && (r.name == asset.name + " on Ethereum"
          <==> exists i :: 0 <= i < |namesByChainId| && namesByChainId[i].0 != EthereumMainnet && asset.name in namesByChainId[i].1)
      && (r.name == asset.name || r.name == asset.name + " on Ethereum")
  {
    MarkAssetSpec(asset, natives, namesByChainId);
    assert asset.name != asset.name + " on Ethereum" by {
      assert |asset.name + " on Ethereum"| > |asset.name|;
    }
  }

  /** A name that only its own chain's list holds never causes marking. */
  lemma SameChainRepeatsNeverMark(asset: Asset, natives: NativeAssetIds, namesByChainId: seq<(string, seq<string>)>)
    requires forall i :: 0 <= i < |namesByChainId| && asset.name in namesByChainId[i].1 ==> namesByChainId[i].0 == asset.chainId
    ensures MarkAsset(asset, natives, namesByChainId) == asset
  {
    MarkAssetSpec(asset, natives, namesByChainId);
  }

  /** Every asset receives at most one suffix, the one of its own chain. */
  lemma AtMostOneSuffix(asset: Asset, natives: NativeAssetIds, namesByChainId: seq<(string, seq<string>)>)
    ensures var r := MarkAsset(asset, natives, namesByChainId);
      r == asset || (EvmChainOf(asset.chainId).Some? && r == asset.(name := asset.name + " on " + Label(EvmChainOf(asset.chainId).value)))
  {
    MarkAssetSpec(asset, natives, namesByChainId);
  }

  /**
   * Storing assets by id in list order, `acc[asset.assetId] = asset`: a later
   * asset replaces an earlier one with the same id, and every entry is
   * stored under its own id.
   */
  function KeyedByAssetId(assets: seq<Asset>): (r: map<string, Asset>)
    ensures forall id :: id in r ==> r[id].assetId == id
    decreases |assets|
  {
    if assets == [] then map[]
    else
      var n := |assets| - 1;
      KeyedByAssetId(assets[..n])[assets[n].assetId := assets[n]]
  }

  /** Every asset of the list, marked. */
  function MarkAll(assets: seq<Asset>, natives: NativeAssetIds, namesByChainId: seq<(string, seq<string>)>): (r: seq<Asset>)
    ensures |r| == |assets|
    ensures forall i :: 0 <= i < |assets| ==> r[i] == MarkAsset(assets[i], natives, namesByChainId)
  {
    seq(|assets|, i requires 0 <= i < |assets| => MarkAsset(assets[i], natives, namesByChainId))
  }

  /** The renaming/keying reduce of lines 88-149: each asset marked, then stored under its id. */
  function GeneratedAssetData(orderedAssetList: seq<Asset>, natives: NativeAssetIds, namesByChainId: seq<(string, seq<string>)>)
    : map<string, Asset>
  {
    KeyedByAssetId(MarkAll(orderedAssetList, natives, namesByChainId))
  }

  /** The reduce of lines 88-149, marking each asset and writing `acc[asset.assetId]` one asset at a time. */
  method GenerateAssetData(orderedAssetList: seq<Asset>, natives: NativeAssetIds, namesByChainId: seq<(string, seq<string>)>)
    returns (acc: map<string, Asset>)
    ensures acc == GeneratedAssetData(orderedAssetList, natives, namesByChainId)
  {
    acc := map[];
    ghost var marked := MarkAll(orderedAssetList, natives, namesByChainId);
    var i := 0;
    while i < |orderedAssetList|
      invariant 0 <= i <= |orderedAssetList|
      invariant acc == KeyedByAssetId(marked[..i])
    {
      var asset := MarkAsset(orderedAssetList[i], natives, namesByChainId);
      acc := acc[asset.assetId := asset];
      assert marked[..i + 1][..i] == marked[..i];
      i := i + 1;
    }
    assert marked[..i] == marked;
  }

  /** The keys of a keyed table are exactly the ids in the list. */
  lemma {:induction false} KeyedKeys(assets: seq<Asset>, id: string)
    ensures id in KeyedByAssetId(assets) <==> exists i :: 0 <= i < |assets| && assets[i].assetId == id
    decreases |assets|
  {
    if assets != [] {
      var n := |assets| - 1;
      var front := assets[..n];
      KeyedKeys(front, id);
      if exists i :: 0 <= i < |assets| && assets[i].assetId == id {
        var i :| 0 <= i < |assets| && assets[i].assetId == id;
        if i < n {
          assert front[i] == assets[i];
        }
      }
      if exists i :: 0 <= i < |front| && front[i].assetId == id {
        var i :| 0 <= i < |front| && front[i].assetId == id;
        assert assets[i] == front[i];
      }
    }
  }

  /** In a keyed table, the entry for an id is the last asset with that id. */
  lemma {:induction false} KeyedLastWins(assets: seq<Asset>, j: nat)
    requires j < |assets|
    requires forall l :: j < l < |assets| ==> assets[l].assetId != assets[j].assetId
    ensures assets[j].assetId in KeyedByAssetId(assets) && KeyedByAssetId(assets)[assets[j].assetId] == assets[j]
    decreases |assets|
  {
    var n := |assets| - 1;
    if j < n {
      var front := assets[..n];
      var id := assets[j].assetId;
      assert front[j] == assets[j];
      forall l | j < l < |front| ensures front[l].assetId != id {
        assert front[l] == assets[l];
      }
      KeyedLastWins(front, j);
      assert assets[n].assetId != id;
      assert KeyedByAssetId(assets) == KeyedByAssetId(front)[assets[n].assetId := assets[n]];
    }
  }

  /** The output's keys are exactly the asset ids in the list. */
  lemma GeneratedKeys(orderedAssetList: seq<Asset>, natives: NativeAssetIds, namesByChainId: seq<(string, seq<string>)>, id: string)
    ensures id in GeneratedAssetData(orderedAssetList, natives, namesByChainId)
        <==> exists i :: 0 <= i < |orderedAssetList| && orderedAssetList[i].assetId == id
  {
    var marked := MarkAll(orderedAssetList, natives, namesByChainId);
    KeyedKeys(marked, id);
    assert forall i :: 0 <= i < |marked| ==> marked[i].assetId == orderedAssetList[i].assetId;
  }

  /** Every output entry's key is the asset id of the asset stored under it. */
  lemma GeneratedKeyIsAssetId(orderedAssetList: seq<Asset>, natives: NativeAssetIds, namesByChainId: seq<(string, seq<string>)>, id: string)
    requires id in GeneratedAssetData(orderedAssetList, natives, namesByChainId)
    ensures GeneratedAssetData(orderedAssetList, natives, namesByChainId)[id].assetId == id
  {
  }

  /** The entry for an id is the marked form of the LAST asset in the list with that id: a later duplicate overwrites an earlier one. */
  lemma GeneratedLastWins(orderedAssetList: seq<Asset>, j: nat, natives: NativeAssetIds, namesByChainId: seq<(string, seq<string>)>)
    requires j < |orderedAssetList|
    requires forall l :: j < l < |orderedAssetList| ==> orderedAssetList[l].assetId != orderedAssetList[j].assetId
    ensures var data := GeneratedAssetData(orderedAssetList, natives, namesByChainId);
      orderedAssetList[j].assetId in data && data[orderedAssetList[j].assetId] == MarkAsset(orderedAssetList[j], natives, namesByChainId)
  {
    var marked := MarkAll(orderedAssetList, natives, namesByChainId);
    forall l | j < l < |marked| ensures marked[l].assetId != marked[j].assetId {
      assert marked[l].assetId == orderedAssetList[l].assetId;
    }
    KeyedLastWins(marked, j);
  }

  /**
   * The override reduce of lines 152-158 as a left fold over
   * `Object.entries(overrideAssets)`: an override whose id is in the table
   * is merged into that entry (`merge` is lodash's deep merge, a
   * parameter here); an override for an unknown id is skipped.
   */
  function WithOverrides<O>(data: map<string, Asset>, overrides: seq<(string, O)>, merge: (Asset, O) -> Asset): (r: map<string, Asset>)
    ensures r.Keys == data.Keys
    decreases |overrides|
  {
    if overrides == [] then data
    else
      var n := |overrides| - 1;
      var prev := WithOverrides(data, overrides[..n], merge);
      var (assetId, asset) := overrides[n];
      if assetId in prev then prev[assetId := merge(prev[assetId], asset)] else prev
  }

  /** The override reduce of lines 152-158, updating `prev[assetId]` in turn. */
  method ApplyOverrides<O>(generatedAssetData: map<string, Asset>, overrides: seq<(string, O)>, merge: (Asset, O) -> Asset)
    returns (prev: map<string, Asset>)
    ensures prev == WithOverrides(generatedAssetData, overrides, merge)
  {
    prev := generatedAssetData;
    for i := 0 to |overrides|
      invariant prev == WithOverrides(generatedAssetData, overrides[..i], merge)
    {
      var (assetId, asset) := overrides[i];
      if assetId in prev {
        prev := prev[assetId := merge(prev[assetId], asset)];
      }
      assert overrides[..i + 1][..i] == overrides[..i];
    }
    assert overrides[..|overrides|] == overrides;
  }

  /** An entry that no override names is left as it was. */
  lemma {:induction false} OverridesLeaveOthers<O>(data: map<string, Asset>, overrides: seq<(string, O)>, merge: (Asset, O) -> Asset, assetId: string)
    requires assetId in data
    requires forall i :: 0 <= i < |overrides| ==> overrides[i].0 != assetId
    ensures assetId in WithOverrides(data, overrides, merge) && WithOverrides(data, overrides, merge)[assetId] == data[assetId]
    decreases |overrides|
  {
    if overrides != [] {
      var n := |overrides| - 1;
      var front := overrides[..n];
      forall i | 0 <= i < |front| ensures front[i].0 != assetId {
        assert front[i] == overrides[i];
      }
      OverridesLeaveOthers(data, front, merge, assetId);
    }
  }

  /** With one override per id (as object keys are), an existing entry becomes exactly its merge with its override. */
  lemma {:induction false} OverrideApplied<O>(data: map<string, Asset>, overrides: seq<(string, O)>, merge: (Asset, O) -> Asset, k: nat)
    requires k < |overrides| && overrides[k].0 in data
    requires forall i :: 0 <= i < |overrides| && i != k ==> overrides[i].0 != overrides[k].0
    ensures overrides[k].0 in WithOverrides(data, overrides, merge)
    ensures WithOverrides(data, overrides, merge)[overrides[k].0] == merge(data[overrides[k].0], overrides[k].1)
    decreases |overrides|
  {
    var n := |overrides| - 1;
    var front := overrides[..n];
    var assetId := overrides[k].0;
    if k == n {
      forall i | 0 <= i < |front| ensures front[i].0 != assetId {
        assert front[i] == overrides[i];
      }
      OverridesLeaveOthers(data, front, merge, assetId);
    } else {
      forall i | 0 <= i < |front| && i != k ensures front[i].0 != front[k].0 {
        assert front[i] == overrides[i];
      }
      assert front[k] == overrides[k];
      OverrideApplied(data, front, merge, k);
    }
  }
}
