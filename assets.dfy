/** The asset record and the chain ids shared by the quote pipeline and the asset-data generator. */
module Assets {

  /**
   * An asset's metadata. `chainId` is the CAIP-2 chain the asset id names
   * (what `fromAssetId(assetId).chainId` returns); `precision` is the number
   * of decimals of its base unit.
   */
  datatype Asset = Asset(assetId: string, chainId: string, name: string, symbol: string, precision: nat)

  // CAIP-2 ids of the EVM chains (`KnownChainIds`).
  const EthereumMainnet: string := "eip155:1"
  const AvalancheMainnet: string := "eip155:43114"
  const OptimismMainnet: string := "eip155:10"
  const BnbSmartChainMainnet: string := "eip155:56"
  const PolygonMainnet: string := "eip155:137"
  const GnosisMainnet: string := "eip155:100"
  const ArbitrumMainnet: string := "eip155:42161"
  const ArbitrumNovaMainnet: string := "eip155:42170"
}
