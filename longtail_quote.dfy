/**
 * Composition of a longtail-to-L1 trade quote
 * (src/lib/swapper/swappers/ThorchainSwapper/utils/getLongtailQuote.ts):
 * a Uniswap V3 leg from a longtail ERC-20 token to the chain's native asset,
 * followed by a THORChain L1-to-L1 quote for that native asset.
 *
 * Pool discovery, contract reads, the quoter calls and best-rate selection
 * happen on the network; the model receives their outcomes in `LongtailEnv`.
 * The downstream L1 quote is the function parameter `getL1Quote`.
 */
module LongtailQuotes {
  import opened Wrappers
  import opened Assets
  import opened DecimalStrings

  // Only Ethereum (`EthereumMainnet`) has longtail support.

  /** TSAggregatorTokenTransferProxy, the allowance target of every longtail step. */
  const AllowanceContract: string := "0xF892Fef9dA200d9E84c9b0647ecFF0F34633aBe8"

  datatype TradeQuoteError = UnsupportedChain | InternalError | UnsupportedTradePair

  /** `makeSwapErrorRight`: a message, a code, and optionally the sell asset's chain id as detail. */
  datatype SwapError = SwapError(message: string, code: TradeQuoteError, sellAssetChainId: Option<string>)

  /** The fields of `GetTradeQuoteInput` the pipeline reads or passes through. */
  datatype TradeQuoteInput = TradeQuoteInput(
    sellAsset: Asset,
    buyAsset: Asset,
    sellAmountIncludingProtocolFeesCryptoBaseUnit: string,
    receiveAddress: Option<string>,
    accountNumber: nat,
    affiliateBps: string,
    allowMultiHop: bool)

  datatype TradeQuoteStep = TradeQuoteStep(
    sellAsset: Asset,
    buyAsset: Asset,
    sellAmountIncludingProtocolFeesCryptoBaseUnit: string,
    buyAmountBeforeFeesCryptoBaseUnit: string,
    rate: string,
    source: string,
    accountNumber: nat,
    allowanceContract: string)

  datatype LongtailData = LongtailData(longtailToL1ExpectedAmountOut: nat)

  datatype ThorTradeQuote = ThorTradeQuote(
    id: string,
    receiveAddress: Option<string>,
    affiliateBps: string,
    recommendedSlippage: Option<string>,
    rate: string,
    steps: seq<TradeQuoteStep>,
    aggregator: Option<string>,
    isLongtail: Option<bool>,
    longtailData: Option<LongtailData>)

  /** On-chain data of a pool confirmed to exist; `fee` is its Uniswap V3 fee tier. */
  datatype PoolContractData = PoolContractData(token0Address: string, token1Address: string, fee: nat)

  /**
   * What the pipeline learns from collaborators it does not own:
   * - `feeAssetIdByChainId`: the chain adapter registry; a chain with no
   *   adapter has no key, otherwise its adapter's `getFeeAssetId()`;
   * - `poolContractData`: `getContractDataByPool`, by pool address;
   * - `bestRate`: `selectBestRate` over the quoted amounts, a pool address
   *   and the amount it quotes, or nothing;
   * - `feeAmountToContract`: `feeAmountToContractMap`, aggregator by fee tier.
   */
  datatype LongtailEnv = LongtailEnv(
    feeAssetIdByChainId: map<string, string>,
    poolContractData: map<string, PoolContractData>,
    bestRate: Option<(string, nat)>,
    feeAmountToContract: map<nat, string>)

  /** What the guards established, carried into the rewrite of the L1 quotes. */
  datatype LongtailPlan = LongtailPlan(request: TradeQuoteInput, aggregator: string, quotedAmountOut: nat)

  function UnsupportedChainError(chainId: string): SwapError
  {
    SwapError("[getThorTradeQuote] - Unsupported chainId " + chainId + ".", UnsupportedChain, Some(chainId))
  }

  function NoNativeAssetError(chainId: string): SwapError
  {
    SwapError("[getThorTradeQuote] - No native buy asset found for " + chainId + ".", InternalError, Some(chainId))
  }

  const NoAggregatorError: SwapError :=
    SwapError("[getThorTradeQuote] - No best aggregator contract found.", UnsupportedTradePair, None)

  /** The sell chain's native fee asset: an adapter, a non-empty fee asset id, and that id in `assetsById`. */
  function NativeBuyAsset(chainId: string, env: LongtailEnv, assetsById: map<string, Asset>): (r: Option<Asset>)
    ensures r.Some? <==>
      && chainId in env.feeAssetIdByChainId
      && env.feeAssetIdByChainId[chainId] != ""
      && env.feeAssetIdByChainId[chainId] in assetsById
    ensures r.Some? ==> r.value == assetsById[env.feeAssetIdByChainId[chainId]]
  {
    if chainId !in env.feeAssetIdByChainId then None
    else
      var nativeBuyAssetId := env.feeAssetIdByChainId[chainId];
      if nativeBuyAssetId == "" || nativeBuyAssetId !in assetsById then None
      else Some(assetsById[nativeBuyAssetId])
  }

  /**
   * The aggregator of the best pool's fee tier: `undefined` at the first
   * missing (or empty) link. The guard of lines 109-116 on it and on the
   * quoted amount rejects exactly the non-viable best rates.
   */
  function BestAggregator(env: LongtailEnv): (r: Option<string>)
    ensures r.Some? <==>
      && env.bestRate.Some? && env.bestRate.value.0 != ""
      && env.bestRate.value.0 in env.poolContractData
      && env.poolContractData[env.bestRate.value.0].fee in env.feeAmountToContract
    ensures r.Some? ==> r.value == env.feeAmountToContract[env.poolContractData[env.bestRate.value.0].fee]
    ensures (r.None? || r.value == "" || env.bestRate.None? || env.bestRate.value.1 == 0) <==> NoViableBestRate(env)
  {
    match env.bestRate
    case None => None
    case Some((bestPool, _)) =>
      if bestPool == "" || bestPool !in env.poolContractData then None
      else
        var fee := env.poolContractData[bestPool].fee;
        if fee in env.feeAmountToContract then Some(env.feeAmountToContract[fee]) else None
  }

  /**
   * The four ways the Uniswap leg can fail, read off the collaborators'
   * outcomes: no best pool, the best pool without contract data, no (or an
   * empty) aggregator for its fee tier, or a falsy (zero) quoted amount.
   */
  predicate NoViableBestRate(env: LongtailEnv)
  {
    || env.bestRate.None?
    || env.bestRate.value.0 == ""
    || env.bestRate.value.0 !in env.poolContractData
    || env.poolContractData[env.bestRate.value.0].fee !in env.feeAmountToContract
    || env.feeAmountToContract[env.poolContractData[env.bestRate.value.0].fee] == ""
    || env.bestRate.value.1 == 0
  }

  /** The guards of lines 41-116 and the construction of the L1-to-L1 request. */
  function PlanL1Request(input: TradeQuoteInput, assetsById: map<string, Asset>, env: LongtailEnv): (r: Result<LongtailPlan, SwapError>)
    ensures input.sellAsset.chainId != EthereumMainnet ==> r == Err(UnsupportedChainError(input.sellAsset.chainId))
    ensures input.sellAsset.chainId == EthereumMainnet && NativeBuyAsset(EthereumMainnet, env, assetsById).None?
      ==> r == Err(NoNativeAssetError(EthereumMainnet))
    ensures input.sellAsset.chainId == EthereumMainnet && NativeBuyAsset(EthereumMainnet, env, assetsById).Some?
      ==> (r.Err? <==> NoViableBestRate(env)) && (r.Err? ==> r.error == NoAggregatorError)
    ensures r.Err? && r.error.code == UnsupportedTradePair ==> r.error == NoAggregatorError
    ensures r.Ok? ==>
      && input.sellAsset.chainId == EthereumMainnet
      && NativeBuyAsset(EthereumMainnet, env, assetsById) == Some(r.value.request.sellAsset)
      && env.bestRate.Some? && r.value.quotedAmountOut == env.bestRate.value.1 > 0
      && r.value.aggregator != ""
      && r.value.aggregator == env.feeAmountToContract[env.poolContractData[env.bestRate.value.0].fee]
      && r.value.request == input.(sellAsset := r.value.request.sellAsset,
                                   sellAmountIncludingProtocolFeesCryptoBaseUnit := NatToDecimal(r.value.quotedAmountOut))
      && DecimalValue(r.value.request.sellAmountIncludingProtocolFeesCryptoBaseUnit) == r.value.quotedAmountOut
  {
    var sellAsset := input.sellAsset;
    if sellAsset.chainId != EthereumMainnet then Err(UnsupportedChainError(sellAsset.chainId))
    else
      var sellChainId := sellAsset.chainId;
      match NativeBuyAsset(sellChainId, env, assetsById)
      case None => Err(NoNativeAssetError(sellChainId))
      case Some(nativeBuyAsset) =>
        var bestAggregator := BestAggregator(env);
        var quotedAmountOut := if env.bestRate.Some? then Some(env.bestRate.value.1) else None;
        if bestAggregator.None? || bestAggregator.value == "" || quotedAmountOut.None? || quotedAmountOut.value == 0 then
          Err(NoAggregatorError)
        else
          var amount := quotedAmountOut.value;
          DecimalRoundTrip(amount);
          var l1Tol1QuoteInput := input.(sellAsset := nativeBuyAsset,
                                         sellAmountIncludingProtocolFeesCryptoBaseUnit := NatToDecimal(amount));
          Ok(LongtailPlan(l1Tol1QuoteInput, bestAggregator.value, amount))
  }

  /** A step after the rewrite: the original sell asset and amount, the proxy as allowance target, the rest as before. */
  predicate IsLongtailStep(before: TradeQuoteStep, after: TradeQuoteStep, input: TradeQuoteInput)
  {
    && after.sellAsset == input.sellAsset
    && after.sellAmountIncludingProtocolFeesCryptoBaseUnit == input.sellAmountIncludingProtocolFeesCryptoBaseUnit
    && after.allowanceContract == AllowanceContract
    && after.buyAsset == before.buyAsset
    && after.buyAmountBeforeFeesCryptoBaseUnit == before.buyAmountBeforeFeesCryptoBaseUnit
    && after.rate == before.rate
    && after.source == before.source
    && after.accountNumber == before.accountNumber
  }

  /** A quote after the rewrite: marked longtail, the best aggregator, the expected amount, its steps rewritten one for one. */
  predicate IsLongtailQuote(before: ThorTradeQuote, after: ThorTradeQuote, input: TradeQuoteInput, plan: LongtailPlan)
  {
    && after.aggregator == Some(plan.aggregator)
    && after.isLongtail == Some(true)
    && after.longtailData == Some(LongtailData(plan.quotedAmountOut))
    && after.id == before.id
    && after.receiveAddress == before.receiveAddress
    && after.affiliateBps == before.affiliateBps
    && after.recommendedSlippage == before.recommendedSlippage
    && after.rate == before.rate
    && |after.steps| == |before.steps|
    && forall j :: 0 <= j < |after.steps| ==> IsLongtailStep(before.steps[j], after.steps[j], input)
  }

  /** One step of the rewrite of lines 135-140: the original sell asset and amount, the proxy as allowance contract. */
  function RewriteStep(s: TradeQuoteStep, input: TradeQuoteInput): (r: TradeQuoteStep)
    ensures IsLongtailStep(s, r, input)
  {
    s.(sellAmountIncludingProtocolFeesCryptoBaseUnit := input.sellAmountIncludingProtocolFeesCryptoBaseUnit,
       sellAsset := input.sellAsset,
       allowanceContract := AllowanceContract)
  }

  function RewriteQuote(q: ThorTradeQuote, input: TradeQuoteInput, plan: LongtailPlan): (r: ThorTradeQuote)
    ensures IsLongtailQuote(q, r, input, plan)
  {
    q.(aggregator := Some(plan.aggregator),
       steps := seq(|q.steps|, j requires 0 <= j < |q.steps| => RewriteStep(q.steps[j], input)),
       isLongtail := Some(true),
       longtailData := Some(LongtailData(plan.quotedAmountOut)))
  }

  /** The `andThen` of lines 130-148: an error passes through, each quote is rewritten in order. */
  function ComposeQuotes(thorchainQuotes: Result<seq<ThorTradeQuote>, SwapError>, input: TradeQuoteInput, plan: LongtailPlan)
    : (r: Result<seq<ThorTradeQuote>, SwapError>)
    ensures thorchainQuotes.Err? ==> r == thorchainQuotes
    ensures thorchainQuotes.Ok? ==>
      && r.Ok? && |r.value| == |thorchainQuotes.value|
      && forall i :: 0 <= i < |r.value| ==> IsLongtailQuote(thorchainQuotes.value[i], r.value[i], input, plan)
  {
    match thorchainQuotes
    case Err(e) => Err(e)
    case Ok(quotes) =>
      Ok(seq(|quotes|, i requires 0 <= i < |quotes| => RewriteQuote(quotes[i], input, plan)))
  }

  /** `getLongtailToL1Quote`. */
  function GetLongtailToL1Quote(
    input: TradeQuoteInput,
    streamingInterval: int,
    assetsById: map<string, Asset>,
    env: LongtailEnv,
    getL1Quote: (TradeQuoteInput, int) -> Result<seq<ThorTradeQuote>, SwapError>)
    : (r: Result<seq<ThorTradeQuote>, SwapError>)
    ensures input.sellAsset.chainId != EthereumMainnet ==> r == Err(UnsupportedChainError(input.sellAsset.chainId))
    ensures input.sellAsset.chainId == EthereumMainnet && NativeBuyAsset(EthereumMainnet, env, assetsById).None?
      ==> r == Err(NoNativeAssetError(EthereumMainnet))
    ensures input.sellAsset.chainId == EthereumMainnet && NativeBuyAsset(EthereumMainnet, env, assetsById).Some? && NoViableBestRate(env)
      ==> r == Err(NoAggregatorError)
  {
    match PlanL1Request(input, assetsById, env)
    case Err(e) => Err(e)
    case Ok(plan) => ComposeQuotes(getL1Quote(plan.request, streamingInterval), input, plan)
  }

  /**
   * Once the guards pass, the downstream request is the original input with
   * only the sell asset (now the native asset) and the sell amount (now the
   * decimal text of the quoted amount) replaced, and the result is that
   * request's L1 quote rewritten.
   */
  lemma DownstreamRequest(
    input: TradeQuoteInput,
    streamingInterval: int,
    assetsById: map<string, Asset>,
    env: LongtailEnv,
    getL1Quote: (TradeQuoteInput, int) -> Result<seq<ThorTradeQuote>, SwapError>)
    requires input.sellAsset.chainId == EthereumMainnet
    requires NativeBuyAsset(EthereumMainnet, env, assetsById).Some?
    requires !NoViableBestRate(env)
    ensures
      var nativeBuyAsset := NativeBuyAsset(EthereumMainnet, env, assetsById).value;
      var quotedAmountOut := env.bestRate.value.1;
      var aggregator := env.feeAmountToContract[env.poolContractData[env.bestRate.value.0].fee];
      var request := input.(sellAsset := nativeBuyAsset,
                            sellAmountIncludingProtocolFeesCryptoBaseUnit := NatToDecimal(quotedAmountOut));
      GetLongtailToL1Quote(input, streamingInterval, assetsById, env, getL1Quote)
        == ComposeQuotes(getL1Quote(request, streamingInterval), input, LongtailPlan(request, aggregator, quotedAmountOut))
  {
    var plan := PlanL1Request(input, assetsById, env);
    assert plan.Ok?;
  }

  /** An error of the downstream L1 quote is returned unchanged. */
  lemma DownstreamErrorPassesThrough(
    input: TradeQuoteInput,
    streamingInterval: int,
    assetsById: map<string, Asset>,
    env: LongtailEnv,
    getL1Quote: (TradeQuoteInput, int) -> Result<seq<ThorTradeQuote>, SwapError>)
    requires PlanL1Request(input, assetsById, env).Ok?
    requires getL1Quote(PlanL1Request(input, assetsById, env).value.request, streamingInterval).Err?
    ensures GetLongtailToL1Quote(input, streamingInterval, assetsById, env, getL1Quote)
         == getL1Quote(PlanL1Request(input, assetsById, env).value.request, streamingInterval)
  {
  }

  /**
   * Every successful result: the sell asset is on Ethereum, every quote is
   * marked longtail with the best pool's aggregator and quoted amount, and
   * every step sells the original asset and amount through the proxy.
   */
  lemma SuccessShape(
    input: TradeQuoteInput,
    streamingInterval: int,
    assetsById: map<string, Asset>,
    env: LongtailEnv,
    getL1Quote: (TradeQuoteInput, int) -> Result<seq<ThorTradeQuote>, SwapError>)
    requires GetLongtailToL1Quote(input, streamingInterval, assetsById, env, getL1Quote).Ok?
    ensures input.sellAsset.chainId == EthereumMainnet
    ensures NativeBuyAsset(EthereumMainnet, env, assetsById).Some? && !NoViableBestRate(env)
    ensures
      var quotes := GetLongtailToL1Quote(input, streamingInterval, assetsById, env, getL1Quote).value;
      var aggregator := env.feeAmountToContract[env.poolContractData[env.bestRate.value.0].fee];
      forall i :: 0 <= i < |quotes| ==>
        && quotes[i].aggregator == Some(aggregator)
        && quotes[i].isLongtail == Some(true)
        && quotes[i].longtailData == Some(LongtailData(env.bestRate.value.1))
        && forall j :: 0 <= j < |quotes[i].steps| ==>
             && quotes[i].steps[j].sellAsset == input.sellAsset
             && quotes[i].steps[j].sellAmountIncludingProtocolFeesCryptoBaseUnit == input.sellAmountIncludingProtocolFeesCryptoBaseUnit
             && quotes[i].steps[j].allowanceContract == AllowanceContract
  {
    var plan := PlanL1Request(input, assetsById, env);
    assert plan.Ok?;
    var l1 := getL1Quote(plan.value.request, streamingInterval);
    assert l1.Ok?;
  }
}
