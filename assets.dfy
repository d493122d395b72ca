/** The pool's vocabulary: asset identities, amounts, the instructions the
    contract hands back to the chain, the fee schedule and feature switches,
    and the pricing collaborators whose code is not part of this model. */
module Assets {
  import opened Errors
  import opened Numeric

  /** `AssetInfo`: a cw20 token contract or a native coin denomination. */
  datatype AssetInfo = Token(contractAddr: string) | NativeToken(denom: string) {

    /** `Asset::get_id`: the token's contract address or the coin's denomination.
        A token and a coin whose strings coincide share an id, although their
        infos differ. */
    function Id(): (id: string)
      ensures Token? ==> id == contractAddr
      ensures NativeToken? ==> id == denom
    {
      match this
      case Token(addr) => addr
      case NativeToken(denom) => denom
    }
  }

  /** Two infos of the same kind share an id exactly when they are equal; a token
      and a coin with the same string share an id although they differ. */
  lemma IdsCoincide(a: AssetInfo, b: AssetInfo)
    ensures a.Token? == b.Token? ==> (a.Id() == b.Id() <==> a == b)
    ensures a.Token? && b.NativeToken? && a.contractAddr == b.denom ==> a != b && a.Id() == b.Id()
  {
  }

  /** `Asset`: an amount of one asset. */
  datatype Asset = Asset(info: AssetInfo, amount: Uint128)

  /** `[Asset; 3]`: one entry per pool position, in pool order. */
  type Trio = s: seq<Asset> | |s| == 3
    witness [Asset(NativeToken(""), 0), Asset(NativeToken(""), 0), Asset(NativeToken(""), 0)]

  /** `[Uint128; 3]`: one amount per pool position. */
  type Amounts = s: seq<Uint128> | |s| == 3 witness [0, 0, 0]

  /** `[u8; 3]`: the decimal precision of each pool position. */
  type Precisions = s: seq<nat> | |s| == 3 witness [0, 0, 0]

  /** The instructions a handler returns; the chain executes them after the call. */
  datatype Msg =
    | Transfer(asset: Asset, recipient: string)       // `Asset::into_msg`: bank send or cw20 transfer
    | BurnAsset(asset: Asset)                         // `Asset::into_burn_msg`: bank burn or cw20 burn
    | TransferFrom(token: string, owner: string, recipient: string, amount: Uint128)
    | MintLp(lpToken: string, recipient: string, amount: Uint128)   // `mint_lp_token_msg`
    | BurnLp(lpToken: string, amount: Uint128)        // cw20 burn of LP shares

  /** `PoolFee`: the protocol, swap and burn shares of a swap's output. */
  datatype PoolFee = PoolFee(protocolFee: Decimal, swapFee: Decimal, burnFee: Decimal) {

    /** Every share is below one whole: each takes strictly less than any
        positive amount it is applied to. */
    predicate IsValid(): (ok: bool)
      ensures ok <==> forall u: Uint128 :: 0 < u ==>
                TakesLessThan(u, protocolFee) && TakesLessThan(u, swapFee) && TakesLessThan(u, burnFee)
    {
      assert TakesLessThan(1, protocolFee) ==> protocolFee.atomics < DECIMAL_FRACTIONAL;
      assert TakesLessThan(1, swapFee) ==> swapFee.atomics < DECIMAL_FRACTIONAL;
      assert TakesLessThan(1, burnFee) ==> burnFee.atomics < DECIMAL_FRACTIONAL;
      && protocolFee.atomics < DECIMAL_FRACTIONAL
      && swapFee.atomics < DECIMAL_FRACTIONAL
      && burnFee.atomics < DECIMAL_FRACTIONAL
    }
  }

  /** `FeatureToggle` */
  datatype FeatureToggle = FeatureToggle(withdrawalsEnabled: bool, depositsEnabled: bool, swapsEnabled: bool)

  /** `Config`: the owner-editable part of the contract's storage. */
  datatype Config = Config(
    owner: string,
    feeCollectorAddr: string,
    poolFees: PoolFee,
    featureToggle: FeatureToggle,
    ampFactor: nat)

  /** The fixed part of `TrioInfoRaw` that the handlers read. */
  datatype TrioInfo = TrioInfo(contractAddr: string, liquidityToken: string, assetDecimals: Precisions)

  /** The result of `compute_swap`. */
  datatype SwapComputation = SwapComputation(
    returnAmount: Uint128,
    spreadAmount: Uint128,
    swapFeeAmount: Uint128,
    protocolFeeAmount: Uint128,
    burnFeeAmount: Uint128)

  /** The result of `compute_offer_amount`. */
  datatype OfferAmountComputation = OfferAmountComputation(
    offerAmount: Uint128,
    spreadAmount: Uint128,
    swapFeeAmount: Uint128,
    protocolFeeAmount: Uint128,
    burnFeeAmount: Uint128)

  /** The code the handlers call but that is not part of this model, as
      uninterpreted functions:
      - computeSwap(offerPool, askPool, unswappedPool, offerAmount, fees, amp) is `compute_swap`;
      - computeOfferAmount(offerPool, askPool, unswappedPool, askAmount, fees, amp) is `compute_offer_amount`;
      - computeD(d0, d1, d2, amp) is `StableSwap::compute_d` (an unbounded value, `None` when it
        does not converge);
      - computeMintAmountForDeposit(d0, d1, d2, p0, p1, p2, totalShare, amp) is
        `StableSwap::compute_mint_amount_for_deposit`;
      - assertSlippageTolerance and assertMaxSpread are the two assertion helpers;
      - minimumLiquidityAmount is the `MINIMUM_LIQUIDITY_AMOUNT` constant. */
  datatype Collaborators = Collaborators(
    computeSwap: (Uint128, Uint128, Uint128, Uint128, PoolFee, nat) -> Result<SwapComputation>,
    computeOfferAmount: (Uint128, Uint128, Uint128, Uint128, PoolFee, nat) -> Result<OfferAmountComputation>,
    computeD: (Uint128, Uint128, Uint128, nat) -> Option<nat>,
    computeMintAmountForDeposit: (Uint128, Uint128, Uint128, Uint128, Uint128, Uint128, Uint128, nat) -> Option<Uint128>,
    assertSlippageTolerance: (Option<Decimal>, seq<Uint128>, seq<Asset>) -> Check,
    assertMaxSpread: (Option<Decimal>, Option<Decimal>, Asset, Asset, Uint128, nat, nat) -> Check,
    minimumLiquidityAmount: Uint128)

  /** No two pool positions hold the same asset (pool creation guarantees this). */
  predicate DistinctInfos(pools: seq<Asset>) {
    forall i, j :: 0 <= i < j < |pools| ==> pools[i].info != pools[j].info
  }

  /** No two entries share an asset id. */
  predicate DistinctIds(entries: seq<Asset>) {
    forall i, j :: 0 <= i < j < |entries| ==> entries[i].info.Id() != entries[j].info.Id()
  }

  predicate Holds(pools: seq<Asset>, info: AssetInfo) {
    exists i :: 0 <= i < |pools| && pools[i].info == info
  }

  /** The position of the first entry holding `info`. */
  function IndexOf(pools: seq<Asset>, info: AssetInfo): (r: Option<nat>)
    ensures r.None? <==> !Holds(pools, info)
    ensures r.Some? ==> r.value < |pools| && pools[r.value].info == info
    ensures r.Some? ==> forall j :: 0 <= j < r.value ==> pools[j].info != info
  {
    if pools == [] then None
    else if pools[0].info == info then Some(0)
    else
      match IndexOf(pools[1..], info)
      case None => None
      case Some(i) => Some(i + 1)
  }
}
