/** The read-only entry points: the pool view, the forward and reverse swap
    simulations and the fee views. They adjust the reserves by the pending
    protocol fees only (no offer has been deposited) and resolve roles by the
    same ladder as `swap`. Nothing here writes storage. */
module Queries {
  import opened Errors
  import opened Numeric
  import opened Assets
  import opened FeeLedger
  import opened Reserves
  import opened Roles
  import opened SwapExecution

  /** `PoolResponse` */
  datatype PoolResponse = PoolResponse(assets: seq<Asset>, totalShare: Uint128)

  /** `query_pool`: each balance less its pending fee, in pool order, and the LP
      supply. The source subtracts without a check, which panics on underflow;
      that is modelled as `Overflow`. */
  function QueryPool(pools: Trio, pending: seq<Asset>, totalShare: Uint128): (r: Result<PoolResponse>)
    ensures r.Success? <==> forall i :: 0 <= i < 3 ==> FeeOf(pending, pools[i]) <= pools[i].amount
    ensures r.Failure? ==> r.error == Overflow
    ensures r.Success? ==> r.value.totalShare == totalShare && |r.value.assets| == 3
    ensures r.Success? ==> forall i :: 0 <= i < 3 ==>
              r.value.assets[i] == Asset(pools[i].info, pools[i].amount - FeeOf(pending, pools[i]))
  {
    var assets :- DeductProtocolFees(pools, pending);
    Success(PoolResponse(assets, totalShare))
  }

  /** The reserves of the two simulation paths: net of pending fees only. This is
      `DeductProtocolFees` with its result narrowed to a `Trio`, which the
      simulations index by the resolved roles. */
  function QueryReserves(pools: Trio, pending: seq<Asset>): (r: Result<Trio>)
    ensures r.Success? <==> forall i :: 0 <= i < 3 ==> FeeOf(pending, pools[i]) <= pools[i].amount
    ensures r.Failure? ==> r.error == Overflow
    ensures r.Success? ==> forall i :: 0 <= i < 3 ==>
              r.value[i] == Asset(pools[i].info, pools[i].amount - FeeOf(pending, pools[i]))
  {
    var reserves :- DeductProtocolFees(pools, pending);
    Success(reserves)
  }

  /** `SimulationResponse` */
  datatype SimulationResponse = SimulationResponse(
    returnAmount: Uint128, spreadAmount: Uint128, swapFeeAmount: Uint128,
    protocolFeeAmount: Uint128, burnFeeAmount: Uint128)

  /** `ReverseSimulationResponse` */
  datatype ReverseSimulationResponse = ReverseSimulationResponse(
    offerAmount: Uint128, spreadAmount: Uint128, swapFeeAmount: Uint128,
    protocolFeeAmount: Uint128, burnFeeAmount: Uint128)

  function ToSimulation(c: SwapComputation): SimulationResponse {
    SimulationResponse(c.returnAmount, c.spreadAmount, c.swapFeeAmount, c.protocolFeeAmount, c.burnFeeAmount)
  }

  function ToReverseSimulation(c: OfferAmountComputation): ReverseSimulationResponse {
    ReverseSimulationResponse(c.offerAmount, c.spreadAmount, c.swapFeeAmount, c.protocolFeeAmount, c.burnFeeAmount)
  }

  /** `query_simulation`; `amp` stands for the block-dependent amplification. */
  function QuerySimulation(collab: Collaborators, poolFees: PoolFee, amp: nat, pools: Trio, pending: seq<Asset>,
                           offer: Asset, ask: Asset): Result<SimulationResponse>
  {
    var reserves :- QueryReserves(pools, pending);
    var roles :- ResolveRoles(reserves, offer.info, ask.info);
    var computation :- collab.computeSwap(
      reserves[roles.offer].amount, reserves[roles.ask].amount, reserves[roles.unswapped].amount,
      offer.amount, poolFees, amp);
    Success(ToSimulation(computation))
  }

  /** `query_reverse_simulation`; `amp` stands for the block-dependent amplification. */
  function QueryReverseSimulation(collab: Collaborators, poolFees: PoolFee, amp: nat, pools: Trio, pending: seq<Asset>,
                                  ask: Asset, offer: Asset): Result<ReverseSimulationResponse>
  {
    var reserves :- QueryReserves(pools, pending);
    var roles :- ResolveRoles(reserves, offer.info, ask.info);
    var computation :- collab.computeOfferAmount(
      reserves[roles.offer].amount, reserves[roles.ask].amount, reserves[roles.unswapped].amount,
      ask.amount, poolFees, amp);
    Success(ToReverseSimulation(computation))
  }

  /** A successful simulation is `compute_swap`, field for field, on the offer,
      ask and unswapped reserves of the query (each balance net of its pending
      fee and nothing else, as `QueryReserves` states), at the positions that
      hold the offer and the ask. */
  lemma SimulationForwards(collab: Collaborators, poolFees: PoolFee, amp: nat, pools: Trio, pending: seq<Asset>,
                           offer: Asset, ask: Asset)
    requires QuerySimulation(collab, poolFees, amp, pools, pending, offer, ask).Success?
    ensures QueryReserves(pools, pending).Success?
    ensures var roles := ResolveRoles(pools, offer.info, ask.info);
            var reserves := QueryReserves(pools, pending).value;
            && roles.Success? && Partition(roles.value)
            && pools[roles.value.ask].info == ask.info && pools[roles.value.offer].info == offer.info
            && var c := collab.computeSwap(reserves[roles.value.offer].amount, reserves[roles.value.ask].amount,
                                           reserves[roles.value.unswapped].amount, offer.amount, poolFees, amp);
               c.Success? && QuerySimulation(collab, poolFees, amp, pools, pending, offer, ask) == Success(ToSimulation(c.value))
  {
    var reserves := QueryReserves(pools, pending).value;
    SameInfosResolveAlike(pools, reserves, offer.info, ask.info);
  }

  /** A successful reverse simulation is `compute_offer_amount`, field for field,
      on the query's reserves (net of pending fees only) and the asked amount. */
  lemma ReverseSimulationForwards(collab: Collaborators, poolFees: PoolFee, amp: nat, pools: Trio, pending: seq<Asset>,
                                  ask: Asset, offer: Asset)
    requires QueryReverseSimulation(collab, poolFees, amp, pools, pending, ask, offer).Success?
    ensures QueryReserves(pools, pending).Success?
    ensures var roles := ResolveRoles(pools, offer.info, ask.info);
            var reserves := QueryReserves(pools, pending).value;
            && roles.Success? && Partition(roles.value)
            && pools[roles.value.ask].info == ask.info && pools[roles.value.offer].info == offer.info
            && var c := collab.computeOfferAmount(reserves[roles.value.offer].amount, reserves[roles.value.ask].amount,
                                                  reserves[roles.value.unswapped].amount, ask.amount, poolFees, amp);
               c.Success? && QueryReverseSimulation(collab, poolFees, amp, pools, pending, ask, offer)
                               == Success(ToReverseSimulation(c.value))
  {
    var reserves := QueryReserves(pools, pending).value;
    SameInfosResolveAlike(pools, reserves, offer.info, ask.info);
  }

  /** The ladder reads only the infos, so balances that differ only in amount
      resolve alike. */
  lemma SameInfosResolveAlike(a: Trio, b: Trio, offer: AssetInfo, ask: AssetInfo)
    requires forall i :: 0 <= i < 3 ==> a[i].info == b[i].info
    ensures ResolveRoles(a, offer, ask) == ResolveRoles(b, offer, ask)
  {
  }

  /** On a pool whose three assets differ and whose fees can be deducted, both
      simulations fail with `AssetMismatch` when the offer and ask are the same
      asset or either is not in the pool. */
  lemma SimulationsRejectMismatch(collab: Collaborators, poolFees: PoolFee, amp: nat, pools: Trio, pending: seq<Asset>,
                                  offer: Asset, ask: Asset)
    requires DistinctInfos(pools)
    requires forall i :: 0 <= i < 3 ==> FeeOf(pending, pools[i]) <= pools[i].amount
    requires offer.info == ask.info || !Holds(pools, offer.info) || !Holds(pools, ask.info)
    ensures QuerySimulation(collab, poolFees, amp, pools, pending, offer, ask) == Failure(AssetMismatch)
    ensures QueryReverseSimulation(collab, poolFees, amp, pools, pending, ask, offer) == Failure(AssetMismatch)
  {
    var reserves := QueryReserves(pools, pending).value;
    SameInfosResolveAlike(pools, reserves, offer.info, ask.info);
    ResolveRolesExactly(pools, offer.info, ask.info);
  }

  /** A simulation on the balances before the trader's deposit predicts the
      executed swap: whenever the swap succeeds on the credited balances, with the
      same pending ledger and amplification, the simulation returns exactly the
      swap's five amounts. */
  lemma SimulationPredictsSwap(collab: Collaborators, config: Config, trio: TrioInfo, ledgers: FeeLedgers,
                               before: Trio, after: Trio, offer: Asset, ask: Asset,
                               beliefPrice: Option<Decimal>, maxSpread: Option<Decimal>,
                               sender: string, to: Option<string>)
    requires Credited(before, after, offer)
    requires SwapTransition(collab, config, trio, ledgers, after, offer, ask, beliefPrice, maxSpread, sender, to).Success?
    ensures var o := SwapTransition(collab, config, trio, ledgers, after, offer, ask, beliefPrice, maxSpread, sender, to).value;
            QuerySimulation(collab, config.poolFees, config.ampFactor, before, ledgers.pending, offer, ask)
              == Success(ToSimulation(o.quote.computation))
  {
    assert QuoteSwap(collab, config, trio, ledgers.pending, after, offer, ask, beliefPrice, maxSpread).Success?;
    QuoteSwapComputes(collab, config, trio, ledgers.pending, after, offer, ask, beliefPrice, maxSpread);
    CreditedSwapReserves(before, after, ledgers.pending, offer);
  }

  /** `query_fees` over one fee item and an optional all-time item. */
  function QueryFees(assetId: Option<string>, allTime: Option<bool>,
                     fees: seq<Asset>, allTimeFees: Option<seq<Asset>>): Result<seq<Asset>>
  {
    if allTime == Some(true) && allTimeFees.Some? then Success(allTimeFees.value)
    else if assetId.Some? then
      var fee :- FeesForAsset(fees, assetId.value);
      Success([fee])
    else Success(fees)
  }

  /** The three views of `query_fees`: the whole all-time list when it is asked
      for and exists, whatever the asset id; otherwise, given an id, the first
      entry of that id in the pending item (an error when there is none); and
      otherwise the whole pending item. */
  lemma QueryFeesViews(assetId: Option<string>, allTime: Option<bool>, fees: seq<Asset>, allTimeFees: Option<seq<Asset>>)
    ensures allTime == Some(true) && allTimeFees.Some? ==>
              QueryFees(assetId, allTime, fees, allTimeFees) == Success(allTimeFees.value)
    ensures !(allTime == Some(true) && allTimeFees.Some?) && assetId.None? ==>
              QueryFees(assetId, allTime, fees, allTimeFees) == Success(fees)
    ensures !(allTime == Some(true) && allTimeFees.Some?) && assetId.Some? ==>
              var r := QueryFees(assetId, allTime, fees, allTimeFees);
              && (r.Failure? <==> forall i :: 0 <= i < |fees| ==> fees[i].info.Id() != assetId.value)
              && (r.Failure? ==> r.error == FeesNotFound(assetId.value))
              && (r.Success? ==> |r.value| == 1 && r.value[0] in fees && r.value[0].info.Id() == assetId.value
                                 && r.value[0].amount == ProtocolFeeFor(fees, assetId.value)
                                 && exists i :: 0 <= i < |fees| && r.value[0] == fees[i] &&
                                      forall j :: 0 <= j < i ==> fees[j].info.Id() != assetId.value)
  {
  }

  /** Once `collect_protocol_fees` has zeroed the pending ledger, the pending view
      lists the same assets at zero, every single-asset view reads zero, and the
      pool view is the raw balances. */
  lemma ViewsAfterCollect(fees: seq<Asset>, pools: Trio, totalShare: Uint128, assetId: string)
    requires |fees| >= 3
    ensures QueryFees(None, None, ZeroedLedger(fees), None) == Success(ZeroedLedger(fees))
    ensures var r := QueryFees(Some(assetId), None, ZeroedLedger(fees), None);
            r.Success? ==> r.value[0].amount == 0
    ensures QueryPool(pools, ZeroedLedger(fees), totalShare) == Success(PoolResponse(pools, totalShare))
  {
    ZeroedLedgerDeductsNothing(pools, fees);
    ZeroedLedgerCharges(fees, assetId);
  }
}
