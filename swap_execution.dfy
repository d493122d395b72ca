/** `swap`: price the trade on the fee-adjusted reserves, book its fees on the
    three ledgers against the ask asset, and emit the payout and the burn.
    `SwapTransition` is the specification the imperative `StableSwapPool.Swap`
    is proved against. */
module SwapExecution {
  import opened Errors
  import opened Numeric
  import opened Assets
  import opened FeeLedger
  import opened Reserves
  import opened Roles

  /** A priced trade: the resolved positions and the decimals read at the same
      positions, and the answer of `compute_swap`. */
  datatype SwapQuote = SwapQuote(roles: Roles, askDecimal: nat, offerDecimal: nat, computation: SwapComputation)

  /** The pricing half of `swap`: the working reserves, the role ladder, the
      solver on the offer, ask and unswapped reserves, and the max-spread check. */
  function QuoteSwap(collab: Collaborators, config: Config, trio: TrioInfo, pending: seq<Asset>,
                     pools: Trio, offer: Asset, ask: Asset,
                     beliefPrice: Option<Decimal>, maxSpread: Option<Decimal>): (r: Result<SwapQuote>)
    ensures r.Success? ==> Partition(r.value.roles)
    ensures r.Success? ==> pools[r.value.roles.ask].info == ask.info && pools[r.value.roles.offer].info == offer.info
    ensures r.Success? ==> r.value.askDecimal == trio.assetDecimals[r.value.roles.ask]
                           && r.value.offerDecimal == trio.assetDecimals[r.value.roles.offer]
  {
    var reserves :- SwapReserves(pools, pending, offer);
    var working: Trio := reserves;
    var roles :- ResolveRoles(working, offer.info, ask.info);
    var computation :- collab.computeSwap(
      working[roles.offer].amount, working[roles.ask].amount, working[roles.unswapped].amount,
      offer.amount, config.poolFees, config.ampFactor);
    var askDecimal := trio.assetDecimals[roles.ask];
    var offerDecimal := trio.assetDecimals[roles.offer];
    match collab.assertMaxSpread(beliefPrice, maxSpread, offer,
                                 Asset(working[roles.ask].info, computation.returnAmount),
                                 computation.spreadAmount, offerDecimal, askDecimal)
    case Fail(e) => Failure(e)
    case Pass => Success(SwapQuote(roles, askDecimal, offerDecimal, computation))
  }

  /** A successful quote resolved its roles and ran `compute_swap` on the working
      reserves of those roles and the offered amount. */
  lemma QuoteSwapComputes(collab: Collaborators, config: Config, trio: TrioInfo, pending: seq<Asset>,
                          pools: Trio, offer: Asset, ask: Asset,
                          beliefPrice: Option<Decimal>, maxSpread: Option<Decimal>)
    requires QuoteSwap(collab, config, trio, pending, pools, offer, ask, beliefPrice, maxSpread).Success?
    ensures var q := QuoteSwap(collab, config, trio, pending, pools, offer, ask, beliefPrice, maxSpread).value;
            && SwapReserves(pools, pending, offer).Success?
            && var w: Trio := SwapReserves(pools, pending, offer).value;
               && ResolveRoles(w, offer.info, ask.info) == Success(q.roles)
               && collab.computeSwap(w[q.roles.offer].amount, w[q.roles.ask].amount, w[q.roles.unswapped].amount,
                                     offer.amount, config.poolFees, config.ampFactor) == Success(q.computation)
               && q.offerDecimal == trio.assetDecimals[q.roles.offer]
               && q.askDecimal == trio.assetDecimals[q.roles.ask]
               && collab.assertMaxSpread(beliefPrice, maxSpread, offer, Asset(ask.info, q.computation.returnAmount),
                                         q.computation.spreadAmount, q.offerDecimal, q.askDecimal) == Pass
  {
    var reserves := SwapReserves(pools, pending, offer);
    assert reserves.Success?;
    var w: Trio := reserves.value;
    var roles := ResolveRoles(w, offer.info, ask.info);
    assert roles.Success?;
    var c := collab.computeSwap(w[roles.value.offer].amount, w[roles.value.ask].amount, w[roles.value.unswapped].amount,
                                offer.amount, config.poolFees, config.ampFactor);
    assert c.Success?;
  }

  /** Once the reserves, the roles and `compute_swap` succeed, a failing max-spread
      assertion, asked about the offer, the ask asset at the returned amount, the
      spread and the offer and ask decimals in that order, aborts the swap with
      its own error. */
  lemma QuoteSwapSpreadFails(collab: Collaborators, config: Config, trio: TrioInfo, pending: seq<Asset>,
                             pools: Trio, offer: Asset, ask: Asset,
                             beliefPrice: Option<Decimal>, maxSpread: Option<Decimal>, e: ContractError)
    requires SwapReserves(pools, pending, offer).Success?
    requires ResolveRoles(SwapReserves(pools, pending, offer).value, offer.info, ask.info).Success?
    ensures var w: Trio := SwapReserves(pools, pending, offer).value;
            var roles := ResolveRoles(w, offer.info, ask.info).value;
            var c := collab.computeSwap(w[roles.offer].amount, w[roles.ask].amount, w[roles.unswapped].amount,
                                        offer.amount, config.poolFees, config.ampFactor);
            c.Success? &&
            collab.assertMaxSpread(beliefPrice, maxSpread, offer, Asset(ask.info, c.value.returnAmount),
                                   c.value.spreadAmount, trio.assetDecimals[roles.offer],
                                   trio.assetDecimals[roles.ask]) == Fail(e)
            ==> QuoteSwap(collab, config, trio, pending, pools, offer, ask, beliefPrice, maxSpread) == Failure(e)
  {
    var w: Trio := SwapReserves(pools, pending, offer).value;
    var roles := ResolveRoles(w, offer.info, ask.info).value;
    assert w[roles.ask].info == ask.info;
  }

  /** The three fee ledgers of the contract's storage. */
  datatype FeeLedgers = FeeLedgers(pending: seq<Asset>, allTimeProtocol: seq<Asset>, allTimeBurned: seq<Asset>)

  /** `after` is `before` with `amount` added to every entry of asset id `id`. */
  predicate Booked(before: seq<Asset>, after: seq<Asset>, id: string, amount: nat) {
    && |after| == |before|
    && forall i :: 0 <= i < |before| ==>
         && after[i].info == before[i].info
         && after[i].amount == before[i].amount + (if before[i].info.Id() == id then amount else 0)
  }

  /** The ledger writes of `swap`, in source order: the burn fee on the all-time
      burned ledger when it is not zero, then the protocol fee on the pending
      and on the all-time protocol ledgers, all at the ask asset's id. */
  function BookSwapFees(ledgers: FeeLedgers, askId: string, computation: SwapComputation): (r: Result<FeeLedgers>)
    ensures r.Success? <==>
              && (computation.burnFeeAmount != 0 ==>
                    StoreFee(ledgers.allTimeBurned, computation.burnFeeAmount, askId).Success?)
              && StoreFee(ledgers.pending, computation.protocolFeeAmount, askId).Success?
              && StoreFee(ledgers.allTimeProtocol, computation.protocolFeeAmount, askId).Success?
    ensures r.Failure? ==> r.error == Overflow
    ensures r.Success? ==> computation.burnFeeAmount == 0 ==> r.value.allTimeBurned == ledgers.allTimeBurned
    ensures r.Success? ==> Booked(ledgers.pending, r.value.pending, askId, computation.protocolFeeAmount)
    ensures r.Success? ==> Booked(ledgers.allTimeProtocol, r.value.allTimeProtocol, askId, computation.protocolFeeAmount)
    ensures r.Success? ==> Booked(ledgers.allTimeBurned, r.value.allTimeBurned, askId, computation.burnFeeAmount)
  {
    var burned :- if computation.burnFeeAmount != 0
                  then StoreFee(ledgers.allTimeBurned, computation.burnFeeAmount, askId)
                  else Success(ledgers.allTimeBurned);
    var pending :- StoreFee(ledgers.pending, computation.protocolFeeAmount, askId);
    var allTime :- StoreFee(ledgers.allTimeProtocol, computation.protocolFeeAmount, askId);
    Success(FeeLedgers(pending, allTime, burned))
  }

  /** The instructions of `swap`: the return to the receiver unless it is zero,
      then the burn of the burn fee unless it is zero. */
  function SwapMessages(askInfo: AssetInfo, computation: SwapComputation, receiver: string): (msgs: seq<Msg>)
    ensures |msgs| == (if computation.returnAmount != 0 then 1 else 0) + (if computation.burnFeeAmount != 0 then 1 else 0)
  {
    (if computation.returnAmount != 0 then [Transfer(Asset(askInfo, computation.returnAmount), receiver)] else [])
    + (if computation.burnFeeAmount != 0 then [BurnAsset(Asset(askInfo, computation.burnFeeAmount))] else [])
  }

  /** What a successful swap leaves behind. */
  datatype SwapOutcome = SwapOutcome(quote: SwapQuote, ledgers: FeeLedgers, messages: seq<Msg>)

  /** `swap` as one function of the ledgers, the balances and the call. */
  function SwapTransition(collab: Collaborators, config: Config, trio: TrioInfo, ledgers: FeeLedgers,
                          pools: Trio, offer: Asset, ask: Asset,
                          beliefPrice: Option<Decimal>, maxSpread: Option<Decimal>,
                          sender: string, to: Option<string>): Result<SwapOutcome>
  {
    var quote :- QuoteSwap(collab, config, trio, ledgers.pending, pools, offer, ask, beliefPrice, maxSpread);
    var askInfo := pools[quote.roles.ask].info;
    var booked :- BookSwapFees(ledgers, askInfo.Id(), quote.computation);
    Success(SwapOutcome(quote, booked, SwapMessages(askInfo, quote.computation, to.GetOr(sender))))
  }

  /** After a swap, every entry of the pending and all-time protocol ledgers keeps
      its asset and grows by the protocol fee exactly when its id is the ask
      asset's, and the burned ledger likewise by the burn fee. */
  lemma SwapBooksAtAsk(collab: Collaborators, config: Config, trio: TrioInfo, ledgers: FeeLedgers,
                       pools: Trio, offer: Asset, ask: Asset,
                       beliefPrice: Option<Decimal>, maxSpread: Option<Decimal>,
                       sender: string, to: Option<string>)
    requires SwapTransition(collab, config, trio, ledgers, pools, offer, ask, beliefPrice, maxSpread, sender, to).Success?
    ensures var o := SwapTransition(collab, config, trio, ledgers, pools, offer, ask, beliefPrice, maxSpread, sender, to).value;
            var c := o.quote.computation;
            && Booked(ledgers.pending, o.ledgers.pending, ask.info.Id(), c.protocolFeeAmount)
            && Booked(ledgers.allTimeProtocol, o.ledgers.allTimeProtocol, ask.info.Id(), c.protocolFeeAmount)
            && Booked(ledgers.allTimeBurned, o.ledgers.allTimeBurned, ask.info.Id(), c.burnFeeAmount)
  {
    var q := QuoteSwap(collab, config, trio, ledgers.pending, pools, offer, ask, beliefPrice, maxSpread).value;
    assert pools[q.roles.ask].info == ask.info;
  }

  /** The protocol-fee lookup after a swap: grown by the protocol fee at the ask
      asset's id, unchanged at every other id, on both protocol ledgers. */
  lemma SwapFeeLookups(collab: Collaborators, config: Config, trio: TrioInfo, ledgers: FeeLedgers,
                       pools: Trio, offer: Asset, ask: Asset,
                       beliefPrice: Option<Decimal>, maxSpread: Option<Decimal>,
                       sender: string, to: Option<string>, id: string)
    requires SwapTransition(collab, config, trio, ledgers, pools, offer, ask, beliefPrice, maxSpread, sender, to).Success?
    requires exists i :: 0 <= i < |ledgers.pending| && ledgers.pending[i].info.Id() == ask.info.Id()
    requires exists i :: 0 <= i < |ledgers.allTimeProtocol| && ledgers.allTimeProtocol[i].info.Id() == ask.info.Id()
    ensures var o := SwapTransition(collab, config, trio, ledgers, pools, offer, ask, beliefPrice, maxSpread, sender, to).value;
            var fee := if id == ask.info.Id() then o.quote.computation.protocolFeeAmount else 0;
            && ProtocolFeeFor(o.ledgers.pending, id) == ProtocolFeeFor(ledgers.pending, id) + fee
            && ProtocolFeeFor(o.ledgers.allTimeProtocol, id) == ProtocolFeeFor(ledgers.allTimeProtocol, id) + fee
  {
    var o := SwapTransition(collab, config, trio, ledgers, pools, offer, ask, beliefPrice, maxSpread, sender, to).value;
    var c := o.quote.computation;
    StoreFeeLookup(ledgers.pending, c.protocolFeeAmount, ask.info.Id(), id);
    StoreFeeLookup(ledgers.allTimeProtocol, c.protocolFeeAmount, ask.info.Id(), id);
  }

  /** The swap's messages are exactly these and no others: first the payment of
      the ask asset to `to` (or to the sender when `to` is absent) when the return
      is not zero, then a burn of the ask asset when the burn fee is not zero;
      with a zero burn fee the burned ledger is untouched. */
  lemma SwapMessagesShape(collab: Collaborators, config: Config, trio: TrioInfo, ledgers: FeeLedgers,
                          pools: Trio, offer: Asset, ask: Asset,
                          beliefPrice: Option<Decimal>, maxSpread: Option<Decimal>,
                          sender: string, to: Option<string>)
    requires SwapTransition(collab, config, trio, ledgers, pools, offer, ask, beliefPrice, maxSpread, sender, to).Success?
    ensures var o := SwapTransition(collab, config, trio, ledgers, pools, offer, ask, beliefPrice, maxSpread, sender, to).value;
            var c := o.quote.computation;
            var receiver := if to.Some? then to.value else sender;
            && (Transfer(Asset(ask.info, c.returnAmount), receiver) in o.messages <==> c.returnAmount != 0)
            && (BurnAsset(Asset(ask.info, c.burnFeeAmount)) in o.messages <==> c.burnFeeAmount != 0)
            && |o.messages| == (if c.returnAmount != 0 then 1 else 0) + (if c.burnFeeAmount != 0 then 1 else 0)
            && (c.returnAmount != 0 ==> o.messages[0] == Transfer(Asset(ask.info, c.returnAmount), receiver))
            && (c.burnFeeAmount != 0 ==> o.messages[|o.messages| - 1] == BurnAsset(Asset(ask.info, c.burnFeeAmount)))
            && (forall m :: m in o.messages ==> m.Transfer? || m.BurnAsset?)
            && (c.burnFeeAmount == 0 ==> o.ledgers.allTimeBurned == ledgers.allTimeBurned)
  {
  }

  /** On a pool whose three assets differ, a swap whose reserves can be formed
      fails with `AssetMismatch` exactly when the offer and ask are the same asset
      or either is not in the pool. */
  lemma SwapRejectsMismatch(collab: Collaborators, config: Config, trio: TrioInfo, ledgers: FeeLedgers,
                            pools: Trio, offer: Asset, ask: Asset,
                            beliefPrice: Option<Decimal>, maxSpread: Option<Decimal>,
                            sender: string, to: Option<string>)
    requires DistinctInfos(pools)
    requires SwapReserves(pools, ledgers.pending, offer).Success?
    ensures offer.info == ask.info || !Holds(pools, offer.info) || !Holds(pools, ask.info)
            <==> ResolveRoles(SwapReserves(pools, ledgers.pending, offer).value, offer.info, ask.info).Failure?
    ensures offer.info == ask.info || !Holds(pools, offer.info) || !Holds(pools, ask.info) ==>
              SwapTransition(collab, config, trio, ledgers, pools, offer, ask, beliefPrice, maxSpread, sender, to)
                == Failure(AssetMismatch)
  {
    var working := SwapReserves(pools, ledgers.pending, offer).value;
    assert forall i :: 0 <= i < 3 ==> working[i].info == pools[i].info;
    assert Holds(working, offer.info) == Holds(pools, offer.info);
    assert Holds(working, ask.info) == Holds(pools, ask.info);
    assert DistinctInfos(working);
    ResolveRolesExactly(working, offer.info, ask.info);
  }

  /** A reserve that cannot carry its pending fee, or the offered reserve that
      cannot carry fee and offer together, fails the swap with `Overflow` before
      anything else is looked at. */
  lemma SwapUnderflowFails(collab: Collaborators, config: Config, trio: TrioInfo, ledgers: FeeLedgers,
                           pools: Trio, offer: Asset, ask: Asset,
                           beliefPrice: Option<Decimal>, maxSpread: Option<Decimal>,
                           sender: string, to: Option<string>, i: nat)
    requires i < 3
    requires FeeOf(ledgers.pending, pools[i]) + OfferShare(pools[i], offer) > pools[i].amount
    ensures SwapTransition(collab, config, trio, ledgers, pools, offer, ask, beliefPrice, maxSpread, sender, to)
              == Failure(Overflow)
  {
  }
}
