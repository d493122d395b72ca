/** The working reserves the pricing functions see: the pool balances net of the
    protocol fees that are still pending collection (they sit in the contract's
    balance but belong to the protocol) and, on the execute path, net of the
    offer that the trader has already handed to the contract. */
module Reserves {
  import opened Errors
  import opened Numeric
  import opened Assets
  import opened FeeLedger

  /** The pending fee charged against one pool entry. */
  function FeeOf(pending: seq<Asset>, pool: Asset): Uint128 {
    ProtocolFeeFor(pending, pool.info.Id())
  }

  /** Each reserve reduced by its pending protocol fee, with checked subtraction
      (the `map`/`collect` closures of the queries, `withdraw_liquidity` and
      the second loop of `provide_liquidity`). */
  function DeductProtocolFees(pools: seq<Asset>, pending: seq<Asset>): (r: Result<seq<Asset>>)
    ensures r.Success? <==> forall i :: 0 <= i < |pools| ==> FeeOf(pending, pools[i]) <= pools[i].amount
    ensures r.Failure? ==> r.error == Overflow
    ensures r.Success? ==> |r.value| == |pools|
    ensures r.Success? ==>
      forall i :: 0 <= i < |pools| ==>
        r.value[i] == Asset(pools[i].info, pools[i].amount - FeeOf(pending, pools[i]))
  {
    if pools == [] then Success([])
    else if FeeOf(pending, pools[0]) > pools[0].amount then Failure(Overflow)
    else
      var tail := DeductProtocolFees(pools[1..], pending);
      if tail.Failure? then tail
      else Success([Asset(pools[0].info, pools[0].amount - FeeOf(pending, pools[0]))] + tail.value)
  }

  /** The offer taken out of one entry: the whole offer where the entry holds the
      offered asset, native or token alike, nothing elsewhere. */
  function OfferShare(pool: Asset, offer: Asset): nat {
    if pool.info == offer.info then offer.amount else 0
  }

  /** The working reserves of `swap`: every reserve reduced by its pending fee,
      and the reserve of the offered asset further reduced by the offer amount;
      either underflow fails the swap. The two checked subtractions of the
      source fail together exactly when fee and offer exceed the reserve. */
  function SwapReserves(pools: seq<Asset>, pending: seq<Asset>, offer: Asset): (r: Result<seq<Asset>>)
    ensures r.Success? <==>
      forall i :: 0 <= i < |pools| ==> FeeOf(pending, pools[i]) + OfferShare(pools[i], offer) <= pools[i].amount
    ensures r.Failure? ==> r.error == Overflow
    ensures r.Success? ==> |r.value| == |pools|
    ensures r.Success? ==>
      forall i :: 0 <= i < |pools| ==>
        && r.value[i].info == pools[i].info
        && r.value[i].amount == pools[i].amount - FeeOf(pending, pools[i]) - OfferShare(pools[i], offer)
  {
    if pools == [] then Success([])
    else if FeeOf(pending, pools[0]) + OfferShare(pools[0], offer) > pools[0].amount then Failure(Overflow)
    else
      var tail := SwapReserves(pools[1..], pending, offer);
      if tail.Failure? then tail
      else Success([Asset(pools[0].info, pools[0].amount - FeeOf(pending, pools[0]) - OfferShare(pools[0], offer))]
                   + tail.value)
  }

  /** `after` is `before` with the offer credited to every entry of the offered
      asset: the balances the contract reports once the trader's funds arrived. */
  predicate Credited(before: seq<Asset>, after: seq<Asset>, offer: Asset) {
    && |before| == |after|
    && forall i :: 0 <= i < |before| ==>
         after[i].info == before[i].info && after[i].amount == before[i].amount + OfferShare(before[i], offer)
  }

  /** Taking the offer back out of the credited balances gives exactly the reserves
      a query computes on the balances before the deposit, failures included. */
  lemma CreditedSwapReserves(before: seq<Asset>, after: seq<Asset>, pending: seq<Asset>, offer: Asset)
    requires Credited(before, after, offer)
    ensures SwapReserves(after, pending, offer) == DeductProtocolFees(before, pending)
  {
    var s := SwapReserves(after, pending, offer);
    var d := DeductProtocolFees(before, pending);
    forall i | 0 <= i < |before|
      ensures FeeOf(pending, after[i]) == FeeOf(pending, before[i])
      ensures OfferShare(after[i], offer) == OfferShare(before[i], offer)
    {
    }
    if d.Success? {
      forall i | 0 <= i < |after|
        ensures FeeOf(pending, after[i]) + OfferShare(after[i], offer) <= after[i].amount
      {
        assert FeeOf(pending, before[i]) <= before[i].amount;
      }
      assert s.Success?;
      forall i | 0 <= i < |before| ensures s.value[i] == d.value[i] {
      }
      assert s.value == d.value;
    } else {
      var i :| 0 <= i < |before| && FeeOf(pending, before[i]) > before[i].amount;
      assert FeeOf(pending, after[i]) + OfferShare(after[i], offer) > after[i].amount;
      assert s.Failure?;
    }
  }

  /** Once the pending ledger is zeroed, fee deduction leaves the balances untouched. */
  lemma ZeroedLedgerDeductsNothing(pools: seq<Asset>, fees: seq<Asset>)
    requires |fees| >= 3
    ensures DeductProtocolFees(pools, ZeroedLedger(fees)) == Success(pools)
  {
    var d := DeductProtocolFees(pools, ZeroedLedger(fees));
    forall i | 0 <= i < |pools| ensures FeeOf(ZeroedLedger(fees), pools[i]) == 0 {
      ZeroedLedgerCharges(fees, pools[i].info.Id());
    }
    assert d.Success?;
    forall i | 0 <= i < |pools| ensures d.value[i] == pools[i] {
    }
    assert d.value == pools;
  }
}
