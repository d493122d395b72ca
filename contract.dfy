/** The pool contract's state and its state-changing handlers. The contract
    storage the handlers write (the configuration and the three fee ledgers)
    lives in the fields of `StableSwapPool`; the pool balances and the LP supply
    are chain state that the handlers query, passed in as parameters. A handler
    that fails writes nothing: the chain reverts a failed call. */
module Contract {
  import opened Errors
  import opened Numeric
  import opened Assets
  import opened FeeLedger
  import opened Reserves
  import opened Liquidity
  import opened SwapExecution

  /** The payload of a cw20 `Send` (`Cw20HookMsg`); one that does not parse is
      `Malformed`, carrying the parse error. */
  datatype Cw20Hook =
    | SwapHook(ask: Asset, beliefPrice: Option<Decimal>, maxSpread: Option<Decimal>, to: Option<string>)
    | WithdrawHook
    | Malformed(message: string)

  /** The only cw20 contracts allowed to send a swap are the pool's own tokens. */
  method IsAuthorizedToken(pools: Trio, sender: string) returns (authorized: bool)
    ensures authorized <==> exists i :: 0 <= i < 3 && pools[i].info == Token(sender)
  {
    authorized := false;
    var i := 0;
    while i < 3
      invariant 0 <= i <= 3
      invariant authorized <==> exists k :: 0 <= k < i && pools[k].info == Token(sender)
    {
      match pools[i].info {
        case Token(addr) =>
          if addr == sender {
            authorized := true;
          }
        case NativeToken(_) =>
      }
      i := i + 1;
    }
  }

  /** The second half of `swap`, in source order: the payout unless the return is
      zero; the burned-fee booking and the burn unless the burn fee is zero; the
      pending and all-time protocol-fee bookings. */
  method BookAndEmit(ledgers: FeeLedgers, askInfo: AssetInfo, c: SwapComputation, receiver: string)
    returns (booked: Result<FeeLedgers>, messages: seq<Msg>)
    ensures booked == BookSwapFees(ledgers, askInfo.Id(), c)
    ensures booked.Success? ==> messages == SwapMessages(askInfo, c, receiver)
  {
    messages := [];
    if c.returnAmount != 0 {
      messages := messages + [Transfer(Asset(askInfo, c.returnAmount), receiver)];
    }
    var burned := ledgers.allTimeBurned;
    if c.burnFeeAmount != 0 {
      var stored := StoreFee(ledgers.allTimeBurned, c.burnFeeAmount, askInfo.Id());
      if stored.Failure? {
        return Failure(stored.error), messages;
      }
      burned := stored.value;
      messages := messages + [BurnAsset(Asset(askInfo, c.burnFeeAmount))];
    }
    var pending := StoreFee(ledgers.pending, c.protocolFeeAmount, askInfo.Id());
    if pending.Failure? {
      return Failure(pending.error), messages;
    }
    var allTime := StoreFee(ledgers.allTimeProtocol, c.protocolFeeAmount, askInfo.Id());
    if allTime.Failure? {
      return Failure(allTime.error), messages;
    }
    booked := Success(FeeLedgers(pending.value, allTime.value, burned));
  }

  /** The first loop of `provide_liquidity`: a `TransferFrom` of its deposit for
      each token position, and each native reserve reduced in place by its
      deposit, with checked subtraction. */
  method PullDeposits(pools: Trio, deposits: Amounts, owner: string, recipient: string)
    returns (r: Result<Trio>, messages: seq<Msg>)
    ensures r == NetNativeDeposits(pools, deposits)
    ensures r.Success? ==> messages == TokenPulls(pools, deposits, owner, recipient, 3)
  {
    var work := pools;
    messages := [];
    var i := 0;
    while i < 3
      invariant 0 <= i <= 3
      invariant messages == TokenPulls(pools, deposits, owner, recipient, i)
      invariant forall k :: 0 <= k < 3 ==> work[k].info == pools[k].info
      invariant forall k :: 0 <= k < i ==>
                  NativeDeposit(pools[k], deposits[k]) <= pools[k].amount
                  && work[k].amount == pools[k].amount - NativeDeposit(pools[k], deposits[k])
      invariant forall k :: i <= k < 3 ==> work[k] == pools[k]
    {
      match work[i].info {
        case Token(addr) =>
          messages := messages + [TransferFrom(addr, owner, recipient, deposits[i])];
        case NativeToken(_) =>
          if deposits[i] > work[i].amount {
            assert NativeDeposit(pools[i], deposits[i]) > pools[i].amount;
            return Failure(Overflow), messages;
          }
          work := work[i := Asset(work[i].info, work[i].amount - deposits[i])];
      }
      i := i + 1;
    }
    ghost var spec := NetNativeDeposits(pools, deposits);
    assert spec.Success?;
    assert forall k :: 0 <= k < 3 ==> work[k] == spec.value[k];
    assert work == spec.value;
    r := Success(work);
  }

  /** The second loop of `provide_liquidity`: each reserve reduced in place by its
      pending protocol fee, with checked subtraction. */
  method DeductPendingFees(pools: Trio, pending: seq<Asset>) returns (r: Result<Trio>)
    ensures r == DeductProtocolFees(pools, pending)
  {
    var work := pools;
    var i := 0;
    while i < 3
      invariant 0 <= i <= 3
      invariant forall k :: 0 <= k < 3 ==> work[k].info == pools[k].info
      invariant forall k :: 0 <= k < i ==>
                  FeeOf(pending, pools[k]) <= pools[k].amount
                  && work[k].amount == pools[k].amount - FeeOf(pending, pools[k])
      invariant forall k :: i <= k < 3 ==> work[k] == pools[k]
    {
      var fee := ProtocolFeeFor(pending, work[i].info.Id());
      if fee > work[i].amount {
        assert FeeOf(pending, pools[i]) > pools[i].amount;
        return Failure(Overflow);
      }
      work := work[i := Asset(work[i].info, work[i].amount - fee)];
      i := i + 1;
    }
    ghost var spec := DeductProtocolFees(pools, pending);
    assert spec.Success?;
    assert forall k :: 0 <= k < 3 ==> work[k] == spec.value[k];
    assert work == spec.value;
    r := Success(work);
  }

  /** The rest of `provide_liquidity` once the deposits are matched and non-zero:
      the two reserve loops, the slippage check, and the mint messages pushed
      after the pulls. */
  method Deposit(collab: Collaborators, config: Config, trio: TrioInfo, pending: seq<Asset>,
                 pools: Trio, deposits: Amounts, slippage: Option<Decimal>, to: string,
                 sender: string, totalShare: Uint128)
    returns (r: Result<Provision>)
    ensures r == DepositOutcome(collab, config, trio, pending, pools, deposits, slippage, to, sender, totalShare)
  {
    ghost var spec := WorkingReserves(pools, deposits, pending);
    var netted, messages := PullDeposits(pools, deposits, sender, trio.contractAddr);
    if netted.Failure? {
      assert spec == Failure(Overflow);
      return Failure(netted.error);
    }
    var reserves := DeductPendingFees(netted.value, pending);
    if reserves.Failure? {
      assert spec == Failure(Overflow);
      return Failure(reserves.error);
    }
    var work := reserves.value;
    assert spec == Success(work);
    match collab.assertSlippageTolerance(slippage, deposits, work) {
      case Fail(e) => return Failure(e);
      case Pass =>
    }
    ghost var pulls := messages;
    ghost var mint := Mint(collab, config, trio, deposits, work, to, totalShare);
    assert DepositOutcome(collab, config, trio, pending, pools, deposits, slippage, to, sender, totalShare)
         == if mint.Failure? then Failure(mint.error)
            else Success(Provision(pulls + mint.value.messages, mint.value.share));
    var share: Uint128;
    if totalShare == 0 {
      var minimum := 3 * collab.minimumLiquidityAmount;
      if minimum >= U128_LIMIT {
        return Failure(Overflow);
      }
      var d := collab.computeD(deposits[0], deposits[1], deposits[2], config.ampFactor);
      if d.None? {
        return Failure(SolverFailure);
      }
      if d.value >= U128_LIMIT {
        return Failure(Overflow);
      }
      if d.value < minimum {
        return Failure(InvalidInitialLiquidityAmount(minimum));
      }
      share := d.value - minimum;
      messages := messages + [MintLp(trio.liquidityToken, trio.contractAddr, minimum)];
    } else {
      var minted := collab.computeMintAmountForDeposit(
        deposits[0], deposits[1], deposits[2], work[0].amount, work[1].amount, work[2].amount,
        totalShare, config.ampFactor);
      if minted.None? {
        return Failure(SolverFailure);
      }
      share := minted.value;
    }
    messages := messages + [MintLp(trio.liquidityToken, to, share)];
    assert mint.Success? && messages == pulls + mint.value.messages;
    r := Success(Provision(messages, share));
  }

  /** `update_config` on values: only the owner may call it; each field given
      replaces the stored one and each field left out keeps it; a replacement fee
      schedule must be valid. */
  function UpdatedConfig(config: Config, sender: string, owner: Option<string>, feeCollectorAddr: Option<string>,
                         poolFees: Option<PoolFee>, featureToggle: Option<FeatureToggle>,
                         ampFactor: Option<nat>): (r: Result<Config>)
    ensures r.Failure? <==> sender != config.owner || (poolFees.Some? && !poolFees.value.IsValid())
    ensures sender != config.owner ==> r == Failure(Std("unauthorized"))
    ensures sender == config.owner && poolFees.Some? && !poolFees.value.IsValid() ==> r == Failure(InvalidFee)
    ensures r.Success? ==>
              && r.value.owner == (if owner.Some? then owner.value else config.owner)
              && r.value.feeCollectorAddr == (if feeCollectorAddr.Some? then feeCollectorAddr.value else config.feeCollectorAddr)
              && r.value.poolFees == (if poolFees.Some? then poolFees.value else config.poolFees)
              && r.value.featureToggle == (if featureToggle.Some? then featureToggle.value else config.featureToggle)
              && r.value.ampFactor == (if ampFactor.Some? then ampFactor.value else config.ampFactor)
  {
    if sender != config.owner then Failure(Std("unauthorized"))
    else
      var updated := config.(owner := owner.GetOr(config.owner));
      if poolFees.Some? && !poolFees.value.IsValid() then Failure(InvalidFee)
      else
        var updated := updated.(poolFees := poolFees.GetOr(config.poolFees));
        var updated := updated.(featureToggle := featureToggle.GetOr(config.featureToggle));
        var updated := updated.(ampFactor := ampFactor.GetOr(config.ampFactor));
        Success(updated.(feeCollectorAddr := feeCollectorAddr.GetOr(config.feeCollectorAddr)))
  }

  /** A successful update keeps a valid fee schedule valid, and repeating it, now
      sent by the owner it installed, changes nothing. */
  lemma UpdateConfigStable(config: Config, sender: string, owner: Option<string>, feeCollectorAddr: Option<string>,
                           poolFees: Option<PoolFee>, featureToggle: Option<FeatureToggle>, ampFactor: Option<nat>)
    requires UpdatedConfig(config, sender, owner, feeCollectorAddr, poolFees, featureToggle, ampFactor).Success?
    ensures var c := UpdatedConfig(config, sender, owner, feeCollectorAddr, poolFees, featureToggle, ampFactor).value;
            && (config.poolFees.IsValid() ==> c.poolFees.IsValid())
            && UpdatedConfig(c, c.owner, owner, feeCollectorAddr, poolFees, featureToggle, ampFactor) == Success(c)
  {
  }

  /** The owner's update that names no field leaves the configuration as it was. */
  lemma EmptyUpdateKeepsConfig(config: Config)
    ensures UpdatedConfig(config, config.owner, None, None, None, None, None) == Success(config)
  {
  }

  class StableSwapPool {
    /** `CONFIG` */
    var config: Config
    /** The part of `TRIO_INFO` the handlers read; it never changes after instantiation. */
    const trio: TrioInfo
    /** `COLLECTED_PROTOCOL_FEES`: protocol fees booked and not yet collected. */
    var collectedProtocolFees: seq<Asset>
    /** `ALL_TIME_COLLECTED_PROTOCOL_FEES` */
    var allTimeProtocolFees: seq<Asset>
    /** `ALL_TIME_BURNED_FEES` */
    var allTimeBurnedFees: seq<Asset>

    /** Each ledger keeps the three entries it is created with; the infos of
        those entries are not tied to the queried pool balances here. */
    predicate Valid()
      reads this
    {
      && |collectedProtocolFees| == 3
      && |allTimeProtocolFees| == 3
      && |allTimeBurnedFees| == 3
    }

    function Ledgers(): FeeLedgers
      reads this
    {
      FeeLedgers(collectedProtocolFees, allTimeProtocolFees, allTimeBurnedFees)
    }

    /** The state instantiation leaves: the three ledgers list the pool's assets at zero. */
    constructor (config: Config, trio: TrioInfo, infos: seq<AssetInfo>)
      requires |infos| == 3
      ensures Valid()
      ensures this.config == config && this.trio == trio
      ensures var zero := [Asset(infos[0], 0), Asset(infos[1], 0), Asset(infos[2], 0)];
              collectedProtocolFees == zero && allTimeProtocolFees == zero && allTimeBurnedFees == zero
    {
      this.config := config;
      this.trio := trio;
      var zero := [Asset(infos[0], 0), Asset(infos[1], 0), Asset(infos[2], 0)];
      collectedProtocolFees := zero;
      allTimeProtocolFees := zero;
      allTimeBurnedFees := zero;
    }

    /** `swap`: the quote, then the payout, the burned-fee booking and burn, and
      the two protocol-fee bookings; the ledgers are written only once every
      booking has succeeded. */
    method Swap(collab: Collaborators, pools: Trio, offer: Asset, ask: Asset,
                beliefPrice: Option<Decimal>, maxSpread: Option<Decimal>, sender: string, to: Option<string>)
      returns (r: Result<seq<Msg>>)
      requires Valid()
      modifies this
      ensures Valid() && config == old(config)
      ensures var t := SwapTransition(collab, old(config), trio, old(Ledgers()), pools, offer, ask,
                                      beliefPrice, maxSpread, sender, to);
              && (t.Success? ==> r == Success(t.value.messages) && Ledgers() == t.value.ledgers)
              && (t.Failure? ==> r == Failure(t.error) && Ledgers() == old(Ledgers()))
    {
      ghost var t := SwapTransition(collab, config, trio, Ledgers(), pools, offer, ask, beliefPrice, maxSpread, sender, to);
      var q := QuoteSwap(collab, config, trio, collectedProtocolFees, pools, offer, ask, beliefPrice, maxSpread);
      if q.Failure? {
        return Failure(q.error);
      }
      var c := q.value.computation;
      var askInfo := pools[q.value.roles.ask].info;
      ghost var book := BookSwapFees(Ledgers(), askInfo.Id(), c);
      assert t == if book.Failure? then Failure(book.error)
                  else Success(SwapOutcome(q.value, book.value, SwapMessages(askInfo, c, to.GetOr(sender))));
      var booked, messages := BookAndEmit(Ledgers(), askInfo, c, to.GetOr(sender));
      if booked.Failure? {
        return Failure(booked.error);
      }
      collectedProtocolFees := booked.value.pending;
      allTimeProtocolFees := booked.value.allTimeProtocol;
      allTimeBurnedFees := booked.value.allTimeBurned;
      r := Success(messages);
    }

    /** `provide_liquidity`: the toggle, the deposit lookup and the zero check,
      then the deposit. It writes no storage. */
    method ProvideLiquidity(collab: Collaborators, pools: Trio, assets: Trio, slippage: Option<Decimal>,
                            receiver: Option<string>, sender: string, totalShare: Uint128)
      returns (r: Result<Provision>)
      ensures r == ProvideLiquidityOutcome(collab, config, trio, collectedProtocolFees, pools, assets,
                                           slippage, receiver, sender, totalShare)
    {
      if !config.featureToggle.depositsEnabled {
        return Failure(OperationDisabled("provide_liquidity"));
      }
      var matched := MatchDeposits(assets, pools);
      if matched.Failure? {
        return Failure(matched.error);
      }
      var deposits := matched.value;
      if deposits[0] == 0 || deposits[1] == 0 || deposits[2] == 0 {
        return Failure(InvalidZeroAmount);
      }
      r := Deposit(collab, config, trio, collectedProtocolFees, pools, deposits, slippage,
                   receiver.GetOr(sender), sender, totalShare);
    }

    /** `collect_protocol_fees`: the pending ledger is reset to its assets at zero,
      and each non-zero pre-reset entry is paid to the fee collector, in ledger
      order. The all-time ledgers are untouched. */
    method CollectProtocolFees() returns (messages: seq<Msg>)
      requires Valid()
      modifies this`collectedProtocolFees
      ensures Valid()
      ensures collectedProtocolFees == ZeroedLedger(old(collectedProtocolFees))
      ensures messages == Payouts(old(collectedProtocolFees), config.feeCollectorAddr)
      ensures allTimeProtocolFees == old(allTimeProtocolFees) && allTimeBurnedFees == old(allTimeBurnedFees)
    {
      var protocolFees := collectedProtocolFees;
      collectedProtocolFees := [Asset(protocolFees[0].info, 0), Asset(protocolFees[1].info, 0),
                                Asset(protocolFees[2].info, 0)];
      messages := [];
      var i := 0;
      while i < |protocolFees|
        invariant 0 <= i <= |protocolFees|
        invariant messages == Payouts(protocolFees[..i], config.feeCollectorAddr)
      {
        assert protocolFees[..i + 1][..i] == protocolFees[..i];
        if protocolFees[i].amount != 0 {
          messages := messages + [Transfer(protocolFees[i], config.feeCollectorAddr)];
        }
        i := i + 1;
      }
      assert protocolFees[..i] == protocolFees;
    }

    /** `update_config`: the configuration is replaced by the update when it
      succeeds and kept when it fails. */
    method UpdateConfig(sender: string, owner: Option<string>, feeCollectorAddr: Option<string>,
                        poolFees: Option<PoolFee>, featureToggle: Option<FeatureToggle>, ampFactor: Option<nat>)
      returns (r: Check)
      modifies this`config
      ensures var u := UpdatedConfig(old(config), sender, owner, feeCollectorAddr, poolFees, featureToggle, ampFactor);
              && (u.Success? ==> r == Pass && config == u.value)
              && (u.Failure? ==> r == Fail(u.error) && config == old(config))
    {
      if sender != config.owner {
        return Fail(Std("unauthorized"));
      }
      var updated := config;
      if owner.Some? {
        updated := updated.(owner := owner.value);
      }
      if poolFees.Some? {
        if !poolFees.value.IsValid() {
          return Fail(InvalidFee);
        }
        updated := updated.(poolFees := poolFees.value);
      }
      if featureToggle.Some? {
        updated := updated.(featureToggle := featureToggle.value);
      }
      if ampFactor.Some? {
        updated := updated.(ampFactor := ampFactor.value);
      }
      if feeCollectorAddr.Some? {
        updated := updated.(feeCollectorAddr := feeCollectorAddr.value);
      }
      config := updated;
      r := Pass;
    }

    /** `receive_cw20`: a swap hook needs swaps enabled and one of the pool's own
      tokens as sender, and swaps the received amount of that token; a withdraw
      hook needs withdrawals enabled and the LP token as sender, and refunds the
      received shares; a payload that does not parse is refused. Only a swap
      writes the ledgers. */
    method ReceiveCw20(collab: Collaborators, pools: Trio, tokenSender: string, cw20Sender: string,
                       amount: Uint128, hook: Cw20Hook, totalShare: Uint128)
      returns (r: Result<seq<Msg>>)
      requires Valid()
      modifies this
      ensures Valid() && config == old(config)
      ensures hook.SwapHook? && !old(config).featureToggle.swapsEnabled ==>
                r == Failure(OperationDisabled("swap")) && Ledgers() == old(Ledgers())
      ensures hook.SwapHook? && old(config).featureToggle.swapsEnabled
              && (forall i :: 0 <= i < 3 ==> pools[i].info != Token(tokenSender)) ==>
                r == Failure(Unauthorized) && Ledgers() == old(Ledgers())
      ensures hook.SwapHook? && old(config).featureToggle.swapsEnabled
              && (exists i :: 0 <= i < 3 && pools[i].info == Token(tokenSender)) ==>
                var t := SwapTransition(collab, old(config), trio, old(Ledgers()), pools,
                                        Asset(Token(tokenSender), amount), hook.ask,
                                        hook.beliefPrice, hook.maxSpread, cw20Sender, hook.to);
                && (t.Success? ==> r == Success(t.value.messages) && Ledgers() == t.value.ledgers)
                && (t.Failure? ==> r == Failure(t.error) && Ledgers() == old(Ledgers()))
      ensures hook.WithdrawHook? ==> Ledgers() == old(Ledgers())
      ensures hook.WithdrawHook? && !old(config).featureToggle.withdrawalsEnabled ==>
                r == Failure(OperationDisabled("withdraw_liquidity"))
      ensures hook.WithdrawHook? && old(config).featureToggle.withdrawalsEnabled && tokenSender != trio.liquidityToken ==>
                r == Failure(Unauthorized)
      ensures hook.WithdrawHook? && old(config).featureToggle.withdrawalsEnabled && tokenSender == trio.liquidityToken ==>
                var w := WithdrawLiquidityOutcome(pools, old(collectedProtocolFees), totalShare, amount,
                                                  cw20Sender, trio.liquidityToken);
                && (w.Success? ==> r == Success(w.value.messages))
                && (w.Failure? ==> r == Failure(w.error))
      ensures hook.Malformed? ==> r == Failure(Std(hook.message)) && Ledgers() == old(Ledgers())
    {
      match hook {
        case SwapHook(ask, beliefPrice, maxSpread, to) =>
          if !config.featureToggle.swapsEnabled {
            return Failure(OperationDisabled("swap"));
          }
          var authorized := IsAuthorizedToken(pools, tokenSender);
          if !authorized {
            return Failure(Unauthorized);
          }
          r := Swap(collab, pools, Asset(Token(tokenSender), amount), ask, beliefPrice, maxSpread, cw20Sender, to);
        case WithdrawHook =>
          if !config.featureToggle.withdrawalsEnabled {
            return Failure(OperationDisabled("withdraw_liquidity"));
          }
          if tokenSender != trio.liquidityToken {
            return Failure(Unauthorized);
          }
          var w := WithdrawLiquidityOutcome(pools, collectedProtocolFees, totalShare, amount,
                                            cw20Sender, trio.liquidityToken);
          if w.Failure? {
            return Failure(w.error);
          }
          r := Success(w.value.messages);
        case Malformed(message) =>
          r := Failure(Std(message));
      }
    }
  }
}
