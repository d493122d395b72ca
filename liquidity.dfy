/** Liquidity accounting: what a deposit pulls in and mints, and what a share
    burn refunds. `ProvideLiquidityOutcome` is the specification that the
    imperative `StableSwapPool.ProvideLiquidity` is proved against. */
module Liquidity {
  import opened Errors
  import opened Numeric
  import opened Assets
  import opened FeeLedger
  import opened Reserves

  /** The amount the depositor declared for `info`: the first declared asset
      with that info; the source's `.expect` panic is `WrongAssetInfo`. */
  function DepositFor(assets: Trio, info: AssetInfo): (r: Result<Uint128>)
    ensures r.Failure? <==> !Holds(assets, info)
    ensures r.Failure? ==> r.error == WrongAssetInfo
    ensures r.Success? ==> r.value == assets[IndexOf(assets, info).value].amount
  {
    match IndexOf(assets, info)
    case Some(k) => Success(assets[k].amount)
    case None => Failure(WrongAssetInfo)
  }

  /** The deposits in pool order. */
  function MatchDeposits(assets: Trio, pools: Trio): (r: Result<Amounts>)
    ensures r.Failure? <==> exists i :: 0 <= i < 3 && !Holds(assets, pools[i].info)
    ensures r.Failure? ==> r.error == WrongAssetInfo
    ensures r.Success? ==> forall i :: 0 <= i < 3 ==> r.value[i] == DepositFor(assets, pools[i].info).value
  {
    var d0 :- DepositFor(assets, pools[0].info);
    var d1 :- DepositFor(assets, pools[1].info);
    var d2 :- DepositFor(assets, pools[2].info);
    Success([d0, d1, d2])
  }

  /** What part of a deposit is already in the contract's balance: all of it for a
      native coin (sent along with the call), nothing for a token (pulled later). */
  function NativeDeposit(pool: Asset, deposit: Uint128): Uint128 {
    if pool.info.NativeToken? then deposit else 0
  }

  /** The first loop of `provide_liquidity` on its reserves: each native reserve
      reduced by its deposit, with checked subtraction. */
  function NetNativeDeposits(pools: Trio, deposits: Amounts): (r: Result<Trio>)
    ensures r.Success? <==> forall i :: 0 <= i < 3 ==> NativeDeposit(pools[i], deposits[i]) <= pools[i].amount
    ensures r.Failure? ==> r.error == Overflow
    ensures r.Success? ==> forall i :: 0 <= i < 3 ==>
              r.value[i] == Asset(pools[i].info, pools[i].amount - NativeDeposit(pools[i], deposits[i]))
  {
    if exists i :: 0 <= i < 3 && NativeDeposit(pools[i], deposits[i]) > pools[i].amount then Failure(Overflow)
    else Success(seq(3, i requires 0 <= i < 3 =>
                           Asset(pools[i].info, pools[i].amount - NativeDeposit(pools[i], deposits[i]))))
  }

  /** The pull instruction for one pool position: a `TransferFrom` of exactly the
      deposit for a token, nothing for a native coin. */
  function PullOf(pool: Asset, deposit: Uint128, owner: string, recipient: string): seq<Msg> {
    match pool.info
    case Token(addr) => [TransferFrom(addr, owner, recipient, deposit)]
    case NativeToken(_) => []
  }

  /** The first loop of `provide_liquidity` on its messages, over the first `n` positions. */
  function TokenPulls(pools: Trio, deposits: Amounts, owner: string, recipient: string, n: nat): (msgs: seq<Msg>)
    requires n <= 3
    ensures |msgs| <= n
  {
    if n == 0 then []
    else TokenPulls(pools, deposits, owner, recipient, n - 1) + PullOf(pools[n - 1], deposits[n - 1], owner, recipient)
  }

  /** The messages and minted share of a successful deposit. */
  datatype Provision = Provision(messages: seq<Msg>, share: Uint128)

  /** The reserves `provide_liquidity` prices against: each pool balance net of
      the native deposit already credited to it, then net of its pending protocol
      fee; either checked subtraction fails the call. */
  function WorkingReserves(pools: Trio, deposits: Amounts, pending: seq<Asset>): (r: Result<Trio>)
    ensures r.Success? <==> forall i :: 0 <= i < 3 ==>
              FeeOf(pending, pools[i]) + NativeDeposit(pools[i], deposits[i]) <= pools[i].amount
    ensures r.Failure? ==> r.error == Overflow
    ensures r.Success? ==> forall i :: 0 <= i < 3 ==>
              r.value[i] == Asset(pools[i].info, pools[i].amount - NativeDeposit(pools[i], deposits[i]) - FeeOf(pending, pools[i]))
  {
    var netted :- NetNativeDeposits(pools, deposits);
    assert forall i :: 0 <= i < 3 ==> FeeOf(pending, netted[i]) == FeeOf(pending, pools[i]);
    var reserves :- DeductProtocolFees(netted, pending);
    Success(reserves)
  }

  /** The mint of `provide_liquidity`. On an empty supply it is `D` of the deposits
      less `3 * MINIMUM_LIQUIDITY_AMOUNT`, which is minted to the contract itself
      first (`D` below that amount is `InvalidInitialLiquidityAmount`); otherwise
      it is the solver's proportional share. The result holds the mint messages. */
  function Mint(collab: Collaborators, config: Config, trio: TrioInfo, deposits: Amounts,
                reserves: Trio, to: string, totalShare: Uint128): (r: Result<Provision>)
    ensures r.Success? && totalShare == 0 ==>
              && 3 * collab.minimumLiquidityAmount < U128_LIMIT
              && collab.computeD(deposits[0], deposits[1], deposits[2], config.ampFactor)
                   == Some(r.value.share + 3 * collab.minimumLiquidityAmount)
              && r.value.messages == [MintLp(trio.liquidityToken, trio.contractAddr, 3 * collab.minimumLiquidityAmount),
                                      MintLp(trio.liquidityToken, to, r.value.share)]
    ensures r.Success? && totalShare != 0 ==>
              && collab.computeMintAmountForDeposit(deposits[0], deposits[1], deposits[2],
                   reserves[0].amount, reserves[1].amount, reserves[2].amount, totalShare, config.ampFactor)
                   == Some(r.value.share)
              && r.value.messages == [MintLp(trio.liquidityToken, to, r.value.share)]
    ensures totalShare == 0 ==>
              (r.Failure? <==>
                 || 3 * collab.minimumLiquidityAmount >= U128_LIMIT
                 || collab.computeD(deposits[0], deposits[1], deposits[2], config.ampFactor).None?
                 || collab.computeD(deposits[0], deposits[1], deposits[2], config.ampFactor).value >= U128_LIMIT
                 || collab.computeD(deposits[0], deposits[1], deposits[2], config.ampFactor).value < 3 * collab.minimumLiquidityAmount)
    ensures totalShare != 0 ==>
              (r.Failure? <==> collab.computeMintAmountForDeposit(deposits[0], deposits[1], deposits[2],
                 reserves[0].amount, reserves[1].amount, reserves[2].amount, totalShare, config.ampFactor).None?)
  {
    if totalShare == 0 then
      var minimum := 3 * collab.minimumLiquidityAmount;
      if minimum >= U128_LIMIT then Failure(Overflow)
      else
        match collab.computeD(deposits[0], deposits[1], deposits[2], config.ampFactor)
        case None => Failure(SolverFailure)
        case Some(d) =>
          if d >= U128_LIMIT then Failure(Overflow)
          else if d < minimum then Failure(InvalidInitialLiquidityAmount(minimum))
          else Success(Provision([MintLp(trio.liquidityToken, trio.contractAddr, minimum),
                                  MintLp(trio.liquidityToken, to, d - minimum)], d - minimum))
    else
      match collab.computeMintAmountForDeposit(
        deposits[0], deposits[1], deposits[2],
        reserves[0].amount, reserves[1].amount, reserves[2].amount, totalShare, config.ampFactor)
      case None => Failure(SolverFailure)
      case Some(share) => Success(Provision([MintLp(trio.liquidityToken, to, share)], share))
  }

  /** `provide_liquidity` once the deposits are known to be non-zero: the working
      reserves, the slippage assertion, then the token pulls followed by the mint
      to `to`. */
  function DepositOutcome(
    collab: Collaborators, config: Config, trio: TrioInfo, pending: seq<Asset>,
    pools: Trio, deposits: Amounts, slippage: Option<Decimal>, to: string,
    sender: string, totalShare: Uint128): Result<Provision>
  {
    var reserves :- WorkingReserves(pools, deposits, pending);
    match collab.assertSlippageTolerance(slippage, deposits, reserves)
    case Fail(e) => Failure(e)
    case Pass =>
      var minted :- Mint(collab, config, trio, deposits, reserves, to, totalShare);
      Success(Provision(TokenPulls(pools, deposits, sender, trio.contractAddr, 3) + minted.messages, minted.share))
  }

  /** `provide_liquidity`, as one function of the pool's state and the call:
      the toggle, the deposit lookup, the zero check, and then the deposit. */
  function ProvideLiquidityOutcome(
    collab: Collaborators, config: Config, trio: TrioInfo, pending: seq<Asset>,
    pools: Trio, assets: Trio, slippage: Option<Decimal>, receiver: Option<string>,
    sender: string, totalShare: Uint128): Result<Provision>
  {
    if !config.featureToggle.depositsEnabled then Failure(OperationDisabled("provide_liquidity"))
    else
      var deposits :- MatchDeposits(assets, pools);
      if deposits[0] == 0 || deposits[1] == 0 || deposits[2] == 0 then Failure(InvalidZeroAmount)
      else DepositOutcome(collab, config, trio, pending, pools, deposits, slippage, receiver.GetOr(sender), sender, totalShare)
  }

  /** A deposit with any zero amount is refused with `InvalidZeroAmount`; an
      accepted one has three non-zero deposits. */
  lemma ProvideRejectsZeroDeposit(
    collab: Collaborators, config: Config, trio: TrioInfo, pending: seq<Asset>,
    pools: Trio, assets: Trio, slippage: Option<Decimal>, receiver: Option<string>,
    sender: string, totalShare: Uint128, deposits: Amounts)
    requires config.featureToggle.depositsEnabled
    requires MatchDeposits(assets, pools) == Success(deposits)
    ensures deposits[0] == 0 || deposits[1] == 0 || deposits[2] == 0 ==>
      ProvideLiquidityOutcome(collab, config, trio, pending, pools, assets, slippage, receiver, sender, totalShare)
        == Failure(InvalidZeroAmount)
    ensures ProvideLiquidityOutcome(collab, config, trio, pending, pools, assets, slippage, receiver, sender, totalShare).Success?
      ==> deposits[0] != 0 && deposits[1] != 0 && deposits[2] != 0
  {
  }

  /** The token (not native coin) positions among the first `n`, in pool order. */
  function TokenPositions(pools: Trio, n: nat): (r: seq<nat>)
    requires n <= 3
    ensures forall k :: k in r <==> 0 <= k < n && pools[k].info.Token?
    ensures forall i :: 0 <= i < |r| ==> r[i] < n
    ensures forall i, j :: 0 <= i < j < |r| ==> r[i] < r[j]
  {
    if n == 0 then []
    else TokenPositions(pools, n - 1) + (if pools[n - 1].info.Token? then [n - 1] else [])
  }

  /** The pulls are one `TransferFrom` of exactly its deposit per token position,
      from the sender to the contract, and nothing for native coins. */
  lemma {:induction false} TokenPullsExactly(pools: Trio, deposits: Amounts, owner: string, recipient: string, n: nat)
    requires n <= 3
    ensures forall i :: 0 <= i < n && pools[i].info.Token? ==>
              TransferFrom(pools[i].info.contractAddr, owner, recipient, deposits[i]) in TokenPulls(pools, deposits, owner, recipient, n)
    ensures forall m :: m in TokenPulls(pools, deposits, owner, recipient, n) ==>
              m.TransferFrom? && m.owner == owner && m.recipient == recipient &&
              exists i :: 0 <= i < n && pools[i].info == Token(m.token) && deposits[i] == m.amount
  {
    if n > 0 {
      TokenPullsExactly(pools, deposits, owner, recipient, n - 1);
    }
  }

  /** Pulls that match positions one for one still do after a pull for one more
      position is appended. */
  lemma PullsMatchSnoc(pools: Trio, deposits: Amounts, owner: string, recipient: string,
                       prev: seq<Msg>, ps: seq<nat>, k: nat)
    requires |prev| == |ps| && k < 3 && pools[k].info.Token?
    requires forall i :: 0 <= i < |ps| ==>
               ps[i] < 3 && pools[ps[i]].info.Token? && prev[i] == TransferFrom(pools[ps[i]].info.contractAddr, owner, recipient, deposits[ps[i]])
    ensures var qs := ps + [k];
            var pulls := prev + [TransferFrom(pools[k].info.contractAddr, owner, recipient, deposits[k])];
            && |pulls| == |qs|
            && forall i :: 0 <= i < |qs| ==>
                 qs[i] < 3 && pools[qs[i]].info.Token? && pulls[i] == TransferFrom(pools[qs[i]].info.contractAddr, owner, recipient, deposits[qs[i]])
  {
  }

  /** The pulls come in pool order, one per token position and no others: the
      i-th pull is the `TransferFrom` for the i-th token position. */
  lemma {:induction false} TokenPullsInOrder(pools: Trio, deposits: Amounts, owner: string, recipient: string, n: nat)
    requires n <= 3
    ensures |TokenPulls(pools, deposits, owner, recipient, n)| == |TokenPositions(pools, n)|
    ensures forall i :: 0 <= i < |TokenPositions(pools, n)| ==>
              var k := TokenPositions(pools, n)[i];
              k < 3 && pools[k].info.Token? && TokenPulls(pools, deposits, owner, recipient, n)[i] == TransferFrom(pools[k].info.contractAddr, owner, recipient, deposits[k])
  {
    if n > 0 {
      TokenPullsInOrder(pools, deposits, owner, recipient, n - 1);
      var prev := TokenPulls(pools, deposits, owner, recipient, n - 1);
      var ps := TokenPositions(pools, n - 1);
      if pools[n - 1].info.Token? {
        PullsMatchSnoc(pools, deposits, owner, recipient, prev, ps, n - 1);
        assert TokenPulls(pools, deposits, owner, recipient, n)
            == prev + [TransferFrom(pools[n - 1].info.contractAddr, owner, recipient, deposits[n - 1])];
        assert TokenPositions(pools, n) == ps + [n - 1];
      } else {
        assert TokenPulls(pools, deposits, owner, recipient, n) == prev;
        assert TokenPositions(pools, n) == ps;
      }
    }
  }

  /** A successful deposit is the pulls followed by the mints; with an existing
      supply the share is the solver's answer on the reserves net of native
      deposits and pending fees. */
  lemma ProvideOnExistingSupply(
    collab: Collaborators, config: Config, trio: TrioInfo, pending: seq<Asset>,
    pools: Trio, assets: Trio, slippage: Option<Decimal>, receiver: Option<string>,
    sender: string, totalShare: Uint128, deposits: Amounts)
    requires MatchDeposits(assets, pools) == Success(deposits)
    requires totalShare != 0
    requires ProvideLiquidityOutcome(collab, config, trio, pending, pools, assets, slippage, receiver, sender, totalShare).Success?
    ensures WorkingReserves(pools, deposits, pending).Success?
    ensures var p := ProvideLiquidityOutcome(collab, config, trio, pending, pools, assets, slippage, receiver, sender, totalShare).value;
            var reserves := WorkingReserves(pools, deposits, pending).value;
            && Some(p.share) == collab.computeMintAmountForDeposit(deposits[0], deposits[1], deposits[2],
                 reserves[0].amount, reserves[1].amount, reserves[2].amount, totalShare, config.ampFactor)
            && p.messages == TokenPulls(pools, deposits, sender, trio.contractAddr, 3)
                             + [MintLp(trio.liquidityToken, receiver.GetOr(sender), p.share)]
  {
  }

  /** The checks of `provide_liquidity` before pricing fail it with their own
      errors: a disabled toggle, a pool asset missing from the declared assets,
      and a native-deposit or protocol-fee subtraction that underflows. */
  lemma ProvideFailures(
    collab: Collaborators, config: Config, trio: TrioInfo, pending: seq<Asset>,
    pools: Trio, assets: Trio, slippage: Option<Decimal>, receiver: Option<string>,
    sender: string, totalShare: Uint128)
    ensures !config.featureToggle.depositsEnabled ==>
              ProvideLiquidityOutcome(collab, config, trio, pending, pools, assets, slippage, receiver, sender, totalShare)
                == Failure(OperationDisabled("provide_liquidity"))
    ensures config.featureToggle.depositsEnabled && MatchDeposits(assets, pools).Failure? ==>
              ProvideLiquidityOutcome(collab, config, trio, pending, pools, assets, slippage, receiver, sender, totalShare)
                == Failure(WrongAssetInfo)
    ensures config.featureToggle.depositsEnabled && MatchDeposits(assets, pools).Success? ==>
              var deposits := MatchDeposits(assets, pools).value;
              deposits[0] != 0 && deposits[1] != 0 && deposits[2] != 0 &&
              WorkingReserves(pools, deposits, pending).Failure? ==>
              ProvideLiquidityOutcome(collab, config, trio, pending, pools, assets, slippage, receiver, sender, totalShare)
                == Failure(Overflow)
  {
  }

  /** Once the working reserves are formed, a failing slippage assertion fails
      `provide_liquidity` with its error, and after it passes a failing mint
      fails it with the mint's error. */
  lemma ProvideSlippageFails(
    collab: Collaborators, config: Config, trio: TrioInfo, pending: seq<Asset>,
    pools: Trio, assets: Trio, slippage: Option<Decimal>, receiver: Option<string>,
    sender: string, totalShare: Uint128, deposits: Amounts)
    requires config.featureToggle.depositsEnabled
    requires MatchDeposits(assets, pools) == Success(deposits)
    requires deposits[0] != 0 && deposits[1] != 0 && deposits[2] != 0
    requires WorkingReserves(pools, deposits, pending).Success?
    ensures var reserves := WorkingReserves(pools, deposits, pending).value;
            var r := ProvideLiquidityOutcome(collab, config, trio, pending, pools, assets, slippage, receiver, sender, totalShare);
            && (collab.assertSlippageTolerance(slippage, deposits, reserves).Fail? ==>
                  r == Failure(collab.assertSlippageTolerance(slippage, deposits, reserves).error))
            && (collab.assertSlippageTolerance(slippage, deposits, reserves) == Pass &&
                Mint(collab, config, trio, deposits, reserves, receiver.GetOr(sender), totalShare).Failure? ==>
                  r == Failure(Mint(collab, config, trio, deposits, reserves, receiver.GetOr(sender), totalShare).error))
  {
  }

  /** The first deposit mints the invariant `D` of the deposits less three minimum
      liquidity amounts to the receiver, locks those three amounts by minting them
      to the contract first, and is refused when `D` falls short of them. */
  lemma ProvideFirstDeposit(
    collab: Collaborators, config: Config, trio: TrioInfo, pending: seq<Asset>,
    pools: Trio, assets: Trio, slippage: Option<Decimal>, receiver: Option<string>,
    sender: string, deposits: Amounts, d: nat)
    requires config.featureToggle.depositsEnabled
    requires MatchDeposits(assets, pools) == Success(deposits)
    requires deposits[0] != 0 && deposits[1] != 0 && deposits[2] != 0
    requires forall i :: 0 <= i < 3 ==> FeeOf(pending, pools[i]) + NativeDeposit(pools[i], deposits[i]) <= pools[i].amount
    requires collab.assertSlippageTolerance(slippage, deposits, WorkingReserves(pools, deposits, pending).value) == Pass
    requires 3 * collab.minimumLiquidityAmount < U128_LIMIT
    requires collab.computeD(deposits[0], deposits[1], deposits[2], config.ampFactor) == Some(d)
    requires d < U128_LIMIT
    ensures var minimum := 3 * collab.minimumLiquidityAmount;
            var r := ProvideLiquidityOutcome(collab, config, trio, pending, pools, assets, slippage, receiver, sender, 0);
            && (d < minimum ==> r == Failure(InvalidInitialLiquidityAmount(minimum)))
            && (d >= minimum ==>
                  && r.Success?
                  && r.value.share == d - minimum
                  && r.value.messages == TokenPulls(pools, deposits, sender, trio.contractAddr, 3)
                     + [MintLp(trio.liquidityToken, trio.contractAddr, minimum),
                        MintLp(trio.liquidityToken, receiver.GetOr(sender), d - minimum)])
  {
  }

  /** The refund of one reserve: the reserve net of its pending fee (checked
      subtraction), scaled by the share ratio (a `Uint128 * Decimal` product). */
  function Refund(pool: Asset, pending: seq<Asset>, ratio: Decimal): (r: Result<Asset>)
    ensures r.Failure? ==> r.error == Overflow
    ensures r.Success? ==> FeeOf(pending, pool) <= pool.amount && r.value.info == pool.info
    ensures r.Success? ==> r.value.amount == (pool.amount - FeeOf(pending, pool)) * ratio.atomics / DECIMAL_FRACTIONAL
    ensures ratio.atomics <= DECIMAL_FRACTIONAL ==> (r.Success? <==> FeeOf(pending, pool) <= pool.amount)
    ensures ratio.atomics <= DECIMAL_FRACTIONAL && r.Success? ==> r.value.amount <= pool.amount - FeeOf(pending, pool)
  {
    var fee := FeeOf(pending, pool);
    if fee > pool.amount then Failure(Overflow)
    else
      var scaled := MulDecimal(pool.amount - fee, ratio);
      if scaled.Failure? then Failure(Overflow) else Success(Asset(pool.info, scaled.value))
  }

  /** The third part of `withdraw_liquidity`: the refund of every reserve; one
      failure fails the whole withdrawal. */
  function Refunds(pools: seq<Asset>, pending: seq<Asset>, ratio: Decimal): (r: Result<seq<Asset>>)
    ensures r.Success? <==> forall i :: 0 <= i < |pools| ==> Refund(pools[i], pending, ratio).Success?
    ensures r.Failure? ==> r.error == Overflow
    ensures r.Success? ==> |r.value| == |pools|
    ensures r.Success? ==> forall i :: 0 <= i < |pools| ==> Refund(pools[i], pending, ratio) == Success(r.value[i])
  {
    if pools == [] then Success([])
    else
      var head :- Refund(pools[0], pending, ratio);
      var tail :- Refunds(pools[1..], pending, ratio);
      Success([head] + tail)
  }

  /** The refunds and messages of a withdrawal. */
  datatype Withdrawal = Withdrawal(refunds: seq<Asset>, messages: seq<Msg>)

  /** `withdraw_liquidity`: the share ratio `amount / totalShare` as a `Decimal`, the
      three refunds, and their transfers to the sender followed by the LP burn. */
  function WithdrawLiquidityOutcome(
    pools: Trio, pending: seq<Asset>, totalShare: Uint128, amount: Uint128,
    sender: string, liquidityToken: string): (r: Result<Withdrawal>)
    ensures r.Success? ==> |r.value.refunds| == 3
  {
    var ratio :- FromRatio(amount, totalShare);
    var refunds :- Refunds(pools, pending, ratio);
    Success(Withdrawal(refunds, [
      Transfer(refunds[0], sender), Transfer(refunds[1], sender), Transfer(refunds[2], sender),
      BurnLp(liquidityToken, amount)]))
  }

  /** A withdrawal of at most the supply fails exactly when some pending fee exceeds
      its reserve; otherwise each refund is `(reserve - fee) * from_ratio(amount, totalShare)`,
      at most `reserve - fee`, and the messages are the three refunds to the sender
      and then a burn of exactly `amount` LP shares. */
  lemma WithdrawIsProportional(
    pools: Trio, pending: seq<Asset>, totalShare: Uint128, amount: Uint128,
    sender: string, liquidityToken: string)
    requires 0 < totalShare && amount <= totalShare
    ensures var r := WithdrawLiquidityOutcome(pools, pending, totalShare, amount, sender, liquidityToken);
            && (r.Success? <==> forall i :: 0 <= i < 3 ==> FeeOf(pending, pools[i]) <= pools[i].amount)
            && (r.Failure? ==> r.error == Overflow)
            && (r.Success? ==>
                  && (forall i :: 0 <= i < 3 ==>
                        && r.value.refunds[i].info == pools[i].info
                        && r.value.refunds[i].amount ==
                             (pools[i].amount - FeeOf(pending, pools[i])) * (amount * DECIMAL_FRACTIONAL / totalShare)
                             / DECIMAL_FRACTIONAL
                        && r.value.refunds[i].amount <= pools[i].amount - FeeOf(pending, pools[i]))
                  && r.value.messages == [
                       Transfer(r.value.refunds[0], sender), Transfer(r.value.refunds[1], sender),
                       Transfer(r.value.refunds[2], sender), BurnLp(liquidityToken, amount)])
  {
  }

  /** Burning the whole supply refunds every reserve net of its fee, to the unit. */
  lemma WithdrawWholeSupply(
    pools: Trio, pending: seq<Asset>, totalShare: Uint128, sender: string, liquidityToken: string)
    requires 0 < totalShare
    requires forall i :: 0 <= i < 3 ==> FeeOf(pending, pools[i]) <= pools[i].amount
    ensures var r := WithdrawLiquidityOutcome(pools, pending, totalShare, totalShare, sender, liquidityToken);
            r.Success? && forall i :: 0 <= i < 3 ==>
              r.value.refunds[i] == Asset(pools[i].info, pools[i].amount - FeeOf(pending, pools[i]))
  {
    var r := WithdrawLiquidityOutcome(pools, pending, totalShare, totalShare, sender, liquidityToken);
    forall i | 0 <= i < 3 ensures r.value.refunds[i].amount == pools[i].amount - FeeOf(pending, pools[i]) {
      ExactDiv(pools[i].amount - FeeOf(pending, pools[i]), DECIMAL_FRACTIONAL);
    }
  }

  /** With no LP supply the share ratio is a division by zero. */
  lemma WithdrawFromEmptySupply(pools: Trio, pending: seq<Asset>, amount: Uint128, sender: string, liquidityToken: string)
    ensures WithdrawLiquidityOutcome(pools, pending, 0, amount, sender, liquidityToken) == Failure(DivideByZero)
  {
  }
}
