# StableSwap three-asset pool: bookkeeping model

This project models the state-changing handlers and the queries of the
three-asset StableSwap pool contract. The handlers are `receive_cw20`,
`provide_liquidity`, `withdraw_liquidity`, `swap`, `update_config` and
`collect_protocol_fees`. The queries are `query_pool`, `query_simulation`,
`query_reverse_simulation` and `query_fees`.

The model keeps what the pool code decides for itself:
- which reserves the pricing functions see, net of the pending protocol fees and of the trader's own deposit;
- how an offer and an ask are mapped to the offer, ask and unswapped positions;
- how LP shares are minted on the first and later deposits, and how a withdrawal refunds in proportion;
- how the three fee ledgers are credited and zeroed;
- which error each failing guard produces;
- which transfer, mint and burn instructions the contract hands back.

The contract storage is the class `Contract.StableSwapPool`. It holds the
configuration and the three fee ledgers: pending protocol fees, all-time
protocol fees and all-time burned fees. Its methods are proved equal to
pure specification functions in the other modules, and lemmas about those
functions state what the pool promises.

Modules:
- `Errors`: error, `Option`, `Result`.
- `Numeric`: `Uint128`, checked arithmetic, `Decimal` with 10^18 atomics per unit.
- `Assets`: asset infos, amounts, messages, fees, configuration, collaborators.
- `FeeLedger`: the fee lists and their lookups.
- `Reserves`: the working reserves.
- `Roles`: the offer/ask/unswapped ladder.
- `Liquidity`: provide and withdraw.
- `SwapExecution`: the swap.
- `Queries`: the read-only entry points.
- `Contract`: the contract state and its handlers.

Pool balances and the LP token supply are chain state that the handlers
query, so they are parameters. The pricing mathematics is not part of this
model. These are uninterpreted function values of `Assets.Collaborators`:
- `compute_swap` and `compute_offer_amount`;
- `StableSwap::compute_d` and `compute_mint_amount_for_deposit`;
- the slippage and max-spread assertions.

The amplification factor is `config.ampFactor` for the handlers and an `amp`
parameter for the queries.

Three points of the code that the model keeps as written:
- `swap` subtracts the offered amount from the matching reserve for every kind of offer, cw20 tokens included (commands.rs:335-337).
- A non-zero burn fee is recorded in the all-time burned-fee ledger, besides being burned (commands.rs:443-457).
- `query_pool` subtracts the pending fee without a check (queries.rs:41). That panics on underflow, which the model writes as an `Overflow` error.

## Model

| member | source | states |
|---|---|---|
| Numeric.CheckedSub | contracts/liquidity_hub/pool-network/stableswap_3pool/src/commands.rs:164 | fails exactly when the subtrahend exceeds the minuend; otherwise the exact difference |
| Numeric.CheckedAdd | contracts/liquidity_hub/pool-network/stableswap_3pool/src/commands.rs:461-466 | fails exactly when the sum does not fit in 128 bits; otherwise the exact sum |
| Numeric.FromRatio | contracts/liquidity_hub/pool-network/stableswap_3pool/src/commands.rs:254 | zero denominator iff DivideByZero; success iff the denominator is non-zero and the floored ratio scaled by 10^18 fits in 128 bits, and then it is that value; a ratio n/d with n <= d is at most one, and n = d gives exactly one |
| Numeric.MulDecimal | contracts/liquidity_hub/pool-network/stableswap_3pool/src/commands.rs:268 | the floored product of an amount and a decimal; a factor of at most one never overflows and never exceeds the amount; a factor below one leaves a positive amount strictly smaller; one is the identity |
| Assets.AssetInfo.Id | contracts/liquidity_hub/pool-network/stableswap_3pool/src/commands.rs:172 | the id of a token is its contract address and the id of a native coin is its denomination |
| Assets.IdsCoincide | contracts/liquidity_hub/pool-network/stableswap_3pool/src/commands.rs:332 | two infos of the same kind share an id iff they are equal; a token and a coin with the same string are different infos with the same id |
| Assets.PoolFee.IsValid | contracts/liquidity_hub/pool-network/stableswap_3pool/src/commands.rs:521-524 | a fee schedule is valid iff each of its protocol, swap and burn shares takes strictly less than every positive amount it is applied to, i.e. each share is below one |
| Assets.IndexOf | contracts/liquidity_hub/pool-network/stableswap_3pool/src/commands.rs:126-142 | None iff no entry holds the info; otherwise the first position that holds it |
| FeeLedger.ProtocolFeeForFirstMatch | contracts/liquidity_hub/pool-network/stableswap_3pool/src/commands.rs:171-173 | the pending fee of an id is 0 when no entry carries it, and the amount of the first entry carrying it otherwise |
| FeeLedger.ProtocolFeeAt | contracts/liquidity_hub/pool-network/stableswap_3pool/src/commands.rs:171-173 | on a ledger with distinct ids, the fee looked up for the id at a position is that position's amount |
| FeeLedger.ProtocolFeeFor | contracts/liquidity_hub/pool-network/stableswap_3pool/src/commands.rs:171-173 | `get_protocol_fee_for_asset`; its meaning is stated by ProtocolFeeForFirstMatch |
| FeeLedger.StoreFee | contracts/liquidity_hub/pool-network/stableswap_3pool/src/commands.rs:449-472 | storing a fee keeps the ledger's length and infos, adds the amount to the entries with the id and leaves the rest alone; it fails (Overflow) exactly when an addition overflows |
| FeeLedger.StoreFeeLookup | contracts/liquidity_hub/pool-network/stableswap_3pool/src/commands.rs:461-472 | after storing, the lookup of that id has grown by exactly the stored amount |
| FeeLedger.StoreFeeUntouched | contracts/liquidity_hub/pool-network/stableswap_3pool/src/commands.rs:461-472 | after storing, the lookup of any other id is unchanged |
| FeeLedger.FeesForAsset | contracts/liquidity_hub/pool-network/stableswap_3pool/src/queries.rs:280-283 | fails with FeesNotFound iff no entry has the id; otherwise returns the first ledger entry with that id, whose amount is that id's pending fee |
| FeeLedger.ZeroedLedger | contracts/liquidity_hub/pool-network/stableswap_3pool/src/commands.rs:550-566 | the reset ledger has the first three infos of the old one, each at zero |
| FeeLedger.ZeroedLedgerCharges | contracts/liquidity_hub/pool-network/stableswap_3pool/src/commands.rs:550-566 | after the reset, every id's pending fee is zero |
| FeeLedger.Payouts | contracts/liquidity_hub/pool-network/stableswap_3pool/src/commands.rs:568-574 | never more payouts than ledger entries; what they are is stated by PayoutsAreNonZeroEntries and PayoutsPayEachOnce |
| FeeLedger.NonZeroEntries | contracts/liquidity_hub/pool-network/stableswap_3pool/src/commands.rs:569-574 | the ledger entries of non-zero amount, in ledger order: an entry is in it iff it is in the ledger and non-zero |
| FeeLedger.PayoutsPayEachOnce | contracts/liquidity_hub/pool-network/stableswap_3pool/src/commands.rs:568-574 | the payouts are exactly one transfer to the collector per non-zero entry, in ledger order: as many payouts as non-zero entries, the i-th paying the i-th |
| FeeLedger.PayoutsAreNonZeroEntries | contracts/liquidity_hub/pool-network/stableswap_3pool/src/commands.rs:568-574 | a transfer of an asset to an address is among the payouts iff the address is the collector and the asset is a non-zero ledger entry |
| Reserves.DeductProtocolFees | contracts/liquidity_hub/pool-network/stableswap_3pool/src/queries.rs:74-85 | succeeds iff every balance covers its pending fee (Overflow otherwise); each reserve keeps its info and is reduced by exactly its pending fee |
| Reserves.SwapReserves | contracts/liquidity_hub/pool-network/stableswap_3pool/src/commands.rs:326-341 | each reserve is reduced by its pending fee and, for the position holding the offered asset, also by the offered amount; it fails (Overflow) exactly when one of those subtractions underflows |
| Reserves.CreditedSwapReserves | contracts/liquidity_hub/pool-network/stableswap_3pool/src/commands.rs:326-341 | the swap's working reserves on the credited balances equal the query's reserves on the balances before the deposit |
| Reserves.ZeroedLedgerDeductsNothing | contracts/liquidity_hub/pool-network/stableswap_3pool/src/queries.rs:31-44 | with a zeroed pending ledger the working reserves are the raw balances |
| Roles.ResolveRoles | contracts/liquidity_hub/pool-network/stableswap_3pool/src/commands.rs:349-405 | on success, offer, ask and unswapped are the three distinct positions, holding the offered and asked infos; otherwise AssetMismatch |
| Roles.LadderIsIndexLookup | contracts/liquidity_hub/pool-network/stableswap_3pool/src/commands.rs:349-405 | the six-case ladder is the same as looking up the first positions of the two infos and taking the third position as unswapped |
| Roles.ResolveRolesExactly | contracts/liquidity_hub/pool-network/stableswap_3pool/src/commands.rs:349-405 | on a pool of distinct assets the ladder succeeds iff the offer and ask differ and both are in the pool |
| Roles.DuplicateAssetsResolve | contracts/liquidity_hub/pool-network/stableswap_3pool/src/commands.rs:349-405 | the ladder alone does not reject a pool whose positions repeat an asset; only the pool's creation keeps them distinct |
| Liquidity.DepositFor | contracts/liquidity_hub/pool-network/stableswap_3pool/src/commands.rs:126-142 | the deposit for a pool position is the amount of the first declared asset with that info; WrongAssetInfo iff no declared asset has it |
| Liquidity.MatchDeposits | contracts/liquidity_hub/pool-network/stableswap_3pool/src/commands.rs:126-142 | fails with WrongAssetInfo iff some pool asset is missing from the declared assets; otherwise one deposit per pool position, the declared amount of that position's asset |
| Liquidity.NetNativeDeposits | contracts/liquidity_hub/pool-network/stableswap_3pool/src/commands.rs:149-166 | native coins already credited are taken back out of their balances, and token balances are left alone; Overflow exactly when that underflows |
| Liquidity.TokenPullsExactly | contracts/liquidity_hub/pool-network/stableswap_3pool/src/commands.rs:149-161 | every token position gets a transfer-from of exactly its deposit from the sender to the pool, and every pull is such a transfer of some token position; native coins are not pulled |
| Liquidity.WorkingReserves | contracts/liquidity_hub/pool-network/stableswap_3pool/src/commands.rs:149-174 | succeeds iff each balance covers its pending fee plus its own native deposit (Overflow otherwise); each reserve is the balance less both |
| Liquidity.Mint | contracts/liquidity_hub/pool-network/stableswap_3pool/src/commands.rs:182-225 | with no supply a successful mint has D of the deposits = share + three times the minimum, minting three times the minimum to the pool contract first and the share to the receiver; it fails iff three times the minimum overflows, D is not found or does not fit, or D is below three times the minimum; with a supply the share is the mint-amount function's answer on the deposits and the working reserves, minted to the receiver, and it fails iff that function finds none |
| Liquidity.TokenPulls | contracts/liquidity_hub/pool-network/stableswap_3pool/src/commands.rs:149-161 | at most one pull per position; what the pulls are, and in which order, is stated by TokenPullsExactly and TokenPullsInOrder |
| Liquidity.TokenPositions | contracts/liquidity_hub/pool-network/stableswap_3pool/src/commands.rs:149-161 | the token (non-native) positions among the first n, each exactly once, strictly increasing |
| Liquidity.TokenPullsInOrder | contracts/liquidity_hub/pool-network/stableswap_3pool/src/commands.rs:149-161 | there is exactly one pull per token position and no other: the i-th pull is the transfer-from of the i-th token position's deposit from the sender to the pool |
| Liquidity.DepositOutcome | contracts/liquidity_hub/pool-network/stableswap_3pool/src/commands.rs:148-225 | the deposit phase of provide_liquidity: Overflow on an underflowing native-deposit or fee subtraction, the slippage assertion's error, the mint's error, or the pulls followed by the mint (by ProvideFailures, ProvideSlippageFails, ProvideOnExistingSupply and ProvideFirstDeposit) |
| Liquidity.ProvideLiquidityOutcome | contracts/liquidity_hub/pool-network/stableswap_3pool/src/commands.rs:103-234 | provide_liquidity as a function: each failure path (toggle, missing asset, zero deposit, underflow, slippage, mint) and the success paths are stated by ProvideFailures, ProvideRejectsZeroDeposit, ProvideSlippageFails, ProvideOnExistingSupply and ProvideFirstDeposit |
| Liquidity.ProvideFailures | contracts/liquidity_hub/pool-network/stableswap_3pool/src/commands.rs:112-174 | deposits disabled gives OperationDisabled("provide_liquidity"); an unmatched pool asset gives WrongAssetInfo; with non-zero matched deposits, an underflowing native-deposit or protocol-fee subtraction gives Overflow |
| Liquidity.ProvideSlippageFails | contracts/liquidity_hub/pool-network/stableswap_3pool/src/commands.rs:176-225 | once the working reserves are formed, a failing slippage assertion fails the call with its error, and after it passes a failing mint fails the call with the mint's error |
| Liquidity.ProvideRejectsZeroDeposit | contracts/liquidity_hub/pool-network/stableswap_3pool/src/commands.rs:144-146 | a deposit that is zero in any position fails with InvalidZeroAmount, with deposits enabled and the assets matched |
| Liquidity.ProvideOnExistingSupply | contracts/liquidity_hub/pool-network/stableswap_3pool/src/commands.rs:168-225 | with an existing supply the receiver (or the sender) is minted exactly the mint-amount function's share of the working reserves, after the token pulls |
| Liquidity.ProvideFirstDeposit | contracts/liquidity_hub/pool-network/stableswap_3pool/src/commands.rs:182-225 | on the first deposit, D short of three times the minimum fails with InvalidInitialLiquidityAmount; otherwise the pulls are followed by a mint of three times the minimum to the pool contract and of D less three times the minimum to the receiver (or the sender) |
| Liquidity.Refund | contracts/liquidity_hub/pool-network/stableswap_3pool/src/commands.rs:256-273 | a position's refund is the withdrawn share of its balance net of its pending fee; for a share of at most one it succeeds iff the balance covers the fee, and never exceeds the net reserve |
| Liquidity.Refunds | contracts/liquidity_hub/pool-network/stableswap_3pool/src/commands.rs:256-273 | succeeds iff every position's refund does, and then lists exactly those refunds in pool order |
| Liquidity.WithdrawLiquidityOutcome | contracts/liquidity_hub/pool-network/stableswap_3pool/src/commands.rs:238-303 | a successful withdrawal has three refunds; its meaning is stated by WithdrawIsProportional, WithdrawWholeSupply and WithdrawFromEmptySupply |
| Liquidity.WithdrawIsProportional | contracts/liquidity_hub/pool-network/stableswap_3pool/src/commands.rs:254-291 | a withdrawal pays each position share·(balance − fee) to the sender, floored, then burns the returned LP amount |
| Liquidity.WithdrawWholeSupply | contracts/liquidity_hub/pool-network/stableswap_3pool/src/commands.rs:254-273 | returning the whole supply refunds every net reserve in full |
| Liquidity.WithdrawFromEmptySupply | contracts/liquidity_hub/pool-network/stableswap_3pool/src/commands.rs:254 | with no LP supply the withdrawal fails with DivideByZero |
| SwapExecution.QuoteSwap | contracts/liquidity_hub/pool-network/stableswap_3pool/src/commands.rs:326-433 | the quote's roles partition the pool, name the offered and asked positions and carry those positions' decimals; what it computed and that the max-spread assertion passed are stated by QuoteSwapComputes, and that a failing assertion aborts with its error by QuoteSwapSpreadFails |
| SwapExecution.QuoteSwapComputes | contracts/liquidity_hub/pool-network/stableswap_3pool/src/commands.rs:326-417 | a successful quote's roles are the ladder's answer on the swap's working reserves, its computation is compute_swap on those roles' reserves and the offered amount, its decimals are those of the offer and ask positions, and the max-spread assertion passed on the offer, the ask asset at the returned amount, the spread, the offer decimal and the ask decimal |
| SwapExecution.QuoteSwapSpreadFails | contracts/liquidity_hub/pool-network/stableswap_3pool/src/commands.rs:425-433 | once the reserves, the roles and compute_swap succeed, a max-spread assertion that fails on those arguments fails the swap with the assertion's error |
| SwapExecution.BookSwapFees | contracts/liquidity_hub/pool-network/stableswap_3pool/src/commands.rs:443-472 | succeeds iff each store it performs succeeds (the burned ledger only for a non-zero burn fee, then the pending and all-time protocol ledgers); a failure is Overflow; on success each ledger is booked at the id by its amount, and a zero burn fee leaves the burned ledger as it was |
| SwapExecution.SwapMessages | contracts/liquidity_hub/pool-network/stableswap_3pool/src/commands.rs:435-457 | one message for a non-zero return plus one for a non-zero burn fee, and no others; which ones, and in which order, is stated by SwapMessagesShape |
| SwapExecution.SwapTransition | contracts/liquidity_hub/pool-network/stableswap_3pool/src/commands.rs:307-498 | swap as a function of the ledgers and the balances; its meaning is stated by SwapBooksAtAsk, SwapFeeLookups, SwapMessagesShape, SwapRejectsMismatch and SwapUnderflowFails |
| SwapExecution.SwapBooksAtAsk | contracts/liquidity_hub/pool-network/stableswap_3pool/src/commands.rs:443-472 | a successful swap books all three fees under the id of the asked asset |
| SwapExecution.SwapFeeLookups | contracts/liquidity_hub/pool-network/stableswap_3pool/src/commands.rs:461-472 | after a swap, the ask's pending and all-time protocol fee have grown by the protocol fee amount and every other id's fee is unchanged |
| SwapExecution.SwapMessagesShape | contracts/liquidity_hub/pool-network/stableswap_3pool/src/commands.rs:435-457 | a successful swap returns exactly one message for a non-zero return and one for a non-zero burn fee and nothing else: first the transfer of the return in the ask asset to the receiver (the sender by default), then the burn of the burn fee in the ask asset; all are transfers or burns; a zero burn fee leaves the burned ledger untouched |
| SwapExecution.SwapRejectsMismatch | contracts/liquidity_hub/pool-network/stableswap_3pool/src/commands.rs:349-405 | on a pool of distinct assets, a swap whose offer and ask coincide or are not in the pool fails with AssetMismatch |
| SwapExecution.SwapUnderflowFails | contracts/liquidity_hub/pool-network/stableswap_3pool/src/commands.rs:326-341 | a swap whose reserve subtractions underflow fails with Overflow before any pricing |
| Queries.QueryPool | contracts/liquidity_hub/pool-network/stableswap_3pool/src/queries.rs:26-58 | each pool asset net of its pending fee, in pool order, and the LP supply; Overflow exactly when a fee exceeds its balance |
| Queries.QueryReserves | contracts/liquidity_hub/pool-network/stableswap_3pool/src/queries.rs:73-85 | the simulations' reserves are the balances net of pending fees only; Overflow exactly when that underflows |
| Queries.QuerySimulation | contracts/liquidity_hub/pool-network/stableswap_3pool/src/queries.rs:61-156 | query_simulation; its meaning is stated by SimulationForwards, SimulationsRejectMismatch and SimulationPredictsSwap |
| Queries.QueryReverseSimulation | contracts/liquidity_hub/pool-network/stableswap_3pool/src/queries.rs:160-255 | query_reverse_simulation; its meaning is stated by ReverseSimulationForwards and SimulationsRejectMismatch |
| Queries.SimulationForwards | contracts/liquidity_hub/pool-network/stableswap_3pool/src/queries.rs:61-156 | a successful simulation is compute_swap on the query's reserves (balances net of pending fees) at the resolved offer, ask and unswapped positions, field for field |
| Queries.ReverseSimulationForwards | contracts/liquidity_hub/pool-network/stableswap_3pool/src/queries.rs:160-255 | a successful reverse simulation is compute_offer_amount on the query's reserves at the resolved positions and the asked amount, field for field |
| Queries.SimulationsRejectMismatch | contracts/liquidity_hub/pool-network/stableswap_3pool/src/queries.rs:91-129 | on a pool of distinct assets, both simulations fail with AssetMismatch when offer and ask coincide or are not in the pool |
| Queries.SimulationPredictsSwap | contracts/liquidity_hub/pool-network/stableswap_3pool/src/queries.rs:140-155 | the simulation on the balances before the deposit returns the very amounts that the executed swap computes on the credited balances |
| Queries.QueryFees | contracts/liquidity_hub/pool-network/stableswap_3pool/src/queries.rs:264-287 | query_fees; its meaning is stated by QueryFeesViews and ViewsAfterCollect |
| Queries.QueryFeesViews | contracts/liquidity_hub/pool-network/stableswap_3pool/src/queries.rs:264-287 | the all-time list when asked for and available; else the first pending entry with the id (FeesNotFound iff absent), whose amount is that id's fee; else the whole pending list |
| Queries.ViewsAfterCollect | contracts/liquidity_hub/pool-network/stableswap_3pool/src/commands.rs:550-566 | after collection the pending view lists zeros, each single-asset view reads zero and the pool view shows the raw balances |
| Contract.IsAuthorizedToken | contracts/liquidity_hub/pool-network/stableswap_3pool/src/commands.rs:44-57 | a cw20 sender is authorised iff it is the token contract of one of the pool's assets |
| Contract.PullDeposits | contracts/liquidity_hub/pool-network/stableswap_3pool/src/commands.rs:149-166 | the first provide loop: the balances net of native deposits, and the transfer-from messages of the token deposits |
| Contract.DeductPendingFees | contracts/liquidity_hub/pool-network/stableswap_3pool/src/commands.rs:168-174 | the second provide loop: the balances net of their pending fees |
| Contract.Deposit | contracts/liquidity_hub/pool-network/stableswap_3pool/src/commands.rs:148-225 | the deposit phase computes the messages and share of the deposit specification |
| Contract.BookAndEmit | contracts/liquidity_hub/pool-network/stableswap_3pool/src/commands.rs:435-472 | books the swap's fees and emits the swap's messages, as the booking and message specifications say |
| Contract.UpdatedConfig | contracts/liquidity_hub/pool-network/stableswap_3pool/src/commands.rs:501-541 | only the owner may update; each supplied field replaces the old one, absent fields stay; an invalid fee schedule is rejected |
| Contract.UpdateConfigStable | contracts/liquidity_hub/pool-network/stableswap_3pool/src/commands.rs:501-541 | a successful update keeps a valid fee schedule valid, and repeating it as the owner it installed changes nothing |
| Contract.EmptyUpdateKeepsConfig | contracts/liquidity_hub/pool-network/stableswap_3pool/src/commands.rs:501-541 | an owner's update with no fields leaves the configuration unchanged |
| Contract.StableSwapPool.constructor | contracts/liquidity_hub/pool-network/stableswap_3pool/src/commands.rs:550-566 | the stored state a fresh pool starts from: the given configuration and pool description, and three ledgers listing the pool's three asset infos at zero, the shape collect_protocol_fees also saves (instantiation itself is not part of this model) |
| Contract.StableSwapPool.Swap | contracts/liquidity_hub/pool-network/stableswap_3pool/src/commands.rs:307-498 | on success the ledgers become those of the swap specification and the messages are the swap's; on failure nothing changes |
| Contract.StableSwapPool.ProvideLiquidity | contracts/liquidity_hub/pool-network/stableswap_3pool/src/commands.rs:103-234 | returns the provide specification's outcome on the pool's own configuration and pending ledger, and writes no storage |
| Contract.StableSwapPool.CollectProtocolFees | contracts/liquidity_hub/pool-network/stableswap_3pool/src/commands.rs:544-579 | the pending ledger is zeroed, the messages pay out each non-zero entry to the collector, and the all-time ledgers are unchanged |
| Contract.StableSwapPool.UpdateConfig | contracts/liquidity_hub/pool-network/stableswap_3pool/src/commands.rs:501-541 | the stored configuration becomes the updated one on success and is unchanged on failure |
| Contract.StableSwapPool.ReceiveCw20 | contracts/liquidity_hub/pool-network/stableswap_3pool/src/commands.rs:21-100 | a swap hook requires swaps enabled and an authorised token, then swaps on behalf of the cw20 sender; a withdraw hook requires withdrawals enabled and the LP token, then withdraws; a malformed hook fails |

## Left out

- Address validation and humanising (`addr_validate`, `addr_humanize`, canonical addresses): addresses are plain strings.
- Response attributes and message encoding (`to_binary`, `WasmMsg`, `CosmosMsg`): messages are the abstract `Assets.Msg`.
- `assert_sent_native_token_balance`: the check that attached funds match a native offer or deposit reads the transaction's funds, which are not modelled.
- The pricing mathematics (compute_swap, compute_offer_amount, StableSwap invariant D and mint amount, the slippage and max-spread assertions) is not part of this model. These are uninterpreted collaborators, so no property about prices, slippage or the invariant is proved.
- The amplification schedule depends on the block time. The handlers use the stored `ampFactor` and the queries take `amp` as a parameter.
- `MINIMUM_LIQUIDITY_AMOUNT` is a collaborator value, not a fixed constant.
- The LP supply and the pool balances come from chain queries; they are parameters of each handler.
- Instantiation and the entry-point dispatch of `contract.rs` are not part of this model. This includes the native-offer `ExecuteMsg::Swap` entry and its toggle check. The class constructor stands for the state instantiation leaves behind.
- `store_fee`, `get_protocol_fee_for_asset`, `get_fees_for_asset` and `PoolFee::is_valid` have no source here. They are modelled by their evident meaning:
  - a fee is added to every ledger entry with the asset's id, with a checked addition;
  - a lookup takes the first entry with the id (0, or `FeesNotFound`, when none has it);
  - every fee share of a `PoolFee` is below one.
- Error types are collapsed. Checked-arithmetic and standard-library errors are written as `Overflow`, `DivideByZero` or `Std`, and unauthorised config updates as `Std("unauthorized")`.
- A failed handler writes nothing, because the chain reverts failed transactions. The model states this as "unchanged on failure" rather than modelling the revert.
- The fee collector, the pair and factory packages and `query_trio_info` and `query_config` are not part of this model.
- Concurrency and gas are not modelled.
- Contract.StableSwapPool.ProvideLiquidity: does not itself write storage, as in the source. Its caller-visible effects, the pulls and mints, are the returned messages.
- Liquidity.WithdrawLiquidityOutcome: its own contract states only the shape of the result. Its meaning is stated by the lemmas `WithdrawIsProportional`, `WithdrawWholeSupply` and `WithdrawFromEmptySupply`.
