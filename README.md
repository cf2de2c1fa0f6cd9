# ali_pump_fun bonding curve, modelled in Dafny

This project models the on-chain core of `ali_pump_fun`, an Anchor program for
Solana that launches tokens on a bonding curve, together with the parts of its
twin program `pump_fun` that differ from it (its `update_main_state`, its
`withdraw` and its constants).

A single configuration account, `MainState`, holds:

- the owner, the withdrawer and the fee recipient;
- the trading fee, in parts per 100000;
- the default supply, virtual reserves and quote threshold that new pools copy.

Every base token gets one `PoolState`. It holds the creator, the two mints, the
real and virtual reserves of base and quote, the real-quote threshold and a
`complete` flag. A pool is created with the creator's whole supply as real base
reserve. Traders buy and sell against it until its real quote reserve fills the
threshold. The curve is then complete: trading stops and the withdrawer may take
both real reserves, once.

## How the model is built

- **Integers.** `u64` is a subtype of `int`. Every checked `+`/`-` of the source
  fails with `ArithmeticPanic`, as it does with overflow checks enabled. Every `as u64` cast is written out as `% 2^64`.
- **Pure layer.** `Config` and `PoolModel` give each instruction as a function
  from the account record before to a `Result` of the record after and a
  receipt. The receipt holds the token transfers the instruction requests and the
  events it emits. Errors are the program's own error codes plus the framework's
  account checks: `ConstraintHasOne`, `AccountAlreadyInUse` and
  `AccountNotInitialized`.
- **All-or-nothing host.** A failed instruction leaves every account as it was.
  `Committed` and `Reply` in `Base` express this.
- **Stateful layer.** `ConfigAccount.MainState` and `PoolAccount.PoolState` are
  classes whose fields their methods update in place, as the handlers do. Each
  method is proved to leave exactly the committed state of its pure counterpart,
  to return the same reply, and to keep the account invariant.
  `Accounts.Deployment` owns the accounts and performs the two `init`
  instructions.
- **Pricing curve.** The curve (`compute_receivable_amount_on_buy`,
  `compute_required_amount_on_buy`, `compute_receivable_amount_on_sell`) is
  defined in `state.rs`, which is not part of this model. It is therefore a
  parameter: three arbitrary total functions of the pool and an amount. Every
  property below holds for every curve. Where the source relies on the curve
  staying within the reserves, the lemma states that as a `requires`, or the
  model reports the checked subtraction's panic.
- **Sequences of instructions.** `PoolRuns` folds sequences of instructions over
  one pool. Along any run the pool invariant holds, the pool's terms never
  change, completion is never undone and at most one withdrawal succeeds.

The pool invariant is:

> `realQuoteReserves <= realQuoteThreshold`, and a complete pool has either
> exactly reached its threshold or been withdrawn.

Both buys clamp the quote they take so that the real quote reserve never passes
the threshold. The lemmas prove this for the exact-quote clamp, including that it
never charges more than offered.

A consequence worth knowing is stated as `PoolProperties.WithdrawBlockedWhenBaseDrained`.
Suppose buyers take the whole real base reserve while completing the curve. The
withdrawal guard demands that both reserves be positive. The pool's quote can then
never be withdrawn: the guard reports `BondingCurveAlreadyWithdrawn` although
nothing was withdrawn.

## Model

| member | source | states |
|---|---|---|
| Fees.CheckBalance | programs/ali_pump_fun/src/utils.rs:14-22 | the balance check passes exactly when the account holds at least the required amount |
| Fees.CalculateTradingFee | programs/ali_pump_fun/src/utils.rs:30-38 | for a rate of at most 100% the fee is one floor of amount·rate/100000 and never exceeds the amount; a zero rate charges nothing |
| Fees.CalculateTotalAmount | programs/ali_pump_fun/src/utils.rs:46-52 | panics exactly at a rate of 100% or more; when the exact gross fits in 64 bits it is at least the net, taking the fee from it gives back the net exactly, and every larger gross nets more, so it is the largest gross with that net; even when truncated, the fee never exceeds the gross and the net never exceeds the input |
| Fees.NestedFloor | programs/ali_pump_fun/src/utils.rs:34-36 | dividing by 1000 and then by 100 equals dividing by 100000 |
| Fees.TradingFeeIsOneFloor | programs/ali_pump_fun/src/utils.rs:30-38 | the fee's two floors and its cast are one exact floor at most the amount |
| Fees.GrossUpRoundTrip | programs/ali_pump_fun/src/utils.rs:46-52 | the exact gross-up of a net is at least the net, and the fee taken from it leaves the net (inverse of the fee) |
| Fees.NetMonotone | programs/ali_pump_fun/src/utils.rs:30-38 | what is left after the fee grows with the gross amount |
| Fees.TradingFeeMonotone | programs/ali_pump_fun/src/utils.rs:30-38 | the fee grows with the amount |
| Fees.GrossUpMaximal | programs/ali_pump_fun/src/utils.rs:46-52 | any gross above the exact gross-up of a net leaves strictly more than that net after the fee |
| Fees.GrossUpIsLargest | programs/ali_pump_fun/src/utils.rs:46-52 | the same for every larger gross at once: the gross-up is the largest gross whose net is the given net |
| Fees.GrossUpMonotone | programs/ali_pump_fun/src/utils.rs:46-52 | the exact gross-up grows with the net |
| Fees.HeadroomGrossBelowOffer | programs/ali_pump_fun/src/pool/ixs/buy.rs:111-118 | when the headroom is below the net of the offer, grossing the headroom up fits in 64 bits and stays below the offer |
| AliConstants.MaxFeeBelowDivisor | programs/ali_pump_fun/src/constants.rs:8-9 | the fee cap is 5000 (5%), so `100000 - cap` is positive and the gross-up never divides by zero |
| AliConstants.DefaultsFit | programs/ali_pump_fun/src/constants.rs:11-14 | the default supply, reserves and threshold are positive and their sums fit in 64 bits |
| PumpFunConstants.MaxFeeBelowDivisor | programs/pump_fun/src/constants.rs:8-9 | the same fee-cap facts for pump_fun |
| PumpFunConstants.DefaultsFit | programs/pump_fun/src/constants.rs:11-14 | the same default-amount facts for pump_fun |
| Config.InitMainStateDefaults | programs/ali_pump_fun/src/main_state/ixs/init_main_state.rs:16-73 | initialisation succeeds exactly when neither the configuration account nor the owner's quote-token account is allocated yet, the signer is the default owner and the quote mint the configured one, with the error for each failure in that order; the signer becomes owner, withdrawer and fee recipient, the fee 1%, the amounts the defaults, and the event mirrors the stored fields |
| Config.UpdateMainStateFailures | programs/pump_fun/src/main_state/ixs/update_main_state.rs:34-61 | the update succeeds exactly when the owner signs, the quote mint is wrapped SOL, the fee is within the cap and no override is zero; the error for each gate, and for the first zero override in field order |
| Config.UpdateMainStateEffect | programs/pump_fun/src/main_state/ixs/update_main_state.rs:42-71 | a successful update sets withdrawer, recipient and fee, applies exactly the overrides present, keeps the owner and every absent field, keeps the invariant, and reports the stored values |
| Config.TransferOwnershipEffect | programs/ali_pump_fun/src/main_state/ixs/transfer_ownership.rs:14-43 | ownership moves exactly when the owner signs for a different key; the state changes only in its owner, and the event names the previous and the new owner |
| ConfigAccount.MainState.constructor | programs/ali_pump_fun/src/main_state/ixs/init_main_state.rs:53-59 | a freshly allocated account is zero-filled |
| ConfigAccount.MainState.UpdateMainState | programs/pump_fun/src/main_state/ixs/update_main_state.rs:29-74 | the in-place update, with its rollback on a zero override, leaves the committed state and reply of the pure update, never changes the owner and keeps the invariant |
| ConfigAccount.MainState.TransferOwnership | programs/ali_pump_fun/src/main_state/ixs/transfer_ownership.rs:14-32 | the in-place transfer matches the pure transfer, on success changes only the owner, and keeps the invariant |
| Accounts.Deployment.InitMainState | programs/ali_pump_fun/src/main_state/ixs/init_main_state.rs:16-73 | replies as the pure initialisation; allocates a fresh configuration account only on success, filled as the pure initialisation says and satisfying the invariant; fails with `AccountAlreadyInUse` once one exists or when the owner's quote-token account already does |
| Accounts.Deployment.CreatePool | programs/ali_pump_fun/src/pool/ixs/create_pool.rs:24-127 | fails with `AccountNotInitialized` without a configuration; otherwise replies as the pure creation (which fails when the pool account or one of its two token accounts already exists), registers a fresh pool at the seed (base mint, quote mint) only on success, leaves every other pool alone, and the new pool satisfies the invariant |
| PoolProperties.InitializePoolEffect | programs/ali_pump_fun/src/pool/ixs/create_pool.rs:24-127 | creation succeeds exactly when every account and handler check passes, and each failing check gives its own error in the order the checks run: an existing pool or pool token account, equal mints, a foreign quote mint, a wrong base amount, a mint authority, a freeze authority; the pool holds the whole supply, no real quote and the configured terms, is incomplete and satisfies the invariant; the single transfer fills the base reserve; the event reports the effective reserves |
| PoolProperties.FinalizeBuyTransfers | programs/ali_pump_fun/src/pool/ixs/buy.rs:28-55 | a buy's three transfers move the fee to the recipient, the net quote to the pool and the base to the buyer, and nothing else |
| PoolProperties.ApplyBuyOutcome | programs/ali_pump_fun/src/pool/ixs/buy.rs:61-84 | the reserve update of a buy moves each reserve by exactly the pool's net inflow, reports the new effective reserves, completes the curve exactly when the threshold is reached (with the completion event then only) and keeps the invariant |
| PoolProperties.ClampExactQuoteBounds | programs/ali_pump_fun/src/pool/ixs/buy.rs:111-118 | the exact-quote clamp never charges more than offered, takes the fee of what it charges, never lets the net pass the threshold, charges exactly the offer and its fee when the offer's net fits, and lands exactly on the threshold when the offer would overshoot |
| PoolProperties.BuyFromExactQuoteEffect | programs/ali_pump_fun/src/pool/ixs/buy.rs:96-129 | the zero-amount and completed-curve errors, and `TooFewOutputTokens` whenever the curve's output for the clamped net is below the minimum; on success the buyer pays at most the offer, exactly the offer with the reserve growing by its net when that net fits under the threshold, gets at least the minimum, the curve's output for the net, the fee is that of the charge, the invariant holds, and an overshooting offer completes the curve exactly at the threshold |
| PoolProperties.BuyExactBaseEffect | programs/ali_pump_fun/src/pool/ixs/buy.rs:138-172 | the completed-curve and base-range errors, and `TooMuchInputQuote` whenever the grossed-up charge exceeds the maximum; on success the buyer gets exactly the requested base at the curve's price when it fits, otherwise the price is cut to the headroom and the curve completes at the threshold; the charge is the gross-up of the price and within the maximum |
| PoolProperties.ExactBaseChargeCanExceedMax | programs/ali_pump_fun/src/pool/ixs/buy.rs:153-163 | at the 5% cap and a threshold whose gross-up passes 2^64, the wrapped total passes the maximum check and the buyer is charged about 91 times the maximum |
| PoolProperties.SellEffect | programs/ali_pump_fun/src/pool/ixs/sell.rs:18-95 | the insufficient-balance, zero-amount, completed-curve and `TooLowOutputQuote` errors in that order; on success the base reserve grows by the amount sold, the quote reserve falls by the curve's gross output, split into the fee and the seller's net of at least the minimum, the event reports both, and the invariant is kept |
| PoolProperties.WithdrawEffect | programs/ali_pump_fun/src/pool/ixs/withdraw.rs:20-87 | withdrawal succeeds exactly for the withdrawer on a complete curve with both real reserves positive; the signer error differs between the two programs, an incomplete curve and a curve with either real reserve at zero give their own errors; on success both reserves go to the withdrawer and are zeroed, nothing else changes, and the invariant holds |
| PoolProperties.WithdrawOnlyOnce | programs/ali_pump_fun/src/pool/ixs/withdraw.rs:26-72 | after a successful withdrawal, every further withdrawal fails, whoever signs and under either program |
| PoolProperties.WithdrawBlockedWhenBaseDrained | programs/ali_pump_fun/src/pool/ixs/withdraw.rs:25-26 | a complete curve with no base left but quote in it refuses the withdrawer with `BondingCurveAlreadyWithdrawn` |
| PoolProperties.CompletionGatesTrading | programs/ali_pump_fun/src/pool/ixs/buy.rs:102 | no buy of either kind and no sale succeeds on a completed curve |
| PoolProperties.BuyFromExactQuoteSafe | programs/ali_pump_fun/src/pool/ixs/buy.rs:111-128 | with a curve that pays at most the base reserve, a capped fee and room in the sums, the handler's own checked arithmetic never panics: an exact-quote buy succeeds exactly when the curve's output for the clamped net reaches the buyer's minimum and otherwise fails with `TooFewOutputTokens` |
| PoolProperties.BuyExactBaseSafe | programs/ali_pump_fun/src/pool/ixs/buy.rs:153-171 | under the same curve bound, and a threshold whose gross-up fits, the handler's own checked arithmetic never panics: an exact-base buy succeeds exactly when the grossed-up charge is within the buyer's maximum and otherwise fails with `TooMuchInputQuote` |
| PoolProperties.SellSafe | programs/ali_pump_fun/src/pool/ixs/sell.rs:33-42 | with a curve that pays at most the quote reserve, a capped fee and room in the base sum, the handler's own checked arithmetic never panics: a sale by a holder succeeds exactly when the net of the curve's output reaches the seller's minimum and otherwise fails with `TooLowOutputQuote` |
| PoolProperties.FirstBuyAtDefaultFee | programs/ali_pump_fun/src/pool/ixs/buy.rs:111-123 | a first buy of 1_000_000 at the default 1% pays 10_000 to the fee recipient and 990_000 into the reserve and does not complete the curve |
| PoolAccount.PoolState.constructor | programs/ali_pump_fun/src/pool/ixs/create_pool.rs:84-95 | a freshly allocated pool account is zero-filled and incomplete |
| PoolAccount.PoolState.BuyFinalize | programs/ali_pump_fun/src/pool/ixs/buy.rs:21-87 | the in-place finalisation replies as the pure one and commits its state, falling back to the saved pool on failure |
| PoolAccount.PoolState.ClampQuote | programs/ali_pump_fun/src/pool/ixs/buy.rs:111-116 | the clamp as the handler computes it, step by step on the pool account's fields, yields exactly the charge and fee that the function `PoolModel.ClampExactQuote` specifies, and the fee never exceeds the charge |
| PoolAccount.PoolState.BuyTokensFromExactQuote | programs/ali_pump_fun/src/pool/ixs/buy.rs:96-129 | the in-place exact-quote buy leaves exactly the committed pool and the reply of the pure buy and keeps the invariant |
| PoolAccount.PoolState.BuyExactTokensFromQuote | programs/ali_pump_fun/src/pool/ixs/buy.rs:138-172 | the in-place exact-base buy leaves exactly the committed pool and the reply of the pure buy and keeps the invariant |
| PoolAccount.PoolState.Sell | programs/ali_pump_fun/src/pool/ixs/sell.rs:18-95 | the in-place sale leaves exactly the committed pool and the reply of the pure sale and keeps the invariant |
| PoolAccount.PoolState.Withdraw | programs/pump_fun/src/pool/ixs/withdraw.rs:20-83 | the in-place withdrawal of either program leaves exactly the committed pool and the reply of the pure withdrawal and keeps the invariant |
| PoolRuns.StepPreserves | programs/ali_pump_fun/src/pool/ixs/buy.rs:73-84 | one committed instruction keeps the invariant and the terms, never undoes completion, and completes only by filling the threshold |
| PoolRuns.RunPreserves | programs/ali_pump_fun/src/pool/ixs/buy.rs:73-84 | along any sequence of instructions the invariant and the terms hold and completion stays |
| PoolRuns.StepFromSpent | programs/ali_pump_fun/src/pool/ixs/withdraw.rs:25-72 | a withdrawn pool stays withdrawn and admits no further withdrawal; a successful withdrawal leaves it so |
| PoolRuns.SpentRunHasNoWithdrawal | programs/ali_pump_fun/src/pool/ixs/withdraw.rs:25-72 | no instruction sequence withdraws from a withdrawn pool |
| PoolRuns.AtMostOneWithdrawal | programs/ali_pump_fun/src/pool/ixs/withdraw.rs:25-72 | over any sequence of instructions at most one withdrawal succeeds |
| PoolRuns.CreatedPoolRuns | programs/ali_pump_fun/src/pool/ixs/create_pool.rs:38-46 | every pool from creation on satisfies the invariant, keeps its configured virtual reserves, never exceeds its threshold, and is withdrawn at most once |

## Left out

- Pricing curve: `compute_receivable_amount_on_buy`, `compute_required_amount_on_buy` and `compute_receivable_amount_on_sell` live in `state.rs`, which is not part of this model. They are arbitrary functions here, so nothing is claimed about prices, a product invariant or the absence of arbitrage.
- Token transfers are requests recorded in the receipt. The token program itself, the failure of a transfer and the balances of token accounts are not modelled, except the seller's base balance that `check_balance` reads.
- Token accounts that an instruction allocates with `init` are modelled only by whether they already exist: the owner's quote-token account in `init_main_state` (programs/ali_pump_fun/src/main_state/ixs/init_main_state.rs:66-73) and the pool's two token accounts in `create_pool` (programs/ali_pump_fun/src/pool/ixs/create_pool.rs:113-127). An existing one fails the instruction; the model reports that as `AccountAlreadyInUse`, whereas the real error comes from the associated-token program's create instruction and is not modelled by its exact code.
- The accounts `init_if_needed` creates in the trading instructions, PDA bumps, rent and the `address =` and `associated_token::` constraints that only tie an account to its owner and mint are not modelled. They decide which accounts are passed, not what the handlers compute.
- The unwrapping of wrapped SOL in the pump_fun `withdraw` (`close_token_account`, programs/pump_fun/src/pool/ixs/withdraw.rs:59) and `sync_native_amount` are left out. They move lamports outside the pool record.
- Event timestamps (`Clock::get()`) are dropped from the events.
- Overflow checks are assumed enabled; the build profile is not part of this model. Without them the checked `+`/`-` would wrap instead of panicking.
- The `update_main_state` of ali_pump_fun is not part of this model. The pump_fun one is modelled, with its wrapped-SOL quote mint and its `MAX_TRADING_FEE`.
- The pump_fun `withdraw` is modelled on the same `PoolState` layout as ali_pump_fun. The pump_fun state file is not part of this model.
- When several account checks fail at once, the model reports them in a fixed order. The `init` check comes first, then the constraints in field order, then the handler's `require!`s. That order is the model's reading of the framework.
- Instruction dispatch in `lib.rs`, the TypeScript tests and the deployment scripts are left out.
- PoolProperties.BuyExactBaseEffect: the charge is proved within `maxQuoteAmount` only when the exact gross-up of the threshold fits in 64 bits. Above that, about 0.95·2^64 at the 5% cap, the `as u64` cast of `calculate_total_amount` can wrap the compared total and the bound is not claimed; `PoolProperties.ExactBaseChargeCanExceedMax` gives a pool and curve where the charge then exceeds the maximum.
- PoolProperties.BuyFromExactQuoteSafe, PoolProperties.BuyExactBaseSafe, PoolProperties.SellSafe: these assume the curve stays within the reserves, because `state.rs` is not part of this model. They speak only of the handlers' own arithmetic.
- A failure inside the curve code itself (a panic in `compute_receivable_amount_on_buy`, `compute_required_amount_on_buy` or `compute_receivable_amount_on_sell`, called at programs/ali_pump_fun/src/pool/ixs/buy.rs:119, 154 and 158 and programs/ali_pump_fun/src/pool/ixs/sell.rs:34) is not represented: the curve is a total function here, so no property claims that a trade cannot fail there.
