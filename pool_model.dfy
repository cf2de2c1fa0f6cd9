/** A bonding-curve pool (`PoolState`) and its four instructions, each as a
    function from the pool before to the pool after, the token movements it asks
    the token program for and the records it emits, or the failure. The account
    class that performs them in place is `PoolAccount.PoolState`. */
module PoolModel {
  import opened Base
  import opened Fees
  import AliConstants
  import opened Config

  datatype PoolRecord = PoolRecord(
    owner: Pubkey,
    baseMint: Pubkey,
    quoteMint: Pubkey,
    realBaseReserves: u64,
    virtBaseReserves: u64,
    realQuoteReserves: u64,
    virtQuoteReserves: u64,
    realQuoteThreshold: u64,
    complete: bool)

  /** The pool's pricing functions `compute_receivable_amount_on_buy`,
      `compute_required_amount_on_buy` and `compute_receivable_amount_on_sell`. Their
      bodies are not part of this model, so every property below holds for any
      curve. Each reads the pool as it stands before the trade changes it. */
  datatype Curve = Curve(
    receivableOnBuy: (PoolRecord, u64) -> u64,
    requiredOnBuy: (PoolRecord, u64) -> u64,
    receivableOnSell: (PoolRecord, u64) -> u64)

  /** The SPL mint account of the token a pool is created for. */
  datatype MintAccount = MintAccount(
    address: Pubkey,
    supply: u64,
    hasMintAuthority: bool,
    hasFreezeAuthority: bool)

  /** The program whose withdraw instruction is meant: they differ in the withdrawer gate. */
  datatype Variant = AliPumpFun | PumpFun

  datatype Asset = BaseToken | QuoteToken

  /** The token accounts an instruction moves tokens between: the pool's reserve
      accounts and the accounts of the creator, trader, fee recipient and withdrawer. */
  datatype Party = Creator | Trader | FeeRecipient | PoolCustody | Withdrawer

  /** One SPL `transfer` the instruction asks for. */
  datatype Transfer = Transfer(asset: Asset, from: Party, to: Party, amount: u64)

  datatype CreateEvent = CreateEvent(creator: Pubkey, baseMint: Pubkey, baseReserves: u64, quoteReserves: u64)

  datatype TradeEvent = TradeEvent(
    user: Pubkey,
    baseMint: Pubkey,
    baseAmount: u64,
    quoteAmount: u64,
    baseReserves: u64,
    quoteReserves: u64,
    isBuy: bool)

  datatype CompleteEvent = CompleteEvent(baseMint: Pubkey)

  datatype WithdrawEvent = WithdrawEvent(withdrawer: Pubkey, baseMint: Pubkey, baseAmount: u64, quoteAmount: u64)

  datatype CreateReceipt = CreateReceipt(transfers: seq<Transfer>, created: CreateEvent)

  /** A trade's transfers, its `TradeEvent`, and the `CompleteEvent` a buy emits
      when it fills the curve. */
  datatype TradeReceipt = TradeReceipt(transfers: seq<Transfer>, trade: TradeEvent, completion: Option<CompleteEvent>)

  datatype WithdrawReceipt = WithdrawReceipt(transfers: seq<Transfer>, withdrawn: WithdrawEvent)

  /** What transfer `t` adds to (or, negated, takes from) the `asset` balance of `party`. */
  function Flow(t: Transfer, asset: Asset, party: Party): (delta: int) {
    (if t.asset == asset && t.to == party then t.amount else 0)
    - (if t.asset == asset && t.from == party then t.amount else 0)
  }

  /** Net amount of `asset` that `party` gains over the transfers `ts`. */
  function NetInflow(ts: seq<Transfer>, asset: Asset, party: Party): (total: int) {
    if |ts| == 0 then 0 else Flow(ts[0], asset, party) + NetInflow(ts[1..], asset, party)
  }

  lemma NetInflowOfTwo(a: Transfer, b: Transfer)
    ensures forall asset, party ::
      NetInflow([a, b], asset, party) == Flow(a, asset, party) + Flow(b, asset, party)
  {
    forall asset, party
      ensures NetInflow([a, b], asset, party) == Flow(a, asset, party) + Flow(b, asset, party)
    {
      assert [a, b][1..] == [b];
      assert NetInflow([b], asset, party) == Flow(b, asset, party) + NetInflow([b][1..], asset, party);
      assert [b][1..] == [];
    }
  }

  lemma NetInflowOfThree(a: Transfer, b: Transfer, c: Transfer)
    ensures forall asset, party ::
      NetInflow([a, b, c], asset, party)
      == Flow(a, asset, party) + Flow(b, asset, party) + Flow(c, asset, party)
  {
    assert [a, b, c][1..] == [b, c];
    NetInflowOfTwo(b, c);
  }

  /** What every pool keeps between instructions: the real quote reserve never
      exceeds the threshold, and a completed curve holds exactly the threshold
      unless it has been emptied by a withdrawal. */
  predicate PoolInvariant(p: PoolRecord) {
    && p.realQuoteReserves <= p.realQuoteThreshold
    && (p.complete ==> p.realQuoteReserves == p.realQuoteThreshold
                       || (p.realBaseReserves == 0 && p.realQuoteReserves == 0))
  }

  /** The fields no instruction after `create_pool` writes: creator, mints, virtual
      reserves and threshold. */
  predicate SameTerms(p: PoolRecord, q: PoolRecord) {
    && q.owner == p.owner
    && q.baseMint == p.baseMint
    && q.quoteMint == p.quoteMint
    && q.virtBaseReserves == p.virtBaseReserves
    && q.virtQuoteReserves == p.virtQuoteReserves
    && q.realQuoteThreshold == p.realQuoteThreshold
  }

  // ---------------------------------------------------------------------------
  // create_pool

  /** `create_pool` with its account checks: `init` of the pool account at the seed
      (base mint, quote mint) fails if it exists, and so does `init` of the pool's
      base and quote token accounts (`reserveAtaExists`: either exists); the mints must differ and the quote
      mint must be the configured one; the creator must hold the whole supply, which
      must equal the configured total supply, and the mint must have neither a mint
      nor a freeze authority. The pool starts with the whole supply as real base
      reserve and the configured virtual reserves and threshold. */
  function InitializePool(cfg: MainStateRecord, poolExists: bool, reserveAtaExists: bool, creator: Pubkey,
                          baseMint: MintAccount, quoteMint: Pubkey, creatorBaseAmount: u64)
    : (r: Result<(PoolRecord, CreateReceipt)>)
  {
    if poolExists || reserveAtaExists then Err(AccountAlreadyInUse)
    else if baseMint.address == quoteMint then Err(Program(InvalidTokenPair))
    else if quoteMint != AliConstants.QUOTE_MINT_STR then Err(Program(UnknownQuoteMint))
    else if creatorBaseAmount != baseMint.supply then Err(Program(WrongBaseAmountOnCreation))
    else if creatorBaseAmount != cfg.totalSupply then Err(Program(WrongBaseAmountOnCreation))
    else if baseMint.hasMintAuthority then Err(Program(BaseTokenMustNotBeMintable))
    else if baseMint.hasFreezeAuthority then Err(Program(BaseTokenMustNotBeFreezable))
    else if cfg.totalSupply + cfg.initVirtBaseReserves > U64_MAX then Err(ArithmeticPanic)
    else
      var p := PoolRecord(creator, baseMint.address, quoteMint, cfg.totalSupply, cfg.initVirtBaseReserves,
                          0, cfg.initVirtQuoteReserves, cfg.realQuoteThreshold, false);
      Ok((p, CreateReceipt(
        [Transfer(BaseToken, Creator, PoolCustody, creatorBaseAmount)],
        CreateEvent(creator, baseMint.address, p.realBaseReserves + p.virtBaseReserves, p.virtQuoteReserves))))
  }

  // ---------------------------------------------------------------------------
  // buy

  /** The shared tail of both buys once the reserves are updated (`buy_finalize`):
      the fee and the net quote move from the buyer, the base from the pool; the
      `TradeEvent` sums are checked additions; the curve completes when the real
      quote reserve reaches the threshold. */
  function FinalizeBuy(p: PoolRecord, buyer: Pubkey, baseAmount: u64, fee: u64, inputQuote: u64)
    : (r: Result<(PoolRecord, TradeReceipt)>)
  {
    if fee + inputQuote > U64_MAX
       || p.realBaseReserves + p.virtBaseReserves > U64_MAX
       || p.virtQuoteReserves + p.realQuoteReserves > U64_MAX
    then Err(ArithmeticPanic)
    else
      var transfers := [Transfer(QuoteToken, Trader, FeeRecipient, fee),
                        Transfer(QuoteToken, Trader, PoolCustody, inputQuote),
                        Transfer(BaseToken, PoolCustody, Trader, baseAmount)];
      var trade := TradeEvent(buyer, p.baseMint, baseAmount, fee + inputQuote,
                              p.realBaseReserves + p.virtBaseReserves,
                              p.virtQuoteReserves + p.realQuoteReserves, true);
      if p.realQuoteReserves >= p.realQuoteThreshold then
        Ok((p.(complete := true), TradeReceipt(transfers, trade, Some(CompleteEvent(p.baseMint)))))
      else
        Ok((p, TradeReceipt(transfers, trade, None)))
  }

  /** Both buys' reserve update, a checked `+=` of the net quote and a checked `-=`
      of the base bought, followed by `FinalizeBuy`. */
  function ApplyBuy(p: PoolRecord, buyer: Pubkey, baseAmount: u64, fee: u64, inputQuote: u64)
    : Result<(PoolRecord, TradeReceipt)>
  {
    if p.realQuoteReserves + inputQuote > U64_MAX || baseAmount > p.realBaseReserves then Err(ArithmeticPanic)
    else
      FinalizeBuy(p.(realQuoteReserves := p.realQuoteReserves + inputQuote,
                     realBaseReserves := p.realBaseReserves - baseAmount),
                  buyer, baseAmount, fee, inputQuote)
  }

  /** The gross quote amount and fee of `buy_tokens_from_exact_quote`: the offered
      amount, unless its net would carry the real quote reserve past the threshold,
      in which case the gross whose net exactly fills the remaining headroom. */
  function ClampExactQuote(p: PoolRecord, tradingFee: u64, quoteAmount: u64): Result<(u64, u64)> {
    var fee := CalculateTradingFee(tradingFee, quoteAmount);
    if fee > quoteAmount || p.realQuoteReserves + (quoteAmount - fee) > U64_MAX then Err(ArithmeticPanic)
    else if p.realQuoteReserves + (quoteAmount - fee) <= p.realQuoteThreshold then Ok((quoteAmount, fee))
    else if p.realQuoteThreshold < p.realQuoteReserves then Err(ArithmeticPanic)
    else
      match CalculateTotalAmount(tradingFee, p.realQuoteThreshold - p.realQuoteReserves)
      case Err(f) => Err(f)
      case Ok(gross) => Ok((gross, CalculateTradingFee(tradingFee, gross)))
  }

  /** `buy_tokens_from_exact_quote`: spend `quoteAmount` (fee included) for at least
      `minBaseAmount` base tokens. */
  function BuyFromExactQuote(p: PoolRecord, cfg: MainStateRecord, curve: Curve, buyer: Pubkey,
                             quoteAmount: u64, minBaseAmount: u64): Result<(PoolRecord, TradeReceipt)>
  {
    if quoteAmount == 0 then Err(Program(WrongQuoteAmount))
    else if p.complete then Err(Program(BondingCurveComplete))
    else
      match ClampExactQuote(p, cfg.tradingFee, quoteAmount)
      case Err(f) => Err(f)
      case Ok((gross, fee)) => SpendClamped(p, curve, buyer, gross, fee, minBaseAmount)
  }

  /** The rest of `buy_tokens_from_exact_quote` once the charge is clamped: the net
      of the fee buys the curve's output, which must reach `minBaseAmount`. */
  function SpendClamped(p: PoolRecord, curve: Curve, buyer: Pubkey, gross: u64, fee: u64,
                        minBaseAmount: u64): Result<(PoolRecord, TradeReceipt)>
  {
    if fee > gross then Err(ArithmeticPanic)
    else
      var inputQuote := gross - fee;
      var outputBase := curve.receivableOnBuy(p, inputQuote);
      if outputBase < minBaseAmount then Err(Program(TooFewOutputTokens))
      else ApplyBuy(p, buyer, outputBase, fee, inputQuote)
  }

  /** The quote and base amounts of `buy_exact_tokens_from_quote` before the fee: the
      curve's price of `baseAmount`, unless paying it would carry the real quote
      reserve past the threshold, in which case the remaining headroom and the base
      it buys. */
  function ClampExactBase(p: PoolRecord, curve: Curve, baseAmount: u64): Result<(u64, u64)> {
    var required := curve.requiredOnBuy(p, baseAmount);
    if p.realQuoteReserves + required > U64_MAX then Err(ArithmeticPanic)
    else if p.realQuoteReserves + required <= p.realQuoteThreshold then Ok((required, baseAmount))
    else if p.realQuoteThreshold < p.realQuoteReserves then Err(ArithmeticPanic)
    else
      var headroom := p.realQuoteThreshold - p.realQuoteReserves;
      Ok((headroom, curve.receivableOnBuy(p, headroom)))
  }

  /** `buy_exact_tokens_from_quote`: buy `baseAmount` base tokens, paying at most
      `maxQuoteAmount` (fee included). */
  function BuyExactBase(p: PoolRecord, cfg: MainStateRecord, curve: Curve, buyer: Pubkey,
                        baseAmount: u64, maxQuoteAmount: u64): Result<(PoolRecord, TradeReceipt)>
  {
    if p.complete then Err(Program(BondingCurveComplete))
    else if !(baseAmount > 0 && baseAmount <= p.realBaseReserves) then Err(Program(WrongBaseAmount))
    else
      match ClampExactBase(p, curve, baseAmount)
      case Err(f) => Err(f)
      case Ok((inputQuote, inputBase)) =>
        match CalculateTotalAmount(cfg.tradingFee, inputQuote)
        case Err(f) => Err(f)
        case Ok(total) =>
          var fee := CalculateTradingFee(cfg.tradingFee, total);
          if total > maxQuoteAmount then Err(Program(TooMuchInputQuote))
          else ApplyBuy(p, buyer, inputBase, fee, inputQuote)
  }

  // ---------------------------------------------------------------------------
  // sell

  /** `sell` of `baseAmount` base tokens for at least `minQuoteAmount` net quote.
      The seller's base balance is checked by an account constraint, before the
      handler runs. The curve's gross output leaves the pool: the fee to the fee
      recipient and the rest to the seller. */
  function SellBase(p: PoolRecord, cfg: MainStateRecord, curve: Curve, seller: Pubkey, sellerBaseBalance: u64,
                    baseAmount: u64, minQuoteAmount: u64): Result<(PoolRecord, TradeReceipt)>
  {
    if !CheckBalance(sellerBaseBalance, baseAmount) then Err(Program(InsufficientFund))
    else if baseAmount == 0 then Err(Program(WrongBaseAmount))
    else if p.complete then Err(Program(BondingCurveComplete))
    else
      var gross := curve.receivableOnSell(p, baseAmount);
      var fee := CalculateTradingFee(cfg.tradingFee, gross);
      if fee > gross then Err(ArithmeticPanic)
      else
        var net := gross - fee;
        if net < minQuoteAmount then Err(Program(TooLowOutputQuote))
        else if p.realBaseReserves + baseAmount > U64_MAX || gross > p.realQuoteReserves then Err(ArithmeticPanic)
        else
          var q := p.(realBaseReserves := p.realBaseReserves + baseAmount,
                      realQuoteReserves := p.realQuoteReserves - gross);
          if q.realBaseReserves + q.virtBaseReserves > U64_MAX || q.virtQuoteReserves + q.realQuoteReserves > U64_MAX
          then Err(ArithmeticPanic)
          else
            Ok((q, TradeReceipt(
              [Transfer(BaseToken, Trader, PoolCustody, baseAmount),
               Transfer(QuoteToken, PoolCustody, FeeRecipient, fee),
               Transfer(QuoteToken, PoolCustody, Trader, net)],
              TradeEvent(seller, p.baseMint, baseAmount, net,
                         q.realBaseReserves + q.virtBaseReserves,
                         q.virtQuoteReserves + q.realQuoteReserves, false),
              None)))
  }

  // ---------------------------------------------------------------------------
  // withdraw

  /** `withdraw`: the configured withdrawer takes both real reserves of a completed
      curve. ali_pump_fun gates the signer with `has_one = withdrawer`, pump_fun with
      an `address` constraint reporting `Unauthorised`. A curve with either real
      reserve at zero counts as already withdrawn. */
  function WithdrawReserves(p: PoolRecord, cfg: MainStateRecord, variant: Variant, signer: Pubkey)
    : Result<(PoolRecord, WithdrawReceipt)>
  {
    if signer != cfg.withdrawer then
      (if variant == AliPumpFun then Err(ConstraintHasOne) else Err(Program(Unauthorised)))
    else if !p.complete then Err(Program(BondingCurveIncomplete))
    else if !(p.realBaseReserves > 0 && p.realQuoteReserves > 0) then Err(Program(BondingCurveAlreadyWithdrawn))
    else
      Ok((p.(realBaseReserves := 0, realQuoteReserves := 0), WithdrawReceipt(
        [Transfer(BaseToken, PoolCustody, Withdrawer, p.realBaseReserves),
         Transfer(QuoteToken, PoolCustody, Withdrawer, p.realQuoteReserves)],
        WithdrawEvent(signer, p.baseMint, p.realBaseReserves, p.realQuoteReserves))))
  }
}
