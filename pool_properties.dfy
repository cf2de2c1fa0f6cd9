/** What each pool instruction guarantees, for every pricing curve: when it fails
    and with which code, how the reserves move, that the reserves move by exactly
    what the transfers carry into and out of the pool, and that the pool invariant
    is kept. */
module PoolProperties {
  import opened Base
  import opened Fees
  import AliConstants
  import opened Config
  import opened PoolModel

  // ---------------------------------------------------------------------------
  // create_pool

  /** Pool creation succeeds exactly when every check passes; the new pool holds the
      creator's whole supply as real base reserve, no real quote, the configured
      virtual reserves and threshold, is not complete, satisfies the invariant, and
      the creator's single transfer fills the base reserve. */
  lemma InitializePoolEffect(cfg: MainStateRecord, poolExists: bool, reserveAtaExists: bool, creator: Pubkey,
                             baseMint: MintAccount, quoteMint: Pubkey, creatorBaseAmount: u64)
    ensures var r := InitializePool(cfg, poolExists, reserveAtaExists, creator, baseMint, quoteMint, creatorBaseAmount);
      && (r.Ok? <==>
            && !poolExists && !reserveAtaExists
            && baseMint.address != quoteMint
            && quoteMint == AliConstants.QUOTE_MINT_STR
            && creatorBaseAmount == baseMint.supply == cfg.totalSupply
            && !baseMint.hasMintAuthority
            && !baseMint.hasFreezeAuthority
            && cfg.totalSupply + cfg.initVirtBaseReserves <= U64_MAX)
      && (poolExists || reserveAtaExists ==> r == Err(AccountAlreadyInUse))
      && (var vacant := !poolExists && !reserveAtaExists;
          var pair := vacant && baseMint.address != quoteMint;
          var quote := pair && quoteMint == AliConstants.QUOTE_MINT_STR;
          var amount := quote && creatorBaseAmount == baseMint.supply == cfg.totalSupply;
          && (vacant && baseMint.address == quoteMint ==> r == Err(Program(InvalidTokenPair)))
          && (pair && quoteMint != AliConstants.QUOTE_MINT_STR ==> r == Err(Program(UnknownQuoteMint)))
          && (quote && !(creatorBaseAmount == baseMint.supply == cfg.totalSupply)
              ==> r == Err(Program(WrongBaseAmountOnCreation)))
          && (amount && baseMint.hasMintAuthority ==> r == Err(Program(BaseTokenMustNotBeMintable)))
          && (amount && !baseMint.hasMintAuthority && baseMint.hasFreezeAuthority
              ==> r == Err(Program(BaseTokenMustNotBeFreezable))))
      && (r.Ok? ==>
            var (p, rc) := r.value;
            && p.owner == creator && p.baseMint == baseMint.address && p.quoteMint == quoteMint
            && p.realBaseReserves == cfg.totalSupply
            && p.virtBaseReserves == cfg.initVirtBaseReserves
            && p.realQuoteReserves == 0
            && p.virtQuoteReserves == cfg.initVirtQuoteReserves
            && p.realQuoteThreshold == cfg.realQuoteThreshold
            && !p.complete
            && PoolInvariant(p)
            && NetInflow(rc.transfers, BaseToken, PoolCustody) == p.realBaseReserves
            && NetInflow(rc.transfers, BaseToken, Creator) == -(creatorBaseAmount as int)
            && NetInflow(rc.transfers, QuoteToken, PoolCustody) == 0
            && rc.created == CreateEvent(creator, baseMint.address,
                                         p.realBaseReserves + p.virtBaseReserves, p.virtQuoteReserves))
  {
  }

  // ---------------------------------------------------------------------------
  // buy

  /** What both buys leave behind: the terms are untouched, each real reserve moves
      by exactly the pool's net inflow of that token, the buyer pays the recorded
      quote amount and receives the recorded base amount, the record reports the new
      effective reserves, and the curve completes exactly when the real quote
      reserve reaches the threshold, with a `CompleteEvent` then and only then. */
  predicate BuyOutcome(p: PoolRecord, buyer: Pubkey, q: PoolRecord, rc: TradeReceipt) {
    && SameTerms(p, q)
    && q.realQuoteReserves == p.realQuoteReserves + NetInflow(rc.transfers, QuoteToken, PoolCustody)
    && q.realBaseReserves == p.realBaseReserves + NetInflow(rc.transfers, BaseToken, PoolCustody)
    && rc.trade.baseAmount == p.realBaseReserves - q.realBaseReserves
    && rc.trade.baseAmount == NetInflow(rc.transfers, BaseToken, Trader)
    && rc.trade.quoteAmount == -NetInflow(rc.transfers, QuoteToken, Trader)
    && rc.trade.quoteAmount == NetInflow(rc.transfers, QuoteToken, FeeRecipient)
                               + NetInflow(rc.transfers, QuoteToken, PoolCustody)
    && rc.trade.user == buyer && rc.trade.baseMint == p.baseMint && rc.trade.isBuy
    && rc.trade.baseReserves == q.realBaseReserves + q.virtBaseReserves
    && rc.trade.quoteReserves == q.virtQuoteReserves + q.realQuoteReserves
    && (q.complete <==> q.realQuoteReserves >= q.realQuoteThreshold)
    && (rc.completion.Some? <==> q.complete)
    && (rc.completion.Some? ==> rc.completion.value == CompleteEvent(p.baseMint))
  }

  /** The transfers of a buy, summed per party. */
  lemma FinalizeBuyTransfers(p: PoolRecord, buyer: Pubkey, baseAmount: u64, fee: u64, inputQuote: u64)
    requires FinalizeBuy(p, buyer, baseAmount, fee, inputQuote).Ok?
    ensures var ts := FinalizeBuy(p, buyer, baseAmount, fee, inputQuote).value.1.transfers;
      && NetInflow(ts, QuoteToken, PoolCustody) == inputQuote
      && NetInflow(ts, QuoteToken, FeeRecipient) == fee
      && NetInflow(ts, QuoteToken, Trader) == -(fee as int + inputQuote)
      && NetInflow(ts, BaseToken, PoolCustody) == -(baseAmount as int)
      && NetInflow(ts, BaseToken, Trader) == baseAmount
  {
    NetInflowOfThree(Transfer(QuoteToken, Trader, FeeRecipient, fee),
                     Transfer(QuoteToken, Trader, PoolCustody, inputQuote),
                     Transfer(BaseToken, PoolCustody, Trader, baseAmount));
  }

  /** The reserve update shared by both buys meets `BuyOutcome`, and any buy that
      succeeds leaves the invariant holding, whatever the pool before. */
  lemma ApplyBuyOutcome(p: PoolRecord, buyer: Pubkey, baseAmount: u64, fee: u64, inputQuote: u64)
    requires ApplyBuy(p, buyer, baseAmount, fee, inputQuote).Ok?
    requires !p.complete
    requires p.realQuoteReserves + inputQuote <= p.realQuoteThreshold
    ensures var (q, rc) := ApplyBuy(p, buyer, baseAmount, fee, inputQuote).value;
      && BuyOutcome(p, buyer, q, rc)
      && q.realQuoteReserves == p.realQuoteReserves + inputQuote
      && q.realBaseReserves == p.realBaseReserves - baseAmount
      && rc.trade.baseAmount == baseAmount
      && rc.trade.quoteAmount == fee + inputQuote
      && PoolInvariant(q)
  {
    var p1 := p.(realQuoteReserves := p.realQuoteReserves + inputQuote,
                 realBaseReserves := p.realBaseReserves - baseAmount);
    FinalizeBuyTransfers(p1, buyer, baseAmount, fee, inputQuote);
  }

  /** The clamp of `buy_tokens_from_exact_quote` never charges more than offered,
      takes the fee of the amount it charges, and never lets the net carry the real
      quote reserve past the threshold. When the offer's net fits under the
      threshold the charge is the whole offer; when it would overshoot (and the rate
      is at most 100%) the net lands exactly on the threshold. */
  lemma ClampExactQuoteBounds(p: PoolRecord, tradingFee: u64, quoteAmount: u64)
    requires ClampExactQuote(p, tradingFee, quoteAmount).Ok?
    ensures var (gross, fee) := ClampExactQuote(p, tradingFee, quoteAmount).value;
      && fee == CalculateTradingFee(tradingFee, gross)
      && fee <= gross <= quoteAmount
      && p.realQuoteReserves + (gross - fee) <= p.realQuoteThreshold
      && (p.realQuoteReserves + (quoteAmount - CalculateTradingFee(tradingFee, quoteAmount)) <= p.realQuoteThreshold
          ==> gross == quoteAmount && fee == CalculateTradingFee(tradingFee, quoteAmount))
      && (tradingFee <= FEE_DIVISOR
          && p.realQuoteReserves + (quoteAmount - CalculateTradingFee(tradingFee, quoteAmount)) > p.realQuoteThreshold
          ==> p.realQuoteReserves + (gross - fee) == p.realQuoteThreshold)
  {
    var fee0 := CalculateTradingFee(tradingFee, quoteAmount);
    if p.realQuoteReserves + (quoteAmount - fee0) > p.realQuoteThreshold {
      var headroom := p.realQuoteThreshold - p.realQuoteReserves;
      HeadroomGrossBelowOffer(tradingFee, quoteAmount, headroom);
      var gross := CalculateTotalAmount(tradingFee, headroom).value;
      assert ClampExactQuote(p, tradingFee, quoteAmount) == Ok((gross, CalculateTradingFee(tradingFee, gross)));
    }
  }

  /** `buy_tokens_from_exact_quote` fails with `WrongQuoteAmount` on a zero amount and
      with `BondingCurveComplete` on a completed curve; past the clamp, it fails with
      `TooFewOutputTokens` exactly when the curve's output for the net falls short
      of the minimum. On success the buyer never pays more than offered and gets at
      least the minimum; the reserves move as `BuyOutcome` says, by the net of the
      fee, and the invariant holds after. When the offer's net fits under the
      threshold the buyer pays exactly the offer and the reserve grows by its net;
      when it would overshoot (and the rate is at most 100%), the charge is cut so
      that the real quote reserve lands exactly on the threshold and the curve
      completes. */
  lemma BuyFromExactQuoteEffect(p: PoolRecord, cfg: MainStateRecord, curve: Curve, buyer: Pubkey,
                                quoteAmount: u64, minBaseAmount: u64)
    ensures var r := BuyFromExactQuote(p, cfg, curve, buyer, quoteAmount, minBaseAmount);
      && (quoteAmount == 0 ==> r == Err(Program(WrongQuoteAmount)))
      && (quoteAmount > 0 && p.complete ==> r == Err(Program(BondingCurveComplete)))
      && (var c := ClampExactQuote(p, cfg.tradingFee, quoteAmount);
          quoteAmount > 0 && !p.complete && c.Ok?
          && curve.receivableOnBuy(p, c.value.0 - c.value.1) < minBaseAmount
          ==> r == Err(Program(TooFewOutputTokens)))
      && (r.Ok? ==>
            var (q, rc) := r.value;
            var offerFee := CalculateTradingFee(cfg.tradingFee, quoteAmount);
            && BuyOutcome(p, buyer, q, rc)
            && PoolInvariant(q)
            && rc.trade.quoteAmount <= quoteAmount
            && (p.realQuoteReserves + (quoteAmount - offerFee) <= p.realQuoteThreshold ==>
                  && rc.trade.quoteAmount == quoteAmount
                  && q.realQuoteReserves == p.realQuoteReserves + (quoteAmount - offerFee))
            && rc.trade.baseAmount >= minBaseAmount
            && rc.trade.baseAmount == curve.receivableOnBuy(p, q.realQuoteReserves - p.realQuoteReserves)
            && rc.trade.quoteAmount - (q.realQuoteReserves - p.realQuoteReserves)
               == CalculateTradingFee(cfg.tradingFee, rc.trade.quoteAmount)
            && (cfg.tradingFee <= FEE_DIVISOR
                && p.realQuoteReserves + (quoteAmount - CalculateTradingFee(cfg.tradingFee, quoteAmount))
                   > p.realQuoteThreshold
                ==> q.realQuoteReserves == q.realQuoteThreshold && q.complete))
  {
    var r := BuyFromExactQuote(p, cfg, curve, buyer, quoteAmount, minBaseAmount);
    var c := ClampExactQuote(p, cfg.tradingFee, quoteAmount);
    if quoteAmount > 0 && !p.complete && c.Ok? {
      ClampExactQuoteBounds(p, cfg.tradingFee, quoteAmount);
    }
    if r.Ok? {
      var (gross, fee) := ClampExactQuote(p, cfg.tradingFee, quoteAmount).value;
      var inputQuote := gross - fee;
      var outputBase := curve.receivableOnBuy(p, inputQuote);
      assert r == ApplyBuy(p, buyer, outputBase, fee, inputQuote);
      ApplyBuyOutcome(p, buyer, outputBase, fee, inputQuote);
    }
  }

  /** `buy_exact_tokens_from_quote` fails with `BondingCurveComplete` on a completed
      curve and with `WrongBaseAmount` unless `0 < baseAmount <= realBaseReserves`;
      past the clamp and the gross-up, it fails with `TooMuchInputQuote` exactly
      when the grossed-up charge exceeds `maxQuoteAmount`. On success the reserves move as `BuyOutcome` says and the invariant holds
      after. If the curve's price fits under the threshold the buyer gets exactly
      `baseAmount` for that price; otherwise the price is cut to the headroom, the
      real quote reserve lands on the threshold and the curve completes. The charge
      is the gross-up of the net price and stays within `maxQuoteAmount` whenever
      the gross-up of the threshold itself fits in a `u64`. */
  lemma BuyExactBaseEffect(p: PoolRecord, cfg: MainStateRecord, curve: Curve, buyer: Pubkey,
                           baseAmount: u64, maxQuoteAmount: u64)
    ensures var r := BuyExactBase(p, cfg, curve, buyer, baseAmount, maxQuoteAmount);
      && (p.complete ==> r == Err(Program(BondingCurveComplete)))
      && (!p.complete && !(0 < baseAmount <= p.realBaseReserves) ==> r == Err(Program(WrongBaseAmount)))
      && (var c := ClampExactBase(p, curve, baseAmount);
          !p.complete && 0 < baseAmount <= p.realBaseReserves && c.Ok?
          && CalculateTotalAmount(cfg.tradingFee, c.value.0).Ok?
          && CalculateTotalAmount(cfg.tradingFee, c.value.0).value > maxQuoteAmount
          ==> r == Err(Program(TooMuchInputQuote)))
      && (r.Ok? ==>
            var (q, rc) := r.value;
            var paid := q.realQuoteReserves - p.realQuoteReserves;
            && BuyOutcome(p, buyer, q, rc)
            && PoolInvariant(q)
            && (p.realQuoteReserves + curve.requiredOnBuy(p, baseAmount) <= p.realQuoteThreshold ==>
                  rc.trade.baseAmount == baseAmount && paid == curve.requiredOnBuy(p, baseAmount))
            && (p.realQuoteReserves + curve.requiredOnBuy(p, baseAmount) > p.realQuoteThreshold ==>
                  q.realQuoteReserves == q.realQuoteThreshold && q.complete
                  && rc.trade.baseAmount == curve.receivableOnBuy(p, paid))
            && (GrossFits(cfg.tradingFee, p.realQuoteThreshold) ==>
                  && rc.trade.quoteAmount == CalculateTotalAmount(cfg.tradingFee, paid).value
                  && rc.trade.quoteAmount <= maxQuoteAmount))
  {
    var r := BuyExactBase(p, cfg, curve, buyer, baseAmount, maxQuoteAmount);
    if r.Ok? {
      var (inputQuote, inputBase) := ClampExactBase(p, curve, baseAmount).value;
      var total := CalculateTotalAmount(cfg.tradingFee, inputQuote).value;
      var fee := CalculateTradingFee(cfg.tradingFee, total);
      ApplyBuyOutcome(p, buyer, inputBase, fee, inputQuote);
      if GrossFits(cfg.tradingFee, p.realQuoteThreshold) {
        GrossUpMonotone(cfg.tradingFee, inputQuote, p.realQuoteThreshold);
      }
    }
  }

  /** Why the exact-base bound above needs `GrossFits`: at the 5% cap and a
      threshold of 17708874310761169551, the exact gross-up of the headroom is past
      2^64, the `as u64` cast of `calculate_total_amount` wraps it to
      194176253407468964, that wrapped total passes the `max_quote_amount` check,
      and the buyer is charged the full headroom plus fee, about 91 times the
      maximum. The curve here asks for one unit more than the headroom and gives one
      base token for it. */
  lemma ExactBaseChargeCanExceedMax(buyer: Pubkey)
    ensures
      var threshold := 17_708_874_310_761_169_551;
      var p := PoolRecord(buyer, "base", AliConstants.QUOTE_MINT_STR, 1000, 1000, 0, 1000, threshold, false);
      var cfg := MainStateRecord(buyer, buyer, buyer, 5000, 1000, 1000, 1000, threshold);
      var curve := Curve((q: PoolRecord, x: u64) => 1, (q: PoolRecord, x: u64) => threshold + 1,
                         (q: PoolRecord, x: u64) => 0);
      var maxQuoteAmount := 194_176_253_407_468_964;
      var r := BuyExactBase(p, cfg, curve, buyer, 1, maxQuoteAmount);
      && ConfigInvariant(cfg) && PoolInvariant(p)
      && !GrossFits(cfg.tradingFee, threshold)
      && r.Ok?
      && r.value.1.trade.quoteAmount == 17_718_583_123_431_542_999 > maxQuoteAmount
      && -NetInflow(r.value.1.transfers, QuoteToken, Trader) > maxQuoteAmount
  {
    var threshold := 17_708_874_310_761_169_551;
    var p := PoolRecord(buyer, "base", AliConstants.QUOTE_MINT_STR, 1000, 1000, 0, 1000, threshold, false);
    var cfg := MainStateRecord(buyer, buyer, buyer, 5000, 1000, 1000, 1000, threshold);
    var curve := Curve((q: PoolRecord, x: u64) => 1, (q: PoolRecord, x: u64) => threshold + 1,
                       (q: PoolRecord, x: u64) => 0);
    var maxQuoteAmount := 194_176_253_407_468_964;
    assert ClampExactBase(p, curve, 1) == Ok((threshold, 1));
    assert CalculateTotalAmount(5000, threshold) == Ok(maxQuoteAmount);
    assert CalculateTradingFee(5000, maxQuoteAmount) == 9_708_812_670_373_448;
    var r := BuyExactBase(p, cfg, curve, buyer, 1, maxQuoteAmount);
    ApplyBuyOutcome(p, buyer, 1, 9_708_812_670_373_448, threshold);
  }

  // ---------------------------------------------------------------------------
  // sell

  /** `sell` fails with `InsufficientFund` when the seller holds less than it sells,
      then with `WrongBaseAmount` on zero and `BondingCurveComplete` on a completed
      curve, then with `TooLowOutputQuote` when the net of the curve's gross output
      falls short of the minimum. On success the base reserve grows by the amount
      sold, the quote reserve shrinks by the curve's gross output, which leaves the
      pool split into the fee and the seller's net; the seller gets at least the
      minimum, nothing else changes, and the invariant is kept. */
  lemma SellEffect(p: PoolRecord, cfg: MainStateRecord, curve: Curve, seller: Pubkey, sellerBaseBalance: u64,
                   baseAmount: u64, minQuoteAmount: u64)
    ensures var r := SellBase(p, cfg, curve, seller, sellerBaseBalance, baseAmount, minQuoteAmount);
      && (sellerBaseBalance < baseAmount ==> r == Err(Program(InsufficientFund)))
      && (baseAmount == 0 ==> r == Err(Program(WrongBaseAmount)))
      && (0 < baseAmount <= sellerBaseBalance && p.complete ==> r == Err(Program(BondingCurveComplete)))
      && (var gross := curve.receivableOnSell(p, baseAmount);
          var fee := CalculateTradingFee(cfg.tradingFee, gross);
          0 < baseAmount <= sellerBaseBalance && !p.complete && fee <= gross && gross - fee < minQuoteAmount
          ==> r == Err(Program(TooLowOutputQuote)))
      && (r.Ok? ==>
            var (q, rc) := r.value;
            var gross := curve.receivableOnSell(p, baseAmount);
            var fee := CalculateTradingFee(cfg.tradingFee, gross);
            && SameTerms(p, q)
            && q.complete == p.complete == false
            && q.realBaseReserves == p.realBaseReserves + baseAmount
            && q.realQuoteReserves == p.realQuoteReserves - gross
            && NetInflow(rc.transfers, BaseToken, PoolCustody) == baseAmount
            && NetInflow(rc.transfers, BaseToken, Trader) == -(baseAmount as int)
            && NetInflow(rc.transfers, QuoteToken, PoolCustody) == q.realQuoteReserves - p.realQuoteReserves
            && NetInflow(rc.transfers, QuoteToken, FeeRecipient) == fee
            && NetInflow(rc.transfers, QuoteToken, Trader) == rc.trade.quoteAmount == gross - fee
            && rc.trade.quoteAmount >= minQuoteAmount
            && rc.trade == TradeEvent(seller, p.baseMint, baseAmount, gross - fee,
                                      q.realBaseReserves + q.virtBaseReserves,
                                      q.virtQuoteReserves + q.realQuoteReserves, false)
            && rc.completion.None?
            && (PoolInvariant(p) ==> PoolInvariant(q)))
  {
    var r := SellBase(p, cfg, curve, seller, sellerBaseBalance, baseAmount, minQuoteAmount);
    if r.Ok? {
      var ts := r.value.1.transfers;
      NetInflowOfThree(ts[0], ts[1], ts[2]);
      assert ts == [ts[0], ts[1], ts[2]];
    }
  }

  // ---------------------------------------------------------------------------
  // withdraw

  /** `withdraw` succeeds exactly when the configured withdrawer signs for a completed
      curve whose two real reserves are both positive. The signer gate reports
      `ConstraintHasOne` in ali_pump_fun and `Unauthorised` in pump_fun. On success
      both real reserves go to the withdrawer and are zeroed, nothing else changes,
      and the invariant is kept. */
  lemma WithdrawEffect(p: PoolRecord, cfg: MainStateRecord, variant: Variant, signer: Pubkey)
    ensures var r := WithdrawReserves(p, cfg, variant, signer);
      && (r.Ok? <==> signer == cfg.withdrawer && p.complete && p.realBaseReserves > 0 && p.realQuoteReserves > 0)
      && (signer != cfg.withdrawer && variant == AliPumpFun ==> r == Err(ConstraintHasOne))
      && (signer != cfg.withdrawer && variant == PumpFun ==> r == Err(Program(Unauthorised)))
      && (signer == cfg.withdrawer && !p.complete ==> r == Err(Program(BondingCurveIncomplete)))
      && (signer == cfg.withdrawer && p.complete && (p.realBaseReserves == 0 || p.realQuoteReserves == 0)
          ==> r == Err(Program(BondingCurveAlreadyWithdrawn)))
      && (r.Ok? ==>
            var (q, rc) := r.value;
            && q == p.(realBaseReserves := 0, realQuoteReserves := 0)
            && NetInflow(rc.transfers, BaseToken, Withdrawer) == p.realBaseReserves
            && NetInflow(rc.transfers, QuoteToken, Withdrawer) == p.realQuoteReserves
            && NetInflow(rc.transfers, BaseToken, PoolCustody) == -(p.realBaseReserves as int)
            && NetInflow(rc.transfers, QuoteToken, PoolCustody) == -(p.realQuoteReserves as int)
            && rc.withdrawn == WithdrawEvent(signer, p.baseMint, p.realBaseReserves, p.realQuoteReserves)
            && (PoolInvariant(p) ==> PoolInvariant(q)))
  {
    var r := WithdrawReserves(p, cfg, variant, signer);
    if r.Ok? {
      var ts := r.value.1.transfers;
      NetInflowOfTwo(ts[0], ts[1]);
      assert ts == [ts[0], ts[1]];
    }
  }

  /** A second withdrawal from the same pool fails, whoever signs and under either
      program, because the first left nothing in the reserves. */
  lemma WithdrawOnlyOnce(p: PoolRecord, cfg: MainStateRecord, variant: Variant, signer: Pubkey,
                         cfg2: MainStateRecord, variant2: Variant, signer2: Pubkey)
    requires WithdrawReserves(p, cfg, variant, signer).Ok?
    ensures var q := WithdrawReserves(p, cfg, variant, signer).value.0;
      WithdrawReserves(q, cfg2, variant2, signer2).Err?
  {
  }

  /** A completed curve whose base reserve has been bought out but which still holds
      quote cannot be withdrawn: the guard demands both reserves positive and
      reports `BondingCurveAlreadyWithdrawn`, so that quote stays in the pool. */
  lemma WithdrawBlockedWhenBaseDrained(p: PoolRecord, cfg: MainStateRecord, variant: Variant)
    requires p.complete && p.realBaseReserves == 0 && p.realQuoteReserves > 0
    ensures WithdrawReserves(p, cfg, variant, cfg.withdrawer) == Err(Program(BondingCurveAlreadyWithdrawn))
  {
  }

  /** No trade touches a completed curve, and a withdrawal needs one. */
  lemma CompletionGatesTrading(p: PoolRecord, cfg: MainStateRecord, curve: Curve, trader: Pubkey, amount: u64,
                               limit: u64, balance: u64)
    requires p.complete
    ensures BuyFromExactQuote(p, cfg, curve, trader, amount, limit).Err?
    ensures BuyExactBase(p, cfg, curve, trader, amount, limit).Err?
    ensures SellBase(p, cfg, curve, trader, balance, amount, limit).Err?
  {
  }

  // ---------------------------------------------------------------------------
  // Trades whose own arithmetic cannot panic

  /** The checked arithmetic of the `buy_tokens_from_exact_quote` handler never
      fails when the curve pays out at most the real base reserve, the fee is within
      the cap and the record sums have room: a buy then succeeds exactly when the
      curve's output for the clamped net reaches the buyer's minimum, and is refused
      with `TooFewOutputTokens` otherwise. */
  lemma BuyFromExactQuoteSafe(p: PoolRecord, cfg: MainStateRecord, curve: Curve, buyer: Pubkey,
                              quoteAmount: u64, minBaseAmount: u64)
    requires PoolInvariant(p) && !p.complete && quoteAmount > 0
    requires cfg.tradingFee <= AliConstants.MAX_TRADING_FEE
    requires forall x: u64 :: curve.receivableOnBuy(p, x) <= p.realBaseReserves
    requires p.realQuoteReserves + quoteAmount <= U64_MAX
    requires p.realBaseReserves + p.virtBaseReserves <= U64_MAX
    requires p.virtQuoteReserves + p.realQuoteThreshold <= U64_MAX
    ensures var r := BuyFromExactQuote(p, cfg, curve, buyer, quoteAmount, minBaseAmount);
      var c := ClampExactQuote(p, cfg.tradingFee, quoteAmount);
      && (r.Ok? || r == Err(Program(TooFewOutputTokens)))
      && c.Ok?
      && (r.Ok? <==> curve.receivableOnBuy(p, c.value.0 - c.value.1) >= minBaseAmount)
  {
    var c := ClampExactQuote(p, cfg.tradingFee, quoteAmount);
    assert c.Ok?;
    ClampExactQuoteBounds(p, cfg.tradingFee, quoteAmount);
  }

  /** Likewise for `buy_exact_tokens_from_quote`, when in addition the gross-up of the
      threshold fits in a `u64` and the curve's price of the requested amount does
      not overflow the reserve: the buy succeeds exactly when the grossed-up charge
      is within `maxQuoteAmount`, and is refused with `TooMuchInputQuote` otherwise. */
  lemma BuyExactBaseSafe(p: PoolRecord, cfg: MainStateRecord, curve: Curve, buyer: Pubkey,
                         baseAmount: u64, maxQuoteAmount: u64)
    requires PoolInvariant(p) && !p.complete && 0 < baseAmount <= p.realBaseReserves
    requires cfg.tradingFee <= AliConstants.MAX_TRADING_FEE
    requires GrossFits(cfg.tradingFee, p.realQuoteThreshold)
    requires forall x: u64 :: curve.receivableOnBuy(p, x) <= p.realBaseReserves
    requires p.realQuoteReserves + curve.requiredOnBuy(p, baseAmount) <= U64_MAX
    requires p.realBaseReserves + p.virtBaseReserves <= U64_MAX
    requires p.virtQuoteReserves + p.realQuoteThreshold <= U64_MAX
    ensures var r := BuyExactBase(p, cfg, curve, buyer, baseAmount, maxQuoteAmount);
      var c := ClampExactBase(p, curve, baseAmount);
      && (r.Ok? || r == Err(Program(TooMuchInputQuote)))
      && c.Ok? && CalculateTotalAmount(cfg.tradingFee, c.value.0).Ok?
      && (r.Ok? <==> CalculateTotalAmount(cfg.tradingFee, c.value.0).value <= maxQuoteAmount)
  {
    var (inputQuote, inputBase) := ClampExactBase(p, curve, baseAmount).value;
    GrossUpMonotone(cfg.tradingFee, inputQuote, p.realQuoteThreshold);
    var total := CalculateTotalAmount(cfg.tradingFee, inputQuote);
    assert total.Ok?;
    assert CalculateTradingFee(cfg.tradingFee, total.value) + inputQuote == total.value;
  }

  /** The checked arithmetic of the `sell` handler never fails when the curve pays
      out at most the real quote reserve, the fee is within the cap and the new
      effective base reserve fits: a sale by a holder then succeeds exactly when the
      net of the curve's gross output reaches the seller's minimum, and is refused
      with `TooLowOutputQuote` otherwise. */
  lemma SellSafe(p: PoolRecord, cfg: MainStateRecord, curve: Curve, seller: Pubkey, sellerBaseBalance: u64,
                 baseAmount: u64, minQuoteAmount: u64)
    requires !p.complete && 0 < baseAmount <= sellerBaseBalance
    requires cfg.tradingFee <= AliConstants.MAX_TRADING_FEE
    requires curve.receivableOnSell(p, baseAmount) <= p.realQuoteReserves
    requires p.realBaseReserves + baseAmount + p.virtBaseReserves <= U64_MAX
    requires p.virtQuoteReserves + p.realQuoteReserves <= U64_MAX
    ensures var r := SellBase(p, cfg, curve, seller, sellerBaseBalance, baseAmount, minQuoteAmount);
      var gross := curve.receivableOnSell(p, baseAmount);
      && (r.Ok? || r == Err(Program(TooLowOutputQuote)))
      && (r.Ok? <==> gross - CalculateTradingFee(cfg.tradingFee, gross) >= minQuoteAmount)
  {
  }

  // ---------------------------------------------------------------------------
  // A worked trade

  /** A first exact-quote buy of 1_000_000 quote units at the default 1% fee on a
      fresh pool with the default threshold pays 10_000 in fee and 990_000 into the
      reserve, and does not complete the curve. */
  lemma FirstBuyAtDefaultFee(p: PoolRecord, cfg: MainStateRecord, curve: Curve, buyer: Pubkey)
    requires cfg.tradingFee == 1000
    requires !p.complete && p.realQuoteReserves == 0
    requires p.realQuoteThreshold == AliConstants.REAL_QUOTE_THRESHOLD
    requires curve.receivableOnBuy(p, 990_000) <= p.realBaseReserves
    requires p.realBaseReserves + p.virtBaseReserves <= U64_MAX
    requires p.virtQuoteReserves + 990_000 <= U64_MAX
    ensures var r := BuyFromExactQuote(p, cfg, curve, buyer, 1_000_000, 0);
      && r.Ok?
      && r.value.0.realQuoteReserves == 990_000
      && r.value.0.realBaseReserves == p.realBaseReserves - curve.receivableOnBuy(p, 990_000)
      && !r.value.0.complete
      && r.value.1.transfers[0] == Transfer(QuoteToken, Trader, FeeRecipient, 10_000)
      && r.value.1.transfers[1] == Transfer(QuoteToken, Trader, PoolCustody, 990_000)
      && r.value.1.trade.quoteAmount == 1_000_000
  {
    assert CalculateTradingFee(1000, 1_000_000) == 10_000;
  }
}
