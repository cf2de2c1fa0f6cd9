/** The `PoolState` account as the program holds it: one object per pool whose
    reserve fields the trade and withdraw instructions update in place, step by
    step as the handlers do. Each method is proved against the matching function
    of `PoolModel`, and through the lemmas of `PoolProperties` keeps the pool
    invariant. */
module PoolAccount {
  import opened Base
  import opened Fees
  import opened Config
  import opened PoolModel
  import PoolProperties
  import PoolRuns
  import ConfigAccount

  class PoolState {
    var owner: Pubkey
    var baseMint: Pubkey
    var quoteMint: Pubkey
    var realBaseReserves: u64
    var virtBaseReserves: u64
    var realQuoteReserves: u64
    var virtQuoteReserves: u64
    var realQuoteThreshold: u64
    var complete: bool

    /** The account's current contents. */
    function Record(): PoolRecord
      reads this
    {
      PoolRecord(owner, baseMint, quoteMint, realBaseReserves, virtBaseReserves,
                 realQuoteReserves, virtQuoteReserves, realQuoteThreshold, complete)
    }

    /** A freshly allocated account: `init` zero-fills its data. */
    constructor ()
      ensures Record() == PoolRecord(ZERO_KEY, ZERO_KEY, ZERO_KEY, 0, 0, 0, 0, 0, false)
    {
      owner := ZERO_KEY;
      baseMint := ZERO_KEY;
      quoteMint := ZERO_KEY;
      realBaseReserves := 0;
      virtBaseReserves := 0;
      realQuoteReserves := 0;
      virtQuoteReserves := 0;
      realQuoteThreshold := 0;
      complete := false;
    }

    /** The host discarding an instruction's writes: the account returns to `saved`. */
    method Rollback(saved: PoolRecord)
      modifies this
      ensures Record() == saved
    {
      owner := saved.owner;
      baseMint := saved.baseMint;
      quoteMint := saved.quoteMint;
      realBaseReserves := saved.realBaseReserves;
      virtBaseReserves := saved.virtBaseReserves;
      realQuoteReserves := saved.realQuoteReserves;
      virtQuoteReserves := saved.virtQuoteReserves;
      realQuoteThreshold := saved.realQuoteThreshold;
      complete := saved.complete;
    }

    /** `buy_finalize`, called once the reserves are updated; `saved` is the pool as
        it was before the instruction, which a failure here restores. */
    method BuyFinalize(saved: PoolRecord, buyer: Pubkey, baseAmount: u64, fee: u64, inputQuoteAmount: u64)
      returns (r: Result<TradeReceipt>)
      modifies this
      ensures r == Reply(FinalizeBuy(old(Record()), buyer, baseAmount, fee, inputQuoteAmount))
      ensures Record() == Committed(saved, FinalizeBuy(old(Record()), buyer, baseAmount, fee, inputQuoteAmount))
    {
      var transfers := [Transfer(QuoteToken, Trader, FeeRecipient, fee),
                        Transfer(QuoteToken, Trader, PoolCustody, inputQuoteAmount),
                        Transfer(BaseToken, PoolCustody, Trader, baseAmount)];
      if fee + inputQuoteAmount > U64_MAX
         || realBaseReserves + virtBaseReserves > U64_MAX
         || virtQuoteReserves + realQuoteReserves > U64_MAX
      {
        Rollback(saved);
        return Err(ArithmeticPanic);
      }
      var trade := TradeEvent(buyer, baseMint, baseAmount, fee + inputQuoteAmount,
                              realBaseReserves + virtBaseReserves,
                              virtQuoteReserves + realQuoteReserves, true);
      var completion: Option<CompleteEvent> := None;
      if realQuoteReserves >= realQuoteThreshold {
        complete := true;
        completion := Some(CompleteEvent(baseMint));
      }
      r := Ok(TradeReceipt(transfers, trade, completion));
    }

    /** The clamp of `buy_tokens_from_exact_quote`: the offered gross amount and its
        fee, cut to the gross whose net exactly fills the headroom when the offer's
        net would carry the real quote reserve past the threshold. */
    method ClampQuote(tradingFee: u64, quoteAmount: u64) returns (c: Result<(u64, u64)>)
      ensures c == ClampExactQuote(Record(), tradingFee, quoteAmount)
      ensures c.Ok? ==> c.value.1 <= c.value.0
    {
      var amount := quoteAmount;
      var fee := CalculateTradingFee(tradingFee, amount);
      if fee > amount || realQuoteReserves + (amount - fee) > U64_MAX {
        return Err(ArithmeticPanic);
      }
      if realQuoteReserves + (amount - fee) > realQuoteThreshold {
        if realQuoteThreshold < realQuoteReserves {
          return Err(ArithmeticPanic);
        }
        var total := CalculateTotalAmount(tradingFee, realQuoteThreshold - realQuoteReserves);
        if total.Err? {
          return Err(total.fault);
        }
        amount := total.value;
        fee := CalculateTradingFee(tradingFee, amount);
      }
      c := Ok((amount, fee));
    }

    /** `buy_tokens_from_exact_quote`. */
    method BuyTokensFromExactQuote(config: ConfigAccount.MainState, curve: Curve, buyer: Pubkey,
                                   quoteAmount: u64, minBaseAmount: u64)
      returns (r: Result<TradeReceipt>)
      modifies this
      ensures r == Reply(BuyFromExactQuote(old(Record()), config.Record(), curve, buyer, quoteAmount, minBaseAmount))
      ensures Record() == Committed(old(Record()),
                                    BuyFromExactQuote(old(Record()), config.Record(), curve, buyer, quoteAmount, minBaseAmount))
      ensures PoolInvariant(old(Record())) ==> PoolInvariant(Record())
    {
      var saved := Record();
      if quoteAmount == 0 {
        return Err(Program(WrongQuoteAmount));
      }
      if complete {
        return Err(Program(BondingCurveComplete));
      }

      var clamp := ClampQuote(config.tradingFee, quoteAmount);
      assert clamp == ClampExactQuote(saved, config.tradingFee, quoteAmount);
      if clamp.Err? {
        assert BuyFromExactQuote(saved, config.Record(), curve, buyer, quoteAmount, minBaseAmount) == Err(clamp.fault);
        return Err(clamp.fault);
      }
      var (amount, fee) := clamp.value;
      assert BuyFromExactQuote(saved, config.Record(), curve, buyer, quoteAmount, minBaseAmount)
          == SpendClamped(saved, curve, buyer, amount, fee, minBaseAmount);

      var inputQuoteAmount := amount - fee;
      var outputBaseAmount := curve.receivableOnBuy(Record(), inputQuoteAmount);
      if outputBaseAmount < minBaseAmount {
        return Err(Program(TooFewOutputTokens));
      }

      realQuoteReserves := realQuoteReserves + inputQuoteAmount;
      if outputBaseAmount > realBaseReserves {
        Rollback(saved);
        return Err(ArithmeticPanic);
      }
      realBaseReserves := realBaseReserves - outputBaseAmount;
      assert SpendClamped(saved, curve, buyer, amount, fee, minBaseAmount)
          == ApplyBuy(saved, buyer, outputBaseAmount, fee, inputQuoteAmount);
      assert ApplyBuy(saved, buyer, outputBaseAmount, fee, inputQuoteAmount)
          == FinalizeBuy(Record(), buyer, outputBaseAmount, fee, inputQuoteAmount);

      r := BuyFinalize(saved, buyer, outputBaseAmount, fee, inputQuoteAmount);
      PoolRuns.StepPreserves(saved, curve, PoolRuns.BuyFromExactQuoteIx(config.Record(), buyer, quoteAmount, minBaseAmount));
    }

    /** `buy_exact_tokens_from_quote`. */
    method BuyExactTokensFromQuote(config: ConfigAccount.MainState, curve: Curve, buyer: Pubkey,
                                   baseAmount: u64, maxQuoteAmount: u64)
      returns (r: Result<TradeReceipt>)
      modifies this
      ensures r == Reply(BuyExactBase(old(Record()), config.Record(), curve, buyer, baseAmount, maxQuoteAmount))
      ensures Record() == Committed(old(Record()),
                                    BuyExactBase(old(Record()), config.Record(), curve, buyer, baseAmount, maxQuoteAmount))
      ensures PoolInvariant(old(Record())) ==> PoolInvariant(Record())
    {
      var saved := Record();
      if complete {
        return Err(Program(BondingCurveComplete));
      }
      if !(baseAmount > 0 && baseAmount <= realBaseReserves) {
        return Err(Program(WrongBaseAmount));
      }

      var inputBaseAmount := baseAmount;
      var inputQuoteAmount := curve.requiredOnBuy(Record(), inputBaseAmount);
      if realQuoteReserves + inputQuoteAmount > U64_MAX {
        return Err(ArithmeticPanic);
      }
      if realQuoteReserves + inputQuoteAmount > realQuoteThreshold {
        if realQuoteThreshold < realQuoteReserves {
          return Err(ArithmeticPanic);
        }
        inputQuoteAmount := realQuoteThreshold - realQuoteReserves;
        inputBaseAmount := curve.receivableOnBuy(Record(), inputQuoteAmount);
      }

      var total := CalculateTotalAmount(config.tradingFee, inputQuoteAmount);
      if total.Err? {
        return Err(total.fault);
      }
      var totalQuoteAmount := total.value;
      var fee := CalculateTradingFee(config.tradingFee, totalQuoteAmount);
      if totalQuoteAmount > maxQuoteAmount {
        return Err(Program(TooMuchInputQuote));
      }

      if inputBaseAmount > realBaseReserves {
        return Err(ArithmeticPanic);
      }
      assert ClampExactBase(saved, curve, baseAmount) == Ok((inputQuoteAmount, inputBaseAmount));
      realBaseReserves := realBaseReserves - inputBaseAmount;
      realQuoteReserves := realQuoteReserves + inputQuoteAmount;
      assert BuyExactBase(saved, config.Record(), curve, buyer, baseAmount, maxQuoteAmount)
          == FinalizeBuy(Record(), buyer, inputBaseAmount, fee, inputQuoteAmount);

      r := BuyFinalize(saved, buyer, inputBaseAmount, fee, inputQuoteAmount);
      PoolProperties.BuyExactBaseEffect(saved, config.Record(), curve, buyer, baseAmount, maxQuoteAmount);
    }

    /** `sell`, including the seller's balance constraint checked before the handler. */
    method Sell(config: ConfigAccount.MainState, curve: Curve, seller: Pubkey, sellerBaseBalance: u64,
                baseAmount: u64, minQuoteAmount: u64)
      returns (r: Result<TradeReceipt>)
      modifies this
      ensures r == Reply(SellBase(old(Record()), config.Record(), curve, seller, sellerBaseBalance, baseAmount, minQuoteAmount))
      ensures Record() == Committed(old(Record()),
                                    SellBase(old(Record()), config.Record(), curve, seller, sellerBaseBalance, baseAmount, minQuoteAmount))
      ensures PoolInvariant(old(Record())) ==> PoolInvariant(Record())
    {
      PoolProperties.SellEffect(Record(), config.Record(), curve, seller, sellerBaseBalance, baseAmount, minQuoteAmount);
      var saved := Record();
      if !CheckBalance(sellerBaseBalance, baseAmount) {
        return Err(Program(InsufficientFund));
      }
      if baseAmount == 0 {
        return Err(Program(WrongBaseAmount));
      }
      if complete {
        return Err(Program(BondingCurveComplete));
      }

      var inputBaseAmount := baseAmount;
      var grossOutput := curve.receivableOnSell(Record(), inputBaseAmount);
      var fee := CalculateTradingFee(config.tradingFee, grossOutput);
      if fee > grossOutput {
        return Err(ArithmeticPanic);
      }
      var outputAmount := grossOutput - fee;
      if outputAmount < minQuoteAmount {
        return Err(Program(TooLowOutputQuote));
      }

      if realBaseReserves + inputBaseAmount > U64_MAX {
        return Err(ArithmeticPanic);
      }
      realBaseReserves := realBaseReserves + inputBaseAmount;
      if grossOutput > realQuoteReserves {
        Rollback(saved);
        return Err(ArithmeticPanic);
      }
      realQuoteReserves := realQuoteReserves - grossOutput;

      var transfers := [Transfer(BaseToken, Trader, PoolCustody, inputBaseAmount),
                        Transfer(QuoteToken, PoolCustody, FeeRecipient, fee),
                        Transfer(QuoteToken, PoolCustody, Trader, outputAmount)];
      if realBaseReserves + virtBaseReserves > U64_MAX || virtQuoteReserves + realQuoteReserves > U64_MAX {
        Rollback(saved);
        return Err(ArithmeticPanic);
      }
      r := Ok(TradeReceipt(transfers,
                           TradeEvent(seller, baseMint, baseAmount, outputAmount,
                                      realBaseReserves + virtBaseReserves,
                                      virtQuoteReserves + realQuoteReserves, false),
                           None));
    }

    /** `withdraw` of either program; `variant` selects how the signer is gated. */
    method Withdraw(config: ConfigAccount.MainState, variant: Variant, signer: Pubkey)
      returns (r: Result<WithdrawReceipt>)
      modifies this
      ensures r == Reply(WithdrawReserves(old(Record()), config.Record(), variant, signer))
      ensures Record() == Committed(old(Record()), WithdrawReserves(old(Record()), config.Record(), variant, signer))
      ensures PoolInvariant(old(Record())) ==> PoolInvariant(Record())
    {
      PoolProperties.WithdrawEffect(Record(), config.Record(), variant, signer);
      if signer != config.withdrawer {
        return if variant == AliPumpFun then Err(ConstraintHasOne) else Err(Program(Unauthorised));
      }
      if !complete {
        return Err(Program(BondingCurveIncomplete));
      }
      if !(realBaseReserves > 0 && realQuoteReserves > 0) {
        return Err(Program(BondingCurveAlreadyWithdrawn));
      }

      var transfers := [Transfer(BaseToken, PoolCustody, Withdrawer, realBaseReserves),
                        Transfer(QuoteToken, PoolCustody, Withdrawer, realQuoteReserves)];
      var withdrawn := WithdrawEvent(signer, baseMint, realBaseReserves, realQuoteReserves);
      realBaseReserves := 0;
      realQuoteReserves := 0;
      r := Ok(WithdrawReceipt(transfers, withdrawn));
    }
  }
}
