/** Sequences of instructions on one pool, each committed or rolled back as the
    host does, and what holds along any such run: the invariant, the fixed terms,
    completion once reached, and at most one successful withdrawal. */
module PoolRuns {
  import opened Base
  import opened Config
  import opened PoolModel
  import PoolProperties

  /** One instruction after `create_pool`, with the configuration it reads. */
  datatype PoolInstruction =
    | BuyFromExactQuoteIx(cfg: MainStateRecord, buyer: Pubkey, quoteAmount: u64, minBaseAmount: u64)
    | BuyExactBaseIx(cfg: MainStateRecord, buyer: Pubkey, baseAmount: u64, maxQuoteAmount: u64)
    | SellIx(cfg: MainStateRecord, seller: Pubkey, sellerBaseBalance: u64, baseAmount: u64, minQuoteAmount: u64)
    | WithdrawIx(cfg: MainStateRecord, variant: Variant, signer: Pubkey)

  /** The pool the host keeps after `ix`: its result on success, the pool before on failure. */
  function Step(p: PoolRecord, curve: Curve, ix: PoolInstruction): PoolRecord {
    match ix
    case BuyFromExactQuoteIx(cfg, buyer, quoteAmount, minBaseAmount) =>
      Committed(p, BuyFromExactQuote(p, cfg, curve, buyer, quoteAmount, minBaseAmount))
    case BuyExactBaseIx(cfg, buyer, baseAmount, maxQuoteAmount) =>
      Committed(p, BuyExactBase(p, cfg, curve, buyer, baseAmount, maxQuoteAmount))
    case SellIx(cfg, seller, balance, baseAmount, minQuoteAmount) =>
      Committed(p, SellBase(p, cfg, curve, seller, balance, baseAmount, minQuoteAmount))
    case WithdrawIx(cfg, variant, signer) =>
      Committed(p, WithdrawReserves(p, cfg, variant, signer))
  }

  /** Whether `ix` is a withdrawal that succeeds on `p`. */
  predicate Withdraws(p: PoolRecord, ix: PoolInstruction) {
    ix.WithdrawIx? && WithdrawReserves(p, ix.cfg, ix.variant, ix.signer).Ok?
  }

  /** The pool after the instructions `ixs`, in order. */
  function Run(p: PoolRecord, curve: Curve, ixs: seq<PoolInstruction>): PoolRecord
    decreases |ixs|
  {
    if |ixs| == 0 then p else Run(Step(p, curve, ixs[0]), curve, ixs[1..])
  }

  /** How many of the instructions `ixs` are successful withdrawals. */
  function Withdrawals(p: PoolRecord, curve: Curve, ixs: seq<PoolInstruction>): nat
    decreases |ixs|
  {
    if |ixs| == 0 then 0
    else (if Withdraws(p, ixs[0]) then 1 else 0) + Withdrawals(Step(p, curve, ixs[0]), curve, ixs[1..])
  }

  /** A pool past its withdrawal: complete, with a real reserve at zero. */
  predicate Spent(p: PoolRecord) {
    p.complete && (p.realBaseReserves == 0 || p.realQuoteReserves == 0)
  }

  /** One instruction keeps the invariant and the terms, never undoes completion,
      and completes the curve only by filling it to the threshold. */
  lemma StepPreserves(p: PoolRecord, curve: Curve, ix: PoolInstruction)
    requires PoolInvariant(p)
    ensures var q := Step(p, curve, ix);
      && PoolInvariant(q)
      && SameTerms(p, q)
      && (p.complete ==> q.complete)
      && (!p.complete && q.complete ==> q.realQuoteReserves == q.realQuoteThreshold)
  {
    match ix
    case BuyFromExactQuoteIx(cfg, buyer, quoteAmount, minBaseAmount) =>
      PoolProperties.BuyFromExactQuoteEffect(p, cfg, curve, buyer, quoteAmount, minBaseAmount);
    case BuyExactBaseIx(cfg, buyer, baseAmount, maxQuoteAmount) =>
      PoolProperties.BuyExactBaseEffect(p, cfg, curve, buyer, baseAmount, maxQuoteAmount);
    case SellIx(cfg, seller, balance, baseAmount, minQuoteAmount) =>
      PoolProperties.SellEffect(p, cfg, curve, seller, balance, baseAmount, minQuoteAmount);
    case WithdrawIx(cfg, variant, signer) =>
      PoolProperties.WithdrawEffect(p, cfg, variant, signer);
  }

  /** Along any run the invariant holds, the creator, mints, virtual reserves and
      threshold never change, and a completed curve stays complete. */
  lemma {:induction false} RunPreserves(p: PoolRecord, curve: Curve, ixs: seq<PoolInstruction>)
    requires PoolInvariant(p)
    ensures PoolInvariant(Run(p, curve, ixs))
    ensures SameTerms(p, Run(p, curve, ixs))
    ensures p.complete ==> Run(p, curve, ixs).complete
    decreases |ixs|
  {
    if |ixs| > 0 {
      StepPreserves(p, curve, ixs[0]);
      RunPreserves(Step(p, curve, ixs[0]), curve, ixs[1..]);
    }
  }

  /** A spent pool stays spent and no withdrawal succeeds on it; a successful
      withdrawal leaves a spent pool. */
  lemma StepFromSpent(p: PoolRecord, curve: Curve, ix: PoolInstruction)
    ensures Spent(p) ==> Spent(Step(p, curve, ix)) && !Withdraws(p, ix)
    ensures Withdraws(p, ix) ==> Spent(Step(p, curve, ix))
  {
    if Spent(p) {
      match ix
      case BuyFromExactQuoteIx(cfg, buyer, quoteAmount, minBaseAmount) =>
        PoolProperties.CompletionGatesTrading(p, cfg, curve, buyer, quoteAmount, minBaseAmount, 0);
      case BuyExactBaseIx(cfg, buyer, baseAmount, maxQuoteAmount) =>
        PoolProperties.CompletionGatesTrading(p, cfg, curve, buyer, baseAmount, maxQuoteAmount, 0);
      case SellIx(cfg, seller, balance, baseAmount, minQuoteAmount) =>
        PoolProperties.CompletionGatesTrading(p, cfg, curve, seller, baseAmount, minQuoteAmount, balance);
      case WithdrawIx(cfg, variant, signer) =>
    }
  }

  lemma {:induction false} SpentRunHasNoWithdrawal(p: PoolRecord, curve: Curve, ixs: seq<PoolInstruction>)
    requires Spent(p)
    ensures Withdrawals(p, curve, ixs) == 0
    decreases |ixs|
  {
    if |ixs| > 0 {
      StepFromSpent(p, curve, ixs[0]);
      SpentRunHasNoWithdrawal(Step(p, curve, ixs[0]), curve, ixs[1..]);
    }
  }

  /** The reserves of a pool can be withdrawn at most once, over any sequence of
      instructions. */
  lemma {:induction false} AtMostOneWithdrawal(p: PoolRecord, curve: Curve, ixs: seq<PoolInstruction>)
    ensures Withdrawals(p, curve, ixs) <= 1
    decreases |ixs|
  {
    if |ixs| > 0 {
      StepFromSpent(p, curve, ixs[0]);
      if Withdraws(p, ixs[0]) {
        SpentRunHasNoWithdrawal(Step(p, curve, ixs[0]), curve, ixs[1..]);
      } else {
        AtMostOneWithdrawal(Step(p, curve, ixs[0]), curve, ixs[1..]);
      }
    }
  }

  /** From creation on, every pool satisfies the invariant and keeps the terms it
      was created with. */
  lemma CreatedPoolRuns(cfg: MainStateRecord, creator: Pubkey, baseMint: MintAccount, quoteMint: Pubkey,
                        creatorBaseAmount: u64, curve: Curve, ixs: seq<PoolInstruction>)
    requires InitializePool(cfg, false, false, creator, baseMint, quoteMint, creatorBaseAmount).Ok?
    ensures var p := InitializePool(cfg, false, false, creator, baseMint, quoteMint, creatorBaseAmount).value.0;
      && PoolInvariant(Run(p, curve, ixs))
      && Run(p, curve, ixs).realQuoteReserves <= cfg.realQuoteThreshold
      && Run(p, curve, ixs).virtBaseReserves == cfg.initVirtBaseReserves
      && Run(p, curve, ixs).virtQuoteReserves == cfg.initVirtQuoteReserves
      && Withdrawals(p, curve, ixs) <= 1
  {
    var p := InitializePool(cfg, false, false, creator, baseMint, quoteMint, creatorBaseAmount).value.0;
    PoolProperties.InitializePoolEffect(cfg, false, false, creator, baseMint, quoteMint, creatorBaseAmount);
    RunPreserves(p, curve, ixs);
    AtMostOneWithdrawal(p, curve, ixs);
  }
}
