/** The program configuration (`MainState`): its record, the records its
    instructions emit, and the three configuration instructions as functions from
    the state before to the state after (or the failure). The account class that
    performs them in place is `ConfigAccount.MainState`. */
module Config {
  import opened Base
  import AliConstants
  import PumpFunConstants

  /** The address Anchor's zero-filled `init` leaves in an unwritten `Pubkey` field. */
  const ZERO_KEY: Pubkey := "11111111111111111111111111111111"

  datatype MainStateRecord = MainStateRecord(
    owner: Pubkey,
    withdrawer: Pubkey,
    feeRecipient: Pubkey,
    tradingFee: u64,
    totalSupply: u64,
    initVirtBaseReserves: u64,
    initVirtQuoteReserves: u64,
    realQuoteThreshold: u64)

  datatype MainStateInitialized = MainStateInitialized(
    owner: Pubkey,
    withdrawer: Pubkey,
    feeRecipient: Pubkey,
    tradingFee: u64,
    totalSupply: u64,
    initVirtBaseReserves: u64,
    initVirtQuoteReserves: u64,
    realQuoteThreshold: u64)

  /** `UpdateMainStateInput`: three mandatory fields and four optional overrides. */
  datatype UpdateMainStateInput = UpdateMainStateInput(
    withdrawer: Pubkey,
    feeRecipient: Pubkey,
    tradingFee: u64,
    totalSupply: Option<u64>,
    initVirtBaseReserves: Option<u64>,
    initVirtQuoteReserves: Option<u64>,
    realQuoteThreshold: Option<u64>)

  datatype MainStateUpdated = MainStateUpdated(
    withdrawer: Pubkey,
    feeRecipient: Pubkey,
    tradingFee: u64,
    totalSupply: u64,
    initVirtBaseReserves: u64,
    initVirtQuoteReserves: u64,
    realQuoteThreshold: u64)

  datatype OwnershipTransferred = OwnershipTransferred(previousOwner: Pubkey, newOwner: Pubkey)

  /** What the configuration instructions maintain: a fee within the 5% cap and
      positive supply, virtual reserves and threshold. */
  predicate ConfigInvariant(s: MainStateRecord) {
    && s.tradingFee <= AliConstants.MAX_TRADING_FEE
    && s.totalSupply > 0
    && s.initVirtBaseReserves > 0
    && s.initVirtQuoteReserves > 0
    && s.realQuoteThreshold > 0
  }

  /** `init_main_state` (ali_pump_fun). `accountExists` says whether the account at
      the fixed seed `main` is already allocated, `feeAtaExists` whether the owner's
      quote-token account (`fee_quote_ata`) is; either makes its `init` fail. */
  function InitMainState(signer: Pubkey, quoteMint: Pubkey, accountExists: bool, feeAtaExists: bool)
    : Result<(MainStateRecord, MainStateInitialized)>
  {
    if accountExists || feeAtaExists then Err(AccountAlreadyInUse)
    else if signer != AliConstants.DEFAULT_OWNER then Err(Program(Unauthorised))
    else if quoteMint != AliConstants.QUOTE_MINT_STR then Err(Program(UnknownQuoteMint))
    else
      var s := MainStateRecord(
        signer, signer, signer, 1 * AliConstants.FEE_PER_DIV,
        AliConstants.TOTAL_SUPPLY, AliConstants.INIT_VIRT_BASE_RESERVE,
        AliConstants.INIT_VIRT_QUOTE_RESERVE, AliConstants.REAL_QUOTE_THRESHOLD);
      Ok((s, MainStateInitialized(
        s.owner, s.withdrawer, s.feeRecipient, s.tradingFee, s.totalSupply,
        s.initVirtBaseReserves, s.initVirtQuoteReserves, s.realQuoteThreshold)))
  }

  /** `update_main_state` (pump_fun), including its account checks: the signer must be
      the stored owner (`has_one = owner`) and the quote mint must be wrapped SOL. */
  function UpdateMainState(s: MainStateRecord, signer: Pubkey, quoteMint: Pubkey, input: UpdateMainStateInput)
    : Result<(MainStateRecord, MainStateUpdated)>
  {
    if signer != s.owner then Err(ConstraintHasOne)
    else if quoteMint != PumpFunConstants.NATIVE_MINT_STR then Err(Program(UnknownToken))
    else if !(input.tradingFee >= 0 && input.tradingFee <= PumpFunConstants.MAX_TRADING_FEE) then Err(Program(InvalidFee))
    else if input.totalSupply == Some(0) then Err(Program(InvalidTotalSupply))
    else if input.initVirtBaseReserves == Some(0) then Err(Program(InvalidInitVirtBaseReserves))
    else if input.initVirtQuoteReserves == Some(0) then Err(Program(InvalidInitVirtQuoteReserves))
    else if input.realQuoteThreshold == Some(0) then Err(Program(InvalidRealQuoteThreshold))
    else
      var t := s.(
        withdrawer := input.withdrawer,
        feeRecipient := input.feeRecipient,
        tradingFee := input.tradingFee,
        totalSupply := input.totalSupply.UnwrapOr(s.totalSupply),
        initVirtBaseReserves := input.initVirtBaseReserves.UnwrapOr(s.initVirtBaseReserves),
        initVirtQuoteReserves := input.initVirtQuoteReserves.UnwrapOr(s.initVirtQuoteReserves),
        realQuoteThreshold := input.realQuoteThreshold.UnwrapOr(s.realQuoteThreshold));
      Ok((t, MainStateUpdated(
        input.withdrawer, input.feeRecipient, input.tradingFee,
        input.totalSupply.UnwrapOr(t.totalSupply),
        input.initVirtBaseReserves.UnwrapOr(t.initVirtBaseReserves),
        input.initVirtQuoteReserves.UnwrapOr(t.initVirtQuoteReserves),
        input.realQuoteThreshold.UnwrapOr(t.realQuoteThreshold))))
  }

  /** `transfer_ownership` (ali_pump_fun), with its `has_one = owner` check. */
  function TransferOwnership(s: MainStateRecord, signer: Pubkey, newOwner: Pubkey)
    : Result<(MainStateRecord, OwnershipTransferred)>
  {
    if signer != s.owner then Err(ConstraintHasOne)
    else if s.owner == newOwner then Err(Program(AlreadyBecameOwner))
    else Ok((s.(owner := newOwner), OwnershipTransferred(s.owner, newOwner)))
  }

  // ---------------------------------------------------------------------------
  // Properties

  /** Initialisation succeeds exactly for the default owner, the configured quote
      mint and unallocated accounts; it makes the signer owner, withdrawer and
      fee recipient, sets a 1% fee and the default amounts, establishes the
      invariant, and its record mirrors the stored fields. */
  lemma InitMainStateDefaults(signer: Pubkey, quoteMint: Pubkey, accountExists: bool, feeAtaExists: bool)
    ensures var r := InitMainState(signer, quoteMint, accountExists, feeAtaExists);
      && (r.Ok? <==>
            && !accountExists && !feeAtaExists
            && signer == AliConstants.DEFAULT_OWNER && quoteMint == AliConstants.QUOTE_MINT_STR)
      && (accountExists || feeAtaExists ==> r == Err(AccountAlreadyInUse))
      && (!accountExists && !feeAtaExists && signer != AliConstants.DEFAULT_OWNER
          ==> r == Err(Program(Unauthorised)))
      && (!accountExists && !feeAtaExists && signer == AliConstants.DEFAULT_OWNER
          && quoteMint != AliConstants.QUOTE_MINT_STR
          ==> r == Err(Program(UnknownQuoteMint)))
      && (r.Ok? ==>
            var (s, ev) := r.value;
            && s.owner == signer && s.withdrawer == signer && s.feeRecipient == signer
            && s.tradingFee == 1000
            && s.totalSupply == AliConstants.TOTAL_SUPPLY
            && s.initVirtBaseReserves == AliConstants.INIT_VIRT_BASE_RESERVE
            && s.initVirtQuoteReserves == AliConstants.INIT_VIRT_QUOTE_RESERVE
            && s.realQuoteThreshold == AliConstants.REAL_QUOTE_THRESHOLD
            && ConfigInvariant(s)
            && ev == MainStateInitialized(s.owner, s.withdrawer, s.feeRecipient, s.tradingFee,
                                          s.totalSupply, s.initVirtBaseReserves,
                                          s.initVirtQuoteReserves, s.realQuoteThreshold))
  {
  }

  /** When the update fails and with which code: the owner gate, the wrapped-SOL
      quote mint, the fee cap, then a zero override in field order. */
  lemma UpdateMainStateFailures(s: MainStateRecord, signer: Pubkey, quoteMint: Pubkey, input: UpdateMainStateInput)
    ensures var r := UpdateMainState(s, signer, quoteMint, input);
      && (r.Ok? <==>
            && signer == s.owner
            && quoteMint == PumpFunConstants.NATIVE_MINT_STR
            && input.tradingFee <= PumpFunConstants.MAX_TRADING_FEE
            && input.totalSupply != Some(0)
            && input.initVirtBaseReserves != Some(0)
            && input.initVirtQuoteReserves != Some(0)
            && input.realQuoteThreshold != Some(0))
      && (signer != s.owner ==> r == Err(ConstraintHasOne))
      && (signer == s.owner && quoteMint != PumpFunConstants.NATIVE_MINT_STR ==> r == Err(Program(UnknownToken)))
      && ((signer == s.owner && quoteMint == PumpFunConstants.NATIVE_MINT_STR
           && input.tradingFee > PumpFunConstants.MAX_TRADING_FEE) ==> r == Err(Program(InvalidFee)))
      && (var gates := signer == s.owner && quoteMint == PumpFunConstants.NATIVE_MINT_STR
                       && input.tradingFee <= PumpFunConstants.MAX_TRADING_FEE;
          && (gates && input.totalSupply == Some(0) ==> r == Err(Program(InvalidTotalSupply)))
          && (gates && input.totalSupply != Some(0) && input.initVirtBaseReserves == Some(0)
              ==> r == Err(Program(InvalidInitVirtBaseReserves)))
          && (gates && input.totalSupply != Some(0) && input.initVirtBaseReserves != Some(0)
              && input.initVirtQuoteReserves == Some(0)
              ==> r == Err(Program(InvalidInitVirtQuoteReserves)))
          && (gates && input.totalSupply != Some(0) && input.initVirtBaseReserves != Some(0)
              && input.initVirtQuoteReserves != Some(0) && input.realQuoteThreshold == Some(0)
              ==> r == Err(Program(InvalidRealQuoteThreshold))))
  {
  }

  /** A successful update overwrites the withdrawer, fee recipient and fee, applies
      each override that is present, keeps every other field (the owner above all),
      preserves the invariant, and reports the values now stored. */
  lemma UpdateMainStateEffect(s: MainStateRecord, signer: Pubkey, quoteMint: Pubkey, input: UpdateMainStateInput)
    requires UpdateMainState(s, signer, quoteMint, input).Ok?
    ensures var (t, ev) := UpdateMainState(s, signer, quoteMint, input).value;
      && t.owner == s.owner
      && t.withdrawer == input.withdrawer
      && t.feeRecipient == input.feeRecipient
      && t.tradingFee == input.tradingFee
      && (input.totalSupply.None? ==> t.totalSupply == s.totalSupply)
      && (input.totalSupply.Some? ==> t.totalSupply == input.totalSupply.value > 0)
      && (input.initVirtBaseReserves.None? ==> t.initVirtBaseReserves == s.initVirtBaseReserves)
      && (input.initVirtBaseReserves.Some? ==> t.initVirtBaseReserves == input.initVirtBaseReserves.value > 0)
      && (input.initVirtQuoteReserves.None? ==> t.initVirtQuoteReserves == s.initVirtQuoteReserves)
      && (input.initVirtQuoteReserves.Some? ==> t.initVirtQuoteReserves == input.initVirtQuoteReserves.value > 0)
      && (input.realQuoteThreshold.None? ==> t.realQuoteThreshold == s.realQuoteThreshold)
      && (input.realQuoteThreshold.Some? ==> t.realQuoteThreshold == input.realQuoteThreshold.value > 0)
      && (ConfigInvariant(s) ==> ConfigInvariant(t))
      && ev == MainStateUpdated(t.withdrawer, t.feeRecipient, t.tradingFee, t.totalSupply,
                                t.initVirtBaseReserves, t.initVirtQuoteReserves, t.realQuoteThreshold)
  {
  }

  /** Ownership moves exactly when the current owner signs for a different owner;
      nothing else changes, the invariant is kept, and the record names both owners. */
  lemma TransferOwnershipEffect(s: MainStateRecord, signer: Pubkey, newOwner: Pubkey)
    ensures var r := TransferOwnership(s, signer, newOwner);
      && (r.Ok? <==> signer == s.owner && newOwner != s.owner)
      && (signer == s.owner && newOwner == s.owner ==> r == Err(Program(AlreadyBecameOwner)))
      && (signer != s.owner ==> r == Err(ConstraintHasOne))
      && (r.Ok? ==>
            && r.value.0 == s.(owner := newOwner)
            && r.value.1 == OwnershipTransferred(s.owner, newOwner)
            && (ConfigInvariant(s) ==> ConfigInvariant(r.value.0)))
  {
  }
}
