/** The `MainState` account as the programs hold it: one object whose fields the
    configuration instructions overwrite in place. Each method is proved against
    the matching function of `Config`. */
module ConfigAccount {
  import opened Base
  import opened Config
  import PumpFunConstants

  class MainState {
    var owner: Pubkey
    var withdrawer: Pubkey
    var feeRecipient: Pubkey
    var tradingFee: u64
    var totalSupply: u64
    var initVirtBaseReserves: u64
    var initVirtQuoteReserves: u64
    var realQuoteThreshold: u64

    /** The account's current contents. */
    function Record(): MainStateRecord
      reads this
    {
      MainStateRecord(owner, withdrawer, feeRecipient, tradingFee, totalSupply,
                      initVirtBaseReserves, initVirtQuoteReserves, realQuoteThreshold)
    }

    /** A freshly allocated account: `init` zero-fills its data. */
    constructor ()
      ensures Record() == MainStateRecord(ZERO_KEY, ZERO_KEY, ZERO_KEY, 0, 0, 0, 0, 0)
    {
      owner := ZERO_KEY;
      withdrawer := ZERO_KEY;
      feeRecipient := ZERO_KEY;
      tradingFee := 0;
      totalSupply := 0;
      initVirtBaseReserves := 0;
      initVirtQuoteReserves := 0;
      realQuoteThreshold := 0;
    }

    /** The host discarding an instruction's writes: the account returns to `saved`. */
    method Rollback(saved: MainStateRecord)
      modifies this
      ensures Record() == saved
    {
      owner := saved.owner;
      withdrawer := saved.withdrawer;
      feeRecipient := saved.feeRecipient;
      tradingFee := saved.tradingFee;
      totalSupply := saved.totalSupply;
      initVirtBaseReserves := saved.initVirtBaseReserves;
      initVirtQuoteReserves := saved.initVirtQuoteReserves;
      realQuoteThreshold := saved.realQuoteThreshold;
    }

    /** `update_main_state`: the mandatory fields are written first, then each present
        override is checked and written in turn, so a zero override met late finds
        earlier writes already made; the host's roll-back undoes them. */
    method UpdateMainState(signer: Pubkey, quoteMint: Pubkey, input: UpdateMainStateInput)
      returns (r: Result<MainStateUpdated>)
      modifies this
      ensures r == Reply(Config.UpdateMainState(old(Record()), signer, quoteMint, input))
      ensures Record() == Committed(old(Record()), Config.UpdateMainState(old(Record()), signer, quoteMint, input))
      ensures owner == old(owner)
      ensures ConfigInvariant(old(Record())) ==> ConfigInvariant(Record())
    {
      var saved := Record();
      if signer != owner {
        return Err(ConstraintHasOne);
      }
      if quoteMint != PumpFunConstants.NATIVE_MINT_STR {
        return Err(Program(UnknownToken));
      }
      if !(input.tradingFee >= 0 && input.tradingFee <= PumpFunConstants.MAX_TRADING_FEE) {
        return Err(Program(InvalidFee));
      }

      withdrawer := input.withdrawer;
      feeRecipient := input.feeRecipient;
      tradingFee := input.tradingFee;

      if input.totalSupply == Some(0) {
        Rollback(saved);
        return Err(Program(InvalidTotalSupply));
      }
      totalSupply := input.totalSupply.UnwrapOr(totalSupply);
      if input.initVirtBaseReserves == Some(0) {
        Rollback(saved);
        return Err(Program(InvalidInitVirtBaseReserves));
      }
      initVirtBaseReserves := input.initVirtBaseReserves.UnwrapOr(initVirtBaseReserves);
      if input.initVirtQuoteReserves == Some(0) {
        Rollback(saved);
        return Err(Program(InvalidInitVirtQuoteReserves));
      }
      initVirtQuoteReserves := input.initVirtQuoteReserves.UnwrapOr(initVirtQuoteReserves);
      if input.realQuoteThreshold == Some(0) {
        Rollback(saved);
        return Err(Program(InvalidRealQuoteThreshold));
      }
      realQuoteThreshold := input.realQuoteThreshold.UnwrapOr(realQuoteThreshold);

      r := Ok(MainStateUpdated(
        input.withdrawer, input.feeRecipient, input.tradingFee,
        input.totalSupply.UnwrapOr(totalSupply),
        input.initVirtBaseReserves.UnwrapOr(initVirtBaseReserves),
        input.initVirtQuoteReserves.UnwrapOr(initVirtQuoteReserves),
        input.realQuoteThreshold.UnwrapOr(realQuoteThreshold)));
    }

    /** `transfer_ownership`: only the owner field changes. */
    method TransferOwnership(signer: Pubkey, newOwner: Pubkey) returns (r: Result<OwnershipTransferred>)
      modifies this
      ensures r == Reply(Config.TransferOwnership(old(Record()), signer, newOwner))
      ensures Record() == Committed(old(Record()), Config.TransferOwnership(old(Record()), signer, newOwner))
      ensures r.Ok? ==> Record() == old(Record()).(owner := newOwner)
      ensures ConfigInvariant(old(Record())) ==> ConfigInvariant(Record())
    {
      if signer != owner {
        return Err(ConstraintHasOne);
      }
      if owner == newOwner {
        return Err(Program(AlreadyBecameOwner));
      }
      var previousOwner := owner;
      owner := newOwner;
      r := Ok(OwnershipTransferred(previousOwner, newOwner));
    }
  }
}
