/** The accounts one deployment of ali_pump_fun owns: at most one `MainState`, at
    the fixed seed `main`, and one `PoolState` per (base mint, quote mint) seed. The
    two instructions that allocate accounts live here, since their `init` fails
    exactly when the address is already taken. */
module Accounts {
  import opened Base
  import opened Config
  import opened PoolModel
  import AliConstants
  import ConfigAccount
  import PoolAccount

  /** The seed of a pool account after its fixed prefix. */
  datatype PoolKey = PoolKey(baseMint: Pubkey, quoteMint: Pubkey)

  class Deployment {
    var mainState: ConfigAccount.MainState?
    var pools: map<PoolKey, PoolAccount.PoolState>

    /** A deployment before any instruction: no accounts. */
    constructor ()
      ensures mainState == null && pools == map[]
    {
      mainState := null;
      pools := map[];
    }

    /** `init_main_state`: allocates the configuration account and fills it in.
        `feeAtaExists` says whether the owner's quote-token account, which the
        instruction also allocates, is already there. */
    method InitMainState(signer: Pubkey, quoteMint: Pubkey, feeAtaExists: bool)
      returns (r: Result<MainStateInitialized>)
      modifies this
      ensures pools == old(pools)
      ensures r == Reply(Config.InitMainState(signer, quoteMint, old(mainState) != null, feeAtaExists))
      ensures r.Err? ==> mainState == old(mainState)
      ensures r.Ok? ==>
        && mainState != null && fresh(mainState)
        && mainState.Record() == Config.InitMainState(signer, quoteMint, false, false).value.0
        && ConfigInvariant(mainState.Record())
    {
      if mainState != null || feeAtaExists {
        return Err(AccountAlreadyInUse);
      }
      if signer != AliConstants.DEFAULT_OWNER {
        return Err(Program(Unauthorised));
      }
      if quoteMint != AliConstants.QUOTE_MINT_STR {
        return Err(Program(UnknownQuoteMint));
      }
      var state := new ConfigAccount.MainState();
      state.owner := signer;
      state.withdrawer := signer;
      state.feeRecipient := signer;
      state.tradingFee := 1 * AliConstants.FEE_PER_DIV;
      state.totalSupply := AliConstants.TOTAL_SUPPLY;
      state.initVirtBaseReserves := AliConstants.INIT_VIRT_BASE_RESERVE;
      state.initVirtQuoteReserves := AliConstants.INIT_VIRT_QUOTE_RESERVE;
      state.realQuoteThreshold := AliConstants.REAL_QUOTE_THRESHOLD;
      mainState := state;
      r := Ok(MainStateInitialized(state.owner, state.withdrawer, state.feeRecipient, state.tradingFee,
                                   state.totalSupply, state.initVirtBaseReserves,
                                   state.initVirtQuoteReserves, state.realQuoteThreshold));
    }

    /** `create_pool`: the configuration must exist; the pool account at the seed
        (base mint, quote mint) must not, and nor may the pool's two token accounts
        (`reserveAtaExists` says whether either is already there). A new pool is registered only on success,
        every existing account is left alone, and the new pool satisfies the pool
        invariant. */
    method CreatePool(creator: Pubkey, baseMint: MintAccount, quoteMint: Pubkey, creatorBaseAmount: u64,
                      reserveAtaExists: bool)
      returns (r: Result<CreateReceipt>)
      modifies this
      ensures mainState == old(mainState)
      ensures old(mainState) == null ==> r == Err(AccountNotInitialized) && pools == old(pools)
      ensures old(mainState) != null ==>
        var key := PoolKey(baseMint.address, quoteMint);
        var outcome := InitializePool(mainState.Record(), key in old(pools), reserveAtaExists, creator, baseMint,
                                      quoteMint, creatorBaseAmount);
        && r == Reply(outcome)
        && (outcome.Err? ==> pools == old(pools))
        && (outcome.Ok? ==>
              && key in pools && fresh(pools[key])
              && pools == old(pools)[key := pools[key]]
              && pools[key].Record() == outcome.value.0
              && PoolInvariant(pools[key].Record()))
    {
      if mainState == null {
        return Err(AccountNotInitialized);
      }
      var cfg := mainState.Record();
      var key := PoolKey(baseMint.address, quoteMint);
      if key in pools || reserveAtaExists {
        return Err(AccountAlreadyInUse);
      }
      if baseMint.address == quoteMint {
        return Err(Program(InvalidTokenPair));
      }
      if quoteMint != AliConstants.QUOTE_MINT_STR {
        return Err(Program(UnknownQuoteMint));
      }

      var baseAmount := creatorBaseAmount;
      if baseAmount != baseMint.supply {
        return Err(Program(WrongBaseAmountOnCreation));
      }
      if baseAmount != cfg.totalSupply {
        return Err(Program(WrongBaseAmountOnCreation));
      }
      if baseMint.hasMintAuthority {
        return Err(Program(BaseTokenMustNotBeMintable));
      }
      if baseMint.hasFreezeAuthority {
        return Err(Program(BaseTokenMustNotBeFreezable));
      }

      var pool := new PoolAccount.PoolState();
      pool.owner := creator;
      pool.baseMint := baseMint.address;
      pool.quoteMint := quoteMint;
      pool.realBaseReserves := cfg.totalSupply;
      pool.virtBaseReserves := cfg.initVirtBaseReserves;
      pool.realQuoteReserves := 0;
      pool.virtQuoteReserves := cfg.initVirtQuoteReserves;
      pool.realQuoteThreshold := cfg.realQuoteThreshold;

      var transfers := [Transfer(BaseToken, Creator, PoolCustody, baseAmount)];
      if pool.realBaseReserves + pool.virtBaseReserves > U64_MAX {
        return Err(ArithmeticPanic);
      }
      assert mainState.Record() == cfg;
      assert InitializePool(cfg, false, false, creator, baseMint, quoteMint, creatorBaseAmount).value.0 == pool.Record();
      pools := pools[key := pool];
      r := Ok(CreateReceipt(transfers, CreateEvent(pool.owner, pool.baseMint,
                                                   pool.realBaseReserves + pool.virtBaseReserves,
                                                   pool.virtQuoteReserves)));
    }
  }
}
