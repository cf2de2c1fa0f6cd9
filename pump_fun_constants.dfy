/** Constants of the `pump_fun` program (quote asset: wrapped SOL). */
module PumpFunConstants {
  import opened Base

  /** The wrapped-SOL mint: the only quote mint the configuration update accepts. */
  const NATIVE_MINT_STR: Pubkey := "So11111111111111111111111111111111111111112"

  const DEFAULT_OWNER: Pubkey := "G78JVtRk57Ra3p7PUV7fWoSNxa4TkUf4Qq8PWGzFckXY"

  /** Fee units per percent (a `u128` in the source). */
  const FEE_PER_DIV: nat := 1000

  /** Largest trading fee: 5%. */
  const MAX_TRADING_FEE: u64 := 5 * FEE_PER_DIV

  const TOTAL_SUPPLY: u64 := 1_000_000_000_000_000
  const INIT_VIRT_BASE_RESERVE: u64 := 63_529_411_764_705
  const INIT_VIRT_QUOTE_RESERVE: u64 := 28_000_000_000
  const REAL_QUOTE_THRESHOLD: u64 := 85_000_000_000

  lemma MaxFeeBelowDivisor()
    ensures MAX_TRADING_FEE == 5000
    ensures FEE_PER_DIV * 100 - MAX_TRADING_FEE == 95000 > 0
  {
  }

  lemma DefaultsFit()
    ensures TOTAL_SUPPLY > 0 && INIT_VIRT_BASE_RESERVE > 0
    ensures INIT_VIRT_QUOTE_RESERVE > 0 && REAL_QUOTE_THRESHOLD > 0
    ensures TOTAL_SUPPLY + INIT_VIRT_BASE_RESERVE <= U64_MAX
    ensures INIT_VIRT_QUOTE_RESERVE + REAL_QUOTE_THRESHOLD <= U64_MAX
  {
  }
}
