/** Constants of the `ali_pump_fun` program (quote asset: the ALI token). */
module AliConstants {
  import opened Base

  /** The only quote mint a pool or the configuration may use. */
  const QUOTE_MINT_STR: Pubkey := "9wvorGtBJ8gyLorFTmwXWcymPoGVUBn6MRzHwFpCdCeC"

  /** The only signer allowed to initialise the configuration. */
  const DEFAULT_OWNER: Pubkey := "4Gstv5b2EhxrF5b11E8QiJ4oPa5dgRRrQCQ9tQKT4TZT"

  /** Fee units per percent (a `u128` in the source): a fee of 1000 is 1%. */
  const FEE_PER_DIV: nat := 1000

  /** Largest trading fee: 5%. */
  const MAX_TRADING_FEE: u64 := 5 * FEE_PER_DIV

  const TOTAL_SUPPLY: u64 := 1_000_000_000_000_000
  const INIT_VIRT_BASE_RESERVE: u64 := 66_666_666_000_000
  const INIT_VIRT_QUOTE_RESERVE: u64 := 100_000_00_000_000
  const REAL_QUOTE_THRESHOLD: u64 := 300_000_00_000_000

  /** The fee cap is 5% of the fee divisor `FEE_PER_DIV * 100`, which stays strictly
      above it, so grossing up an amount never divides by zero. */
  lemma MaxFeeBelowDivisor()
    ensures MAX_TRADING_FEE == 5000
    ensures MAX_TRADING_FEE * 100 == 5 * (FEE_PER_DIV * 100)
    ensures FEE_PER_DIV * 100 - MAX_TRADING_FEE == 95000 > 0
  {
  }

  /** The default amounts are positive and their sums (reported by the creation and
      trade records) fit in a `u64`. */
  lemma DefaultsFit()
    ensures TOTAL_SUPPLY > 0 && INIT_VIRT_BASE_RESERVE > 0
    ensures INIT_VIRT_QUOTE_RESERVE > 0 && REAL_QUOTE_THRESHOLD > 0
    ensures TOTAL_SUPPLY + INIT_VIRT_BASE_RESERVE <= U64_MAX
    ensures INIT_VIRT_QUOTE_RESERVE + REAL_QUOTE_THRESHOLD <= U64_MAX
  {
  }
}
