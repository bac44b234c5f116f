/** The protocol's contract strings (application arguments and state keys).
    Their byte values live in the repository's contract_strings module, which is
    not part of this model: each constant here holds its Python attribute name as a
    stand-in value, and no contract depends on that value beyond the constants
    being pairwise distinct where the model compares them. */
module ContractStrings {

  // application arguments of the manager and market calls
  const BURN := "burn"
  const MINT_TO_COLLATERAL := "mint_to_collateral"
  const SYNC_VAULT := "sync_vault"

  // manager global state
  const SUPPORTED_MARKET_COUNT := "supported_market_count"

  // manager local state of a user's primary account and of a storage account
  const USER_STORAGE_ADDRESS := "user_storage_address"
  const USER_GLOBAL_MAX_BORROW_IN_DOLLARS := "user_global_max_borrow_in_dollars"
  const USER_GLOBAL_BORROWED_IN_DOLLARS := "user_global_borrowed_in_dollars"

  // local-state key that marks a storage account (the b'ua' key)
  const USER_ADDRESS := "ua"

  // the market whose collateral is the ALGO governance vault, and the native asset
  const VAULT_SYMBOL := "vALGO"
  const ALGO_SYMBOL := "ALGO"
}
