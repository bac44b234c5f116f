# Algofi lending SDK (v1): transaction groups, manager reader and client facade

This project models the core of the Algofi v1 Python SDK in Dafny and proves
properties of that model. The SDK builds Algorand transaction groups for the
Algofi lending protocol. It also reads the protocol's on-chain state through an
indexer.

The model covers three parts:

- **The group composers** for burn, supply-algos-to-vault and sync-vault.
  - Modules `BurnGroup`, `SupplyAlgosToVaultGroup` and `SyncVaultGroup`; the
    transaction descriptors are in `Txns`.
  - Each composer returns the prefix its `get_init_txns` call produces, then the
    protocol's fixed tail.
  - The tail is a manager call, then a market call, then (for burn and supply) a
    value transfer.
  - Properties are proved through an independent tail parser and a summary of
    the value each group moves:
    - the tail parses back to exactly the operands;
    - the group moves exactly the tail's value;
    - the manager call comes first.
- **The manager reader** (module `ManagerReader`, class `Manager`). It keeps a
  cached snapshot of the manager's global state, which the constructor and
  `UpdateGlobalState` refresh in place. It also has these pure readers:
  - the storage-address lookup: whitespace is stripped, then the text is
    base64-decoded and address-encoded;
  - the two-field storage state, with 0 defaults;
  - live-versus-historical routing on a truthy `block`.
- **The client facade**:
  - market and asset selection (`ClientMarkets`);
  - the user record, balance map, balance and storage-state getters
    (`ClientUser`). These are methods with loops, each proved against a spec
    function;
  - the paged storage-account scan (`ClientAccounts`). It is a method with
    nested loops, proved sound and complete against the pages it visits;
  - the operand selection, guards and liquidation fee of the `prepare_*`
    builders (`ClientPrepare`);
  - the governance commitment builder with the Algorand Foundation "af/gov1"
    note format (`GovernanceCommitment`). The note's round trip is proved.

How the environment is modelled:

- **Indexers.** `Network` holds the live and historical indexers. Each is a map
  keyed by the exact request, and a request that has no entry reads as an empty
  record.
- **algosdk helpers.** `b64decode`, `encode_address`,
  `get_application_address` and `b64encode` are uninterpreted function fields
  of `Sdk`. A `None` from `b64decode` stands for a decoding exception.
- **`get_init_txns`.** It is the uninterpreted function `Prepend.InitTxns`,
  applied to its keyword arguments.
- **algod's suggested params** are a parameter.
- **Address and block values.**
  - A Python `None` address and `""` are both the empty string, since the
    source tests them with `not address`.
  - A block is `Option<int>`, and it is truthy iff it is `Some(b)` with
    `b != 0`.
- **Python semantics written out explicitly:**
  - `str.strip` with Python's whitespace set (`PyText.Strip`);
  - `str(int)` (`PyText.IntToDecimal`, round trip proved);
  - a dict comprehension, where the last value wins;
  - `lst[:count]`, including a `TypeError` for a non-integer count;
  - `dict.get(k, 0)`.
- **Errors.** Every exception the core raises is a constructor of
  `Ledger.Error`. The operations return `Result` values in the order the source
  evaluates its arguments.

## Model

| member | source | states |
|---|---|---|
| BurnGroup.PrepareBurnTransactions | algofi/v1/burn.py:50-81 | the group is the prefix requested with type BURN and the caller's sender, params, manager id, market and oracle id lists and storage account, followed by exactly three more transactions |
| BurnGroup.BurnGroupLayout | algofi/v1/burn.py:59-80 | the tail parses back to exactly the operands, with one sender and one set of params throughout. It is a manager call with the single arg "burn" and no references, then a market call with foreign apps [manager], foreign assets [underlying asset] and accounts [storage account], then the transfer. Every tail transaction is within the reference limits |
| BurnGroup.BurnMovesOnlyBankAsset | algofi/v1/burn.py:74-80 | beyond its prefix, the group moves exactly `amount` of the bank asset from the sender to the market address, and nothing else |
| SupplyAlgosToVaultGroup.PrepareSupplyAlgosToVaultTransactions | algofi/v1/supply_algos_to_vault.py:41-67 | the prefix requested with type SUPPLY_ALGOS_TO_VAULT and the caller's operands, followed by exactly three more transactions |
| SupplyAlgosToVaultGroup.SupplyGroupLayout | algofi/v1/supply_algos_to_vault.py:50-66 | both calls carry "mint_to_collateral". The manager call comes before the market call. The market call references [manager] and [storage account] and no asset. The tail parses back to the operands |
| SupplyAlgosToVaultGroup.SupplyMovesOnlyAlgoToStorage | algofi/v1/supply_algos_to_vault.py:64-66 | beyond its prefix, the group pays exactly `amount` ALGO from the sender to the storage account, never to the market |
| SyncVaultGroup.PrepareSyncVaultTransactions | algofi/v1/sync_vault.py:31-54 | the prefix requested with type SYNC_VAULT and the caller's operands, followed by exactly two more transactions |
| SyncVaultGroup.SyncGroupLayout | algofi/v1/sync_vault.py:40-53 | two calls with the single arg "sync_vault", the manager first. The market call references [manager] and [storage account] and no asset. The tail parses back to the operands |
| SyncVaultGroup.SyncMovesNothing | algofi/v1/sync_vault.py:40-54 | the group moves no value beyond its prefix |
| PyText.Strip | algofi/v1/manager.py:96 | `str.strip()`: the result is a contiguous slice of the input, with only whitespace cut on either side, and it neither starts nor ends with whitespace |
| PyText.StripExact | algofi/v1/manager.py:96 | whitespace around a non-empty text that neither starts nor ends with whitespace is exactly what `strip` removes |
| PyText.StripIdempotent | algofi/v1/manager.py:96 | stripping a stripped text changes nothing |
| PyText.StripIgnoresPadding | algofi/v1/manager.py:96 | stripping text padded with whitespace gives the same result as stripping the bare text |
| PyText.IntToDecimalRoundTrip | algofi/v1/client.py:901-904 | `str(n)` reads back as `n` for every integer, negative ones included |
| ManagerReader.Manager.constructor | algofi/v1/manager.py:12-30 | the manager id and the application address are set, then the cache is filled from the live global state |
| ManagerReader.Manager.UpdateGlobalState | algofi/v1/manager.py:32-41 | both cached fields come from one global-state snapshot, read from the historical indexer iff the block is truthy. A missing count caches None |
| ManagerReader.Manager.GetSupportedMarketCount | algofi/v1/manager.py:69-80 | a truthy block reads the historical field; otherwise the result is the cached count |
| ManagerReader.Manager.GetStorageAddress | algofi/v1/manager.py:84-96 | fails with "No storage address found" exactly when the live local-state field is missing or falsy. A truthy integer fails (it has no `strip`), text that does not decode fails, and otherwise the result is the stored text, stripped, base64-decoded and address-encoded. It succeeds exactly for provisioned text that decodes |
| ManagerReader.Manager.GetStorageState | algofi/v1/manager.py:111-126 | exactly the two reported borrow keys, each holding the value stored under its state key in the record from the routed indexer, or 0 when missing |
| ManagerReader.Manager.GetUserState | algofi/v1/manager.py:98-109 | fails exactly when the storage address does not resolve; otherwise it is the storage state of that address at the block |
| ManagerReader.StorageAddressIgnoresPadding | algofi/v1/manager.py:92-96 | whitespace around the stored base64 text does not change the resolved address |
| ManagerReader.StorageStateRouting | algofi/v1/manager.py:121-123 | a live read (block None or 0) does not depend on the historical indexer, and a historical read does not depend on the live one |
| ManagerReader.UserStateResolvesAddressLive | algofi/v1/manager.py:84-109 | the storage address never depends on the historical indexer. A historical user state is the historical state of the address the live state names |
| ClientMarkets.ResolveAddress | algofi/v1/client.py:105-106 | `if not address: address = self.user_address`: a given address is kept, an unset one becomes the client user's |
| ClientMarkets.DefaultParams | algofi/v1/client.py:87-93 | the fee is 1000 and flat; every other suggested parameter is unchanged |
| ClientMarkets.GetMarket | algofi/v1/client.py:242-250 | the symbol's market, or a KeyError naming the symbol exactly when it has no market |
| ClientMarkets.ActiveMarketSymbols | algofi/v1/client.py:252-258 | the symbols of the active markets: `maxOrderedSymbols` (the market dict's insertion order) read at exactly the positions whose symbol is active, in increasing order |
| ClientMarkets.FirstActiveSymbol | algofi/v1/client.py:363-364 | the first active market is the first active symbol of `maxOrderedSymbols`, and there is one exactly when some symbol there is active |
| ClientMarkets.GetActiveMarkets | algofi/v1/client.py:252-258 | exactly the markets whose symbol is active, each with its own handle |
| ClientMarkets.ActiveMarketAppIds | algofi/v1/client.py:400-406 | one id per active market, in dict order, each that market's application id |
| ClientMarkets.ActiveOracleAppIds | algofi/v1/client.py:392-398 | one id per active market, in dict order, each that market's oracle id |
| ClientMarkets.GetAsset | algofi/v1/client.py:278-288 | "Unsupported asset" exactly for inactive symbols; otherwise the market's asset |
| ClientMarkets.ActiveMarketSymbolsDistinct | algofi/v1/client.py:252-258 | the active market list that the builders hand to the composers has no repeated market |
| ClientUser.UserInfoOf | algofi/v1/client.py:97-118 | "user_address has not been specified" exactly when no address is given or configured; a missing account fails. Otherwise the record has its missing local-state and asset lists filled in as empty, and everything present is kept |
| ClientUser.GetUserInfo | algofi/v1/client.py:97-118 | the in-place filling of the record gives `UserInfoOf` |
| ClientUser.HoldingsMapKeys | algofi/v1/client.py:162 | the keys of the comprehension are exactly the held asset ids |
| ClientUser.HoldingsMapLastWins | algofi/v1/client.py:162 | an id maps to the amount of its last holding in the list |
| ClientUser.BalancesOf | algofi/v1/client.py:151-164 | the keys are the held ids plus 1; key 1 holds the native amount even if an asset with id 1 is held, and every other key the amount of its last holding. A record without `amount` fails |
| ClientUser.GetUserBalances | algofi/v1/client.py:151-164 | the loop that fills the map gives `BalancesOf` |
| ClientUser.UserBalanceOf | algofi/v1/client.py:166-178 | the balance of a key present in the map, and 0 for an absent one |
| ClientUser.GetUserBalance | algofi/v1/client.py:166-178 | the method gives `UserBalanceOf` |
| ClientUser.UserBalanceMeaning | algofi/v1/client.py:162-178 | for the record, the balance is the native amount for id 1, the last holding's amount for a held asset, and 0 otherwise |
| ClientUser.SliceToCount | algofi/v1/client.py:211-212 | `lst[:count]`: the whole list for None, the first min(n, length) for an integer, and a TypeError for a byte string |
| ClientUser.FillMarketsContents | algofi/v1/client.py:213-214 | the fill fails exactly when a queried symbol has no market. Otherwise every queried symbol maps to its market's state, and every earlier key is kept |
| ClientUser.FillMarketsFailureSticks | algofi/v1/client.py:213-214 | the first symbol without a market decides the error |
| ClientUser.StorageAddressFor | algofi/v1/client.py:207-208 | `if not storage_address`: a given storage address is used as is, and an unset one is the manager's storage address for the client user (with its failures) |
| ClientUser.GetStorageState | algofi/v1/client.py:197-215 | the step-by-step fill gives `StorageStateOf` |
| ClientUser.FillActiveMarkets | algofi/v1/client.py:213-214 | the loop over the active symbols computes `FillMarkets`: each symbol gets its market's state in order, and the first symbol without a market fails the call with that symbol |
| ClientUser.StorageStateContents | algofi/v1/client.py:206-215 | "manager" is present iff asked for, besides exactly the first supported-count active symbols, each holding its market's state at that block. The call fails iff one of those symbols has no market |
| ClientAccounts.QueriedApp | algofi/v1/client.py:363-366 | the listed application is the first active market's, failing when there is no active market, or the named staking contract's manager, failing when the name is unknown |
| ClientAccounts.LastPage | algofi/v1/client.py:368-386 | the scan stops at the first page without a `next-token` and at no earlier page |
| ClientAccounts.GetStorageAccounts | algofi/v1/client.py:353-388 | the paging loop collects exactly the entries of the pages up to and including the first page without a `next-token` |
| ClientAccounts.CollectPages | algofi/v1/client.py:368-386 | the `while next_page is not None` loop, given that page `last` is the first without a `next-token`, collects the filtered entries of pages 0 to `last` in order |
| ClientAccounts.FilterPage | algofi/v1/client.py:371-382 | the nested loops over one page build that page's filtered list |
| ClientAccounts.FilterFields | algofi/v1/client.py:377-380 | the loop over one local state's fields appends the account once per field whose key is the user-address key |
| ClientAccounts.FilterAccount | algofi/v1/client.py:373-380 | one account is appended once per matching (manager local state, user-address field) pair |
| ClientAccounts.FieldMatchesPositive | algofi/v1/client.py:377-380 | a local state contributes iff one of its fields has the user-address key |
| ClientAccounts.LocalMatchesPositive | algofi/v1/client.py:374-380 | an account is appended iff it has a local state for the manager with a user-address field |
| ClientAccounts.FilteredMembers | algofi/v1/client.py:371-380 | a page's filter keeps exactly its storage accounts |
| ClientAccounts.PageEntriesMembers | algofi/v1/client.py:371-382 | a page contributes exactly the entries of its storage accounts: the record when verbose, the address otherwise |
| ClientAccounts.CollectedMembers | algofi/v1/client.py:368-386 | across pages, an entry is collected iff some visited page lists a storage account with that entry |
| ClientAccounts.StorageAccountsMembers | algofi/v1/client.py:353-388 | soundness and completeness: the result holds an entry iff a page up to the first one without a `next-token` lists a storage account with that entry |
| ClientPrepare.CommonOperands | algofi/v1/client.py:449-461 | every builder forwards the resolved sender, `get_default_params()` (the suggested params with a flat fee of 1000), the sender's live storage account, the manager id and the active market and oracle ids. It fails exactly when the storage account does not resolve |
| ClientPrepare.MarketOperands | algofi/v1/client.py:448-452 | the vALGO guard is checked first, then the market lookup, then the shared operands, and the first failure is the one reported |
| ClientPrepare.UnderlyingUnlessAlgo | algofi/v1/client.py:600 | the underlying asset id is omitted exactly for ALGO |
| ClientPrepare.PrepareAddCollateral | algofi/v1/client.py:436-461 | refuses vALGO; forwards the market's bank asset, application and address |
| ClientPrepare.PrepareBorrow | algofi/v1/client.py:463-488 | refuses vALGO; forwards the underlying asset and the market application |
| ClientPrepare.PrepareBurn | algofi/v1/client.py:490-516 | refuses vALGO. The group is the burn group for the symbol's market, with the underlying asset in the market call and the bank asset in the transfer |
| ClientPrepare.PrepareBurnMovesBankAsset | algofi/v1/client.py:490-516 | a burn built by the client moves exactly `amount` of the symbol's bank asset from the resolved sender to that market |
| ClientPrepare.PrepareMint | algofi/v1/client.py:574-600 | refuses vALGO; the underlying asset is omitted exactly for ALGO |
| ClientPrepare.PrepareMintToCollateral | algofi/v1/client.py:602-626 | no vALGO guard; the underlying asset is omitted exactly for ALGO |
| ClientPrepare.PrepareRemoveCollateral | algofi/v1/client.py:628-652 | refuses vALGO; forwards the bank asset |
| ClientPrepare.PrepareRemoveCollateralUnderlying | algofi/v1/client.py:654-677 | no vALGO guard; forwards the underlying asset |
| ClientPrepare.PrepareRepayBorrow | algofi/v1/client.py:679-704 | refuses vALGO; the underlying asset is omitted exactly for ALGO |
| ClientPrepare.PrepareLiquidate | algofi/v1/client.py:536-572 | looks up the borrow market, then the collateral market, then the shared operands. The update fee is 3000 iff the collateral is vALGO and 1000 otherwise. The borrow asset is omitted iff ALGO is repaid |
| ClientPrepare.PrepareRemoveAlgosFromVault | algofi/v1/client.py:825-846 | always the vALGO market; fails with a KeyError when the client has none |
| ClientPrepare.PrepareSupplyAlgosToVault | algofi/v1/client.py:802-823 | always the vALGO market; the group is the supply group for that market |
| ClientPrepare.PrepareSupplyPaysOwnVault | algofi/v1/client.py:802-823 | the ALGO a supply moves goes to the sender's own storage account |
| ClientPrepare.PrepareSyncVault | algofi/v1/client.py:848-866 | always the vALGO market; the group is the sync group and moves nothing beyond its prefix |
| ClientPrepare.VaultGuard | algofi/v1/client.py:436-704 | add_collateral, borrow, burn, mint, remove_collateral and repay_borrow refuse vALGO even when it is listed. mint_to_collateral, remove_collateral_underlying and liquidate accept it |
| GovernanceCommitment.CommitmentNoteRoundTrip | algofi/v1/client.py:896-904 | the note reads back as exactly the amount and the beneficiary, with no beneficiary part when there is no beneficiary |
| GovernanceCommitment.CommitmentNoteInjective | algofi/v1/client.py:896-904 | different commitments never produce the same note |
| GovernanceCommitment.GovernanceCall | algofi/v1/client.py:906-913 | forwards the shared operands, the governance address and the note `af/gov1:j{"com":N}` or `af/gov1:j{"com":N,"bnf":"B"}`, which reads back as the commitment |
| GovernanceCommitment.PrepareGovernanceCommitment | algofi/v1/client.py:868-913 | the documented behaviour: with the check on, a commitment above the vault's ALGO balance is refused and an accepted one is within it. With the check off, no balance is read |
| GovernanceCommitment.PrepareGovernanceCommitmentAsWritten | algofi/v1/client.py:886-894 | as written, the result is always the checked one, whatever the flag says |
| GovernanceCommitment.CheckFlagIgnored | algofi/v1/client.py:868-894 | with the flag off and a commitment above the balance, the code as written refuses, while the documented behaviour builds the group |

## Left out

- Network I/O is not modelled:
  - the indexer and algod calls (`read_local_state`, `read_global_state`, `account_info`, `accounts`, `suggested_params`);
  - `send_transactions` and `wait_for_confirmation`;
  - `submit`, including its `AlgodHTTPError` handling.

  Their answers are parameters, and `read_*_state` is assumed to return the stored record, or an empty one for an unknown request.
- ManagerReader.Manager.GetSupportedMarketCount: utils.py is not part of this model, so on a truthy block `get_global_state_field` is modelled as the field of the historical global state at that block, `Get(ReadGlobalState(historical, app, block), key)`, and None when the field is missing.
- The algosdk transaction constructors, `TransactionGroup` and group-id assignment are left out: a group is the ordered list of descriptors.
- The reference-packing algorithm of `get_init_txns` (prepend.py) is not part of this model. The prefix is opaque, and only what the composer passes to it is stated.
- The byte values of the contract strings are not modelled. contract_strings.py is not part of this model, so each string is a constant holding its attribute name as a stand-in, and no contract depends on that value beyond the constants differing where they are compared.
  - `get_storage_state` (manager.py:124-125) reports under the literal names `user_global_max_borrow_in_dollars` and `user_global_borrowed_in_dollars` but looks the values up under the contract-string keys. The model keeps the two apart: the reported keys are `MAX_BORROW_RESULT_KEY` and `BORROWED_RESULT_KEY` in ManagerReader, and the state keys are the contract-string constants.
- Float constants, prices, the rewards projection and the Market, StakingContract and RewardsProgram classes are not modelled, because their files are not part of this model.
  - A market's own storage-state reader is the parameter `marketState`.
  - `RewardsProgram` keeps only the snapshot it was built from.
- These builders are pure forwarding and carry no guard, fee rule or check, so they are not modelled:
  - opt-in;
  - claim_rewards;
  - the staking builders;
  - governance vote;
  - keyreg online and offline.

  The following are not modelled either:
  - `is_opted_into_*`;
  - the client's own `get_user_state`;
  - `get_active_market_addresses` and `get_max_atomic_opt_in_market_app_ids`;
  - the remaining getters, which only return stored fields;
  - the `AlgofiTestnetClient` and `AlgofiMainnetClient` endpoint constructors.
- The demo scripts (mint.py, send_keyreg_online_transaction.py) and setup.py are not modelled: they are not part of the library's logic.
- Client.Valid: the client's ordered symbol lists come from `get_ordered_symbols`, which is not part of this model. The model assumes the constructor's market map has one market per symbol of a duplicate-free `max_ordered_symbols` list.
- ClientAccounts.GetStorageAccounts: the pagination token's value is not modelled. The k-th request receives the k-th page of `listing(app)`, and the listing is assumed to end (the source loops forever otherwise).
- ClientAccounts.GetStorageAccounts: exceptions raised by missing `id` keys are not modelled. The indexer always supplies an `id` for a local state and an `address` for an account.
- Text encoding is not modelled: strings and byte strings are both sequences of characters, with no UTF-8 encoding of the note, the beneficiary or the state keys. The whitespace set of `str.strip` is Python's full `isspace` set.
- Dict insertion order is modelled only where the source reads it: the active-symbol list (ordered as `maxOrderedSymbols`, the markets' insertion order), the first active market in `get_storage_accounts`, and the id lists. Result maps are unordered.
- Determinism of the composers needs no statement: Dafny functions have no hidden state.
- Get_user_info's bare `except` is modelled only for a missing account (`AccountMissing`). Other failures of `account_info` are network behaviour.

## Findings

| source | as written | input that shows it | evidently intended | confidence | as-written member | corrected member |
|---|---|---|---|---|---|---|
| algofi/v1/client.py:868-894 | the `check_vault_balance` parameter is never read: the vault balance is always fetched and compared | `check_vault_balance=False` with a commitment larger than the vault's ALGO balance still raises "Commitment amount ... exceeds ALGO balance" | the docstring (lines 880-881) says the check runs only when the flag is true, so with `False` the group is built without reading the balance | not executed | GovernanceCommitment.PrepareGovernanceCommitmentAsWritten | GovernanceCommitment.PrepareGovernanceCommitment |
