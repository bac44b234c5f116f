/** The prefix a composer requests before its own transactions. The function
    that builds it (`get_init_txns` in prepend.py) is not part of this model: a
    composer receives it as the uninterpreted function `InitTxns` and hands it
    exactly the named arguments below. */
module Prepend {
  import opened Ledger
  import opened Txns

  /** The members of the source's `Transactions` enumeration that the modelled composers use. */
  datatype TransactionType = Burn | SupplyAlgosToVault | SyncVault

  /** The keyword arguments of one `get_init_txns` call. */
  datatype InitRequest = InitRequest(
    transactionType: TransactionType,
    sender: Address,
    suggestedParams: SuggestedParams,
    managerAppId: AppId,
    supportedMarketAppIds: seq<AppId>,
    supportedOracleAppIds: seq<AppId>,
    storageAccount: Address)

  type InitTxns = InitRequest -> seq<Txn>
}
