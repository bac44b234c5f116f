/** The supply-algos-to-vault group (`prepare_supply_algos_to_vault_transactions`):
    mint plus add-collateral for the governance vault market, paid in ALGO
    straight to the user's storage account. */
module SupplyAlgosToVaultGroup {
  import opened Wrappers
  import opened Ledger
  import opened Txns
  import Prepend
  import CS = ContractStrings

  /** The prefix request of a supply-algos-to-vault group. */
  function SupplyInit(sender: Address, sp: SuggestedParams, storageAccount: Address, managerAppId: AppId,
                      supportedMarketAppIds: seq<AppId>, supportedOracleAppIds: seq<AppId>): Prepend.InitRequest
  {
    Prepend.InitRequest(Prepend.SupplyAlgosToVault, sender, sp, managerAppId, supportedMarketAppIds, supportedOracleAppIds, storageAccount)
  }

  /** The supply group: the requested prefix, then the manager call, the market call
      and the ALGO payment to the storage account. */
  function PrepareSupplyAlgosToVaultTransactions(
    getInitTxns: Prepend.InitTxns,
    sender: Address, sp: SuggestedParams, storageAccount: Address, amount: int,
    managerAppId: AppId, marketAppId: AppId,
    supportedMarketAppIds: seq<AppId>, supportedOracleAppIds: seq<AppId>): (g: seq<Txn>)
    ensures var prefix := getInitTxns(SupplyInit(sender, sp, storageAccount, managerAppId, supportedMarketAppIds, supportedOracleAppIds));
      |g| == |prefix| + 3 && g[..|prefix|] == prefix
  {
    getInitTxns(SupplyInit(sender, sp, storageAccount, managerAppId, supportedMarketAppIds, supportedOracleAppIds)) + [
      AppCall(sender, sp, managerAppId, [CS.MINT_TO_COLLATERAL], [], [], []),
      AppCall(sender, sp, marketAppId, [CS.MINT_TO_COLLATERAL], [managerAppId], [], [storageAccount]),
      Pay(sender, sp, storageAccount, amount)
    ]
  }

  /** The operands a supply group's own three transactions carry. */
  datatype SupplyOperands = SupplyOperands(
    sender: Address, sp: SuggestedParams, storageAccount: Address, amount: int,
    managerAppId: AppId, marketAppId: AppId)

  /** Reads supply operands back from three transactions laid out as the protocol
      mandates: a manager call with the single argument "mint_to_collateral" and no
      references; a market call with the same argument that references exactly that
      manager, no asset and one account; a payment to that same account; all from
      one sender with one set of params. */
  function ParseSupplyTail(tail: seq<Txn>): Option<SupplyOperands> {
    if |tail| == 3 && tail[0].AppCall? && tail[1].AppCall? && tail[2].Pay?
       && tail[0].args == [CS.MINT_TO_COLLATERAL] && tail[0].foreignApps == [] && tail[0].foreignAssets == [] && tail[0].accounts == []
       && tail[1].args == [CS.MINT_TO_COLLATERAL] && tail[1].foreignApps == [tail[0].appId]
       && tail[1].foreignAssets == [] && tail[1].accounts == [tail[2].receiver]
       && SentBy(tail, tail[0].sender, tail[0].sp)
    then
      Some(SupplyOperands(tail[0].sender, tail[0].sp, tail[2].receiver, tail[2].amt, tail[0].appId, tail[1].appId))
    else None
  }

  /** After its prefix, a supply group is exactly the protocol's three-transaction
      layout: both calls carry "mint_to_collateral", the manager call comes first,
      and the payment goes to the storage account the market call references. */
  lemma SupplyGroupLayout(
    getInitTxns: Prepend.InitTxns,
    sender: Address, sp: SuggestedParams, storageAccount: Address, amount: int,
    managerAppId: AppId, marketAppId: AppId,
    supportedMarketAppIds: seq<AppId>, supportedOracleAppIds: seq<AppId>)
    ensures var prefix := getInitTxns(SupplyInit(sender, sp, storageAccount, managerAppId, supportedMarketAppIds, supportedOracleAppIds));
      var g := PrepareSupplyAlgosToVaultTransactions(getInitTxns, sender, sp, storageAccount, amount,
                                                     managerAppId, marketAppId, supportedMarketAppIds, supportedOracleAppIds);
      && ParseSupplyTail(g[|prefix|..]) == Some(SupplyOperands(sender, sp, storageAccount, amount, managerAppId, marketAppId))
      && g[|prefix|].appId == managerAppId && g[|prefix| + 1].appId == marketAppId
      && forall k | |prefix| <= k < |g| :: WithinReferenceLimits(g[k])
  {
  }

  /** Beyond whatever the prefix moves, a supply group moves exactly `amount`
      ALGO from the sender to the storage account (not to the market), and nothing else. */
  lemma SupplyMovesOnlyAlgoToStorage(
    getInitTxns: Prepend.InitTxns,
    sender: Address, sp: SuggestedParams, storageAccount: Address, amount: int,
    managerAppId: AppId, marketAppId: AppId,
    supportedMarketAppIds: seq<AppId>, supportedOracleAppIds: seq<AppId>)
    ensures var prefix := getInitTxns(SupplyInit(sender, sp, storageAccount, managerAppId, supportedMarketAppIds, supportedOracleAppIds));
      ValueMovements(PrepareSupplyAlgosToVaultTransactions(getInitTxns, sender, sp, storageAccount, amount,
                                                           managerAppId, marketAppId, supportedMarketAppIds, supportedOracleAppIds))
      == ValueMovements(prefix) + [Movement(sender, storageAccount, amount, None)]
  {
    var prefix := getInitTxns(SupplyInit(sender, sp, storageAccount, managerAppId, supportedMarketAppIds, supportedOracleAppIds));
    var tail := [
      AppCall(sender, sp, managerAppId, [CS.MINT_TO_COLLATERAL], [], [], []),
      AppCall(sender, sp, marketAppId, [CS.MINT_TO_COLLATERAL], [managerAppId], [], [storageAccount]),
      Pay(sender, sp, storageAccount, amount)
    ];
    ValueMovementsAppend(prefix, tail);
    assert tail[..2][..1] == tail[..1] && tail[..1][..0] == [];
    assert ValueMovements(tail[..1]) == [];
    assert ValueMovements(tail[..2]) == [];
  }
}
