/** The sync-vault group (`prepare_sync_vault_transactions`): counts governance
    rewards paid into the storage account towards the user's ALGO collateral.
    It has no amount and moves no value. */
module SyncVaultGroup {
  import opened Wrappers
  import opened Ledger
  import opened Txns
  import Prepend
  import CS = ContractStrings

  /** The prefix request of a sync-vault group. */
  function SyncInit(sender: Address, sp: SuggestedParams, storageAccount: Address, managerAppId: AppId,
                    supportedMarketAppIds: seq<AppId>, supportedOracleAppIds: seq<AppId>): Prepend.InitRequest
  {
    Prepend.InitRequest(Prepend.SyncVault, sender, sp, managerAppId, supportedMarketAppIds, supportedOracleAppIds, storageAccount)
  }

  /** The sync-vault group: the requested prefix, then the manager call and the market call. */
  function PrepareSyncVaultTransactions(
    getInitTxns: Prepend.InitTxns,
    sender: Address, sp: SuggestedParams, storageAccount: Address,
    managerAppId: AppId, marketAppId: AppId,
    supportedMarketAppIds: seq<AppId>, supportedOracleAppIds: seq<AppId>): (g: seq<Txn>)
    ensures var prefix := getInitTxns(SyncInit(sender, sp, storageAccount, managerAppId, supportedMarketAppIds, supportedOracleAppIds));
      |g| == |prefix| + 2 && g[..|prefix|] == prefix
  {
    getInitTxns(SyncInit(sender, sp, storageAccount, managerAppId, supportedMarketAppIds, supportedOracleAppIds)) + [
      AppCall(sender, sp, managerAppId, [CS.SYNC_VAULT], [], [], []),
      AppCall(sender, sp, marketAppId, [CS.SYNC_VAULT], [managerAppId], [], [storageAccount])
    ]
  }

  /** The operands a sync-vault group's own two transactions carry. */
  datatype SyncOperands = SyncOperands(
    sender: Address, sp: SuggestedParams, storageAccount: Address, managerAppId: AppId, marketAppId: AppId)

  /** Reads sync-vault operands back from two transactions laid out as the protocol
      mandates: a manager call with the single argument "sync_vault" and no
      references, then a market call with the same argument that references exactly
      that manager, no asset and one account; one sender, one set of params. */
  function ParseSyncTail(tail: seq<Txn>): Option<SyncOperands> {
    if |tail| == 2 && tail[0].AppCall? && tail[1].AppCall?
       && tail[0].args == [CS.SYNC_VAULT] && tail[0].foreignApps == [] && tail[0].foreignAssets == [] && tail[0].accounts == []
       && tail[1].args == [CS.SYNC_VAULT] && tail[1].foreignApps == [tail[0].appId]
       && tail[1].foreignAssets == [] && |tail[1].accounts| == 1
       && SentBy(tail, tail[0].sender, tail[0].sp)
    then
      Some(SyncOperands(tail[0].sender, tail[0].sp, tail[1].accounts[0], tail[0].appId, tail[1].appId))
    else None
  }

  /** After its prefix, a sync-vault group is exactly the protocol's two-call layout,
      manager call first, market call second. */
  lemma SyncGroupLayout(
    getInitTxns: Prepend.InitTxns,
    sender: Address, sp: SuggestedParams, storageAccount: Address,
    managerAppId: AppId, marketAppId: AppId,
    supportedMarketAppIds: seq<AppId>, supportedOracleAppIds: seq<AppId>)
    ensures var prefix := getInitTxns(SyncInit(sender, sp, storageAccount, managerAppId, supportedMarketAppIds, supportedOracleAppIds));
      var g := PrepareSyncVaultTransactions(getInitTxns, sender, sp, storageAccount,
                                            managerAppId, marketAppId, supportedMarketAppIds, supportedOracleAppIds);
      && ParseSyncTail(g[|prefix|..]) == Some(SyncOperands(sender, sp, storageAccount, managerAppId, marketAppId))
      && g[|prefix|].appId == managerAppId && g[|prefix| + 1].appId == marketAppId
      && forall k | |prefix| <= k < |g| :: WithinReferenceLimits(g[k])
  {
  }

  /** A sync-vault group moves no value beyond whatever its prefix moves. */
  lemma SyncMovesNothing(
    getInitTxns: Prepend.InitTxns,
    sender: Address, sp: SuggestedParams, storageAccount: Address,
    managerAppId: AppId, marketAppId: AppId,
    supportedMarketAppIds: seq<AppId>, supportedOracleAppIds: seq<AppId>)
    ensures var prefix := getInitTxns(SyncInit(sender, sp, storageAccount, managerAppId, supportedMarketAppIds, supportedOracleAppIds));
      ValueMovements(PrepareSyncVaultTransactions(getInitTxns, sender, sp, storageAccount,
                                                  managerAppId, marketAppId, supportedMarketAppIds, supportedOracleAppIds))
      == ValueMovements(prefix)
  {
    var prefix := getInitTxns(SyncInit(sender, sp, storageAccount, managerAppId, supportedMarketAppIds, supportedOracleAppIds));
    var tail := [
      AppCall(sender, sp, managerAppId, [CS.SYNC_VAULT], [], [], []),
      AppCall(sender, sp, marketAppId, [CS.SYNC_VAULT], [managerAppId], [], [storageAccount])
    ];
    ValueMovementsAppend(prefix, tail);
    assert tail[..1][..0] == [];
    assert ValueMovements(tail[..1]) == [];
  }
}
