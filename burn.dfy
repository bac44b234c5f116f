/** The burn group (`prepare_burn_transactions`): the sender returns bank
    assets to the market, which converts them to the underlying asset. */
module BurnGroup {
  import opened Wrappers
  import opened Ledger
  import opened Txns
  import Prepend
  import CS = ContractStrings

  /** The prefix request of a burn group. */
  function BurnInit(sender: Address, sp: SuggestedParams, storageAccount: Address, managerAppId: AppId,
                    supportedMarketAppIds: seq<AppId>, supportedOracleAppIds: seq<AppId>): Prepend.InitRequest
  {
    Prepend.InitRequest(Prepend.Burn, sender, sp, managerAppId, supportedMarketAppIds, supportedOracleAppIds, storageAccount)
  }

  /** The burn group: the requested prefix, then the manager call, the market call
      and the bank-asset transfer to the market. */
  function PrepareBurnTransactions(
    getInitTxns: Prepend.InitTxns,
    sender: Address, sp: SuggestedParams, storageAccount: Address, amount: int,
    assetId: AssetId, bankAssetId: AssetId, managerAppId: AppId, marketAppId: AppId,
    marketAddress: Address, supportedMarketAppIds: seq<AppId>, supportedOracleAppIds: seq<AppId>): (g: seq<Txn>)
    ensures var prefix := getInitTxns(BurnInit(sender, sp, storageAccount, managerAppId, supportedMarketAppIds, supportedOracleAppIds));
      |g| == |prefix| + 3 && g[..|prefix|] == prefix
  {
    getInitTxns(BurnInit(sender, sp, storageAccount, managerAppId, supportedMarketAppIds, supportedOracleAppIds)) + [
      AppCall(sender, sp, managerAppId, [CS.BURN], [], [], []),
      AppCall(sender, sp, marketAppId, [CS.BURN], [managerAppId], [assetId], [storageAccount]),
      AssetXfer(sender, sp, marketAddress, amount, bankAssetId)
    ]
  }

  /** The operands a burn group's own three transactions carry (all but the id lists,
      which only the prefix sees). */
  datatype BurnOperands = BurnOperands(
    sender: Address, sp: SuggestedParams, storageAccount: Address, amount: int,
    assetId: AssetId, bankAssetId: AssetId, managerAppId: AppId, marketAppId: AppId, marketAddress: Address)

  /** Reads burn operands back from three transactions laid out as the protocol
      mandates: a manager call with the single argument "burn" and no references;
      a market call with the same argument that references exactly that manager,
      one asset and one account; an asset transfer; all from one sender with one
      set of params. */
  function ParseBurnTail(tail: seq<Txn>): Option<BurnOperands> {
    if |tail| == 3 && tail[0].AppCall? && tail[1].AppCall? && tail[2].AssetXfer?
       && tail[0].args == [CS.BURN] && tail[0].foreignApps == [] && tail[0].foreignAssets == [] && tail[0].accounts == []
       && tail[1].args == [CS.BURN] && tail[1].foreignApps == [tail[0].appId]
       && |tail[1].foreignAssets| == 1 && |tail[1].accounts| == 1
       && SentBy(tail, tail[0].sender, tail[0].sp)
    then
      Some(BurnOperands(tail[0].sender, tail[0].sp, tail[1].accounts[0], tail[2].amt, tail[1].foreignAssets[0],
                        tail[2].assetId, tail[0].appId, tail[1].appId, tail[2].receiver))
    else None
  }

  /** After its prefix, a burn group is exactly the protocol's three-transaction
      burn layout, and every operand sits in its slot: the underlying asset in the
      market call's asset list, the storage account in its account list, the bank
      asset and the amount in the transfer to the market address. */
  lemma BurnGroupLayout(
    getInitTxns: Prepend.InitTxns,
    sender: Address, sp: SuggestedParams, storageAccount: Address, amount: int,
    assetId: AssetId, bankAssetId: AssetId, managerAppId: AppId, marketAppId: AppId,
    marketAddress: Address, supportedMarketAppIds: seq<AppId>, supportedOracleAppIds: seq<AppId>)
    ensures var prefix := getInitTxns(BurnInit(sender, sp, storageAccount, managerAppId, supportedMarketAppIds, supportedOracleAppIds));
      var g := PrepareBurnTransactions(getInitTxns, sender, sp, storageAccount, amount, assetId, bankAssetId,
                                       managerAppId, marketAppId, marketAddress, supportedMarketAppIds, supportedOracleAppIds);
      && ParseBurnTail(g[|prefix|..]) == Some(BurnOperands(sender, sp, storageAccount, amount, assetId, bankAssetId,
                                                           managerAppId, marketAppId, marketAddress))
      && g[|prefix|].appId == managerAppId && g[|prefix| + 1].appId == marketAppId
      && forall k | |prefix| <= k < |g| :: WithinReferenceLimits(g[k])
  {
  }

  /** Beyond whatever the prefix moves, a burn group moves exactly `amount` of the
      bank asset from the sender to the market address, and nothing else. */
  lemma BurnMovesOnlyBankAsset(
    getInitTxns: Prepend.InitTxns,
    sender: Address, sp: SuggestedParams, storageAccount: Address, amount: int,
    assetId: AssetId, bankAssetId: AssetId, managerAppId: AppId, marketAppId: AppId,
    marketAddress: Address, supportedMarketAppIds: seq<AppId>, supportedOracleAppIds: seq<AppId>)
    ensures var prefix := getInitTxns(BurnInit(sender, sp, storageAccount, managerAppId, supportedMarketAppIds, supportedOracleAppIds));
      ValueMovements(PrepareBurnTransactions(getInitTxns, sender, sp, storageAccount, amount, assetId, bankAssetId,
                                             managerAppId, marketAppId, marketAddress, supportedMarketAppIds, supportedOracleAppIds))
      == ValueMovements(prefix) + [Movement(sender, marketAddress, amount, Some(bankAssetId))]
  {
    var prefix := getInitTxns(BurnInit(sender, sp, storageAccount, managerAppId, supportedMarketAppIds, supportedOracleAppIds));
    var tail := [
      AppCall(sender, sp, managerAppId, [CS.BURN], [], [], []),
      AppCall(sender, sp, marketAppId, [CS.BURN], [managerAppId], [assetId], [storageAccount]),
      AssetXfer(sender, sp, marketAddress, amount, bankAssetId)
    ];
    ValueMovementsAppend(prefix, tail);
    assert tail[..2][..1] == tail[..1] && tail[..1][..0] == [];
    assert ValueMovements(tail[..1]) == [];
    assert ValueMovements(tail[..2]) == [];
  }
}
