/** The facade's transaction builders (client.py, `prepare_*`): they resolve the
    sender, look up the market, read the storage address and the active id lists,
    and forward them to a composer. Burn, supply-to-vault and sync-vault go to the
    composers modelled in this project; for the other composers (whose files are
    not part of this model) the builder's result is the `ComposerCall` record of
    the operands it forwards. */
module ClientPrepare {
  import opened Wrappers
  import opened Ledger
  import opened Txns
  import opened ManagerReader
  import opened ClientMarkets
  import Prepend
  import BurnGroup
  import SupplyAlgosToVaultGroup
  import SyncVaultGroup
  import CS = ContractStrings

  /** The operands every composer receives: the sender, the default params, the
      sender's storage account, the manager and the active market and oracle ids. */
  datatype Common = Common(
    sender: Address,
    sp: SuggestedParams,
    storageAddress: Address,
    managerAppId: AppId,
    marketAppIds: seq<AppId>,
    oracleAppIds: seq<AppId>)

  /** A call to a composer outside this model, with the operands it receives. */
  datatype ComposerCall =
    | AddCollateral(common: Common, amount: int, bankAssetId: AssetId, marketAppId: AppId, marketAddress: Address)
    | Borrow(common: Common, amount: int, assetId: AssetId, marketAppId: AppId)
    | Mint(common: Common, amount: int, bankAssetId: AssetId, marketAppId: AppId, marketAddress: Address,
           underlying: Option<AssetId>)
    | MintToCollateral(common: Common, amount: int, marketAppId: AppId, marketAddress: Address,
                       underlying: Option<AssetId>)
    | RemoveCollateral(common: Common, amount: int, bankAssetId: AssetId, marketAppId: AppId)
    | RemoveCollateralUnderlying(common: Common, amount: int, assetId: AssetId, marketAppId: AppId)
    | RepayBorrow(common: Common, amount: int, marketAppId: AppId, marketAddress: Address,
                  underlying: Option<AssetId>)
    | Liquidate(common: Common, targetStorageAddress: Address, amount: int,
                borrowMarketAppId: AppId, borrowMarketAddress: Address, collateralMarketAppId: AppId,
                collateralBankAssetId: AssetId, borrowAssetId: Option<AssetId>, liquidateUpdateFee: int)
    | RemoveAlgosFromVault(common: Common, amount: int, marketAppId: AppId)
    | SendGovernance(common: Common, governanceAddress: Address, note: string)

  /** The liquidation fee the builder passes on. */
  const VAULT_LIQUIDATE_FEE := 3000
  const DEFAULT_LIQUIDATE_FEE := 1000

  /** The shared operands, read after the market lookups: the storage account is
      resolved from the live manager state of the sender. */
  function CommonOperands(c: Client, net: Network, sdk: Sdk, suggested: SuggestedParams, address: Address)
    : (r: Result<Common, Error>)
    requires c.Valid()
    ensures var storage := c.manager.GetStorageAddress(net, sdk, ResolveAddress(c, address));
      && (r.Failure? <==> storage.Failure?)
      && (r.Failure? ==> r.error == storage.error)
      && (r.Success? ==> r.value.storageAddress == storage.value)
    ensures r.Success? ==>
      && r.value.sender == ResolveAddress(c, address)
      && r.value.sp == DefaultParams(suggested)
      && r.value.sp.fee == 1000 && r.value.sp.flatFee
      && r.value.managerAppId == c.manager.appId
      && r.value.marketAppIds == ActiveMarketAppIds(c)
      && r.value.oracleAppIds == ActiveOracleAppIds(c)
  {
    var sender := ResolveAddress(c, address);
    match c.manager.GetStorageAddress(net, sdk, sender)
    case Failure(e) => Failure(e)
    case Success(storage) =>
      Success(Common(sender, DefaultParams(suggested), storage, c.manager.appId,
                     ActiveMarketAppIds(c), ActiveOracleAppIds(c)))
  }

  /** The steps a one-market builder takes, in the source's order: the vALGO guard
      (when the builder has one), the market lookup, then the shared operands. */
  function MarketOperands(c: Client, net: Network, sdk: Sdk, suggested: SuggestedParams,
                          symbol: Symbol, address: Address, guarded: bool): (r: Result<(Market, Common), Error>)
    requires c.Valid()
    ensures guarded && symbol == CS.VAULT_SYMBOL ==> r == Failure(AlgoVaultNotAllowed)
    ensures !(guarded && symbol == CS.VAULT_SYMBOL) && symbol !in c.markets ==> r == Failure(UnknownSymbol(symbol))
    ensures !(guarded && symbol == CS.VAULT_SYMBOL) && symbol in c.markets ==>
      var common := CommonOperands(c, net, sdk, suggested, address);
      && (r.Success? <==> common.Success?)
      && (r.Failure? ==> r.error == common.error)
      && (r.Success? ==> r.value == (c.markets[symbol], common.value))
  {
    if guarded && symbol == CS.VAULT_SYMBOL then Failure(AlgoVaultNotAllowed)
    else match GetMarket(c, symbol)
      case Failure(e) => Failure(e)
      case Success(market) =>
        match CommonOperands(c, net, sdk, suggested, address)
        case Failure(e) => Failure(e)
        case Success(common) => Success((market, common))
  }

  /** `asset_id if symbol != "ALGO" else None`. */
  function UnderlyingUnlessAlgo(symbol: Symbol, market: Market): (r: Option<AssetId>)
    ensures r.None? <==> symbol == CS.ALGO_SYMBOL
    ensures r.Some? ==> r.value == market.asset.underlyingAssetId
  {
    if symbol != CS.ALGO_SYMBOL then Some(market.asset.underlyingAssetId) else None
  }

  // ----- builders forwarding to composers outside this model -----

  /** `prepare_add_collateral_transactions`: rejects vALGO; forwards the market's bank asset. */
  function PrepareAddCollateral(c: Client, net: Network, sdk: Sdk, suggested: SuggestedParams,
                                symbol: Symbol, amount: int, address: Address): (r: Result<ComposerCall, Error>)
    requires c.Valid()
    ensures var ops := MarketOperands(c, net, sdk, suggested, symbol, address, true);
      && (r.Failure? <==> ops.Failure?) && (r.Failure? ==> r.error == ops.error)
      && (r.Success? ==> var (m, k) := ops.value;
            r.value == AddCollateral(k, amount, m.asset.bankAssetId, m.appId, m.address))
  {
    match MarketOperands(c, net, sdk, suggested, symbol, address, true)
    case Failure(e) => Failure(e)
    case Success((m, k)) => Success(AddCollateral(k, amount, m.asset.bankAssetId, m.appId, m.address))
  }

  /** `prepare_borrow_transactions`: rejects vALGO; forwards the market's underlying asset. */
  function PrepareBorrow(c: Client, net: Network, sdk: Sdk, suggested: SuggestedParams,
                         symbol: Symbol, amount: int, address: Address): (r: Result<ComposerCall, Error>)
    requires c.Valid()
    ensures var ops := MarketOperands(c, net, sdk, suggested, symbol, address, true);
      && (r.Failure? <==> ops.Failure?) && (r.Failure? ==> r.error == ops.error)
      && (r.Success? ==> var (m, k) := ops.value;
            r.value == Borrow(k, amount, m.asset.underlyingAssetId, m.appId))
  {
    match MarketOperands(c, net, sdk, suggested, symbol, address, true)
    case Failure(e) => Failure(e)
    case Success((m, k)) => Success(Borrow(k, amount, m.asset.underlyingAssetId, m.appId))
  }

  /** `prepare_mint_transactions`: rejects vALGO; the underlying asset is omitted for ALGO. */
  function PrepareMint(c: Client, net: Network, sdk: Sdk, suggested: SuggestedParams,
                       symbol: Symbol, amount: int, address: Address): (r: Result<ComposerCall, Error>)
    requires c.Valid()
    ensures var ops := MarketOperands(c, net, sdk, suggested, symbol, address, true);
      && (r.Failure? <==> ops.Failure?) && (r.Failure? ==> r.error == ops.error)
      && (r.Success? ==> var (m, k) := ops.value;
            && r.value.Mint? && r.value == Mint(k, amount, m.asset.bankAssetId, m.appId, m.address, r.value.underlying)
            && (r.value.underlying.None? <==> symbol == CS.ALGO_SYMBOL)
            && (r.value.underlying.Some? ==> r.value.underlying.value == m.asset.underlyingAssetId))
  {
    match MarketOperands(c, net, sdk, suggested, symbol, address, true)
    case Failure(e) => Failure(e)
    case Success((m, k)) =>
      Success(Mint(k, amount, m.asset.bankAssetId, m.appId, m.address, UnderlyingUnlessAlgo(symbol, m)))
  }

  /** `prepare_mint_to_collateral_transactions`: no vALGO guard; the underlying asset
      is omitted for ALGO. */
  function PrepareMintToCollateral(c: Client, net: Network, sdk: Sdk, suggested: SuggestedParams,
                                   symbol: Symbol, amount: int, address: Address): (r: Result<ComposerCall, Error>)
    requires c.Valid()
    ensures var ops := MarketOperands(c, net, sdk, suggested, symbol, address, false);
      && (r.Failure? <==> ops.Failure?) && (r.Failure? ==> r.error == ops.error)
      && (r.Success? ==> var (m, k) := ops.value;
            && r.value.MintToCollateral? && r.value == MintToCollateral(k, amount, m.appId, m.address, r.value.underlying)
            && (r.value.underlying.None? <==> symbol == CS.ALGO_SYMBOL)
            && (r.value.underlying.Some? ==> r.value.underlying.value == m.asset.underlyingAssetId))
  {
    match MarketOperands(c, net, sdk, suggested, symbol, address, false)
    case Failure(e) => Failure(e)
    case Success((m, k)) => Success(MintToCollateral(k, amount, m.appId, m.address, UnderlyingUnlessAlgo(symbol, m)))
  }

  /** `prepare_remove_collateral_transactions`: rejects vALGO; forwards the bank asset. */
  function PrepareRemoveCollateral(c: Client, net: Network, sdk: Sdk, suggested: SuggestedParams,
                                   symbol: Symbol, amount: int, address: Address): (r: Result<ComposerCall, Error>)
    requires c.Valid()
    ensures var ops := MarketOperands(c, net, sdk, suggested, symbol, address, true);
      && (r.Failure? <==> ops.Failure?) && (r.Failure? ==> r.error == ops.error)
      && (r.Success? ==> var (m, k) := ops.value;
            r.value == RemoveCollateral(k, amount, m.asset.bankAssetId, m.appId))
  {
    match MarketOperands(c, net, sdk, suggested, symbol, address, true)
    case Failure(e) => Failure(e)
    case Success((m, k)) => Success(RemoveCollateral(k, amount, m.asset.bankAssetId, m.appId))
  }

  /** `prepare_remove_collateral_underlying_transactions`: no vALGO guard; forwards the
      underlying asset. */
  function PrepareRemoveCollateralUnderlying(c: Client, net: Network, sdk: Sdk, suggested: SuggestedParams,
                                             symbol: Symbol, amount: int, address: Address): (r: Result<ComposerCall, Error>)
    requires c.Valid()
    ensures var ops := MarketOperands(c, net, sdk, suggested, symbol, address, false);
      && (r.Failure? <==> ops.Failure?) && (r.Failure? ==> r.error == ops.error)
      && (r.Success? ==> var (m, k) := ops.value;
            r.value == RemoveCollateralUnderlying(k, amount, m.asset.underlyingAssetId, m.appId))
  {
    match MarketOperands(c, net, sdk, suggested, symbol, address, false)
    case Failure(e) => Failure(e)
    case Success((m, k)) => Success(RemoveCollateralUnderlying(k, amount, m.asset.underlyingAssetId, m.appId))
  }

  /** `prepare_repay_borrow_transactions`: rejects vALGO; the underlying asset is
      omitted for ALGO. */
  function PrepareRepayBorrow(c: Client, net: Network, sdk: Sdk, suggested: SuggestedParams,
                              symbol: Symbol, amount: int, address: Address): (r: Result<ComposerCall, Error>)
    requires c.Valid()
    ensures var ops := MarketOperands(c, net, sdk, suggested, symbol, address, true);
      && (r.Failure? <==> ops.Failure?) && (r.Failure? ==> r.error == ops.error)
      && (r.Success? ==> var (m, k) := ops.value;
            && r.value.RepayBorrow? && r.value == RepayBorrow(k, amount, m.appId, m.address, r.value.underlying)
            && (r.value.underlying.None? <==> symbol == CS.ALGO_SYMBOL)
            && (r.value.underlying.Some? ==> r.value.underlying.value == m.asset.underlyingAssetId))
  {
    match MarketOperands(c, net, sdk, suggested, symbol, address, true)
    case Failure(e) => Failure(e)
    case Success((m, k)) => Success(RepayBorrow(k, amount, m.appId, m.address, UnderlyingUnlessAlgo(symbol, m)))
  }

  /** `prepare_liquidate_transactions`: no vALGO guard; looks up the borrow market, then
      the collateral market, then the shared operands. The update fee is 3000 exactly
      when the seized collateral is vALGO (which pays out ALGO), else 1000; the borrow
      asset is omitted exactly when ALGO is repaid. */
  function PrepareLiquidate(c: Client, net: Network, sdk: Sdk, suggested: SuggestedParams,
                            targetStorageAddress: Address, borrowSymbol: Symbol, amount: int,
                            collateralSymbol: Symbol, address: Address): (r: Result<ComposerCall, Error>)
    requires c.Valid()
    ensures borrowSymbol !in c.markets ==> r == Failure(UnknownSymbol(borrowSymbol))
    ensures borrowSymbol in c.markets && collateralSymbol !in c.markets ==> r == Failure(UnknownSymbol(collateralSymbol))
    ensures borrowSymbol in c.markets && collateralSymbol in c.markets ==>
      var common := CommonOperands(c, net, sdk, suggested, address);
      && (r.Success? <==> common.Success?)
      && (r.Failure? ==> r.error == common.error)
      && (r.Success? ==>
            var borrow := c.markets[borrowSymbol];
            var collateral := c.markets[collateralSymbol];
            && r.value.Liquidate?
            && r.value.common == common.value
            && r.value.targetStorageAddress == targetStorageAddress && r.value.amount == amount
            && r.value.borrowMarketAppId == borrow.appId && r.value.borrowMarketAddress == borrow.address
            && r.value.collateralMarketAppId == collateral.appId
            && r.value.collateralBankAssetId == collateral.asset.bankAssetId
            && (r.value.liquidateUpdateFee == VAULT_LIQUIDATE_FEE <==> collateralSymbol == CS.VAULT_SYMBOL)
            && (r.value.liquidateUpdateFee == DEFAULT_LIQUIDATE_FEE <==> collateralSymbol != CS.VAULT_SYMBOL)
            && (r.value.borrowAssetId.None? <==> borrowSymbol == CS.ALGO_SYMBOL)
            && (r.value.borrowAssetId.Some? ==> r.value.borrowAssetId.value == borrow.asset.underlyingAssetId))
  {
    match GetMarket(c, borrowSymbol)
    case Failure(e) => Failure(e)
    case Success(borrowMarket) =>
      match GetMarket(c, collateralSymbol)
      case Failure(e) => Failure(e)
      case Success(collateralMarket) =>
        match CommonOperands(c, net, sdk, suggested, address)
        case Failure(e) => Failure(e)
        case Success(k) =>
          Success(Liquidate(k, targetStorageAddress, amount,
                            borrowMarket.appId, borrowMarket.address, collateralMarket.appId,
                            collateralMarket.asset.bankAssetId,
                            UnderlyingUnlessAlgo(borrowSymbol, borrowMarket),
                            if collateralSymbol == CS.VAULT_SYMBOL then VAULT_LIQUIDATE_FEE else DEFAULT_LIQUIDATE_FEE))
  }

  /** `prepare_remove_algos_from_vault_transactions`: always the vALGO market. */
  function PrepareRemoveAlgosFromVault(c: Client, net: Network, sdk: Sdk, suggested: SuggestedParams,
                                       amount: int, address: Address): (r: Result<ComposerCall, Error>)
    requires c.Valid()
    ensures CS.VAULT_SYMBOL !in c.markets ==> r == Failure(UnknownSymbol(CS.VAULT_SYMBOL))
    ensures CS.VAULT_SYMBOL in c.markets ==>
      var common := CommonOperands(c, net, sdk, suggested, address);
      && (r.Success? <==> common.Success?)
      && (r.Failure? ==> r.error == common.error)
      && (r.Success? ==> r.value == RemoveAlgosFromVault(common.value, amount, c.markets[CS.VAULT_SYMBOL].appId))
  {
    match MarketOperands(c, net, sdk, suggested, CS.VAULT_SYMBOL, address, false)
    case Failure(e) => Failure(e)
    case Success((m, k)) => Success(RemoveAlgosFromVault(k, amount, m.appId))
  }

  // ----- builders forwarding to the modelled composers -----

  /** The prefix request a builder's burn group carries. */
  function BurnPrefix(getInitTxns: Prepend.InitTxns, k: Common): seq<Txn> {
    getInitTxns(BurnGroup.BurnInit(k.sender, k.sp, k.storageAddress, k.managerAppId, k.marketAppIds, k.oracleAppIds))
  }

  /** `prepare_burn_transactions`: rejects vALGO; burns the market's bank asset, naming
      the underlying asset in the market call. */
  function PrepareBurn(c: Client, net: Network, sdk: Sdk, suggested: SuggestedParams, getInitTxns: Prepend.InitTxns,
                       symbol: Symbol, amount: int, address: Address): (r: Result<seq<Txn>, Error>)
    requires c.Valid()
    ensures var ops := MarketOperands(c, net, sdk, suggested, symbol, address, true);
      && (r.Failure? <==> ops.Failure?) && (r.Failure? ==> r.error == ops.error)
      && (r.Success? ==> var (m, k) := ops.value;
            var prefix := BurnPrefix(getInitTxns, k);
            && |r.value| == |prefix| + 3 && r.value[..|prefix|] == prefix
            && BurnGroup.ParseBurnTail(r.value[|prefix|..])
               == Some(BurnGroup.BurnOperands(k.sender, k.sp, k.storageAddress, amount, m.asset.underlyingAssetId,
                                              m.asset.bankAssetId, k.managerAppId, m.appId, m.address)))
  {
    match MarketOperands(c, net, sdk, suggested, symbol, address, true)
    case Failure(e) => Failure(e)
    case Success((m, k)) =>
      BurnGroup.BurnGroupLayout(getInitTxns, k.sender, k.sp, k.storageAddress, amount, m.asset.underlyingAssetId,
                                m.asset.bankAssetId, k.managerAppId, m.appId, m.address, k.marketAppIds, k.oracleAppIds);
      Success(BurnGroup.PrepareBurnTransactions(getInitTxns, k.sender, k.sp, k.storageAddress, amount,
                                                m.asset.underlyingAssetId, m.asset.bankAssetId, k.managerAppId,
                                                m.appId, m.address, k.marketAppIds, k.oracleAppIds))
  }

  /** What a burn built by the client moves: beyond its prefix, exactly `amount` of the
      symbol's bank asset, from the resolved sender to that symbol's market. */
  lemma PrepareBurnMovesBankAsset(c: Client, net: Network, sdk: Sdk, suggested: SuggestedParams,
                                  getInitTxns: Prepend.InitTxns, symbol: Symbol, amount: int, address: Address)
    requires c.Valid()
    requires PrepareBurn(c, net, sdk, suggested, getInitTxns, symbol, amount, address).Success?
    ensures var k := CommonOperands(c, net, sdk, suggested, address).value;
      ValueMovements(PrepareBurn(c, net, sdk, suggested, getInitTxns, symbol, amount, address).value)
      == ValueMovements(BurnPrefix(getInitTxns, k))
         + [Movement(ResolveAddress(c, address), c.markets[symbol].address, amount, Some(c.markets[symbol].asset.bankAssetId))]
  {
    var k := CommonOperands(c, net, sdk, suggested, address).value;
    var m := c.markets[symbol];
    BurnGroup.BurnMovesOnlyBankAsset(getInitTxns, k.sender, k.sp, k.storageAddress, amount, m.asset.underlyingAssetId,
                                     m.asset.bankAssetId, k.managerAppId, m.appId, m.address, k.marketAppIds, k.oracleAppIds);
  }

  /** The prefix request a builder's supply group carries. */
  function SupplyPrefix(getInitTxns: Prepend.InitTxns, k: Common): seq<Txn> {
    getInitTxns(SupplyAlgosToVaultGroup.SupplyInit(k.sender, k.sp, k.storageAddress, k.managerAppId, k.marketAppIds, k.oracleAppIds))
  }

  /** `prepare_supply_algos_to_vault_transactions`: always the vALGO market. */
  function PrepareSupplyAlgosToVault(c: Client, net: Network, sdk: Sdk, suggested: SuggestedParams,
                                     getInitTxns: Prepend.InitTxns, amount: int, address: Address)
    : (r: Result<seq<Txn>, Error>)
    requires c.Valid()
    ensures CS.VAULT_SYMBOL !in c.markets ==> r == Failure(UnknownSymbol(CS.VAULT_SYMBOL))
    ensures CS.VAULT_SYMBOL in c.markets ==>
      var common := CommonOperands(c, net, sdk, suggested, address);
      && (r.Success? <==> common.Success?)
      && (r.Failure? ==> r.error == common.error)
      && (r.Success? ==> var k := common.value;
            var prefix := SupplyPrefix(getInitTxns, k);
            && |r.value| == |prefix| + 3 && r.value[..|prefix|] == prefix
            && SupplyAlgosToVaultGroup.ParseSupplyTail(r.value[|prefix|..])
               == Some(SupplyAlgosToVaultGroup.SupplyOperands(k.sender, k.sp, k.storageAddress, amount, k.managerAppId,
                                                              c.markets[CS.VAULT_SYMBOL].appId)))
  {
    match MarketOperands(c, net, sdk, suggested, CS.VAULT_SYMBOL, address, false)
    case Failure(e) => Failure(e)
    case Success((m, k)) =>
      SupplyAlgosToVaultGroup.SupplyGroupLayout(getInitTxns, k.sender, k.sp, k.storageAddress, amount,
                                                k.managerAppId, m.appId, k.marketAppIds, k.oracleAppIds);
      Success(SupplyAlgosToVaultGroup.PrepareSupplyAlgosToVaultTransactions(
        getInitTxns, k.sender, k.sp, k.storageAddress, amount, k.managerAppId, m.appId, k.marketAppIds, k.oracleAppIds))
  }

  /** A supply built by the client pays the ALGO into the sender's own storage
      account (the vault), never to a market. */
  lemma PrepareSupplyPaysOwnVault(c: Client, net: Network, sdk: Sdk, suggested: SuggestedParams,
                                  getInitTxns: Prepend.InitTxns, amount: int, address: Address)
    requires c.Valid()
    requires PrepareSupplyAlgosToVault(c, net, sdk, suggested, getInitTxns, amount, address).Success?
    ensures var k := CommonOperands(c, net, sdk, suggested, address).value;
      ValueMovements(PrepareSupplyAlgosToVault(c, net, sdk, suggested, getInitTxns, amount, address).value)
      == ValueMovements(SupplyPrefix(getInitTxns, k))
         + [Movement(ResolveAddress(c, address),
                     c.manager.GetStorageAddress(net, sdk, ResolveAddress(c, address)).value, amount, None)]
  {
    var k := CommonOperands(c, net, sdk, suggested, address).value;
    var m := c.markets[CS.VAULT_SYMBOL];
    SupplyAlgosToVaultGroup.SupplyMovesOnlyAlgoToStorage(getInitTxns, k.sender, k.sp, k.storageAddress, amount,
                                                         k.managerAppId, m.appId, k.marketAppIds, k.oracleAppIds);
  }

  /** The prefix request a builder's sync group carries. */
  function SyncPrefix(getInitTxns: Prepend.InitTxns, k: Common): seq<Txn> {
    getInitTxns(SyncVaultGroup.SyncInit(k.sender, k.sp, k.storageAddress, k.managerAppId, k.marketAppIds, k.oracleAppIds))
  }

  /** `prepare_sync_vault_transactions`: always the vALGO market. */
  function PrepareSyncVault(c: Client, net: Network, sdk: Sdk, suggested: SuggestedParams,
                            getInitTxns: Prepend.InitTxns, address: Address): (r: Result<seq<Txn>, Error>)
    requires c.Valid()
    ensures CS.VAULT_SYMBOL !in c.markets ==> r == Failure(UnknownSymbol(CS.VAULT_SYMBOL))
    ensures CS.VAULT_SYMBOL in c.markets ==>
      var common := CommonOperands(c, net, sdk, suggested, address);
      && (r.Success? <==> common.Success?)
      && (r.Failure? ==> r.error == common.error)
      && (r.Success? ==> var k := common.value;
            var prefix := SyncPrefix(getInitTxns, k);
            && |r.value| == |prefix| + 2 && r.value[..|prefix|] == prefix
            && SyncVaultGroup.ParseSyncTail(r.value[|prefix|..])
               == Some(SyncVaultGroup.SyncOperands(k.sender, k.sp, k.storageAddress, k.managerAppId,
                                                   c.markets[CS.VAULT_SYMBOL].appId))
            && ValueMovements(r.value) == ValueMovements(prefix))
  {
    match MarketOperands(c, net, sdk, suggested, CS.VAULT_SYMBOL, address, false)
    case Failure(e) => Failure(e)
    case Success((m, k)) =>
      SyncVaultGroup.SyncGroupLayout(getInitTxns, k.sender, k.sp, k.storageAddress, k.managerAppId, m.appId,
                                     k.marketAppIds, k.oracleAppIds);
      SyncVaultGroup.SyncMovesNothing(getInitTxns, k.sender, k.sp, k.storageAddress, k.managerAppId, m.appId,
                                      k.marketAppIds, k.oracleAppIds);
      Success(SyncVaultGroup.PrepareSyncVaultTransactions(getInitTxns, k.sender, k.sp, k.storageAddress,
                                                          k.managerAppId, m.appId, k.marketAppIds, k.oracleAppIds))
  }

  // ----- the vALGO guard across the builders -----

  /** Which builders refuse the vault market: add_collateral, borrow, burn, mint,
      remove_collateral and repay_borrow refuse symbol vALGO before looking at
      anything else, even when the client lists a vALGO market; mint_to_collateral,
      remove_collateral_underlying and liquidate accept it whenever the sender's
      storage account resolves. */
  lemma VaultGuard(c: Client, net: Network, sdk: Sdk, suggested: SuggestedParams, getInitTxns: Prepend.InitTxns,
                   amount: int, address: Address, target: Address, borrowSymbol: Symbol)
    requires c.Valid()
    ensures var v := CS.VAULT_SYMBOL;
      && PrepareAddCollateral(c, net, sdk, suggested, v, amount, address) == Failure(AlgoVaultNotAllowed)
      && PrepareBorrow(c, net, sdk, suggested, v, amount, address) == Failure(AlgoVaultNotAllowed)
      && PrepareBurn(c, net, sdk, suggested, getInitTxns, v, amount, address) == Failure(AlgoVaultNotAllowed)
      && PrepareMint(c, net, sdk, suggested, v, amount, address) == Failure(AlgoVaultNotAllowed)
      && PrepareRemoveCollateral(c, net, sdk, suggested, v, amount, address) == Failure(AlgoVaultNotAllowed)
      && PrepareRepayBorrow(c, net, sdk, suggested, v, amount, address) == Failure(AlgoVaultNotAllowed)
    ensures var v := CS.VAULT_SYMBOL;
      v in c.markets && CommonOperands(c, net, sdk, suggested, address).Success? ==>
      && PrepareMintToCollateral(c, net, sdk, suggested, v, amount, address).Success?
      && PrepareRemoveCollateralUnderlying(c, net, sdk, suggested, v, amount, address).Success?
      && (borrowSymbol in c.markets ==>
            PrepareLiquidate(c, net, sdk, suggested, target, borrowSymbol, amount, v, address).Success?)
  {
  }
}
