/** The facade's user-state getters (client.py): account record, balances by
    asset id, and the lending state of a storage account across the manager and
    the supported markets. Each is a method, as the source fills its result step
    by step, proved against a function that states the result. */
module ClientUser {
  import opened Wrappers
  import opened Ledger
  import opened ManagerReader
  import opened ClientMarkets

  // ----- get_user_info -----

  /** The account record of `address` (or of the client's user) with missing
      `apps-local-state` and `assets` lists filled in as []. */
  function UserInfoOf(c: Client, net: Network, address: Address): (r: Result<UserInfo, Error>)
    ensures var a := ResolveAddress(c, address);
      && (a == "" <==> r == Failure(UserAddressNotSpecified))
      && (a != "" && a !in net.live.accountInfo <==> r == Failure(AccountMissing(a)))
      && (r.Success? <==> a != "" && a in net.live.accountInfo)
    ensures r.Success? ==>
      var raw := net.live.accountInfo[ResolveAddress(c, address)].account;
      && r.value.appsLocalState.Some? && r.value.assets.Some?
      && (raw.None? ==> r.value == UserInfo(None, Some([]), Some([])))
      && (raw.Some? ==> r.value.amount == raw.value.amount
                        && (raw.value.appsLocalState.Some? ==> r.value.appsLocalState == raw.value.appsLocalState)
                        && (raw.value.assets.Some? ==> r.value.assets == raw.value.assets))
  {
    var a := ResolveAddress(c, address);
    if a == "" then Failure(UserAddressNotSpecified)
    else if a !in net.live.accountInfo then Failure(AccountMissing(a))
    else
      var info := match net.live.accountInfo[a].account
        case Some(i) => i
        case None => UserInfo(None, None, None);
      Success(UserInfo(info.amount,
                       Some(if info.appsLocalState.Some? then info.appsLocalState.value else []),
                       Some(if info.assets.Some? then info.assets.value else [])))
  }

  /** `get_user_info`: fetches the record and fills in the missing lists in place. */
  method GetUserInfo(c: Client, net: Network, address: Address) returns (r: Result<UserInfo, Error>)
    ensures r == UserInfoOf(c, net, address)
  {
    var a := ResolveAddress(c, address);
    if a == "" {
      return Failure(UserAddressNotSpecified);
    }
    if a !in net.live.accountInfo {
      return Failure(AccountMissing(a));
    }
    var userInfo := UserInfo(None, None, None);
    if net.live.accountInfo[a].account.Some? {
      userInfo := net.live.accountInfo[a].account.value;
    }
    if userInfo.appsLocalState.None? {
      userInfo := userInfo.(appsLocalState := Some([]));
    }
    if userInfo.assets.None? {
      userInfo := userInfo.(assets := Some([]));
    }
    return Success(userInfo);
  }

  // ----- get_user_balances / get_user_balance -----

  /** `{asset["asset-id"]: asset["amount"] for asset in assets}`: a later holding of
      the same id overrides an earlier one. */
  function HoldingsMap(assets: seq<AssetHolding>): map<AssetId, int> {
    if assets == [] then map[]
    else HoldingsMap(assets[..|assets| - 1])[assets[|assets| - 1].assetId := assets[|assets| - 1].amount]
  }

  /** The id of every holding is a key, and nothing else is. */
  lemma {:induction false} HoldingsMapKeys(assets: seq<AssetHolding>)
    ensures forall id :: id in HoldingsMap(assets) <==> exists i | 0 <= i < |assets| :: assets[i].assetId == id
  {
    if assets != [] {
      var init := assets[..|assets| - 1];
      HoldingsMapKeys(init);
      forall id | id in HoldingsMap(assets) ensures exists i | 0 <= i < |assets| :: assets[i].assetId == id {
        if id != assets[|assets| - 1].assetId {
          assert id in HoldingsMap(init);
          var i :| 0 <= i < |init| && init[i].assetId == id;
          assert assets[i] == init[i];
        }
      }
      forall id | exists i | 0 <= i < |assets| :: assets[i].assetId == id ensures id in HoldingsMap(assets) {
        var i :| 0 <= i < |assets| && assets[i].assetId == id;
        if i < |init| {
          assert init[i] == assets[i];
        }
      }
    }
  }

  /** Each id maps to the amount of its last holding in the list. */
  lemma {:induction false} HoldingsMapLastWins(assets: seq<AssetHolding>, i: nat)
    requires i < |assets|
    requires forall j | i < j < |assets| :: assets[j].assetId != assets[i].assetId
    ensures assets[i].assetId in HoldingsMap(assets) && HoldingsMap(assets)[assets[i].assetId] == assets[i].amount
  {
    if i < |assets| - 1 {
      var init := assets[..|assets| - 1];
      assert init[i] == assets[i];
      HoldingsMapLastWins(init, i);
    }
  }

  /** The balances of a user record: its holdings, then the native amount under id 1. */
  function BalancesOf(c: Client, net: Network, address: Address): (r: Result<map<AssetId, int>, Error>)
    ensures UserInfoOf(c, net, address).Failure? ==> r == Failure(UserInfoOf(c, net, address).error)
    ensures UserInfoOf(c, net, address).Success? ==>
      var info := UserInfoOf(c, net, address).value;
      && (r.Success? <==> info.amount.Some?)
      && (r.Failure? ==> r.error == AmountMissing)
      && (r.Success? ==> ALGO_ASSET_ID in r.value && r.value[ALGO_ASSET_ID] == info.amount.value
                         && (forall id :: id in r.value <==> id == ALGO_ASSET_ID || id in HoldingsMap(info.assets.value))
                         && forall id | id in r.value && id != ALGO_ASSET_ID :: r.value[id] == HoldingsMap(info.assets.value)[id])
  {
    match UserInfoOf(c, net, address)
    case Failure(e) => Failure(e)
    case Success(info) =>
      if info.amount.None? then Failure(AmountMissing)
      else Success(HoldingsMap(info.assets.value)[ALGO_ASSET_ID := info.amount.value])
  }

  /** `get_user_balances`: the comprehension over the holdings, then key 1. */
  method GetUserBalances(c: Client, net: Network, address: Address) returns (r: Result<map<AssetId, int>, Error>)
    ensures r == BalancesOf(c, net, address)
  {
    var userInfo := GetUserInfo(c, net, address);
    if userInfo.Failure? {
      return Failure(userInfo.error);
    }
    var assets := userInfo.value.assets.value;
    var balances: map<AssetId, int> := map[];
    for i := 0 to |assets|
      invariant balances == HoldingsMap(assets[..i])
    {
      assert assets[..i + 1][..i] == assets[..i];
      balances := balances[assets[i].assetId := assets[i].amount];
    }
    assert assets[..|assets|] == assets;
    if userInfo.value.amount.None? {
      return Failure(AmountMissing);
    }
    balances := balances[ALGO_ASSET_ID := userInfo.value.amount.value];
    return Success(balances);
  }

  /** The balance of one asset: `balances.get(asset_id, 0)`. */
  function UserBalanceOf(c: Client, net: Network, assetId: AssetId, address: Address): (r: Result<int, Error>)
    ensures BalancesOf(c, net, address).Failure? ==> r == Failure(BalancesOf(c, net, address).error)
    ensures BalancesOf(c, net, address).Success? ==>
      var balances := BalancesOf(c, net, address).value;
      && r.Success?
      && (assetId in balances ==> r.value == balances[assetId])
      && (assetId !in balances ==> r.value == 0)
  {
    match BalancesOf(c, net, address)
    case Failure(e) => Failure(e)
    case Success(balances) => Success(if assetId in balances then balances[assetId] else 0)
  }

  /** `get_user_balance`: the balance of one asset, 0 for an asset the user does not hold. */
  method GetUserBalance(c: Client, net: Network, assetId: AssetId, address: Address) returns (r: Result<int, Error>)
    ensures r == UserBalanceOf(c, net, assetId, address)
  {
    var balances := GetUserBalances(c, net, address);
    if balances.Failure? {
      return Failure(balances.error);
    }
    return Success(if assetId in balances.value then balances.value[assetId] else 0);
  }

  /** What `get_user_balance` returns, in terms of the account record: the native
      amount for id 1 (even when an asset with id 1 is held), the amount of the last
      holding of a held asset, and 0 for any other asset. */
  lemma UserBalanceMeaning(c: Client, net: Network, address: Address, assetId: AssetId, i: nat)
    requires BalancesOf(c, net, address).Success?
    ensures var info := UserInfoOf(c, net, address).value;
      var balance := UserBalanceOf(c, net, assetId, address);
      var held := info.assets.value;
      && (assetId == ALGO_ASSET_ID ==> balance == Success(info.amount.value))
      && ((assetId != ALGO_ASSET_ID && forall k | 0 <= k < |held| :: held[k].assetId != assetId) ==>
            balance == Success(0))
      && ((assetId != ALGO_ASSET_ID && i < |held| && held[i].assetId == assetId
           && forall j | i < j < |held| :: held[j].assetId != assetId) ==>
            balance == Success(held[i].amount))
  {
    var info := UserInfoOf(c, net, address).value;
    HoldingsMapKeys(info.assets.value);
    if assetId != ALGO_ASSET_ID && i < |info.assets.value| && info.assets.value[i].assetId == assetId
       && (forall j | i < j < |info.assets.value| :: info.assets.value[j].assetId != assetId) {
      HoldingsMapLastWins(info.assets.value, i);
    }
  }

  // ----- get_storage_state -----

  /** `lst[:count]` for the supported-market count: all of it for None, the first
      `n` (or all when shorter) for an integer, a TypeError for a byte string. */
  function SliceToCount(symbols: seq<Symbol>, count: Option<StateValue>): (r: Result<seq<Symbol>, Error>)
    ensures count.None? ==> r == Success(symbols)
    ensures (count.Some? && count.value.Text?) <==> r == Failure(MarketCountNotInt)
    ensures count.Some? && count.value.UInt? ==>
      r.Success? && r.value == symbols[..if count.value.n < |symbols| then count.value.n else |symbols|]
  {
    match count
    case None => Success(symbols)
    case Some(UInt(n)) => Success(if n < |symbols| then symbols[..n] else symbols)
    case Some(Text(_)) => Failure(MarketCountNotInt)
  }

  /** The result dict after `result[symbol] = markets[symbol].get_storage_state(...)`
      for each symbol in order; the first symbol without a market raises a KeyError. */
  function FillMarkets(result: map<string, StateRecord>, symbols: seq<Symbol>, markets: map<Symbol, Market>,
                       marketState: Market -> StateRecord): Result<map<string, StateRecord>, Error>
  {
    if symbols == [] then Success(result)
    else
      match FillMarkets(result, symbols[..|symbols| - 1], markets, marketState)
      case Failure(e) => Failure(e)
      case Success(filled) =>
        var symbol := symbols[|symbols| - 1];
        if symbol !in markets then Failure(UnknownSymbol(symbol))
        else Success(filled[symbol := marketState(markets[symbol])])
  }

  /** The fill fails exactly when a queried symbol has no market, naming such a symbol;
      otherwise every queried symbol gets its market's state and every other key keeps
      its value. */
  lemma {:induction false} FillMarketsContents(result: map<string, StateRecord>, symbols: seq<Symbol>,
                                               markets: map<Symbol, Market>, marketState: Market -> StateRecord)
    ensures var r := FillMarkets(result, symbols, markets, marketState);
      && (r.Success? <==> forall k | k in symbols :: k in markets)
      && (r.Failure? ==> exists k | k in symbols :: k !in markets && r.error == UnknownSymbol(k))
      && (r.Success? ==>
            && (forall k :: k in r.value <==> k in result || k in symbols)
            && (forall k | k in symbols :: r.value[k] == marketState(markets[k]))
            && (forall k | k in result && k !in symbols :: r.value[k] == result[k]))
  {
    if symbols != [] {
      var init := symbols[..|symbols| - 1];
      var last := symbols[|symbols| - 1];
      FillMarketsContents(result, init, markets, marketState);
      assert symbols == init + [last];
      forall k ensures k in symbols <==> k in init || k == last {
      }
      var r0 := FillMarkets(result, init, markets, marketState);
      if r0.Failure? {
        var k :| k in init && k !in markets && r0.error == UnknownSymbol(k);
        assert k in symbols;
      }
    }
  }

  /** Once a symbol has failed, the symbols after it change nothing: the first
      missing market is the one reported. */
  lemma {:induction false} FillMarketsFailureSticks(result: map<string, StateRecord>, symbols: seq<Symbol>, j: nat,
                                                    markets: map<Symbol, Market>, marketState: Market -> StateRecord)
    requires j <= |symbols|
    requires FillMarkets(result, symbols[..j], markets, marketState).Failure?
    ensures FillMarkets(result, symbols, markets, marketState) == FillMarkets(result, symbols[..j], markets, marketState)
    decreases |symbols| - j
  {
    if j < |symbols| {
      var init := symbols[..|symbols| - 1];
      assert init[..j] == symbols[..j];
      FillMarketsFailureSticks(result, init, j, markets, marketState);
    } else {
      assert symbols[..j] == symbols;
    }
  }

  /** The storage address `get_storage_state` uses: the given one, or the client user's. */
  function StorageAddressFor(c: Client, net: Network, sdk: Sdk, storageAddress: Address): (r: Result<Address, Error>)
    ensures storageAddress != "" ==> r == Success(storageAddress)
    ensures storageAddress == "" ==> r == c.manager.GetStorageAddress(net, sdk, c.userAddress)
  {
    if storageAddress != "" then Success(storageAddress)
    else c.manager.GetStorageAddress(net, sdk, c.userAddress)
  }

  /** The lending state of a storage account: "manager" (when asked for) and each of
      the first supported-market-count active symbols, in order. */
  function StorageStateOf(c: Client, net: Network, sdk: Sdk, storageAddress: Address, block: Block,
                          includeManager: bool, marketState: (Market, Address, Block) -> StateRecord)
    : Result<map<string, StateRecord>, Error>
    reads c.manager
  {
    match StorageAddressFor(c, net, sdk, storageAddress)
    case Failure(e) => Failure(e)
    case Success(a) =>
      var init := if includeManager then map["manager" := c.manager.GetStorageState(net, a, block)] else map[];
      match SliceToCount(c.activeOrderedSymbols, c.manager.GetSupportedMarketCount(net, block))
      case Failure(e) => Failure(e)
      case Success(active) => FillMarkets(init, active, c.markets, m => marketState(m, a, block))
  }

  /** `get_storage_state`: the manager entry, then one entry per supported active market.
      The markets' own storage-state readers (market.py) are the parameter `marketState`. */
  method GetStorageState(c: Client, net: Network, sdk: Sdk, storageAddress: Address, block: Block,
                         includeManager: bool, marketState: (Market, Address, Block) -> StateRecord)
    returns (r: Result<map<string, StateRecord>, Error>)
    ensures r == StorageStateOf(c, net, sdk, storageAddress, block, includeManager, marketState)
  {
    var address := storageAddress;
    if address == "" {
      var resolved := c.manager.GetStorageAddress(net, sdk, c.userAddress);
      if resolved.Failure? {
        return Failure(resolved.error);
      }
      address := resolved.value;
    }
    var result: map<string, StateRecord> := map[];
    if includeManager {
      result := result["manager" := c.manager.GetStorageState(net, address, block)];
    }
    var supportedMarketCount := c.manager.GetSupportedMarketCount(net, block);
    var sliced := SliceToCount(c.activeOrderedSymbols, supportedMarketCount);
    if sliced.Failure? {
      return Failure(sliced.error);
    }
    r := FillActiveMarkets(result, sliced.value, c.markets, address, block, marketState);
  }

  /** The loop of `get_storage_state` over the active symbols. */
  method FillActiveMarkets(init: map<string, StateRecord>, activeMarkets: seq<Symbol>, markets: map<Symbol, Market>,
                           address: Address, block: Block, marketState: (Market, Address, Block) -> StateRecord)
    returns (r: Result<map<string, StateRecord>, Error>)
    ensures r == FillMarkets(init, activeMarkets, markets, m => marketState(m, address, block))
  {
    var result := init;
    for i := 0 to |activeMarkets|
      invariant FillMarkets(init, activeMarkets[..i], markets, m => marketState(m, address, block)) == Success(result)
    {
      assert activeMarkets[..i + 1][..i] == activeMarkets[..i];
      var symbol := activeMarkets[i];
      if symbol !in markets {
        FillMarketsFailureSticks(init, activeMarkets, i + 1, markets, m => marketState(m, address, block));
        return Failure(UnknownSymbol(symbol));
      }
      result := result[symbol := marketState(markets[symbol], address, block)];
    }
    assert activeMarkets[..|activeMarkets|] == activeMarkets;
    return Success(result);
  }

  /** What the storage state holds: "manager" iff asked for (unless a symbol is
      literally "manager"), exactly the first supported-market-count active symbols
      besides, each with its market's state at the same block, and the call fails
      when one of those symbols has no market. */
  lemma {:induction false} StorageStateContents(c: Client, net: Network, sdk: Sdk, storageAddress: Address, block: Block,
                             includeManager: bool, marketState: (Market, Address, Block) -> StateRecord)
    requires StorageAddressFor(c, net, sdk, storageAddress).Success?
    requires SliceToCount(c.activeOrderedSymbols, c.manager.GetSupportedMarketCount(net, block)).Success?
    ensures var a := StorageAddressFor(c, net, sdk, storageAddress).value;
      var active := SliceToCount(c.activeOrderedSymbols, c.manager.GetSupportedMarketCount(net, block)).value;
      var r := StorageStateOf(c, net, sdk, storageAddress, block, includeManager, marketState);
      && (r.Success? <==> forall s | s in active :: s in c.markets)
      && (r.Success? ==>
            && (forall k :: k in r.value <==> (includeManager && k == "manager") || k in active)
            && (forall s | s in active :: r.value[s] == marketState(c.markets[s], a, block))
            && (includeManager && "manager" !in active ==> r.value["manager"] == c.manager.GetStorageState(net, a, block)))
  {
    var a := StorageAddressFor(c, net, sdk, storageAddress).value;
    var active := SliceToCount(c.activeOrderedSymbols, c.manager.GetSupportedMarketCount(net, block)).value;
    var managerState := c.manager.GetStorageState(net, a, block);
    var init := if includeManager then map["manager" := managerState] else map[];
    assert StorageStateOf(c, net, sdk, storageAddress, block, includeManager, marketState)
        == FillMarkets(init, active, c.markets, m => marketState(m, a, block));
    FillFromManager(includeManager, managerState, active, c.markets, m => marketState(m, a, block));
  }

  /** The fill started from the optional "manager" entry. */
  lemma FillFromManager(includeManager: bool, managerState: StateRecord, active: seq<Symbol>,
                        markets: map<Symbol, Market>, marketState: Market -> StateRecord)
    ensures var init := if includeManager then map["manager" := managerState] else map[];
      var r := FillMarkets(init, active, markets, marketState);
      && (r.Success? <==> forall s | s in active :: s in markets)
      && (r.Success? ==>
            && (forall k :: k in r.value <==> (includeManager && k == "manager") || k in active)
            && (forall s | s in active :: r.value[s] == marketState(markets[s]))
            && (includeManager && "manager" !in active ==> r.value["manager"] == managerState))
  {
    var init := if includeManager then map["manager" := managerState] else map[];
    assert forall k :: k in init <==> includeManager && k == "manager";
    FillMarketsContents(init, active, markets, marketState);
  }
}
