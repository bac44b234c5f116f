/** The manager reader (manager.py): the one manager application of a
    deployment, its cached global state, and the decoding of a user's manager
    local state (storage address, borrow totals). */
module ManagerReader {
  import opened Wrappers
  import opened Ledger
  import opened PyText
  import CS = ContractStrings

  /** The rewards program the manager rebuilds from each global-state snapshot.
      rewards_program.py is not part of this model, so the program is kept as the
      snapshot it was built from. */
  datatype RewardsProgram = RewardsProgram(managerState: StateRecord)

  /** The global-state snapshot a read at `block` returns, from the client the block selects. */
  function GlobalSnapshot(net: Network, appId: AppId, block: Block): StateRecord {
    ReadGlobalState(ClientFor(net, block), appId, block)
  }

  /** A user is provisioned when their manager local state holds a truthy storage address. */
  predicate Provisioned(userState: StateRecord) {
    CS.USER_STORAGE_ADDRESS in userState && TruthyValue(userState[CS.USER_STORAGE_ADDRESS])
  }

  /** The keys under which the storage state is reported: the literal names the
      reader writes, kept apart from the state keys it looks the values up under. */
  const MAX_BORROW_RESULT_KEY := "user_global_max_borrow_in_dollars"
  const BORROWED_RESULT_KEY := "user_global_borrowed_in_dollars"

  /** The two storage-state fields the manager reports. */
  const STORAGE_STATE_KEYS: set<string> := {MAX_BORROW_RESULT_KEY, BORROWED_RESULT_KEY}

  class Manager {
    const appId: AppId
    const address: Address
    var rewardsProgram: RewardsProgram
    var supportedMarketCount: Option<StateValue>

    /** Reads the live global state once, as the source's constructor does. */
    constructor (net: Network, sdk: Sdk, managerAppId: AppId)
      ensures appId == managerAppId && address == sdk.applicationAddress(managerAppId)
      ensures supportedMarketCount == Get(GlobalSnapshot(net, managerAppId, None), CS.SUPPORTED_MARKET_COUNT)
      ensures rewardsProgram == RewardsProgram(GlobalSnapshot(net, managerAppId, None))
    {
      appId := managerAppId;
      address := sdk.applicationAddress(managerAppId);
      new;
      UpdateGlobalState(net, None);
    }

    /** Re-reads the global state (historically when `block` is truthy) and rebuilds
        both cached fields from that one snapshot; a missing count caches None. */
    method UpdateGlobalState(net: Network, block: Block)
      modifies this
      ensures supportedMarketCount == Get(GlobalSnapshot(net, appId, block), CS.SUPPORTED_MARKET_COUNT)
      ensures rewardsProgram == RewardsProgram(GlobalSnapshot(net, appId, block))
      ensures rewardsProgram.managerState == ReadGlobalState(if Truthy(block) then net.historical else net.live, appId, block)
    {
      var managerState := ReadGlobalState(ClientFor(net, block), appId, block);
      rewardsProgram := RewardsProgram(managerState);
      supportedMarketCount := Get(managerState, CS.SUPPORTED_MARKET_COUNT);
    }

    /** With a truthy block, the historical field (the cache is neither read nor
        written); otherwise the cached count. */
    function GetSupportedMarketCount(net: Network, block: Block): (r: Option<StateValue>)
      reads this
      ensures Truthy(block) ==> r == Get(ReadGlobalState(net.historical, appId, block), CS.SUPPORTED_MARKET_COUNT)
      ensures !Truthy(block) ==> r == supportedMarketCount
    {
      if Truthy(block) then Get(ReadGlobalState(net.historical, appId, block), CS.SUPPORTED_MARKET_COUNT)
      else supportedMarketCount
    }

    /** The storage account of `address`, from its live manager local state: "not
        provisioned" exactly when the field is missing or falsy; a stored integer cannot
        be stripped; otherwise the stored base64 text, stripped of surrounding
        whitespace, decoded and encoded as an address, or an error when it does not decode. */
    function GetStorageAddress(net: Network, sdk: Sdk, address: Address): (r: Result<Address, Error>)
      ensures var userState := ReadLocalState(net.live, address, appId, None);
        && (r == Failure(NoStorageAddress) <==> !Provisioned(userState))
        && (Provisioned(userState) && userState[CS.USER_STORAGE_ADDRESS].UInt? ==> r == Failure(StorageAddressNotText))
        && (Provisioned(userState) && userState[CS.USER_STORAGE_ADDRESS].Text? ==>
              var decoded := sdk.b64decode(Strip(userState[CS.USER_STORAGE_ADDRESS].s));
              && (decoded.None? ==> r == Failure(InvalidBase64))
              && (decoded.Some? ==> r == Success(sdk.encodeAddress(decoded.value))))
      ensures var userState := ReadLocalState(net.live, address, appId, None);
        r.Success? <==> Provisioned(userState) && userState[CS.USER_STORAGE_ADDRESS].Text?
                        && sdk.b64decode(Strip(userState[CS.USER_STORAGE_ADDRESS].s)).Some?
    {
      var userManagerState := ReadLocalState(net.live, address, appId, None);
      var raw := Get(userManagerState, CS.USER_STORAGE_ADDRESS);
      if raw.None? || !TruthyValue(raw.value) then Failure(NoStorageAddress)
      else match raw.value
        case UInt(_) => Failure(StorageAddressNotText)
        case Text(s) =>
          match sdk.b64decode(Strip(s))
          case None => Failure(InvalidBase64)
          case Some(bytes) => Success(sdk.encodeAddress(bytes))
    }

    /** The manager local state of a storage account, read from the client `block`
        selects: exactly the two borrow fields, each the value stored under its state
        key, or 0 when the record lacks it. */
    function GetStorageState(net: Network, storageAddress: Address, block: Block): (r: StateRecord)
      ensures r.Keys == STORAGE_STATE_KEYS
      ensures var userState := ReadLocalState(ClientFor(net, block), storageAddress, appId, block);
        && (CS.USER_GLOBAL_MAX_BORROW_IN_DOLLARS in userState ==>
              r[MAX_BORROW_RESULT_KEY] == userState[CS.USER_GLOBAL_MAX_BORROW_IN_DOLLARS])
        && (CS.USER_GLOBAL_MAX_BORROW_IN_DOLLARS !in userState ==> r[MAX_BORROW_RESULT_KEY] == UInt(0))
        && (CS.USER_GLOBAL_BORROWED_IN_DOLLARS in userState ==>
              r[BORROWED_RESULT_KEY] == userState[CS.USER_GLOBAL_BORROWED_IN_DOLLARS])
        && (CS.USER_GLOBAL_BORROWED_IN_DOLLARS !in userState ==> r[BORROWED_RESULT_KEY] == UInt(0))
    {
      var userState := ReadLocalState(ClientFor(net, block), storageAddress, appId, block);
      map[MAX_BORROW_RESULT_KEY := GetOrZero(userState, CS.USER_GLOBAL_MAX_BORROW_IN_DOLLARS),
          BORROWED_RESULT_KEY := GetOrZero(userState, CS.USER_GLOBAL_BORROWED_IN_DOLLARS)]
    }

    /** The manager state of a user: their storage account resolved (always live),
        then that account's state at `block`. */
    function GetUserState(net: Network, sdk: Sdk, address: Address, block: Block): (r: Result<StateRecord, Error>)
      ensures r.Failure? <==> GetStorageAddress(net, sdk, address).Failure?
      ensures r.Failure? ==> r.error == GetStorageAddress(net, sdk, address).error
      ensures r.Success? ==> r.value == GetStorageState(net, GetStorageAddress(net, sdk, address).value, block)
    {
      match GetStorageAddress(net, sdk, address)
      case Failure(e) => Failure(e)
      case Success(storageAddress) => Success(GetStorageState(net, storageAddress, block))
    }
  }

  /** Surrounding whitespace in the stored storage-address text does not change the
      address it resolves to. */
  lemma {:induction false} StorageAddressIgnoresPadding(m: Manager, net: Network, sdk: Sdk, address: Address, p: string, s: string, q: string)
    requires AllSpace(p) && AllSpace(q) && s != []
    requires (address, m.appId, None) in net.live.locals
    requires net.live.locals[(address, m.appId, None)] == map[CS.USER_STORAGE_ADDRESS := Text(p + s + q)]
    ensures var padded := m.GetStorageAddress(net, sdk, address);
      var bare := Network(net.live.(locals := net.live.locals[(address, m.appId, None) := map[CS.USER_STORAGE_ADDRESS := Text(s)]]), net.historical);
      padded == m.GetStorageAddress(bare, sdk, address)
  {
    var bare := net.live.(locals := net.live.locals[(address, m.appId, None) := map[CS.USER_STORAGE_ADDRESS := Text(s)]]);
    assert ReadLocalState(net.live, address, m.appId, None) == map[CS.USER_STORAGE_ADDRESS := Text(p + s + q)];
    assert ReadLocalState(bare, address, m.appId, None) == map[CS.USER_STORAGE_ADDRESS := Text(s)];
    StripIgnoresPadding(p, s, q);
  }

  /** Live and historical storage-state reads do not interfere: a live read (block
      None or 0) ignores the historical client, and a historical read ignores the live one. */
  lemma StorageStateRouting(m: Manager, net: Network, storageAddress: Address, block: Block, other: Indexer)
    ensures !Truthy(block) ==>
      m.GetStorageState(Network(net.live, other), storageAddress, block) == m.GetStorageState(net, storageAddress, block)
    ensures Truthy(block) ==>
      m.GetStorageState(Network(other, net.historical), storageAddress, block) == m.GetStorageState(net, storageAddress, block)
  {
  }

  /** A user's historical state is that of the storage account their live state names:
      the historical client is never asked for the storage address. */
  lemma UserStateResolvesAddressLive(m: Manager, net: Network, sdk: Sdk, address: Address, block: Block, other: Indexer)
    ensures m.GetStorageAddress(Network(net.live, other), sdk, address) == m.GetStorageAddress(net, sdk, address)
    ensures Truthy(block) && m.GetUserState(net, sdk, address, block).Success? ==>
      m.GetUserState(net, sdk, address, block).value
      == m.GetStorageState(Network(other, net.historical), m.GetStorageAddress(net, sdk, address).value, block)
  {
  }
}
