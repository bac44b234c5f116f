/** What the core sees of the ledger and of the algosdk library.

    The indexer and algod clients are replaced by tables passed in as values:
    a state read is a lookup of the exact request (application, address, block)
    in the table of the client it is sent to. The algosdk helpers the core calls
    (base64, address encoding, application addresses) are uninterpreted
    functions bundled in `Sdk`. */
module Ledger {
  import opened Wrappers

  type Address = string
  type AppId = int
  type AssetId = int
  type Symbol = string

  /** A decoded key/value state entry: the ledger stores unsigned integers and byte strings. */
  datatype StateValue = UInt(n: nat) | Text(s: string)

  type StateRecord = map<string, StateValue>

  /** The optional `block` argument of the readers: `None` is Python's None. */
  type Block = Option<int>

  /** Python truthiness of `block`: None and 0 are false. */
  predicate Truthy(block: Block) {
    block.Some? && block.value != 0
  }

  /** Python truthiness of a state value, as in `if not raw_storage_address`. */
  predicate TruthyValue(v: StateValue) {
    match v
    case UInt(n) => n != 0
    case Text(s) => s != ""
  }

  /** One `key-value` entry of an application's local state; the key may be missing. */
  datatype KeyValue = KeyValue(key: Option<string>, value: StateValue)

  /** One entry of an account's `apps-local-state` list; a missing `key-value` list is []. */
  datatype AppLocalState = AppLocalState(id: AppId, keyValue: seq<KeyValue>)

  /** One entry of an account's `assets` list. */
  datatype AssetHolding = AssetHolding(assetId: AssetId, amount: int)

  /** The `account` record of the indexer's `account_info` response, as far as the
      core reads it; `None` marks a key the record lacks. */
  datatype UserInfo = UserInfo(
    amount: Option<int>,
    appsLocalState: Option<seq<AppLocalState>>,
    assets: Option<seq<AssetHolding>>)

  /** The indexer's `account_info` response; its `account` key may be missing. */
  datatype AccountResponse = AccountResponse(account: Option<UserInfo>)

  /** One account of the indexer's `accounts` listing (queried without assets). */
  datatype ListedAccount = ListedAccount(address: Address, appsLocalState: Option<seq<AppLocalState>>)

  /** One page of the indexer's `accounts` listing. */
  datatype Page = Page(accounts: seq<ListedAccount>, nextToken: Option<string>)

  /** An indexer: global and local state by exact request, and account records by address. */
  datatype Indexer = Indexer(
    globals: map<(AppId, Block), StateRecord>,
    locals: map<(Address, AppId, Block), StateRecord>,
    accountInfo: map<Address, AccountResponse>)

  /** The two indexers a Manager and a Client hold: the live one and the historical one. */
  datatype Network = Network(live: Indexer, historical: Indexer)

  /** The algosdk helpers the core calls, as uninterpreted functions.
      `b64decode` yields None where base64 decoding raises. */
  datatype Sdk = Sdk(
    b64decode: string -> Option<seq<bv8>>,
    encodeAddress: seq<bv8> -> Address,
    applicationAddress: AppId -> Address,
    b64encodeText: string -> string)

  /** The failures the core raises, one per distinct exception of the source. */
  datatype Error =
    | NoStorageAddress                       // "No storage address found"
    | StorageAddressNotText                  // `.strip()` on a non-string state value
    | InvalidBase64                          // base64.b64decode rejects the stored text
    | AccountMissing(address: Address)       // "Account does not exist with address ..."
    | UserAddressNotSpecified                // "user_address has not been specified"
    | AmountMissing                          // KeyError on user_info["amount"]
    | UnknownSymbol(symbol: Symbol)          // KeyError on self.markets[symbol]
    | UnknownStakingContract(name: string)   // KeyError on self.staking_contracts[name]
    | UnsupportedAsset                       // "Unsupported asset"
    | AlgoVaultNotAllowed                    // "Cannot perform operation on Algo Vault"
    | MarketCountNotInt                      // slicing a list with a non-integer count
    | NoActiveMarkets                        // IndexError on list(...)[0]
    | CommitmentExceedsBalance(amount: int, vault: Address, balance: int)

  /** The client a reader routes a request to: the historical one iff `block` is truthy. */
  function ClientFor(net: Network, block: Block): Indexer {
    if Truthy(block) then net.historical else net.live
  }

  /** `read_global_state(client, app_id, block=block)`: a request without an answer reads as {}. */
  function ReadGlobalState(ix: Indexer, appId: AppId, block: Block): StateRecord {
    if (appId, block) in ix.globals then ix.globals[(appId, block)] else map[]
  }

  /** `read_local_state(client, address, app_id, block=block)`: a request without an answer reads as {}. */
  function ReadLocalState(ix: Indexer, address: Address, appId: AppId, block: Block): StateRecord {
    if (address, appId, block) in ix.locals then ix.locals[(address, appId, block)] else map[]
  }

  /** `record.get(key, None)` */
  function Get(record: StateRecord, key: string): Option<StateValue> {
    if key in record then Some(record[key]) else None
  }

  /** `record.get(key, 0)` */
  function GetOrZero(record: StateRecord, key: string): StateValue {
    if key in record then record[key] else UInt(0)
  }
}
