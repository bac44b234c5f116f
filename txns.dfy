/** Unsigned transaction descriptors, as the algosdk constructors the composers
    call build them (ApplicationNoOpTxn, AssetTransferTxn, PaymentTxn), and what
    a group of them moves between accounts. */
module Txns {
  import opened Wrappers
  import opened Ledger

  /** algosdk's SuggestedParams: the fee fields and the validity window. */
  datatype SuggestedParams = SuggestedParams(
    fee: int,
    flatFee: bool,
    firstValid: int,
    lastValid: int,
    genesisId: string,
    genesisHash: string)

  /** One unsigned transaction. An absent reference list is []. */
  datatype Txn =
    | AppCall(sender: Address, sp: SuggestedParams, appId: AppId, args: seq<string>,
              foreignApps: seq<AppId>, foreignAssets: seq<AssetId>, accounts: seq<Address>)
    | AssetXfer(sender: Address, sp: SuggestedParams, receiver: Address, amt: int, assetId: AssetId)
    | Pay(sender: Address, sp: SuggestedParams, receiver: Address, amt: int)

  /** A transfer of value: `asset` None is the native ALGO. */
  datatype Movement = Movement(from: Address, to: Address, amount: int, asset: Option<AssetId>)

  /** The value transfers of a group, in group order; application calls move nothing. */
  function ValueMovements(g: seq<Txn>): seq<Movement> {
    if g == [] then []
    else
      ValueMovements(g[..|g| - 1]) +
      match g[|g| - 1]
      case AppCall(_, _, _, _, _, _, _) => []
      case AssetXfer(s, _, to, amt, id) => [Movement(s, to, amt, Some(id))]
      case Pay(s, _, to, amt) => [Movement(s, to, amt, None)]
  }

  /** The transfers of a concatenation are those of each part, in order. */
  lemma {:induction false} ValueMovementsAppend(a: seq<Txn>, b: seq<Txn>)
    ensures ValueMovements(a + b) == ValueMovements(a) + ValueMovements(b)
  {
    if b == [] {
      assert a + b == a;
    } else {
      var c := a + b;
      assert c[..|c| - 1] == a + b[..|b| - 1];
      ValueMovementsAppend(a, b[..|b| - 1]);
    }
  }

  // The ledger's per-call reference limits (Algorand consensus parameters
  // MaxAppTxnAccounts, MaxAppTxnForeignApps, MaxAppTxnForeignAssets and
  // MaxAppTotalTxnReferences).
  const MAX_ACCOUNTS := 4
  const MAX_FOREIGN_APPS := 8
  const MAX_FOREIGN_ASSETS := 8
  const MAX_TOTAL_REFERENCES := 8

  /** A transaction the ledger accepts as far as its reference lists go. */
  predicate WithinReferenceLimits(t: Txn) {
    t.AppCall? ==>
      && |t.accounts| <= MAX_ACCOUNTS
      && |t.foreignApps| <= MAX_FOREIGN_APPS
      && |t.foreignAssets| <= MAX_FOREIGN_ASSETS
      && |t.accounts| + |t.foreignApps| + |t.foreignAssets| <= MAX_TOTAL_REFERENCES
  }

  /** Every transaction is sent by `sender` with the suggested params `sp`. */
  predicate SentBy(g: seq<Txn>, sender: Address, sp: SuggestedParams) {
    forall k | 0 <= k < |g| :: g[k].sender == sender && g[k].sp == sp
  }
}
