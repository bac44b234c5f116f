/** The facade's configuration (client.py, `Client`): the user, the ordered
    market symbols, the market and staking-contract handles, the manager; and the
    getters that select markets and assets from it. The client's fields are set
    once by its constructor and never reassigned, so it is a value here; the
    manager it holds is the mutable `Manager` object. */
module ClientMarkets {
  import opened Wrappers
  import opened Ledger
  import opened Txns
  import opened ManagerReader

  /** The ids of a market's asset (market.py is not part of this model). */
  datatype Asset = Asset(underlyingAssetId: AssetId, bankAssetId: AssetId, oracleAppId: AppId)

  /** A market handle: its application, the application's address and its asset. */
  datatype Market = Market(appId: AppId, address: Address, asset: Asset)

  /** A staking-contract handle: the manager application it belongs to. */
  datatype StakingContract = StakingContract(managerAppId: AppId)

  /** The client. `userAddress` "" stands for an unset user address. */
  datatype Client = Client(
    userAddress: Address,
    activeOrderedSymbols: seq<Symbol>,
    maxOrderedSymbols: seq<Symbol>,
    markets: map<Symbol, Market>,
    stakingContracts: map<string, StakingContract>,
    manager: Manager)
  {
    /** What the constructor establishes: one market per symbol of the duplicate-free
        `maxOrderedSymbols`, in that order. */
    ghost predicate Valid() {
      && (forall s :: s in markets <==> s in maxOrderedSymbols)
      && Distinct(maxOrderedSymbols)
    }
  }

  /** The native asset's id in balance maps. */
  const ALGO_ASSET_ID := 1

  /** `get_default_params`: the node's suggested params with a flat fee of 1000;
      nothing else changes. */
  function DefaultParams(suggested: SuggestedParams): (sp: SuggestedParams)
    ensures sp.fee == 1000 && sp.flatFee
    ensures sp.(fee := suggested.fee, flatFee := suggested.flatFee) == suggested
  {
    suggested.(flatFee := true, fee := 1000)
  }

  /** `address or self.user_address`, with "" for None. */
  function ResolveAddress(c: Client, address: Address): (a: Address)
    ensures address != "" ==> a == address
    ensures address == "" ==> a == c.userAddress
  {
    if address != "" then address else c.userAddress
  }

  /** `get_market`: the handle of a symbol, a KeyError for any other. */
  function GetMarket(c: Client, symbol: Symbol): (r: Result<Market, Error>)
    ensures r.Success? <==> symbol in c.markets
    ensures r.Success? ==> r.value == c.markets[symbol]
    ensures r.Failure? ==> r.error == UnknownSymbol(symbol)
  {
    if symbol in c.markets then Success(c.markets[symbol]) else Failure(UnknownSymbol(symbol))
  }

  /** The positions of `xs` whose element occurs in `keep`, in increasing order. */
  function KeptPositions(xs: seq<Symbol>, keep: seq<Symbol>): (r: seq<nat>)
    ensures forall j | 0 <= j < |r| :: r[j] < |xs| && xs[r[j]] in keep
    ensures forall i, j | 0 <= i < j < |r| :: r[i] < r[j]
    ensures forall i | 0 <= i < |xs| && xs[i] in keep :: i in r
  {
    if xs == [] then []
    else
      var init := xs[..|xs| - 1];
      var r0 := KeptPositions(init, keep);
      var r := r0 + (if xs[|xs| - 1] in keep then [|xs| - 1] else []);
      KeptStep(xs, init, keep, r0, r);
      r
  }

  /** One step of `KeptPositions`: the kept positions of `init` extended by the last
      position of `xs` when its element is kept. */
  lemma {:induction false} KeptStep(xs: seq<Symbol>, init: seq<Symbol>, keep: seq<Symbol>, r0: seq<nat>, r: seq<nat>)
    requires xs != [] && init == xs[..|xs| - 1]
    requires forall j | 0 <= j < |r0| :: r0[j] < |init| && init[r0[j]] in keep
    requires forall i, j | 0 <= i < j < |r0| :: r0[i] < r0[j]
    requires forall i | 0 <= i < |init| && init[i] in keep :: i in r0
    requires r == r0 + (if xs[|xs| - 1] in keep then [|xs| - 1] else [])
    ensures forall j | 0 <= j < |r| :: r[j] < |xs| && xs[r[j]] in keep
    ensures forall i, j | 0 <= i < j < |r| :: r[i] < r[j]
    ensures forall i | 0 <= i < |xs| && xs[i] in keep :: i in r
  {
    assert forall j | 0 <= j < |r0| :: xs[r0[j]] == init[r0[j]];
    assert forall i | 0 <= i < |init| :: xs[i] == init[i];
  }

  /** The elements of `xs` that occur in `keep`, in the order of `xs`: `xs` read at
      its kept positions. */
  function FilterIn(xs: seq<Symbol>, keep: seq<Symbol>): (r: seq<Symbol>)
    ensures var k := KeptPositions(xs, keep);
      |r| == |k| && forall j | 0 <= j < |r| :: r[j] == xs[k[j]]
    ensures forall s :: s in r <==> s in xs && s in keep
  {
    if xs == [] then []
    else
      var init := xs[..|xs| - 1];
      var r0 := FilterIn(init, keep);
      var k0 := KeptPositions(init, keep);
      var add := xs[|xs| - 1] in keep;
      assert KeptPositions(xs, keep) == k0 + (if add then [|xs| - 1] else []);
      PickStep(xs, k0, r0, add);
      var r := r0 + (if add then [xs[|xs| - 1]] else []);
      PickedMembers(xs, keep, KeptPositions(xs, keep), r);
      r
  }

  /** Reading one more position, the last, extends the reading by the last element. */
  lemma PickStep(xs: seq<Symbol>, k0: seq<nat>, r0: seq<Symbol>, add: bool)
    requires xs != []
    requires |r0| == |k0| && forall j | 0 <= j < |r0| :: k0[j] < |xs| - 1 && r0[j] == xs[..|xs| - 1][k0[j]]
    ensures var k := k0 + (if add then [|xs| - 1] else []);
      var r := r0 + (if add then [xs[|xs| - 1]] else []);
      |r| == |k| && forall j | 0 <= j < |r| :: r[j] == xs[k[j]]
  {
  }

  /** Reading `xs` at exactly its kept positions gives exactly its kept elements. */
  lemma PickedMembers(xs: seq<Symbol>, keep: seq<Symbol>, k: seq<nat>, r: seq<Symbol>)
    requires forall j | 0 <= j < |k| :: k[j] < |xs| && xs[k[j]] in keep
    requires forall i | 0 <= i < |xs| && xs[i] in keep :: i in k
    requires |r| == |k| && forall j | 0 <= j < |r| :: r[j] == xs[k[j]]
    ensures forall s :: s in r <==> s in xs && s in keep
  {
    forall s | s in xs && s in keep
      ensures s in r
    {
      var i :| 0 <= i < |xs| && xs[i] == s;
      var j :| 0 <= j < |k| && k[j] == i;
      assert r[j] == s;
    }
  }

  /** No symbol occurs twice. */
  predicate Distinct(s: seq<Symbol>) {
    forall i, j | 0 <= i < j < |s| :: s[i] != s[j]
  }

  lemma {:induction false} FilterInDistinct(xs: seq<Symbol>, keep: seq<Symbol>)
    requires Distinct(xs)
    ensures Distinct(FilterIn(xs, keep))
  {
    if xs != [] {
      var init, last := xs[..|xs| - 1], xs[|xs| - 1];
      assert Distinct(init) by {
        forall i, j | 0 <= i < j < |init| ensures init[i] != init[j] {
          assert init[i] == xs[i] && init[j] == xs[j];
        }
      }
      FilterInDistinct(init, keep);
      var r0 := FilterIn(init, keep);
      assert last !in r0;
      assert FilterIn(xs, keep) == r0 + (if last in keep then [last] else []);
      DistinctAppend(r0, last, last in keep);
    }
  }

  /** Appending an element a distinct sequence lacks keeps it distinct. */
  lemma {:induction false} DistinctAppend(r0: seq<Symbol>, last: Symbol, add: bool)
    requires Distinct(r0) && last !in r0
    ensures Distinct(r0 + (if add then [last] else []))
  {
    var r := r0 + (if add then [last] else []);
    forall i, j | 0 <= i < j < |r| ensures r[i] != r[j] {
      assert r[i] == r0[i];
      if j >= |r0| {
        assert r[j] == last;
        assert r0[i] in r0;
      } else {
        assert r[j] == r0[j];
      }
    }
  }

  /** The symbols of `get_active_markets()` in its iteration order: the market dict
      is built in `maxOrderedSymbols` order and filtered by the active symbols. */
  function ActiveMarketSymbols(c: Client): (r: seq<Symbol>)
    ensures forall s :: s in r <==> s in c.maxOrderedSymbols && s in c.activeOrderedSymbols
    ensures var k := KeptPositions(c.maxOrderedSymbols, c.activeOrderedSymbols);
      |r| == |k| && forall j | 0 <= j < |r| :: r[j] == c.maxOrderedSymbols[k[j]]
  {
    FilterIn(c.maxOrderedSymbols, c.activeOrderedSymbols)
  }

  /** The first active market is the first symbol of `maxOrderedSymbols` that is active,
      and there is one exactly when some symbol there is active. */
  lemma FirstActiveSymbol(c: Client)
    ensures ActiveMarketSymbols(c) != []
            <==> exists i | 0 <= i < |c.maxOrderedSymbols| :: c.maxOrderedSymbols[i] in c.activeOrderedSymbols
    ensures forall i | 0 <= i < |c.maxOrderedSymbols| && c.maxOrderedSymbols[i] in c.activeOrderedSymbols ::
              (forall h | 0 <= h < i :: c.maxOrderedSymbols[h] !in c.activeOrderedSymbols)
              ==> ActiveMarketSymbols(c)[0] == c.maxOrderedSymbols[i]
  {
    var xs, keep := c.maxOrderedSymbols, c.activeOrderedSymbols;
    FirstPicked(xs, keep, KeptPositions(xs, keep), ActiveMarketSymbols(c));
  }

  /** The elements of `xs` picked at increasing positions `k`, which hold every kept
      element: the first one picked is the first kept element of `xs`. */
  lemma {:induction false} FirstPicked(xs: seq<Symbol>, keep: seq<Symbol>, k: seq<nat>, r: seq<Symbol>)
    requires forall j | 0 <= j < |k| :: k[j] < |xs| && xs[k[j]] in keep
    requires forall i, j | 0 <= i < j < |k| :: k[i] < k[j]
    requires forall i | 0 <= i < |xs| && xs[i] in keep :: i in k
    requires |r| == |k| && forall j | 0 <= j < |r| :: r[j] == xs[k[j]]
    ensures r != [] <==> exists i | 0 <= i < |xs| :: xs[i] in keep
    ensures forall i | 0 <= i < |xs| && xs[i] in keep ::
              (forall h | 0 <= h < i :: xs[h] !in keep) ==> r[0] == xs[i]
  {
    forall i | 0 <= i < |xs| && xs[i] in keep && (forall h | 0 <= h < i :: xs[h] !in keep)
      ensures r[0] == xs[i]
    {
      assert i in k;
      var j :| 0 <= j < |k| && k[j] == i;
      assert xs[k[0]] in keep;
    }
    if exists i | 0 <= i < |xs| :: xs[i] in keep {
      var i :| 0 <= i < |xs| && xs[i] in keep;
      assert i in k;
    }
    if r != [] {
      assert k[0] < |xs| && xs[k[0]] in keep;
    }
  }

  /** `get_active_markets`: the market handles whose symbol is active. */
  function GetActiveMarkets(c: Client): (r: map<Symbol, Market>)
    ensures forall s :: s in r <==> s in c.markets && s in c.activeOrderedSymbols
    ensures forall s | s in r :: r[s] == c.markets[s]
  {
    map s | s in c.markets && s in c.activeOrderedSymbols :: c.markets[s]
  }

  /** `get_active_market_app_ids`: the active markets' application ids, in dict order. */
  function ActiveMarketAppIds(c: Client): (r: seq<AppId>)
    requires c.Valid()
    ensures var syms := ActiveMarketSymbols(c);
      && |r| == |syms|
      && forall i | 0 <= i < |r| :: syms[i] in GetActiveMarkets(c) && r[i] == GetActiveMarkets(c)[syms[i]].appId
  {
    var syms := ActiveMarketSymbols(c);
    seq(|syms|, i requires 0 <= i < |syms| => c.markets[syms[i]].appId)
  }

  /** `get_active_oracle_app_ids`: the active markets' oracle ids, in dict order. */
  function ActiveOracleAppIds(c: Client): (r: seq<AppId>)
    requires c.Valid()
    ensures var syms := ActiveMarketSymbols(c);
      && |r| == |syms|
      && forall i | 0 <= i < |r| :: syms[i] in GetActiveMarkets(c) && r[i] == GetActiveMarkets(c)[syms[i]].asset.oracleAppId
  {
    var syms := ActiveMarketSymbols(c);
    seq(|syms|, i requires 0 <= i < |syms| => c.markets[syms[i]].asset.oracleAppId)
  }

  /** `get_asset`: "Unsupported asset" exactly for inactive symbols; otherwise the market's asset. */
  function GetAsset(c: Client, symbol: Symbol): (r: Result<Asset, Error>)
    requires c.Valid()
    ensures r == Failure(UnsupportedAsset) <==> symbol !in c.activeOrderedSymbols
    ensures r.Success? <==> symbol in c.activeOrderedSymbols && symbol in c.maxOrderedSymbols
    ensures r.Success? ==> r.value == c.markets[symbol].asset
  {
    if symbol !in c.activeOrderedSymbols then Failure(UnsupportedAsset)
    else match GetMarket(c, symbol)
      case Failure(e) => Failure(e)
      case Success(market) => Success(market.asset)
  }

  /** The active market list a Valid client hands to every composer has no repeated symbol. */
  lemma ActiveMarketSymbolsDistinct(c: Client)
    requires c.Valid()
    ensures Distinct(ActiveMarketSymbols(c))
  {
    FilterInDistinct(c.maxOrderedSymbols, c.activeOrderedSymbols);
  }
}
